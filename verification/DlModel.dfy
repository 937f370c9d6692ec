/**
 * The on-request-data side of the data link layer as a step machine on values:
 * the OD handler, which multiplexes the ISDU, Command and Event handlers onto
 * the master/device message exchange, and the DL services that feed it.
 *
 * `out` records every accepted OD_req by channel and every service primitive
 * handed to the upper layers. Only its `wire`, the message in the transmit
 * buffer, stands for state of the program; the rest is history and is never
 * read back.
 */
module DlModel {
  import opened Bytes
  import opened IsduCodec

  const FLOWCTRL_START: nat := 0x10
  const FLOWCTRL_IDLE_1: nat := 0x11
  const FLOWCTRL_ABORT: nat := 0x1F

  const MASTERCMD_NONE: byte := 0x00
  const MASTERCMD_FALLBACK: byte := 0x5A
  const MASTERCMD_DEVICE_STARTUP: byte := 0x97
  const MASTERCMD_DEVICE_PD_OUT_OP: byte := 0x98
  const MASTERCMD_DEVICE_OPERATE: byte := 0x99
  const MASTERCMD_DEVICE_PREOP: byte := 0x9A

  const MAX_EVENTS: nat := 6
  const RXTX_BUFFER_SIZE: nat := 64

  /** The control octet of the message that confirms an event: write, diagnosis
      channel, address 0. It is also the first octet of the transmit buffer. */
  const EVENT_CONFIRM_OCTET: byte := 0x40

  datatype Trigger = TrigNone | TrigDevice | TrigMaster

  datatype Channel = ChProcess | ChPage | ChDiagnosis | ChIsdu

  /** One OD_req: a write carries exactly od_len octets, a read none. */
  datatype Frame = Frame(write: bool, channel: Channel, addr: nat, data: seq<byte>)

  datatype Status =
    | NoError | NoComm | StateConflict | Invalid | IsduTimeout | ValueOutOfRange
    | IsduChecksumError | IllegalServicePrimitive | IsduAborted | ParameterConflict

  /** DL_ISDUTransport_cnf. */
  datatype IsduCnf = IsduCnf(data: seq<byte>, qualifier: nat, status: Status)

  /** The other primitives given to the application layer and system management. */
  datatype Primitive =
    | ReadParamCnf(value: byte, rstatus: Status)
    | WriteParamCnf(wstatus: Status)
    | WriteDevicemodeCnf(master_command: byte, dstatus: Status)
    | EventInd(code: nat, event_qualifier: byte, eventsleft: int)

  datatype RwCmd =
    | RwNone | RwWrite | RwRead | RwWriteParam | RwReadParam
    | RwIsduTransport | RwIsduAbort

  datatype OdState = OdInactive0 | OdIsdu1 | OdCommand2 | OdEvent3
  datatype IsduState = IhInactive0 | IhIdle1 | IhRequest2 | IhWait3 | IhError4 | IhResponse5
  datatype CmdState = ChInactive0 | ChIdle1 | ChMasterCommand2
  datatype EvState = EhInactive0 | EhIdle1 | EhReadEvent2 | EhSignalEvent3
  datatype ModeState = MdIdle0 | MdEstCom1 | MdStartup2 | MdPreoperate3 | MdOperate4
  datatype DlMode = ModeInactive | ModeStartup | ModePreoperate | ModeOperate
  datatype ControlCode = CcNone | CcValid | CcInvalid | CcPdOutValid | CcPdOutInvalid | CcDevicemode

  type IsduBuffer = s: seq<byte> | |s| == ISDU_MAX_SIZE witness Zeros(ISDU_MAX_SIZE)
  /** On-request octets per message; every mode the master requests has 1..32. */
  type OdLen = n: nat | 1 <= n <= OD_MAX_SIZE witness 1
  type RxBuffer = s: seq<byte> | |s| == RXTX_BUFFER_SIZE witness Zeros(RXTX_BUFFER_SIZE)

  datatype OdHandler = OdHandler(
    state: OdState, active: bool, trigger: Trigger, data_addr: nat, data_value: byte)

  datatype IsduHandler = IsduHandler(
    state: IsduState, active: bool,
    total_isdu_len: nat, current_isdu_seg: nat, total_isdu_seg: nat,
    data: IsduBuffer, timer_on: bool, timer_expired: bool, data_dir_read: bool)

  datatype CmdHandler = CmdHandler(
    state: CmdState, active: bool, control_code: ControlCode, master_command: byte)

  datatype Event = Event(event_qualifier: byte, event_code_msb: byte, event_code_lsb: byte)

  const NO_EVENT := Event(0, 0, 0)
  const NO_EVENTS: seq<Event> := [NO_EVENT, NO_EVENT, NO_EVENT, NO_EVENT, NO_EVENT, NO_EVENT]

  type EventList = s: seq<Event> | |s| == MAX_EVENTS witness NO_EVENTS

  datatype EvHandler = EvHandler(
    state: EvState, active: bool, event_flag: bool, event_confirmation: bool,
    ev_addr: nat, status_code: byte, num_entries: int, ev_cnt: nat, ev_current: nat,
    events: EventList)

  /** segments/polls: ISDU writes/reads; page, diag: those channels' messages. */
  datatype Out = Out(
    wire: Frame, segments: seq<Frame>, polls: seq<Frame>, page: seq<Frame>, diag: seq<Frame>,
    cnfs: seq<IsduCnf>, log: seq<Primitive>)

  datatype Dl = Dl(
    od: OdHandler, isdu: IsduHandler, cmd: CmdHandler, ev: EvHandler,
    rwcmd: RwCmd, od_len: OdLen, mode: ModeState, dl_mode: DlMode, com_lost: bool,
    rx: RxBuffer, out: Out)
  {
    /** The ISDU response time has run out (a reset timer never elapses). */
    predicate TimerElapsed() {
      isdu.timer_on && isdu.timer_expired
    }
  }

  // ---------- DL-A: OD_req ----------

  function Pad(data: seq<byte>, n: nat): (r: seq<byte>)
    ensures |r| == n
  {
    Window(data, 0, n)
  }

  function Say(s: Dl, p: Primitive): Dl {
    s.(out := s.out.(log := s.out.log + [p]))
  }

  function Confirm(s: Dl, c: IsduCnf): Dl {
    s.(out := s.out.(cnfs := s.out.cnfs + [c]))
  }

  function Sent(o: Out, f: Frame): Out {
    match f.channel
    case ChIsdu =>
      if f.write then o.(wire := f, segments := o.segments + [f]) else o.(wire := f, polls := o.polls + [f])
    case ChPage => o.(wire := f, page := o.page + [f])
    case ChDiagnosis => o.(wire := f, diag := o.diag + [f])
    case ChProcess => o.(wire := f)
  }

  function OdReq(s: Dl, write: bool, channel: Channel, addr: nat, data: seq<byte>): Dl {
    if |data| > OD_MAX_SIZE || addr > 31 then s
    else s.(out := Sent(s.out, Frame(write, channel, addr, if write then Pad(data, s.od_len) else [])))
  }

  // ---------- ISDU handler ----------

  /** How a transfer that was given up is confirmed. */
  function GivenUp(s: Dl): IsduCnf {
    if s.TimerElapsed() then IsduCnf([], DEVICE_NO_SERVICE, IsduTimeout)
    else if s.com_lost then IsduCnf([], DEVICE_NO_SERVICE, NoComm)
    else if s.rwcmd == RwIsduAbort then IsduCnf([], DEVICE_NO_SERVICE, IsduAborted)
    else if !ValidHeader(s.isdu.data, s.isdu.data_dir_read) then
      IsduCnf([], IServiceOf(s.isdu.data), IllegalServicePrimitive)
    else IsduCnf([], DEVICE_NO_SERVICE, Invalid)
  }

  function GiveUp(s: Dl, c: IsduCnf): Dl {
    var t := OdReq(s.(isdu := s.isdu.(total_isdu_seg := 0)), false, ChIsdu, FLOWCTRL_ABORT, []);
    var u := Confirm(t, c);
    u.(rwcmd := RwNone, isdu := u.isdu.(state := IhIdle1))
  }

  function IsduError4(s: Dl): Dl {
    if !s.isdu.active then s.(isdu := s.isdu.(state := IhInactive0))  // T15
    else GiveUp(s, GivenUp(s))  // T11
  }

  function EnterIsduError4(s: Dl): Dl {
    if !s.isdu.active then
      var t := Confirm(s, IsduCnf([], 0, NoComm));
      t.(isdu := t.isdu.(total_isdu_seg := 0, state := IhInactive0))  // T15
    else if s.od.trigger == TrigMaster then IsduError4(s)
    else s.(isdu := s.isdu.(state := IhError4))
  }

  function TimerReset(s: Dl): Dl {
    s.(isdu := s.isdu.(timer_on := false))
  }

  /** The n octets a complete response carries between header and CHKPDU. */
  function ResponseData(d: IsduBuffer, n: nat): seq<byte> {
    Window(d, HeaderLen(d), n)
  }

  /** How the response in the buffer is confirmed. */
  function Completed(s: Dl): IsduCnf {
    var d := s.isdu.data;
    match TotalLenOf(d)
    case None => IsduCnf([], IServiceOf(d), Invalid)
    case Some(len) =>
      // The length is an octet: an extended length of 2 wraps to 255.
      var n := (len - HeaderLen(d) - 1) % 256;
      IsduCnf(ResponseData(d, n), IServiceOf(d),
        if XorFold(Window(d, 0, s.isdu.total_isdu_len)) == 0 then NoError else IsduChecksumError)
  }

  function Conclude(s: Dl, c: IsduCnf): Dl {
    var t := Confirm(s, c);
    t.(rwcmd := RwNone,
       isdu := t.isdu.(current_isdu_seg := 0, total_isdu_seg := 0, state := IhIdle1))
  }

  function ReceptionComplete(s: Dl): Dl {
    Conclude(s, Completed(s))  // T8
  }

  function IsduInactive0(s: Dl): Dl {
    if s.isdu.active then
      s.(isdu := s.isdu.(total_isdu_seg := 0, current_isdu_seg := 0, state := IhIdle1))  // T1
    else s
  }

  /** The first segment of the request goes out. */
  function StartRequest(s: Dl): Dl {
    var t := OdReq(s, true, ChIsdu, FLOWCTRL_START, Window(s.isdu.data, 0, s.od_len));
    t.(isdu := t.isdu.(current_isdu_seg := 1, state := IhRequest2))
  }

  function IdleMaster(s: Dl): Dl {
    match s.rwcmd
    case RwIsduTransport => StartRequest(s)  // T2
    case RwReadParam => OdReq(s, false, ChPage, s.od.data_addr, [])  // T13
    case RwWriteParam => OdReq(s, true, ChPage, s.od.data_addr, [s.od.data_value])  // T13
    case _ => OdReq(s, false, ChIsdu, FLOWCTRL_IDLE_1, [])  // T14
  }

  function IdleDevice(s: Dl): Dl {
    match s.rwcmd
    case RwReadParam => Say(s, ReadParamCnf(s.rx[0], NoError)).(rwcmd := RwNone)
    case RwWriteParam => Say(s, WriteParamCnf(NoError)).(rwcmd := RwNone)
    case _ => s
  }

  function IsduIdle1(s: Dl): Dl {
    if !s.isdu.active then  // T16
      var t := if s.isdu.total_isdu_seg != 0 then Confirm(s, IsduCnf([], 0, NoComm)) else s;
      t.(isdu := t.isdu.(total_isdu_seg := 0, state := IhInactive0))
    else if s.od.trigger == TrigMaster then IdleMaster(s)
    else if s.od.trigger == TrigDevice then IdleDevice(s)
    else s
  }

  /** The next segment of the request goes out. */
  function NextRequestSegment(s: Dl): Dl {
    var cur := s.isdu.current_isdu_seg;
    CountSegment(OdReq(s, true, ChIsdu, cur % 16, Window(s.isdu.data, Times(cur, s.od_len), s.od_len)))  // T3
  }

  function IsduRequest2(s: Dl): Dl {
    if s.rwcmd == RwIsduAbort || s.com_lost then EnterIsduError4(s)  // T12, T19
    else if s.od.trigger == TrigMaster then NextRequestSegment(s)
    else if s.od.trigger == TrigDevice && s.isdu.current_isdu_seg >= s.isdu.total_isdu_seg then
      s.(isdu := s.isdu.(timer_on := true, timer_expired := false,
                         current_isdu_seg := 0, state := IhWait3))  // T4
    else s
  }

  /** Copies the received octets to their place in the response buffer. */
  function Receive(s: Dl): Dl {
    var d := Overwrite(s.isdu.data, Times(s.isdu.current_isdu_seg, s.od_len), Window(s.rx, 0, s.od_len));
    s.(isdu := s.isdu.(data := d))
  }

  /** Total length and segment count as the buffer now claims them. */
  function ReadLength(s: Dl): Dl {
    var len := match TotalLenOf(s.isdu.data) case None => 0 case Some(l) => l;
    s.(isdu := s.isdu.(total_isdu_len := len, total_isdu_seg := Pieces(len, s.od_len)))
  }

  /** WAIT_3 with the first octets of an answer in the buffer. */
  function Wait3Answer(t: Dl): Dl {
    if t.isdu.data[0] == DEVICE_NO_SERVICE * 16 + 1 then t  // device busy
    else if t.isdu.data[0] == 0 || !ValidHeader(t.isdu.data, t.isdu.data_dir_read) then
      EnterIsduError4(TimerReset(t))  // T9
    else FirstSegment(t)
  }

  /** The first segment is in; the header tells how many there are. */
  function FirstSegment(t: Dl): Dl {
    Collected(FirstRead(t))  // T6
  }

  function FirstRead(t: Dl): Dl {
    TimerReset(ReadLength(t.(isdu := t.isdu.(current_isdu_seg := 1, state := IhResponse5))))
  }

  /** Another segment is in: either the response is complete or it goes on. */
  function Collected(v: Dl): Dl {
    if v.isdu.current_isdu_seg >= v.isdu.total_isdu_seg then ReceptionComplete(v) else v
  }

  function IsduWait3(s: Dl): Dl {
    if s.rwcmd == RwIsduAbort then EnterIsduError4(TimerReset(s))  // T17
    else if s.TimerElapsed() || s.com_lost then EnterIsduError4(s)  // T9
    else if s.od.trigger == TrigMaster then OdReq(s, false, ChIsdu, FLOWCTRL_START, Window(s.isdu.data, 0, s.od_len))  // T5
    else if s.od.trigger == TrigDevice then Wait3Answer(Receive(s))
    else s
  }

  function CountSegment(s: Dl): Dl {
    s.(isdu := s.isdu.(current_isdu_seg := (s.isdu.current_isdu_seg + 1) % 256))
  }

  function IsduResponse5(s: Dl): Dl {
    var cur := s.isdu.current_isdu_seg;
    if s.rwcmd == RwIsduAbort || s.com_lost then EnterIsduError4(s)  // T18, T10
    else if s.od.trigger == TrigMaster then
      OdReq(s, false, ChIsdu, cur % 16, Window(s.isdu.data, Times(cur, s.od_len), s.od_len))  // T7
    else if s.od.trigger == TrigDevice then Collected(CountSegment(Receive(ReadLength(s))))
    else s
  }

  function IsduSm(s: Dl): Dl {
    match s.isdu.state
    case IhInactive0 => IsduInactive0(s)
    case IhIdle1 => IsduIdle1(s)
    case IhRequest2 => IsduRequest2(s)
    case IhWait3 => IsduWait3(s)
    case IhError4 => IsduError4(s)
    case IhResponse5 => IsduResponse5(s)
  }

  // ---------- Command handler ----------

  function CmdSm(s: Dl): Dl {
    match s.cmd.state
    case ChInactive0 =>
      if s.cmd.active then s.(cmd := s.cmd.(state := ChIdle1)) else s  // T1
    case ChIdle1 =>
      if !s.cmd.active then s.(cmd := s.cmd.(state := ChInactive0))  // T6
      else if s.cmd.control_code == CcPdOutValid || s.cmd.control_code == CcPdOutInvalid then
        var mc := if s.cmd.control_code == CcPdOutValid then MASTERCMD_DEVICE_PD_OUT_OP else MASTERCMD_DEVICE_OPERATE;
        s.(cmd := s.cmd.(master_command := mc, state := ChMasterCommand2))  // T3
      else if s.cmd.control_code == CcDevicemode then s.(cmd := s.cmd.(state := ChMasterCommand2))  // T4
      else s
    case ChMasterCommand2 =>
      var t := OdReq(s, true, ChPage, 0, [s.cmd.master_command]);
      t.(cmd := t.cmd.(control_code := CcNone, state := ChIdle1))  // T5
  }

  function WriteMasterCommand(s: Dl, status: Status): Dl {
    var mc := s.cmd.master_command;
    var t := s.(cmd := s.cmd.(master_command := MASTERCMD_NONE));
    if mc == MASTERCMD_DEVICE_OPERATE || mc == MASTERCMD_DEVICE_PREOP || mc == MASTERCMD_FALLBACK
    then Say(t, WriteDevicemodeCnf(mc, status))
    else t
  }

  // ---------- Event handler ----------

  /** Bit i of an octet. */
  predicate Bit(b: byte, i: nat) {
    if i == 0 then b % 2 == 1 else Bit(b / 2, i - 1)
  }

  predicate Details(status: byte) {
    Bit(status, 7)
  }

  /** Number of slot bits below n. */
  function SlotCount(status: byte, n: nat): nat {
    if n == 0 then 0 else SlotCount(status, n - 1) + (if Bit(status, n - 1) then 1 else 0)
  }

  /** First slot bit at or after i; 6 when there is none below 6. The scan also
      looks at bit 6 itself, which changes nothing. */
  function NextSlot(status: byte, i: nat): (j: nat)
    requires i <= MAX_EVENTS
    ensures i <= j <= MAX_EVENTS
    ensures forall k :: i <= k < j ==> !Bit(status, k)
    ensures j < MAX_EVENTS ==> Bit(status, j)
    decreases MAX_EVENTS - i
  {
    if i == MAX_EVENTS || Bit(status, i) then i else NextSlot(status, i + 1)
  }

  function EvType1Code(i: nat): nat
    requires i < 5
  {
    [0xFF80, 0xFF80, 0x6320, 0xFF80, 0xFF10][i]
  }

  /** Application instance, device source, single shot, and the event type. */
  function EvType1Qualifier(i: nat): byte
    requires i < 5
  {
    4 + [1, 2, 3, 3, 3][i] * 16 + 1 * 64
  }

  /** Type-1 indications for the bits below n, `left` entries before them. */
  function Type1Inds(status: byte, n: nat, left: int): seq<Primitive>
    requires n <= 5
  {
    if n == 0 then []
    else if Bit(status, n - 1) then
      Type1Inds(status, n - 1, left)
      + [EventInd(EvType1Code(n - 1), EvType1Qualifier(n - 1), left - SlotCount(status, n))]
    else Type1Inds(status, n - 1, left)
  }

  /** Type-2 indications for the first k collected events out of n. */
  function Type2Inds(events: EventList, k: nat, n: int): seq<Primitive>
    requires k <= MAX_EVENTS
  {
    if k == 0 then []
    else
      var e := events[k - 1];
      Type2Inds(events, k - 1, n)
      + [EventInd(U16(e.event_code_msb, e.event_code_lsb), e.event_qualifier, n - k)]
  }

  function SignalEvent3(s: Dl): Dl {
    var n := s.ev.num_entries;
    var t :=
      if Details(s.ev.status_code) then
        var k := if n < 0 then 0 else if n > MAX_EVENTS then MAX_EVENTS else n;
        s.(out := s.out.(log := s.out.log + Type2Inds(s.ev.events, k, n)), ev := s.ev.(ev_current := k))
      else
        s.(out := s.out.(log := s.out.log + Type1Inds(s.ev.status_code, 5, n)),
           ev := s.ev.(num_entries := n - SlotCount(s.ev.status_code, 5)));
    t.(ev := t.ev.(event_confirmation := true, state := EhIdle1))  // T4, T5
  }

  /** How many slots are marked, and where the first of them starts. */
  function EvScan(e: EvHandler): EvHandler {
    var first := NextSlot(e.status_code, 0);
    var addr := if e.ev_addr == 0 && first < MAX_EVENTS then 1 + 3 * first else e.ev_addr;
    e.(num_entries := e.num_entries + SlotCount(e.status_code, MAX_EVENTS), ev_addr := addr,
       ev_cnt := if addr == 0 then 0 else (addr - 1) / 3)
  }

  function EvStatusCode(s: Dl): Dl {
    var sc := s.rx[0];
    if Details(sc) then
      s.(ev := EvScan(s.ev.(status_code := sc)))
    else
      SignalEvent3(s.(ev := s.ev.(status_code := sc, num_entries := s.ev.num_entries + SlotCount(sc, 5))))
  }

  function SetEvent(events: EventList, i: nat, e: Event): EventList {
    if i < MAX_EVENTS then events[i := e] else events
  }

  /** To the next marked slot; ev_cnt is 6 when there is none. */
  function EvAdvance(e: EvHandler): EvHandler {
    var next := if e.ev_cnt < MAX_EVENTS then NextSlot(e.status_code, e.ev_cnt + 1) else e.ev_cnt;
    e.(ev_cnt := next, ev_addr := if e.ev_cnt < next && Bit(e.status_code, next) then 1 + 3 * next else e.ev_addr)
  }

  function EvSlotDone(s: Dl): Dl {
    var e := EvAdvance(s.ev);
    if e.ev_cnt >= MAX_EVENTS then SignalEvent3(s.(ev := e.(ev_current := 0))) else s.(ev := e)
  }

  /** Octet c = 1, 2, 3 of the slot being read. */
  function StoreOctet(e: EvHandler, c: int, octet: byte): EvHandler {
    var i := e.ev_current;
    var prev := if i < MAX_EVENTS then e.events[i] else NO_EVENT;
    match c
    case 1 => e.(events := SetEvent(e.events, i, prev.(event_qualifier := octet)), ev_addr := e.ev_addr + 1)
    case 2 => e.(events := SetEvent(e.events, i, prev.(event_code_msb := octet)), ev_addr := e.ev_addr + 1)
    case 3 => e.(events := SetEvent(e.events, i, prev.(event_code_lsb := octet)), ev_current := i + 1)
    case _ => e
  }

  function EvMemoryByte(s: Dl): Dl {
    var c := s.ev.ev_addr - s.ev.ev_cnt * 3;
    var t := s.(ev := StoreOctet(s.ev, c, s.rx[0]));
    if c == 3 then EvSlotDone(t) else t
  }

  function EvConfirm(s: Dl): Dl {
    if s.com_lost then s.(ev := s.ev.(state := EhInactive0))  // T9
    else
      var t := OdReq(s, true, ChDiagnosis, 0, [EVENT_CONFIRM_OCTET]);
      t.(ev := t.ev.(event_confirmation := false))  // T7, T8
  }

  function EvStartReading(s: Dl): Dl {
    var t := s.(ev := s.ev.(ev_addr := 0, num_entries := 0, ev_current := 0, events := NO_EVENTS,
                            state := EhReadEvent2));
    OdReq(t, false, ChDiagnosis, 0, [])  // T2
  }

  function EvIdle1(s: Dl): Dl {
    if !s.ev.active then s.(ev := s.ev.(state := EhInactive0))  // T10
    else if s.od.trigger != TrigMaster then s
    else if s.ev.event_confirmation then EvConfirm(s)
    else EvStartReading(s)
  }

  function EvReadEvent2(s: Dl): Dl {
    if s.com_lost then s.(ev := s.ev.(state := EhInactive0))  // T6
    else if s.od.trigger == TrigMaster then OdReq(s, false, ChDiagnosis, s.ev.ev_addr, [])  // T3
    else if s.od.trigger == TrigNone then s
    else if s.ev.ev_addr == 0 then EvStatusCode(s)
    else EvMemoryByte(s)
  }

  function EvSm(s: Dl): Dl {
    match s.ev.state
    case EhInactive0 => if s.ev.active then s.(ev := s.ev.(state := EhIdle1)) else s  // T1
    case EhIdle1 => EvIdle1(s)
    case EhReadEvent2 => EvReadEvent2(s)
    case EhSignalEvent3 => s
  }

  // ---------- OD handler: the multiplexer ----------

  function Rest(s: Dl): Dl {
    s.(od := s.od.(trigger := TrigNone))
  }

  function Goto(s: Dl, state: OdState): Dl {
    s.(od := s.od.(state := state))
  }

  predicate CommandDue(s: Dl) {
    s.cmd.control_code != CcNone && s.od.trigger == TrigMaster
  }

  function OdHandlerIsdu1(s: Dl): Dl {
    if !s.od.active then Goto(s, OdInactive0)  // T13
    else if CommandDue(s) then Goto(CmdSm(s), OdCommand2)  // T3
    else if s.ev.event_flag then Goto(IsduSm(s), OdEvent3)  // T5
    else if s.od.trigger != TrigNone then Rest(IsduSm(s))  // T2
    else s
  }

  function OdHandlerCommand2(s: Dl): Dl {
    if !s.od.active then s.(cmd := s.cmd.(state := ChInactive0))  // T11
    else if s.od.trigger == TrigNone then s
    else if s.cmd.control_code != CcNone then Rest(s)  // T9
    else Goto(WriteMasterCommand(Rest(s), NoError), if s.ev.event_flag then OdEvent3 else OdIsdu1)  // T8, T4
  }

  function OdHandlerEvent3(s: Dl): Dl {
    if !s.od.active then Goto(s, OdInactive0)  // T12
    else if CommandDue(s) then Goto(CmdSm(s), OdCommand2)  // T7
    else if !s.ev.event_flag then Goto(s, OdIsdu1)  // T6
    else if s.od.trigger != TrigNone then Rest(EvSm(s))  // T10
    else s
  }

  function OdSm(s: Dl): Dl {
    match s.od.state
    case OdInactive0 => if s.od.active then Goto(s, OdIsdu1) else s  // T1
    case OdIsdu1 => OdHandlerIsdu1(s)
    case OdCommand2 => OdHandlerCommand2(s)
    case OdEvent3 => OdHandlerEvent3(s)
  }

  // ---------- what drives the handlers ----------

  /** The message handler prepares a master message. */
  function OnMaster(s: Dl): Dl {
    OdSm(s.(od := s.od.(trigger := TrigMaster)))
  }

  /** A device message arrived with its event flag and its octets. */
  function OnDevice(s: Dl, flag: bool, rx: RxBuffer): Dl {
    OdSm(s.(od := s.od.(trigger := TrigDevice), ev := s.ev.(event_flag := flag), rx := rx))
  }

  /** A request is built into the buffer and waits for its turn. */
  function Loaded(s: Dl, q: Request): Dl {
    LoadedWith(s, q.read, Encode(q) + Zeros(ISDU_MAX_SIZE - |Encode(q)|), |Encode(q)|)
  }

  function LoadedWith(s: Dl, read: bool, data: IsduBuffer, len: nat): Dl {
    s.(rwcmd := RwIsduTransport,
       isdu := s.isdu.(data_dir_read := read, data := data, total_isdu_len := len,
                       total_isdu_seg := Pieces(len, s.od_len), current_isdu_seg := 0))
  }

  function TransportReq(s: Dl, q: Request): Dl {
    if s.mode == MdIdle0 || s.mode == MdEstCom1 then Confirm(s, IsduCnf([], 0, NoComm))
    else if q.index < 2 then Confirm(s, IsduCnf([], 0, ValueOutOfRange))
    else if s.isdu.state != IhIdle1 then Confirm(s, IsduCnf([], 0, StateConflict))
    else Loaded(s, q)
  }

  /** DL_ReadParam_req and DL_WriteParam_req; `ready` says whether the message
      handler is in one of the two states that accept them. */
  function ParamReq(s: Dl, write: bool, address: nat, value: byte, ready: bool): Dl {
    var t := s.(rwcmd := if write then RwWriteParam else RwReadParam);
    if !ready then Say(t, if write then WriteParamCnf(StateConflict) else ReadParamCnf(0, StateConflict))
    else if address > 31 then
      Say(t, if write then WriteParamCnf(ValueOutOfRange) else ReadParamCnf(0, ValueOutOfRange))
    else t.(od := t.od.(data_addr := address, data_value := if write then value else t.od.data_value))
  }

  function ControlReq(s: Dl, code: ControlCode): Dl {
    if code == CcNone || code == CcDevicemode then s
    else CmdSm(s.(cmd := s.cmd.(control_code := code)))
  }

  function DevicemodeCommand(m: DlMode): byte {
    match m
    case ModeInactive => MASTERCMD_FALLBACK
    case ModeStartup => MASTERCMD_DEVICE_STARTUP
    case ModePreoperate => MASTERCMD_DEVICE_PREOP
    case ModeOperate => MASTERCMD_DEVICE_OPERATE
  }

  function DevicemodeReq(s: Dl, devicemode: DlMode): Dl {
    if s.mode == MdStartup2 then Say(s, WriteDevicemodeCnf(MASTERCMD_NONE, StateConflict))
    else
      var mc := DevicemodeCommand(devicemode);
      var t := CmdSm(s.(cmd := s.cmd.(master_command := mc, control_code := CcDevicemode)));
      if t.mode == MdPreoperate3 && devicemode == ModeInactive
      then Say(t, WriteDevicemodeCnf(MASTERCMD_FALLBACK, NoError))
      else t
  }

  function AnswerAccess(s: Dl): Dl {
    match s.rwcmd
    case RwReadParam => Say(s, ReadParamCnf(0, NoComm))
    case RwWriteParam => Say(s, WriteParamCnf(NoComm))
    case _ => s
  }

  function AnswerAll(s: Dl): Dl {
    AnswerAccess(WriteMasterCommand(s, NoComm))
  }

  /** The message handler gives the link up. In PREOPERATE it first answers the
      master command and the parameter access that were under way. */
  function ComLost(s: Dl, preoperate: bool): Dl {
    var t := if preoperate then AnswerAll(s) else s;
    t.(com_lost := true, rwcmd := RwNone)
  }

  function OhConf(s: Dl, active: bool): Dl {
    OdSm(s.(od := s.od.(active := active)))
  }

  function IhConf(s: Dl, active: bool): Dl {
    IsduSm(s.(isdu := s.isdu.(active := active)))
  }

  function EhConf(s: Dl, active: bool): Dl {
    EvSm(s.(ev := s.ev.(active := active)))
  }

  function ChConf(s: Dl, active: bool): Dl {
    CmdSm(s.(cmd := s.cmd.(active := active)))
  }

  function SetActive(s: Dl, active: bool): Dl {
    EhConf(IhConf(OhConf(s, active), active), active)
  }

  function GotoIdle(s: Dl): Dl {
    ChConf(SetActive(s, false), false).(com_lost := false, mode := MdIdle0)
  }

  /** The mode handler, run when a mode was requested or the link was lost. */
  function ModeSm(s: Dl): Dl {
    match s.mode
    case MdIdle0 => if s.dl_mode == ModeStartup then s.(mode := MdEstCom1) else s
    case MdEstCom1 => s
    case MdStartup2 =>
      if s.dl_mode == ModePreoperate then SetActive(s, true).(mode := MdPreoperate3)
      else if s.dl_mode == ModeOperate then SetActive(s, true).(mode := MdOperate4)
      else if s.dl_mode == ModeInactive || s.com_lost then GotoIdle(s)
      else s
    case MdPreoperate3 =>
      if s.dl_mode == ModeStartup then SetActive(ChConf(s, false), false).(mode := MdStartup2)
      else if s.dl_mode == ModeInactive then s
      else if s.com_lost then GotoIdle(s)
      else if s.dl_mode == ModeOperate then s.(mode := MdOperate4)
      else s
    case MdOperate4 =>
      if s.dl_mode == ModeStartup then SetActive(s, false).(mode := MdStartup2)
      else if s.dl_mode == ModeInactive || s.com_lost then GotoIdle(s)
      else s
  }

  /** What the handlers are called with. Abort stands for the command word that the
      ISDU handler's abort transitions test for; no service of this code sets it. */
  datatype Input =
    | Master
    | Device(flag: bool, rx: RxBuffer)
    | IsduRequest(q: Request)
    | Param(write: bool, address: nat, value: byte, ready: bool)
    | Control(code: ControlCode)
    | Devicemode(devicemode: DlMode)
    | Abort
    | TimerExpires
    | LinkLost(preoperate: bool)
    | SetMode(new_mode: DlMode, new_od_len: OdLen)
    | ModeEvent
    | WakeUp(ok: bool)
    | DirectAccess(access_write: bool)
    | AccessDone

  /** A direct parameter access that the message handler accepted in STARTUP. */
  function StartupAccess(s: Dl, write: bool): Dl {
    s.(rwcmd := if write then RwWrite else RwRead)
  }

  /** The access is answered, its command taken back. */
  function StartupAnswer(s: Dl): Dl {
    if s.rwcmd == RwRead || s.rwcmd == RwWrite then s.(rwcmd := RwNone) else s
  }

  function Step(s: Dl, i: Input): Dl {
    match i
    case Master => OnMaster(s)
    case Device(flag, rx) => OnDevice(s, flag, rx)
    case IsduRequest(q) => TransportReq(s, q)
    case Param(write, address, value, ready) => ParamReq(s, write, address, value, ready)
    case Control(code) => ControlReq(s, code)
    case Devicemode(m) => DevicemodeReq(s, m)
    case Abort => s.(rwcmd := RwIsduAbort)
    case TimerExpires => s.(isdu := s.isdu.(timer_expired := true))
    case LinkLost(preoperate) => ComLost(s, preoperate)
    case SetMode(m, len) => s.(dl_mode := m, od_len := if m == ModeInactive then s.od_len else len)
    case ModeEvent => ModeSm(s)
    case WakeUp(ok) =>
      if ok then ChConf(s.(mode := MdStartup2), true) else s.(mode := MdIdle0, com_lost := false)
    case DirectAccess(write) => StartupAccess(s, write)
    case AccessDone => StartupAnswer(s)
  }

  function Run(s: Dl, inputs: seq<Input>): Dl {
    if inputs == [] then s else Step(Run(s, inputs[..|inputs| - 1]), inputs[|inputs| - 1])
  }
}
