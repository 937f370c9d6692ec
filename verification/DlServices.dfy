/**
 * The services of the data link layer at their edges: what is refused and how, what a
 * lost link answers, what a status octet without details signals, and where the mode
 * handler goes.
 */
module DlServices {
  import opened Bytes
  import opened IsduCodec
  import opened DlModel
  import opened DlAccounting
  import opened DlMultiplexer
  import opened DlEvents
  import opened DlEventRuns
  import opened DlEventCycles
  import opened DlMessages
  import S = DlStartup

  // ---------- requests that are refused ----------

  /** Why an ISDU request is refused, if it is. */
  function Refusal(s: Dl, q: Request): Option<Status> {
    if s.mode == MdIdle0 || s.mode == MdEstCom1 then Some(NoComm)
    else if q.index == 0 || q.index == 1 then Some(ValueOutOfRange)
    else if Busy(s) || !s.isdu.state.IhIdle1? then Some(StateConflict)
    else None
  }

  /** A refused request is confirmed at once, with no data, and leaves the transfer
      under way alone; any other waits for its turn and is not confirmed yet. */
  lemma RequestRefusedIff(s: Dl, q: Request)
    ensures var t := Step(s, IsduRequest(q));
            match Refusal(s, q)
            case Some(status) => t == s.(out := s.out.(cnfs := s.out.cnfs + [IsduCnf([], 0, status)]))
            case None =>
              && t.out == s.out && t.rwcmd == RwIsduTransport && t.isdu.state == IhIdle1
              && t.isdu.data_dir_read == q.read && t.isdu.data[..|Encode(q)|] == Encode(q)
  {
    assert (Encode(q) + Zeros(ISDU_MAX_SIZE - |Encode(q)|))[..|Encode(q)|] == Encode(q);
  }

  /** A parameter access is accepted if and only if the message handler is ready and
      the address is one of the page; else it is confirmed at once with the reason. */
  lemma AccessRefusedIff(s: Dl, write: bool, address: nat, value: byte, ready: bool)
    ensures var t := Step(s, Param(write, address, value, ready));
            if ready && address <= 31 then
              && t.out == s.out && t.od.data_addr == address && (write ==> t.od.data_value == value)
            else
              var status := if ready then ValueOutOfRange else StateConflict;
              && t.od == s.od
              && t.out.log == s.out.log + [if write then WriteParamCnf(status) else ReadParamCnf(0, status)]
  {
  }

  /** A device mode cannot be asked for in STARTUP. */
  lemma DevicemodeRefused(s: Dl, m: DlMode)
    requires s.mode == MdStartup2
    ensures var t := Step(s, Devicemode(m));
            t == s.(out := s.out.(log := s.out.log + [WriteDevicemodeCnf(0, StateConflict)]))
  {
  }

  // ---------- a lost link ----------

  /** What is still to be answered besides a transfer: a device mode, an access. */
  function Outstanding(s: Dl): seq<Primitive> {
    (if s.cmd.master_command == 0x99 || s.cmd.master_command == 0x9A || s.cmd.master_command == 0x5A
     then [WriteDevicemodeCnf(s.cmd.master_command, NoComm)] else [])
    + (match s.rwcmd
       case RwReadParam => [ReadParamCnf(0, NoComm)]
       case RwWriteParam => [WriteParamCnf(NoComm)]
       case _ => [])
  }

  /** In PREOPERATE a lost link answers them with NO_COMM; in OPERATE it answers
      nothing, and the command word of the access is gone. */
  lemma LossAnswersIffPreoperate(s: Dl, preoperate: bool)
    ensures var t := Step(s, LinkLost(preoperate));
            && t.com_lost && t.rwcmd == RwNone
            && t.out.log == s.out.log + (if preoperate then Outstanding(s) else [])
            && t.cmd.master_command == (if preoperate then 0 else s.cmd.master_command)
            && t.out.cnfs == s.out.cnfs && t.isdu == s.isdu
  {
    assert s.out.log + [] == s.out.log;
  }

  /** So an access that waits when the link is lost in OPERATE is confirmed by no run of
      exchanges and commands that follows. */
  lemma AccessLostInOperate(s: Dl, inputs: seq<Input>)
    requires (s.rwcmd == RwReadParam || s.rwcmd == RwWriteParam) && s.isdu.active
    requires forall k :: 0 <= k < |inputs| ==>
      var i := inputs[k];
      i.Master? || i.Device? || i.TimerExpires? || i.Control? || i.Devicemode? || i.SetMode?
    ensures NoAccessAnswered(s.out.log, Run(Step(s, LinkLost(false)), inputs).out.log)
  {
    LossAnswersIffPreoperate(s, false);
    AccessInTransferIsLost(Step(s, LinkLost(false)), inputs);
  }

  // ---------- events without details ----------

  /** Code and qualifier of the five events a type-1 status octet stands for. */
  const STATUS_CODES: seq<nat> := [0xFF80, 0xFF80, 0x6320, 0xFF80, 0xFF10]
  const STATUS_QUALIFIERS: seq<byte> := [0x54, 0x64, 0x74, 0x74, 0x74]

  function StatusInd(slot: nat, left: nat): Primitive
    requires slot < 5
  {
    EventInd(STATUS_CODES[slot], STATUS_QUALIFIERS[slot], left)
  }

  /** One event for each of the bits 0 to 4 that is set, in ascending order. */
  function StatusSignals(status: byte): (r: seq<Primitive>)
    ensures |r| == |Slots(status, 5)|
  {
    var slots := Slots(status, 5);
    seq(|slots|, k requires 0 <= k < |slots| => StatusInd(slots[k], |slots| - 1 - k))
  }

  lemma {:induction false} StatusSignalled(status: byte, n: nat)
    requires n <= 5
    ensures |Slots(status, n)| <= |Slots(status, 5)|
    ensures Type1Inds(status, n, |Slots(status, 5)|) == StatusSignals(status)[..|Slots(status, n)|]
  {
    SlotsPrefix(status, n);
    if n > 0 {
      StatusSignalled(status, n - 1);
      if Bit(status, n - 1) { NextSignalled(status, n); }
    }
  }

  lemma NextSignalled(status: byte, n: nat)
    requires 0 < n <= 5 && Bit(status, n - 1)
    ensures var k, inds := |Slots(status, n - 1)|, StatusSignals(status);
            && k < |inds| && |Slots(status, n)| == k + 1
            && inds[..k + 1] == inds[..k] + [StatusInd(n - 1, |inds| - 1 - k)]
  {
    SlotsPrefix(status, n - 1);
    OneMore(StatusSignals(status), |Slots(status, n - 1)|);
  }

  lemma OneMore(inds: seq<Primitive>, k: nat)
    requires k < |inds|
    ensures inds[..k + 1] == inds[..k] + [inds[k]]
  {
  }

  lemma {:induction false} SlotsPrefix(status: byte, n: nat)
    requires n <= 5
    ensures Slots(status, n) <= Slots(status, 5)
    ensures n < 5 && Bit(status, n) ==> |Slots(status, n)| < |Slots(status, 5)| && Slots(status, 5)[|Slots(status, n)|] == n
    decreases 5 - n
  {
    if n < 5 { SlotsPrefix(status, n + 1); }
  }

  /** From a raised flag: the status octet is read, each of its events is signalled
      with eventsleft counting down to 0, and the confirmation is due. */
  lemma StatusEventsSignalled(x: Session, rx: RxBuffer)
    requires FlagRaised(x) && x.dl.cmd.control_code == CcNone && !Details(rx[0])
    ensures var y := SessionStep(SessionStep(x, Master), Device(true, rx));
            && y.dl.out.diag == x.dl.out.diag + [Read(0)]
            && y.dl.out.log == x.dl.out.log + StatusSignals(rx[0])
            && DlEventCycles.Due(y)
  {
    MasterStep(x);
    var y := SessionStep(x, Master);
    DeviceStep(y, true, rx);
    StatusTaken(Triggered(y.dl, Device(true, rx)));
  }

  lemma StatusTaken(s: Dl)
    requires s.ev.state == EhReadEvent2 && s.ev.ev_addr == 0 && s.ev.num_entries == 0 && !s.com_lost
    requires s.od.trigger == TrigDevice && !Details(s.rx[0])
    ensures var t := EvSm(s);
            && t.out.log == s.out.log + StatusSignals(s.rx[0]) && t.out.diag == s.out.diag
            && t.ev.state == EhIdle1 && t.ev.event_confirmation && t.ev.active == s.ev.active
            && t.ev.event_flag == s.ev.event_flag && t.od == s.od && t.com_lost == s.com_lost
  {
    var sc := s.rx[0];
    StatusSignalled(sc, 5);
    assert StatusSignals(sc)[..|Slots(sc, 5)|] == StatusSignals(sc);
  }

  // ---------- the mode handler ----------

  /** Where it goes when it is run. */
  function NextMode(mode: ModeState, asked: DlMode, lost: bool): ModeState {
    match (mode, asked)
    case (MdEstCom1, _) => MdEstCom1
    case (MdIdle0, ModeStartup) => MdEstCom1
    case (MdIdle0, _) => MdIdle0
    case (MdStartup2, ModePreoperate) => MdPreoperate3
    case (MdStartup2, ModeOperate) => MdOperate4
    case (MdPreoperate3, ModeInactive) => MdPreoperate3
    case (_, ModeInactive) => MdIdle0
    case (MdPreoperate3, ModeStartup) => MdStartup2
    case (MdOperate4, ModeStartup) => MdStartup2
    case (MdPreoperate3, ModeOperate) => if lost then MdIdle0 else MdOperate4
    case _ => if lost then MdIdle0 else mode
  }

  lemma SwitchedKeepsMode(s: Dl, active: bool)
    ensures var t := SetActive(s, active); t.mode == s.mode && t.com_lost == s.com_lost
  {
    OdSmStep(s.(od := s.od.(active := active)));
    IsduSmStep(s.(od := s.od.(active := active)));
    var a := OhConf(s, active);
    IsduSmStep(a.(isdu := a.isdu.(active := active)));
    var b := IhConf(a, active);
    EvSmKeeps(b.(ev := b.ev.(active := active)));
  }

  predicate Follows(s: Dl, t: Dl) {
    && t.mode == NextMode(s.mode, s.dl_mode, s.com_lost)
    && t.com_lost == (s.com_lost && !(t.mode == MdIdle0 && s.mode != MdIdle0))
  }

  lemma IdleFollows(s: Dl)
    requires s.mode != MdIdle0 && NextMode(s.mode, s.dl_mode, s.com_lost) == MdIdle0
    ensures Follows(s, GotoIdle(s))
  {
  }

  lemma SwitchedFollows(s: Dl, active: bool, mode: ModeState)
    requires mode == NextMode(s.mode, s.dl_mode, s.com_lost) && mode != MdIdle0
    ensures Follows(s, SetActive(s, active).(mode := mode))
  {
    SwitchedKeepsMode(s, active);
  }

  lemma RestartFollows(s: Dl)
    requires s.mode == MdPreoperate3 && s.dl_mode == ModeStartup
    ensures Follows(s, SetActive(ChConf(s, false), false).(mode := MdStartup2))
  {
    CmdSmKeeps(s.(cmd := s.cmd.(active := false)));
    SwitchedKeepsMode(ChConf(s, false), false);
  }

  /** Every change of mode; the loss of the link is forgotten only on the way to IDLE_0. */
  lemma ModeFollows(s: Dl)
    ensures Follows(s, Step(s, ModeEvent))
  {
    match s.mode
    case MdIdle0 =>
    case MdEstCom1 =>
    case MdStartup2 => StartupFollows(s);
    case MdPreoperate3 => PreoperateFollows(s);
    case MdOperate4 => OperateFollows(s);
  }

  lemma StartupFollows(s: Dl)
    requires s.mode == MdStartup2
    ensures Follows(s, ModeSm(s))
  {
    if s.dl_mode == ModePreoperate {
      SwitchedFollows(s, true, MdPreoperate3);
    } else if s.dl_mode == ModeOperate {
      SwitchedFollows(s, true, MdOperate4);
    } else if s.dl_mode == ModeInactive || s.com_lost {
      IdleFollows(s);
    }
  }

  lemma PreoperateFollows(s: Dl)
    requires s.mode == MdPreoperate3
    ensures Follows(s, ModeSm(s))
  {
    if s.dl_mode == ModeStartup {
      RestartFollows(s);
    } else if s.dl_mode != ModeInactive && s.com_lost {
      IdleFollows(s);
    }
  }

  lemma OperateFollows(s: Dl)
    requires s.mode == MdOperate4
    ensures Follows(s, ModeSm(s))
  {
    if s.dl_mode == ModeStartup {
      SwitchedFollows(s, false, MdStartup2);
    } else if s.dl_mode == ModeInactive || s.com_lost {
      IdleFollows(s);
    }
  }

  /** Where the message handler is in a mode, with no message of PREOPERATE under way. */
  predicate Agrees(mode: ModeState, l: Link) {
    match mode
    case MdIdle0 => l.state == MsInactive0 && !l.cycling
    case MdEstCom1 => false
    case MdStartup2 => l.state == MsStartup2 && !l.cycling
    case MdPreoperate3 => l.state == MsPreoperate6 && !l.cycling
    case MdOperate4 => l.state == MsOperate12 || l.state == MsResponse15 || l.state == MsAwReply16
  }

  predicate Settled(l: Link) {
    var mode := l.x.dl.mode;
    mode != MdIdle0 && mode != MdEstCom1 && Agrees(mode, l)
    && (mode != MdOperate4 ==> l.cmd == (if mode == MdStartup2 then S.McStartup else S.McPreoperate))
    && (mode == MdOperate4 ==> l.cmd == S.McOperate && l.x.dl.rwcmd != RwWriteParam)
  }

  /** What is asked for in STARTUP leaves the message handler there; in PREOPERATE it
      is INACTIVE that it takes for OPERATE. */
  predicate Diverges(s: Dl) {
    || (s.mode == MdStartup2 && NextMode(s.mode, s.dl_mode, s.com_lost) == MdIdle0)
    || (s.mode == MdPreoperate3 && s.dl_mode == ModeInactive)
  }

  /** How the message handler at rest takes a command. */
  function StateBehind(state: MessageState, cmd: S.MhCmd): MessageState {
    match cmd
    case McPreoperate => MsPreoperate6
    case McOperate => MsOperate12
    case McStartup => MsStartup2
    case McInactive => if state == MsStartup2 then MsStartup2 else MsInactive0
  }

  lemma CommandTakenAtRest(l: Link, cmd: S.MhCmd)
    requires match l.state
             case MsStartup2 => cmd == S.McPreoperate || cmd == S.McOperate || cmd == S.McInactive
             case MsPreoperate6 => cmd == S.McOperate || cmd == S.McStartup || cmd == S.McInactive
             case MsOperate12 => Ends(cmd)
             case MsResponse15 => Ends(cmd)
             case MsAwReply16 => Ends(cmd)
             case _ => false
    ensures var t := Conf(l, cmd);
            && t.state == StateBehind(l.state, cmd) && t.x.dl.mode == l.x.dl.mode
            && (t.cycling ==> l.cycling) && (t.cycling ==> l.state == MsStartup2 || l.state == MsPreoperate6)
            && (cmd == S.McOperate ==> t.timer)
  {
  }

  lemma ModeCommandIs(s: Dl)
    requires s.mode != MdIdle0 && s.mode != MdEstCom1
    ensures var next := NextMode(s.mode, s.dl_mode, s.com_lost);
            match ModeCommand(s)
            case None => next == s.mode && !Diverges(s)
            case Some(McPreoperate) => s.mode == MdStartup2 && next == MdPreoperate3 && !Diverges(s)
            case Some(McStartup) => s.mode != MdStartup2 && next == MdStartup2 && !Diverges(s)
            case Some(McInactive) => next == MdIdle0 && (s.mode == MdStartup2 <==> Diverges(s))
            case Some(McOperate) =>
              && s.mode != MdOperate4
              && if Diverges(s) then s.mode == MdPreoperate3 && next == MdPreoperate3 else next == MdOperate4
  {
  }

  lemma ModeCommandTaken(l: Link, cmd: S.MhCmd)
    requires Settled(l) && ModeCommand(l.x.dl) == Some(cmd)
    ensures var t := LinkStep(l, Call(ModeEvent));
            && t.state == StateBehind(l.state, cmd) && t.x.dl.mode == Step(l.x.dl, ModeEvent).mode
            && (t.cycling ==> l.cycling && l.x.dl.mode != MdOperate4)
            && (cmd == S.McOperate ==> t.timer)
  {
    ModeCommandIs(l.x.dl);
    CommandTakenAtRest(OnDl(l, Step(l.x.dl, ModeEvent)), cmd);
  }

  /** Behind a mode event the message handler is where the mode is, or not: INACTIVE
      asked for in PREOPERATE has it start the cycle of OPERATE in a mode that stays. */
  lemma MessagesFollowModeIff(l: Link)
    requires Settled(l)
    ensures var t := LinkStep(l, Call(ModeEvent));
            && t.x.dl.mode == NextMode(l.x.dl.mode, l.x.dl.dl_mode, l.x.dl.com_lost)
            && (Agrees(t.x.dl.mode, t) <==> !Diverges(l.x.dl))
            && (Diverges(l.x.dl) ==> if l.x.dl.mode == MdStartup2 then t.state == MsStartup2
                                     else t.state == MsOperate12 && t.timer)
  {
    ModeFollows(l.x.dl);
    ModeCommandIs(l.x.dl);
    match ModeCommand(l.x.dl)
    case None =>
    case Some(cmd) => ModeCommandTaken(l, cmd);
  }

  // ---------- over any run ----------

  /** What a step leaves as it is: the mode asked for, the length of its messages. */
  predicate SameLayout(s: Dl, t: Dl) {
    t.dl_mode == s.dl_mode && t.od_len == s.od_len
  }

  lemma SwitchedKeepsLayout(s: Dl, active: bool)
    ensures SameLayout(s, SetActive(s, active))
  {
    OdSmStep(s.(od := s.od.(active := active)));
    IsduSmStep(s.(od := s.od.(active := active)));
    var a := OhConf(s, active);
    IsduSmStep(a.(isdu := a.isdu.(active := active)));
    var b := IhConf(a, active);
    EvSmKeeps(b.(ev := b.ev.(active := active)));
  }

  lemma IdleKeepsLayout(s: Dl)
    ensures SameLayout(s, GotoIdle(s))
  {
    SwitchedKeepsLayout(s, false);
    var t := SetActive(s, false);
    CmdSmKeeps(t.(cmd := t.cmd.(active := false)));
  }

  lemma RestartKeepsLayout(s: Dl)
    ensures SameLayout(s, SetActive(ChConf(s, false), false))
  {
    CmdSmKeeps(s.(cmd := s.cmd.(active := false)));
    SwitchedKeepsLayout(ChConf(s, false), false);
  }

  lemma ModeKeepsLayout(s: Dl)
    ensures SameLayout(s, ModeSm(s))
  {
    IdleKeepsLayout(s);
    RestartKeepsLayout(s);
    SwitchedKeepsLayout(s, s.mode == MdStartup2);
  }

  lemma TriggerKeeps(s: Dl, i: Input)
    requires i.Master? || i.Device?
    ensures var t := Step(s, i);
            SameLayout(s, t) && t.mode == s.mode && t.com_lost == s.com_lost
  {
    OdSmStep(Triggered(s, i));
    IsduSmStep(Triggered(s, i));
  }

  lemma CommandKeepsMode(s: Dl, i: Input)
    requires i.Control? || i.Devicemode?
    ensures var t := Step(s, i);
            SameLayout(s, t) && t.mode == s.mode && t.com_lost == s.com_lost
  {
    match i
    case Control(code) => CmdSmKeeps(s.(cmd := s.cmd.(control_code := code)));
    case Devicemode(m) =>
      CmdSmKeeps(s.(cmd := s.cmd.(master_command := DevicemodeCommand(m), control_code := CcDevicemode)));
  }

  /** Every other input. */
  lemma OtherKeeps(s: Dl, i: Input)
    requires !i.Master? && !i.Device? && !i.Control? && !i.Devicemode? && !i.ModeEvent?
    ensures var t := Step(s, i);
            && (i.SetMode? || SameLayout(s, t))
            && (i.WakeUp? || t.mode == s.mode) && (i.WakeUp? || i.LinkLost? || t.com_lost == s.com_lost)
  {
    match i
    case WakeUp(ok) => CmdSmKeeps(s.(mode := MdStartup2, cmd := s.cmd.(active := true)));
    case LinkLost(preoperate) => WriteMasterCommandKeeps(s, NoComm);
    case _ =>
  }

  /** The mode asked for last, and the length asked for last with a mode other than INACTIVE. */
  function LastAsked(mode: DlMode, len: OdLen, inputs: seq<Input>): (DlMode, OdLen) {
    if inputs == [] then (mode, len)
    else
      var before := LastAsked(mode, len, inputs[..|inputs| - 1]);
      match inputs[|inputs| - 1]
      case SetMode(m, l) => (m, if m == ModeInactive then before.1 else l)
      case _ => before
  }

  lemma {:induction false} LayoutIsAsAsked(s: Dl, inputs: seq<Input>)
    ensures var t := Run(s, inputs); (t.dl_mode, t.od_len) == LastAsked(s.dl_mode, s.od_len, inputs)
  {
    if inputs != [] {
      var u, i := Run(s, inputs[..|inputs| - 1]), inputs[|inputs| - 1];
      LayoutIsAsAsked(s, inputs[..|inputs| - 1]);
      if i.Master? || i.Device? {
        TriggerKeeps(u, i);
      } else if i.Control? || i.Devicemode? {
        CommandKeepsMode(u, i);
      } else if i.ModeEvent? {
        ModeKeepsLayout(u);
      } else {
        OtherKeeps(u, i);
      }
    }
  }

  /** Besides the mode handler only a wake-up changes the mode, and only a lost link or
      a wake-up that fails changes what is known of the link. */
  lemma ModeAndLinkFollow(s: Dl, i: Input)
    ensures var t := Step(s, i);
            match i
            case ModeEvent => Follows(s, t)
            case WakeUp(true) => t.mode == MdStartup2 && t.com_lost == s.com_lost
            case WakeUp(false) => t == s.(mode := MdIdle0, com_lost := false)
            case LinkLost(_) => t.mode == s.mode && t.com_lost
            case _ => t.mode == s.mode && t.com_lost == s.com_lost
  {
    if i.Master? || i.Device? {
      TriggerKeeps(s, i);
    } else if i.Control? || i.Devicemode? {
      CommandKeepsMode(s, i);
    } else if i.ModeEvent? {
      ModeFollows(s);
    } else {
      OtherKeeps(s, i);
    }
  }

  /** A direct access in STARTUP takes the command word over, whatever waits for it; its
      answer takes back the word of an access and of nothing else. */
  lemma AccessAnswerTakesOwnWord(s: Dl, write: bool)
    ensures Step(s, DirectAccess(write)) == s.(rwcmd := if write then RwWrite else RwRead)
    ensures Step(Step(s, DirectAccess(write)), AccessDone) == s.(rwcmd := RwNone)
    ensures s.rwcmd != RwRead && s.rwcmd != RwWrite ==> Step(s, AccessDone) == s
  {
  }
}
