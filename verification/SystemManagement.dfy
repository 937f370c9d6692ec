/**
 * System management of one port: it reads the device's identity address by
 * address, compares it with the configuration, restarts the device at most once,
 * and only then reports that communication is ready.
 */
module SystemManagement {
  import opened Bytes
  import opened IsduCodec

  const MASTER_CMD: nat := 0x00
  const MASTER_CYCL: nat := 0x01
  const MIN_CYCL: nat := 0x02
  const MSEQ_CAP: nat := 0x03
  const REV_ID: nat := 0x04
  const PDI: nat := 0x05
  const PDO: nat := 0x06
  const VID_1: nat := 0x07
  const VID_2: nat := 0x08
  const DID_1: nat := 0x09
  const DID_2: nat := 0x0A
  const DID_3: nat := 0x0B
  const FID_1: nat := 0x0C
  const FID_2: nat := 0x0D
  /** The first read confirmation after a wake-up answers no request. */
  const DUMMY_WURQ: nat := 0xFF

  const REV_V10: byte := 0x10
  const REV_V11: byte := 0x11
  const MASTER_IDENT: byte := 0x95
  const DEVICE_IDENT: byte := 0x96
  const DEVICE_OPERATE: byte := 0x99
  const DEVICE_PREOP: byte := 0x9A

  const MIN_CYCL_TIME_1: byte := 92
  const MIN_CYCL_TIME_2_3: byte := 80

  const SERIAL_LENGTH: nat := 16
  type Serial = s: seq<byte> | |s| == SERIAL_LENGTH witness Zeros(SERIAL_LENGTH)

  datatype SmState =
    | PortInactive | WaitonDLPreoperate | CheckSerNum | Wait | SMOperate | InspectionFault
    | WaitonDLOperate | Dido | ReadComParameter | CheckCompV10 | CheckVxy | CheckComp | RestartDevice
    | WaitForFallback | WriteMasterCycl | WaitDevmodeCnf

  datatype SmEvent =
    | SmNone | ModeStartup | CompOK | ModeComlost | V10CompOK | V10CompFault | RevisionFault | CompFault
    | ModePreoperate | ModeOperate | SerNumOK | SerNumFault | SmOperateReq | SmOperateV10
    | SetInactive | SetCom | SetDio | CycTimeFault | CycTimeFaultV10 | V10 | NotV10 | RevisionOK
    | RetryStartup | WriteDone | CnfComlost | WriteMasterCyclReq | WriteMasterCyclDone

  datatype Target = CfgCom | AutoCom | TargetInactive | TargetDi | TargetDo
  datatype Level = NoCheck | TypeComp | Identical

  datatype Config = Config(
    mode: Target, level: Level, revisionid: byte, cycletime: byte, vendorid: nat, deviceid: nat, serial: Serial)

  /** The device as read, its identifiers octet by octet, most significant first. */
  datatype Device = Device(
    revisionid: byte, cycletime: byte, vid: (byte, byte), did: (byte, byte, byte), fid: (byte, byte), serial: Serial,
    mincycle: byte, mseq_cap: byte, pdi: byte, pdo: byte)

  datatype Access = Access(read: bool, addr: nat, value: byte)

  /** What a start-up has seen: the octets read since address 2, the shortest cycle
      time of the line when that was read, the writes so far, and whether a mode
      indication has cut a restart short. */
  datatype Seen = Seen(com: seq<byte>, floor: byte, writes: seq<Access>, cut: bool)

  const NOTHING_SEEN := Seen([], 0, [], false)

  /** The compatibility check a device passed: the configuration then in force, the
      cycle time, the octets read at addresses 7 to 13, and what was seen before. */
  datatype Check = Check(cfg: Config, cycletime: byte, pass: seq<byte>, seen: Seen)

  /** What is reported of a port. ComReady carries, as history, the check passed
      and the configuration and serial number of the last step. */
  datatype PortMode =
    | PmInactive | PmDi | PmDo | PmOperate | PmComlost
    | PmRevisionFault | PmCompFault | PmSernumFault | PmCyctimeFault
    | PmComReady(check: Option<Check>, cfg: Config, serial: Serial)

  datatype DlModeReq = ReqInactive | ReqStartup | ReqPreoperate | ReqOperate

  /** History: reports, mode requests, octets read since address 7, the last check
      passed, accesses and restarts since the start-up, and what it has seen. */
  datatype SmHistory = SmHistory(
    modes: seq<PortMode>, setmodes: seq<DlModeReq>, pass: seq<byte>, checked: Option<Check>,
    accesses: nat, retries: nat, seen: Seen)

  /** `pending`: the access the data link layer has yet to confirm; `al_pending`:
      how many application layer services have yet to be confirmed. */
  datatype Sm = Sm(
    state: SmState, cfg: Config, dev: Device, com1: bool, comp_retry: nat, dl_addr: nat, error_event: SmEvent,
    pending: Option<Access>, al_pending: nat, h: SmHistory)

  // ---------- requests and reports ----------

  function Written(seen: Seen, a: Access): Seen {
    if a.read then seen else seen.(writes := seen.writes + [a])
  }

  function DlAccess(s: Sm, a: Access): Sm {
    s.(dl_addr := a.addr, pending := Some(a), h := s.h.(accesses := s.h.accesses + 1, seen := Written(s.h.seen, a)))
  }

  function DlRead(s: Sm, addr: nat): Sm {
    DlAccess(s, Access(true, addr, 0))
  }

  function DlWrite(s: Sm, addr: nat, value: byte): Sm {
    DlAccess(s, Access(false, addr, value))
  }

  function Report(s: Sm, m: PortMode): Sm {
    s.(h := s.h.(modes := s.h.modes + [m]))
  }

  function SetMode(s: Sm, m: DlModeReq): Sm {
    s.(h := s.h.(setmodes := s.h.setmodes + [m]))
  }

  function Comlost(s: Sm): Sm {
    Report(SetMode(s, ReqInactive), PmComlost)
  }

  function GoInactive(s: Sm, e: SmEvent): Sm {
    var t := s.(dl_addr := DUMMY_WURQ, error_event := SmNone);
    match e
    case SetInactive => SetMode(Report(t, PmInactive), ReqInactive)
    case SetCom => SetMode(t, ReqStartup)
    case _ => t
  }

  function GoDido(s: Sm): Sm {
    SetMode(Report(s, if s.cfg.mode == TargetDi then PmDi else if s.cfg.mode == TargetDo then PmDo else PmInactive),
      ReqInactive)
  }

  function InspectFault(s: Sm, e: SmEvent): Sm {
    match e
    case V10CompFault => SetMode(Report(s, PmCompFault), ReqOperate)
    case RevisionFault => SetMode(Report(s, PmRevisionFault), ReqPreoperate)
    case CompFault => SetMode(Report(s, PmCompFault), ReqPreoperate)
    case SerNumFault => Report(s, PmSernumFault)
    case CycTimeFault => SetMode(Report(s, PmCyctimeFault), ReqPreoperate)
    case CycTimeFaultV10 => SetMode(Report(s, PmCyctimeFault), ReqInactive)
    case _ => s
  }

  /** A start-up begins a new count of accesses and restarts. */
  function ReadComParameters(s: Sm, e: SmEvent): Sm {
    DlRead(if e == ModeStartup then s.(comp_retry := 0, h := s.h.(accesses := 0, retries := 0, seen := NOTHING_SEEN)) else s, MIN_CYCL)
  }

  function Restart(s: Sm): Sm {
    DlWrite(s.(comp_retry := s.comp_retry + 1, h := s.h.(retries := s.h.retries + 1)), REV_ID, s.cfg.revisionid)
  }

  function ReadSerial(s: Sm): Sm {
    s.(al_pending := s.al_pending + 1)
  }

  function Ready(s: Sm): Sm {
    Report(s, PmComReady(s.h.checked, s.cfg, s.dev.serial))
  }

  function Operating(s: Sm, e: SmEvent): Sm {
    if e == ModeOperate || e == SmOperateV10 then Report(s, PmOperate) else s
  }

  // ---------- the transitions, one function for each state ----------

  function FirePortInactive(s: Sm, e: SmEvent): Sm {
    match e
    case ModeStartup => ReadComParameters(s.(state := ReadComParameter), e)  // T1
    case SetInactive => GoInactive(s, e)  // T14
    case SetCom => GoInactive(s, e)  // T15
    case SetDio => GoDido(s.(state := Dido))  // T16
    case _ => s
  }

  function FireWaitonDLPreoperate(s: Sm, e: SmEvent): Sm {
    match e
    case ModePreoperate => ReadSerial(s.(state := CheckSerNum))  // T8
    case CnfComlost => Comlost(s.(state := PortInactive))  // T3
    case _ => s
  }

  function FireCheckSerNum(s: Sm, e: SmEvent): Sm {
    match e
    case SerNumOK => Ready(s.(state := Wait))  // T10
    case SerNumFault => InspectFault(s.(state := InspectionFault), e)  // T11
    case CnfComlost => Comlost(s.(state := PortInactive))  // T3
    case SetCom => GoInactive(s.(state := PortInactive), e)
    case SetInactive => s.(state := WaitForFallback)
    case _ => s
  }

  function FireWait(s: Sm, e: SmEvent): Sm {
    match e
    case SetCom => GoInactive(s.(state := PortInactive), e)  // T15
    case SetDio => GoDido(s.(state := Dido))  // T16
    case SmOperateV10 => Operating(s.(state := SMOperate), e)  // T12
    case ModeComlost => Comlost(s.(state := PortInactive))  // T3
    case WriteMasterCyclReq => s.(state := WriteMasterCycl, al_pending := s.al_pending + 1)
    case SetInactive => s.(state := WaitForFallback)
    case _ => s
  }

  function FireSMOperate(s: Sm, e: SmEvent): Sm {
    match e
    case ModeComlost => Comlost(s.(state := PortInactive))  // T3
    case ModeOperate => Operating(s, e)  // T13
    case SetInactive => s.(state := WaitForFallback)
    case SetCom => GoInactive(s.(state := PortInactive), e)  // T15
    case SetDio => GoDido(s.(state := Dido))  // T16
    case _ => s
  }

  function FireInspectionFault(s: Sm, e: SmEvent): Sm {
    match e
    case RevisionFault => InspectFault(s, e)  // T6
    case CompFault => InspectFault(s, e)  // T7
    case CycTimeFault => InspectFault(s, e)  // T17
    case SetInactive => s.(state := WaitForFallback)
    case SetCom => GoInactive(s.(state := PortInactive), e)  // T15
    case SetDio => GoDido(s.(state := Dido))  // T16
    case ModeComlost => Comlost(s.(state := PortInactive))  // T3
    case _ => s
  }

  function FireWaitonDLOperate(s: Sm, e: SmEvent): Sm {
    match e
    case ModeOperate => ReadSerial(s.(state := CheckSerNum))  // T9
    case CnfComlost => Comlost(s.(state := PortInactive))  // T3
    case ModeComlost => Comlost(s.(state := PortInactive))  // T3
    case _ => s
  }

  function FireDido(s: Sm, e: SmEvent): Sm {
    match e
    case SetInactive => GoInactive(s.(state := PortInactive), e)  // T14
    case SetCom => GoInactive(s.(state := PortInactive), e)  // T15
    case SetDio => GoDido(s)  // T16
    case _ => s
  }

  function FireReadComParameter(s: Sm, e: SmEvent): Sm {
    match e
    case NotV10 => DlWrite(s.(state := CheckVxy), MASTER_CMD, MASTER_IDENT)  // T21
    case V10 => DlRead(s.(state := CheckCompV10), VID_1)  // T20
    case CnfComlost => Comlost(s.(state := PortInactive))  // T3
    case SetCom => GoInactive(s.(state := PortInactive), e)
    case _ => s
  }

  function FireCheckCompV10(s: Sm, e: SmEvent): Sm {
    match e
    case V10CompOK => DlWrite(s.(state := WaitonDLOperate), MASTER_CYCL, s.dev.cycletime)  // T4
    case V10CompFault => InspectFault(s.(state := InspectionFault), e)  // T5
    case CycTimeFaultV10 => InspectFault(s.(state := InspectionFault), e)  // T18
    case CnfComlost => Comlost(s.(state := PortInactive))  // T3
    case _ => s
  }

  function FireCheckVxy(s: Sm, e: SmEvent): Sm {
    match e
    case RevisionOK => DlRead(s.(state := CheckComp), VID_1)  // T22
    case RetryStartup => Restart(s.(state := RestartDevice))  // T25
    case RevisionFault => DlWrite(s.(state := InspectionFault), MASTER_CMD, DEVICE_PREOP)  // T6
    case CnfComlost => Comlost(s.(state := PortInactive))  // T3
    case _ => s
  }

  function FireCheckComp(s: Sm, e: SmEvent): Sm {
    match e
    case CompOK => DlWrite(s.(state := WaitonDLPreoperate), MASTER_CMD, DEVICE_PREOP)  // T2
    case RetryStartup => Restart(s.(state := RestartDevice))  // T23
    case CompFault => DlWrite(s.(state := InspectionFault), MASTER_CMD, DEVICE_PREOP)  // T7
    case CycTimeFault => DlWrite(s.(state := InspectionFault), MASTER_CMD, DEVICE_PREOP)  // T17
    case CnfComlost => Comlost(s.(state := PortInactive))  // T3
    case _ => s
  }

  /** A lost link does not lead back to PortInactive from here. */
  function FireRestartDevice(s: Sm, e: SmEvent): Sm {
    match e
    case WriteDone => ReadComParameters(s.(state := ReadComParameter), e)  // T24
    case CnfComlost => Comlost(s)  // T3
    case ModeComlost => s.(state := CheckComp, h := s.h.(seen := s.h.seen.(cut := true)))
    case _ => s
  }

  function FireWaitForFallback(s: Sm, e: SmEvent): Sm {
    match e
    case SetInactive => GoInactive(s.(state := PortInactive), e)  // T14
    case ModeComlost => Comlost(s.(state := PortInactive))  // T3
    case _ => s
  }

  function FireWriteMasterCycl(s: Sm, e: SmEvent): Sm {
    match e
    case CnfComlost => Comlost(s.(state := PortInactive))  // T3
    case WriteMasterCyclDone => s.(state := WaitDevmodeCnf)
    case _ => s
  }

  function FireWaitDevmodeCnf(s: Sm, e: SmEvent): Sm {
    match e
    case SmOperateV10 => Operating(s.(state := SMOperate), e)  // T12
    case SmOperateReq => Operating(s.(state := SMOperate), e)  // T12
    case CnfComlost => Comlost(s.(state := PortInactive))  // T3
    case _ => s
  }

  /** iolink_sm_event. No action raises a further event. */
  function Fire(s: Sm, e: SmEvent): Sm {
    match s.state
    case PortInactive => FirePortInactive(s, e)
    case WaitonDLPreoperate => FireWaitonDLPreoperate(s, e)
    case CheckSerNum => FireCheckSerNum(s, e)
    case Wait => FireWait(s, e)
    case SMOperate => FireSMOperate(s, e)
    case InspectionFault => FireInspectionFault(s, e)
    case WaitonDLOperate => FireWaitonDLOperate(s, e)
    case Dido => FireDido(s, e)
    case ReadComParameter => FireReadComParameter(s, e)
    case CheckCompV10 => FireCheckCompV10(s, e)
    case CheckVxy => FireCheckVxy(s, e)
    case CheckComp => FireCheckComp(s, e)
    case RestartDevice => FireRestartDevice(s, e)
    case WaitForFallback => FireWaitForFallback(s, e)
    case WriteMasterCycl => FireWriteMasterCycl(s, e)
    case WaitDevmodeCnf => FireWaitDevmodeCnf(s, e)
  }

  // ---------- the compatibility checks ----------

  function VendorId(d: Device): nat {
    U16(d.vid.0, d.vid.1)
  }

  function DeviceId(d: Device): nat {
    U16(U16(d.did.0, d.did.1), d.did.2)
  }

  predicate CycleTimeFails(s: Sm) {
    s.cfg.cycletime != 0 && s.cfg.cycletime < s.dev.cycletime
  }

  function Fault(s: Sm, e: SmEvent): Sm {
    Fire(s.(error_event := e), e)
  }

  /** History only: the check passed. */
  function Passed(s: Sm): Sm {
    s.(h := s.h.(checked := Some(Check(s.cfg, s.dev.cycletime, s.h.pass, s.h.seen))))
  }

  function CheckCompatibilityV10(s: Sm): Sm {
    if CycleTimeFails(s) then Fault(s, CycTimeFaultV10)  // T18
    else if s.cfg.level == NoCheck then Fire(Passed(s), V10CompOK)  // T4
    else if s.cfg.vendorid == VendorId(s.dev) && s.cfg.deviceid == DeviceId(s.dev) then Fire(Passed(s), V10CompOK)
    else Fault(s, V10CompFault)  // T5
  }

  function CheckCompatibility(s: Sm): Sm {
    if CycleTimeFails(s) then Fault(s, CycTimeFault)  // T17
    else if s.cfg.level == NoCheck then Fire(Passed(s), CompOK)  // T2
    else if s.cfg.vendorid != VendorId(s.dev) then Fault(s, CompFault)  // T7
    else if s.cfg.deviceid == DeviceId(s.dev) then Fire(Passed(s), CompOK)  // T2
    else if s.comp_retry == 0 then Fire(s, RetryStartup)  // T23
    else Fault(s, CompFault)  // T7
  }

  function CheckRevision(s: Sm): Sm {
    if s.cfg.revisionid == 0 || s.cfg.revisionid == s.dev.revisionid then Fire(s, RevisionOK)  // T22
    else if s.comp_retry == 0 then Fire(s, RetryStartup)  // T25
    else Fault(s, RevisionFault)  // T6
  }

  function CheckSerial(s: Sm): Sm {
    if s.cfg.level != Identical || s.cfg.serial == s.dev.serial then Fire(s, SerNumOK)  // T10
    else Fault(s, SerNumFault)  // T11
  }

  // ---------- confirmations ----------

  function OrNat(a: nat, b: nat): nat {
    if a == 0 && b == 0 then 0
    else (if a % 2 == 1 || b % 2 == 1 then 1 else 0) + 2 * OrNat(a / 2, b / 2)
  }

  lemma OrWidth(a: nat, b: nat, k: nat)
    requires a < Pow2(k) && b < Pow2(k)
    ensures OrNat(a, b) < Pow2(k)
  {
    if k > 0 && (a != 0 || b != 0) { OrWidth(a / 2, b / 2, k - 1); }
  }

  lemma OrZero(b: nat)
    ensures OrNat(0, b) == b
  {
  }

  function Or(a: byte, b: byte): byte {
    assert Pow2(4) == 16 && Pow2(8) == 256;
    OrWidth(a, b, 8);
    OrNat(a, b)
  }

  function MinCycleTime(s: Sm): byte {
    if s.com1 then MIN_CYCL_TIME_1 else MIN_CYCL_TIME_2_3
  }

  /** The octet read at an address goes to its place in the parameter list. */
  function Stored(s: Sm, addr: nat, value: byte): Device {
    var d := s.dev;
    match addr
    case 0x02 => d.(cycletime := if value < MinCycleTime(s) then MinCycleTime(s) else value, mincycle := value)
    case 0x03 => d.(mseq_cap := value)
    case 0x04 => d.(revisionid := value)
    case 0x05 => d.(pdi := value)
    case 0x06 => d.(pdo := value)
    case 0x07 => d.(vid := (value, 0))
    case 0x08 => d.(vid := (d.vid.0, Or(d.vid.1, value)))
    case 0x09 => d.(did := (value, 0, 0))
    case 0x0A => d.(did := (d.did.0, Or(d.did.1, value), d.did.2))
    case 0x0B => d.(did := (d.did.0, d.did.1, Or(d.did.2, value)))
    case 0x0C => d.(fid := (value, 0))
    case 0x0D => d.(fid := (d.fid.0, Or(d.fid.1, value)))
    case _ => d
  }

  function Looked(s: Sm, addr: nat, value: byte): Seen {
    var seen := s.h.seen;
    if addr == MIN_CYCL then seen.(com := [value], floor := MinCycleTime(s))
    else if MIN_CYCL < addr <= PDO then seen.(com := seen.com + [value])
    else seen
  }

  function Store(s: Sm, addr: nat, value: byte): Sm {
    s.(dev := Stored(s, addr, value),
       h := s.h.(pass := if addr == VID_1 then [value] else if VID_1 < addr <= FID_2 then s.h.pass + [value] else s.h.pass,
                 seen := Looked(s, addr, value)))
  }

  function ReadNext(s: Sm, addr: nat): Sm {
    match s.state
    case ReadComParameter =>
      if addr != PDO then DlRead(s, addr + 1) else Fire(s, if s.dev.revisionid == REV_V10 then V10 else NotV10)
    case CheckCompV10 => if addr != FID_2 then DlRead(s, addr + 1) else CheckCompatibilityV10(s)
    case CheckComp => if addr != FID_2 then DlRead(s, addr + 1) else CheckCompatibility(s)
    case RestartDevice => Fire(s, WriteDone)
    case _ => s
  }

  function ReadCnf(s: Sm, ok: bool, value: byte): Sm {
    var t := s.(pending := None);
    if !ok then Fire(t, CnfComlost)
    else if s.dl_addr == DUMMY_WURQ then t
    else ReadNext(Store(t, s.dl_addr, value), s.dl_addr)
  }

  function RestartNext(s: Sm, addr: nat): Sm {
    match addr
    case 0x04 =>
      if s.cfg.mode == CfgCom then DlWrite(s, DID_1, (s.cfg.deviceid / 65536) % 256)
      else DlWrite(s, MASTER_CMD, DEVICE_IDENT)
    case 0x09 => DlWrite(s, DID_2, (s.cfg.deviceid / 256) % 256)
    case 0x0A => DlWrite(s, DID_3, s.cfg.deviceid % 256)
    case 0x0B => DlWrite(s, MASTER_CMD, DEVICE_IDENT)
    case 0x00 => DlRead(s, MIN_CYCL)
    case _ => s
  }

  function WriteCnf(s: Sm, ok: bool): Sm {
    var t := s.(pending := None);
    if !ok then Fire(t, CnfComlost)
    else
      match s.state
      case WaitonDLPreoperate => SetMode(t, ReqPreoperate)  // T2
      case InspectionFault => Fire(t, s.error_event)
      case CheckVxy => CheckRevision(t)
      case RestartDevice => RestartNext(t, s.dl_addr)
      case WaitonDLOperate =>
        if s.dl_addr == MASTER_CYCL then DlWrite(t, MASTER_CMD, DEVICE_OPERATE)
        else if s.dl_addr == MASTER_CMD then SetMode(t, ReqOperate)
        else t
      case _ => t
  }

  datatype MhMode = MhInactive | MhComlost | MhStartup | MhPreoperate | MhOperate

  function ModeInd(s: Sm, m: MhMode): Sm {
    if m == MhComlost then
      if s.state == PortInactive || s.state == Dido then s else Fire(s, ModeComlost)
    else
      match s.state
      case PortInactive =>
        (match m
         case MhStartup => Fire(s, ModeStartup)  // T1
         case MhInactive => Report(s, if s.cfg.mode == TargetInactive then PmInactive else PmComlost)
         case _ => s)
      case WaitonDLPreoperate => if m == MhPreoperate then Fire(s, ModePreoperate) else s
      case SMOperate => if m == MhOperate then Fire(s, ModeOperate) else s
      case WaitonDLOperate => if m == MhOperate then Fire(s, ModeOperate) else s
      case InspectionFault => s
      case _ => Fire(s, ModeComlost)
  }

  /** How the read of the serial number ended. */
  datatype SerialRead = IndexNotAvailable | SerialError | SerialData(data: seq<byte>)

  /** A service of the application layer is confirmed. */
  function AlDone(s: Sm): Sm {
    s.(al_pending := if s.al_pending > 0 then s.al_pending - 1 else 0)
  }

  function WithSerial(s: Sm, serial: Serial): Sm {
    s.(dev := s.dev.(serial := serial))
  }

  function SerialResult(s: Sm, r: SerialRead): Sm {
    match r
    case IndexNotAvailable => CheckSerial(WithSerial(s, Zeros(SERIAL_LENGTH)))
    case SerialError => Fire(s, if s.dev.revisionid == REV_V11 then CnfComlost else ModeComlost)
    case SerialData(data) =>
      if |data| > SERIAL_LENGTH then Fire(s, CnfComlost)
      else CheckSerial(WithSerial(s, Window(data, 0, SERIAL_LENGTH)))
  }

  function AlReadCnf(s: Sm, r: SerialRead): Sm {
    SerialResult(AlDone(s), r)
  }

  function CycleWriteCnf(s: Sm, ok: bool): Sm {
    Fire(AlDone(s), if ok then WriteMasterCyclDone else CnfComlost)
  }

  function DevmodeCnf(s: Sm, ok: bool): Sm {
    if ok && s.state == WaitDevmodeCnf then
      Fire(SetMode(s, ReqOperate), if s.dev.revisionid == REV_V10 then SmOperateV10 else SmOperateReq)
    else if ok && s.state == WaitForFallback then Fire(s, SetInactive)
    else Fire(s, if s.state == WaitDevmodeCnf then CnfComlost else ModeComlost)
  }

  /** A configured serial number outlives the next configuration. */
  function Configured(s: Sm, cfg: Config): Sm {
    s.(cfg := if s.cfg.serial[0] != 0 then cfg.(serial := s.cfg.serial) else cfg)
  }

  predicate Configurable(state: SmState) {
    || state == PortInactive || state == Wait || state == SMOperate
    || state == InspectionFault || state == Dido || state == CheckSerNum
  }

  function SetPortConfig(s: Sm, cfg: Config): Sm {
    if !Configurable(s.state) then s
    else
      Fire(Configured(s, cfg),
        match cfg.mode
        case CfgCom => SetCom
        case AutoCom => SetCom
        case TargetDi => SetDio
        case TargetDo => SetDio
        case TargetInactive => SetInactive)
  }

  function OperateReq(s: Sm): Sm {
    Fire(s, if s.dev.revisionid != REV_V10 || VendorId(s.dev) != 0x014E then WriteMasterCyclReq else SmOperateV10)
  }

  datatype SmInput =
    | ReadConfirmed(ok: bool, value: byte)
    | WriteConfirmed(wok: bool)
    | Woken
    | Mode(m: MhMode)
    | SpeedFound(com1: bool)
    | SerialConfirmed(r: SerialRead)
    | CycleConfirmed(cok: bool)
    | DevmodeConfirmed(dok: bool)
    | Configure(cfg: Config)
    | Operate

  function SmStep(s: Sm, i: SmInput): Sm {
    match i
    case ReadConfirmed(ok, value) => ReadCnf(s, ok, value)
    case WriteConfirmed(ok) => WriteCnf(s, ok)
    case Woken => s
    case Mode(m) => ModeInd(s, m)
    case SpeedFound(com1) => s.(com1 := com1)
    case SerialConfirmed(r) => AlReadCnf(s, r)
    case CycleConfirmed(ok) => CycleWriteCnf(s, ok)
    case DevmodeConfirmed(ok) => DevmodeCnf(s, ok)
    case Configure(cfg) => SetPortConfig(s, cfg)
    case Operate => OperateReq(s)
  }

  /** The states that expect a read confirmation. */
  predicate Reading(state: SmState) {
    state == ReadComParameter || state == CheckCompV10 || state == CheckComp || state == RestartDevice
  }

  /** The data link layer confirms the access under way, once; a wake-up's own
      confirmation comes while the address is the dummy; services of the
      application layer are confirmed once. The assertions of the confirmation
      callbacks hold. */
  predicate CanStep(s: Sm, i: SmInput) {
    match i
    case ReadConfirmed(ok, _) =>
      s.pending.Some? && s.pending.value.read
      && (ok ==> s.dl_addr == DUMMY_WURQ || Reading(s.state))
    case WriteConfirmed(ok) =>
      s.pending.Some? && !s.pending.value.read
      && (ok ==>
            || s.state == WaitonDLPreoperate || s.state == InspectionFault || s.state == CheckVxy
            || (s.state == RestartDevice && (s.dl_addr == REV_ID ==> s.cfg.mode == CfgCom || s.cfg.mode == AutoCom))
            || s.state == WaitonDLOperate)
    case Woken => s.dl_addr == DUMMY_WURQ
    case SerialConfirmed(_) => s.al_pending > 0
    case CycleConfirmed(_) => s.al_pending > 0
    case _ => true
  }

  function SmRun(s: Sm, inputs: seq<SmInput>): Sm {
    if inputs == [] then s else SmStep(SmRun(s, inputs[..|inputs| - 1]), inputs[|inputs| - 1])
  }

  predicate CanRun(s: Sm, inputs: seq<SmInput>) {
    inputs == []
    || (CanRun(s, inputs[..|inputs| - 1]) && CanStep(SmRun(s, inputs[..|inputs| - 1]), inputs[|inputs| - 1]))
  }

  /** After iolink_sm_init. */
  predicate Initial(s: Sm) {
    && s.state == PortInactive && s.dl_addr == DUMMY_WURQ && s.pending == None && s.al_pending == 0
    && s.comp_retry == 0 && s.h == SmHistory([], [], [], None, 0, 0, NOTHING_SEEN)
  }
}
