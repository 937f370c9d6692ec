/**
 * Both sides of every check of a start-up, by the octets read: what lets a device
 * through, what restarts it, and what is reported when it is refused; and the whole
 * way from the wake-up to OPERATE.
 */
module SystemManagementVerdicts {
  import opened Bytes
  import opened IsduCodec
  import opened SystemManagement
  import opened SystemManagementRuns
  import opened SystemManagementScript

  /** The next write, and nothing reported. */
  predicate Asks(s: Sm, t: Sm, state: SmState, a: Access) {
    t.state == state && t.pending == Some(a) && t.h.modes == s.h.modes && t.h.setmodes == s.h.setmodes
  }

  /** What a step reports and which mode it requests. */
  predicate Tells(s: Sm, t: Sm, modes: seq<PortMode>, setmodes: seq<DlModeReq>) {
    t.h.modes == s.h.modes + modes && t.h.setmodes == s.h.setmodes + setmodes
  }

  // ---------- the cycle time ----------

  /** The cycle time asked for: the device's shortest, but no shorter than 92 at the
      speed COM1 and 80 at the others, in the device's own units. */
  function CycleTimeOf(com1: bool, mincycle: byte): byte {
    if com1 then Slower(92, mincycle) else Slower(80, mincycle)
  }

  lemma CycleTimeTaken(s: Sm, com1: bool, value: byte)
    requires ReadUpTo(s, ReadComParameter, MIN_CYCL)
    ensures var t := SmStep(SmStep(s, SpeedFound(com1)), ReadConfirmed(true, value));
            && t.dev.cycletime == CycleTimeOf(com1, value) && t.dev.mincycle == value
            && ReadUpTo(t, ReadComParameter, MSEQ_CAP)
  {
  }

  // ---------- the revision ----------

  /** A device of another revision is restarted once; if it insists, that is reported
      when it has been sent to PREOPERATE. */
  lemma RevisionDecides(s: Sm)
    requires ScriptInv(s) && PhaseInv(s) && s.state == CheckVxy && CanStep(s, WriteConfirmed(true))
    ensures var t := SmStep(s, WriteConfirmed(true));
            if RevisionFits(s.cfg, s.h.seen.com) then Asks(s, t, CheckComp, Access(true, 7, 0))
            else if s.h.retries == 0 then
              Asks(s, t, RestartDevice, W(4, s.cfg.revisionid)) && t.h.retries == 1
            else
              && Asks(s, t, InspectionFault, W(0, 0x9A))
              && var u := SmStep(t, WriteConfirmed(true));
                 u.state == InspectionFault && Tells(t, u, [PmRevisionFault], [ReqPreoperate])
  {
    var p := s.(pending := None);
    if RevisionFits(s.cfg, s.h.seen.com) {
      assert CheckRevision(p) == DlRead(p.(state := CheckComp), VID_1);
    } else if s.h.retries == 0 {
      assert CheckRevision(p) == Restart(p.(state := RestartDevice));
    } else {
      var t := DlWrite(p.(state := InspectionFault, error_event := RevisionFault), MASTER_CMD, DEVICE_PREOP);
      assert CheckRevision(p) == t;
      FaultTold(t, PmRevisionFault);
    }
  }

  /** Refused and sent to PREOPERATE: then the fault is reported. */
  lemma FaultTold(t: Sm, m: PortMode)
    requires t.state == InspectionFault
    requires (t.error_event == RevisionFault && m == PmRevisionFault) || (t.error_event == CompFault && m == PmCompFault)
          || (t.error_event == CycTimeFault && m == PmCyctimeFault)
    ensures var u := WriteCnf(t, true);
            u.state == InspectionFault && Tells(t, u, [m], [ReqPreoperate])
  {
    assert WriteCnf(t, true) == FireInspectionFault(t.(pending := None), t.error_event);
  }

  // ---------- the comparison ----------

  predicate CycleFits(cfg: Config, cycletime: byte) {
    cfg.cycletime == 0 || cfg.cycletime >= cycletime
  }

  function Octets(a: nat, b: nat, c: nat): nat {
    65536 * a + 256 * b + c
  }

  predicate VendorFits(cfg: Config, pass: seq<byte>)
    requires |pass| == 7
  {
    cfg.vendorid == Octets(0, pass[0], pass[1])
  }

  predicate DeviceFits(cfg: Config, pass: seq<byte>)
    requires |pass| == 7
  {
    cfg.deviceid == Octets(pass[2], pass[3], pass[4])
  }

  /** The reading of addresses 7 to 13 is about to end with this octet. */
  predicate LastOctet(s: Sm, state: SmState) {
    s.state == state && s.dl_addr == FID_2 && s.pending == Some(Access(true, FID_2, 0))
    && Assembled(s.dev, s.h.pass, 6)
  }

  lemma IdsRead(s: Sm, state: SmState, value: byte)
    requires LastOctet(s, state)
    ensures var u := Store(s.(pending := None), FID_2, value);
            && u.h.pass == s.h.pass + [value] && u.cfg == s.cfg && u.dev.cycletime == s.dev.cycletime
            && u.comp_retry == s.comp_retry && u.state == state && u.h.modes == s.h.modes && u.h.setmodes == s.h.setmodes
            && (VendorFits(s.cfg, s.h.pass + [value]) <==> s.cfg.vendorid == VendorId(u.dev))
            && (DeviceFits(s.cfg, s.h.pass + [value]) <==> s.cfg.deviceid == DeviceId(u.dev))
  {
  }

  datatype Verdict = Passes | Restarts | Refused(m: PortMode)

  /** What is made of a device that is not of revision 1.0. Its vendor must be the one
      configured; another device of that vendor is restarted once. */
  function VerdictOf(cfg: Config, cycletime: byte, pass: seq<byte>, restarted: bool): Verdict
    requires |pass| == 7
  {
    if !CycleFits(cfg, cycletime) then Refused(PmCyctimeFault)
    else if cfg.level == NoCheck || (VendorFits(cfg, pass) && DeviceFits(cfg, pass)) then Passes
    else if VendorFits(cfg, pass) && !restarted then Restarts
    else Refused(PmCompFault)
  }

  predicate Follows(s: Sm, t: Sm, v: Verdict) {
    match v
    case Passes => Asks(s, t, WaitonDLPreoperate, W(0, 0x9A))
    case Restarts => Asks(s, t, RestartDevice, W(4, s.cfg.revisionid))
    case Refused(m) =>
      && Asks(s, t, InspectionFault, W(0, 0x9A))
      && var u := SmStep(t, WriteConfirmed(true));
         u.state == InspectionFault && Tells(t, u, [m], [ReqPreoperate])
  }

  lemma ComparisonDecides(s: Sm, value: byte)
    requires LastOctet(s, CheckComp)
    ensures Follows(s, SmStep(s, ReadConfirmed(true, value)),
              VerdictOf(s.cfg, s.dev.cycletime, s.h.pass + [value], s.comp_retry != 0))
  {
    var u := Store(s.(pending := None), FID_2, value);
    IdsRead(s, CheckComp, value);
    assert SmStep(s, ReadConfirmed(true, value)) == CheckCompatibility(u);
    Compared(u, VerdictOf(s.cfg, s.dev.cycletime, u.h.pass, s.comp_retry != 0));
  }

  lemma Compared(u: Sm, v: Verdict)
    requires u.state == CheckComp && |u.h.pass| == 7 && u.pending == None
    requires VendorFits(u.cfg, u.h.pass) <==> u.cfg.vendorid == VendorId(u.dev)
    requires DeviceFits(u.cfg, u.h.pass) <==> u.cfg.deviceid == DeviceId(u.dev)
    requires v == VerdictOf(u.cfg, u.dev.cycletime, u.h.pass, u.comp_retry != 0)
    ensures Follows(u, CheckCompatibility(u), v)
  {
    match v
    case Passes => assert CheckCompatibility(u) == FireCheckComp(Passed(u), CompOK);
    case Restarts => assert CheckCompatibility(u) == FireCheckComp(u, RetryStartup);
    case Refused(m) =>
      var e := if m == PmCyctimeFault then CycTimeFault else CompFault;
      var t := DlWrite(u.(state := InspectionFault, error_event := e), MASTER_CMD, DEVICE_PREOP);
      assert CheckCompatibility(u) == FireCheckComp(u.(error_event := e), e) == t;
      FaultTold(t, m);
  }

  /** A device of revision 1.0 is never restarted, and a refusal is reported at once. */
  lemma ComparisonV10Decides(s: Sm, value: byte)
    requires LastOctet(s, CheckCompV10)
    ensures var t, pass := SmStep(s, ReadConfirmed(true, value)), s.h.pass + [value];
            if !CycleFits(s.cfg, s.dev.cycletime) then
              t.state == InspectionFault && Tells(s, t, [PmCyctimeFault], [ReqInactive])
            else if s.cfg.level == NoCheck || (VendorFits(s.cfg, pass) && DeviceFits(s.cfg, pass)) then
              Asks(s, t, WaitonDLOperate, W(1, s.dev.cycletime))
            else t.state == InspectionFault && Tells(s, t, [PmCompFault], [ReqOperate])
  {
    var u := Store(s.(pending := None), FID_2, value);
    IdsRead(s, CheckCompV10, value);
    assert SmStep(s, ReadConfirmed(true, value)) == CheckCompatibilityV10(u);
    ComparedV10(u);
  }

  lemma ComparedV10(u: Sm)
    requires u.state == CheckCompV10 && |u.h.pass| == 7
    requires VendorFits(u.cfg, u.h.pass) <==> u.cfg.vendorid == VendorId(u.dev)
    requires DeviceFits(u.cfg, u.h.pass) <==> u.cfg.deviceid == DeviceId(u.dev)
    ensures var t := CheckCompatibilityV10(u);
            if !CycleFits(u.cfg, u.dev.cycletime) then
              t.state == InspectionFault && Tells(u, t, [PmCyctimeFault], [ReqInactive])
            else if u.cfg.level == NoCheck || (VendorFits(u.cfg, u.h.pass) && DeviceFits(u.cfg, u.h.pass)) then
              Asks(u, t, WaitonDLOperate, W(1, u.dev.cycletime))
            else t.state == InspectionFault && Tells(u, t, [PmCompFault], [ReqOperate])
  {
    if CycleFits(u.cfg, u.dev.cycletime)
       && (u.cfg.level == NoCheck || (VendorFits(u.cfg, u.h.pass) && DeviceFits(u.cfg, u.h.pass))) {
      assert CheckCompatibilityV10(u) == FireCheckCompV10(Passed(u), V10CompOK);
    }
  }

  // ---------- the serial number ----------

  /** A serial number as read: what is missing is zero. */
  function SerialOf(data: seq<byte>): Serial
    requires |data| <= SERIAL_LENGTH
  {
    data + Zeros(SERIAL_LENGTH - |data|)
  }

  lemma SerialDecides(s: Sm, data: seq<byte>)
    requires s.state == CheckSerNum && |data| <= SERIAL_LENGTH
    ensures var t, serial := SmStep(s, SerialConfirmed(SerialData(data))), SerialOf(data);
            if s.cfg.level != Identical || s.cfg.serial == serial then
              t.state == Wait && Tells(s, t, [PmComReady(s.h.checked, s.cfg, serial)], [])
            else t.state == InspectionFault && Tells(s, t, [PmSernumFault], [])
  {
    assert Window(data, 0, SERIAL_LENGTH) == SerialOf(data);
    var p := WithSerial(AlDone(s), SerialOf(data));
    if s.cfg.level != Identical || s.cfg.serial == SerialOf(data) {
      assert CheckSerial(p) == FireCheckSerNum(p, SerNumOK);
    } else {
      assert CheckSerial(p) == FireCheckSerNum(p.(error_event := SerNumFault), SerNumFault);
    }
  }

  /** A device without the index has the serial number zero. */
  lemma MissingSerialDecides(s: Sm)
    requires s.state == CheckSerNum
    ensures SmStep(s, SerialConfirmed(IndexNotAvailable)) == SmStep(s, SerialConfirmed(SerialData([])))
  {
    assert Window([], 0, SERIAL_LENGTH) == Zeros(SERIAL_LENGTH);
  }

  // ---------- on the way to OPERATE ----------

  /** Let through: PREOPERATE is requested, and reaching it starts the serial number's
      read. */
  lemma PreoperateReached(s: Sm)
    requires s.state == WaitonDLPreoperate && CanStep(s, WriteConfirmed(true))
    ensures var t := SmStep(s, WriteConfirmed(true));
            && t.state == WaitonDLPreoperate && Tells(s, t, [], [ReqPreoperate])
            && var u := SmStep(t, Mode(MhPreoperate));
               u.state == CheckSerNum && Tells(t, u, [], []) && u.al_pending == s.al_pending + 1
               && u.h.checked == s.h.checked && u.cfg == s.cfg
  {
    var t := SmStep(s, WriteConfirmed(true));
    assert SmStep(t, Mode(MhPreoperate)) == FireWaitonDLPreoperate(t, ModePreoperate);
  }

  /** A device of revision 1.0 is given its cycle time, then the OPERATE command; its
      serial number is read in OPERATE. */
  lemma V10OperateReached(s: Sm)
    requires s.state == WaitonDLOperate && CanStep(s, WriteConfirmed(true)) && s.dl_addr == MASTER_CYCL
    ensures var t := SmStep(s, WriteConfirmed(true));
            && Asks(s, t, WaitonDLOperate, W(0, 0x99))
            && var u := SmStep(t, WriteConfirmed(true));
               && u.state == WaitonDLOperate && Tells(t, u, [], [ReqOperate])
               && SmStep(u, Mode(MhOperate)).state == CheckSerNum
               && SmStep(u, Mode(MhOperate)).al_pending == s.al_pending + 1
  {
    var u := SmStep(SmStep(s, WriteConfirmed(true)), WriteConfirmed(true));
    assert SmStep(u, Mode(MhOperate)) == FireWaitonDLOperate(u, ModeOperate);
  }

  /** The devices that are given no master cycle time before OPERATE. */
  predicate WithoutCycle(s: Sm) {
    s.dev.revisionid == REV_V10 && VendorId(s.dev) == 0x014E
  }

  lemma CycleAsked(s: Sm)
    requires s.state == Wait
    ensures var t := SmStep(s, Operate);
            if WithoutCycle(s) then t.state == SMOperate && Tells(s, t, [PmOperate], [])
            else t.state == WriteMasterCycl && Tells(s, t, [], []) && t.al_pending == s.al_pending + 1 && t.dev == s.dev
  {
    assert SmStep(s, Operate) == FireWait(s, if WithoutCycle(s) then SmOperateV10 else WriteMasterCyclReq);
  }

  lemma CycleWritten(s: Sm)
    requires s.state == WriteMasterCycl
    ensures var t := SmStep(s, CycleConfirmed(true));
            t.state == WaitDevmodeCnf && Tells(s, t, [], []) && t.dev == s.dev
  {
    assert CycleWriteCnf(s, true) == FireWriteMasterCycl(AlDone(s), WriteMasterCyclDone);
  }

  /** OPERATE is requested when the device has confirmed it. It is reported when the
      port gets there, for a device of revision 1.0 at once. */
  lemma OperateConfirmed(s: Sm)
    requires s.state == WaitDevmodeCnf
    ensures var t := SmStep(s, DevmodeConfirmed(true));
            && t.state == SMOperate
            && Tells(s, t, if s.dev.revisionid == REV_V10 then [PmOperate] else [], [ReqOperate])
            && var u := SmStep(t, Mode(MhOperate)); u.state == SMOperate && Tells(t, u, [PmOperate], [])
  {
    var p, e := SetMode(s, ReqOperate), if s.dev.revisionid == REV_V10 then SmOperateV10 else SmOperateReq;
    assert DevmodeCnf(s, true) == FireWaitDevmodeCnf(p, e);
    var t := SmStep(s, DevmodeConfirmed(true));
    assert SmStep(t, Mode(MhOperate)) == FireSMOperate(t, ModeOperate);
  }

  // ---------- configurations, and a lost link ----------

  /** A configuration for a device starts the port, whatever it was doing. */
  lemma DeviceConfigured(s: Sm, cfg: Config)
    requires Configurable(s.state) && (cfg.mode == CfgCom || cfg.mode == AutoCom)
    ensures var t := SmStep(s, Configure(cfg));
            t.state == PortInactive && t.dl_addr == DUMMY_WURQ && Tells(s, t, [], [ReqStartup])
  {
    SetComFires(Configured(s, cfg));
  }

  lemma SetComFires(s: Sm)
    requires Configurable(s.state)
    ensures Fire(s, SetCom) == GoInactive(s.(state := PortInactive), SetCom)
  {
    match s.state
    case PortInactive => assert s.(state := PortInactive) == s;
    case _ =>
  }

  /** One for a digital input or output is taken up everywhere but while the serial
      number is read. */
  lemma DigitalConfigured(s: Sm, cfg: Config)
    requires Configurable(s.state) && (cfg.mode == TargetDi || cfg.mode == TargetDo)
    ensures var t := SmStep(s, Configure(cfg));
            if s.state == CheckSerNum then t.state == CheckSerNum && Tells(s, t, [], [])
            else t.state == Dido && Tells(s, t, [if cfg.mode == TargetDi then PmDi else PmDo], [ReqInactive])
  {
    var p := Configured(s, cfg);
    if s.state == CheckSerNum {
      assert Fire(p, SetDio) == FireCheckSerNum(p, SetDio);
    } else {
      SetDioFires(p);
    }
  }

  lemma SetDioFires(s: Sm)
    requires Configurable(s.state) && s.state != CheckSerNum
    ensures Fire(s, SetDio) == GoDido(s.(state := Dido))
  {
    match s.state
    case Dido => assert s.(state := Dido) == s;
    case _ =>
  }

  /** To switch a port off that talks to a device, the device is sent back first. */
  lemma OffConfigured(s: Sm, cfg: Config)
    requires Configurable(s.state) && cfg.mode == TargetInactive
    ensures var t := SmStep(s, Configure(cfg));
            if s.state == PortInactive || s.state == Dido then
              t.state == PortInactive && Tells(s, t, [PmInactive], [ReqInactive])
            else
              && t.state == WaitForFallback && Tells(s, t, [], [])
              && var u := SmStep(t, DevmodeConfirmed(true));
                 u.state == PortInactive && Tells(t, u, [PmInactive], [ReqInactive])
  {
    var p := Configured(s, cfg);
    SetInactiveFires(p);
    if s.state != PortInactive && s.state != Dido {
      var t := p.(state := WaitForFallback);
      assert DevmodeCnf(t, true) == FireWaitForFallback(t, SetInactive);
    }
  }

  lemma SetInactiveFires(s: Sm)
    requires Configurable(s.state)
    ensures Fire(s, SetInactive) ==
      if s.state == PortInactive || s.state == Dido then GoInactive(s.(state := PortInactive), SetInactive)
      else s.(state := WaitForFallback)
  {
    match s.state
    case PortInactive => assert s.(state := PortInactive) == s;
    case _ =>
  }

  /** A wake-up without an answer: a port that is to be off is off, any other has lost
      its device. */
  lemma NoDeviceFound(s: Sm)
    requires s.state == PortInactive
    ensures var t := SmStep(s, Mode(MhInactive));
            t.state == PortInactive && Tells(s, t, [if s.cfg.mode == TargetInactive then PmInactive else PmComlost], [])
  {
  }

  /** Where a lost link is noticed by itself; elsewhere only the access that fails
      with it tells. */
  predicate NoticesLoss(state: SmState) {
    || state == Wait || state == SMOperate || state == InspectionFault || state == WaitonDLOperate
    || state == WaitForFallback
  }

  lemma LossNoticedIff(s: Sm)
    ensures var t := SmStep(s, Mode(MhComlost));
            if NoticesLoss(s.state) then t.state == PortInactive && Tells(s, t, [PmComlost], [ReqInactive])
            else Tells(s, t, [], []) && t.state == if s.state == RestartDevice then CheckComp else s.state
  {
    if NoticesLoss(s.state) { NoticedLoss(s); } else { IgnoredLoss(s); }
  }

  lemma NoticedLoss(s: Sm)
    requires NoticesLoss(s.state)
    ensures Fire(s, ModeComlost) == Comlost(s.(state := PortInactive))
  {
  }

  /** So is a device mode that is confirmed in OPERATE without having been asked for. */
  predicate GivenUp(s: Sm, t: Sm) {
    t.state == PortInactive && Tells(s, t, [PmComlost], [ReqInactive])
  }

  lemma ConfirmationEndsOperate(s: Sm)
    requires s.state == SMOperate
    ensures GivenUp(s, SmStep(s, DevmodeConfirmed(true)))
  {
    NoticedLoss(s);
  }

  /** What fails after the checks gives the port up: a serial number that is too long,
      the cycle time, the device mode; and so does a mode that is not confirmed on the
      way back. */
  lemma LaterFailureGivesUp(s: Sm, i: SmInput)
    requires (s.state == CheckSerNum && i.SerialConfirmed? && i.r.SerialData? && |i.r.data| > SERIAL_LENGTH)
          || (s.state == WriteMasterCycl && i == CycleConfirmed(false))
          || (s.state == WaitDevmodeCnf && i == DevmodeConfirmed(false))
          || (s.state == WaitForFallback && i == DevmodeConfirmed(false))
    ensures GivenUp(s, SmStep(s, i))
  {
    match s.state
    case CheckSerNum => assert SmStep(s, i) == FireCheckSerNum(AlDone(s), CnfComlost);
    case WriteMasterCycl => assert SmStep(s, i) == FireWriteMasterCycl(AlDone(s), CnfComlost);
    case WaitDevmodeCnf => assert SmStep(s, i) == FireWaitDevmodeCnf(s, CnfComlost);
    case WaitForFallback => assert SmStep(s, i) == FireWaitForFallback(s, ModeComlost);
  }

  lemma IgnoredLoss(s: Sm)
    requires !NoticesLoss(s.state)
    ensures var t := SmStep(s, Mode(MhComlost));
            Tells(s, t, [], []) && t.state == if s.state == RestartDevice then CheckComp else s.state
  {
    match s.state
    case WaitonDLPreoperate => assert Fire(s, ModeComlost) == FireWaitonDLPreoperate(s, ModeComlost);
    case CheckSerNum => assert Fire(s, ModeComlost) == FireCheckSerNum(s, ModeComlost);
    case ReadComParameter => assert Fire(s, ModeComlost) == FireReadComParameter(s, ModeComlost);
    case CheckCompV10 => assert Fire(s, ModeComlost) == FireCheckCompV10(s, ModeComlost);
    case CheckVxy => assert Fire(s, ModeComlost) == FireCheckVxy(s, ModeComlost);
    case CheckComp => assert Fire(s, ModeComlost) == FireCheckComp(s, ModeComlost);
    case RestartDevice => assert Fire(s, ModeComlost) == FireRestartDevice(s, ModeComlost);
    case WriteMasterCycl => assert Fire(s, ModeComlost) == FireWriteMasterCycl(s, ModeComlost);
    case WaitDevmodeCnf => assert Fire(s, ModeComlost) == FireWaitDevmodeCnf(s, ModeComlost);
    case _ =>
  }

  // ---------- the whole way ----------

  predicate Sound(s: Sm) {
    PhaseInv(s) && ScriptInv(s) && GateInv(s)
  }

  lemma SoundOn(s: Sm, i: SmInput)
    requires Sound(s) && CanStep(s, i)
    ensures Sound(SmStep(s, i))
  {
    StepPhase(s, i);
    StepScript(s, i);
    StepGate(s, i);
  }

  function FirstOf(state: SmState): nat {
    if state == CheckComp then VID_1 else MIN_CYCL
  }

  /** Reading from the first address of this state, with these octets read so far. */
  predicate Gathers(s: Sm, t: Sm, state: SmState, v: seq<byte>) {
    && ReadUpTo(t, state, FirstOf(state) + |v|)
    && Tells(s, t, [], []) && t.cfg == s.cfg && t.com1 == s.com1
    && t.h.retries == s.h.retries && t.comp_retry == s.comp_retry
    && (v != [] ==>
          if state == CheckComp then t.h.pass == v else t.h.seen.com == v && t.h.seen.floor == MinCycleTime(s))
    && (state == CheckComp ==>
          && t.dev.cycletime == s.dev.cycletime && t.dev.revisionid == s.dev.revisionid
          && t.h.seen.cut == s.h.seen.cut)
  }

  predicate Reading(s: Sm, t: Sm, state: SmState, v: seq<byte>) {
    Sound(t) && Gathers(s, t, state, v)
  }

  lemma GathersCom(s: Sm, t: Sm, v: seq<byte>, value: byte)
    requires Gathers(s, t, ReadComParameter, v) && |v| < 4
    ensures Gathers(s, SmStep(t, ReadConfirmed(true, value)), ReadComParameter, v + [value])
  {
    var u := Store(t.(pending := None), t.dl_addr, value);
    assert SmStep(t, ReadConfirmed(true, value)) == DlRead(u, t.dl_addr + 1);
    assert u.h.seen.com == v + [value];
  }

  lemma GathersPass(s: Sm, t: Sm, v: seq<byte>, value: byte)
    requires Gathers(s, t, CheckComp, v) && |v| < 6
    ensures Gathers(s, SmStep(t, ReadConfirmed(true, value)), CheckComp, v + [value])
  {
    var u := Store(t.(pending := None), t.dl_addr, value);
    assert SmStep(t, ReadConfirmed(true, value)) == DlRead(u, t.dl_addr + 1);
    assert u.h.pass == v + [value];
  }

  lemma GathersOne(s: Sm, t: Sm, state: SmState, w: seq<byte>, v: seq<byte>)
    requires v != [] && w == v[..|v| - 1] && Gathers(s, t, state, w)
    requires (state == ReadComParameter && |v| <= 4) || (state == CheckComp && |v| <= 6)
    ensures CanStep(t, ReadConfirmed(true, v[|v| - 1]))
    ensures Gathers(s, SmStep(t, ReadConfirmed(true, v[|v| - 1])), state, v)
  {
    assert w + [v[|v| - 1]] == v;
    if state == CheckComp { GathersPass(s, t, w, v[|v| - 1]); } else { GathersCom(s, t, w, v[|v| - 1]); }
  }

  predicate ReadsThrough(s: Sm, state: SmState, v: seq<byte>) {
    Gathers(s, SmRun(s, ReadInputs(v)), state, v) && CanRun(s, ReadInputs(v))
  }

  lemma {:induction false} ReadsOn(s: Sm, state: SmState, v: seq<byte>)
    requires Gathers(s, s, state, [])
    requires (state == ReadComParameter && |v| <= 4) || (state == CheckComp && |v| <= 6)
    ensures ReadsThrough(s, state, v)
  {
    if v == [] {
      assert ReadInputs(v) == [];
    } else {
      var w := v[..|v| - 1];
      ReadsOn(s, state, w);
      LastInput(s, v);
      GathersOne(s, SmRun(s, ReadInputs(w)), state, w, v);
    }
  }

  lemma {:induction false} SoundRun(s: Sm, inputs: seq<SmInput>)
    requires Sound(s) && CanRun(s, inputs)
    ensures Sound(SmRun(s, inputs))
  {
    if inputs != [] {
      SoundRun(s, inputs[..|inputs| - 1]);
      SoundOn(SmRun(s, inputs[..|inputs| - 1]), inputs[|inputs| - 1]);
    }
  }

  lemma SoundReads(s: Sm, state: SmState, v: seq<byte>)
    requires Reading(s, s, state, [])
    requires (state == ReadComParameter && |v| <= 4) || (state == CheckComp && |v| <= 6)
    ensures Reading(s, SmRun(s, ReadInputs(v)), state, v)
  {
    ReadsOn(s, state, v);
    SoundRun(s, ReadInputs(v));
  }

  lemma LastInput(s: Sm, v: seq<byte>)
    requires v != []
    ensures SmRun(s, ReadInputs(v)) == SmStep(SmRun(s, ReadInputs(v[..|v| - 1])), ReadConfirmed(true, v[|v| - 1]))
    ensures CanRun(s, ReadInputs(v)) <==>
      CanRun(s, ReadInputs(v[..|v| - 1])) && CanStep(SmRun(s, ReadInputs(v[..|v| - 1])), ReadConfirmed(true, v[|v| - 1]))
  {
    assert ReadInputs(v)[..|v| - 1] == ReadInputs(v[..|v| - 1]);
  }

  /** A device that fits in every respect, with these octets and this serial number. */
  predicate Fits(s: Sm, com: seq<byte>, pass: seq<byte>, data: seq<byte>) {
    && |com| == 5 && |pass| == 7 && |data| <= SERIAL_LENGTH
    && com[2] != REV_V10 && RevisionFits(s.cfg, com)
    && VerdictOf(s.cfg, CycleTimeOf(s.com1, com[0]), pass, false) == Passes
    && (s.cfg.level == Identical ==> s.cfg.serial == SerialOf(data))
  }

  /** The start-up, up to the revision check. */
  lemma Identified(s: Sm, com: seq<byte>)
    requires Sound(s) && s.state == PortInactive && |com| == 5 && com[2] != REV_V10
    ensures var t := SmRun(SmStep(s, Mode(MhStartup)), ReadInputs(com));
            && Sound(t) && Asks(s, t, CheckVxy, W(0, 0x95)) && t.cfg == s.cfg && t.h.retries == t.comp_retry == 0
            && t.h.seen.com == com && t.dev.cycletime == CycleTimeOf(s.com1, com[0])
  {
    var t := SmStep(s, Mode(MhStartup));
    SoundOn(s, Mode(MhStartup));
    assert t == ReadComParameters(s.(state := ReadComParameter), ModeStartup);
    SoundReads(t, ReadComParameter, com[..4]);
    LastInput(t, com);
    LastIdentified(t, SmRun(t, ReadInputs(com[..4])), com);
  }

  lemma LastIdentified(s: Sm, t: Sm, com: seq<byte>)
    requires |com| == 5 && Reading(s, t, ReadComParameter, com[..4]) && com[2] != REV_V10
    ensures var u := SmStep(t, ReadConfirmed(true, com[4]));
            && Sound(u) && Asks(s, u, CheckVxy, W(0, 0x95)) && u.cfg == s.cfg
            && u.h.retries == s.h.retries && u.comp_retry == s.comp_retry
            && u.h.seen.com == com && u.dev.cycletime == CycleTimeOf(s.com1, com[0])
  {
    var u := SmStep(t, ReadConfirmed(true, com[4]));
    SoundOn(t, ReadConfirmed(true, com[4]));
    var p := Store(t.(pending := None), PDO, com[4]);
    assert p.h.seen.com == com[..4] + [com[4]] == com;
    assert p.dev.revisionid == com[2];
    assert u == FireReadComParameter(p, NotV10);
  }

  /** From there to the end of the comparison. */
  lemma Admitted(s: Sm, com: seq<byte>, pass: seq<byte>)
    requires Sound(s) && s.state == CheckVxy && s.pending == Some(W(0, 0x95)) && s.h.seen.com == com && |com| == 5
    requires RevisionFits(s.cfg, com) && |pass| == 7 && s.comp_retry == 0
    requires VerdictOf(s.cfg, s.dev.cycletime, pass, false) == Passes
    ensures var t := SmRun(SmStep(s, WriteConfirmed(true)), ReadInputs(pass));
            && Sound(t) && Asks(s, t, WaitonDLPreoperate, W(0, 0x9A)) && t.cfg == s.cfg
            && t.h.retries == s.h.retries && t.dev.revisionid == com[2] && !t.h.seen.cut
  {
    RevisionDecides(s);
    SoundOn(s, WriteConfirmed(true));
    var t := SmStep(s, WriteConfirmed(true));
    assert t == FireCheckVxy(s.(pending := None), RevisionOK);
    SoundReads(t, CheckComp, pass[..6]);
    LastInput(t, pass);
    LastAdmitted(t, SmRun(t, ReadInputs(pass[..6])), pass);
  }

  lemma LastAdmitted(s: Sm, t: Sm, pass: seq<byte>)
    requires |pass| == 7 && Reading(s, t, CheckComp, pass[..6]) && s.comp_retry == 0
    requires VerdictOf(s.cfg, s.dev.cycletime, pass, false) == Passes
    ensures var u := SmStep(t, ReadConfirmed(true, pass[6]));
            && Sound(u) && Asks(s, u, WaitonDLPreoperate, W(0, 0x9A)) && u.cfg == s.cfg
            && u.h.retries == s.h.retries && u.dev.revisionid == s.dev.revisionid && u.h.seen.cut == s.h.seen.cut
  {
    SoundOn(t, ReadConfirmed(true, pass[6]));
    assert pass[..6] + [pass[6]] == pass;
    ComparisonDecides(t, pass[6]);
    var p := Store(t.(pending := None), FID_2, pass[6]);
    IdsRead(t, CheckComp, pass[6]);
    assert SmStep(t, ReadConfirmed(true, pass[6])) == CheckCompatibility(p);
  }

  /** And from the serial number to OPERATE. */
  function Operated(s: Sm, data: seq<byte>): Sm {
    var ready := SmStep(SmStep(SmStep(s, WriteConfirmed(true)), Mode(MhPreoperate)), SerialConfirmed(SerialData(data)));
    SmStep(SmStep(SmStep(SmStep(ready, Operate), CycleConfirmed(true)), DevmodeConfirmed(true)), Mode(MhOperate))
  }

  predicate ReportsReady(s: Sm, t: Sm, serial: Serial) {
    && |t.h.modes| == |s.h.modes| + 1 && t.h.modes[..|s.h.modes|] == s.h.modes
    && t.h.modes[|s.h.modes|].PmComReady? && t.h.modes[|s.h.modes|].cfg == s.cfg
    && t.h.modes[|s.h.modes|].serial == serial
  }

  lemma Readied(s: Sm, data: seq<byte>)
    requires s.state == WaitonDLPreoperate && CanStep(s, WriteConfirmed(true)) && |data| <= SERIAL_LENGTH
    requires s.cfg.level == Identical ==> s.cfg.serial == SerialOf(data)
    requires s.dev.revisionid != REV_V10
    ensures var t := SmStep(SmStep(SmStep(s, WriteConfirmed(true)), Mode(MhPreoperate)), SerialConfirmed(SerialData(data)));
            && t.state == Wait && ReportsReady(s, t, SerialOf(data)) && t.h.setmodes == s.h.setmodes + [ReqPreoperate]
            && t.dev.revisionid == s.dev.revisionid
  {
    PreoperateReached(s);
    var u := SmStep(SmStep(s, WriteConfirmed(true)), Mode(MhPreoperate));
    SerialDecides(u, data);
    var p := WithSerial(AlDone(u), SerialOf(data));
    assert Window(data, 0, SERIAL_LENGTH) == SerialOf(data);
    assert CheckSerial(p) == FireCheckSerNum(p, SerNumOK);
  }

  lemma OperateFollows(s: Sm)
    requires s.state == Wait && s.dev.revisionid != REV_V10
    ensures var t := SmStep(SmStep(SmStep(SmStep(s, Operate), CycleConfirmed(true)), DevmodeConfirmed(true)), Mode(MhOperate));
            t.state == SMOperate && Tells(s, t, [PmOperate], [ReqOperate])
  {
    CycleAsked(s);
    var a := SmStep(s, Operate);
    CycleWritten(a);
    var b := SmStep(a, CycleConfirmed(true));
    OperateConfirmed(b);
  }

  /** What the octets are read as, from a free port up to the comparison's end. */
  function AdmittedBy(s: Sm, com: seq<byte>, pass: seq<byte>): Sm {
    SmRun(SmStep(SmRun(SmStep(s, Mode(MhStartup)), ReadInputs(com)), WriteConfirmed(true)), ReadInputs(pass))
  }

  lemma FittingIsAdmitted(s: Sm, com: seq<byte>, pass: seq<byte>, data: seq<byte>)
    requires Sound(s) && s.state == PortInactive && Fits(s, com, pass, data)
    ensures var t := AdmittedBy(s, com, pass);
            && Sound(t) && Asks(s, t, WaitonDLPreoperate, W(0, 0x9A)) && t.cfg == s.cfg
            && t.h.seen.writes == [W(0, 0x95), W(0, 0x9A)] && t.dev.revisionid != REV_V10
  {
    Identified(s, com);
    Admitted(SmRun(SmStep(s, Mode(MhStartup)), ReadInputs(com)), com, pass);
  }

  /** From a free port: a device that fits is identified, compared and taken to
      OPERATE in one pass. It is written MASTER_IDENT and DEVICE_PREOPERATE and
      nothing else; COMREADY and OPERATE are reported once each. */
  lemma FittingDeviceOperates(s: Sm, com: seq<byte>, pass: seq<byte>, data: seq<byte>)
    requires Sound(s) && s.state == PortInactive && Fits(s, com, pass, data)
    ensures var t, u := AdmittedBy(s, com, pass), Operated(AdmittedBy(s, com, pass), data);
            && t.h.seen.writes == [W(0, 0x95), W(0, 0x9A)] && t.h.modes == s.h.modes
            && u.state == SMOperate && ReportsOperate(s, u)
            && u.h.setmodes == s.h.setmodes + [ReqPreoperate, ReqOperate]
  {
    FittingIsAdmitted(s, com, pass, data);
    AdmittedOperates(AdmittedBy(s, com, pass), data);
  }

  lemma AdmittedOperates(t: Sm, data: seq<byte>)
    requires t.state == WaitonDLPreoperate && CanStep(t, WriteConfirmed(true)) && |data| <= SERIAL_LENGTH
    requires t.cfg.level == Identical ==> t.cfg.serial == SerialOf(data)
    requires t.dev.revisionid != REV_V10
    ensures var u := Operated(t, data);
            u.state == SMOperate && ReportsOperate(t, u) && u.h.setmodes == t.h.setmodes + [ReqPreoperate, ReqOperate]
  {
    Readied(t, data);
    OperateFollows(SmStep(SmStep(SmStep(t, WriteConfirmed(true)), Mode(MhPreoperate)), SerialConfirmed(SerialData(data))));
  }

  /** COMREADY, under the configuration of s, and then OPERATE. */
  predicate ReportsOperate(s: Sm, t: Sm) {
    var n := |s.h.modes|;
    && |t.h.modes| == n + 2 && t.h.modes[..n] == s.h.modes
    && t.h.modes[n].PmComReady? && t.h.modes[n].cfg == s.cfg && t.h.modes[n + 1] == PmOperate
  }
}
