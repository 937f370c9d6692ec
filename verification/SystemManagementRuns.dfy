/**
 * System management over all runs: what COMREADY is worth, that the compatibility
 * phase ends, and where a lost link leaves the port.
 */
module SystemManagementRuns {
  import opened Bytes
  import opened IsduCodec
  import opened SystemManagement

  // ---------- the compatibility phase is bounded ----------

  predicate Compat(state: SmState) {
    state == ReadComParameter || state == CheckCompV10 || state == CheckVxy || state == CheckComp || state == RestartDevice
  }

  const READS_TO_COMPARE: nat := 13  // 5 read, 1 write, 7 read
  const RESTART: nat := 6  // 5 written, 1 read
  const ACCESS_BOUND: nat := 2 * READS_TO_COMPARE + RESTART

  /** Accesses a restart still to come would need. */
  function RestartBudget(s: Sm): nat {
    if s.comp_retry == 0 then RESTART + READS_TO_COMPARE else 0
  }

  /** The access under way is one of this state's. */
  predicate Expected(s: Sm, a: Access) {
    && a.addr == s.dl_addr
    && match s.state
       case ReadComParameter => a.read && MIN_CYCL <= a.addr <= PDO
       case CheckCompV10 => a.read && VID_1 <= a.addr <= FID_2
       case CheckVxy => !a.read && a.addr == MASTER_CMD
       case CheckComp =>
         if a.read then MIN_CYCL <= a.addr <= FID_2 && (a.addr < VID_1 ==> s.comp_retry == 1) else s.comp_retry == 1
       case RestartDevice =>
         s.comp_retry == 1
         && (if a.read then a.addr == MIN_CYCL
             else a.addr == REV_ID || a.addr == DID_1 || a.addr == DID_2 || a.addr == DID_3 || a.addr == MASTER_CMD)
       case _ => true
  }

  /** An upper bound of the accesses still to come: by restart, phase and address. */
  function Remaining(s: Sm): int {
    match s.pending
    case None => 0
    case Some(a) =>
      match s.state
      case ReadComParameter => (PDO - a.addr) + 8 + RestartBudget(s)
      case CheckCompV10 => FID_2 - a.addr
      case CheckVxy => 7 + RestartBudget(s)
      case CheckComp => if a.read then (FID_2 - a.addr) + RestartBudget(s) else 0
      case RestartDevice =>
        if a.read then 13 else if a.addr == REV_ID then 18 else if a.addr == DID_1 then 17
        else if a.addr == DID_2 then 16 else if a.addr == DID_3 then 15 else 14
      case _ => 0
  }

  predicate PhaseInv(s: Sm) {
    Compat(s.state) ==>
      && s.comp_retry == s.h.retries <= 1
      && (s.pending.Some? ==> Expected(s, s.pending.value))
      && 0 <= Remaining(s) && s.h.accesses + Remaining(s) <= ACCESS_BOUND
      && (s.state == RestartDevice ==> s.comp_retry == 1)
  }

  predicate Confirms(i: SmInput) {
    i.ReadConfirmed? || i.WriteConfirmed?
  }

  predicate Successful(i: SmInput) {
    (i.ReadConfirmed? && i.ok) || (i.WriteConfirmed? && i.wok)
  }

  lemma ReadComPhase(s: Sm, value: byte)
    requires PhaseInv(s) && CanStep(s, ReadConfirmed(true, value)) && s.state == ReadComParameter
    ensures PhaseInv(ReadCnf(s, true, value))
    ensures Remaining(ReadCnf(s, true, value)) < Remaining(s)
  {
    var u := Store(s.(pending := None), s.dl_addr, value);
    if s.dl_addr != PDO {
    } else if u.dev.revisionid == REV_V10 {
      assert ReadNext(u, s.dl_addr) == FireReadComParameter(u, V10);
    } else {
      assert ReadNext(u, s.dl_addr) == FireReadComParameter(u, NotV10);
    }
  }

  lemma RestartedPhase(s: Sm)
    requires Compat(s.state) && s.comp_retry == s.h.retries == 0
    requires s.h.accesses + RESTART + READS_TO_COMPARE <= ACCESS_BOUND
    ensures PhaseInv(Restart(s.(state := RestartDevice)))
    ensures Remaining(Restart(s.(state := RestartDevice))) == 18
  {
  }

  lemma ComparedPhase(u: Sm)
    requires u.state == CheckComp && u.comp_retry == u.h.retries <= 1 && u.pending == None
    requires u.h.accesses + RestartBudget(u) <= ACCESS_BOUND
    ensures PhaseInv(CheckCompatibility(u))
    ensures Compat(CheckCompatibility(u).state) ==> Remaining(CheckCompatibility(u)) < RestartBudget(u)
  {
    var t := CheckCompatibility(u);
    if t == Fire(u, RetryStartup) && u.comp_retry == 0 {
      RestartedPhase(u);
      assert t == Restart(u.(state := RestartDevice));
    } else {
      ComparedLeaves(u);
    }
  }

  lemma ComparedLeaves(u: Sm)
    requires u.state == CheckComp && CheckCompatibility(u) != Fire(u, RetryStartup)
    ensures !Compat(CheckCompatibility(u).state)
  {
  }

  lemma CheckCompPhase(s: Sm, value: byte)
    requires PhaseInv(s) && CanStep(s, ReadConfirmed(true, value)) && s.state == CheckComp
    ensures PhaseInv(ReadCnf(s, true, value))
    ensures Compat(ReadCnf(s, true, value).state) ==> Remaining(ReadCnf(s, true, value)) < Remaining(s)
  {
    var u := Store(s.(pending := None), s.dl_addr, value);
    if s.dl_addr == FID_2 {
      ComparedPhase(u);
      assert ReadNext(u, FID_2) == CheckCompatibility(u);
    }
  }

  lemma CheckCompV10Phase(s: Sm, value: byte)
    requires PhaseInv(s) && CanStep(s, ReadConfirmed(true, value)) && s.state == CheckCompV10
    ensures PhaseInv(ReadCnf(s, true, value))
    ensures Compat(ReadCnf(s, true, value).state) ==> Remaining(ReadCnf(s, true, value)) < Remaining(s)
  {
    var u := Store(s.(pending := None), s.dl_addr, value);
    if s.dl_addr == FID_2 {
      assert ReadNext(u, FID_2) == CheckCompatibilityV10(u);
    }
  }

  lemma RestartReadPhase(s: Sm, value: byte)
    requires PhaseInv(s) && CanStep(s, ReadConfirmed(true, value)) && s.state == RestartDevice
    ensures PhaseInv(ReadCnf(s, true, value))
    ensures Remaining(ReadCnf(s, true, value)) < Remaining(s)
  {
    var u := Store(s.(pending := None), s.dl_addr, value);
    assert ReadNext(u, s.dl_addr) == ReadComParameters(u.(state := ReadComParameter), WriteDone);
  }

  lemma RestartWritePhase(s: Sm)
    requires PhaseInv(s) && CanStep(s, WriteConfirmed(true)) && s.state == RestartDevice
    ensures PhaseInv(WriteCnf(s, true))
    ensures Remaining(WriteCnf(s, true)) < Remaining(s)
  {
  }

  lemma CheckVxyPhase(s: Sm)
    requires PhaseInv(s) && CanStep(s, WriteConfirmed(true)) && s.state == CheckVxy
    ensures PhaseInv(WriteCnf(s, true))
    ensures Compat(WriteCnf(s, true).state) ==> Remaining(WriteCnf(s, true)) < Remaining(s)
  {
    var t := s.(pending := None);
    if t.comp_retry == 0 { RestartedPhase(t); }
    assert Fire(t, RetryStartup) == Restart(t.(state := RestartDevice));
  }

  /** Failures and everything that is not a confirmation leave the phase, or stay
      in it without a new access. */
  predicate Calm(s: Sm, t: Sm) {
    && (Compat(t.state) ==> Compat(s.state))
    && (Compat(t.state) ==>
          && (t.pending == s.pending || t.pending == None)
          && t.dl_addr == s.dl_addr && t.comp_retry == s.comp_retry
          && t.h.accesses == s.h.accesses && t.h.retries == s.h.retries
          && (t.state == s.state || (s.state == RestartDevice && t.state == CheckComp)))
  }

  lemma CalmPhase(s: Sm, t: Sm)
    requires PhaseInv(s) && Calm(s, t)
    ensures PhaseInv(t)
    ensures Compat(t.state) ==> Remaining(t) <= Remaining(s)
  {
  }

  predicate FailureOrSignal(e: SmEvent) {
    || e == CnfComlost || e == ModeComlost || e == SerNumOK || e == SerNumFault
    || e == WriteMasterCyclDone || e == WriteMasterCyclReq || e == SmOperateV10 || e == SmOperateReq
    || e == ModePreoperate || e == ModeOperate
  }

  lemma SignalIsCalm(s: Sm, e: SmEvent)
    requires FailureOrSignal(e)
    ensures Calm(s, Fire(s, e))
  {
    match s.state
    case ReadComParameter =>
    case CheckCompV10 =>
    case CheckVxy =>
    case CheckComp =>
    case RestartDevice =>
    case _ =>
  }

  lemma StartupPhase(s: Sm)
    requires s.state == PortInactive
    ensures PhaseInv(Fire(s, ModeStartup))
  {
    assert Fire(s, ModeStartup) == ReadComParameters(s.(state := ReadComParameter), ModeStartup);
  }

  lemma ModePhase(s: Sm, m: MhMode)
    requires PhaseInv(s)
    ensures PhaseInv(ModeInd(s, m))
    ensures Compat(s.state) && Compat(ModeInd(s, m).state) ==> Remaining(ModeInd(s, m)) <= Remaining(s)
  {
    if s.state == PortInactive && m == MhStartup {
      StartupPhase(s);
    } else {
      SignalIsCalm(s, ModeComlost);
      SignalIsCalm(s, ModePreoperate);
      SignalIsCalm(s, ModeOperate);
      CalmPhase(s, ModeInd(s, m));
    }
  }

  lemma SerialIsCalm(s: Sm, r: SerialRead)
    ensures Calm(s, AlReadCnf(s, r))
  {
    var t := AlDone(s);
    match r
    case IndexNotAvailable => CheckSerialIsCalm(WithSerial(t, Zeros(SERIAL_LENGTH)));
    case SerialError =>
      SignalIsCalm(t, CnfComlost);
      SignalIsCalm(t, ModeComlost);
    case SerialData(data) =>
      if |data| > SERIAL_LENGTH {
        SignalIsCalm(t, CnfComlost);
      } else {
        CheckSerialIsCalm(WithSerial(t, Window(data, 0, SERIAL_LENGTH)));
      }
  }

  lemma CheckSerialIsCalm(s: Sm)
    ensures Calm(s, CheckSerial(s))
  {
    SignalIsCalm(s, SerNumOK);
    SignalIsCalm(s.(error_event := SerNumFault), SerNumFault);
  }

  lemma ServiceIsCalm(s: Sm, i: SmInput)
    requires !Confirms(i) && !i.Mode? && !i.SerialConfirmed?
    ensures Calm(s, SmStep(s, i))
  {
    match i
    case Woken =>
    case SpeedFound(com1) =>
    case CycleConfirmed(ok) =>
      SignalIsCalm(AlDone(s), if ok then WriteMasterCyclDone else CnfComlost);
    case DevmodeConfirmed(ok) => DevmodeIsCalm(s, ok);
    case Configure(cfg) => ConfigureIsCalm(s, cfg);
    case Operate =>
      SignalIsCalm(s, WriteMasterCyclReq);
      SignalIsCalm(s, SmOperateV10);
  }

  lemma DevmodeIsCalm(s: Sm, ok: bool)
    ensures Calm(s, DevmodeCnf(s, ok))
  {
    SignalIsCalm(s, CnfComlost);
    SignalIsCalm(s, ModeComlost);
  }

  lemma ConfigureIsCalm(s: Sm, cfg: Config)
    ensures Calm(s, SetPortConfig(s, cfg))
  {
  }

  lemma FailureIsCalm(s: Sm)
    ensures Calm(s, Fire(s.(pending := None), CnfComlost))
  {
    SignalIsCalm(s.(pending := None), CnfComlost);
  }

  lemma ConfirmPhase(s: Sm, i: SmInput)
    requires PhaseInv(s) && CanStep(s, i) && Confirms(i)
    ensures PhaseInv(SmStep(s, i))
    ensures Compat(s.state) && Compat(SmStep(s, i).state) && Successful(i) ==> Remaining(SmStep(s, i)) < Remaining(s)
  {
    FailureIsCalm(s);
    CalmPhase(s, Fire(s.(pending := None), CnfComlost));
    match i
    case ReadConfirmed(ok, value) =>
      if ok {
        match s.state
        case ReadComParameter => ReadComPhase(s, value);
        case CheckComp => CheckCompPhase(s, value);
        case CheckCompV10 => CheckCompV10Phase(s, value);
        case RestartDevice => RestartReadPhase(s, value);
        case _ =>
      }
    case WriteConfirmed(ok) =>
      if ok {
        match s.state
        case CheckVxy => CheckVxyPhase(s);
        case RestartDevice => RestartWritePhase(s);
        case _ =>
      }
  }

  lemma StepPhase(s: Sm, i: SmInput)
    requires PhaseInv(s) && CanStep(s, i)
    ensures PhaseInv(SmStep(s, i))
  {
    if Confirms(i) {
      ConfirmPhase(s, i);
    } else if i.Mode? {
      ModePhase(s, i.m);
    } else if i.SerialConfirmed? {
      SerialIsCalm(s, i.r);
      CalmPhase(s, SmStep(s, i));
    } else {
      ServiceIsCalm(s, i);
      CalmPhase(s, SmStep(s, i));
    }
  }

  /** Over every run: between a start-up and leaving the compatibility checks the
      device is restarted at most once, and at most 32 parameter accesses are made. */
  lemma {:induction false} CompatibilityIsBounded(s: Sm, inputs: seq<SmInput>)
    requires PhaseInv(s) && CanRun(s, inputs)
    ensures PhaseInv(SmRun(s, inputs))
    ensures var t := SmRun(s, inputs);
            Compat(t.state) ==> t.h.retries <= 1 && t.h.accesses <= ACCESS_BOUND == 32
  {
    if inputs != [] {
      CompatibilityIsBounded(s, inputs[..|inputs| - 1]);
      StepPhase(SmRun(s, inputs[..|inputs| - 1]), inputs[|inputs| - 1]);
    }
  }

  /** Every successful confirmation leaves the phase or comes nearer to its end. */
  lemma ConfirmationProgresses(s: Sm, i: SmInput)
    requires PhaseInv(s) && Compat(s.state) && CanStep(s, i) && Successful(i)
    ensures Compat(SmStep(s, i).state) ==> 0 <= Remaining(SmStep(s, i)) < Remaining(s)
  {
    ConfirmPhase(s, i);
  }

  // ---------- a link lost during the restart ----------

  /** Nothing is under way, and nothing that can happen leads anywhere else. */
  predicate Stuck(s: Sm) {
    (s.state == RestartDevice || s.state == CheckComp) && s.pending == None && s.al_pending == 0
    && s.dl_addr != DUMMY_WURQ
  }

  lemma StuckStep(s: Sm, i: SmInput)
    requires Stuck(s) && CanStep(s, i)
    ensures Stuck(SmStep(s, i))
  {
  }

  lemma {:induction false} StuckForever(s: Sm, inputs: seq<SmInput>)
    requires Stuck(s) && CanRun(s, inputs)
    ensures Stuck(SmRun(s, inputs))
  {
    if inputs != [] {
      StuckForever(s, inputs[..|inputs| - 1]);
      StuckStep(SmRun(s, inputs[..|inputs| - 1]), inputs[|inputs| - 1]);
    }
  }

  /** A failed access during the compatibility checks reports COMLOST and frees the
      port for another configuration if and only if the device was not being
      restarted. From there no input, a configuration included, ever leads out. */
  lemma LinkLostFreesPortUnlessRestarting(s: Sm, i: SmInput)
    requires PhaseInv(s) && Compat(s.state) && CanStep(s, i) && Confirms(i) && !Successful(i)
    requires s.al_pending == 0
    ensures var t := SmStep(s, i);
            && t.h.modes == s.h.modes + [PmComlost]
            && (s.state != RestartDevice <==> t.state == PortInactive)
            && (s.state == RestartDevice <==> Stuck(t))
  {
  }

  // ---------- the gate on COMREADY ----------

  /** What the check demanded of the octets read at addresses 7 to 11, most
      significant first, and of the cycle time. */
  predicate CheckOk(c: Check) {
    && |c.pass| == 7
    && (c.cfg.cycletime == 0 || c.cfg.cycletime >= c.cycletime)
    && (c.cfg.level == NoCheck
        || (c.cfg.vendorid == U16(c.pass[0], c.pass[1])
            && c.cfg.deviceid == U16(U16(c.pass[2], c.pass[3]), c.pass[4])))
  }

  predicate GateOk(m: PortMode)
    requires m.PmComReady?
  {
    && m.check.Some? && CheckOk(m.check.value)
    && (m.cfg.level == Identical ==> m.cfg.serial == m.serial)
  }

  /** The identifiers are assembled from the first n octets of this pass. */
  predicate Assembled(d: Device, pass: seq<byte>, n: nat) {
    && |pass| == n
    && (n >= 1 ==> d.vid == (pass[0], if n >= 2 then pass[1] else 0))
    && (n >= 3 ==> d.did == (pass[2], if n >= 4 then pass[3] else 0, if n >= 5 then pass[4] else 0))
    && (n >= 6 ==> d.fid == (pass[5], if n >= 7 then pass[6] else 0))
  }

  predicate Comparing(state: SmState) {
    state == CheckComp || state == CheckCompV10
  }

  predicate Past(state: SmState) {
    state == WaitonDLPreoperate || state == WaitonDLOperate || state == CheckSerNum
  }

  predicate GateInv(s: Sm) {
    && (Comparing(s.state) && s.pending.Some? && s.pending.value.read && s.dl_addr > VID_1 ==>
          s.dl_addr <= FID_2 && Assembled(s.dev, s.h.pass, s.dl_addr - VID_1))
    && (Past(s.state) ==> s.h.checked.Some? && CheckOk(s.h.checked.value))
    && (s.state == WaitonDLPreoperate || s.state == WaitonDLOperate ==> s.h.checked.value.cfg == s.cfg)
    && (forall k :: 0 <= k < |s.h.modes| && s.h.modes[k].PmComReady? ==> GateOk(s.h.modes[k]))
  }

  lemma StoreAssembles(s: Sm, value: byte)
    requires Comparing(s.state) && VID_1 <= s.dl_addr <= FID_2
    requires s.dl_addr > VID_1 ==> Assembled(s.dev, s.h.pass, s.dl_addr - VID_1)
    ensures var u := Store(s, s.dl_addr, value); Assembled(u.dev, u.h.pass, s.dl_addr - VID_1 + 1)
  {
    OrZero(value);
    var p := s.h.pass;
    if s.dl_addr > VID_1 {
      assert (p + [value])[|p|] == value;
    }
  }

  /** The log grows by reports other than COMREADY only. */
  predicate OtherReports(s: Sm, t: Sm) {
    && |s.h.modes| <= |t.h.modes| && t.h.modes[..|s.h.modes|] == s.h.modes
    && (forall k :: |s.h.modes| <= k < |t.h.modes| ==> !t.h.modes[k].PmComReady?)
  }

  lemma OtherReportsGate(s: Sm, t: Sm)
    requires GateInv(s) && OtherReports(s, t)
    ensures forall k :: 0 <= k < |t.h.modes| && t.h.modes[k].PmComReady? ==> GateOk(t.h.modes[k])
  {
    forall k | 0 <= k < |t.h.modes| && t.h.modes[k].PmComReady? ensures GateOk(t.h.modes[k]) {
      if k < |s.h.modes| { assert t.h.modes[k] == t.h.modes[..|s.h.modes|][k]; }
    }
  }

  lemma PassedOk(s: Sm)
    requires Assembled(s.dev, s.h.pass, 7) && !CycleTimeFails(s)
    requires s.cfg.level == NoCheck || (s.cfg.vendorid == VendorId(s.dev) && s.cfg.deviceid == DeviceId(s.dev))
    ensures CheckOk(Check(s.cfg, s.dev.cycletime, s.h.pass, s.h.seen))
  {
  }

  lemma CheckCompGate(s: Sm)
    requires GateInv(s) && s.state == CheckComp && Assembled(s.dev, s.h.pass, 7)
    ensures GateInv(CheckCompatibility(s))
  {
    var t := CheckCompatibility(s);
    if !CycleTimeFails(s)
       && (s.cfg.level == NoCheck || (s.cfg.vendorid == VendorId(s.dev) && s.cfg.deviceid == DeviceId(s.dev))) {
      PassedOk(s);
      assert t == FireCheckComp(Passed(s), CompOK);
    } else {
      assert !Comparing(t.state) && !Past(t.state) && t.h.modes == s.h.modes;
    }
  }

  lemma CheckCompV10Gate(s: Sm)
    requires GateInv(s) && s.state == CheckCompV10 && Assembled(s.dev, s.h.pass, 7)
    ensures GateInv(CheckCompatibilityV10(s))
  {
    var t := CheckCompatibilityV10(s);
    if !CycleTimeFails(s)
       && (s.cfg.level == NoCheck || (s.cfg.vendorid == VendorId(s.dev) && s.cfg.deviceid == DeviceId(s.dev))) {
      PassedOk(s);
      assert t == FireCheckCompV10(Passed(s), V10CompOK);
    } else {
      assert !Comparing(t.state) && !Past(t.state) && OtherReports(s, t);
      OtherReportsGate(s, t);
    }
  }

  /** Reading goes on in the same state, at the next address. */
  lemma NextReadGate(u: Sm)
    requires Comparing(u.state) && u.dl_addr < FID_2
    requires forall k :: 0 <= k < |u.h.modes| && u.h.modes[k].PmComReady? ==> GateOk(u.h.modes[k])
    requires u.dl_addr >= VID_1 ==> Assembled(u.dev, u.h.pass, u.dl_addr - VID_1 + 1)
    ensures GateInv(DlRead(u, u.dl_addr + 1))
  {
  }

  lemma CompareGate(s: Sm, value: byte)
    requires GateInv(s) && PhaseInv(s) && Comparing(s.state) && CanStep(s, ReadConfirmed(true, value))
    ensures GateInv(ReadCnf(s, true, value))
  {
    var t := s.(pending := None);
    if s.dl_addr >= VID_1 { StoreAssembles(t, value); }
    var u := Store(t, s.dl_addr, value);
    if s.dl_addr != FID_2 {
      NextReadGate(u);
    } else if s.state == CheckComp {
      CheckCompGate(u);
    } else {
      CheckCompV10Gate(u);
    }
  }

  // ---------- steps that do not decide the gate ----------

  predicate GateCalm(s: Sm, t: Sm) {
    && (Comparing(t.state) && t.pending.Some? && t.pending.value.read && t.dl_addr > VID_1 ==>
          && s.state == t.state && s.pending == t.pending && s.dl_addr == t.dl_addr
          && s.dev.vid == t.dev.vid && s.dev.did == t.dev.did && s.dev.fid == t.dev.fid && s.h.pass == t.h.pass)
    && (Past(t.state) ==> Past(s.state) && t.h.checked == s.h.checked)
    && (t.state == WaitonDLPreoperate || t.state == WaitonDLOperate ==> s.state == t.state && t.cfg == s.cfg)
    && OtherReports(s, t)
  }

  lemma GateKept(s: Sm, t: Sm)
    requires GateInv(s) && GateCalm(s, t)
    ensures GateInv(t)
  {
    OtherReportsGate(s, t);
  }

  predicate Deciding(e: SmEvent) {
    e == CompOK || e == V10CompOK || e == SerNumOK
  }

  lemma ReadComGateCalm(s: Sm, e: SmEvent)
    requires PhaseInv(s) && s.state == ReadComParameter && !Deciding(e)
    ensures GateCalm(s, FireReadComParameter(s, e))
  {
  }

  lemma CompV10GateCalm(s: Sm, e: SmEvent)
    requires PhaseInv(s) && s.state == CheckCompV10 && !Deciding(e)
    ensures GateCalm(s, FireCheckCompV10(s, e))
  {
  }

  lemma VxyGateCalm(s: Sm, e: SmEvent)
    requires PhaseInv(s) && s.state == CheckVxy && !Deciding(e)
    ensures GateCalm(s, FireCheckVxy(s, e))
  {
  }

  lemma CompGateCalm(s: Sm, e: SmEvent)
    requires PhaseInv(s) && s.state == CheckComp && !Deciding(e)
    ensures GateCalm(s, FireCheckComp(s, e))
  {
  }

  lemma RestartGateCalm(s: Sm, e: SmEvent)
    requires PhaseInv(s) && s.state == RestartDevice && !Deciding(e)
    ensures GateCalm(s, FireRestartDevice(s, e))
  {
  }

  lemma CompatGateCalm(s: Sm, e: SmEvent)
    requires PhaseInv(s) && Compat(s.state) && !Deciding(e)
    ensures GateCalm(s, Fire(s, e))
  {
    match s.state
    case ReadComParameter => ReadComGateCalm(s, e);
    case CheckCompV10 => CompV10GateCalm(s, e);
    case CheckVxy => VxyGateCalm(s, e);
    case CheckComp => CompGateCalm(s, e);
    case RestartDevice => RestartGateCalm(s, e);
  }

  lemma PastGateCalm(s: Sm, e: SmEvent)
    requires Past(s.state) && !Deciding(e)
    ensures GateCalm(s, Fire(s, e))
  {
    match s.state
    case WaitonDLPreoperate => assert Fire(s, e) == FireWaitonDLPreoperate(s, e);
    case WaitonDLOperate => assert Fire(s, e) == FireWaitonDLOperate(s, e);
    case CheckSerNum => assert Fire(s, e) == FireCheckSerNum(s, e);
  }

  predicate Elsewhere(state: SmState) {
    !Compat(state) && !Past(state)
  }

  lemma RestReports(s: Sm, e: SmEvent)
    requires s.state == PortInactive || s.state == Wait || s.state == SMOperate || s.state == InspectionFault
    ensures OtherReports(s, Fire(s, e))
  {
    match s.state
    case PortInactive => assert Fire(s, e) == FirePortInactive(s, e);
    case Wait => assert Fire(s, e) == FireWait(s, e);
    case SMOperate => assert Fire(s, e) == FireSMOperate(s, e);
    case InspectionFault => assert Fire(s, e) == FireInspectionFault(s, e);
  }

  lemma LeavingReports(s: Sm, e: SmEvent)
    requires s.state == Dido || s.state == WaitForFallback || s.state == WriteMasterCycl || s.state == WaitDevmodeCnf
    ensures OtherReports(s, Fire(s, e))
  {
    match s.state
    case Dido => assert Fire(s, e) == FireDido(s, e);
    case WaitForFallback => assert Fire(s, e) == FireWaitForFallback(s, e);
    case WriteMasterCycl => assert Fire(s, e) == FireWriteMasterCycl(s, e);
    case WaitDevmodeCnf => assert Fire(s, e) == FireWaitDevmodeCnf(s, e);
  }

  lemma ElsewhereStays(s: Sm, e: SmEvent)
    requires Elsewhere(s.state)
    ensures Elsewhere(Fire(s, e).state) || Fire(s, e).state == ReadComParameter
  {
  }

  lemma StayedGateCalm(s: Sm, t: Sm)
    requires Elsewhere(s.state) && (Elsewhere(t.state) || t.state == ReadComParameter) && OtherReports(s, t)
    ensures GateCalm(s, t)
  {
  }

  lemma ElsewhereGateCalm(s: Sm, e: SmEvent)
    requires PhaseInv(s) && !Deciding(e) && !Compat(s.state) && !Past(s.state)
    ensures GateCalm(s, Fire(s, e))
  {
    ElsewhereStays(s, e);
    if s.state == PortInactive || s.state == Wait || s.state == SMOperate || s.state == InspectionFault {
      RestReports(s, e);
    } else {
      LeavingReports(s, e);
    }
    StayedGateCalm(s, Fire(s, e));
  }

  lemma FireGateCalm(s: Sm, e: SmEvent)
    requires PhaseInv(s) && !Deciding(e)
    ensures GateCalm(s, Fire(s, e))
  {
    if Compat(s.state) {
      CompatGateCalm(s, e);
    } else if Past(s.state) {
      PastGateCalm(s, e);
    } else {
      ElsewhereGateCalm(s, e);
    }
  }

  /** Neither invariant looks at these. */
  predicate SameGate(s: Sm, t: Sm) {
    && t.state == s.state && t.cfg == s.cfg && t.comp_retry == s.comp_retry && t.dl_addr == s.dl_addr
    && t.pending == s.pending && t.h == s.h && t.dev.vid == s.dev.vid && t.dev.did == s.dev.did
    && t.dev.fid == s.dev.fid
  }

  lemma SameGateKept(s: Sm, t: Sm)
    requires GateInv(s) && PhaseInv(s) && SameGate(s, t)
    ensures GateInv(t) && PhaseInv(t)
  {
  }

  lemma FireGate(s: Sm, e: SmEvent)
    requires GateInv(s) && PhaseInv(s) && !Deciding(e)
    ensures GateInv(Fire(s, e))
  {
    FireGateCalm(s, e);
    GateKept(s, Fire(s, e));
  }

  lemma SerialGate(s: Sm)
    requires GateInv(s) && PhaseInv(s)
    ensures GateInv(CheckSerial(s))
  {
    if s.cfg.level != Identical || s.cfg.serial == s.dev.serial {
      if s.state == CheckSerNum {
        assert Fire(s, SerNumOK) == Ready(s.(state := Wait));
      } else {
        assert Fire(s, SerNumOK) == s;
      }
    } else {
      SameGateKept(s, s.(error_event := SerNumFault));
      FireGate(s.(error_event := SerNumFault), SerNumFault);
    }
  }

  lemma SerialStoredGate(s: Sm, serial: Serial)
    requires GateInv(s) && PhaseInv(s)
    ensures GateInv(CheckSerial(WithSerial(s, serial)))
  {
    SameGateKept(s, WithSerial(s, serial));
    SerialGate(WithSerial(s, serial));
  }

  lemma SerialResultGate(s: Sm, r: SerialRead)
    requires GateInv(s) && PhaseInv(s)
    ensures GateInv(SerialResult(s, r))
  {
    match r
    case IndexNotAvailable => SerialStoredGate(s, Zeros(SERIAL_LENGTH));
    case SerialError => FireGate(s, if s.dev.revisionid == REV_V11 then CnfComlost else ModeComlost);
    case SerialData(data) =>
      if |data| > SERIAL_LENGTH { FireGate(s, CnfComlost); } else { SerialStoredGate(s, Window(data, 0, SERIAL_LENGTH)); }
  }

  lemma SerialReadGate(s: Sm, r: SerialRead)
    requires GateInv(s) && PhaseInv(s)
    ensures GateInv(AlReadCnf(s, r))
  {
    SameGateKept(s, AlDone(s));
    SerialResultGate(AlDone(s), r);
  }

  lemma ReadGate(s: Sm, ok: bool, value: byte)
    requires GateInv(s) && PhaseInv(s) && CanStep(s, ReadConfirmed(ok, value))
    ensures GateInv(ReadCnf(s, ok, value))
  {
    var t := s.(pending := None);
    if !ok {
      FireGateCalm(t, CnfComlost);
      GateKept(t, Fire(t, CnfComlost));
    } else if Comparing(s.state) {
      CompareGate(s, value);
    } else if s.dl_addr != DUMMY_WURQ {
      var u := Store(t, s.dl_addr, value);
      assert GateCalm(s, ReadNext(u, s.dl_addr));
      GateKept(s, ReadNext(u, s.dl_addr));
    }
  }

  lemma FailureGate(s: Sm)
    requires GateInv(s) && PhaseInv(s)
    ensures GateInv(Fire(s.(pending := None), CnfComlost))
  {
    FireGate(s.(pending := None), CnfComlost);
  }

  lemma WriteGate(s: Sm)
    requires GateInv(s) && PhaseInv(s) && CanStep(s, WriteConfirmed(true))
    ensures GateInv(WriteCnf(s, true))
  {
    var t := s.(pending := None);
    match s.state
    case InspectionFault =>
      RestReports(t, s.error_event);
      ElsewhereStays(t, s.error_event);
      GateKept(t, WriteCnf(s, true));
    case CheckVxy =>
      RevisionGate(t);
      GateKept(t, CheckRevision(t));
    case RestartDevice =>
      assert GateCalm(s, RestartNext(t, s.dl_addr));
      GateKept(s, WriteCnf(s, true));
    case WaitonDLPreoperate =>
    case WaitonDLOperate =>
      assert GateCalm(s, WriteCnf(s, true));
      GateKept(s, WriteCnf(s, true));
  }

  lemma RevisionGate(s: Sm)
    requires PhaseInv(s) && s.state == CheckVxy
    ensures GateCalm(s, CheckRevision(s))
  {
    FireGateCalm(s, RevisionOK);
    FireGateCalm(s, RetryStartup);
    FireGateCalm(s.(error_event := RevisionFault), RevisionFault);
  }

  lemma ModeGate(s: Sm, m: MhMode)
    requires PhaseInv(s)
    ensures GateCalm(s, ModeInd(s, m))
  {
    FireGateCalm(s, ModeComlost);
    FireGateCalm(s, ModeStartup);
    FireGateCalm(s, ModePreoperate);
    FireGateCalm(s, ModeOperate);
  }

  lemma ConfigureEventGate(s: Sm, cfg: Config, e: SmEvent)
    requires Configurable(s.state) && (e == SetCom || e == SetDio || e == SetInactive)
    ensures GateCalm(s, Fire(Configured(s, cfg), e))
  {
    var t := Configured(s, cfg);
    FireGateCalm(t, e);
    assert t.state == s.state && t.h == s.h;
  }

  lemma ConfigureGate(s: Sm, cfg: Config)
    ensures GateCalm(s, SetPortConfig(s, cfg))
  {
    if Configurable(s.state) {
      ConfigureEventGate(s, cfg, SetCom);
      ConfigureEventGate(s, cfg, SetDio);
      ConfigureEventGate(s, cfg, SetInactive);
    }
  }

  lemma OtherGate(s: Sm, i: SmInput)
    requires GateInv(s) && PhaseInv(s) && (i.CycleConfirmed? || i.DevmodeConfirmed? || i.Operate?)
    ensures GateInv(SmStep(s, i))
  {
    match i
    case CycleConfirmed(ok) =>
      SameGateKept(s, AlDone(s));
      FireGate(AlDone(s), if ok then WriteMasterCyclDone else CnfComlost);
    case DevmodeConfirmed(ok) => DevmodeGate(s, ok);
    case Operate =>
      FireGate(s, if s.dev.revisionid != REV_V10 || VendorId(s.dev) != 0x014E then WriteMasterCyclReq else SmOperateV10);
  }

  lemma DevmodeGate(s: Sm, ok: bool)
    requires GateInv(s) && PhaseInv(s)
    ensures GateInv(DevmodeCnf(s, ok))
  {
    if ok && s.state == WaitDevmodeCnf {
      var t := SetMode(s, ReqOperate);
      assert GateInv(t) && PhaseInv(t);
      FireGate(t, if s.dev.revisionid == REV_V10 then SmOperateV10 else SmOperateReq);
    } else {
      FireGate(s, SetInactive);
      FireGate(s, CnfComlost);
      FireGate(s, ModeComlost);
    }
  }

  lemma StepGate(s: Sm, i: SmInput)
    requires GateInv(s) && PhaseInv(s) && CanStep(s, i)
    ensures GateInv(SmStep(s, i))
  {
    match i
    case ReadConfirmed(ok, value) => ReadGate(s, ok, value);
    case WriteConfirmed(ok) => if ok { WriteGate(s); } else { FailureGate(s); }
    case Woken =>
    case Mode(m) =>
      ModeGate(s, m);
      GateKept(s, ModeInd(s, m));
    case SpeedFound(com1) =>
    case SerialConfirmed(r) => SerialReadGate(s, r);
    case Configure(cfg) =>
      ConfigureGate(s, cfg);
      GateKept(s, SetPortConfig(s, cfg));
    case _ => OtherGate(s, i);
  }

  /** Over every run: each COMREADY reported stands for a device that passed the
      compatibility check under the configuration then in force, its identifiers
      being the octets read at addresses 7 to 11 in that pass, and whose serial
      number matched the configuration then in force. */
  lemma {:induction false} ComReadyIsGated(s: Sm, inputs: seq<SmInput>)
    requires Initial(s) && CanRun(s, inputs)
    ensures PhaseInv(SmRun(s, inputs)) && GateInv(SmRun(s, inputs))
    ensures var t := SmRun(s, inputs);
            forall k :: 0 <= k < |t.h.modes| && t.h.modes[k].PmComReady? ==> GateOk(t.h.modes[k])
  {
    if inputs != [] {
      ComReadyIsGated(s, inputs[..|inputs| - 1]);
      StepPhase(SmRun(s, inputs[..|inputs| - 1]), inputs[|inputs| - 1]);
      StepGate(SmRun(s, inputs[..|inputs| - 1]), inputs[|inputs| - 1]);
    }
  }

  /** The machine comes to wait exactly with the report. */
  lemma WaitIsEnteredReady(s: Sm, i: SmInput)
    requires GateInv(s) && PhaseInv(s) && CanStep(s, i) && s.state != Wait && SmStep(s, i).state == Wait
    ensures var t := SmStep(s, i);
            && s.state == CheckSerNum && i.SerialConfirmed?
            && t.h.modes == s.h.modes + [PmComReady(s.h.checked, s.cfg, t.dev.serial)]
            && GateOk(t.h.modes[|s.h.modes|])
  {
    StepGate(s, i);
    if i.SerialConfirmed? { SerialEntersWait(AlDone(s), i.r); } else { NoWait(s, i); }
  }

  lemma SerialEntersWait(s: Sm, r: SerialRead)
    requires s.state != Wait && SerialResult(s, r).state == Wait
    ensures s.state == CheckSerNum
    ensures var t := SerialResult(s, r); t.h.modes == s.h.modes + [PmComReady(s.h.checked, s.cfg, t.dev.serial)]
  {
    FireNoWait(s, CnfComlost);
    FireNoWait(s, ModeComlost);
    match r
    case IndexNotAvailable => CheckedEntersWait(WithSerial(s, Zeros(SERIAL_LENGTH)));
    case SerialError =>
    case SerialData(data) =>
      if |data| <= SERIAL_LENGTH { CheckedEntersWait(WithSerial(s, Window(data, 0, SERIAL_LENGTH))); }
  }

  lemma CheckedEntersWait(s: Sm)
    requires s.state != Wait && CheckSerial(s).state == Wait
    ensures s.state == CheckSerNum
    ensures CheckSerial(s).h.modes == s.h.modes + [PmComReady(s.h.checked, s.cfg, s.dev.serial)]
    ensures CheckSerial(s).dev == s.dev
  {
    FireNoWait(s.(error_event := SerNumFault), SerNumFault);
  }

  lemma NoWait(s: Sm, i: SmInput)
    requires s.state != Wait && !i.SerialConfirmed? && CanStep(s, i)
    ensures SmStep(s, i).state != Wait
  {
    match i
    case ReadConfirmed(ok, value) => ReadNoWait(s, ok, value);
    case WriteConfirmed(ok) => WriteNoWait(s, ok);
    case _ =>
  }

  lemma CheckNoWait(s: Sm)
    requires s.state != Wait
    ensures CheckCompatibility(s).state != Wait
  {
  }

  lemma CheckV10NoWait(s: Sm)
    requires s.state != Wait
    ensures CheckCompatibilityV10(s).state != Wait
  {
  }

  lemma ReadNoWait(s: Sm, ok: bool, value: byte)
    requires s.state != Wait
    ensures ReadCnf(s, ok, value).state != Wait
  {
    var t := s.(pending := None);
    if !ok {
      FireNoWait(t, CnfComlost);
    } else if s.dl_addr != DUMMY_WURQ {
      StoreNoWait(t, s.dl_addr, value);
      NextNoWait(Store(t, s.dl_addr, value), s.dl_addr);
    }
  }

  lemma StoreNoWait(s: Sm, addr: nat, value: byte)
    ensures Store(s, addr, value).state == s.state
  {
  }

  lemma NextNoWait(s: Sm, addr: nat)
    requires s.state != Wait
    ensures ReadNext(s, addr).state != Wait
  {
    CheckNoWait(s);
    CheckV10NoWait(s);
    FireNoWait(s, CnfComlost);
  }

  lemma WriteNoWait(s: Sm, ok: bool)
    requires s.state != Wait && CanStep(s, WriteConfirmed(ok))
    ensures WriteCnf(s, ok).state != Wait
  {
  }

  lemma FireNoWait(s: Sm, e: SmEvent)
    requires s.state != Wait && e != SerNumOK
    ensures Fire(s, e).state != Wait
  {
  }

  /** While the serial number is being read, a configuration is taken over without
      leaving the state exactly if it asks for a digital input or output: then the
      serial number is compared under another configuration than the identity. */
  lemma ConfigurationChangesBetweenChecks(s: Sm, cfg: Config)
    requires s.state == CheckSerNum
    ensures SmStep(s, Configure(cfg)).state == CheckSerNum <==> cfg.mode == TargetDi || cfg.mode == TargetDo
    ensures SmStep(s, Configure(cfg)).cfg == (if s.cfg.serial[0] != 0 then cfg.(serial := s.cfg.serial) else cfg)
  {
  }

  /** When the serial number cannot be read the port is given up, and that is
      reported, if and only if the device is of revision 1.1. A device of another
      revision stays in this state, silently. */
  lemma FailedSerialReadReportedIffV11(s: Sm)
    requires s.state == CheckSerNum
    ensures var t := AlReadCnf(s, SerialError);
            if s.dev.revisionid == REV_V11 then t.state == PortInactive && t.h.modes == s.h.modes + [PmComlost]
            else t.state == CheckSerNum && t.h == s.h
  {
  }
}
