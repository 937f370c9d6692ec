/**
 * What a start-up writes to the device and what it has checked when the device is let
 * through: the whole exchange against the octets read, over all runs.
 */
module SystemManagementScript {
  import opened Bytes
  import opened IsduCodec
  import opened SystemManagement
  import opened SystemManagementRuns

  function W(addr: nat, value: byte): Access {
    Access(false, addr, value)
  }

  /** MASTER_IDENT. */
  const IDENT: seq<Access> := [W(0, 0x95)]

  /** The three octets of a device identifier, most significant first. */
  function IdOctets(id: nat): (r: (byte, byte, byte))
    ensures id < 0x1000000 ==> 65536 * r.0 + 256 * r.1 + r.2 == id
  {
    ((id / 65536) % 256, (id / 256) % 256, id % 256)
  }

  /** A restart tells the device which revision, and if it is configured, which
      identity to take on. */
  function RestartWrites(cfg: Config): (r: seq<Access>)
    ensures |r| == if cfg.mode == CfgCom then 5 else 2
  {
    var id := IdOctets(cfg.deviceid);
    [W(4, cfg.revisionid)]
    + (if cfg.mode == CfgCom then [W(9, id.0), W(10, id.1), W(11, id.2)] else [])
    + [W(0, 0x96)]
  }

  /** What was written before the current reading of the device began. */
  function Before(s: Sm): seq<Access> {
    if s.h.retries == 0 then [] else IDENT + RestartWrites(s.cfg)
  }

  /** How many writes of a restart are out when this address is the last. */
  function RestartStep(cfg: Config, addr: nat): nat {
    match addr
    case 0x04 => 1
    case 0x09 => 2
    case 0x0A => 3
    case 0x0B => 4
    case _ => |RestartWrites(cfg)|
  }

  function Slower(a: byte, b: byte): byte {
    if a < b then b else a
  }

  /** The first n of the octets at addresses 2 to 6 are read and in place. */
  predicate Looks(s: Sm, n: nat) {
    var com := s.h.seen.com;
    && |com| == n
    && (n >= 1 ==> s.dev.cycletime == Slower(s.h.seen.floor, com[0]) && s.dev.mincycle == com[0])
    && (n >= 2 ==> s.dev.mseq_cap == com[1])
    && (n >= 3 ==> s.dev.revisionid == com[2])
    && (n >= 4 ==> s.dev.pdi == com[3])
    && (n >= 5 ==> s.dev.pdo == com[4])
  }

  predicate RevisionFits(cfg: Config, com: seq<byte>)
    requires |com| == 5
  {
    cfg.revisionid == 0 || cfg.revisionid == com[2]
  }

  /** What a passed check says of the octets at addresses 2 to 6: the cycle time is
      the one read, but no shorter than the line can go; and a device that is not of
      revision 1.0 has the revision configured, unless the restart was cut short. */
  predicate SeenOk(c: Check) {
    && |c.seen.com| == 5
    && c.cycletime == Slower(c.seen.floor, c.seen.com[0])
    && (c.seen.com[2] == REV_V10 || c.seen.cut || RevisionFits(c.cfg, c.seen.com))
  }

  predicate Reads(s: Sm) {
    s.pending.Some? && s.pending.value.read
  }

  predicate Writes(s: Sm) {
    s.pending.Some? && !s.pending.value.read
  }

  /** Where a start-up stands, state by state. */
  predicate ScriptAt(s: Sm) {
    var seen := s.h.seen;
    match s.state
    case ReadComParameter =>
      seen.writes == Before(s) && !seen.cut && (Reads(s) && s.dl_addr > MIN_CYCL ==> Looks(s, s.dl_addr - MIN_CYCL))
    case CheckCompV10 => seen.writes == Before(s) && !seen.cut && Looks(s, 5) && seen.com[2] == REV_V10
    case CheckVxy => seen.writes == Before(s) + IDENT && !seen.cut && Looks(s, 5) && seen.com[2] != REV_V10
    case CheckComp =>
      if seen.cut then
        Reads(s) ==>
          seen.writes == Before(s) && s.h.retries == 1
          && (s.dl_addr > MIN_CYCL ==> Looks(s, if s.dl_addr <= PDO then s.dl_addr - MIN_CYCL else 5))
      else
        && seen.writes == Before(s) + IDENT && Looks(s, 5) && seen.com[2] != REV_V10
        && RevisionFits(s.cfg, seen.com) && (Reads(s) ==> s.dl_addr >= VID_1)
    case RestartDevice =>
      && !seen.cut
      && (Reads(s) ==> seen.writes == Before(s))
      && (Writes(s) ==>
            && (VID_2 < s.dl_addr <= DID_3 ==> s.cfg.mode == CfgCom)
            && seen.writes == IDENT + RestartWrites(s.cfg)[..RestartStep(s.cfg, s.dl_addr)])
    case WaitonDLPreoperate =>
      && s.h.checked.Some? && SeenOk(s.h.checked.value)
      && (Writes(s) ==> seen.writes == Before(s) + (if seen.cut then [] else IDENT) + [W(0, 0x9A)])
    case WaitonDLOperate =>
      && s.h.checked.Some? && SeenOk(s.h.checked.value) && !seen.cut
      && (Writes(s) ==>
            seen.writes == Before(s) + [W(1, s.dev.cycletime)] + (if s.dl_addr == MASTER_CMD then [W(0, 0x99)] else []))
    case CheckSerNum => s.h.checked.Some? && SeenOk(s.h.checked.value)
    case _ => true
  }

  predicate ReadySeen(modes: seq<PortMode>) {
    forall k :: 0 <= k < |modes| && modes[k].PmComReady? ==> modes[k].check.Some? && SeenOk(modes[k].check.value)
  }

  predicate ScriptInv(s: Sm) {
    ScriptAt(s) && ReadySeen(s.h.modes)
  }

  // ---------- signals and failures ----------

  /** No new access; the same state, or one without a script. */
  predicate Quiet(s: Sm, t: Sm) {
    && (t.state == s.state || !Scripted(t.state) || (s.state == RestartDevice && t.state == CheckComp && t.h.seen.cut)
        || (Past(s.state) && t.state == CheckSerNum))
    && (Scripted(t.state) ==>
          && (t.pending == s.pending || t.pending == None) && t.dl_addr == s.dl_addr
          && t.dev.(serial := s.dev.serial) == s.dev
          && t.h.retries == s.h.retries && t.h.checked == s.h.checked
          && (t.cfg == s.cfg || t.state == CheckSerNum)
          && t.h.seen.(cut := s.h.seen.cut) == s.h.seen
          && (t.h.seen.cut == s.h.seen.cut || (s.state == RestartDevice && t.state == CheckComp)))
    && OtherReports(s, t)
  }

  predicate Scripted(state: SmState) {
    Compat(state) || Past(state)
  }

  lemma OtherReportsSeen(s: Sm, t: Sm)
    requires ReadySeen(s.h.modes) && OtherReports(s, t)
    ensures ReadySeen(t.h.modes)
  {
    forall k | 0 <= k < |t.h.modes| && t.h.modes[k].PmComReady?
      ensures t.h.modes[k].check.Some? && SeenOk(t.h.modes[k].check.value)
    {
      if k < |s.h.modes| { assert t.h.modes[k] == t.h.modes[..|s.h.modes|][k]; }
    }
  }

  lemma QuietKeeps(s: Sm, t: Sm)
    requires ScriptInv(s) && PhaseInv(s) && Quiet(s, t)
    ensures ScriptInv(t)
  {
    OtherReportsSeen(s, t);
    if !Scripted(t.state) {
    } else if t.state == CheckSerNum {
    } else if t.state != s.state {
      CutShort(s, t);
    } else {
      SameScript(s, t);
    }
  }

  lemma CutShort(s: Sm, t: Sm)
    requires ScriptAt(s) && PhaseInv(s) && Quiet(s, t) && s.state == RestartDevice && t.state == CheckComp
    ensures ScriptAt(t)
  {
    assert Reads(t) ==> s.pending == t.pending && Expected(s, s.pending.value) && t.dl_addr == MIN_CYCL;
  }

  /** The script looks only at these. */
  lemma SameScript(s: Sm, t: Sm)
    requires ScriptAt(s) && t.state == s.state && (t.pending == s.pending || t.pending == None)
    requires t.dl_addr == s.dl_addr && t.cfg == s.cfg && t.h.retries == s.h.retries && t.h.checked == s.h.checked
    requires t.h.seen == s.h.seen && t.dev.(serial := s.dev.serial) == s.dev
    ensures ScriptAt(t)
  {
    assert forall n: nat :: Looks(t, n) <==> Looks(s, n);
    match s.state
    case ReadComParameter =>
    case CheckComp =>
    case RestartDevice =>
    case WaitonDLPreoperate =>
    case WaitonDLOperate =>
    case _ =>
  }

  lemma ReadComQuiet(s: Sm, e: SmEvent)
    requires s.state == ReadComParameter && FailureOrSignal(e)
    ensures Quiet(s, FireReadComParameter(s, e))
  {
  }

  lemma CompV10Quiet(s: Sm, e: SmEvent)
    requires s.state == CheckCompV10 && FailureOrSignal(e)
    ensures Quiet(s, FireCheckCompV10(s, e))
  {
  }

  lemma VxyQuiet(s: Sm, e: SmEvent)
    requires s.state == CheckVxy && FailureOrSignal(e)
    ensures Quiet(s, FireCheckVxy(s, e))
  {
  }

  lemma CompQuiet(s: Sm, e: SmEvent)
    requires s.state == CheckComp && FailureOrSignal(e)
    ensures Quiet(s, FireCheckComp(s, e))
  {
  }

  lemma RestartQuiet(s: Sm, e: SmEvent)
    requires s.state == RestartDevice && FailureOrSignal(e)
    ensures Quiet(s, FireRestartDevice(s, e))
  {
  }

  lemma CompatQuiet(s: Sm, e: SmEvent)
    requires Compat(s.state) && FailureOrSignal(e)
    ensures Quiet(s, Fire(s, e))
  {
    match s.state
    case ReadComParameter => ReadComQuiet(s, e);
    case CheckCompV10 => CompV10Quiet(s, e);
    case CheckVxy => VxyQuiet(s, e);
    case CheckComp => CompQuiet(s, e);
    case RestartDevice => RestartQuiet(s, e);
  }

  lemma PastQuiet(s: Sm, e: SmEvent)
    requires Past(s.state) && e != SerNumOK
    ensures Quiet(s, Fire(s, e))
  {
    match s.state
    case WaitonDLPreoperate => assert Fire(s, e) == FireWaitonDLPreoperate(s, e);
    case WaitonDLOperate => assert Fire(s, e) == FireWaitonDLOperate(s, e);
    case CheckSerNum => assert Fire(s, e) == FireCheckSerNum(s, e);
  }

  lemma RestQuiet(s: Sm, e: SmEvent)
    requires !Scripted(s.state) && e != ModeStartup
    ensures Quiet(s, Fire(s, e))
  {
    ElsewhereStays(s, e);
    if s.state == PortInactive || s.state == Wait || s.state == SMOperate || s.state == InspectionFault {
      RestReports(s, e);
    } else {
      LeavingReports(s, e);
    }
    NoStartUp(s, e);
  }

  lemma NoStartUp(s: Sm, e: SmEvent)
    requires !Scripted(s.state) && e != ModeStartup
    ensures Fire(s, e).state != ReadComParameter
  {
  }

  lemma SignalQuiet(s: Sm, e: SmEvent)
    requires FailureOrSignal(e) && e != SerNumOK
    ensures Quiet(s, Fire(s, e))
  {
    if Compat(s.state) {
      CompatQuiet(s, e);
    } else if Past(s.state) {
      PastQuiet(s, e);
    } else {
      RestQuiet(s, e);
    }
  }

  lemma StartsScript(s: Sm)
    requires s.state == PortInactive && ReadySeen(s.h.modes)
    ensures ScriptInv(Fire(s, ModeStartup))
  {
    assert Fire(s, ModeStartup) == ReadComParameters(s.(state := ReadComParameter), ModeStartup);
  }

  // ---------- the device is read ----------

  /** An octet at addresses 2 to 6 goes to its place. */
  lemma LooksOn(s: Sm, value: byte)
    requires MIN_CYCL <= s.dl_addr <= PDO && (s.dl_addr > MIN_CYCL ==> Looks(s, s.dl_addr - MIN_CYCL))
    ensures Looks(Store(s, s.dl_addr, value), s.dl_addr - MIN_CYCL + 1)
  {
    var com := s.h.seen.com;
    if s.dl_addr > MIN_CYCL { assert (com + [value])[..|com|] == com; }
  }

  /** Behind them nothing of it changes. */
  lemma LooksStays(s: Sm, value: byte)
    requires s.dl_addr > PDO && Looks(s, 5)
    ensures Looks(Store(s, s.dl_addr, value), 5) && Store(s, s.dl_addr, value).h.seen == s.h.seen
  {
  }

  lemma ReadComScript(s: Sm, value: byte)
    requires ScriptInv(s) && PhaseInv(s) && CanStep(s, ReadConfirmed(true, value)) && s.state == ReadComParameter
    ensures ScriptInv(ReadCnf(s, true, value))
  {
    var t := s.(pending := None);
    var u := Store(t, s.dl_addr, value);
    LooksOn(t, value);
    if s.dl_addr == PDO {
      if u.dev.revisionid == REV_V10 {
        assert ReadNext(u, PDO) == FireReadComParameter(u, V10);
      } else {
        assert ReadNext(u, PDO) == FireReadComParameter(u, NotV10);
      }
    }
  }

  /** The last octet is in: the check is passed, or left. */
  lemma ComparedScript(u: Sm)
    requires u.state == CheckComp && Looks(u, 5) && ReadySeen(u.h.modes) && u.h.retries == u.comp_retry <= 1
    requires u.h.seen.cut || RevisionFits(u.cfg, u.h.seen.com)
    requires u.h.seen.writes == Before(u) + if u.h.seen.cut then [] else IDENT
    requires u.h.seen.cut ==> u.h.retries == 1
    ensures ScriptInv(CheckCompatibility(u))
  {
    var t := CheckCompatibility(u);
    if t == Fire(Passed(u), CompOK) {
      PassedScript(u);
    } else if t == Fire(u, RetryStartup) && u.comp_retry == 0 {
      RestartBegins(u);
    } else {
      RefusedScript(u);
    }
  }

  lemma PassedScript(u: Sm)
    requires u.state == CheckComp && Looks(u, 5) && ReadySeen(u.h.modes)
    requires u.h.seen.cut || RevisionFits(u.cfg, u.h.seen.com)
    requires u.h.seen.writes == Before(u) + if u.h.seen.cut then [] else IDENT
    ensures ScriptInv(Fire(Passed(u), CompOK))
  {
    assert Fire(Passed(u), CompOK) == DlWrite(Passed(u).(state := WaitonDLPreoperate), MASTER_CMD, DEVICE_PREOP);
  }

  lemma RefusedScript(u: Sm)
    requires u.state == CheckComp && ReadySeen(u.h.modes)
    requires CheckCompatibility(u) != Fire(Passed(u), CompOK)
    requires u.comp_retry == 0 ==> CheckCompatibility(u) != Fire(u, RetryStartup)
    ensures ScriptInv(CheckCompatibility(u))
  {
    var t := CheckCompatibility(u);
    assert t.h.modes == u.h.modes && !Scripted(t.state);
  }

  lemma RestartBegins(u: Sm)
    requires (u.state == CheckComp || u.state == CheckVxy) && u.h.retries == u.comp_retry == 0 && ReadySeen(u.h.modes)
    requires u.h.seen.writes == IDENT && !u.h.seen.cut
    ensures ScriptInv(Fire(u, RetryStartup))
  {
    assert Fire(u, RetryStartup) == Restart(u.(state := RestartDevice));
    assert RestartWrites(u.cfg)[..1] == [W(4, u.cfg.revisionid)];
  }

  lemma CompareScript(s: Sm, value: byte)
    requires ScriptInv(s) && PhaseInv(s) && CanStep(s, ReadConfirmed(true, value)) && s.state == CheckComp
    ensures ScriptInv(ReadCnf(s, true, value))
  {
    var t := s.(pending := None);
    var u := Store(t, s.dl_addr, value);
    if s.dl_addr <= PDO { LooksOn(t, value); } else { LooksStays(t, value); }
    if s.dl_addr == FID_2 {
      ComparedScript(u);
      assert ReadNext(u, FID_2) == CheckCompatibility(u);
    }
  }

  lemma ComparedV10Script(u: Sm)
    requires u.state == CheckCompV10 && Looks(u, 5) && u.h.seen.com[2] == REV_V10 && ReadySeen(u.h.modes)
    requires u.h.seen.writes == Before(u) && !u.h.seen.cut
    ensures ScriptInv(CheckCompatibilityV10(u))
  {
    var t := CheckCompatibilityV10(u);
    if t == Fire(Passed(u), V10CompOK) {
      assert t == DlWrite(Passed(u).(state := WaitonDLOperate), MASTER_CYCL, u.dev.cycletime);
    } else {
      assert OtherReports(u, t) && !Scripted(t.state);
      OtherReportsSeen(u, t);
    }
  }

  lemma CompareV10Script(s: Sm, value: byte)
    requires ScriptInv(s) && PhaseInv(s) && CanStep(s, ReadConfirmed(true, value)) && s.state == CheckCompV10
    ensures ScriptInv(ReadCnf(s, true, value))
  {
    var t := s.(pending := None);
    var u := Store(t, s.dl_addr, value);
    LooksStays(t, value);
    if s.dl_addr == FID_2 {
      ComparedV10Script(u);
      assert ReadNext(u, FID_2) == CheckCompatibilityV10(u);
    }
  }

  lemma RestartReadScript(s: Sm, value: byte)
    requires ScriptInv(s) && PhaseInv(s) && CanStep(s, ReadConfirmed(true, value)) && s.state == RestartDevice
    ensures ScriptInv(ReadCnf(s, true, value))
  {
    var u := Store(s.(pending := None), s.dl_addr, value);
    assert ReadNext(u, s.dl_addr) == ReadComParameters(u.(state := ReadComParameter), WriteDone);
  }

  lemma ReadScript(s: Sm, ok: bool, value: byte)
    requires ScriptInv(s) && PhaseInv(s) && CanStep(s, ReadConfirmed(ok, value))
    ensures ScriptInv(ReadCnf(s, ok, value))
  {
    if !ok {
      SignalQuiet(s.(pending := None), CnfComlost);
      QuietKeeps(s, Fire(s.(pending := None), CnfComlost));
    } else if s.dl_addr == DUMMY_WURQ {
      QuietKeeps(s, s.(pending := None));
    } else {
      match s.state
      case ReadComParameter => ReadComScript(s, value);
      case CheckComp => CompareScript(s, value);
      case CheckCompV10 => CompareV10Script(s, value);
      case RestartDevice => RestartReadScript(s, value);
    }
  }

  // ---------- the device is written ----------

  lemma RevisionScript(s: Sm)
    requires ScriptInv(s) && PhaseInv(s) && s.state == CheckVxy && s.pending == None
    ensures ScriptInv(CheckRevision(s))
  {
    var t := CheckRevision(s);
    if s.cfg.revisionid == 0 || s.cfg.revisionid == s.dev.revisionid {
      assert t == DlRead(s.(state := CheckComp), VID_1);
    } else if s.comp_retry == 0 {
      RestartBegins(s);
    } else {
      assert t.h.modes == s.h.modes && !Scripted(t.state);
    }
  }

  lemma NextRestartWrite(cfg: Config, n: nat)
    requires n < |RestartWrites(cfg)|
    ensures RestartWrites(cfg)[..n + 1] == RestartWrites(cfg)[..n] + [RestartWrites(cfg)[n]]
    ensures RestartWrites(cfg)[..|RestartWrites(cfg)|] == RestartWrites(cfg)
  {
  }

  lemma RestartGoesOn(t: Sm)
    requires t.state == RestartDevice && !t.h.seen.cut && t.h.retries == 1 && t.pending == None && ReadySeen(t.h.modes)
    requires t.dl_addr == REV_ID || t.dl_addr == DID_1 || t.dl_addr == DID_2 || t.dl_addr == DID_3 || t.dl_addr == MASTER_CMD
    requires VID_2 < t.dl_addr <= DID_3 ==> t.cfg.mode == CfgCom
    requires t.h.seen.writes == IDENT + RestartWrites(t.cfg)[..RestartStep(t.cfg, t.dl_addr)]
    ensures ScriptInv(RestartNext(t, t.dl_addr))
  {
    var n, u := RestartStep(t.cfg, t.dl_addr), RestartNext(t, t.dl_addr);
    if n < |RestartWrites(t.cfg)| {
      NextRestartWrite(t.cfg, n);
      assert u.h.seen.writes == IDENT + (RestartWrites(t.cfg)[..n] + [RestartWrites(t.cfg)[n]]);
    }
  }

  lemma WriteScript(s: Sm, ok: bool)
    requires ScriptInv(s) && PhaseInv(s) && CanStep(s, WriteConfirmed(ok))
    ensures ScriptInv(WriteCnf(s, ok))
  {
    var t := s.(pending := None);
    if !ok {
      SignalQuiet(t, CnfComlost);
      QuietKeeps(s, Fire(t, CnfComlost));
    } else {
      match s.state
      case CheckVxy =>
        SameScript(s, t);
        RevisionScript(t);
      case RestartDevice => RestartGoesOn(t);
      case InspectionFault => FaultScript(t);
      case _ => OperateWriteScript(s);
    }
  }

  lemma OperateWriteScript(s: Sm)
    requires ScriptInv(s) && PhaseInv(s) && CanStep(s, WriteConfirmed(true))
    requires s.state == WaitonDLPreoperate || s.state == WaitonDLOperate
    ensures ScriptInv(WriteCnf(s, true))
  {
  }

  lemma FaultScript(t: Sm)
    requires t.state == InspectionFault && ReadySeen(t.h.modes)
    ensures ScriptInv(Fire(t, t.error_event))
  {
    RestQuietAtFault(t);
    OtherReportsSeen(t, Fire(t, t.error_event));
  }

  lemma RestQuietAtFault(t: Sm)
    requires t.state == InspectionFault
    ensures OtherReports(t, Fire(t, t.error_event)) && !Scripted(Fire(t, t.error_event).state)
  {
    RestReports(t, t.error_event);
  }

  // ---------- everything else ----------

  lemma ModeScript(s: Sm, m: MhMode)
    requires ScriptInv(s) && PhaseInv(s)
    ensures ScriptInv(ModeInd(s, m))
  {
    if s.state == PortInactive && m == MhStartup {
      StartsScript(s);
    } else {
      OtherModeScript(s, m);
    }
  }

  lemma OtherModeScript(s: Sm, m: MhMode)
    requires ScriptInv(s) && PhaseInv(s) && !(s.state == PortInactive && m == MhStartup)
    ensures ScriptInv(ModeInd(s, m))
  {
    var t := ModeInd(s, m);
    if t == Fire(s, ModeComlost) {
      EventScript(s, s, ModeComlost);
    } else if t == Fire(s, ModePreoperate) {
      EventScript(s, s, ModePreoperate);
    } else if t == Fire(s, ModeOperate) {
      EventScript(s, s, ModeOperate);
    } else {
      QuietKeeps(s, t);
    }
  }

  lemma SerialScript(s: Sm)
    requires ScriptInv(s) && PhaseInv(s)
    ensures ScriptInv(CheckSerial(s))
  {
    if s.cfg.level != Identical || s.cfg.serial == s.dev.serial {
      if s.state == CheckSerNum {
        assert Fire(s, SerNumOK) == Ready(s.(state := Wait));
      } else {
        assert Fire(s, SerNumOK) == s;
      }
    } else {
      var f := s.(error_event := SerNumFault);
      SignalQuiet(f, SerNumFault);
      QuietKeeps(s, Fire(f, SerNumFault));
    }
  }

  lemma SerialStoredScript(s: Sm, serial: Serial)
    requires ScriptInv(s) && PhaseInv(s)
    ensures ScriptInv(CheckSerial(WithSerial(s, serial)))
  {
    QuietKeeps(s, WithSerial(s, serial));
    SerialScript(WithSerial(s, serial));
  }

  lemma SerialReadScript(s: Sm, r: SerialRead)
    requires ScriptInv(s) && PhaseInv(s)
    ensures ScriptInv(AlReadCnf(s, r))
  {
    QuietKeeps(s, AlDone(s));
    SerialResultScript(AlDone(s), r);
  }

  lemma SerialResultScript(t: Sm, r: SerialRead)
    requires ScriptInv(t) && PhaseInv(t)
    ensures ScriptInv(SerialResult(t, r))
  {
    match r
    case IndexNotAvailable => SerialStoredScript(t, Zeros(SERIAL_LENGTH));
    case SerialError => EventScript(t, t, if t.dev.revisionid == REV_V11 then CnfComlost else ModeComlost);
    case SerialData(data) =>
      if |data| > SERIAL_LENGTH {
        EventScript(t, t, CnfComlost);
      } else {
        SerialStoredScript(t, Window(data, 0, SERIAL_LENGTH));
      }
  }

  lemma ConfiguredQuiet(s: Sm, cfg: Config, e: SmEvent)
    requires Configurable(s.state) && (e == SetCom || e == SetDio || e == SetInactive)
    ensures Quiet(s, Fire(Configured(s, cfg), e))
  {
    var t := Configured(s, cfg);
    if s.state == CheckSerNum { PastQuiet(t, e); } else { RestQuiet(t, e); }
  }

  lemma ConfigureScript(s: Sm, cfg: Config)
    requires ScriptInv(s) && PhaseInv(s)
    ensures ScriptInv(SetPortConfig(s, cfg))
  {
    if Configurable(s.state) {
      ConfiguredQuiet(s, cfg, SetCom);
      ConfiguredQuiet(s, cfg, SetDio);
      ConfiguredQuiet(s, cfg, SetInactive);
      QuietKeeps(s, SetPortConfig(s, cfg));
    }
  }

  lemma EventScript(s: Sm, t: Sm, e: SmEvent)
    requires ScriptInv(s) && PhaseInv(s) && Quiet(s, t) && PhaseInv(t)
    requires FailureOrSignal(e) && e != SerNumOK
    ensures ScriptInv(Fire(t, e))
  {
    QuietKeeps(s, t);
    SignalQuiet(t, e);
    QuietKeeps(t, Fire(t, e));
  }

  lemma DevmodeScript(s: Sm, ok: bool)
    requires ScriptInv(s) && PhaseInv(s)
    ensures ScriptInv(DevmodeCnf(s, ok))
  {
    if ok && s.state == WaitDevmodeCnf {
      EventScript(s, SetMode(s, ReqOperate), if s.dev.revisionid == REV_V10 then SmOperateV10 else SmOperateReq);
    } else if ok && s.state == WaitForFallback {
      RestQuiet(s, SetInactive);
      QuietKeeps(s, Fire(s, SetInactive));
    } else {
      EventScript(s, s, if s.state == WaitDevmodeCnf then CnfComlost else ModeComlost);
    }
  }

  lemma StepScript(s: Sm, i: SmInput)
    requires ScriptInv(s) && PhaseInv(s) && CanStep(s, i)
    ensures ScriptInv(SmStep(s, i))
  {
    match i
    case ReadConfirmed(ok, value) => ReadScript(s, ok, value);
    case WriteConfirmed(ok) => WriteScript(s, ok);
    case Woken =>
    case Mode(m) => ModeScript(s, m);
    case SpeedFound(com1) => QuietKeeps(s, s.(com1 := com1));
    case SerialConfirmed(r) => SerialReadScript(s, r);
    case Configure(cfg) => ConfigureScript(s, cfg);
    case _ => OtherScript(s, i);
  }

  lemma OtherScript(s: Sm, i: SmInput)
    requires ScriptInv(s) && PhaseInv(s) && (i.CycleConfirmed? || i.DevmodeConfirmed? || i.Operate?)
    ensures ScriptInv(SmStep(s, i))
  {
    match i
    case CycleConfirmed(ok) => EventScript(s, AlDone(s), if ok then WriteMasterCyclDone else CnfComlost);
    case DevmodeConfirmed(ok) => DevmodeScript(s, ok);
    case Operate =>
      EventScript(s, s, if s.dev.revisionid != REV_V10 || VendorId(s.dev) != 0x014E then WriteMasterCyclReq else SmOperateV10);
  }

  /** Over every run: what a start-up has written is the script for the octets it has
      read, and each COMREADY reported stands for a device whose cycle time is the one
      read and whose revision is the one configured, unless it is of revision 1.0 or the
      restart was cut short. */
  lemma {:induction false} ComReadyIsOfRevision(s: Sm, inputs: seq<SmInput>)
    requires Initial(s) && CanRun(s, inputs)
    ensures PhaseInv(SmRun(s, inputs)) && ScriptInv(SmRun(s, inputs))
    ensures var t := SmRun(s, inputs);
            forall k :: 0 <= k < |t.h.modes| && t.h.modes[k].PmComReady? ==>
              t.h.modes[k].check.Some? && SeenOk(t.h.modes[k].check.value)
  {
    if inputs != [] {
      ComReadyIsOfRevision(s, inputs[..|inputs| - 1]);
      StepPhase(SmRun(s, inputs[..|inputs| - 1]), inputs[|inputs| - 1]);
      StepScript(SmRun(s, inputs[..|inputs| - 1]), inputs[|inputs| - 1]);
    }
  }

  // ---------- a restart that is cut short ----------

  /** What takes the restart for a lost link, and goes on to the comparison. */
  predicate CutsShort(s: Sm, i: SmInput) {
    || i.Mode? || i.DevmodeConfirmed?
    || (i == SerialConfirmed(SerialError) && s.dev.revisionid != REV_V11)
  }

  lemma RestartCutIff(s: Sm, i: SmInput)
    requires s.state == RestartDevice && !s.h.seen.cut && CanStep(s, i)
    ensures SmStep(s, i).h.seen.cut <==> CutsShort(s, i)
    ensures CutsShort(s, i) ==> SmStep(s, i).state == CheckComp && SmStep(s, i).pending == s.pending
  {
  }

  function ReadInputs(v: seq<byte>): (r: seq<SmInput>)
    ensures |r| == |v|
  {
    seq(|v|, k requires 0 <= k < |v| => ReadConfirmed(true, v[k]))
  }

  /** Read on to address n in this state, with the link up. */
  predicate ReadUpTo(s: Sm, state: SmState, n: nat) {
    s.state == state && s.dl_addr == n && s.pending == Some(Access(true, n, 0))
  }

  lemma {:induction false} CutReadsOn(s: Sm, v: seq<byte>)
    requires ReadUpTo(s, CheckComp, MIN_CYCL) && |v| <= 11
    ensures ReadUpTo(SmRun(s, ReadInputs(v)), CheckComp, MIN_CYCL + |v|)
    ensures var t := SmRun(s, ReadInputs(v)); t.cfg == s.cfg && t.h.modes == s.h.modes && t.h.seen.cut == s.h.seen.cut
  {
    if v != [] {
      var n := |v| - 1;
      CutReadsOn(s, v[..n]);
      assert ReadInputs(v)[..n] == ReadInputs(v[..n]);
      assert ReadInputs(v)[n] == ReadConfirmed(true, v[n]);
      CutReadsOne(SmRun(s, ReadInputs(v[..n])), v[n]);
    }
  }

  lemma CutReadsOne(t: Sm, value: byte)
    requires t.dl_addr < FID_2 && ReadUpTo(t, CheckComp, t.dl_addr) && t.dl_addr >= MIN_CYCL
    ensures var u := SmStep(t, ReadConfirmed(true, value));
            && ReadUpTo(u, CheckComp, t.dl_addr + 1)
            && u.cfg == t.cfg && u.h.modes == t.h.modes && u.h.seen.cut == t.h.seen.cut
  {
  }

  /** Then a device of any revision is let through: the comparison starts at address 2
      and does not look at the revision. */
  lemma CutRestartSkipsRevision(s: Sm, m: MhMode, v: seq<byte>)
    requires ReadUpTo(s, RestartDevice, MIN_CYCL) && |v| == 12
    requires s.cfg.cycletime == 0 && s.cfg.level == NoCheck
    ensures var t := SmRun(SmStep(s, Mode(m)), ReadInputs(v));
            && t.state == WaitonDLPreoperate && t.pending == Some(W(0, 0x9A))
            && t.h.checked.Some? && t.h.checked.value.cfg == s.cfg && t.h.modes == s.h.modes
  {
    var u := SmStep(s, Mode(m));
    assert u == Fire(s, ModeComlost);
    CutReadsOn(u, v[..11]);
    assert ReadInputs(v)[..11] == ReadInputs(v[..11]);
    LastReadLetsThrough(SmRun(u, ReadInputs(v[..11])), v[11]);
    assert ReadInputs(v)[11] == ReadConfirmed(true, v[11]);
  }

  lemma LastReadLetsThrough(s: Sm, value: byte)
    requires ReadUpTo(s, CheckComp, FID_2) && s.cfg.cycletime == 0 && s.cfg.level == NoCheck
    ensures var t := SmStep(s, ReadConfirmed(true, value));
            && t.state == WaitonDLPreoperate && t.pending == Some(W(0, 0x9A))
            && t.h.checked.Some? && t.h.checked.value.cfg == s.cfg && t.h.modes == s.h.modes
  {
    var u := Store(s.(pending := None), FID_2, value);
    assert ReadNext(u, FID_2) == CheckCompatibility(u) == Fire(Passed(u), CompOK);
  }
}
