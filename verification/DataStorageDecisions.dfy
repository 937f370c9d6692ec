/**
 * What data storage decides: whether an activation is refused, uploads, downloads or
 * has nothing to do, what each failure is reported as, and how long an upload vouches
 * for the store.
 */
module DataStorageDecisions {
  import opened Bytes
  import opened IsduCodec
  import opened DataStorage
  import opened DataStorageStore

  /** What a step has read, written and reported. */
  predicate Did(s: Ds, t: Ds, asked: seq<Entry>, written: seq<Record>, notes: seq<Note>) {
    && t.up.asked == s.up.asked + asked
    && t.h.writes == s.h.writes + written
    && t.h.log == s.h.log + notes
  }

  /** A command as the device gets it: index 3, subindex 1, one octet. */
  function Told(cmd: byte): Record {
    Record(Entry(3, 1), [cmd])
  }

  /** Four octets, most significant first. */
  function Number(a: byte, b: byte, c: byte, d: byte): nat {
    16777216 * a + 65536 * b + 256 * c + d
  }

  lemma NumberRead(a: byte, b: byte, c: byte, d: byte, rest: seq<byte>)
    ensures U32([a, b, c, d] + rest) == Number(a, b, c, d)
  {
    var buf := [a, b, c, d] + rest;
    assert Octet(buf, 0) == a && Octet(buf, 1) == b && Octet(buf, 2) == c && Octet(buf, 3) == d;
  }

  predicate Same(s: Ds, t: Ds) {
    t.m == s.m && t.il == s.il && t.conf == s.conf
  }

  // ---------- one answer after the other ----------

  /** The store must be empty or speak for the device at the port. */
  lemma IdentityDecides(s: Ds, port: Id)
    requires s.state == WaitingOnDSActivity
    ensures var t, known := Step(s, Startup(port)), s.m.id.vendor == 0 || s.m.id == port;
            && Same(WithPort(s, port), t) && t.dev == s.dev
            && (if known then t.state == CheckIdentity && Did(s, t, [Entry(3, 3)], [], [Activated])
                else t.state == WaitingOnDSActivity && Did(s, t, [], [], [Activated, Faulted(FaultId)]))
  {
    var p := WithPort(s, port);
    if s.m.id.vendor != 0 && s.m.id != port {
      var u := Noted(p.(state := CheckIdentity), Activated);
      assert Fire(p, EvStartup) == Outcome(u, EvFaultId);
      FaultReported(u, EvFaultId, FaultId);
      HandledNext(p, EvStartup, u, EvFaultId);
    } else {
      HandledAtOnce(p, EvStartup, AlRead(Noted(p.(state := CheckIdentity), Activated), SIZE));
    }
  }

  /** An upload asked for by the device starts the same activation. */
  lemma UploadRequestActivates(s: Ds, port: Id)
    requires s.state == WaitingOnDSActivity
    ensures Step(s, UploadRequest(port)) == Step(s, Startup(port))
  {
    var p, u := WithPort(s, port), CheckId(WithPort(s, port).(state := CheckIdentity));
    assert Fire(p, EvStartup) == u && Fire(p, EvUpload) == u;
    if u.next == EvNone {
      HandledAtOnce(p, EvStartup, u.s);
      HandledAtOnce(p, EvUpload, u.s);
    } else {
      HandledNext(p, EvStartup, u.s, u.next);
      HandledNext(p, EvUpload, u.s, u.next);
    }
  }

  /** A device that refuses the question, or answers it at another length, is reported
      as a stranger or as too large. */
  lemma MisansweredIsRefused(s: Ds, error: AlError, len: byte, buf: seq<byte>)
    requires s.state == CheckIdentity || s.state == CheckMemSize
    requires error == ErrDevice || (error == ErrNone && if s.state == CheckIdentity then len < 4 else len != 1)
    ensures var t := Step(s, ReadConfirmed(error, len, buf));
            && t.state == WaitingOnDSActivity && Same(s, t)
            && Did(s, t, [], [], [Faulted(if s.state == CheckIdentity then FaultId else FaultSize)])
  {
    if s.state == CheckIdentity { FaultReported(s, EvFaultId, FaultId); } else { FaultReported(s, EvFaultSize, FaultSize); }
  }

  /** A refusal is reported at once and data storage waits again. */
  lemma FaultReported(u: Ds, e: DsEvent, f: Fault)
    requires (e == EvFaultId && f == FaultId && u.state == CheckIdentity)
          || (e == EvFaultSize && f == FaultSize && u.state == CheckMemSize)
    ensures Handle(u, e) == Noted(u.(state := WaitingOnDSActivity), Faulted(f))
  {
    var v := Noted(u.(state := DsFault), Faulted(f));
    assert Fire(u, e) == Outcome(v, EvFaultDone);
    HandledAtOnce(v, EvFaultDone, v.(state := WaitingOnDSActivity));
  }

  /** The device's storage must fit into the store. */
  lemma SizeDecides(s: Ds, len: byte, a: byte, b: byte, c: byte, d: byte, rest: seq<byte>)
    requires s.state == CheckIdentity && len >= 4
    ensures var t := Step(s, ReadConfirmed(ErrNone, len, [a, b, c, d] + rest));
            && Same(s, t)
            && (if Number(a, b, c, d) <= 2048 then t.state == CheckMemSize && Did(s, t, [Entry(3, 2)], [], [])
                else t.state == WaitingOnDSActivity && Did(s, t, [], [], [Faulted(FaultSize)]))
  {
    NumberRead(a, b, c, d, rest);
    var p := s.(dev := s.dev.(size_max := Number(a, b, c, d)));
    var u := p.(state := CheckMemSize);
    if Number(a, b, c, d) <= 2048 {
      HandledAtOnce(p, EvPassed, AlRead(u, STATE_PROPERTY));
    } else {
      assert Fire(p, EvPassed) == Outcome(u, EvFaultSize);
      FaultReported(u, EvFaultSize, FaultSize);
      HandledNext(p, EvPassed, u, EvFaultSize);
    }
  }

  predicate Locked(flags: byte) {
    (flags / 2) % 2 == 1 && (flags / 4) % 2 == 1
  }

  predicate WantsUpload(flags: byte) {
    (flags / 128) % 2 == 1
  }

  lemma LockHandled(p: Ds)
    requires p.state == CheckMemSize
    ensures Handle(p.(state := CheckUpload), EvFaultLock)
      == Noted(p.(state := WaitingOnDSActivity, conf := p.conf.(enable := false)), Faulted(FaultLock))
  {
    var u := p.(state := CheckUpload);
    var v := Noted(u.(state := DsFault, conf := u.conf.(enable := false)), Faulted(FaultLock));
    assert Fire(u, EvFaultLock) == Outcome(v, EvFaultDone);
    HandledAtOnce(v, EvFaultDone, v.(state := WaitingOnDSActivity));
  }

  function AfterFlags(p: Ds, flags: byte): Ds {
    var u := p.(state := CheckUpload);
    if Locked(flags) then Noted(p.(state := WaitingOnDSActivity, conf := p.conf.(enable := false)), Faulted(FaultLock))
    else if WantsUpload(flags) && p.conf.upload then Command(u, 1)
    else AlRead(u, Entry(3, 4))
  }

  lemma BitsTested(flags: byte)
    ensures (flags / 2) % 4 == 3 <==> Locked(flags)
    ensures flags / 128 == 1 <==> WantsUpload(flags)
  {
  }

  lemma FlagsFire(p: Ds)
    requires p.state == CheckMemSize
    ensures Fire(p, EvPassed) == CheckFlags(p.(state := CheckUpload))
  {
  }

  lemma HandledNext(s: Ds, e: DsEvent, u: Ds, next: DsEvent)
    requires Fire(s, e) == Outcome(u, next) && next != EvNone
    ensures Handle(s, e) == Handle(u, next)
  {
  }

  lemma FlagsHandled(p: Ds)
    requires p.state == CheckMemSize
    ensures Handle(p, EvPassed) == AfterFlags(p, p.dev.state_property)
  {
    BitsTested(p.dev.state_property);
    FlagsFire(p);
    if Locked(p.dev.state_property) {
      HandledNext(p, EvPassed, p.(state := CheckUpload), EvFaultLock);
      LockHandled(p);
    } else {
      HandledAtOnce(p, EvPassed, AfterFlags(p, p.dev.state_property));
    }
  }

  /** Bits 1 and 2 together lock the device; bit 7 asks for an upload, which is done if
      the port backs up. */
  lemma FlagsDecide(s: Ds, flags: byte, rest: seq<byte>)
    requires s.state == CheckMemSize
    ensures var t := Step(s, ReadConfirmed(ErrNone, 1, [flags] + rest));
            && t.m == s.m && t.il == s.il
            && t.conf == (if Locked(flags) then s.conf.(enable := false) else s.conf)
            && (if Locked(flags) then t.state == WaitingOnDSActivity && Did(s, t, [], [], [Faulted(FaultLock)])
                else if WantsUpload(flags) && s.conf.upload then t.state == CheckUpload && Did(s, t, [], [Told(1)], [])
                else t.state == CheckUpload && Did(s, t, [Entry(3, 4)], [], []))
  {
    assert Octet([flags] + rest, 0) == flags;
    FlagsHandled(s.(dev := s.dev.(state_property := flags)));
  }

  function AfterChecksum(p: Ds, cs: nat): Ds {
    if !p.m.valid then Command(p.(state := CheckDSValidity), 1)
    else if p.conf.download && cs != p.m.cs then Command(p.(state := DecomposeSet), 3)
    else Finished(p)
  }

  lemma ChecksumHandled(p: Ds)
    requires p.state == CheckUpload
    ensures Handle(p, EvNoUpload) == AfterChecksum(p, p.dev.cs)
  {
    var u := p.(state := CheckDSValidity);
    if !p.m.valid {
      HandledAtOnce(p, EvNoUpload, Command(u, CMD_UL_START));
    } else {
      assert Fire(p, EvNoUpload) == Outcome(u, EvPassed);
      ValidHandled(u);
      HandledNext(p, EvNoUpload, u, EvPassed);
    }
  }

  lemma ValidHandled(u: Ds)
    requires u.state == CheckDSValidity && u.m.valid
    ensures Handle(u, EvPassed) == AfterChecksum(u, u.dev.cs)
  {
    var v := u.(state := CheckChecksum);
    if u.conf.download && u.m.cs != u.dev.cs {
      assert Fire(u, EvPassed) == Outcome(v, EvDownload);
      HandledAtOnce(v, EvDownload, Command(v.(state := DecomposeSet), CMD_DL_START));
      HandledNext(u, EvPassed, v, EvDownload);
    } else {
      assert Fire(u, EvPassed) == Outcome(v, EvReady);
      ReadyHandled(v);
      HandledNext(u, EvPassed, v, EvReady);
    }
  }

  /** A store that holds nothing is filled. Otherwise the device is written exactly if
      downloads are enabled and its checksum is another than the store's. */
  lemma ChecksumDecides(s: Ds, len: byte, a: byte, b: byte, c: byte, d: byte, rest: seq<byte>)
    requires s.state == CheckUpload
    ensures var t := Step(s, ReadConfirmed(ErrNone, len, [a, b, c, d] + rest));
            && Same(s, t)
            && (if !s.m.valid then t.state == CheckDSValidity && Did(s, t, [], [Told(1)], [])
                else if s.conf.download && Number(a, b, c, d) != s.m.cs
                then t.state == DecomposeSet && Did(s, t, [], [Told(3)], [])
                else t.state == WaitingOnDSActivity && Did(s, t, [], [], [Ready]))
  {
    NumberRead(a, b, c, d, rest);
    if len < 4 { ShortIgnored(s); }
    ChecksumHandled(WithChecksum(s, Number(a, b, c, d)));
  }

  lemma ShortIgnored(s: Ds)
    requires s.state == CheckUpload
    ensures Handle(s, EvComErr) == s
  {
    assert Lookup(s.state, EvComErr) == None;
  }

  /** An activation that has done its work. */
  function Finished(s: Ds): Ds {
    Noted(s.(state := WaitingOnDSActivity), Ready)
  }

  lemma ReadyHandled(v: Ds)
    requires v.state == CheckChecksum || v.state == DownloadDone || v.state == StoreDataSet
    ensures Handle(v, if v.state == StoreDataSet then EvUlDone else EvReady) == Finished(v)
  {
    var e := if v.state == StoreDataSet then EvUlDone else EvReady;
    var w := Noted(v.(state := DsReady), Ready);
    ReadyFires(v, e);
    HandledAtOnce(w, EvReady, w.(state := WaitingOnDSActivity));
    HandledNext(v, e, w, EvReady);
  }

  lemma ReadyFires(v: Ds, e: DsEvent)
    requires (v.state == StoreDataSet && e == EvUlDone)
          || ((v.state == CheckChecksum || v.state == DownloadDone) && e == EvReady)
    ensures Fire(v, e) == Outcome(Noted(v.(state := DsReady), Ready), EvReady)
  {
  }

  // ---------- a whole activation ----------

  /** What the device answers about itself, octet by octet. */
  datatype Answers = Answers(size: (byte, byte, byte, byte), flags: byte, cs: (byte, byte, byte, byte))

  function SizeOf(a: Answers): nat {
    Number(a.size.0, a.size.1, a.size.2, a.size.3)
  }

  function ChecksumOf(a: Answers): nat {
    Number(a.cs.0, a.cs.1, a.cs.2, a.cs.3)
  }

  datatype Course = Stranger | TooLarge | IsLocked | UploadWanted | StoreEmpty | Differs | UpToDate

  function CourseOf(s: Ds, port: Id, a: Answers): Course {
    if s.m.id.vendor != 0 && s.m.id != port then Stranger
    else if SizeOf(a) > 2048 then TooLarge
    else if Locked(a.flags) then IsLocked
    else if WantsUpload(a.flags) && s.conf.upload then UploadWanted
    else if !s.m.valid then StoreEmpty
    else if s.conf.download && ChecksumOf(a) != s.m.cs then Differs
    else UpToDate
  }

  /** How many of its questions are asked: size, flags, checksum. */
  function Questions(c: Course): nat {
    match c
    case Stranger => 0
    case TooLarge => 1
    case IsLocked => 2
    case UploadWanted => 2
    case _ => 3
  }

  function Dialogue(port: Id, a: Answers, n: nat): (r: seq<Input>)
    requires n <= 3
    ensures |r| == n + 1
  {
    [Startup(port),
     ReadConfirmed(ErrNone, 4, [a.size.0, a.size.1, a.size.2, a.size.3] + []),
     ReadConfirmed(ErrNone, 1, [a.flags] + []),
     ReadConfirmed(ErrNone, 4, [a.cs.0, a.cs.1, a.cs.2, a.cs.3] + [])][..n + 1]
  }

  function EndsIn(c: Course): DsState {
    match c
    case UploadWanted => CheckUpload
    case StoreEmpty => CheckDSValidity
    case Differs => DecomposeSet
    case _ => WaitingOnDSActivity
  }

  /** The command given: UL_START or DL_START. */
  function Commanded(c: Course): seq<Record> {
    match c
    case UploadWanted => [Told(1)]
    case StoreEmpty => [Told(1)]
    case Differs => [Told(3)]
    case _ => []
  }

  function Reported(c: Course): seq<Note> {
    match c
    case Stranger => [Activated, Faulted(FaultId)]
    case TooLarge => [Activated, Faulted(FaultSize)]
    case IsLocked => [Activated, Faulted(FaultLock)]
    case UpToDate => [Activated, Ready]
    case _ => [Activated]
  }

  lemma DialogueNext(s: Ds, port: Id, a: Answers, n: nat)
    requires 0 < n <= 3
    ensures Run(s, Dialogue(port, a, n)) == Step(Run(s, Dialogue(port, a, n - 1)), Dialogue(port, a, n)[n])
  {
    assert Dialogue(port, a, n)[..n] == Dialogue(port, a, n - 1);
  }

  lemma DialogueStarts(s: Ds, port: Id, a: Answers)
    ensures Run(s, Dialogue(port, a, 0)) == Step(s, Startup(port))
  {
    assert Dialogue(port, a, 0)[..0] == [];
  }

  lemma DidThen(s: Ds, t: Ds, u: Ds, r: seq<Entry>, n: seq<Note>, r': seq<Entry>, w': seq<Record>, n': seq<Note>)
    requires Did(s, t, r, [], n) && Did(t, u, r', w', n')
    ensures Did(s, u, r + r', w', n + n')
  {
    assert s.up.asked + (r + r') == (s.up.asked + r) + r';
    assert s.h.writes + w' == (s.h.writes + []) + w';
    assert s.h.log + (n + n') == (s.h.log + n) + n';
  }

  const QUESTIONS: seq<Entry> := [Entry(3, 3), Entry(3, 2), Entry(3, 4)]

  predicate Answered(s: Ds, t: Ds, port: Id, n: nat)
    requires n <= 3
  {
    && t.m == s.m && t.conf == WithPort(s, port).conf
    && t.state == [CheckIdentity, CheckMemSize, CheckUpload][if n == 0 then 0 else n - 1]
    && Did(s, t, QUESTIONS[..n], [], [Activated])
  }

  lemma SizeAsked(s: Ds, port: Id, a: Answers)
    requires s.state == WaitingOnDSActivity && (s.m.id.vendor == 0 || s.m.id == port)
    ensures Answered(s, Run(s, Dialogue(port, a, 0)), port, 1)
  {
    IdentityDecides(s, port);
    DialogueStarts(s, port, a);
  }

  lemma FlagsAsked(s: Ds, port: Id, a: Answers)
    requires s.state == WaitingOnDSActivity && (s.m.id.vendor == 0 || s.m.id == port) && SizeOf(a) <= 2048
    ensures Answered(s, Run(s, Dialogue(port, a, 1)), port, 2)
  {
    SizeAsked(s, port, a);
    DialogueNext(s, port, a, 1);
    var t := Run(s, Dialogue(port, a, 0));
    SizeDecides(t, 4, a.size.0, a.size.1, a.size.2, a.size.3, []);
    DidThen(s, t, Run(s, Dialogue(port, a, 1)), QUESTIONS[..1], [Activated], [Entry(3, 2)], [], []);
  }

  lemma ChecksumAsked(s: Ds, port: Id, a: Answers)
    requires s.state == WaitingOnDSActivity && (s.m.id.vendor == 0 || s.m.id == port) && SizeOf(a) <= 2048
    requires !Locked(a.flags) && !(WantsUpload(a.flags) && s.conf.upload)
    ensures Answered(s, Run(s, Dialogue(port, a, 2)), port, 3)
  {
    FlagsAsked(s, port, a);
    DialogueNext(s, port, a, 2);
    var t := Run(s, Dialogue(port, a, 1));
    FlagsDecide(t, a.flags, []);
    DidThen(s, t, Run(s, Dialogue(port, a, 2)), QUESTIONS[..2], [Activated], [Entry(3, 4)], [], []);
  }

  /** The end of the dialogue: what the course stands for. */
  predicate Concluded(s: Ds, t: Ds, c: Course) {
    && t.m == s.m && t.state == EndsIn(c)
    && (c == IsLocked ==> !t.conf.enable)
    && Did(s, t, QUESTIONS[..Questions(c)], Commanded(c), Reported(c))
  }

  /** Over every store, configuration and device: an activation asks for size, flags
      and checksum, as far as it needs them, and takes exactly this course. */
  lemma ActivationDecides(s: Ds, port: Id, a: Answers)
    requires s.state == WaitingOnDSActivity
    ensures var c := CourseOf(s, port, a); Concluded(s, Run(s, Dialogue(port, a, Questions(c))), c)
  {
    match CourseOf(s, port, a)
    case Stranger =>
      IdentityDecides(s, port);
      DialogueStarts(s, port, a);
    case TooLarge => TooLargeConcluded(s, port, a);
    case IsLocked => FlagsConclude(s, port, a);
    case UploadWanted => FlagsConclude(s, port, a);
    case _ => ChecksumConcludes(s, port, a);
  }

  lemma TooLargeConcluded(s: Ds, port: Id, a: Answers)
    requires s.state == WaitingOnDSActivity && CourseOf(s, port, a) == TooLarge
    ensures Concluded(s, Run(s, Dialogue(port, a, 1)), TooLarge)
  {
    SizeAsked(s, port, a);
    DialogueNext(s, port, a, 1);
    var t := Run(s, Dialogue(port, a, 0));
    SizeDecides(t, 4, a.size.0, a.size.1, a.size.2, a.size.3, []);
    DidThen(s, t, Run(s, Dialogue(port, a, 1)), QUESTIONS[..1], [Activated], [], [], [Faulted(FaultSize)]);
  }

  lemma FlagsConclude(s: Ds, port: Id, a: Answers)
    requires s.state == WaitingOnDSActivity
    requires CourseOf(s, port, a) == IsLocked || CourseOf(s, port, a) == UploadWanted
    ensures Concluded(s, Run(s, Dialogue(port, a, 2)), CourseOf(s, port, a))
  {
    FlagsAsked(s, port, a);
    DialogueNext(s, port, a, 2);
    var t, u := Run(s, Dialogue(port, a, 1)), Run(s, Dialogue(port, a, 2));
    FlagsDecide(t, a.flags, []);
    DidThen(s, t, u, QUESTIONS[..2], [Activated], [], Commanded(CourseOf(s, port, a)),
      if Locked(a.flags) then [Faulted(FaultLock)] else []);
  }

  lemma ChecksumConcludes(s: Ds, port: Id, a: Answers)
    requires s.state == WaitingOnDSActivity && Questions(CourseOf(s, port, a)) == 3
    ensures Concluded(s, Run(s, Dialogue(port, a, 3)), CourseOf(s, port, a))
  {
    var c := CourseOf(s, port, a);
    ChecksumAsked(s, port, a);
    DialogueNext(s, port, a, 3);
    var t, u := Run(s, Dialogue(port, a, 2)), Run(s, Dialogue(port, a, 3));
    ChecksumDecides(t, 4, a.cs.0, a.cs.1, a.cs.2, a.cs.3, []);
    DidThen(s, t, u, QUESTIONS[..3], [Activated], [], Commanded(c), if c == UpToDate then [Ready] else []);
  }

  // ---------- the upload, and what it leaves ----------

  /** With UL_START acknowledged the index list is read. */
  lemma UploadBegins(s: Ds)
    requires s.state == CheckUpload || s.state == CheckDSValidity
    ensures var t := Step(s, WriteConfirmed(ErrNone));
            && t.state == ReadParameter && t.current == INDEX_LIST && t.up.asked == [Entry(3, 5)]
            && t.m == s.m.(pos := 0) && t.h.log == s.h.log && t.h.writes == s.h.writes
  {
    var u := UploadStart(s.(state := DecomposeIl)).s;
    UploadFires(s);
    ParameterAsked(u);
    HandledNext(s, EvDoUpload, u, EvMoreData);
  }

  lemma ParameterAsked(u: Ds)
    requires u.state == DecomposeIl
    ensures Handle(u, EvMoreData) == AlRead(u.(state := ReadParameter), u.current)
  {
    HandledAtOnce(u, EvMoreData, AlRead(u.(state := ReadParameter), u.current));
  }

  function Pair(hi: byte, lo: byte): (r: nat)
    ensures r < 65536
  {
    256 * hi + lo
  }

  /** The list says what is read next: two octets of index, one of subindex, up to
      the entry with index 0. */
  lemma ListIsParsed(s: Ds, len: byte, buf: seq<byte>, n: nat)
    requires s.state == ReadParameter && s.current == INDEX_LIST && s.il.pos == 0 && n < INDEX_LIST_MAX_ENTRIES
    requires |buf| >= 3 * n + 2 && buf[3 * n] == 0 && buf[3 * n + 1] == 0
    requires forall j :: 0 <= j < n ==> buf[3 * j] != 0 || buf[3 * j + 1] != 0
    ensures var p := ParameterRead(s, len, buf);
            && p.il.count == n && p.m == s.m
            && forall j :: 0 <= j < n ==> p.il.entries[j] == Entry(Pair(buf[3 * j], buf[3 * j + 1]), buf[3 * j + 2])
  {
    var end := ListEnd(buf, 0);
    assert ListIndex(buf, n) == 0;
    forall j | 0 <= j < n ensures ListIndex(buf, j) != 0 { assert buf[3 * j] != 0 || buf[3 * j + 1] != 0; }
    assert end == n;
  }

  /** When all is read: the checksum of the device is read and UL_END acknowledged.
      From then on the store speaks for the device the port was configured for. */
  lemma UploadVouches(s: Ds, len: byte, a: byte, b: byte, c: byte, d: byte, rest: seq<byte>)
    requires s.state == StoreDataSet && len >= 4
    ensures var t := Step(s, ReadConfirmed(ErrNone, len, [a, b, c, d] + rest));
            && t.state == StoreDataSet && Same(s, t) && Did(s, t, [], [Told(2)], [])
            && var u := Step(t, WriteConfirmed(ErrNone));
               && u.state == WaitingOnDSActivity && Did(t, u, [], [], [Ready])
               && u.m == s.m.(id := s.conf.pending, cs := Number(a, b, c, d), valid := true)
  {
    NumberRead(a, b, c, d, rest);
    var t := Step(s, ReadConfirmed(ErrNone, len, [a, b, c, d] + rest));
    ReadyHandled(Vouched(t));
  }

  /** A download that comes to its end reads the checksum again and is reported; the
      store keeps its own. */
  lemma DownloadReported(s: Ds, len: byte, buf: seq<byte>)
    requires s.state == DownloadDone && len >= 4
    ensures var t := Step(s, WriteConfirmed(ErrNone));
            && t.state == DownloadDone && Same(s, t) && Did(s, t, [Entry(3, 4)], [], [])
            && var u := Step(t, ReadConfirmed(ErrNone, len, buf));
               u.state == WaitingOnDSActivity && Same(s, u) && Did(t, u, [], [], [Ready])
  {
    var t := Step(s, WriteConfirmed(ErrNone));
    ReadyHandled(WithChecksum(t, U32(buf)));
  }

  // ---------- how long the store speaks for its device ----------

  predicate SameVoucher(s: Ds, t: Ds) {
    t.m.id == s.m.id && t.m.cs == s.m.cs && t.m.valid == s.m.valid
  }

  lemma ActKeepsVoucher(s: Ds, a: Action, e: DsEvent, from: DsState)
    requires a != ActDelete
    ensures SameVoucher(s, Act(s, a, e, from).s)
  {
    if Aside(a) { AsideActs(s, a, e, from); }
  }

  lemma {:induction false} HandleKeepsVoucher(s: Ds, e: DsEvent)
    requires e != EvDelete
    ensures SameVoucher(s, Handle(s, e))
    decreases Rank(s.state, e)
  {
    FireRanks(s, e);
    FireKeepsVoucher(s, e);
    var o := Fire(s, e);
    if o.next != EvNone { HandleKeepsVoucher(o.s, o.next); }
  }

  lemma ActRaisesNoDelete(s: Ds, a: Action, e: DsEvent, from: DsState)
    ensures Act(s, a, e, from).next != EvDelete
  {
    match a
    case ActFault => match e { case EvFaultId => case EvFaultSize => case EvFaultUl => case EvFaultDl => case EvFaultLock => case _ => }
    case ActUpload => match e { case EvDoUpload => case EvReadDone => case _ => }
    case _ =>
  }

  lemma FireKeepsVoucher(s: Ds, e: DsEvent)
    requires e != EvDelete
    ensures SameVoucher(s, Fire(s, e).s) && Fire(s, e).next != EvDelete
  {
    match Lookup(s.state, e)
    case None =>
    case Some(t) =>
      ActKeepsVoucher(s.(state := t.next), t.action, e, s.state);
      ActRaisesNoDelete(s.(state := t.next), t.action, e, s.state);
  }

  /** The inputs that change what the store says of itself. */
  predicate Revouches(s: Ds, i: Input) {
    || i.ParServ?
    || (i.DeleteRequest? && !Active(s.state))
    || (i == WriteConfirmed(ErrNone) && s.state == StoreDataSet)
  }

  lemma AnswerKeepsVoucher(s: Ds, error: AlError, len: byte, buf: seq<byte>)
    requires (s.state == CheckIdentity || s.state == CheckMemSize) && error != ErrCom
    ensures SameVoucher(s, ReadCnf(s, error, len, buf))
  {
    if s.state == CheckIdentity {
      HandleKeepsVoucher(s, EvFaultId);
      HandleKeepsVoucher(s.(dev := s.dev.(size_max := U32(buf))), EvPassed);
    } else {
      HandleKeepsVoucher(s, EvFaultSize);
      HandleKeepsVoucher(s.(dev := s.dev.(state_property := Octet(buf, 0))), EvPassed);
    }
  }

  lemma ParameterKeepsVoucher(s: Ds, error: AlError, len: byte, buf: seq<byte>)
    requires s.state == ReadParameter && error != ErrCom
    ensures SameVoucher(s, ReadCnf(s, error, len, buf))
  {
    HandleKeepsVoucher(s, EvDevErr);
    HandleKeepsVoucher(ParameterRead(s, len, buf), EvReadDone);
  }

  lemma ChecksumKeepsVoucher(s: Ds, len: byte, buf: seq<byte>, e: DsEvent)
    requires e != EvDelete
    ensures SameVoucher(s, ChecksumRead(s, len, buf)) && SameVoucher(s, Handle(ChecksumRead(s, len, buf), e))
  {
    HandleKeepsVoucher(s, EvComErr);
    HandleKeepsVoucher(ChecksumRead(s, len, buf), e);
  }

  lemma ReadKeepsVoucher(s: Ds, error: AlError, len: byte, buf: seq<byte>)
    ensures SameVoucher(s, ReadCnf(s, error, len, buf))
  {
    if error == ErrCom {
      HandleKeepsVoucher(s, EvComErr);
    } else {
      match s.state
      case CheckIdentity => AnswerKeepsVoucher(s, error, len, buf);
      case CheckMemSize => AnswerKeepsVoucher(s, error, len, buf);
      case ReadParameter => ParameterKeepsVoucher(s, error, len, buf);
      case CheckUpload => ChecksumKeepsVoucher(s, len, buf, EvNoUpload);
      case StoreDataSet => ChecksumKeepsVoucher(s, len, buf, EvNone);
      case DownloadDone => ChecksumKeepsVoucher(s, len, buf, EvReady);
      case _ =>
    }
  }

  lemma StepKeepsVoucher(s: Ds, i: Input)
    requires !Revouches(s, i)
    ensures SameVoucher(s, Step(s, i))
  {
    match i
    case ReadConfirmed(error, len, buf) => ReadKeepsVoucher(s, error, len, buf);
    case WriteConfirmed(error) => WriteKeepsVoucher(s, error);
    case Startup(port) => HandleKeepsVoucher(WithPort(s, port), EvStartup);
    case UploadRequest(port) => HandleKeepsVoucher(WithPort(s, port), EvUpload);
    case DeleteRequest => assert Lookup(s.state, EvDelete) == None;
    case InitRequest(backup, id) => HandleKeepsVoucher(Reconfigured(s, backup, id), EvInit);
    case ParServ(_, _) =>
  }

  lemma WriteKeepsVoucher(s: Ds, error: AlError)
    requires error != ErrNone || s.state != StoreDataSet
    ensures SameVoucher(s, WriteCnf(s, error))
  {
    if error != ErrNone {
      HandleKeepsVoucher(s, EvComErr);
    } else {
      match s.state
      case CheckUpload => HandleKeepsVoucher(s, EvDoUpload);
      case CheckDSValidity => HandleKeepsVoucher(s, EvDoUpload);
      case WriteParameter => HandleKeepsVoucher(s, EvWrDone);
      case DecomposeSet => HandleKeepsVoucher(s, EvDownload);
      case DsFault => HandleKeepsVoucher(Noted(s, Faulted(s.conf.fault)), EvFaultDone);
      case _ =>
    }
  }

  predicate NeverRevouched(s: Ds, inputs: seq<Input>) {
    inputs == []
    || (NeverRevouched(s, inputs[..|inputs| - 1])
        && !Revouches(Run(s, inputs[..|inputs| - 1]), inputs[|inputs| - 1]))
  }

  /** Over every run without these, the store keeps its device, its checksum and its
      validity, through activations, failed ones, uploads that do not end, downloads
      and reconfigurations. */
  lemma {:induction false} VoucherKept(s: Ds, inputs: seq<Input>)
    requires NeverRevouched(s, inputs)
    ensures SameVoucher(s, Run(s, inputs))
  {
    if inputs != [] {
      VoucherKept(s, inputs[..|inputs| - 1]);
      StepKeepsVoucher(Run(s, inputs[..|inputs| - 1]), inputs[|inputs| - 1]);
    }
  }

  /** So after an upload, and over every such run, an activation of the same device
      that asks for no upload downloads if and only if downloads are enabled and the
      device's checksum is no longer the one it gave at the end of that upload. */
  lemma DownloadIffChanged(s: Ds, cs: (byte, byte, byte, byte), inputs: seq<Input>, a: Answers)
    requires s.state == StoreDataSet
    requires var u := Step(Step(s, ReadConfirmed(ErrNone, 4, [cs.0, cs.1, cs.2, cs.3] + [])), WriteConfirmed(ErrNone));
             NeverRevouched(u, inputs) && Run(u, inputs).state == WaitingOnDSActivity
    requires SizeOf(a) <= 2048 && !Locked(a.flags) && !WantsUpload(a.flags)
    ensures var u := Step(Step(s, ReadConfirmed(ErrNone, 4, [cs.0, cs.1, cs.2, cs.3] + [])), WriteConfirmed(ErrNone));
            var v := Run(u, inputs);
            Concluded(v, Run(v, Dialogue(s.conf.pending, a, 3)),
              if v.conf.download && ChecksumOf(a) != Number(cs.0, cs.1, cs.2, cs.3) then Differs else UpToDate)
  {
    UploadVouches(s, 4, cs.0, cs.1, cs.2, cs.3, []);
    var u := Step(Step(s, ReadConfirmed(ErrNone, 4, [cs.0, cs.1, cs.2, cs.3] + [])), WriteConfirmed(ErrNone));
    VoucherKept(u, inputs);
    ActivationDecides(Run(u, inputs), s.conf.pending, a);
  }

  // ---------- failures and settings ----------

  /** An upload that fails in reading tells the device to break off, and is reported
      once it has. */
  lemma UploadFailureReported(s: Ds, error: AlError, len: byte, buf: seq<byte>)
    requires s.state == ReadParameter && error != ErrNone
    ensures var t := Step(s, ReadConfirmed(error, len, buf));
            && t.state == DsFault && Did(s, t, [], [Told(5)], [])
            && var u := Step(t, WriteConfirmed(ErrNone));
               u.state == WaitingOnDSActivity && Did(t, u, [], [], [Faulted(FaultUp)])
  {
    var e := if error == ErrCom then EvComErr else EvDevErr;
    UploadFails(s, e);
    FailureFires(s.(state := UploadFault));
    HandledNext(s, e, s.(state := UploadFault), EvFaultUl);
    BreakConfirmed(BrokenOff(s));
  }

  lemma UploadFails(s: Ds, e: DsEvent)
    requires s.state == ReadParameter && (e == EvComErr || e == EvDevErr)
    ensures Fire(s, e) == Outcome(s.(state := UploadFault), EvFaultUl)
  {
  }

  lemma BreakConfirmed(t: Ds)
    requires t.state == DsFault
    ensures Step(t, WriteConfirmed(ErrNone)) == Noted(t.(state := WaitingOnDSActivity), Faulted(t.conf.fault))
  {
    var v := Noted(t, Faulted(t.conf.fault));
    HandledAtOnce(v, EvFaultDone, v.(state := WaitingOnDSActivity));
  }

  lemma DownloadFailureReported(s: Ds, error: AlError)
    requires (s.state == WriteParameter || s.state == DownloadDone) && error != ErrNone
    ensures var t := Step(s, WriteConfirmed(error));
            && t.state == DsFault && Did(s, t, [], [Told(5)], [])
            && var u := Step(t, WriteConfirmed(ErrNone));
               u.state == WaitingOnDSActivity && Did(t, u, [], [], [Faulted(FaultDown)])
  {
    var f := s.(state := DownloadFault);
    DownloadFails(s);
    DownloadBrokenOff(f);
    HandledNext(s, EvComErr, f, EvFaultDl);
    BreakConfirmed(Handle(f, EvFaultDl));
  }

  lemma DownloadFails(s: Ds)
    requires s.state == WriteParameter || s.state == DownloadDone
    ensures Fire(s, EvComErr) == Outcome(s.(state := DownloadFault), EvFaultDl)
  {
  }

  lemma DownloadBrokenOff(f: Ds)
    requires f.state == DownloadFault
    ensures Handle(f, EvFaultDl) == Command(Failing(f.(state := DsFault), FaultDown), CMD_BREAK)
  {
    HandledAtOnce(f, EvFaultDl, Command(Failing(f.(state := DsFault), FaultDown), CMD_BREAK));
  }

  /** What a backup level switches on: Restore downloads, BackupRestore also uploads;
      data storage once enabled stays enabled. */
  lemma LevelSwitches(s: Ds, backup: Backup, id: Id)
    requires !Active(s.state)
    ensures var t := Step(s, InitRequest(backup, id));
            && (t.conf.download <==> backup == Restore || backup == BackupRestore)
            && (t.conf.upload <==> backup == BackupRestore)
            && (t.conf.enable <==> s.conf.enable || backup != NoBackup)
            && t.state == (if t.conf.enable then WaitingOnDSActivity else Off)
            && t.conf.pending == id && t.h.log == s.h.log && t.m == s.m
  {
    var p := Reconfigured(s, backup, id);
    var u := p.(state := CheckActivationState);
    assert Fire(p, EvInit) == Outcome(u, if p.conf.enable then EvEnable else EvClrDisa);
    if p.conf.enable {
      HandledAtOnce(u, EvEnable, u.(state := WaitingOnDSActivity));
      HandledNext(p, EvInit, u, EvEnable);
    } else {
      HandledAtOnce(u, EvClrDisa, u.(state := Off));
      HandledNext(p, EvInit, u, EvClrDisa);
    }
  }

  /** A reconfiguration while the device is told to break off: the failure is then
      reported without its reason. */
  lemma ReconfiguredFaultForgotten(s: Ds, backup: Backup, id: Id)
    requires s.state == DsFault
    ensures var t := Step(Step(s, InitRequest(backup, id)), WriteConfirmed(ErrNone));
            t.state == WaitingOnDSActivity && Did(s, t, [], [], [Faulted(FaultNone)])
  {
    var p := Reconfigured(s, backup, id);
    assert Lookup(p.state, EvInit) == None;
    BreakConfirmed(p);
  }

  /** A store that is deleted or loaded speaks for nobody, or for the device given. */
  lemma StoreReplaced(s: Ds, id: Id, data: seq<byte>)
    requires !Active(s.state)
    ensures var t := Step(s, DeleteRequest);
            t.state == s.state && !t.m.valid && t.m.id.vendor == 0 && t.m.cs == 0 && t.h.log == s.h.log
    ensures var t := Step(s, ParServ(id, data));
            && t.state == s.state && t.m.valid && t.m.id == id && t.m.cs == 0 && t.m.size == |data| % 256
            && t.m.data[..|data| % 256] == data[..|data| % 256] && t.m.data[|data| % 256..] == s.m.data[|data| % 256..]
  {
    HandledAtOnce(s, EvDelete, Delete(s));
  }

  /** Switched off, a start-up is answered at once and nothing else happens. */
  lemma OffAnswers(s: Ds, port: Id)
    requires s.state == Off
    ensures Step(s, Startup(port)) == WithPort(s, port).(h := s.h.(off_ready := s.h.off_ready + 1))
    ensures Step(s, UploadRequest(port)) == WithPort(s, port)
  {
    HandledAtOnce(WithPort(s, port), EvStartup, WithPort(s, port).(h := s.h.(off_ready := s.h.off_ready + 1)));
    HandledAtOnce(WithPort(s, port), EvUpload, WithPort(s, port));
  }
}
