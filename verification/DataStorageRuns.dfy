/**
 * What data storage reports over all runs: an activation ends at most once before
 * the next, in one report or silently for one of two causes, and where it never
 * ends.
 */
module DataStorageRuns {
  import opened Bytes
  import opened IsduCodec
  import opened DataStorage

  /** Activations and their ends take turns, an activation first. */
  predicate Alternates(log: seq<Note>) {
    forall k :: 0 <= k < |log| ==> (log[k] == Activated <==> k % 2 == 0)
  }

  /** The activation is still to be reported when e is the event to come. */
  predicate Open(s: Ds, e: DsEvent) {
    && Active(s.state)
    && !(s.state == DsReady && e == EvReady)
    && !(s.state == DsFault && e == EvFaultDone)
  }

  predicate LogInv(s: Ds, e: DsEvent) {
    && Alternates(s.h.log)
    && (|s.h.log| % 2 == 1 <==> Open(s, e))
    && (s.state == DsReady ==> e == EvReady)
  }

  lemma NotedAlternates(log: seq<Note>, n: Note)
    requires Alternates(log) && (n == Activated <==> |log| % 2 == 0)
    ensures Alternates(log + [n])
  {
  }

  lemma FireKeepsLog(s: Ds, e: DsEvent)
    requires LogInv(s, e)
    ensures LogInv(Fire(s, e).s, Fire(s, e).next)
  {
    match Lookup(s.state, e)
    case None =>
    case Some(t) => ActKeepsLog(s, t, e);
  }

  lemma ActKeepsLog(s: Ds, t: Transition, e: DsEvent)
    requires LogInv(s, e) && Lookup(s.state, e) == Some(t)
    ensures var o := Act(s.(state := t.next), t.action, e, s.state); LogInv(o.s, o.next)
  {
    if t.action == ActFault {
      FaultKeepsLog(s, t, e);
    } else if Plain(t.action) {
      PlainKeepsLog(s, t, e);
    } else {
      NoteKeepsLog(s, t, e);
    }
  }

  lemma EndKeepsLog(s: Ds, t: Transition, e: DsEvent)
    requires LogInv(s, e) && TransferAt(s.state, e, t) && t.action == ActWait
    ensures LogInv(Ended(s.(state := t.next), e), EvNone)
  {
    if e == EvComErr { NotedAlternates(s.h.log, Silent); }
  }

  lemma ReinitKeepsLog(s: Ds, t: Transition, e: DsEvent)
    requires LogInv(s, e) && TransferAt(s.state, e, t) && t.action == ActReinit
    ensures var o := Reinit(s.(state := t.next), s.state); LogInv(o.s, o.next)
  {
    if Active(s.state) { NotedAlternates(s.h.log, Silent); }
  }

  lemma ActivationKeepsLog(s: Ds, t: Transition, e: DsEvent)
    requires LogInv(s, e) && TransferAt(s.state, e, t) && t.action == ActCheckId
    ensures var o := CheckId(s.(state := t.next)); LogInv(o.s, o.next)
  {
    NotedAlternates(s.h.log, Activated);
  }

  lemma NoteKeepsLog(s: Ds, t: Transition, e: DsEvent)
    requires LogInv(s, e) && TransferAt(s.state, e, t) && !Plain(t.action) && t.action != ActFault
    ensures var o := Act(s.(state := t.next), t.action, e, s.state); LogInv(o.s, o.next)
  {
    if t.action == ActWait {
      EndKeepsLog(s, t, e);
    } else if t.action == ActReinit {
      ReinitKeepsLog(s, t, e);
    } else if t.action == ActCheckId {
      ActivationKeepsLog(s, t, e);
    } else {
      NotedAlternates(s.h.log, Ready);
    }
  }

  lemma FaultKeepsLog(s: Ds, t: Transition, e: DsEvent)
    requires LogInv(s, e) && TransferAt(s.state, e, t) && t.action == ActFault
    ensures var o := RaiseFault(s.(state := t.next), e); LogInv(o.s, o.next)
  {
    match e
    case EvFaultId => NotedAlternates(s.h.log, Faulted(FaultId));
    case EvFaultSize => NotedAlternates(s.h.log, Faulted(FaultSize));
    case EvFaultLock => NotedAlternates(s.h.log, Faulted(FaultLock));
    case _ =>
  }

  predicate Plain(a: Action) {
    a != ActWait && a != ActReinit && a != ActCheckId && a != ActReady && a != ActFault
  }

  /** Where no note is taken, the activation stays as it was. */
  lemma PlainTransition(state: DsState, e: DsEvent, t: Transition)
    requires TransferAt(state, e, t) && Plain(t.action)
    ensures (Active(state) <==> Active(t.next)) && t.next != DsReady && t.next != DsFault
    ensures !(state == DsReady && e == EvReady) && !(state == DsFault && e == EvFaultDone)
  {
  }

  lemma PlainKeepsLog(s: Ds, t: Transition, e: DsEvent)
    requires LogInv(s, e) && Lookup(s.state, e) == Some(t) && Plain(t.action)
    ensures var o := Act(s.(state := t.next), t.action, e, s.state);
            o.s.h.log == s.h.log && LogInv(o.s, o.next)
  {
    PlainTransition(s.state, e, t);
    PlainActs(s.(state := t.next), t.action, e, s.state);
  }

  lemma PlainActs(s: Ds, a: Action, e: DsEvent, from: DsState)
    requires Plain(a)
    ensures var o := Act(s, a, e, from);
            && o.s.h.log == s.h.log && o.s.state == s.state
            && o.next != EvFaultDone
            && (o.next == EvReady ==> a == ActCheckChecksum)
  {
    match a
    case ActUpload => match e { case EvDoUpload => case EvReadDone => case _ => }
    case ActDecomposeSet =>
    case _ =>
  }

  lemma {:induction false} HandleKeepsLog(s: Ds, e: DsEvent)
    requires LogInv(s, e)
    ensures LogInv(Handle(s, e), EvNone)
    decreases Rank(s.state, e)
  {
    FireRanks(s, e);
    FireKeepsLog(s, e);
    var o := Fire(s, e);
    if o.next != EvNone { HandleKeepsLog(o.s, o.next); }
  }

  /** An event that comes from outside. */
  lemma OutsideKeepsLog(s: Ds, e: DsEvent)
    requires LogInv(s, EvNone) && e != EvFaultDone
    ensures LogInv(Handle(s, e), EvNone)
  {
    HandleKeepsLog(s, e);
  }

  lemma IdentityKeepsLog(s: Ds, error: AlError, len: byte, buf: seq<byte>)
    requires LogInv(s, EvNone) && error != ErrCom && s.state == CheckIdentity
    ensures LogInv(ReadCnf(s, error, len, buf), EvNone)
  {
    OutsideKeepsLog(s, EvFaultId);
    OutsideKeepsLog(s.(dev := s.dev.(size_max := U32(buf))), EvPassed);
  }

  lemma SizeKeepsLog(s: Ds, error: AlError, len: byte, buf: seq<byte>)
    requires LogInv(s, EvNone) && error != ErrCom && s.state == CheckMemSize
    ensures LogInv(ReadCnf(s, error, len, buf), EvNone)
  {
    OutsideKeepsLog(s, EvFaultSize);
    OutsideKeepsLog(s.(dev := s.dev.(state_property := Octet(buf, 0))), EvPassed);
  }

  lemma ReadKeepsLog(s: Ds, error: AlError, len: byte, buf: seq<byte>)
    requires LogInv(s, EvNone)
    ensures LogInv(ReadCnf(s, error, len, buf), EvNone)
  {
    if error == ErrCom {
      OutsideKeepsLog(s, EvComErr);
    } else {
      match s.state
      case CheckIdentity => IdentityKeepsLog(s, error, len, buf);
      case CheckMemSize => SizeKeepsLog(s, error, len, buf);
      case ReadParameter =>
        OutsideKeepsLog(s, EvDevErr);
        assert ParameterRead(s, len, buf).h.log == s.h.log && ParameterRead(s, len, buf).state == s.state;
        OutsideKeepsLog(ParameterRead(s, len, buf), EvReadDone);
      case CheckUpload =>
        OutsideKeepsLog(s, EvComErr);
        OutsideKeepsLog(ChecksumRead(s, len, buf), EvNoUpload);
      case StoreDataSet =>
        OutsideKeepsLog(s, EvComErr);
      case DownloadDone =>
        OutsideKeepsLog(s, EvComErr);
        OutsideKeepsLog(ChecksumRead(s, len, buf), EvReady);
      case _ =>
    }
  }

  lemma WriteKeepsLog(s: Ds, error: AlError)
    requires LogInv(s, EvNone)
    ensures LogInv(WriteCnf(s, error), EvNone)
  {
    if error != ErrNone {
      OutsideKeepsLog(s, EvComErr);
    } else {
      match s.state
      case CheckUpload => OutsideKeepsLog(s, EvDoUpload);
      case CheckDSValidity => OutsideKeepsLog(s, EvDoUpload);
      case WriteParameter => OutsideKeepsLog(s, EvWrDone);
      case StoreDataSet => OutsideKeepsLog(Vouched(s), EvUlDone);
      case DecomposeSet => OutsideKeepsLog(s, EvDownload);
      case DsFault =>
        NotedAlternates(s.h.log, Faulted(s.conf.fault));
        HandleKeepsLog(Noted(s, Faulted(s.conf.fault)), EvFaultDone);
      case _ =>
    }
  }

  lemma StepKeepsLog(s: Ds, i: Input)
    requires LogInv(s, EvNone)
    ensures LogInv(Step(s, i), EvNone)
  {
    match i
    case ReadConfirmed(error, len, buf) => ReadKeepsLog(s, error, len, buf);
    case WriteConfirmed(error) => WriteKeepsLog(s, error);
    case Startup(port) => OutsideKeepsLog(WithPort(s, port), EvStartup);
    case UploadRequest(port) => OutsideKeepsLog(WithPort(s, port), EvUpload);
    case DeleteRequest => OutsideKeepsLog(s, EvDelete);
    case InitRequest(backup, id) =>
      OutsideKeepsLog(Reconfigured(s, backup, id), EvInit);
    case ParServ(id, data) =>
  }

  /** Over every run of confirmations, requests and re-initialisations: no activation
      begins before the last has ended, and each ends at most once, in a DS_Ready, a
      DS_Fault or silently; the one under way is open exactly while data storage is
      out of its three resting states. */
  lemma {:induction false} EveryActivationEndsAtMostOnce(s: Ds, inputs: seq<Input>)
    requires LogInv(s, EvNone)
    ensures LogInv(Run(s, inputs), EvNone)
    ensures var t := Run(s, inputs);
            Alternates(t.h.log) && (|t.h.log| % 2 == 1 <==> Active(t.state))
  {
    if inputs != [] {
      EveryActivationEndsAtMostOnce(s, inputs[..|inputs| - 1]);
      StepKeepsLog(Run(s, inputs[..|inputs| - 1]), inputs[|inputs| - 1]);
    }
  }

  // ---------- the silent ends ----------

  predicate Cause(state: DsState, e: DsEvent) {
    || (e == EvInit && (state == CheckIdentity || state == CheckMemSize))
    || (e == EvComErr && state == DsFault)
  }

  /** What one pass of the event loop adds to the log. */
  function Notes(s: Ds, e: DsEvent): seq<Note> {
    match Lookup(s.state, e)
    case None => []
    case Some(t) => ActionNotes(s.state, e, t.action)
  }

  function ActionNotes(from: DsState, e: DsEvent, a: Action): seq<Note> {
    match a
    case ActWait => if e == EvComErr then [Silent] else []
    case ActReinit => if Active(from) then [Silent] else []
    case ActCheckId => [Activated]
    case ActReady => [Ready]
    case ActFault =>
      (match e
       case EvFaultId => [Faulted(FaultId)]
       case EvFaultSize => [Faulted(FaultSize)]
       case EvFaultLock => [Faulted(FaultLock)]
       case _ => [])
    case _ => []
  }

  lemma ActLogs(s: Ds, a: Action, e: DsEvent, from: DsState)
    requires !Plain(a) && a != ActFault
    ensures Act(s, a, e, from).s.h.log == s.h.log + ActionNotes(from, e, a)
  {
  }

  lemma FaultLogs(s: Ds, e: DsEvent, from: DsState)
    ensures RaiseFault(s, e).s.h.log == s.h.log + ActionNotes(from, e, ActFault)
  {
    match e
    case EvFaultId =>
    case EvFaultSize =>
    case EvFaultUl =>
    case EvFaultDl =>
    case EvFaultLock =>
    case _ =>
  }

  lemma FireLogs(s: Ds, e: DsEvent)
    ensures Fire(s, e).s.h.log == s.h.log + Notes(s, e)
  {
    match Lookup(s.state, e)
    case None =>
    case Some(t) =>
      if Plain(t.action) {
        PlainActs(s.(state := t.next), t.action, e, s.state);
      } else if t.action == ActFault {
        FaultLogs(s.(state := t.next), e, s.state);
      } else {
        ActLogs(s.(state := t.next), t.action, e, s.state);
      }
  }

  lemma NotesSilent(s: Ds, e: DsEvent)
    ensures Silent in Notes(s, e) <==> Cause(s.state, e)
  {
  }

  predicate Raised(e: DsEvent) {
    e != EvInit && e != EvComErr
  }

  lemma FaultRaises(s: Ds, e: DsEvent)
    ensures Raised(RaiseFault(s, e).next)
  {
    match e
    case EvFaultId =>
    case EvFaultSize =>
    case EvFaultUl =>
    case EvFaultDl =>
    case EvFaultLock =>
    case _ =>
  }

  lemma ActRaises(s: Ds, a: Action, e: DsEvent, from: DsState)
    ensures Raised(Act(s, a, e, from).next)
  {
    match a
    case ActFault => FaultRaises(s, e);
    case ActUpload => match e { case EvDoUpload => case EvReadDone => case _ => }
    case _ =>
  }

  lemma FireRaises(s: Ds, e: DsEvent)
    ensures Raised(Fire(s, e).next)
  {
    match Lookup(s.state, e)
    case None =>
    case Some(t) => ActRaises(s.(state := t.next), t.action, e, s.state);
  }

  function HandleNotes(s: Ds, e: DsEvent): seq<Note>
    decreases Rank(s.state, e)
  {
    FireRanks(s, e);
    var o := Fire(s, e);
    if o.next == EvNone then Notes(s, e) else Notes(s, e) + HandleNotes(o.s, o.next)
  }

  lemma Joined(a: seq<Note>, b: seq<Note>, c: seq<Note>)
    ensures (a + b) + c == a + (b + c)
  {
  }

  lemma {:induction false} HandleAppends(s: Ds, e: DsEvent)
    ensures Handle(s, e).h.log == s.h.log + HandleNotes(s, e)
    decreases Rank(s.state, e)
  {
    FireRanks(s, e);
    FireLogs(s, e);
    var o := Fire(s, e);
    if o.next != EvNone {
      HandleAppends(o.s, o.next);
      Joined(s.h.log, Notes(s, e), HandleNotes(o.s, o.next));
    }
  }

  lemma {:induction false} HandleSilent(s: Ds, e: DsEvent)
    ensures Silent in HandleNotes(s, e) <==> Cause(s.state, e)
    decreases Rank(s.state, e)
  {
    FireRanks(s, e);
    FireRaises(s, e);
    NotesSilent(s, e);
    var o := Fire(s, e);
    if o.next != EvNone { HandleSilent(o.s, o.next); }
  }

  lemma HandleLogs(s: Ds, e: DsEvent)
    ensures Handle(s, e).h.log == s.h.log + HandleNotes(s, e)
    ensures Silent in HandleNotes(s, e) <==> Cause(s.state, e)
  {
    HandleAppends(s, e);
    HandleSilent(s, e);
  }

  /** The log grows, by no silent end. */
  predicate Quiet(s: Ds, t: Ds) {
    && |s.h.log| <= |t.h.log| && t.h.log[..|s.h.log|] == s.h.log
    && Silent !in t.h.log[|s.h.log|..]
  }

  lemma HandleQuiet(s: Ds, e: DsEvent)
    ensures Quiet(s, Handle(s, e)) <==> !Cause(s.state, e)
  {
    HandleLogs(s, e);
    assert Handle(s, e).h.log[|s.h.log|..] == HandleNotes(s, e);
  }

  lemma QuietThenQuiet(s: Ds, t: Ds, u: Ds)
    requires Quiet(s, t) && Quiet(t, u)
    ensures Quiet(s, u)
  {
    assert u.h.log[..|s.h.log|] == u.h.log[..|t.h.log|][..|s.h.log|];
    assert u.h.log[|s.h.log|..] == t.h.log[|s.h.log|..] + u.h.log[|t.h.log|..];
  }

  lemma IdentityQuiet(s: Ds, error: AlError, len: byte, buf: seq<byte>)
    requires error != ErrCom && s.state == CheckIdentity
    ensures Quiet(s, ReadCnf(s, error, len, buf))
  {
    HandleQuiet(s, EvFaultId);
    HandleQuiet(s.(dev := s.dev.(size_max := U32(buf))), EvPassed);
  }

  lemma SizeQuiet(s: Ds, error: AlError, len: byte, buf: seq<byte>)
    requires error != ErrCom && s.state == CheckMemSize
    ensures Quiet(s, ReadCnf(s, error, len, buf))
  {
    HandleQuiet(s, EvFaultSize);
    HandleQuiet(s.(dev := s.dev.(state_property := Octet(buf, 0))), EvPassed);
  }

  lemma ReadQuiet(s: Ds, error: AlError, len: byte, buf: seq<byte>)
    requires error != ErrCom
    ensures Quiet(s, ReadCnf(s, error, len, buf))
  {
    match s.state
    case CheckIdentity => IdentityQuiet(s, error, len, buf);
    case CheckMemSize => SizeQuiet(s, error, len, buf);
    case ReadParameter =>
      HandleQuiet(s, EvDevErr);
      assert ParameterRead(s, len, buf).h.log == s.h.log && ParameterRead(s, len, buf).state == s.state;
      HandleQuiet(ParameterRead(s, len, buf), EvReadDone);
    case CheckUpload => ChecksumQuiet(s, len, buf, EvNoUpload);
    case StoreDataSet => ChecksumQuiet(s, len, buf, EvNone);
    case DownloadDone => ChecksumQuiet(s, len, buf, EvReady);
    case _ =>
  }

  lemma ChecksumQuiet(s: Ds, len: byte, buf: seq<byte>, e: DsEvent)
    requires s.state != DsFault && e != EvInit && e != EvComErr
    ensures Quiet(s, ChecksumRead(s, len, buf))
    ensures Quiet(s, Handle(ChecksumRead(s, len, buf), e))
  {
    HandleQuiet(s, EvComErr);
    var t := ChecksumRead(s, len, buf);
    HandleQuiet(t, e);
    QuietThenQuiet(s, t, Handle(t, e));
  }

  lemma WriteQuiet(s: Ds)
    ensures Quiet(s, WriteCnf(s, ErrNone))
  {
    match s.state
    case CheckUpload => HandleQuiet(s, EvDoUpload);
    case CheckDSValidity => HandleQuiet(s, EvDoUpload);
    case WriteParameter => HandleQuiet(s, EvWrDone);
    case StoreDataSet => HandleQuiet(Vouched(s), EvUlDone);
    case DecomposeSet => HandleQuiet(s, EvDownload);
    case DsFault =>
      var u := Noted(s, Faulted(s.conf.fault));
      HandleQuiet(u, EvFaultDone);
      QuietThenQuiet(s, u, Handle(u, EvFaultDone));
    case _ =>
  }

  /** For every state and input: an activation ends without a report exactly when
      the port is configured anew before the device's state is known, or when the
      communication fails while the device is told to break off. */
  lemma SilentOnlyForCause(s: Ds, i: Input)
    ensures Quiet(s, Step(s, i)) <==>
      match i
      case InitRequest(_, _) => s.state != CheckIdentity && s.state != CheckMemSize
      case ReadConfirmed(error, _, _) => !(s.state == DsFault && error == ErrCom)
      case WriteConfirmed(error) => !(s.state == DsFault && error != ErrNone)
      case _ => true
  {
    match i
    case ReadConfirmed(error, len, buf) =>
      if error == ErrCom { HandleQuiet(s, EvComErr); } else { ReadQuiet(s, error, len, buf); }
    case WriteConfirmed(error) =>
      if error != ErrNone { HandleQuiet(s, EvComErr); } else { WriteQuiet(s); }
    case Startup(port) => HandleQuiet(WithPort(s, port), EvStartup);
    case UploadRequest(port) => HandleQuiet(WithPort(s, port), EvUpload);
    case DeleteRequest => HandleQuiet(s, EvDelete);
    case InitRequest(backup, id) =>
      HandleQuiet(Reconfigured(s, backup, id), EvInit);
    case ParServ(id, data) =>
  }
  // ---------- activations that do not end ----------

  /** A confirmation that stands for a failure of the communication: every error of
      a write, and the communication error of a read. */
  predicate Fails(i: Input) {
    match i
    case ReadConfirmed(error, _, _) => error == ErrCom
    case WriteConfirmed(error) => error != ErrNone
    case _ => false
  }

  predicate HandlesComErr(state: DsState) {
    || state == DecomposeIl || state == ReadParameter || state == StoreDataSet
    || state == WriteParameter || state == DownloadDone || state == DsFault
  }

  lemma ComErrIgnored(s: Ds)
    requires !HandlesComErr(s.state)
    ensures Handle(s, EvComErr) == s
  {
    assert Lookup(s.state, EvComErr) == None;
  }

  /** Where the table knows a communication error, it leads out of the state. */
  lemma ComErrLeaves(s: Ds)
    requires HandlesComErr(s.state)
    ensures Handle(s, EvComErr).state == if s.state == DsFault then WaitingOnDSActivity else DsFault
  {
    if s.state == DsFault {
      assert Fire(s, EvComErr).next == EvNone;
    } else if s.state == WriteParameter || s.state == DownloadDone {
      assert Fire(s, EvComErr) == Outcome(s.(state := DownloadFault), EvFaultDl);
      assert Handle(s, EvComErr) == Handle(s.(state := DownloadFault), EvFaultDl);
      BreaksOff(s.(state := DownloadFault), EvFaultDl);
    } else {
      assert Fire(s, EvComErr) == Outcome(s.(state := UploadFault), EvFaultUl);
      assert Handle(s, EvComErr) == Handle(s.(state := UploadFault), EvFaultUl);
      BreaksOff(s.(state := UploadFault), EvFaultUl);
    }
  }

  lemma BreaksOff(s: Ds, e: DsEvent)
    requires (s.state == UploadFault && e == EvFaultUl) || (s.state == DownloadFault && e == EvFaultDl)
    ensures Handle(s, e).state == DsFault
  {
    assert Fire(s, e) == RaiseFault(s.(state := DsFault), e);
  }

  /** For every state: a failed confirmation changes nothing at all exactly where the
      table knows no communication error. Of the states that wait for one, these are
      CheckIdentity, CheckMemSize, CheckUpload, CheckDSValidity and DecomposeSet. */
  lemma FailureIgnoredIff(s: Ds, i: Input)
    requires Fails(i)
    ensures Step(s, i) == s <==> !HandlesComErr(s.state)
    ensures HandlesComErr(s.state) ==> Step(s, i).state != s.state || s.state == DsFault
    ensures HandlesComErr(s.state) && s.state == DsFault ==> Step(s, i).state == WaitingOnDSActivity
  {
    if HandlesComErr(s.state) { ComErrLeaves(s); } else { ComErrIgnored(s); }
  }

  predicate Confirmation(i: Input) {
    i.ReadConfirmed? || i.WriteConfirmed?
  }

  /** Where a re-initialisation is heard. */
  predicate HearsInit(state: DsState) {
    state == CheckIdentity || state == CheckMemSize
  }

  lemma UnknownEvent(s: Ds, e: DsEvent)
    requires Lookup(s.state, e) == None
    ensures Handle(s, e) == s
  {
  }

  predicate Unmoved(s: Ds, t: Ds) {
    t.state == s.state && t.h.log == s.h.log
  }

  /** While an activation is under way no request moves it or ends it, except INIT in
      CheckIdentity and CheckMemSize. */
  lemma RequestsMoveIff(s: Ds, i: Input)
    requires Active(s.state) && !Confirmation(i)
    ensures Unmoved(s, Step(s, i)) <==> !(i.InitRequest? && HearsInit(s.state))
  {
    match i
    case Startup(port) => UnknownEvent(WithPort(s, port), EvStartup);
    case UploadRequest(port) => UnknownEvent(WithPort(s, port), EvUpload);
    case DeleteRequest => UnknownEvent(s, EvDelete);
    case InitRequest(backup, id) =>
      var t := Reconfigured(s, backup, id);
      if HearsInit(s.state) { InitEnds(t); } else { UnknownEvent(t, EvInit); }
    case ParServ(id, data) =>
  }

  lemma InitEnds(s: Ds)
    requires HearsInit(s.state)
    ensures |Handle(s, EvInit).h.log| > |s.h.log|
  {
    HandleLogs(s, EvInit);
    assert Silent in HandleNotes(s, EvInit);
  }

  /** So an activation whose service failed in CheckUpload, CheckDSValidity or
      DecomposeSet never ends: with no confirmation outstanding, no sequence of
      requests changes the state or reports anything. */
  lemma {:induction false} FailedActivationNeverEnds(s: Ds, i: Input, inputs: seq<Input>)
    requires Fails(i) && Active(s.state) && !HandlesComErr(s.state) && !HearsInit(s.state)
    requires forall k :: 0 <= k < |inputs| ==> !Confirmation(inputs[k])
    ensures Unmoved(s, Run(Step(s, i), inputs)) && Active(s.state)
  {
    FailureIgnoredIff(s, i);
    if inputs != [] {
      var init := inputs[..|inputs| - 1];
      FailedActivationNeverEnds(s, i, init);
      RequestsMoveIff(Run(Step(s, i), init), inputs[|inputs| - 1]);
    }
  }
}
