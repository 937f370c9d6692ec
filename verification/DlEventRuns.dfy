/**
 * The event memory is read to its end: from the moment the flag is raised, in any
 * run and behind any history, the number of messages the event handler has had
 * says exactly what was read, and when the events are signalled.
 */
module DlEventRuns {
  import opened Bytes
  import opened IsduCodec
  import opened DlModel
  import opened DlAccounting
  import opened DlMultiplexer
  import opened DlHistory
  import opened DlEvents

  /** The flag was just raised, no event is waiting for its confirmation. */
  predicate FlagRaised(x: Session) {
    && MuxInv(x) && x.dl.od.state == OdEvent3 && !x.awaiting
    && x.dl.ev.active && !x.dl.com_lost
    && x.dl.ev.state == EhIdle1 && !x.dl.ev.event_confirmation
  }

  /** A message of the event handler. */
  predicate OwnRead(x: Session, i: Input) {
    i.Master? && x.dl.od.state == OdEvent3 && x.dl.od.active && x.dl.ev.event_flag
    && x.dl.cmd.control_code == CcNone
  }

  function OwnReads(x: Session, inputs: seq<Input>): nat {
    if inputs == [] then 0
    else
      var init := inputs[..|inputs| - 1];
      OwnReads(x, init) + One(OwnRead(SessionRun(x, init), inputs[|inputs| - 1]))
  }

  // ---------- behind any history ----------

  function Behind(h: Out, z: Session): Session {
    z.(dl := After(h, z.dl))
  }

  lemma StepBehind(h: Out, z: Session, i: Input, mem: Memory)
    ensures SessionStep(Behind(h, z), i) == Behind(h, SessionStep(z, i))
    ensures Serves(Behind(h, z), i, mem) <==> Serves(z, i, mem)
    ensures OwnRead(Behind(h, z), i) <==> OwnRead(z, i)
  {
    StepIgnoresHistory(h, z.dl, i);
  }

  lemma {:induction false} ReadingAddsToHistory(x: Session, inputs: seq<Input>, mem: Memory)
    ensures SessionRun(x, inputs) == Behind(x.dl.out, SessionRun(ForgottenSession(x), inputs))
    ensures ServesRun(x, inputs, mem) <==> ServesRun(ForgottenSession(x), inputs, mem)
    ensures OwnReads(x, inputs) == OwnReads(ForgottenSession(x), inputs)
  {
    AfterForgotten(x.dl);
    if inputs != [] {
      var init := inputs[..|inputs| - 1];
      ReadingAddsToHistory(x, init, mem);
      StepBehind(x.dl.out, SessionRun(ForgottenSession(x), init), inputs[|inputs| - 1], mem);
    }
  }

  // ---------- every message reads ----------

  lemma ReadAdded(s: Dl, mem: Memory)
    requires Reader(s, mem, false) && !s.ev.event_confirmation
    requires s.ev.active && !s.com_lost && s.od.trigger == TrigMaster
    ensures |EvSm(s).out.diag| == |s.out.diag| + 1
  {
  }

  lemma AnswerAddsNone(s: Dl)
    requires s.od.trigger == TrigDevice
    ensures EvSm(s).out.diag == s.out.diag
  {
  }

  lemma MasterReadCounts(x: Session, mem: Memory)
    requires ReaderInv(x, mem) && Serves(x, Master, mem)
    ensures |SessionStep(x, Master).dl.out.diag| == |x.dl.out.diag| + One(OwnRead(x, Master))
  {
    var s := Triggered(x.dl, Master);
    if !CommandDue(s) {
      SameReading(x.dl, s, mem, false);
      ReadAdded(s, mem);
    }
  }

  lemma ReadCounts(x: Session, i: Input, mem: Memory)
    requires ReaderInv(x, mem) && Serves(x, i, mem)
    ensures |SessionStep(x, i).dl.out.diag| == |x.dl.out.diag| + One(OwnRead(x, i))
  {
    if i.Master? {
      MasterReadCounts(x, mem);
    } else if i.Device? {
      var s := Triggered(x.dl, i);
      AnswerAddsNone(s);
      WriteMasterCommandKeeps(Rest(s), NoError);
    } else {
      ServiceKeepsReader(x, i);
    }
  }

  lemma {:induction false} ReadsAreCounted(x: Session, mem: Memory, inputs: seq<Input>)
    requires ReaderInv(x, mem) && ServesRun(x, inputs, mem) && Details(mem[0]) && |InUse(mem)| > 0
    ensures |SessionRun(x, inputs).dl.out.diag| == |x.dl.out.diag| + OwnReads(x, inputs)
  {
    if inputs != [] {
      var init := inputs[..|inputs| - 1];
      ReadsAreCounted(x, mem, init);
      ReaderInvariant(x, mem, init);
      ReadCounts(SessionRun(x, init), inputs[|inputs| - 1], mem);
    }
  }

  // ---------- the theorem ----------

  function WholePlan(mem: Memory): (r: seq<Frame>)
    ensures |r| == 1 + 3 * |InUse(mem)|
  {
    PlanLength(InUse(mem), |InUse(mem)|, 0);
    Plan(InUse(mem), |InUse(mem)|, 0)
  }

  /** After `own` messages of the event handler: that many reads of the plan, never
      more than it holds. The events are signalled when the last read is answered
      and not before; what is signalled is the contents of the slots in use, in
      order, and nothing else since the flag was raised. */
  predicate ReadAndSignalled(h: Out, mem: Memory, own: nat, y: Session) {
    var plan, log, signalled := WholePlan(mem), y.dl.out.log, own == |WholePlan(mem)| && !DlEvents.Asked(y);
    && own <= |plan| && y.dl.out.diag == h.diag + plan[..own]
    && (y.dl.ev.event_confirmation <==> signalled)
    && |log| >= |h.log| && log[..|h.log|] == h.log
    && EndsWith(log[|h.log|..], if signalled then Signals(mem) else [])
  }

  lemma ReadSoFar(h: Out, z: Session, mem: Memory, own: nat)
    requires ReaderInv(z, mem) && InUse(mem) != [] && |z.dl.out.diag| == own
    ensures ReadAndSignalled(h, mem, own, Behind(h, z))
  {
    ReadsArePrefix(z.dl, mem, DlEvents.Asked(z));
    var log := h.log + z.dl.out.log;
    assert log[|h.log|..] == z.dl.out.log && log[..|h.log|] == h.log;
    assert z.dl.out.log[..|z.dl.out.log|] == z.dl.out.log;
    assert z.dl.out.diag == WholePlan(mem)[..own];
  }

  /** For every status octet of type 2 with a slot in use and every event memory,
      under every interleaving. */
  lemma EventsReadAndSignalled(x: Session, mem: Memory, inputs: seq<Input>)
    requires FlagRaised(x) && ServesRun(x, inputs, mem)
    requires Details(mem[0]) && InUse(mem) != []
    ensures ReadAndSignalled(x.dl.out, mem, OwnReads(x, inputs), SessionRun(x, inputs))
  {
    var f := ForgottenSession(x);
    ReadingAddsToHistory(x, inputs, mem);
    ReaderInvariant(f, mem, inputs);
    ReadsAreCounted(f, mem, inputs);
    ReadSoFar(x.dl.out, SessionRun(f, inputs), mem, OwnReads(x, inputs));
  }

  // ---------- such a run exists ----------

  /** The device sends the octet it is asked for. */
  function Octet(wire: Frame, mem: Memory): RxBuffer {
    [if wire.addr < EVENT_MEMORY then mem[wire.addr] else 0] + Zeros(RXTX_BUFFER_SIZE - 1)
  }

  /** n exchanges, all the event handler's, with a device that answers from mem. */
  predicate Exchanged(x: Session, r: seq<Input>, mem: Memory, n: nat) {
    && ServesRun(x, r, mem) && OwnReads(x, r) == n
    && var y := SessionRun(x, r);
       && !y.awaiting && MuxInv(y) && y.dl.od.state == OdEvent3 && y.dl.cmd.control_code == CcNone
  }

  ghost predicate CanExchange(x: Session, mem: Memory, n: nat) {
    exists r :: Exchanged(x, r, mem, n)
  }

  lemma ReadStep(x: Session, i: Input)
    requires MuxInv(x) && LinkUp(x, i) && (i.Master? || (i.Device? && i.flag))
    requires x.dl.od.state == OdEvent3 && x.dl.cmd.control_code == CcNone
    ensures var y := SessionStep(x, i);
            && MuxInv(y) && y.awaiting == i.Master? && y.dl.od.state == OdEvent3
            && y.dl.cmd.control_code == CcNone && OwnRead(x, i) == i.Master?
            && (i.Master? && !x.dl.ev.event_confirmation ==> !y.dl.ev.event_confirmation)
  {
    EvSmKeeps(Triggered(x.dl, i));
  }

  lemma ServedOn(x: Session, r: seq<Input>, i: Input, mem: Memory)
    requires ServesRun(x, r, mem) && Serves(SessionRun(x, r), i, mem)
    ensures ServesRun(x, r + [i], mem)
    ensures SessionRun(x, r + [i]) == SessionStep(SessionRun(x, r), i)
    ensures OwnReads(x, r + [i]) == OwnReads(x, r) + One(OwnRead(SessionRun(x, r), i))
  {
    assert (r + [i])[..|r + [i]| - 1] == r;
  }

  function Exchange(x: Session, r: seq<Input>, mem: Memory): seq<Input> {
    r + [Master] + [Device(true, Octet(SessionRun(x, r + [Master]).dl.out.wire, mem))]
  }

  lemma OneMoreExchange(x: Session, r: seq<Input>, mem: Memory, n: nat)
    requires n > 0 && Exchanged(x, r, mem, n - 1) && !SessionRun(x, r).dl.ev.event_confirmation
    ensures Exchanged(x, Exchange(x, r, mem), mem, n)
  {
    ReadStep(SessionRun(x, r), Master);
    ServedOn(x, r, Master, mem);
    var z := SessionRun(x, r + [Master]);
    var d := Device(true, Octet(z.dl.out.wire, mem));
    ReadStep(z, d);
    ServedOn(x, r + [Master], d, mem);
  }

  lemma CanExchangeOnce(x: Session, r: seq<Input>, mem: Memory, n: nat)
    requires Exchanged(x, r, mem, n)
    ensures CanExchange(x, mem, n)
  {
  }

  lemma {:induction false} ExchangesExist(x: Session, mem: Memory, n: nat)
    requires FlagRaised(x) && x.dl.cmd.control_code == CcNone && n <= 1 + 3 * |InUse(mem)|
    requires Details(mem[0]) && InUse(mem) != []
    ensures CanExchange(x, mem, n)
  {
    if n == 0 {
      CanExchangeOnce(x, [], mem, 0);
    } else {
      ExchangesExist(x, mem, n - 1);
      var r :| Exchanged(x, r, mem, n - 1);
      EventsReadAndSignalled(x, mem, r);
      OneMoreExchange(x, r, mem, n);
      CanExchangeOnce(x, Exchange(x, r, mem), mem, n);
    }
  }

  /** Read to the end and signalled in this run. */
  predicate Completes(x: Session, mem: Memory, r: seq<Input>) {
    && ServesRun(x, r, mem) && OwnReads(x, r) == 1 + 3 * |InUse(mem)|
    && SessionRun(x, r).dl.ev.event_confirmation
    && ReadAndSignalled(x.dl.out, mem, 1 + 3 * |InUse(mem)|, SessionRun(x, r))
  }

  ghost predicate CanComplete(x: Session, mem: Memory) {
    exists r :: Completes(x, mem, r)
  }

  lemma CompletesInTime(x: Session, mem: Memory, r: seq<Input>)
    requires FlagRaised(x) && Details(mem[0]) && InUse(mem) != []
    requires Exchanged(x, r, mem, 1 + 3 * |InUse(mem)|)
    ensures Completes(x, mem, r)
  {
    EventsReadAndSignalled(x, mem, r);
  }

  /** One exchange for the status octet and three for each slot in use do it. */
  lemma EveryMemoryIsRead(x: Session, mem: Memory)
    requires FlagRaised(x) && x.dl.cmd.control_code == CcNone
    requires Details(mem[0]) && InUse(mem) != []
    ensures CanComplete(x, mem)
  {
    ExchangesExist(x, mem, 1 + 3 * |InUse(mem)|);
    var r :| Exchanged(x, r, mem, 1 + 3 * |InUse(mem)|);
    CompletesInTime(x, mem, r);
  }

  // ---------- a status octet that marks no slot ----------

  /** The handler asked for the status octet and has not been given a slot. */
  predicate AwaitsSlot(x: Session) {
    StuckOnStatus(ForgottenSession(x))
  }

  lemma StuckCounts(x: Session, i: Input, mem: Memory)
    requires StuckOnStatus(x) && Serves(x, i, mem)
    ensures |SessionStep(x, i).dl.out.diag| == |x.dl.out.diag| + One(OwnRead(x, i))
  {
    if i.Master? {
    } else if i.Device? {
      AnswerAddsNone(Triggered(x.dl, i));
      WriteMasterCommandKeeps(Rest(Triggered(x.dl, i)), NoError);
    } else {
      ServiceKeepsReader(x, i);
    }
  }

  lemma {:induction false} StuckReadsCounted(x: Session, mem: Memory, inputs: seq<Input>)
    requires StuckOnStatus(x) && ServesRun(x, inputs, mem) && Details(mem[0]) && InUse(mem) == []
    ensures |SessionRun(x, inputs).dl.out.diag| == |x.dl.out.diag| + OwnReads(x, inputs)
  {
    if inputs != [] {
      var init := inputs[..|inputs| - 1];
      StuckReadsCounted(x, mem, init);
      NoSlotReadsStatusForever(x, mem, init);
      StuckCounts(SessionRun(x, init), inputs[|inputs| - 1], mem);
    }
  }

  /** With every message of its own the handler reads the status octet again, and
      nothing is ever signalled. */
  predicate StatusReadAgain(h: Out, own: nat, y: Session) {
    var diag, log := y.dl.out.diag, y.dl.out.log;
    && |diag| == |h.diag| + own && diag[..|h.diag|] == h.diag
    && (forall k :: |h.diag| <= k < |diag| ==> diag[k] == Read(0))
    && |log| >= |h.log| && log[..|h.log|] == h.log && NoEvents(log[|h.log|..])
    && !y.dl.ev.event_confirmation
  }

  lemma StatusReadSoFar(h: Out, z: Session, own: nat)
    requires StuckOnStatus(z) && |z.dl.out.diag| == own
    ensures StatusReadAgain(h, own, Behind(h, z))
  {
    var log := h.log + z.dl.out.log;
    assert log[|h.log|..] == z.dl.out.log;
  }

  lemma StatusReadForever(x: Session, mem: Memory, inputs: seq<Input>)
    requires AwaitsSlot(x) && ServesRun(x, inputs, mem) && Details(mem[0]) && InUse(mem) == []
    ensures StatusReadAgain(x.dl.out, OwnReads(x, inputs), SessionRun(x, inputs))
  {
    var f := ForgottenSession(x);
    ReadingAddsToHistory(x, inputs, mem);
    NoSlotReadsStatusForever(f, mem, inputs);
    StuckReadsCounted(f, mem, inputs);
    StatusReadSoFar(x.dl.out, SessionRun(f, inputs), OwnReads(x, inputs));
  }
}
