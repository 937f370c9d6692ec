/**
 * A flag that stays up: the event memory is read and signalled, the device is told
 * with one write that its events are taken, and only then is it read again.
 */
module DlEventCycles {
  import opened Bytes
  import opened IsduCodec
  import opened DlModel
  import opened DlAccounting
  import opened DlMultiplexer
  import opened DlHistory
  import opened DlEvents
  import opened DlEventRuns

  /** The device keeps its flag up. */
  predicate FlagStays(x: Session, i: Input) {
    LinkUp(x, i) && (i.Device? ==> i.flag)
  }

  predicate FlagStaysRun(x: Session, inputs: seq<Input>) {
    inputs == []
    || (FlagStaysRun(x, inputs[..|inputs| - 1])
        && FlagStays(SessionRun(x, inputs[..|inputs| - 1]), inputs[|inputs| - 1]))
  }

  /** And it answers diagnosis reads from its memory. */
  predicate StaysUp(x: Session, i: Input, mem: Memory) {
    && FlagStays(x, i)
    && (i.Device? ==> forall a :: 0 <= a < EVENT_MEMORY && x.dl.out.wire == Read(a) ==> i.rx[0] == mem[a])
  }

  predicate StaysUpRun(x: Session, inputs: seq<Input>, mem: Memory) {
    inputs == []
    || (StaysUpRun(x, inputs[..|inputs| - 1], mem)
        && StaysUp(SessionRun(x, inputs[..|inputs| - 1]), inputs[|inputs| - 1], mem))
  }

  // ---------- what the device is sent, and what is signalled ----------

  /** The write that gives the events back: one octet, padded to a message. */
  function Taken(od: OdLen): Frame {
    Frame(true, ChDiagnosis, 0, [0x40] + Zeros(od - 1))
  }

  function Cycle(mem: Memory, od: OdLen): (r: seq<Frame>)
    ensures |r| == Length(mem)
  {
    WholePlan(mem) + [Taken(od)]
  }

  function Length(mem: Memory): nat {
    2 + 3 * |InUse(mem)|
  }

  /** Where message number `own` stands in its cycle, and how many cycles are over. */
  function Position(mem: Memory, own: nat): (p: nat)
    ensures p < Length(mem)
  {
    if own < Length(mem) then own else Position(mem, own - Length(mem))
  }

  function Rounds(mem: Memory, own: nat): nat {
    if own < Length(mem) then 0 else Rounds(mem, own - Length(mem)) + 1
  }

  lemma {:induction false} NextPosition(mem: Memory, own: nat)
    ensures var last := Position(mem, own) + 1 == Length(mem);
            && Position(mem, own + 1) == (if last then 0 else Position(mem, own) + 1)
            && Rounds(mem, own + 1) == Rounds(mem, own) + One(last)
  {
    if own >= Length(mem) { NextPosition(mem, own - Length(mem)); }
  }

  /** The first `own` messages: cycle after cycle. */
  function Frames(mem: Memory, od: OdLen, own: nat): (r: seq<Frame>)
    ensures |r| == own
  {
    if own == 0 then [] else Frames(mem, od, own - 1) + [Cycle(mem, od)[Position(mem, own - 1)]]
  }

  function Inds(log: seq<Primitive>): seq<Primitive> {
    if log == [] then []
    else
      var p := log[|log| - 1];
      Inds(log[..|log| - 1]) + (if p.EventInd? then [p] else [])
  }

  function Repeated(a: seq<Primitive>, n: nat): seq<Primitive> {
    if n == 0 then [] else Repeated(a, n - 1) + a
  }

  lemma {:induction false} IndsAppend(a: seq<Primitive>, b: seq<Primitive>)
    ensures Inds(a + b) == Inds(a) + Inds(b)
  {
    if b == [] {
      assert a + b == a;
    } else {
      var init := b[..|b| - 1];
      IndsAppend(a, init);
      assert (a + b)[..|a + b| - 1] == a + init;
    }
  }

  lemma {:induction false} NoInds(log: seq<Primitive>)
    requires NoEvents(log)
    ensures Inds(log) == []
  {
    if log != [] { NoInds(log[..|log| - 1]); }
  }

  lemma {:induction false} AllInds(log: seq<Primitive>)
    requires forall k :: 0 <= k < |log| ==> log[k].EventInd?
    ensures Inds(log) == log
  {
    if log != [] { AllInds(log[..|log| - 1]); }
  }

  lemma TailInds(log: seq<Primitive>, tail: seq<Primitive>)
    requires EndsWith(log, tail) && forall k :: 0 <= k < |tail| ==> tail[k].EventInd?
    ensures Inds(log) == tail
  {
    var n := |log| - |tail|;
    assert log == log[..n] + tail;
    IndsAppend(log[..n], tail);
    NoInds(log[..n]);
    AllInds(tail);
  }

  // ---------- the confirmation is due, or just sent ----------

  predicate FlagUp(z: Session) {
    && MuxInv(z) && z.dl.od.state != OdIsdu1 && z.dl.ev.event_flag && z.dl.ev.active && !z.dl.com_lost
    && z.dl.ev.state == EhIdle1
  }

  predicate Due(z: Session) {
    FlagUp(z) && z.dl.ev.event_confirmation && !DlEvents.Asked(z)
  }

  predicate JustSent(z: Session) {
    FlagUp(z) && !z.dl.ev.event_confirmation && DlEvents.Asked(z)
  }

  lemma CmdKeepsOut(s: Dl)
    ensures var t := CmdSm(s);
            t.ev == s.ev && t.com_lost == s.com_lost && t.od_len == s.od_len
            && t.out.diag == s.out.diag && t.out.log == s.out.log
  {
  }

  lemma CommandAnswered(s: Dl)
    ensures var t := WriteMasterCommand(s, NoError);
            && t.ev == s.ev && t.com_lost == s.com_lost && t.od_len == s.od_len && t.out.diag == s.out.diag
            && Inds(t.out.log) == Inds(s.out.log)
  {
    var mc := s.cmd.master_command;
    IndsAppend(s.out.log, [WriteDevicemodeCnf(mc, NoError)]);
    NoInds([WriteDevicemodeCnf(mc, NoError)]);
  }

  /** Nothing of the Event handler's changes. */
  predicate Aside(s: Dl, t: Dl) {
    && t.ev == s.ev && t.com_lost == s.com_lost && t.od_len == s.od_len && t.out.diag == s.out.diag
    && Inds(t.out.log) == Inds(s.out.log)
  }

  lemma SayAside(s: Dl, p: Primitive)
    requires !p.EventInd?
    ensures Aside(s, Say(s, p))
  {
    IndsAppend(s.out.log, [p]);
    NoInds([p]);
  }

  lemma ParamAside(s: Dl, write: bool, address: nat, value: byte, ready: bool)
    ensures Aside(s, ParamReq(s, write, address, value, ready))
  {
    var t := s.(rwcmd := if write then RwWriteParam else RwReadParam);
    SayAside(t, if write then WriteParamCnf(StateConflict) else ReadParamCnf(0, StateConflict));
    SayAside(t, if write then WriteParamCnf(ValueOutOfRange) else ReadParamCnf(0, ValueOutOfRange));
  }

  lemma ServiceAside(s: Dl, i: Input)
    requires i.IsduRequest? || i.Control? || i.Abort? || i.TimerExpires? || (i.Devicemode? && s.mode != MdStartup2)
    ensures Aside(s, Step(s, i))
  {
    match i
    case Control(code) => CmdKeepsOut(s.(cmd := s.cmd.(control_code := code)));
    case Devicemode(m) =>
      var t := s.(cmd := s.cmd.(master_command := DevicemodeCommand(m), control_code := CcDevicemode));
      CmdKeepsOut(t);
      SayAside(CmdSm(t), WriteDevicemodeCnf(MASTERCMD_FALLBACK, NoError));
    case _ =>
  }

  lemma CallAside(x: Session, i: Input)
    requires LinkUp(x, i) && !i.Master? && !i.Device?
    ensures Aside(x.dl, Step(x.dl, i))
  {
    match i
    case Param(write, address, value, ready) => ParamAside(x.dl, write, address, value, ready);
    case _ => ServiceAside(x.dl, i);
  }

  // ---------- one step ----------

  /** The handler's own message while the confirmation is due: the write, and no more. */
  lemma ConfirmationSent(z: Session)
    requires Due(z) && OwnRead(z, Master) && !z.awaiting
    ensures var y := SessionStep(z, Master);
            && JustSent(y) && y.dl.od_len == z.dl.od_len
            && y.dl.out.diag == z.dl.out.diag + [Taken(z.dl.od_len)] && y.dl.out.log == z.dl.out.log
  {
    MasterStep(z);
    assert Pad([EVENT_CONFIRM_OCTET], z.dl.od_len) == [0x40] + Zeros(z.dl.od_len - 1);
  }

  lemma DueStays(z: Session, i: Input)
    requires Due(z) && FlagStays(z, i) && !OwnRead(z, i)
    ensures Due(SessionStep(z, i)) && Aside(z.dl, SessionStep(z, i).dl)
  {
    if i.Master? {
      MasterStep(z);
      CmdKeepsOut(Triggered(z.dl, i));
    } else if i.Device? {
      DeviceStep(z, i.flag, i.rx);
      CommandAnswered(Rest(Triggered(z.dl, i)));
    } else {
      ServiceStep(z, i);
      CallAside(z, i);
    }
  }

  /** Its answer opens the next reading. */
  lemma SentStays(z: Session, i: Input)
    requires JustSent(z) && FlagStays(z, i)
    ensures var y := SessionStep(z, i);
            && !OwnRead(z, i) && Aside(z.dl, y.dl)
            && (if i.Device? then FlagRaised(y) else JustSent(y))
  {
    if i.Device? {
      DeviceStep(z, i.flag, i.rx);
    } else if !i.Master? {
      ServiceStep(z, i);
      CallAside(z, i);
    }
  }

  // ---------- the confirmation, whatever was signalled ----------

  /** It is given, and the handler is free for the next reading. */
  predicate Open(z: Session) {
    FlagUp(z) && !z.dl.ev.event_confirmation && !DlEvents.Asked(z)
  }

  predicate Shared(z: Session) {
    MuxInv(z) && z.dl.od.state != OdIsdu1 && z.dl.ev.event_flag && z.dl.ev.active
  }

  /** Only the handler's own messages are sent on its channel. */
  lemma OthersSendNone(z: Session, i: Input)
    requires Shared(z) && FlagStays(z, i) && !OwnRead(z, i)
    ensures Shared(SessionStep(z, i)) && SessionStep(z, i).dl.out.diag == z.dl.out.diag
  {
    if i.Master? {
      MasterStep(z);
      CmdKeepsOut(Triggered(z.dl, i));
    } else if i.Device? {
      DeviceStep(z, i.flag, i.rx);
      AnswerAddsNone(Triggered(z.dl, i));
      EvSmKeeps(Triggered(z.dl, i));
      CommandAnswered(Rest(Triggered(z.dl, i)));
    } else {
      ServiceStep(z, i);
      CallAside(z, i);
    }
  }

  lemma OpenStays(z: Session, i: Input)
    requires Open(z) && FlagStays(z, i) && !OwnRead(z, i)
    ensures Open(SessionStep(z, i))
  {
    if i.Master? {
      MasterStep(z);
      CmdKeepsOut(Triggered(z.dl, i));
    } else if i.Device? {
      DeviceStep(z, i.flag, i.rx);
      CommandAnswered(Rest(Triggered(z.dl, i)));
    } else {
      ServiceStep(z, i);
      CallAside(z, i);
    }
  }

  lemma ReadsAgain(z: Session)
    requires Open(z) && OwnRead(z, Master) && !z.awaiting
    ensures Shared(SessionStep(z, Master))
    ensures SessionStep(z, Master).dl.out.diag == z.dl.out.diag + [Read(0)]
  {
    MasterStep(z);
  }

  /** After that many messages of the handler. */
  predicate Confirming(x: Session, own: nat, y: Session) {
    var sent := y.dl.out.diag;
    && Shared(y)
    && match own
       case 0 => Due(y) && sent == x.dl.out.diag
       case 1 => (JustSent(y) || Open(y)) && sent == x.dl.out.diag + [Taken(x.dl.od_len)]
       case _ => sent == x.dl.out.diag + [Taken(x.dl.od_len), Read(0)]
  }

  lemma ConfirmingStep(x: Session, own: nat, y: Session, i: Input)
    requires Confirming(x, own, y) && FlagStays(y, i) && own + One(OwnRead(y, i)) <= 2
    requires y.dl.od_len == x.dl.od_len
    ensures Confirming(x, own + One(OwnRead(y, i)), SessionStep(y, i))
  {
    if own == 0 {
      if OwnRead(y, i) { ConfirmationSent(y); } else { DueStays(y, i); }
    } else if own == 1 && JustSent(y) {
      SentStays(y, i);
    } else if own == 1 && OwnRead(y, i) {
      ReadsAgain(y);
    } else if own == 1 {
      OpenStays(y, i);
    }
    if !OwnRead(y, i) { OthersSendNone(y, i); }
  }

  lemma StepKeepsLen(z: Session, i: Input)
    requires LinkUp(z, i)
    ensures SessionStep(z, i).dl.od_len == z.dl.od_len
  {
    if i.Master? || i.Device? {
      OdSmStep(Triggered(z.dl, i));
      IsduSmStep(Triggered(z.dl, i));
    } else {
      CallAside(z, i);
    }
  }

  /** Whatever was signalled, of either type, and under every interleaving: the next
      message of the event handler is one write to the diagnosis channel, address 0,
      which takes the confirmation back; the one after it starts the next reading. */
  lemma {:induction false} ConfirmationIsWritten(x: Session, inputs: seq<Input>)
    requires Due(x) && FlagStaysRun(x, inputs) && OwnReads(x, inputs) <= 2
    ensures Confirming(x, OwnReads(x, inputs), SessionRun(x, inputs))
    ensures SessionRun(x, inputs).dl.od_len == x.dl.od_len
  {
    if inputs != [] {
      var init, i := inputs[..|inputs| - 1], inputs[|inputs| - 1];
      ConfirmationIsWritten(x, init);
      ConfirmingStep(x, OwnReads(x, init), SessionRun(x, init), i);
      StepKeepsLen(SessionRun(x, init), i);
    }
  }

  // ---------- cycle after cycle ----------

  predicate InReading(z: Session, mem: Memory, p: nat) {
    ReaderInv(z, mem) && !z.dl.ev.event_confirmation && |z.dl.out.diag| == p
  }

  predicate InDue(z: Session, mem: Memory, p: nat) {
    Due(z) && z.dl.out.diag == WholePlan(mem) && Inds(z.dl.out.log) == Signals(mem) && p == |WholePlan(mem)|
  }

  predicate InSent(z: Session, p: nat) {
    JustSent(z) && z.dl.out.diag == [] && NoEvents(z.dl.out.log) && p == 0
  }

  /** Where the current cycle stands, its own messages and signals counted from its start. */
  predicate InCycle(z: Session, mem: Memory, p: nat) {
    InReading(z, mem, p) || InDue(z, mem, p) || InSent(z, p)
  }

  /** Since x: what was sent, and what the cycles before have signalled. */
  predicate Recorded(x: Out, h: Out, diag: seq<Frame>, mem: Memory, od: OdLen, own: nat) {
    && h.diag + diag == x.diag + Frames(mem, od, own)
    && Inds(h.log) == Inds(x.log) + Repeated(Signals(mem), Rounds(mem, own))
  }

  predicate Follows(x: Session, h: Out, z: Session, mem: Memory, own: nat) {
    && InCycle(z, mem, Position(mem, own)) && z.dl.od_len == x.dl.od_len
    && Recorded(x.dl.out, h, z.dl.out.diag, mem, x.dl.od_len, own)
  }

  /** A reading sends the next frame of its plan, or nothing. */
  lemma ReadingRecorded(x: Out, h: Out, diag: seq<Frame>, next: seq<Frame>, mem: Memory, od: OdLen, own: nat, sent: bool)
    requires Recorded(x, h, diag, mem, od, own) && Position(mem, own) == |diag|
    requires sent ==> |diag| < |WholePlan(mem)|
    requires next == diag + if sent then [WholePlan(mem)[|diag|]] else []
    ensures Recorded(x, h, next, mem, od, own + One(sent)) && Position(mem, own + One(sent)) == |next|
  {
    if sent {
      NextPosition(mem, own);
      var f := Cycle(mem, od)[|diag|];
      assert next == diag + [f];
      assert h.diag + next == (h.diag + diag) + [f];
    }
  }

  lemma OneMoreRound(log: seq<Primitive>, a: seq<Primitive>, n: nat)
    ensures (log + Repeated(a, n)) + a == log + Repeated(a, n + 1)
  {
  }

  /** The write ends the cycle: all of it becomes history. */
  lemma CycleRecorded(x: Out, h: Out, diag: seq<Frame>, log: seq<Primitive>, k: Out, mem: Memory, od: OdLen, own: nat)
    requires Recorded(x, h, diag, mem, od, own) && Position(mem, own) + 1 == Length(mem)
    requires Inds(log) == Signals(mem) && k.diag == h.diag + (diag + [Taken(od)]) && k.log == h.log + log
    ensures Recorded(x, k, [], mem, od, own + 1) && Position(mem, own + 1) == 0
  {
    NextPosition(mem, own);
    IndsAppend(h.log, log);
    OneMoreRound(Inds(x.log), Signals(mem), Rounds(mem, own));
    LastFrame(x.diag, h.diag, diag, mem, od, own);
    assert k.diag + [] == k.diag;
  }

  lemma LastFrame(x: seq<Frame>, h: seq<Frame>, diag: seq<Frame>, mem: Memory, od: OdLen, own: nat)
    requires h + diag == x + Frames(mem, od, own) && Position(mem, own) + 1 == Length(mem)
    ensures h + (diag + [Taken(od)]) == x + Frames(mem, od, own + 1)
  {
    assert h + (diag + [Taken(od)]) == (h + diag) + [Taken(od)];
  }

  lemma ReaderStep(z: Session, i: Input, mem: Memory)
    requires ReaderInv(z, mem) && Serves(z, i, mem) && Details(mem[0]) && |InUse(mem)| > 0
    ensures ReaderInv(SessionStep(z, i), mem)
  {
    match i
    case Master => MasterReads(z, mem);
    case Device(flag, rx) => DeviceServes(z, mem, rx);
    case _ =>
      ServiceStep(z, i);
      ServiceKeepsReader(z, i);
      SameReading(z.dl, SessionStep(z, i).dl, mem, DlEvents.Asked(z));
  }

  lemma PrefixGrows(a: seq<Frame>, b: seq<Frame>, plan: seq<Frame>)
    requires a <= plan && b <= plan && |a| <= |b| <= |a| + 1
    ensures b == a + if |b| > |a| then [plan[|a|]] else []
  {
  }

  lemma SignalledAtTheEnd(z: Session, mem: Memory)
    requires ReaderInv(z, mem) && InUse(mem) != []
    ensures z.dl.out.diag <= WholePlan(mem)
    ensures z.dl.ev.event_confirmation ==>
      Due(z) && z.dl.out.diag == WholePlan(mem) && Inds(z.dl.out.log) == Signals(mem)
  {
    ReadsArePrefix(z.dl, mem, DlEvents.Asked(z));
    if z.dl.ev.event_confirmation { TailInds(z.dl.out.log, Signals(mem)); }
  }

  /** A reading goes on, by the next frame of the plan, or has just been signalled. */
  lemma ReadingGoesOn(z: Session, i: Input, mem: Memory)
    requires ReaderInv(z, mem) && !z.dl.ev.event_confirmation
    requires StaysUp(z, i, mem) && Details(mem[0]) && InUse(mem) != []
    ensures var y := SessionStep(z, i);
            && InCycle(y, mem, |y.dl.out.diag|) && |y.dl.out.diag| <= |WholePlan(mem)|
            && y.dl.out.diag == z.dl.out.diag + if OwnRead(z, i) then [WholePlan(mem)[|z.dl.out.diag|]] else []
  {
    var y := SessionStep(z, i);
    ReaderStep(z, i, mem);
    ReadCounts(z, i, mem);
    SignalledAtTheEnd(z, mem);
    SignalledAtTheEnd(y, mem);
    PrefixGrows(z.dl.out.diag, y.dl.out.diag, WholePlan(mem));
  }

  lemma ReadingFollows(x: Session, h: Out, z: Session, mem: Memory, own: nat, i: Input)
    requires Follows(x, h, z, mem, own) && StaysUp(z, i, mem) && Details(mem[0]) && InUse(mem) != []
    requires InReading(z, mem, Position(mem, own))
    ensures Follows(x, h, SessionStep(z, i), mem, own + One(OwnRead(z, i)))
  {
    var y, sent := SessionStep(z, i), OwnRead(z, i);
    assert InCycle(y, mem, |y.dl.out.diag|) && y.dl.od_len == z.dl.od_len by {
      ReadingGoesOn(z, i, mem);
      StepKeepsLen(z, i);
    }
    assert Recorded(x.dl.out, h, y.dl.out.diag, mem, x.dl.od_len, own + One(sent))
        && Position(mem, own + One(sent)) == |y.dl.out.diag| by {
      ReadingGoesOn(z, i, mem);
      ReadingRecorded(x.dl.out, h, z.dl.out.diag, y.dl.out.diag, mem, x.dl.od_len, own, sent);
    }
  }

  lemma ForgottenSent(y: Session)
    requires JustSent(y)
    ensures JustSent(ForgottenSession(y))
  {
  }

  lemma CycleEnds(x: Session, h: Out, z: Session, mem: Memory, own: nat)
    requires Follows(x, h, z, mem, own) && Due(z) && OwnRead(z, Master) && !z.awaiting
    requires z.dl.out.diag == WholePlan(mem) && Inds(z.dl.out.log) == Signals(mem) && Position(mem, own) == |WholePlan(mem)|
    ensures var y := Behind(h, SessionStep(z, Master));
            Follows(x, y.dl.out, ForgottenSession(y), mem, own + 1)
  {
    ConfirmationSent(z);
    StepKeepsLen(z, Master);
    var y := Behind(h, SessionStep(z, Master));
    CycleRecorded(x.dl.out, h, z.dl.out.diag, z.dl.out.log, y.dl.out, mem, x.dl.od_len, own);
    ForgottenSent(y);
  }

  lemma DueFollows(x: Session, h: Out, z: Session, mem: Memory, own: nat, i: Input)
    requires Follows(x, h, z, mem, own) && FlagStays(z, i) && !OwnRead(z, i)
    requires InDue(z, mem, Position(mem, own))
    ensures Follows(x, h, SessionStep(z, i), mem, own)
  {
    StepKeepsLen(z, i);
    DueStays(z, i);
  }

  lemma SentFollows(x: Session, h: Out, z: Session, mem: Memory, own: nat, i: Input)
    requires Follows(x, h, z, mem, own) && FlagStays(z, i) && InSent(z, Position(mem, own))
    ensures Follows(x, h, SessionStep(z, i), mem, own) && !OwnRead(z, i)
  {
    StepKeepsLen(z, i);
    SentStays(z, i);
    SentInCycle(z, i, mem);
  }

  lemma SentInCycle(z: Session, i: Input, mem: Memory)
    requires FlagStays(z, i) && JustSent(z) && z.dl.out.diag == [] && NoEvents(z.dl.out.log)
    ensures InCycle(SessionStep(z, i), mem, 0) && SessionStep(z, i).dl.out.diag == []
  {
    SentStays(z, i);
    SentLogs(z, i);
  }

  lemma SentLogs(z: Session, i: Input)
    requires FlagStays(z, i) && JustSent(z) && NoEvents(z.dl.out.log)
    ensures NoEvents(SessionStep(z, i).dl.out.log)
  {
    if i.Device? {
      DeviceStep(z, i.flag, i.rx);
    } else if !i.Master? {
      ServiceKeepsReader(z, i);
    }
  }

  /** With the confirmation a new cycle starts, from an empty history. */
  lemma CycleTurns(x: Session, h: Out, z: Session, mem: Memory, own: nat, y: Session)
    requires Follows(x, h, z, mem, own) && InDue(z, mem, Position(mem, own)) && OwnRead(z, Master)
    requires y == Behind(h, SessionStep(z, Master))
    ensures Follows(x, y.dl.out, ForgottenSession(y), mem, own + 1) && Behind(y.dl.out, ForgottenSession(y)) == y
  {
    CycleEnds(x, h, z, mem, own);
    AfterForgotten(y.dl);
  }

  lemma CycleStep(x: Session, h: Out, z: Session, mem: Memory, own: nat, i: Input) returns (k: Out, w: Session)
    requires Follows(x, h, z, mem, own) && StaysUp(z, i, mem) && Details(mem[0]) && InUse(mem) != []
    ensures Follows(x, k, w, mem, own + One(OwnRead(z, i))) && Behind(k, w) == Behind(h, SessionStep(z, i))
  {
    var p := Position(mem, own);
    if InReading(z, mem, p) {
      ReadingFollows(x, h, z, mem, own, i);
      k, w := h, SessionStep(z, i);
    } else if InSent(z, p) {
      SentFollows(x, h, z, mem, own, i);
      k, w := h, SessionStep(z, i);
    } else if OwnRead(z, i) {
      var y := Behind(h, SessionStep(z, i));
      CycleTurns(x, h, z, mem, own, y);
      k, w := y.dl.out, ForgottenSession(y);
    } else {
      DueFollows(x, h, z, mem, own, i);
      k, w := h, SessionStep(z, i);
    }
  }

  lemma StaysUpBehind(h: Out, z: Session, i: Input, mem: Memory)
    ensures SessionStep(Behind(h, z), i) == Behind(h, SessionStep(z, i))
    ensures StaysUp(Behind(h, z), i, mem) <==> StaysUp(z, i, mem)
    ensures OwnRead(Behind(h, z), i) <==> OwnRead(z, i)
  {
    StepBehind(h, z, i, mem);
  }

  lemma CyclesStart(x: Session, mem: Memory)
    requires FlagRaised(x)
    ensures Follows(x, x.dl.out, ForgottenSession(x), mem, 0) && Behind(x.dl.out, ForgottenSession(x)) == x
  {
    AfterForgotten(x.dl);
    assert Frames(mem, x.dl.od_len, 0) == [];
  }

  predicate Stands(x: Session, h: Out, z: Session, mem: Memory, own: nat, y: Session) {
    y == Behind(h, z) && Follows(x, h, z, mem, own)
  }

  lemma StandsOn(x: Session, h: Out, z: Session, mem: Memory, own: nat, y: Session, i: Input) returns (k: Out, w: Session)
    requires Stands(x, h, z, mem, own, y) && StaysUp(y, i, mem) && Details(mem[0]) && InUse(mem) != []
    ensures Stands(x, k, w, mem, own + One(OwnRead(y, i)), SessionStep(y, i))
  {
    StaysUpBehind(h, z, i, mem);
    k, w := CycleStep(x, h, z, mem, own, i);
  }

  lemma StandsAfter(
    x: Session, h: Out, z: Session, mem: Memory, own: nat, y: Session, i: Input, next: nat, t: Session)
    returns (k: Out, w: Session)
    requires Stands(x, h, z, mem, own, y) && StaysUp(y, i, mem) && Details(mem[0]) && InUse(mem) != []
    requires t == SessionStep(y, i) && next == own + One(OwnRead(y, i))
    ensures Stands(x, k, w, mem, next, t)
  {
    k, w := StandsOn(x, h, z, mem, own, y, i);
  }

  lemma {:induction false} CyclesFollow(x: Session, mem: Memory, inputs: seq<Input>) returns (h: Out, z: Session)
    requires FlagRaised(x) && StaysUpRun(x, inputs, mem) && Details(mem[0]) && InUse(mem) != []
    ensures Stands(x, h, z, mem, OwnReads(x, inputs), SessionRun(x, inputs))
  {
    if inputs == [] {
      h, z := x.dl.out, ForgottenSession(x);
      CyclesStart(x, mem);
    } else {
      var init := inputs[..|inputs| - 1];
      h, z := CyclesFollow(x, mem, init);
      h, z := StandsAfter(x, h, z, mem, OwnReads(x, init), SessionRun(x, init), inputs[|inputs| - 1],
                          OwnReads(x, inputs), SessionRun(x, inputs));
    }
  }

  /** After `own` messages of the event handler since x. */
  predicate ConfirmedInTurn(x: Session, mem: Memory, own: nat, y: Session) {
    var ended := Position(mem, own) == |WholePlan(mem)| && !DlEvents.Asked(y);
    && y.dl.out.diag == x.dl.out.diag + Frames(mem, x.dl.od_len, own)
    && Inds(y.dl.out.log) == Inds(x.dl.out.log) + Repeated(Signals(mem), Rounds(mem, own) + One(ended))
    && (y.dl.ev.event_confirmation <==> ended)
  }

  lemma ToldSoFar(x: Session, h: Out, z: Session, mem: Memory, own: nat)
    requires Follows(x, h, z, mem, own) && InUse(mem) != []
    ensures ConfirmedInTurn(x, mem, own, Behind(h, z))
  {
    IndsAppend(h.log, z.dl.out.log);
    var p := Position(mem, own);
    if InReading(z, mem, p) {
      ReadsArePrefix(z.dl, mem, DlEvents.Asked(z));
      NoInds(z.dl.out.log);
    } else if InSent(z, p) {
      NoInds(z.dl.out.log);
    } else {
      OneMoreRound(Inds(x.dl.out.log), Signals(mem), Rounds(mem, own));
    }
  }

  /** From a raised flag that stays up, under every interleaving: the messages of the
      event handler are the plan, one confirming write, the plan, and so on; what is
      signalled is the contents of the slots in use, once for each plan that was read
      to its end. */
  lemma EventsConfirmedInTurn(x: Session, mem: Memory, inputs: seq<Input>)
    requires FlagRaised(x) && StaysUpRun(x, inputs, mem) && Details(mem[0]) && InUse(mem) != []
    ensures ConfirmedInTurn(x, mem, OwnReads(x, inputs), SessionRun(x, inputs))
  {
    var h, z := CyclesFollow(x, mem, inputs);
    ToldSoFar(x, h, z, mem, OwnReads(x, inputs));
  }
}
