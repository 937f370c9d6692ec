/**
 * Reading the event memory of a device. The status octet at address 0 says which
 * of six slots are in use; each slot is three octets, qualifier and event code.
 * The handler walks exactly the slots in use and signals exactly what they hold,
 * however Commands, requests and parameter accesses come in between.
 */
module DlEvents {
  import opened Bytes
  import opened IsduCodec
  import opened DlModel
  import opened DlAccounting
  import opened DlMultiplexer

  const EVENT_MEMORY: nat := 32

  type Memory = m: seq<byte> | |m| == EVENT_MEMORY witness Zeros(EVENT_MEMORY)

  /** The slots below n that a status octet marks, ascending. */
  function Slots(status: byte, n: nat): (r: seq<nat>)
    ensures |r| == SlotCount(status, n) <= n
    ensures forall k :: 0 <= k < |r| ==> r[k] < n
  {
    if n == 0 then []
    else if Bit(status, n - 1) then Slots(status, n - 1) + [n - 1]
    else Slots(status, n - 1)
  }

  function InUse(mem: Memory): (r: seq<nat>)
    ensures |r| <= MAX_EVENTS && forall k :: 0 <= k < |r| ==> r[k] < MAX_EVENTS
  {
    Slots(mem[0], MAX_EVENTS)
  }

  /** Exactly the marked slots, each once and in ascending order. */
  lemma {:induction false} SlotsAreTheMarked(status: byte, n: nat)
    ensures var r := Slots(status, n);
            && (forall i: nat :: i in r <==> i < n && Bit(status, i))
            && (forall j, k :: 0 <= j < k < |r| ==> r[j] < r[k])
  {
    if n > 0 {
      SlotsAreTheMarked(status, n - 1);
      var r, p := Slots(status, n), Slots(status, n - 1);
      assert r == if Bit(status, n - 1) then p + [n - 1] else p;
      assert forall i: nat :: i in r <==> i in p || (i == n - 1 && Bit(status, i));
    }
  }

  function Read(addr: nat): Frame {
    Frame(false, ChDiagnosis, addr, [])
  }

  /** The reads once m slots and c octets of the next are in hand. */
  function Plan(slots: seq<nat>, m: nat, c: nat): seq<Frame>
    requires m <= |slots| && c <= 3 && (m == |slots| ==> c == 0)
    decreases m, c
  {
    if c > 0 then Plan(slots, m, c - 1) + [Read(3 * slots[m] + c)]
    else if m > 0 then Plan(slots, m - 1, 3)
    else [Read(0)]
  }

  lemma {:induction false} PlanLength(slots: seq<nat>, m: nat, c: nat)
    requires m <= |slots| && c <= 3 && (m == |slots| ==> c == 0)
    ensures |Plan(slots, m, c)| == 1 + 3 * m + c && Plan(slots, m, c)[0] == Read(0)
    decreases m, c
  {
    if c > 0 { PlanLength(slots, m, c - 1); } else if m > 0 { PlanLength(slots, m - 1, 3); }
  }

  /** After the status octet, addresses 3i+1, 3i+2, 3i+3 of every slot in turn. */
  lemma {:induction false} PlanAddress(slots: seq<nat>, m: nat, c: nat, j: nat, d: nat)
    requires m <= |slots| && c <= 3 && (m == |slots| ==> c == 0)
    requires j < |slots| && 1 <= d <= 3 && (j < m || (j == m && d <= c))
    ensures |Plan(slots, m, c)| == 1 + 3 * m + c
    ensures Plan(slots, m, c)[3 * j + d] == Read(3 * slots[j] + d)
    decreases m, c
  {
    PlanLength(slots, m, c);
    if c > 0 {
      PlanLength(slots, m, c - 1);
      if !(j == m && d == c) { PlanAddress(slots, m, c - 1, j, d); }
    } else {
      PlanAddress(slots, m - 1, 3, j, d);
    }
  }

  function EventAt(mem: Memory, slot: nat): Event
    requires slot < MAX_EVENTS
  {
    Event(mem[3 * slot + 1], mem[3 * slot + 2], mem[3 * slot + 3])
  }

  function SlotInd(mem: Memory, slot: nat, left: nat): Primitive
    requires slot < MAX_EVENTS
  {
    EventInd(U16(mem[3 * slot + 2], mem[3 * slot + 3]), mem[3 * slot + 1], left)
  }

  /** What the slots in use are signalled as, `eventsleft` counting down to 0. */
  function Signals(mem: Memory): (r: seq<Primitive>)
    ensures |r| == |InUse(mem)|
  {
    var slots := InUse(mem);
    seq(|slots|, k requires 0 <= k < |slots| => SlotInd(mem, slots[k], |slots| - 1 - k))
  }

  // ---------- the run ----------

  /** The device keeps its event flag up and answers diagnosis reads from its
      event memory; the reading ends when the events are signalled. */
  predicate Serves(x: Session, i: Input, mem: Memory) {
    && LinkUp(x, i) && !x.dl.ev.event_confirmation
    && (i.Device? ==>
          && i.flag
          && (forall a :: 0 <= a < EVENT_MEMORY && x.dl.out.wire == Read(a) ==> i.rx[0] == mem[a]))
  }

  predicate ServesRun(x: Session, inputs: seq<Input>, mem: Memory) {
    inputs == []
    || (ServesRun(x, inputs[..|inputs| - 1], mem)
        && Serves(SessionRun(x, inputs[..|inputs| - 1]), inputs[|inputs| - 1], mem))
  }

  predicate NoEvents(log: seq<Primitive>) {
    forall k :: 0 <= k < |log| ==> !log[k].EventInd?
  }

  /** The log ends with `tail`, and no event was signalled before. */
  predicate EndsWith(log: seq<Primitive>, tail: seq<Primitive>) {
    && |log| >= |tail|
    && log[|log| - |tail|..] == tail
    && NoEvents(log[..|log| - |tail|])
  }

  /** The running exchange is a read of the event handler. */
  predicate Asked(x: Session) {
    x.awaiting && x.dl.od.state == OdEvent3
  }

  /** About to read: the flag was just raised. */
  predicate Starting(s: Dl, asked: bool) {
    && s.ev.state == EhIdle1 && !s.ev.event_confirmation && !asked
    && s.out.diag == [] && NoEvents(s.out.log)
  }

  predicate ReadingStatus(s: Dl, asked: bool) {
    && s.ev.state == EhReadEvent2 && !s.ev.event_confirmation && asked
    && s.ev.ev_addr == 0 && s.ev.num_entries == 0 && s.ev.ev_current == 0
    && s.out.diag == [Read(0)] && s.out.wire == Read(0) && NoEvents(s.out.log)
  }

  /** Slots 0..m-1 of those in use are in hand, and c octets of slot m. */
  predicate ReadingSlot(s: Dl, mem: Memory, m: nat, c: nat, asked: bool) {
    var slots := InUse(mem);
    && s.ev.state == EhReadEvent2 && !s.ev.event_confirmation
    && m < |slots| && c < 3
    && s.ev.status_code == mem[0] && s.ev.num_entries == |slots|
    && s.ev.ev_current == m && s.ev.ev_cnt == slots[m] && s.ev.ev_addr == 3 * slots[m] + 1 + c
    && (forall j :: 0 <= j < m ==> s.ev.events[j] == EventAt(mem, slots[j]))
    && (c >= 1 ==> s.ev.events[m].event_qualifier == mem[3 * slots[m] + 1])
    && (c >= 2 ==> s.ev.events[m].event_code_msb == mem[3 * slots[m] + 2])
    && NoEvents(s.out.log)
    && (if asked then s.out.diag == Plan(slots, m, c + 1) && s.out.wire == Read(s.ev.ev_addr)
        else s.out.diag == Plan(slots, m, c))
  }

  predicate Signalled(s: Dl, mem: Memory) {
    && s.ev.state == EhIdle1 && s.ev.event_confirmation
    && s.out.diag == Plan(InUse(mem), |InUse(mem)|, 0)
    && EndsWith(s.out.log, Signals(mem))
  }

  predicate Reader(s: Dl, mem: Memory, asked: bool) {
    || Starting(s, asked)
    || ReadingStatus(s, asked)
    || (s.ev.ev_addr >= 3 * s.ev.ev_cnt + 1
        && ReadingSlot(s, mem, s.ev.ev_current, s.ev.ev_addr - 3 * s.ev.ev_cnt - 1, asked))
    || Signalled(s, mem)
  }

  predicate ReaderInv(x: Session, mem: Memory) {
    && MuxInv(x) && x.dl.od.state != OdIsdu1 && x.dl.ev.event_flag
    && x.dl.ev.active && !x.dl.com_lost
    && Reader(x.dl, mem, Asked(x))
    && (x.dl.ev.event_confirmation ==> !Asked(x))
  }

  // ---------- the scan for the next slot ----------

  lemma NextSlotIsNextInUse(mem: Memory, m: nat)
    requires m < |InUse(mem)|
    ensures var slots, next := InUse(mem), NextSlot(mem[0], InUse(mem)[m] + 1);
            if m + 1 < |slots| then next == slots[m + 1] else next == MAX_EVENTS
  {
    SlotsAreTheMarked(mem[0], MAX_EVENTS);
    var slots, next := InUse(mem), NextSlot(mem[0], InUse(mem)[m] + 1);
    if m + 1 < |slots| {
      assert slots[m + 1] in slots;
      assert slots[m] < slots[m + 1];
    }
    if next < MAX_EVENTS {
      assert next in slots;
    }
  }

  lemma FirstSlotIsFirstInUse(mem: Memory)
    requires |InUse(mem)| > 0
    ensures NextSlot(mem[0], 0) == InUse(mem)[0]
  {
    SlotsAreTheMarked(mem[0], MAX_EVENTS);
  }

  // ---------- the handler's own steps ----------

  lemma StatusArrives(s: Dl, mem: Memory)
    requires ReadingStatus(s, true) && s.rx[0] == mem[0] && Details(mem[0]) && |InUse(mem)| > 0
    ensures ReadingSlot(EvStatusCode(s), mem, 0, 0, false)
  {
    FirstSlotIsFirstInUse(mem);
  }

  lemma SlotOctetArrives(s: Dl, mem: Memory, m: nat, c: nat)
    requires ReadingSlot(s, mem, m, c, true) && s.rx[0] == mem[3 * InUse(mem)[m] + 1 + c] && c < 2
    ensures ReadingSlot(EvMemoryByte(s), mem, m, c + 1, false)
  {
  }

  lemma {:induction false} SignalsAreSlots(events: EventList, mem: Memory, k: nat)
    requires k <= |InUse(mem)|
    requires forall j :: 0 <= j < k ==> events[j] == EventAt(mem, InUse(mem)[j])
    ensures Type2Inds(events, k, |InUse(mem)|) == Signals(mem)[..k]
  {
    if k > 0 {
      SignalsAreSlots(events, mem, k - 1);
      assert Signals(mem)[..k] == Signals(mem)[..k - 1] + [Signals(mem)[k - 1]];
    }
  }

  lemma SignalsAll(s: Dl, mem: Memory)
    requires Details(mem[0]) && s.ev.status_code == mem[0] && s.ev.num_entries == |InUse(mem)|
    requires forall j :: 0 <= j < |InUse(mem)| ==> s.ev.events[j] == EventAt(mem, InUse(mem)[j])
    requires NoEvents(s.out.log) && s.out.diag == Plan(InUse(mem), |InUse(mem)|, 0)
    ensures Signalled(SignalEvent3(s), mem)
  {
    SignalsAreSlots(s.ev.events, mem, |InUse(mem)|);
    assert Signals(mem)[..|InUse(mem)|] == Signals(mem);
    var t := SignalEvent3(s);
    assert t.out.log[..|t.out.log| - |Signals(mem)|] == s.out.log;
  }

  /** All octets of slot m are in hand; the scan for the next one is due. */
  predicate SlotIn(s: Dl, mem: Memory, m: nat) {
    var slots := InUse(mem);
    && s.ev.state == EhReadEvent2 && !s.ev.event_confirmation && m < |slots|
    && s.ev.status_code == mem[0] && s.ev.num_entries == |slots|
    && s.ev.ev_current == m + 1 && s.ev.ev_cnt == slots[m]
    && (forall j :: 0 <= j <= m ==> s.ev.events[j] == EventAt(mem, slots[j]))
    && NoEvents(s.out.log) && s.out.diag == Plan(slots, m + 1, 0)
  }

  lemma LastOctetArrives(s: Dl, mem: Memory, m: nat)
    requires ReadingSlot(s, mem, m, 2, true) && s.rx[0] == mem[3 * InUse(mem)[m] + 3]
    ensures SlotIn(s.(ev := StoreOctet(s.ev, 3, s.rx[0])), mem, m)
  {
    assert Plan(InUse(mem), m + 1, 0) == Plan(InUse(mem), m, 3);
  }

  /** On to the next slot, or all is signalled. In the latter case as many events
      were read as the status octet announced. */
  lemma SlotCompletes(s: Dl, mem: Memory, m: nat)
    requires SlotIn(s, mem, m) && Details(mem[0])
    ensures if m + 1 < |InUse(mem)| then ReadingSlot(EvSlotDone(s), mem, m + 1, 0, false)
            else Signalled(EvSlotDone(s), mem) && s.ev.ev_current == s.ev.num_entries
  {
    NextSlotIsNextInUse(mem, m);
    if m + 1 == |InUse(mem)| {
      SignalsAll(s.(ev := EvAdvance(s.ev).(ev_current := 0)), mem);
    }
  }

  lemma ReaderMaster(s: Dl, mem: Memory)
    requires Reader(s, mem, false) && !s.ev.event_confirmation
    requires s.ev.active && !s.com_lost && s.od.trigger == TrigMaster
    ensures Reader(EvSm(s), mem, true)
  {
    if !Starting(s, false) {
      var m, c := s.ev.ev_current, s.ev.ev_addr - 3 * s.ev.ev_cnt - 1;
      assert ReadingSlot(EvSm(s), mem, m, c, true);
    }
  }

  lemma ReaderDevice(s: Dl, mem: Memory)
    requires Reader(s, mem, true) && !s.ev.event_confirmation && Details(mem[0]) && |InUse(mem)| > 0
    requires s.ev.active && !s.com_lost && s.od.trigger == TrigDevice
    requires forall a :: 0 <= a < EVENT_MEMORY && s.out.wire == Read(a) ==> s.rx[0] == mem[a]
    ensures Reader(EvSm(s), mem, false)
  {
    if ReadingStatus(s, true) {
      StatusArrives(s, mem);
    } else {
      var m, c := s.ev.ev_current, s.ev.ev_addr - 3 * s.ev.ev_cnt - 1;
      assert s.rx[0] == mem[s.ev.ev_addr];
      OctetArrives(s, mem, m, c);
    }
  }

  lemma OctetArrives(s: Dl, mem: Memory, m: nat, c: nat)
    requires ReadingSlot(s, mem, m, c, true) && s.rx[0] == mem[3 * InUse(mem)[m] + 1 + c] && Details(mem[0])
    ensures Reader(EvMemoryByte(s), mem, false)
  {
    if c < 2 {
      SlotOctetArrives(s, mem, m, c);
    } else {
      LastOctetArrives(s, mem, m);
      SlotCompletes(s.(ev := StoreOctet(s.ev, 3, s.rx[0])), mem, m);
    }
  }

  // ---------- inside the multiplexed exchange ----------

  /** The reader looks only at these. */
  predicate SameReader(s: Dl, t: Dl) {
    && t.ev.(event_flag := s.ev.event_flag) == s.ev
    && t.out.diag == s.out.diag
    && (NoEvents(s.out.log) ==> NoEvents(t.out.log))
  }

  lemma SameReading(s: Dl, t: Dl, mem: Memory, asked: bool)
    requires Reader(s, mem, asked) && !s.ev.event_confirmation && SameReader(s, t)
    requires asked ==> t.out.wire == s.out.wire
    ensures Reader(t, mem, asked)
  {
  }

  lemma ServiceKeepsReader(x: Session, i: Input)
    requires MuxInv(x) && LinkUp(x, i) && !i.Master? && !i.Device?
    ensures var t := Step(x.dl, i);
            && SameReader(x.dl, t) && t.ev == x.dl.ev && t.out.wire == x.dl.out.wire
            && t.com_lost == x.dl.com_lost
  {
    match i
    case Control(code) => CmdKeepsReader(x.dl.(cmd := x.dl.cmd.(control_code := code)));
    case Devicemode(m) =>
      CmdKeepsReader(x.dl.(cmd := x.dl.cmd.(master_command := DevicemodeCommand(m), control_code := CcDevicemode)));
    case IsduRequest(q) => RequestKeepsReader(x.dl, q);
    case Param(write, address, value, ready) => AccessKeepsReader(x.dl, write, address, value, ready);
    case Abort =>
    case TimerExpires =>
  }

  lemma RequestKeepsReader(s: Dl, q: Request)
    ensures var t := Step(s, IsduRequest(q));
            SameReader(s, t) && t.ev == s.ev && t.out.wire == s.out.wire && t.com_lost == s.com_lost
  {
  }

  lemma AccessKeepsReader(s: Dl, write: bool, address: nat, value: byte, ready: bool)
    ensures var t := Step(s, Param(write, address, value, ready));
            SameReader(s, t) && t.ev == s.ev && t.out.wire == s.out.wire && t.com_lost == s.com_lost
  {
  }

  lemma CmdKeepsReader(s: Dl)
    requires s.cmd.state == ChIdle1
    ensures var t := CmdSm(s); SameReader(s, t) && t.ev == s.ev && t.out.wire == s.out.wire && t.com_lost == s.com_lost
  {
  }

  lemma MasterReads(x: Session, mem: Memory)
    requires ReaderInv(x, mem) && Serves(x, Master, mem)
    ensures ReaderInv(SessionStep(x, Master), mem)
  {
    var s := Triggered(x.dl, Master);
    var y := SessionStep(x, Master);
    MasterStep(x);
    SameReading(x.dl, s, mem, false);
    if CommandDue(s) {
      SameReading(s, y.dl, mem, false);
    } else {
      ReaderMaster(s, mem);
      EvSmKeeps(s);
      SameAfterRest(EvSm(s), y.dl, mem, true);
    }
  }

  lemma SameAfterRest(s: Dl, t: Dl, mem: Memory, asked: bool)
    requires Reader(s, mem, asked) && t.ev == s.ev && t.out == s.out
    ensures Reader(t, mem, asked)
  {
  }

  lemma DeviceServes(x: Session, mem: Memory, rx: RxBuffer)
    requires ReaderInv(x, mem) && Serves(x, Device(true, rx), mem) && Details(mem[0]) && |InUse(mem)| > 0
    ensures ReaderInv(SessionStep(x, Device(true, rx)), mem)
  {
    var s := Triggered(x.dl, Device(true, rx));
    var y := SessionStep(x, Device(true, rx));
    DeviceStep(x, true, rx);
    SameReading(x.dl, s, mem, Asked(x));
    if Asked(x) {
      ReaderDevice(s, mem);
      EvSmKeeps(s);
      SameAfterRest(EvSm(s), y.dl, mem, false);
    } else {
      SameReading(s, y.dl, mem, false);
    }
  }

  lemma {:induction false} ReaderInvariant(x: Session, mem: Memory, inputs: seq<Input>)
    requires ReaderInv(x, mem) && ServesRun(x, inputs, mem) && Details(mem[0]) && |InUse(mem)| > 0
    ensures ReaderInv(SessionRun(x, inputs), mem)
  {
    if inputs != [] {
      var init, i := inputs[..|inputs| - 1], inputs[|inputs| - 1];
      ReaderInvariant(x, mem, init);
      var z := SessionRun(x, init);
      match i
      case Master => MasterReads(z, mem);
      case Device(flag, rx) => DeviceServes(z, mem, rx);
      case _ =>
        ServiceStep(z, i);
        ServiceKeepsReader(z, i);
        SameReading(z.dl, SessionStep(z, i).dl, mem, Asked(z));
    }
  }

  lemma {:induction false} PlanGrows(slots: seq<nat>, m: nat, c: nat, n: nat)
    requires m <= n <= |slots| && c <= 3 && (m == n ==> c == 0)
    ensures Plan(slots, m, c) <= Plan(slots, n, 0)
    decreases n
  {
    if m < n {
      var p := Plan(slots, n - 1, 3);
      assert Plan(slots, n - 1, 0) <= Plan(slots, n - 1, 1) <= Plan(slots, n - 1, 2) <= p;
      if m < n - 1 || c == 0 { PlanGrows(slots, m, c, n - 1); }
    }
  }

  lemma ReadsArePrefix(s: Dl, mem: Memory, asked: bool)
    requires Reader(s, mem, asked) && InUse(mem) != [] && (s.ev.event_confirmation ==> !asked)
    ensures var plan := Plan(InUse(mem), |InUse(mem)|, 0);
            && s.out.diag <= plan
            && (s.ev.event_confirmation <==> s.out.diag == plan && !asked)
    ensures s.ev.event_confirmation <==> Signalled(s, mem)
    ensures !s.ev.event_confirmation ==> NoEvents(s.out.log)
  {
    var slots := InUse(mem);
    PlanGrows(slots, 0, 0, |slots|);
    PlanLength(slots, |slots|, 0);
    if s.ev.ev_addr >= 3 * s.ev.ev_cnt + 1 {
      var m, c := s.ev.ev_current, s.ev.ev_addr - 3 * s.ev.ev_cnt - 1;
      if ReadingSlot(s, mem, m, c, asked) {
        PlanGrows(slots, m, if asked then c + 1 else c, |slots|);
        PlanLength(slots, m, c);
      }
    }
  }

  // ---------- a status octet that marks no slot ----------

  /** A type-2 status octet starts the walk if and only if it marks a slot. */
  lemma StatusStartsWalkIffSlot(s: Dl, mem: Memory)
    requires ReadingStatus(s, true) && s.rx[0] == mem[0] && Details(mem[0])
    ensures EvStatusCode(s).ev.ev_addr != 0 <==> InUse(mem) != []
  {
    SlotsAreTheMarked(mem[0], MAX_EVENTS);
    var slots, first := InUse(mem), NextSlot(mem[0], 0);
    if slots != [] { assert slots[0] in slots; }
    if first < MAX_EVENTS { assert first in slots; }
  }

  /** Without one the handler reads the status octet for as long as the flag is
      up, and never signals or confirms anything. */
  predicate StuckOnStatus(x: Session) {
    && MuxInv(x) && x.dl.od.state != OdIsdu1 && x.dl.ev.event_flag
    && x.dl.ev.active && !x.dl.com_lost
    && x.dl.ev.state == EhReadEvent2 && !x.dl.ev.event_confirmation
    && x.dl.ev.ev_addr == 0 && x.dl.ev.num_entries == 0
    && NoEvents(x.dl.out.log)
    && (forall k :: 0 <= k < |x.dl.out.diag| ==> x.dl.out.diag[k] == Read(0))
    && (Asked(x) ==> x.dl.out.wire == Read(0))
  }

  lemma StuckAnswer(x: Session, i: Input, mem: Memory)
    requires StuckOnStatus(x) && Serves(x, i, mem) && i.Device? && Details(mem[0]) && InUse(mem) == []
    ensures StuckOnStatus(SessionStep(x, i))
  {
    DeviceStep(x, i.flag, i.rx);
    EvSmKeeps(Triggered(x.dl, i));
    if Asked(x) { NoSlotFound(mem); }
  }

  lemma NoSlotFound(mem: Memory)
    requires InUse(mem) == []
    ensures NextSlot(mem[0], 0) == MAX_EVENTS && SlotCount(mem[0], MAX_EVENTS) == 0
  {
    SlotsAreTheMarked(mem[0], MAX_EVENTS);
    var first := NextSlot(mem[0], 0);
    assert first < MAX_EVENTS ==> first in InUse(mem);
  }

  lemma StuckStep(x: Session, i: Input, mem: Memory)
    requires StuckOnStatus(x) && Serves(x, i, mem) && Details(mem[0]) && InUse(mem) == []
    ensures StuckOnStatus(SessionStep(x, i))
  {
    if i.Master? {
      MasterStep(x);
    } else if i.Device? {
      StuckAnswer(x, i, mem);
    } else {
      ServiceStep(x, i);
      ServiceKeepsReader(x, i);
    }
  }

  lemma {:induction false} NoSlotReadsStatusForever(x: Session, mem: Memory, inputs: seq<Input>)
    requires StuckOnStatus(x) && ServesRun(x, inputs, mem) && Details(mem[0]) && InUse(mem) == []
    ensures StuckOnStatus(SessionRun(x, inputs))
  {
    if inputs != [] {
      NoSlotReadsStatusForever(x, mem, inputs[..|inputs| - 1]);
      StuckStep(SessionRun(x, inputs[..|inputs| - 1]), inputs[|inputs| - 1], mem);
    }
  }
}
