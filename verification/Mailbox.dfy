/**
 * The mailbox between threads: a ring of messages under a mutex. What happens
 * between taking and releasing the mutex is one step; a call that waits is
 * re-entered when it wakes up, `expired` telling whether its time has run out.
 */
module Mailbox {
  import opened IsduCodec

  // ---------- the ring on values ----------

  datatype Ring<T> = Ring(msg: seq<T>, r: nat, w: nat, count: nat)
  {
    /** r is the oldest message, w the first free slot. */
    predicate Valid() {
      && count <= |msg|
      && (if |msg| == 0 then r == 0 && w == 0 else r < |msg| && w == Wrap(r + count, |msg|))
    }

    /** The queued messages, oldest first. */
    function Contents(): (c: seq<T>)
      requires Valid()
      ensures |c| == count
    {
      if r + count <= |msg| then msg[r..r + count] else msg[r..] + msg[..r + count - |msg|]
    }

    predicate Full() {
      count == |msg|
    }
  }

  function Wrap(i: nat, size: nat): nat {
    if i < size then i else i - size
  }

  function Advance(i: nat, size: nat): nat {
    if i + 1 == size then 0 else i + 1
  }

  function PostRing<T>(m: Ring<T>, x: T): Ring<T>
    requires m.Valid() && !m.Full()
  {
    Ring(m.msg[m.w := x], m.r, Advance(m.w, |m.msg|), m.count + 1)
  }

  function FetchRing<T>(m: Ring<T>): Ring<T>
    requires m.Valid() && m.count > 0
  {
    m.(r := Advance(m.r, |m.msg|), count := m.count - 1)
  }

  lemma PostAppends<T>(m: Ring<T>, x: T)
    requires m.Valid() && !m.Full()
    ensures PostRing(m, x).Valid()
    ensures PostRing(m, x).Contents() == m.Contents() + [x]
  {
    var p := PostRing(m, x);
    forall i | 0 <= i <= m.count ensures p.Contents()[i] == (m.Contents() + [x])[i] {
      if i < m.count { assert Wrap(m.r + i, |m.msg|) != m.w; }
    }
  }

  lemma FetchTakesOldest<T>(m: Ring<T>)
    requires m.Valid() && m.count > 0
    ensures FetchRing(m).Valid()
    ensures m.Contents() == [m.msg[m.r]] + FetchRing(m).Contents()
  {
    var f := FetchRing(m);
    forall i | 0 <= i < f.count ensures f.Contents()[i] == m.Contents()[i + 1] { }
  }

  // ---------- runs ----------

  datatype Op<T> = Post(x: T) | PostTimeout | Fetch | FetchTimeout

  /** A call that has neither room nor a message goes on waiting. A timed-out call
      may find either, its time was up first. */
  predicate CanRun<T>(m: Ring<T>, op: Op<T>)
    requires m.Valid()
  {
    match op
    case Post(_) => !m.Full()
    case Fetch => m.count > 0
    case _ => true
  }

  function RingStep<T>(m: Ring<T>, op: Op<T>): Ring<T>
    requires m.Valid() && CanRun(m, op)
  {
    match op
    case Post(x) => PostRing(m, x)
    case Fetch => FetchRing(m)
    case _ => m
  }

  /** A ring, all messages accepted and all handed out. */
  datatype Traffic<T> = Traffic(ring: Ring<T>, posted: seq<T>, fetched: seq<T>)

  function TrafficStep<T>(t: Traffic<T>, op: Op<T>): Traffic<T>
    requires t.ring.Valid() && CanRun(t.ring, op)
  {
    Traffic(RingStep(t.ring, op),
      if op.Post? then t.posted + [op.x] else t.posted,
      if op.Fetch? then t.fetched + [t.ring.msg[t.ring.r]] else t.fetched)
  }

  /** The run of the calls that can run, skipping the others. */
  function TrafficRun<T>(t: Traffic<T>, ops: seq<Op<T>>): (u: Traffic<T>)
    requires t.ring.Valid()
    ensures u.ring.Valid()
  {
    if ops == [] then t
    else
      var u, op := TrafficRun(t, ops[..|ops| - 1]), ops[|ops| - 1];
      if CanRun(u.ring, op) then
        if op.Post? then PostAppends(u.ring, op.x); TrafficStep(u, op)
        else if op.Fetch? then FetchTakesOldest(u.ring); TrafficStep(u, op)
        else TrafficStep(u, op)
      else u
  }

  /** Handed out, then queued: all accepted messages in order. */
  ghost predicate InOrder<T>(t: Traffic<T>, size: nat) {
    t.ring.Valid() && |t.ring.msg| == size && t.fetched + t.ring.Contents() == t.posted
  }

  lemma StepInOrder<T>(t: Traffic<T>, op: Op<T>, size: nat)
    requires InOrder(t, size) && CanRun(t.ring, op)
    ensures InOrder(TrafficStep(t, op), size)
  {
    match op
    case Post(x) =>
      PostAppends(t.ring, x);
      assert t.fetched + (t.ring.Contents() + [x]) == t.posted + [x];
    case Fetch =>
      FetchTakesOldest(t.ring);
      var x := [t.ring.msg[t.ring.r]];
      assert (t.fetched + x) + FetchRing(t.ring).Contents() == t.fetched + (x + FetchRing(t.ring).Contents());
    case _ =>
  }

  /** For every sequence of posts, fetches and timeouts: the messages handed out,
      followed by those queued, are the messages accepted, in order; and never
      more are queued than the mailbox has slots. */
  lemma {:induction false} BoundedFifo<T>(t: Traffic<T>, ops: seq<Op<T>>)
    requires InOrder(t, |t.ring.msg|)
    ensures var u := TrafficRun(t, ops);
            InOrder(u, |t.ring.msg|) && |u.ring.Contents()| <= |t.ring.msg|
  {
    if ops != [] {
      var init, op := ops[..|ops| - 1], ops[|ops| - 1];
      BoundedFifo(t, init);
      var u := TrafficRun(t, init);
      if CanRun(u.ring, op) { StepInOrder(u, op, |t.ring.msg|); }
    }
  }

  // ---------- the mailbox ----------

  class Mbox<T(0)> {
    const msg: array<T>
    var r: nat
    var w: nat
    var count: nat

    ghost predicate Valid()
      reads this, msg
    {
      View().Valid()
    }

    ghost function View(): Ring<T>
      reads this, msg
    {
      Ring(msg[..], r, w, count)
    }

    ghost function Contents(): seq<T>
      requires Valid()
      reads this, msg
    {
      View().Contents()
    }

    /** os_mbox_create; the slots hold no message yet. */
    constructor (size: nat, filler: T)
      ensures Valid() && fresh(msg) && msg.Length == size && Contents() == []
    {
      msg := new T[size](_ => filler);
      r, w, count := 0, 0, 0;
    }

    method Fetch(expired: bool) returns (failed: bool, message: Option<T>)
      requires Valid() && (expired || count > 0)
      modifies this
      ensures Valid() && failed == expired
      ensures if expired then View() == old(View()) && message == None
              else View() == FetchRing(old(View()))
                   && message.Some? && old(Contents()) == [message.value] + Contents()
    {
      if expired { return true, None; }
      FetchTakesOldest(View());
      message := Some(msg[r]);
      r := r + 1;
      if r == msg.Length { r := 0; }
      count := count - 1;
      failed := false;
    }

    method Post(x: T, expired: bool) returns (failed: bool)
      requires Valid() && (expired || count < msg.Length)
      modifies this, msg
      ensures Valid() && failed == expired
      ensures if expired then View() == old(View())
              else View() == PostRing(old(View()), x) && Contents() == old(Contents()) + [x]
    {
      if expired { return true; }
      PostAppends(View(), x);
      msg[w] := x;
      w := w + 1;
      if w == msg.Length { w := 0; }
      count := count + 1;
      failed := false;
    }
  }
}
