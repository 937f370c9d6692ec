/**
 * The application layer collects the events of one set before it reports them.
 * Behind the event memory reader, this carries a device's events to the
 * application; the scan for an upload request also sees what an earlier, longer
 * set has left behind.
 */
module AlEvents {
  import opened Bytes
  import opened IsduCodec
  import opened DlModel
  import opened DlEvents

  const DS_UPLOAD_REQ: nat := 0xFF91

  datatype CollectorState = EventIdle | ReadEventSet | DuEventHandling

  datatype Diag = Diag(code: nat, qualifier: byte)

  type DiagList = s: seq<Diag> | |s| == MAX_EVENTS
    witness [Diag(0, 0), Diag(0, 0), Diag(0, 0), Diag(0, 0), Diag(0, 0), Diag(0, 0)]

  /** What AL_Event_ind does with a set: ask for an upload, or report it. */
  datatype Report = UploadRequested | Reported(batch: seq<Diag>)

  datatype Collector = Collector(state: CollectorState, cnt: nat, events: DiagList, reports: seq<Report>)

  predicate AsksUpload(events: seq<Diag>) {
    exists i :: 0 <= i < |events| && events[i].code == DS_UPLOAD_REQ
  }

  /** AL_Event_ind looks for an upload request in all six places. */
  function Handled(c: Collector): Collector
    requires c.cnt <= MAX_EVENTS
  {
    c.(state := DuEventHandling,
       reports := c.reports + [if AsksUpload(c.events) then UploadRequested else Reported(c.events[..c.cnt])])
  }

  /** DL_Event_ind: with six events collected already the layer stops. */
  function Collect(c: Collector, d: Diag, eventsleft: int): Collector
    requires c.cnt < MAX_EVENTS
  {
    var t := c.(events := c.events[c.cnt := d], cnt := c.cnt + 1);
    match c.state
    case DuEventHandling => t
    case _ => if eventsleft != 0 then t.(state := ReadEventSet) else Handled(t)
  }

  /** AL_Event_rsp. */
  function Respond(c: Collector): Collector {
    if c.state == DuEventHandling then c.(state := EventIdle, cnt := 0) else c
  }

  /** The first k events of a set arrive, eventsleft counting down to 0. */
  function CollectSet(c: Collector, batch: seq<Diag>, k: nat): (t: Collector)
    requires c.state == EventIdle && c.cnt == 0
    requires k <= |batch| <= MAX_EVENTS
    ensures t.cnt == k
  {
    if k == 0 then c else Collect(CollectSet(c, batch, k - 1), batch[k - 1], |batch| - k)
  }

  lemma {:induction false} SetCollected(c: Collector, batch: seq<Diag>, k: nat)
    requires c.state == EventIdle && c.cnt == 0
    requires k <= |batch| <= MAX_EVENTS
    ensures var t := CollectSet(c, batch, k);
            && (forall i :: 0 <= i < MAX_EVENTS ==> t.events[i] == if i < k then batch[i] else c.events[i])
            && (if k == 0 then t == c
                else if k < |batch| then t.state == ReadEventSet && t.reports == c.reports
                else t.state == DuEventHandling
                     && t.reports == c.reports + [if AsksUpload(t.events) then UploadRequested else Reported(batch)])
  {
    if k > 0 {
      SetCollected(c, batch, k - 1);
      if k == |batch| {
        var t := CollectSet(c, batch, k);
        assert t.events[..k] == batch;
      }
    }
  }

  /** A set of events is reported once, whole and in order; it is taken for an
      upload request exactly when it holds one, or when an event that an earlier
      set left behind its end is one. */
  lemma SetReported(c: Collector, batch: seq<Diag>)
    requires c.state == EventIdle && c.cnt == 0 && 1 <= |batch| <= MAX_EVENTS
    ensures var t := CollectSet(c, batch, |batch|);
            && t.state == DuEventHandling && |t.reports| == |c.reports| + 1
            && (t.reports[|c.reports|] == Reported(batch) || t.reports[|c.reports|] == UploadRequested)
            && (t.reports[|c.reports|] == UploadRequested <==> AsksUpload(batch) || AsksUpload(c.events[|batch|..]))
  {
    SetCollected(c, batch, |batch|);
    var t := CollectSet(c, batch, |batch|);
    if AsksUpload(batch) {
      var i :| 0 <= i < |batch| && batch[i].code == DS_UPLOAD_REQ;
      assert t.events[i].code == DS_UPLOAD_REQ;
    }
    if AsksUpload(c.events[|batch|..]) {
      var i :| 0 <= i < |c.events[|batch|..]| && c.events[|batch|..][i].code == DS_UPLOAD_REQ;
      assert t.events[|batch| + i].code == DS_UPLOAD_REQ;
    }
    if AsksUpload(t.events) {
      var i :| 0 <= i < |t.events| && t.events[i].code == DS_UPLOAD_REQ;
      if i >= |batch| { assert c.events[|batch|..][i - |batch|].code == DS_UPLOAD_REQ; }
    }
  }

  /** So an upload request in the last of two places is taken up again by the next
      single event, whatever that event is. */
  lemma StaleUploadRequest(c: Collector, first: Diag, other: Diag)
    requires c.state == EventIdle && c.cnt == 0
    ensures var a := Respond(CollectSet(c, [first, Diag(DS_UPLOAD_REQ, 0)], 2));
            a.state == EventIdle && a.cnt == 0
            && CollectSet(a, [other], 1).reports == a.reports + [UploadRequested]
  {
    var batch := [first, Diag(DS_UPLOAD_REQ, 0)];
    SetCollected(c, batch, 2);
    var a := Respond(CollectSet(c, batch, 2));
    assert a.events[1] == batch[1];
    SetReported(a, [other]);
    assert a.events[1..][0].code == DS_UPLOAD_REQ;
  }

  /** The next set has to wait for AL_Event_rsp: an event before it is dropped. */
  lemma EventBeforeResponseIsLost(c: Collector, d: Diag, eventsleft: int)
    requires c.state == DuEventHandling && c.cnt < MAX_EVENTS
    ensures Collect(c, d, eventsleft).reports == c.reports
    ensures Respond(Collect(c, d, eventsleft)).cnt == 0
  {
  }

  // ---------- from the event memory to the report ----------

  function SlotDiag(mem: Memory, slot: nat): Diag
    requires slot < MAX_EVENTS
  {
    Diag(U16(mem[3 * slot + 2], mem[3 * slot + 3]), mem[3 * slot + 1])
  }

  function SlotSet(mem: Memory): (r: seq<Diag>)
    ensures |r| == |InUse(mem)|
  {
    seq(|InUse(mem)|, k requires 0 <= k < |InUse(mem)| => SlotDiag(mem, InUse(mem)[k]))
  }

  /** DL_Event_ind jobs in the order they were posted. */
  function Deliver(c: Collector, inds: seq<Primitive>, k: nat): (t: Collector)
    requires k <= |inds| && c.cnt + k <= MAX_EVENTS
    requires forall i :: 0 <= i < |inds| ==> inds[i].EventInd?
    ensures t.cnt == c.cnt + k
  {
    if k == 0 then c
    else
      var p := inds[k - 1];
      Collect(Deliver(c, inds, k - 1), Diag(p.code, p.event_qualifier), p.eventsleft)
  }

  lemma {:induction false} DeliverIsCollect(c: Collector, mem: Memory, k: nat)
    requires c.state == EventIdle && c.cnt == 0 && k <= |InUse(mem)|
    ensures Deliver(c, Signals(mem), k) == CollectSet(c, SlotSet(mem), k)
  {
    if k > 0 { DeliverIsCollect(c, mem, k - 1); }
  }

  /** What the reader signals for an event memory arrives as one report of the
      slots in use, in order. */
  lemma MemoryReported(c: Collector, mem: Memory)
    requires c.state == EventIdle && c.cnt == 0 && InUse(mem) != []
    requires !AsksUpload(SlotSet(mem)) && !AsksUpload(c.events)
    ensures Deliver(c, Signals(mem), |InUse(mem)|).reports == c.reports + [Reported(SlotSet(mem))]
  {
    DeliverIsCollect(c, mem, |InUse(mem)|);
    SetReported(c, SlotSet(mem));
    SetCollected(c, SlotSet(mem), |InUse(mem)|);
    var rest := c.events[|SlotSet(mem)|..];
    forall i | 0 <= i < |rest| ensures rest[i].code != DS_UPLOAD_REQ {
      assert rest[i] == c.events[|SlotSet(mem)| + i];
    }
  }

  // ---------- the collector ----------

  class EventCollector {
    var state: CollectorState
    var event_cnt: nat
    const events: array<Diag>
    ghost var reports: seq<Report>

    ghost predicate Valid()
      reads this
    {
      events.Length == MAX_EVENTS
    }

    ghost function View(): Collector
      requires Valid()
      reads this, events
    {
      Collector(state, event_cnt, events[..], reports)
    }

    constructor ()
      ensures Valid() && fresh(events) && View().state == EventIdle && View().cnt == 0 && View().reports == []
      ensures !AsksUpload(View().events)
    {
      state, event_cnt := EventIdle, 0;
      events := new Diag[MAX_EVENTS](_ => Diag(0, 0));
      reports := [];
    }

    /** al_dl_event_ind_cb. */
    method EventInd(d: Diag, eventsleft: int)
      requires Valid() && event_cnt < MAX_EVENTS
      modifies this, events
      ensures Valid() && View() == Collect(old(View()), d, eventsleft)
    {
      events[event_cnt] := d;
      event_cnt := event_cnt + 1;
      if state != DuEventHandling {
        if eventsleft != 0 {
          state := ReadEventSet;
        } else {
          state := DuEventHandling;
          HandleSet();
        }
      }
    }

    /** AL_Event_ind. */
    method HandleSet()
      requires Valid() && event_cnt <= MAX_EVENTS
      modifies this`reports
      ensures Valid()
      ensures reports == old(reports)
        + [if AsksUpload(events[..]) then UploadRequested else Reported(events[..event_cnt])]
    {
      var i := 0;
      while i < MAX_EVENTS
        invariant 0 <= i <= MAX_EVENTS
        invariant forall k :: 0 <= k < i ==> events[k].code != DS_UPLOAD_REQ
        invariant reports == old(reports)
      {
        if events[i].code == DS_UPLOAD_REQ {
          assert events[..][i].code == DS_UPLOAD_REQ;
          reports := reports + [UploadRequested];
          return;
        }
        i := i + 1;
      }
      reports := reports + [Reported(events[..event_cnt])];
    }

    /** al_event_rsp_cb. */
    method EventRsp()
      requires Valid()
      modifies this
      ensures Valid() && View() == Respond(old(View()))
    {
      if state == DuEventHandling {
        state := EventIdle;
        event_cnt := 0;
      }
    }
  }
}
