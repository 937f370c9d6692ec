/**
 * The ISDU response time. It runs from the answer to the last segment of a request;
 * once it has passed, the next message of the ISDU handler gives the transfer up.
 */
module DlTimeouts {
  import opened Bytes
  import opened IsduCodec
  import opened DlModel
  import opened DlAccounting
  import opened DlMultiplexer
  import opened DlTransport
  import opened DlEndToEnd
  import opened DlRequests

  const TIMEOUT := IsduCnf([], DEVICE_NO_SERVICE, IsduTimeout)

  // ---------- a run, by what is sent and answered ----------

  /** All segments of the request are sent and answered. */
  predicate AllAnswered(y: Transfer, q: Request, inputs: seq<Input>) {
    OwnMessages(y, inputs) - One(Mine(TransferRun(y, inputs).x)) >= RequestSegments(q, y.x.dl.od_len)
  }

  /** The response time ran out after that. */
  predicate Elapsed(y: Transfer, q: Request, inputs: seq<Input>) {
    inputs != []
    && var init := inputs[..|inputs| - 1];
       Elapsed(y, q, init) || (inputs[|inputs| - 1].TimerExpires? && AllAnswered(y, q, init))
  }

  /** And the ISDU handler has had a message since. */
  predicate GivesUp(y: Transfer, q: Request, inputs: seq<Input>) {
    inputs != []
    && var init := inputs[..|inputs| - 1];
       GivesUp(y, q, init) || (Elapsed(y, q, init) && OwnMessage(TransferRun(y, init), inputs[|inputs| - 1]))
  }

  /** The device puts off the handler's polls for as long as the time runs. */
  predicate PutsOff(y: Transfer, q: Request, init: seq<Input>, i: Input) {
    var z := TransferRun(y, init);
    i.Device? && Mine(z.x) && OwnMessages(y, init) > RequestSegments(q, y.x.dl.od_len) && !Elapsed(y, q, init)
    ==> IsBusy(i.rx)
  }

  predicate PutOffRun(y: Transfer, q: Request, inputs: seq<Input>) {
    inputs == []
    || (PutOffRun(y, q, inputs[..|inputs| - 1]) && PutsOff(y, q, inputs[..|inputs| - 1], inputs[|inputs| - 1]))
  }

  // ---------- where the transfer stands ----------

  /** Sending, or polling with the time running. */
  predicate InTime(s: Dl, q: Request, mine: bool, own: nat) {
    var n := RequestSegments(q, s.od_len);
    && s.rwcmd == RwIsduTransport
    && match s.isdu.state
       case IhIdle1 => Queued(s, q) && own == 0
       case IhRequest2 =>
         && s.isdu.total_isdu_seg == n && own == s.isdu.current_isdu_seg
         && 1 <= own <= n && (!mine ==> own < n)
       case IhWait3 =>
         && s.isdu.current_isdu_seg == 0 && own >= n + One(mine)
         && s.isdu.timer_on && !s.isdu.timer_expired
       case _ => false
  }

  predicate Overdue(s: Dl, mine: bool) {
    && s.TimerElapsed() && s.rwcmd == RwIsduTransport
    && (s.isdu.state == IhWait3 || (s.isdu.state == IhError4 && !mine))
  }

  predicate Stands(s: Dl, q: Request, mine: bool, own: nat, elapsed: bool, given_up: bool) {
    && !s.com_lost && s.isdu.active
    && (if given_up then s.isdu.state == IhIdle1 && s.rwcmd == RwNone
        else if elapsed then Overdue(s, mine)
        else InTime(s, q, mine, own))
  }

  lemma OwnInTime(s: Dl, q: Request, own: nat)
    requires InTime(s, q, false, own) && s.isdu.active && !s.com_lost && s.od.trigger == TrigMaster
    ensures InTime(IsduSm(s), q, true, own + 1) && IsduSm(s).out.cnfs == s.out.cnfs
  {
    RequestSegmentsBounds(q, s.od_len);
    match s.isdu.state
    case IhIdle1 =>
    case IhRequest2 =>
    case IhWait3 =>
  }

  lemma OwnOverdue(s: Dl)
    requires Overdue(s, false) && s.isdu.active && s.od.trigger == TrigMaster
    ensures var t := IsduSm(s);
            t.isdu.state == IhIdle1 && t.rwcmd == RwNone && t.out.cnfs == s.out.cnfs + [TIMEOUT]
  {
  }

  lemma OwnStands(s: Dl, q: Request, own: nat, elapsed: bool, given_up: bool)
    requires Stands(s, q, false, own, elapsed, given_up) && s.od.trigger == TrigMaster
    ensures Stands(IsduSm(s), q, true, own + 1, elapsed, given_up || elapsed)
    ensures IsduSm(s).out.cnfs == s.out.cnfs + if elapsed && !given_up then [TIMEOUT] else []
  {
    IsduSmStep(s);
    if given_up {
    } else if elapsed {
      OwnOverdue(s);
    } else {
      OwnInTime(s, q, own);
    }
  }

  lemma AnswerInTime(s: Dl, q: Request, own: nat)
    requires InTime(s, q, true, own) && s.isdu.active && !s.com_lost && s.od.trigger == TrigDevice
    requires own > RequestSegments(q, s.od_len) ==> IsBusy(s.rx)
    ensures InTime(IsduSm(s), q, false, own) && IsduSm(s).out.cnfs == s.out.cnfs
  {
    match s.isdu.state
    case IhIdle1 =>
    case IhRequest2 =>
    case IhWait3 =>
      assert Times(0, s.od_len) == 0;
      assert Receive(s).isdu.data[0] == s.rx[0];
  }

  lemma AnswerOverdue(s: Dl)
    requires Overdue(s, true) && s.isdu.active && s.od.trigger == TrigDevice
    ensures Overdue(IsduSm(s), false) && IsduSm(s).out.cnfs == s.out.cnfs
  {
  }

  lemma AnswerStands(s: Dl, q: Request, own: nat, elapsed: bool, given_up: bool)
    requires Stands(s, q, true, own, elapsed, given_up) && s.od.trigger == TrigDevice
    requires own > RequestSegments(q, s.od_len) && !elapsed ==> IsBusy(s.rx)
    ensures Stands(IsduSm(s), q, false, own, elapsed, given_up) && IsduSm(s).out.cnfs == s.out.cnfs
  {
    IsduSmStep(s);
    if given_up {
    } else if elapsed {
      AnswerOverdue(s);
    } else {
      AnswerInTime(s, q, own);
    }
  }

  /** Standing looks only at these. */
  lemma SameStanding(s: Dl, t: Dl, q: Request, mine: bool, own: nat, elapsed: bool, given_up: bool)
    requires Stands(s, q, mine, own, elapsed, given_up)
    requires t.isdu == s.isdu && t.rwcmd == s.rwcmd && t.com_lost == s.com_lost && t.od_len == s.od_len
    ensures Stands(t, q, mine, own, elapsed, given_up)
  {
  }

  // ---------- inside the multiplexed exchange ----------

  /** Where z stands, and what it has confirmed since y. */
  predicate StandsAt(y: Transfer, z: Transfer, q: Request, own: nat, elapsed: bool, given_up: bool) {
    && MuxInv(z.x) && z.x.dl.od_len == y.x.dl.od_len
    && (given_up ==> elapsed)
    && Stands(z.x.dl, q, Mine(z.x), own, elapsed, given_up)
    && z.x.dl.out.cnfs == y.x.dl.out.cnfs + if given_up then [TIMEOUT] else []
  }

  predicate RunStands(y: Transfer, q: Request, inputs: seq<Input>) {
    StandsAt(y, TransferRun(y, inputs), q,
             OwnMessages(y, inputs), Elapsed(y, q, inputs), GivesUp(y, q, inputs))
  }

  lemma MasterStands(z: Transfer, q: Request, own: nat, elapsed: bool, given_up: bool)
    requires MuxInv(z.x) && !z.x.awaiting && Stands(z.x.dl, q, false, own, elapsed, given_up)
    ensures var w, mine := TransferStep(z, Master), OwnMessage(z, Master);
            && MuxInv(w.x) && w.x.dl.od_len == z.x.dl.od_len
            && Stands(w.x.dl, q, Mine(w.x), own + One(mine), elapsed, given_up || (elapsed && mine))
            && w.x.dl.out.cnfs == z.x.dl.out.cnfs + if mine && elapsed && !given_up then [TIMEOUT] else []
  {
    var s, w := Triggered(z.x.dl, Master), TransferStep(z, Master);
    MasterStep(z.x);
    OdSmStep(s);
    SameStanding(z.x.dl, s, q, false, own, elapsed, given_up);
    if IsduSees(s) {
      OwnStands(s, q, own, elapsed, given_up);
      IsduSmStep(s);
      SameStanding(IsduSm(s), w.x.dl, q, true, own + 1, elapsed, given_up || elapsed);
    } else {
      SameStanding(s, w.x.dl, q, false, own, elapsed, given_up);
    }
  }

  lemma DeviceStands(z: Transfer, q: Request, own: nat, elapsed: bool, given_up: bool, i: Input)
    requires MuxInv(z.x) && z.x.awaiting && i.Device? && Stands(z.x.dl, q, Mine(z.x), own, elapsed, given_up)
    requires Mine(z.x) && own > RequestSegments(q, z.x.dl.od_len) && !elapsed ==> IsBusy(i.rx)
    ensures var w := TransferStep(z, i);
            && MuxInv(w.x) && w.x.dl.od_len == z.x.dl.od_len && !Mine(w.x)
            && Stands(w.x.dl, q, false, own, elapsed, given_up) && w.x.dl.out.cnfs == z.x.dl.out.cnfs
  {
    var s, w := Triggered(z.x.dl, i), TransferStep(z, i);
    DeviceStep(z.x, i.flag, i.rx);
    OdSmStep(s);
    SameStanding(z.x.dl, s, q, Mine(z.x), own, elapsed, given_up);
    if Mine(z.x) {
      AnswerStands(s, q, own, elapsed, given_up);
      IsduSmStep(s);
      SameStanding(IsduSm(s), w.x.dl, q, false, own, elapsed, given_up);
    } else {
      SameStanding(s, w.x.dl, q, false, own, elapsed, given_up);
    }
  }

  lemma TimeStands(z: Transfer, q: Request, own: nat, elapsed: bool, given_up: bool)
    requires MuxInv(z.x) && Stands(z.x.dl, q, Mine(z.x), own, elapsed, given_up) && (given_up ==> elapsed)
    ensures var w := TransferStep(z, TimerExpires);
            && MuxInv(w.x) && w.x.dl.od_len == z.x.dl.od_len && w.x.awaiting == z.x.awaiting && Mine(w.x) == Mine(z.x)
            && w.x.dl.out.cnfs == z.x.dl.out.cnfs
            && Stands(w.x.dl, q, Mine(z.x), own,
                 elapsed || own - One(Mine(z.x)) >= RequestSegments(q, z.x.dl.od_len), given_up)
  {
    RequestSegmentsBounds(q, z.x.dl.od_len);
  }

  lemma CommandStands(z: Transfer, q: Request, own: nat, elapsed: bool, given_up: bool, i: Input)
    requires MuxInv(z.x) && LinkUp(z.x, i) && (i.Control? || i.Devicemode?)
    requires Stands(z.x.dl, q, Mine(z.x), own, elapsed, given_up)
    ensures var w := TransferStep(z, i);
            && MuxInv(w.x) && w.x.dl.od_len == z.x.dl.od_len && Mine(w.x) == Mine(z.x)
            && w.x.dl.out.cnfs == z.x.dl.out.cnfs && Stands(w.x.dl, q, Mine(z.x), own, elapsed, given_up)
  {
    ServiceStep(z.x, i);
    CommandKeeps(z.x.dl, i);
    SameStanding(z.x.dl, TransferStep(z, i).x.dl, q, Mine(z.x), own, elapsed, given_up);
  }

  lemma StepStands(y: Transfer, z: Transfer, q: Request, own: nat, elapsed: bool, given_up: bool, i: Input)
    requires StandsAt(y, z, q, own, elapsed, given_up) && AnyDevice(z, i)
    requires i.Device? && Mine(z.x) && own > RequestSegments(q, y.x.dl.od_len) && !elapsed ==> IsBusy(i.rx)
    ensures StandsAt(y, TransferStep(z, i), q, own + One(OwnMessage(z, i)),
              elapsed || (i.TimerExpires? && own - One(Mine(z.x)) >= RequestSegments(q, y.x.dl.od_len)),
              given_up || (elapsed && OwnMessage(z, i)))
  {
    match i
    case Master => MasterStands(z, q, own, elapsed, given_up);
    case Device(_, _) => DeviceStands(z, q, own, elapsed, given_up, i);
    case TimerExpires => TimeStands(z, q, own, elapsed, given_up);
    case _ => CommandStands(z, q, own, elapsed, given_up, i);
  }

  /** From every accepted request, over every run of exchanges, Commands, Events and
      expiries of the timer in which the device puts the handler off: the request is
      confirmed once, with ISDU_TIMEOUT, if and only if the timer ran out after the
      last segment was answered and the ISDU handler has had a message since. An
      earlier expiry counts for nothing, and once the time is up no answer helps. */
  lemma {:induction false} TimeoutReported(x: Session, q: Request, inputs: seq<Input>)
    requires Accepted(x, q) && AnyDeviceRun(From(x), inputs) && PutOffRun(From(x), q, inputs)
    ensures RunStands(From(x), q, inputs)
    ensures TransferRun(From(x), inputs).x.dl.out.cnfs
            == x.dl.out.cnfs + if GivesUp(From(x), q, inputs) then [TIMEOUT] else []
  {
    if inputs != [] {
      var init := inputs[..|inputs| - 1];
      TimeoutReported(x, q, init);
      StepStands(From(x), TransferRun(From(x), init), q,
        OwnMessages(From(x), init), Elapsed(From(x), q, init), GivesUp(From(x), q, init), inputs[|inputs| - 1]);
    }
  }
}
