/**
 * The answer half of the transport theorems. From the moment a request is accepted,
 * in any run and behind any history, the number of messages the ISDU handler has had
 * and the number of busy answers among theirs say exactly what has been received and
 * what has been confirmed.
 */
module DlEndToEnd {
  import opened Bytes
  import opened IsduCodec
  import opened DlModel
  import opened DlAccounting
  import opened DlMultiplexer
  import opened DlTransport
  import opened DlHistory

  // ---------- a request is accepted ----------

  /** A request was just accepted by handlers that are up, between two uses of
      the ISDU channel. */
  predicate Accepted(x: Session, q: Request) {
    && MuxInv(x) && EventReady(x.dl) && !x.dl.com_lost
    && x.dl.isdu.data_dir_read == q.read && Queued(x.dl, q)
    && (x.awaiting && IsduRead(x.dl.out.wire) ==> Mine(x) && x.dl.out.wire.addr == FLOWCTRL_IDLE_1)
  }

  /** The transfer that starts here: the device has sent nothing of its answer. */
  function From(x: Session): Transfer {
    Transfer(x, 0)
  }

  /** DL_ISDUTransport_req on an idle handler is such a start. */
  lemma RequestIsAccepted(x: Session, q: Request)
    requires MuxInv(x) && EventReady(x.dl) && !x.dl.com_lost && Accepts(x.dl, q)
    requires x.awaiting && IsduRead(x.dl.out.wire) ==> Mine(x) && x.dl.out.wire.addr == FLOWCTRL_IDLE_1
    ensures Accepted(SessionStep(x, IsduRequest(q)), q)
  {
  }

  // ---------- behind any history ----------

  function ForgottenTransfer(y: Transfer): Transfer {
    y.(x := ForgottenSession(y.x))
  }

  /** A message of the ISDU handler. */
  predicate OwnMessage(y: Transfer, i: Input) {
    i.Master? && IsduSees(Triggered(y.x.dl, i))
  }

  predicate BusyAnswer(y: Transfer, i: Input) {
    && i.Device? && IsBusy(i.rx)
    && IsduRead(y.x.dl.out.wire) && y.x.dl.out.wire.addr == FLOWCTRL_START
  }

  function OwnMessages(y: Transfer, inputs: seq<Input>): nat {
    if inputs == [] then 0
    else
      var init := inputs[..|inputs| - 1];
      OwnMessages(y, init) + One(OwnMessage(TransferRun(y, init), inputs[|inputs| - 1]))
  }

  function BusyAnswers(y: Transfer, inputs: seq<Input>): nat {
    if inputs == [] then 0
    else
      var init := inputs[..|inputs| - 1];
      BusyAnswers(y, init) + One(BusyAnswer(TransferRun(y, init), inputs[|inputs| - 1]))
  }

  function Behind(h: Out, z: Transfer): Transfer {
    z.(x := z.x.(dl := After(h, z.x.dl)))
  }

  lemma TransferStepBehind(h: Out, z: Transfer, i: Input, resp: seq<byte>)
    ensures TransferStep(Behind(h, z), i) == Behind(h, TransferStep(z, i))
    ensures Undisturbed(Behind(h, z), i, resp) <==> Undisturbed(z, i, resp)
    ensures OwnMessage(Behind(h, z), i) <==> OwnMessage(z, i)
    ensures BusyAnswer(Behind(h, z), i) <==> BusyAnswer(z, i)
  {
    StepIgnoresHistory(h, z.x.dl, i);
  }

  lemma {:induction false} TransferAddsToHistory(y: Transfer, inputs: seq<Input>, resp: seq<byte>)
    ensures TransferRun(y, inputs) == Behind(y.x.dl.out, TransferRun(ForgottenTransfer(y), inputs))
    ensures UndisturbedRun(y, inputs, resp) <==> UndisturbedRun(ForgottenTransfer(y), inputs, resp)
    ensures OwnMessages(y, inputs) == OwnMessages(ForgottenTransfer(y), inputs)
    ensures BusyAnswers(y, inputs) == BusyAnswers(ForgottenTransfer(y), inputs)
  {
    AfterForgotten(y.x.dl);
    if inputs != [] {
      var init := inputs[..|inputs| - 1];
      TransferAddsToHistory(y, init, resp);
      TransferStepBehind(y.x.dl.out, TransferRun(ForgottenTransfer(y), init), inputs[|inputs| - 1], resp);
    }
  }

  // ---------- every message counts ----------

  /** Where the transfer stands after `own` messages and `busy` busy answers. */
  predicate OnSchedule(s: Dl, q: Request, resp: seq<byte>, k: nat, mine: bool, own: nat, busy: nat)
    requires |resp| >= 2
  {
    var n := RequestSegments(q, s.od_len);
    match s.isdu.state
    case IhIdle1 =>
      if s.rwcmd == RwIsduTransport then own == 0 && busy == 0
      else own >= n + busy + Reads(q, resp, s.od_len) + One(mine)
    case IhRequest2 => own == s.isdu.current_isdu_seg && busy == 0
    case IhWait3 => own == n + busy + One(mine)
    case _ => own == n + busy + k + One(mine)
  }

  lemma OwnScheduled(s: Dl, q: Request, resp: seq<byte>, k: nat, own: nat, busy: nat)
    requires Phase(s, q, resp, k, false) && OnSchedule(s, q, resp, k, false, own, busy)
    requires s.isdu.active && s.od.trigger == TrigMaster
    ensures OnSchedule(IsduSm(s), q, resp, k, true, own + 1, busy)
  {
    RequestSegmentsBounds(q, s.od_len);
    match s.isdu.state
    case IhIdle1 =>
    case IhRequest2 =>
    case IhWait3 =>
    case _ =>
  }

  /** A busy answer, by what is on the wire and in the receive buffer. */
  predicate Busies(s: Dl) {
    IsduRead(s.out.wire) && s.out.wire.addr == FLOWCTRL_START && IsBusy(s.rx)
  }

  lemma AnswerScheduled(s: Dl, q: Request, resp: seq<byte>, k: nat, own: nat, busy: nat)
    requires Phase(s, q, resp, k, true) && OnSchedule(s, q, resp, k, true, own, busy)
    requires s.isdu.active && s.od.trigger == TrigDevice
    requires DeviceAnswers(s.out.wire, s.rx, resp, s.od_len, k)
    ensures OnSchedule(IsduSm(s), q, resp, Delivered(s.out.wire, s.rx, k), false, own, busy + One(Busies(s)))
  {
    IsduDevice(s, q, resp, k);
    IsduSmStep(s);
    match s.isdu.state
    case IhIdle1 =>
    case IhRequest2 =>
    case IhWait3 => PolledScheduled(s, q, resp, own, busy);
    case _ =>
  }

  lemma PolledScheduled(s: Dl, q: Request, resp: seq<byte>, own: nat, busy: nat)
    requires Phase(s, q, resp, 0, true) && OnSchedule(s, q, resp, 0, true, own, busy)
    requires s.isdu.state == IhWait3 && s.isdu.active && s.od.trigger == TrigDevice
    requires DeviceAnswers(s.out.wire, s.rx, resp, s.od_len, 0)
    ensures OnSchedule(IsduSm(s), q, resp, Delivered(s.out.wire, s.rx, 0), false, own, busy + One(Busies(s)))
  {
    IsduDevice(s, q, resp, 0);
    IsduSmStep(s);
    assert Times(0, s.od_len) == 0;
    assert Receive(s).isdu.data[0] == s.rx[0];
  }

  /** The schedule looks only at these. */
  lemma SameSchedule(s: Dl, t: Dl, q: Request, resp: seq<byte>, k: nat, mine: bool, own: nat, busy: nat)
    requires |resp| >= 2 && OnSchedule(s, q, resp, k, mine, own, busy)
    requires t.isdu == s.isdu && t.rwcmd == s.rwcmd && t.od_len == s.od_len
    ensures OnSchedule(t, q, resp, k, mine, own, busy)
  {
  }

  predicate ScheduleInv(y: Transfer, q: Request, resp: seq<byte>, own: nat, busy: nat) {
    TransferInv(y, q, resp) && OnSchedule(y.x.dl, q, resp, y.k, Mine(y.x), own, busy)
  }

  predicate Scheduled(z: Transfer, q: Request, resp: seq<byte>, own: nat, busy: nat)
    requires |resp| >= 2
  {
    OnSchedule(z.x.dl, q, resp, z.k, Mine(z.x), own, busy)
  }

  lemma MasterScheduled(y: Transfer, q: Request, resp: seq<byte>, own: nat, busy: nat)
    requires ScheduleInv(y, q, resp, own, busy) && !y.x.awaiting
    ensures Scheduled(TransferStep(y, Master), q, resp, own + One(OwnMessage(y, Master)), busy)
  {
    var s, z := Triggered(y.x.dl, Master), TransferStep(y, Master);
    MasterStep(y.x);
    OdSmStep(s);
    SamePhase(y.x.dl, s, q, resp, y.k, false);
    SameSchedule(y.x.dl, s, q, resp, y.k, false, own, busy);
    if IsduSees(s) {
      OwnScheduled(s, q, resp, y.k, own, busy);
      SameSchedule(IsduSm(s), z.x.dl, q, resp, y.k, true, own + 1, busy);
    } else {
      SameSchedule(s, z.x.dl, q, resp, y.k, false, own, busy);
    }
  }

  lemma DeviceScheduled(y: Transfer, q: Request, resp: seq<byte>, own: nat, busy: nat, i: Input)
    requires ScheduleInv(y, q, resp, own, busy) && i.Device? && Undisturbed(y, i, resp)
    ensures Scheduled(TransferStep(y, i), q, resp, own, busy + One(BusyAnswer(y, i)))
  {
    var s, z := Triggered(y.x.dl, i), TransferStep(y, i);
    DeviceStep(y.x, i.flag, i.rx);
    OdSmStep(s);
    SamePhase(y.x.dl, s, q, resp, y.k, Mine(y.x));
    SameSchedule(y.x.dl, s, q, resp, y.k, Mine(y.x), own, busy);
    if Mine(y.x) {
      AnswerScheduled(s, q, resp, y.k, own, busy);
      SameSchedule(IsduSm(s), z.x.dl, q, resp, z.k, false, own, busy + One(Busies(s)));
    } else {
      SameSchedule(s, z.x.dl, q, resp, y.k, false, own, busy);
    }
  }

  lemma StepScheduled(y: Transfer, q: Request, resp: seq<byte>, own: nat, busy: nat, i: Input)
    requires ScheduleInv(y, q, resp, own, busy) && Undisturbed(y, i, resp)
    ensures Scheduled(TransferStep(y, i), q, resp, own + One(OwnMessage(y, i)), busy + One(BusyAnswer(y, i)))
  {
    if i.Master? {
      MasterScheduled(y, q, resp, own, busy);
    } else if i.Device? {
      DeviceScheduled(y, q, resp, own, busy, i);
    } else {
      ServiceStep(y.x, i);
      CommandKeeps(y.x.dl, i);
      SameSchedule(y.x.dl, TransferStep(y, i).x.dl, q, resp, y.k, Mine(y.x), own, busy);
    }
  }

  lemma {:induction false} ScheduleHolds(y: Transfer, q: Request, resp: seq<byte>, inputs: seq<Input>)
    requires ScheduleInv(y, q, resp, 0, 0) && UndisturbedRun(y, inputs, resp)
    ensures ScheduleInv(TransferRun(y, inputs), q, resp, OwnMessages(y, inputs), BusyAnswers(y, inputs))
  {
    TransferInvariant(y, q, resp, inputs);
    if inputs != [] {
      var init := inputs[..|inputs| - 1];
      ScheduleHolds(y, q, resp, init);
      StepScheduled(TransferRun(y, init), q, resp, OwnMessages(y, init), BusyAnswers(y, init), inputs[|inputs| - 1]);
    }
  }

  // ---------- what the schedule says ----------

  function Min(a: nat, b: nat): nat {
    if a <= b then a else b
  }

  /** Between: nothing before a, then one for each, and no more than n. */
  function Since(answered: int, a: nat, n: nat): nat {
    if answered <= a then 0 else Min(answered - a, n)
  }

  predicate Done(q: Request, resp: seq<byte>, od: OdLen, answered: int, busy: nat)
    requires |resp| >= 2
  {
    answered >= RequestSegments(q, od) + busy + Reads(q, resp, od)
  }

  lemma {:induction false} JoinedSegments(d: IsduBuffer, od: OdLen, n: nat)
    requires Times(n, od) <= ISDU_MAX_SIZE
    ensures Joined(Segments(d, od, n)) == d[..Times(n, od)]
  {
    var f := Segments(d, od, n);
    if n > 0 {
      TimesMonotone(n - 1, n, od);
      JoinedSegments(d, od, n - 1);
      assert f[..n - 1] == Segments(d, od, n - 1);
      assert f[n - 1].data == d[Times(n - 1, od)..Times(n, od)];
    }
  }

  /** Joined, the segments are the request block and then zeros only. */
  predicate JoinsTo(frames: seq<Frame>, q: Request) {
    var j := Joined(frames);
    && |j| >= |Encode(q)|
    && j == Encode(q) + Zeros(|j| - |Encode(q)|)
    && Decode(j[..|Encode(q)|]) == Some(q)
  }

  lemma RequestJoined(q: Request, od: OdLen)
    requires Times(RequestSegments(q, od), od) <= ISDU_MAX_SIZE
    ensures JoinsTo(Segments(Built(q), od, RequestSegments(q, od)), q)
  {
    var n := RequestSegments(q, od);
    PiecesCover(|Encode(q)|, od);
    JoinedSegments(Built(q), od, n);
    DecodeEncode(q);
    BuiltPrefix(q, Times(n, od));
  }

  lemma BuiltPrefix(q: Request, n: nat)
    requires |Encode(q)| <= n <= ISDU_MAX_SIZE
    ensures Built(q)[..n] == Encode(q) + Zeros(n - |Encode(q)|)
    ensures Built(q)[..n][..|Encode(q)|] == Encode(q)
  {
  }

  lemma SegmentsRoundUp(q: Request, od: OdLen)
    ensures RequestSegments(q, od) == (|Encode(q)| + od - 1) / od
  {
    PiecesIsCeiling(|Encode(q)|, od);
  }

  lemma ConfirmedSoFar(s: Dl, q: Request, resp: seq<byte>, k: nat, mine: bool, own: nat, busy: nat)
    requires Phase(s, q, resp, k, mine) && OnSchedule(s, q, resp, k, mine, own, busy)
    ensures k == Since(own - One(mine), RequestSegments(q, s.od_len) + busy, Reads(q, resp, s.od_len))
    ensures s.out.cnfs ==
      if Done(q, resp, s.od_len, own - One(mine), busy) then [Outcome(q, resp, s.od_len)] else []
    ensures Done(q, resp, s.od_len, own - One(mine), busy) ==>
      s.isdu.state == IhIdle1 && s.rwcmd == RwNone && s.isdu.total_isdu_seg == 0
  {
    ReadsAtLeastOne(q, resp, s.od_len);
    RequestSegmentsBounds(q, s.od_len);
  }

  lemma ReadsAtLeastOne(q: Request, resp: seq<byte>, od: OdLen)
    requires |resp| >= 2
    ensures Reads(q, resp, od) >= 1
  {
  }

  lemma {:induction false} RunKeepsOdLen(y: Transfer, inputs: seq<Input>, resp: seq<byte>)
    requires UndisturbedRun(y, inputs, resp)
    ensures TransferRun(y, inputs).x.dl.od_len == y.x.dl.od_len
  {
    if inputs != [] {
      var init, i := inputs[..|inputs| - 1], inputs[|inputs| - 1];
      RunKeepsOdLen(y, init, resp);
      var z := TransferRun(y, init);
      if i.Master? || i.Device? {
        var s := Triggered(z.x.dl, i);
        OdSmStep(s);
        IsduSmStep(s);
      } else {
        CommandKeeps(z.x.dl, i);
      }
    }
  }

  /** Every run from an accepted request, seen from there. */
  lemma FromAccepted(x: Session, q: Request, resp: seq<byte>, inputs: seq<Input>) returns (z: Transfer)
    requires Accepted(x, q) && Framed(resp, q.read, x.dl.od_len) && UndisturbedRun(From(x), inputs, resp)
    ensures ScheduleInv(z, q, resp, OwnMessages(From(x), inputs), BusyAnswers(From(x), inputs))
    ensures z.x.dl.od_len == x.dl.od_len
    ensures TransferRun(From(x), inputs) == Behind(x.dl.out, z)
  {
    var y := ForgottenTransfer(From(x));
    TransferAddsToHistory(From(x), inputs, resp);
    ScheduleHolds(y, q, resp, inputs);
    RunKeepsOdLen(y, inputs, resp);
    z := TransferRun(y, inputs);
  }

  // ---------- the transport theorems ----------

  /** After `own` messages and `busy` busy answers, with the last message answered
      or not: the device has sent one segment for each answered message behind the
      request's, busy answers aside. The transfer is confirmed if and only if all
      segments to be read were answered: once, as its outcome, and the handler is
      idle again. */
  predicate AnswerTaken(x: Session, q: Request, resp: seq<byte>, own: nat, busy: nat, z: Transfer)
    requires Framed(resp, q.read, x.dl.od_len)
  {
    var od, answered := x.dl.od_len, own - One(Mine(z.x));
    && z.k == Since(answered, RequestSegments(q, od) + busy, Reads(q, resp, od))
    && if Done(q, resp, od, answered, busy)
       then z.x.dl.out.cnfs == x.dl.out.cnfs + [Outcome(q, resp, od)]
            && z.x.dl.isdu.state == IhIdle1 && z.x.dl.rwcmd == RwNone && z.x.dl.isdu.total_isdu_seg == 0
       else z.x.dl.out.cnfs == x.dl.out.cnfs
  }

  lemma ResponseEndToEnd(x: Session, q: Request, resp: seq<byte>, inputs: seq<Input>)
    requires Accepted(x, q) && Framed(resp, q.read, x.dl.od_len) && UndisturbedRun(From(x), inputs, resp)
    ensures AnswerTaken(x, q, resp, OwnMessages(From(x), inputs), BusyAnswers(From(x), inputs),
                        TransferRun(From(x), inputs))
  {
    var z := FromAccepted(x, q, resp, inputs);
    ResponseSoFar(x, q, resp, z, OwnMessages(From(x), inputs), BusyAnswers(From(x), inputs));
  }

  lemma ResponseSoFar(x: Session, q: Request, resp: seq<byte>, z: Transfer, own: nat, busy: nat)
    requires Framed(resp, q.read, x.dl.od_len)
    requires ScheduleInv(z, q, resp, own, busy) && z.x.dl.od_len == x.dl.od_len
    ensures AnswerTaken(x, q, resp, own, busy, Behind(x.dl.out, z))
  {
    ConfirmedSoFar(z.x.dl, q, resp, z.k, Mine(z.x), own, busy);
  }

  // ---------- what the outcome is ----------

  /** All ceil(len / od_len) segments are read and the outcome is the device's own
      payload, service and checksum result, unless the length is misread. */
  lemma ReadsAllUnlessMisread(q: Request, resp: seq<byte>, od: OdLen)
    requires Framed(resp, q.read, od)
    ensures Pieces(|resp|, od) == (|resp| + od - 1) / od
    ensures Reads(q, resp, od) == Pieces(|resp|, od) <==> !Misread(q, resp, od)
    ensures !Misread(q, resp, od) ==> Outcome(q, resp, od) == Expected(resp)
  {
    PiecesByOne(|resp|);
    PiecesIsCeiling(|resp|, od);
  }

  /** Which requests are misread: one octet per message, an answer with an extended
      length, and a short request for one of these indices. */
  lemma MisreadIffIndex(q: Request, resp: seq<byte>, od: OdLen)
    requires q.index >= 2 && |resp| >= 2
    ensures Misread(q, resp, od) <==>
      && od == 1 && Extended(resp) && q.Short()
      && (q.index == 2 || q.index == 16 || 256 <= q.index < 768 || 4096 <= q.index < 4352)
  {
    var u := Unchecked(q);
    assert Built(q)[1] == Encode(q)[1] == u[1];
    if q.Short() {
      assert u[1] == q.Address()[0];
      if q.index > 255 { HighOctet(q.index); }
    } else {
      assert u[1] == q.TotalLen();
    }
  }

  lemma HighOctet(index: nat)
    requires 256 <= index < 65536
    ensures var hi := (index / 256) % 256; (hi < 3 || hi == 16) <==> (index < 768 || 4096 <= index < 4352)
  {
    assert index / 256 < 256;
  }

  /** A misread answer passes as good in one case only: after two octets, when the
      first of them equals the length. The octets handed over are the request's. */
  lemma MisreadPassesIff(q: Request, resp: seq<byte>, od: OdLen)
    requires Framed(resp, q.read, od) && Misread(q, resp, od)
    ensures Outcome(q, resp, od).status == NoError <==> Built(q)[1] == 2 && resp[0] == |resp|
  {
    assert resp[..2] == [resp[0], resp[1]];
    FoldOfTwo(resp[0], resp[1]);
  }

  lemma FoldOfTwo(a: byte, b: byte)
    ensures XorFold([a, b]) == Xor(a, b)
    ensures XorFold([a, b]) == 0 <==> a == b
  {
    assert [a, b][..1] == [a];
    assert [a][..0] == [];
    XorZero(a);
    assert XorFold([a]) == Xor(0, a) == a;
    assert XorFold([a, b]) == Xor(XorFold([a]), b);
    XorSelf(b);
    XorCancel(a, b, b);
  }

  /** A response that differs from an intact one in a single octet behind the
      length header is still framed, and is confirmed as a checksum error. */
  lemma SingleOctetErrorDetected(resp: seq<byte>, i: nat, b: byte, read: bool, od: OdLen)
    requires Framed(resp, read, od) && XorFold(resp) == 0
    requires HeaderLen(resp) <= i < |resp| && b != resp[i]
    ensures Framed(resp[i := b], read, od)
    ensures Expected(resp).status == NoError
    ensures Expected(resp[i := b]).status == IsduChecksumError
  {
    FoldSeesOneOctet(resp, i, b);
  }

  /** So a transfer whose response was hit in one octet behind the length header,
      and whose length is not misread, ends with CHECKSUM_ERROR. */
  lemma DisturbedResponseIsReported(
    x: Session, q: Request, resp: seq<byte>, i: nat, b: byte, inputs: seq<Input>)
    requires Framed(resp, q.read, x.dl.od_len) && XorFold(resp) == 0
    requires HeaderLen(resp) <= i < |resp| && b != resp[i]
    requires Accepted(x, q) && UndisturbedRun(From(x), inputs, resp[i := b])
    requires !Misread(q, resp[i := b], x.dl.od_len)
    ensures Outcome(q, resp[i := b], x.dl.od_len).status == IsduChecksumError
    ensures AnswerTaken(x, q, resp[i := b], OwnMessages(From(x), inputs), BusyAnswers(From(x), inputs),
                        TransferRun(From(x), inputs))
  {
    SingleOctetErrorDetected(resp, i, b, q.read, x.dl.od_len);
    ResponseEndToEnd(x, q, resp[i := b], inputs);
  }

  // ---------- runs that leave the channel to the handler ----------

  /** Messages and answers only, and no event flag. */
  predicate Quiet(inputs: seq<Input>) {
    forall k :: 0 <= k < |inputs| ==> inputs[k].Master? || (inputs[k].Device? && !inputs[k].flag)
  }

  function Masters(inputs: seq<Input>): nat {
    if inputs == [] then 0 else Masters(inputs[..|inputs| - 1]) + One(inputs[|inputs| - 1].Master?)
  }

  /** The OD handler is with the ISDU handler, and no command waits. */
  predicate Undivided(x: Session) {
    MuxInv(x) && x.dl.od.state == OdIsdu1 && x.dl.cmd.control_code == CcNone
  }

  lemma QuietStep(x: Session, i: Input)
    requires Undivided(x) && LinkUp(x, i) && (i.Master? || (i.Device? && !i.flag))
    ensures Undivided(SessionStep(x, i)) && SessionStep(x, i).awaiting == i.Master?
    ensures i.Master? ==> IsduSees(Triggered(x.dl, i))
  {
    IsduSmKeepsMux(Triggered(x.dl, i));
  }

  /** Then every message is the ISDU handler's. */
  lemma {:induction false} QuietIsOwn(y: Transfer, inputs: seq<Input>, resp: seq<byte>)
    requires Undivided(y.x) && UndisturbedRun(y, inputs, resp) && Quiet(inputs)
    ensures OwnMessages(y, inputs) == Masters(inputs) && Undivided(TransferRun(y, inputs).x)
    ensures inputs != [] ==> TransferRun(y, inputs).x.awaiting == inputs[|inputs| - 1].Master?
  {
    if inputs != [] {
      var init := inputs[..|inputs| - 1];
      QuietIsOwn(y, init, resp);
      QuietStep(TransferRun(y, init).x, inputs[|inputs| - 1]);
    }
  }

  /** Without Commands and Events the transfer is confirmed with the answer to
      message number RequestSegments + busy answers + Reads, and not before. */
  lemma QuietTransferEnds(x: Session, q: Request, resp: seq<byte>, inputs: seq<Input>)
    requires Accepted(x, q) && Framed(resp, q.read, x.dl.od_len) && UndisturbedRun(From(x), inputs, resp)
    requires Undivided(x) && Quiet(inputs) && inputs != [] && inputs[|inputs| - 1].Device?
    ensures AnswerTaken(x, q, resp, Masters(inputs), BusyAnswers(From(x), inputs), TransferRun(From(x), inputs))
    ensures !TransferRun(From(x), inputs).x.awaiting
  {
    QuietIsOwn(From(x), inputs, resp);
    ResponseEndToEnd(x, q, resp, inputs);
  }

  // ---------- such a run exists ----------

  /** The device sends the segment it is asked for. */
  function Reply(y: Transfer, resp: seq<byte>): RxBuffer {
    var k := if y.x.dl.out.wire.addr == FLOWCTRL_START then 0 else y.k;
    Window(resp, Times(k, y.x.dl.od_len), RXTX_BUFFER_SIZE)
  }

  lemma ReplyAnswers(y: Transfer, resp: seq<byte>)
    ensures DeviceAnswers(y.x.dl.out.wire, Reply(y, resp), resp, y.x.dl.od_len, y.k)
    ensures |resp| >= 2 && IServiceOf(resp) != DEVICE_NO_SERVICE ==> !BusyAnswer(y, Device(false, Reply(y, resp)))
  {
    assert Times(0, y.x.dl.od_len) == 0;
  }

  /** One more input that leaves the channel to the handler. */
  lemma QuietlyOn(y: Transfer, inputs: seq<Input>, i: Input, resp: seq<byte>)
    requires UndisturbedRun(y, inputs, resp) && Undisturbed(TransferRun(y, inputs), i, resp) && Quiet(inputs)
    requires i.Master? || (i.Device? && !i.flag)
    ensures UndisturbedRun(y, inputs + [i], resp) && Quiet(inputs + [i])
    ensures TransferRun(y, inputs + [i]) == TransferStep(TransferRun(y, inputs), i)
    ensures Masters(inputs + [i]) == Masters(inputs) + One(i.Master?)
    ensures BusyAnswers(y, inputs + [i]) == BusyAnswers(y, inputs) + One(BusyAnswer(TransferRun(y, inputs), i))
  {
    assert (inputs + [i])[..|inputs + [i]| - 1] == inputs;
  }

  /** A run of n exchanges without busy answers. */
  predicate Exchanged(y: Transfer, r: seq<Input>, resp: seq<byte>, n: nat) {
    && UndisturbedRun(y, r, resp) && Quiet(r) && Masters(r) == n && BusyAnswers(y, r) == 0
    && !TransferRun(y, r).x.awaiting && Undivided(TransferRun(y, r).x)
    && (n > 0 ==> r != [] && r[|r| - 1].Device?)
  }

  function Exchange(y: Transfer, r: seq<Input>, resp: seq<byte>): seq<Input> {
    r + [Master] + [Device(false, Reply(TransferRun(y, r + [Master]), resp))]
  }

  lemma OneMoreExchange(y: Transfer, resp: seq<byte>, r: seq<Input>, n: nat)
    requires n > 0 && Exchanged(y, r, resp, n - 1)
    requires |resp| >= 2 && IServiceOf(resp) != DEVICE_NO_SERVICE
    ensures Exchanged(y, Exchange(y, r, resp), resp, n)
  {
    QuietlyOn(y, r, Master, resp);
    QuietStep(TransferRun(y, r).x, Master);
    var asked := r + [Master];
    var z := TransferRun(y, asked);
    var d := Device(false, Reply(z, resp));
    ReplyAnswers(z, resp);
    QuietlyOn(y, asked, d, resp);
    QuietStep(z.x, d);
  }

  ghost predicate CanExchange(y: Transfer, resp: seq<byte>, n: nat) {
    exists r :: Exchanged(y, r, resp, n)
  }

  lemma CanExchangeOnce(y: Transfer, resp: seq<byte>, r: seq<Input>, n: nat)
    requires Exchanged(y, r, resp, n)
    ensures CanExchange(y, resp, n)
  {
  }

  /** A device that answers at once, for any number of exchanges. */
  lemma {:induction false} ExchangesExist(y: Transfer, resp: seq<byte>, n: nat)
    requires Undivided(y.x) && !y.x.awaiting
    requires |resp| >= 2 && IServiceOf(resp) != DEVICE_NO_SERVICE
    ensures CanExchange(y, resp, n)
  {
    if n == 0 {
      assert Exchanged(y, [], resp, 0);
    } else {
      ExchangesExist(y, resp, n - 1);
      var r :| Exchanged(y, r, resp, n - 1);
      OneMoreExchange(y, resp, r, n);
      CanExchangeOnce(y, resp, Exchange(y, r, resp), n);
    }
  }

  /** Confirmed with this run of n messages and their answers, and once. */
  predicate Completes(x: Session, q: Request, resp: seq<byte>, run: seq<Input>, n: nat)
    requires Framed(resp, q.read, x.dl.od_len)
  {
    && UndisturbedRun(From(x), run, resp) && Quiet(run) && Masters(run) == n
    && TransferRun(From(x), run).x.dl.out.cnfs == x.dl.out.cnfs + [Outcome(q, resp, x.dl.od_len)]
  }

  ghost predicate CanComplete(x: Session, q: Request, resp: seq<byte>, n: nat)
    requires Framed(resp, q.read, x.dl.od_len)
  {
    exists run :: Completes(x, q, resp, run, n)
  }

  lemma CompletesInTime(x: Session, q: Request, resp: seq<byte>, run: seq<Input>, n: nat)
    requires Accepted(x, q) && Framed(resp, q.read, x.dl.od_len) && Undivided(x)
    requires Exchanged(From(x), run, resp, n)
    requires n >= RequestSegments(q, x.dl.od_len) + Reads(q, resp, x.dl.od_len)
    ensures Completes(x, q, resp, run, n)
  {
    ReadsAtLeastOne(q, resp, x.dl.od_len);
    QuietTransferEnds(x, q, resp, run);
  }

  lemma CompletesOnce(x: Session, q: Request, resp: seq<byte>, run: seq<Input>, n: nat)
    requires Framed(resp, q.read, x.dl.od_len) && Completes(x, q, resp, run, n)
    ensures CanComplete(x, q, resp, n)
  {
  }

  lemma CompletesWith(x: Session, q: Request, resp: seq<byte>, n: nat)
    requires Accepted(x, q) && Framed(resp, q.read, x.dl.od_len) && Undivided(x) && !x.awaiting
    requires n >= RequestSegments(q, x.dl.od_len) + Reads(q, resp, x.dl.od_len)
    ensures CanComplete(x, q, resp, n)
  {
    ExchangesExist(From(x), resp, n);
    var run :| Exchanged(From(x), run, resp, n);
    CompletesInTime(x, q, resp, run, n);
    CompletesOnce(x, q, resp, run, n);
  }

  /** Every accepted request can be completed: that many exchanges do it. */
  lemma EveryRequestCompletes(x: Session, q: Request, resp: seq<byte>)
    requires Accepted(x, q) && Framed(resp, q.read, x.dl.od_len) && Undivided(x) && !x.awaiting
    ensures CanComplete(x, q, resp, RequestSegments(q, x.dl.od_len) + Reads(q, resp, x.dl.od_len))
  {
    CompletesWith(x, q, resp, RequestSegments(q, x.dl.od_len) + Reads(q, resp, x.dl.od_len));
  }

  // ---------- a misread answer ----------

  const READ_INDEX_16: Request := Request(true, 16, 0, [])

  /** A positive answer with 14 octets of data, intact. */
  const LONG_ANSWER: seq<byte> := [0xD1, 17] + Zeros(14) + [0xC0]

  lemma LongAnswerFolds()
    ensures XorFold(LONG_ANSWER) == 0
  {
    var u := [0xD1, 17] + Zeros(14);
    FoldOfZeros([0xD1, 17], 14);
    FoldOfTwo(0xD1, 17);
    LongAnswerCheck();
    FoldChecked(u, 0xC0);
  }

  lemma FoldChecked(u: seq<byte>, c: byte)
    requires XorFold(u) == c
    ensures XorFold(u + [c]) == 0
  {
    assert (u + [c])[..|u + [c]| - 1] == u;
    XorSelf(c);
  }

  lemma LongAnswerCheck()
    ensures Xor(0xD1, 17) == 0xC0
  {
    assert XorNat(13, 1) == 12;
    assert XorNat(26, 2) == 24;
    assert XorNat(52, 4) == 48;
    assert XorNat(104, 8) == 96;
  }

  lemma LongAnswerIsFramed()
    ensures Framed(LONG_ANSWER, true, 1)
    ensures Outcome(READ_INDEX_16, LONG_ANSWER, 1) == IsduCnf([], READ_RESPONSE_POS, Invalid)
    ensures Reads(READ_INDEX_16, LONG_ANSWER, 1) == 1
  {
    PiecesByOne(17);
    TimesIsProduct(17, 1);
    assert Built(READ_INDEX_16)[1] == Unchecked(READ_INDEX_16)[1] == 16;
  }

  /** Reading index 16 with one octet per message: an intact answer of 14 octets is
      confirmed as INVALID and without data, after its first octet. */
  lemma IntactAnswerIsLost(x: Session)
    requires Accepted(x, READ_INDEX_16) && x.dl.od_len == 1 && Undivided(x) && !x.awaiting
    ensures XorFold(LONG_ANSWER) == 0 && Framed(LONG_ANSWER, true, 1)
    ensures Outcome(READ_INDEX_16, LONG_ANSWER, 1) == IsduCnf([], READ_RESPONSE_POS, Invalid)
    ensures CanComplete(x, READ_INDEX_16, LONG_ANSWER, RequestSegments(READ_INDEX_16, 1) + 1)
  {
    LongAnswerFolds();
    LongAnswerIsFramed();
    EveryRequestCompletes(x, READ_INDEX_16, LONG_ANSWER);
  }
}
