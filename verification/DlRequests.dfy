/**
 * The request half of the transport theorems. It does not depend on the device: it
 * may answer what it likes, refuse the request, or be slow.
 */
module DlRequests {
  import opened Bytes
  import opened IsduCodec
  import opened DlModel
  import opened DlAccounting
  import opened DlMultiplexer
  import opened DlTransport
  import opened DlHistory
  import opened DlEndToEnd
  import D = DlDeactivation

  /** Only Commands and Events come in between, and the response time may run out.
      What the device answers is free. */
  predicate AnyDevice(y: Transfer, i: Input) {
    LinkUp(y.x, i) && (i.Master? || i.Device? || i.Control? || i.Devicemode? || i.TimerExpires?)
  }

  predicate AnyDeviceRun(y: Transfer, inputs: seq<Input>) {
    inputs == []
    || (AnyDeviceRun(y, inputs[..|inputs| - 1])
        && AnyDevice(TransferRun(y, inputs[..|inputs| - 1]), inputs[|inputs| - 1]))
  }

  lemma {:induction false} UndisturbedIsAnyDevice(y: Transfer, inputs: seq<Input>, resp: seq<byte>)
    requires UndisturbedRun(y, inputs, resp)
    ensures AnyDeviceRun(y, inputs)
  {
    if inputs != [] { UndisturbedIsAnyDevice(y, inputs[..|inputs| - 1], resp); }
  }

  lemma {:induction false} AnyDeviceForgets(y: Transfer, inputs: seq<Input>)
    ensures AnyDeviceRun(y, inputs) <==> AnyDeviceRun(ForgottenTransfer(y), inputs)
  {
    if inputs != [] {
      var init := inputs[..|inputs| - 1];
      AnyDeviceForgets(y, init);
      TransferAddsToHistory(y, init, []);
    }
  }

  // ---------- where the request stands ----------

  /** All sent, and nothing left that could send a segment. */
  predicate Past(s: Dl, q: Request) {
    s.isdu.state != IhInactive0 && D.NothingToSend(s) && AllSent(s, q)
  }

  /** After `own` messages of the ISDU handler. */
  predicate SendPhase(s: Dl, q: Request, mine: bool, own: nat) {
    && !s.com_lost && s.isdu.active
    && ((Waiting(s, q) && own == 0)
        || (Sending(s, q, mine) && own == s.isdu.current_isdu_seg)
        || (Past(s, q) && own >= RequestSegments(q, s.od_len)))
  }

  predicate SendInv(y: Transfer, q: Request, own: nat) {
    MuxInv(y.x) && SendPhase(y.x.dl, q, Mine(y.x), own)
  }

  lemma FirstSent(s: Dl, q: Request)
    requires Waiting(s, q) && s.isdu.active && !s.com_lost && s.od.trigger == TrigMaster
    ensures SendPhase(IsduSm(s), q, true, 1)
  {
    RequestSegmentsBounds(q, s.od_len);
    OneMoreSegment(s, q, 0);
    assert Segments(Built(q), s.od_len, 0) == [];
  }

  lemma NextSent(s: Dl, q: Request)
    requires Sending(s, q, false) && s.isdu.active && !s.com_lost && s.od.trigger == TrigMaster
    ensures SendPhase(IsduSm(s), q, true, s.isdu.current_isdu_seg + 1)
  {
    RequestSegmentsBounds(q, s.od_len);
    OneMoreSegment(s, q, s.isdu.current_isdu_seg);
  }

  lemma AnsweredBetween(s: Dl, q: Request)
    requires Sending(s, q, true) && s.isdu.active && !s.com_lost && s.od.trigger == TrigDevice
    ensures SendPhase(IsduSm(s), q, false, s.isdu.current_isdu_seg)
  {
  }

  /** Behind the request nothing the device does makes the handler send again. */
  lemma PastStays(s: Dl, q: Request)
    requires Past(s, q) && s.isdu.active && !s.com_lost
    ensures Past(IsduSm(s), q)
  {
    IsduSmStep(s);
    D.IsduSends(s);
    match s.isdu.state
    case IhIdle1 => IdleStays(s);
    case IhWait3 => D.Wait3Leads(s);
    case IhResponse5 => D.Response5Leads(s);
    case _ =>
  }

  lemma IdleStays(s: Dl)
    requires s.isdu.state == IhIdle1 && s.isdu.active && s.rwcmd != RwIsduTransport
    ensures D.NothingToSend(IsduIdle1(s))
  {
  }

  lemma OwnSends(s: Dl, q: Request, own: nat)
    requires SendPhase(s, q, false, own) && s.od.trigger == TrigMaster
    ensures SendPhase(IsduSm(s), q, true, own + 1)
  {
    IsduSmStep(s);
    if Waiting(s, q) {
      FirstSent(s, q);
    } else if Sending(s, q, false) {
      NextSent(s, q);
    } else {
      PastStays(s, q);
    }
  }

  lemma WaitingStays(s: Dl, q: Request)
    requires Waiting(s, q) && s.isdu.active && s.od.trigger == TrigDevice
    ensures Waiting(IsduSm(s), q)
  {
  }

  lemma AnswerSends(s: Dl, q: Request, own: nat)
    requires SendPhase(s, q, true, own) && s.od.trigger == TrigDevice
    ensures SendPhase(IsduSm(s), q, false, own)
  {
    IsduSmStep(s);
    if Waiting(s, q) {
      WaitingStays(s, q);
    } else if Sending(s, q, true) {
      AnsweredBetween(s, q);
    } else {
      PastStays(s, q);
    }
  }

  /** The phase looks only at these. */
  lemma SameSendPhase(s: Dl, t: Dl, q: Request, mine: bool, own: nat)
    requires SendPhase(s, q, mine, own)
    requires t.isdu.(timer_expired := s.isdu.timer_expired) == s.isdu && t.rwcmd == s.rwcmd
    requires t.com_lost == s.com_lost && t.od_len == s.od_len
    requires t.out.segments == s.out.segments && t.out.cnfs == s.out.cnfs
    ensures SendPhase(t, q, mine, own)
  {
  }

  /** The OD handler passes on exactly what the ISDU handler does. */
  lemma PassesOn(s: Dl)
    ensures if IsduSees(s) then OdSm(s).out == IsduSm(s).out else OdSm(s).out.segments == s.out.segments
  {
    D.OdSends(s);
    if IsduSees(s) { IsduSmStep(s); }
  }

  lemma MasterSends(y: Transfer, q: Request, own: nat)
    requires SendInv(y, q, own) && !y.x.awaiting
    ensures SendInv(TransferStep(y, Master), q, own + One(OwnMessage(y, Master)))
  {
    var s, z := Triggered(y.x.dl, Master), TransferStep(y, Master);
    MasterStep(y.x);
    OdSmStep(s);
    PassesOn(s);
    SameSendPhase(y.x.dl, s, q, false, own);
    if IsduSees(s) {
      OwnSends(s, q, own);
      SameSendPhase(IsduSm(s), z.x.dl, q, true, own + 1);
    } else {
      SameSendPhase(s, z.x.dl, q, false, own);
    }
  }

  lemma DeviceSends(y: Transfer, q: Request, own: nat, i: Input)
    requires SendInv(y, q, own) && y.x.awaiting && i.Device?
    ensures SendInv(TransferStep(y, i), q, own)
  {
    var s, z := Triggered(y.x.dl, i), TransferStep(y, i);
    DeviceStep(y.x, i.flag, i.rx);
    OdSmStep(s);
    PassesOn(s);
    SameSendPhase(y.x.dl, s, q, Mine(y.x), own);
    if IsduSees(s) {
      AnswerSends(s, q, own);
      SameSendPhase(IsduSm(s), z.x.dl, q, false, own);
    } else {
      SameSendPhase(s, z.x.dl, q, false, own);
    }
  }

  lemma CallSends(y: Transfer, q: Request, own: nat, i: Input)
    requires SendInv(y, q, own) && LinkUp(y.x, i) && (i.Control? || i.Devicemode? || i.TimerExpires?)
    ensures SendInv(TransferStep(y, i), q, own)
  {
    ServiceStep(y.x, i);
    CommandSends(y.x.dl, i);
    SameSendPhase(y.x.dl, TransferStep(y, i).x.dl, q, Mine(y.x), own);
  }

  lemma CommandSends(s: Dl, i: Input)
    requires i.Control? || i.Devicemode? || i.TimerExpires?
    ensures var t := Step(s, i);
            && t.isdu.(timer_expired := s.isdu.timer_expired) == s.isdu && t.rwcmd == s.rwcmd
            && t.com_lost == s.com_lost && t.od_len == s.od_len
            && t.out.segments == s.out.segments && t.out.cnfs == s.out.cnfs
  {
    match i
    case Control(code) =>
      CommandKeeps(s, i);
      D.CmdSends(s.(cmd := s.cmd.(control_code := code)));
    case Devicemode(m) =>
      CommandKeeps(s, i);
      D.CmdSends(s.(cmd := s.cmd.(master_command := DevicemodeCommand(m), control_code := CcDevicemode)));
    case _ =>
  }

  lemma {:induction false} SendsHold(y: Transfer, q: Request, inputs: seq<Input>)
    requires SendInv(y, q, 0) && AnyDeviceRun(y, inputs)
    ensures SendInv(TransferRun(y, inputs), q, OwnMessages(y, inputs))
    ensures TransferRun(y, inputs).x.dl.od_len == y.x.dl.od_len
  {
    if inputs != [] {
      var init, i := inputs[..|inputs| - 1], inputs[|inputs| - 1];
      SendsHold(y, q, init);
      var z, own := TransferRun(y, init), OwnMessages(y, init);
      StepKeepsOdLen(z, i);
      if i.Master? {
        MasterSends(z, q, own);
      } else if i.Device? {
        DeviceSends(z, q, own, i);
      } else {
        CallSends(z, q, own, i);
      }
    }
  }

  lemma StepKeepsOdLen(z: Transfer, i: Input)
    requires AnyDevice(z, i)
    ensures TransferStep(z, i).x.dl.od_len == z.x.dl.od_len
  {
    if i.Master? || i.Device? {
      OdSmStep(Triggered(z.x.dl, i));
      IsduSmStep(Triggered(z.x.dl, i));
    } else {
      CommandSends(z.x.dl, i);
    }
  }

  // ---------- the theorem ----------

  /** After `own` messages of the ISDU handler: the first segments of the request,
      all ceil(len / od_len) of them from that many messages on. */
  predicate SegmentsSent(x: Session, q: Request, own: nat, t: Dl) {
    var n := RequestSegments(q, x.dl.od_len);
    t.out.segments == x.dl.out.segments + Segments(Built(q), x.dl.od_len, Min(own, n))
  }

  lemma SentSoFar(x: Session, q: Request, z: Transfer, own: nat)
    requires SendInv(z, q, own) && z.x.dl.od_len == x.dl.od_len
    ensures SegmentsSent(x, q, own, Behind(x.dl.out, z).x.dl)
  {
    assert Segments(Built(q), x.dl.od_len, 0) == [];
  }

  /** Every accepted request, under every interleaving of Commands and Events, whatever
      the device answers: each message of the ISDU handler adds the next segment of the
      request until all ceil(len / od_len) are sent, and none after. Joined they are
      the request block followed only by zeros, so that the device decodes exactly this
      request. */
  lemma RequestEndToEnd(x: Session, q: Request, inputs: seq<Input>)
    requires Accepted(x, q) && AnyDeviceRun(From(x), inputs)
    requires Times(RequestSegments(q, x.dl.od_len), x.dl.od_len) <= ISDU_MAX_SIZE
    ensures SegmentsSent(x, q, OwnMessages(From(x), inputs), TransferRun(From(x), inputs).x.dl)
    ensures JoinsTo(Segments(Built(q), x.dl.od_len, RequestSegments(q, x.dl.od_len)), q)
  {
    RequestJoined(q, x.dl.od_len);
    var z := SentFromAccepted(x, q, inputs);
    SentSoFar(x, q, z, OwnMessages(From(x), inputs));
  }

  lemma SentFromAccepted(x: Session, q: Request, inputs: seq<Input>) returns (z: Transfer)
    requires Accepted(x, q) && AnyDeviceRun(From(x), inputs)
    ensures SendInv(z, q, OwnMessages(From(x), inputs)) && z.x.dl.od_len == x.dl.od_len
    ensures TransferRun(From(x), inputs) == Behind(x.dl.out, z)
  {
    var y := ForgottenTransfer(From(x));
    TransferAddsToHistory(From(x), inputs, []);
    AnyDeviceForgets(From(x), inputs);
    SendsHold(y, q, inputs);
    z := TransferRun(y, inputs);
  }
}
