/**
 * What switching the handlers off and on again does to a request under way, and
 * how a transfer that is given up is reported.
 */
module DlDeactivation {
  import opened Bytes
  import opened IsduCodec
  import opened DlModel
  import opened DlAccounting
  import opened DlMultiplexer
  import opened DlCommands

  // ---------- switching off ----------

  /** The octets just received end the transfer: a refusal, or a whole response. */
  predicate AnswerIn(s: Dl) {
    var t := Receive(s);
    && t.isdu.data[0] != DEVICE_NO_SERVICE * 16 + 1
    && (t.isdu.data[0] == 0 || !ValidHeader(t.isdu.data, t.isdu.data_dir_read)
        || FirstRead(t).isdu.total_isdu_seg <= 1)
  }

  predicate LastSegmentIn(s: Dl) {
    var v := CountSegment(Receive(ReadLength(s)));
    v.isdu.current_isdu_seg >= v.isdu.total_isdu_seg
  }

  /** When switched off, the ISDU handler looks at the command, the link, the timer
      and the trigger left over; not at being switched off. */
  predicate AnswersWhenOff(s: Dl) {
    match s.isdu.state
    case IhInactive0 => false
    case IhIdle1 => s.isdu.total_isdu_seg != 0
    case IhRequest2 => s.rwcmd == RwIsduAbort || s.com_lost
    case IhWait3 =>
      s.rwcmd == RwIsduAbort || s.TimerElapsed() || s.com_lost || (s.od.trigger == TrigDevice && AnswerIn(s))
    case IhError4 => false
    case IhResponse5 => s.rwcmd == RwIsduAbort || s.com_lost || (s.od.trigger == TrigDevice && LastSegmentIn(s))
  }

  /** One confirmation more or the same ones; and is the handler still busy? */
  predicate Answers(s: Dl, t: Dl, answers: bool) {
    |t.out.cnfs| == |s.out.cnfs| + One(answers)
  }

  lemma EnterOff(s: Dl)
    requires !s.isdu.active
    ensures Answers(s, EnterIsduError4(s), true) && !Busy(EnterIsduError4(s))
  {
  }

  lemma CollectedOff(v: Dl)
    requires v.isdu.state == IhResponse5
    ensures Answers(v, Collected(v), v.isdu.current_isdu_seg >= v.isdu.total_isdu_seg)
    ensures Busy(Collected(v)) <==> v.isdu.current_isdu_seg < v.isdu.total_isdu_seg
  {
  }

  lemma Wait3Off(s: Dl)
    requires s.isdu.state == IhWait3 && !s.isdu.active
    ensures Answers(s, IsduWait3(s), AnswersWhenOff(s))
    ensures Busy(IsduWait3(s)) <==> !AnswersWhenOff(s)
  {
    if s.rwcmd == RwIsduAbort {
      EnterOff(TimerReset(s));
    } else if s.TimerElapsed() || s.com_lost {
      EnterOff(s);
    } else if s.od.trigger == TrigDevice {
      var t := Receive(s);
      EnterOff(TimerReset(t));
      CollectedOff(FirstRead(t));
    }
  }

  lemma Response5Off(s: Dl)
    requires s.isdu.state == IhResponse5 && !s.isdu.active
    ensures Answers(s, IsduResponse5(s), AnswersWhenOff(s))
    ensures Busy(IsduResponse5(s)) <==> !AnswersWhenOff(s)
  {
    if s.rwcmd == RwIsduAbort || s.com_lost {
      EnterOff(s);
    } else if s.od.trigger == TrigDevice {
      CollectedOff(CountSegment(Receive(ReadLength(s))));
    }
  }

  lemma Request2Off(s: Dl)
    requires s.isdu.state == IhRequest2 && !s.isdu.active
    ensures Answers(s, IsduRequest2(s), AnswersWhenOff(s))
    ensures Busy(IsduRequest2(s)) <==> !AnswersWhenOff(s)
  {
    EnterOff(s);
  }

  lemma IsduOff(s: Dl)
    requires !s.isdu.active
    ensures Answers(s, IsduSm(s), AnswersWhenOff(s))
    ensures Busy(s) && s.isdu.state != IhError4 ==> (Busy(IsduSm(s)) <==> !AnswersWhenOff(s))
  {
    match s.isdu.state
    case IhRequest2 => Request2Off(s);
    case IhWait3 => Wait3Off(s);
    case IhResponse5 => Response5Off(s);
    case _ =>
  }

  /** What AnswersWhenOff looks at. */
  predicate SameTransfer(s: Dl, t: Dl) {
    && t.isdu.(active := s.isdu.active) == s.isdu && t.rwcmd == s.rwcmd && t.com_lost == s.com_lost
    && t.od.trigger == s.od.trigger && t.rx == s.rx && t.od_len == s.od_len
    && t.out.cnfs == s.out.cnfs && t.out.segments == s.out.segments
  }

  lemma OhOff(s: Dl)
    ensures SameTransfer(s, OhConf(s, false))
  {
    match s.od.state
    case OdInactive0 =>
    case OdIsdu1 =>
    case OdCommand2 =>
    case OdEvent3 =>
  }

  lemma ChOff(s: Dl)
    ensures SameTransfer(s, ChConf(s, false)) && ChConf(s, false).isdu == s.isdu
  {
  }

  lemma SameAnswers(s: Dl, t: Dl)
    requires SameTransfer(s, t)
    ensures AnswersWhenOff(t) == AnswersWhenOff(s) && Busy(t) == Busy(s) && t.isdu.state == s.isdu.state
    ensures |t.out.cnfs| == |s.out.cnfs|
  {
    assert Receive(t).isdu.data == Receive(s).isdu.data;
    match s.isdu.state
    case IhWait3 => SameFirst(s, t);
    case IhResponse5 => SameLast(s, t);
    case _ =>
  }

  lemma SameFirst(s: Dl, t: Dl)
    requires SameTransfer(s, t)
    ensures AnswerIn(t) == AnswerIn(s)
  {
    assert Receive(t).isdu.data == Receive(s).isdu.data;
  }

  lemma SameLast(s: Dl, t: Dl)
    requires SameTransfer(s, t)
    ensures LastSegmentIn(t) == LastSegmentIn(s)
  {
  }

  /** The outcome of switching off: one answer or none, and busy still or not. */
  predicate SwitchedOff(s: Dl, t: Dl) {
    && Answers(s, t, AnswersWhenOff(s))
    && (Busy(s) && s.isdu.state != IhError4 ==> (Busy(t) <==> !AnswersWhenOff(s)))
  }

  lemma IhOff(s: Dl)
    ensures SwitchedOff(s, IhConf(s, false))
  {
    var v := s.(isdu := s.isdu.(active := false));
    SameAnswers(s, v);
    IsduOff(v);
  }

  lemma EhOff(s: Dl)
    ensures EhConf(s, false).isdu == s.isdu && EhConf(s, false).out.cnfs == s.out.cnfs
  {
    EvSmKeeps(s.(ev := s.ev.(active := false)));
  }

  lemma SetOff(s: Dl)
    ensures SwitchedOff(s, SetActive(s, false))
  {
    OhOff(s);
    SameAnswers(s, OhConf(s, false));
    IhOff(OhConf(s, false));
    EhOff(IhConf(OhConf(s, false), false));
  }

  lemma SwitchedOffLater(s: Dl, t: Dl, u: Dl, v: Dl)
    requires SwitchedOff(t, u) && SameTransfer(s, t)
    requires v.isdu == u.isdu && v.out.cnfs == u.out.cnfs
    ensures SwitchedOff(s, v)
  {
    SameAnswers(s, t);
  }

  lemma IdleOff(s: Dl)
    ensures SwitchedOff(s, GotoIdle(s))
  {
    SetOff(s);
    ChOff(SetActive(s, false));
    SwitchedOffLater(s, s, SetActive(s, false), GotoIdle(s));
  }

  lemma StartupOff(s: Dl)
    ensures SwitchedOff(s, SetActive(ChConf(s, false), false))
  {
    ChOff(s);
    SetOff(ChConf(s, false));
    SwitchedOffLater(s, ChConf(s, false), SetActive(ChConf(s, false), false), SetActive(ChConf(s, false), false));
  }

  /** In every state, deactivation answers a request exactly if it waits in IDLE_1,
      or its transfer was aborted, lost its link, timed out in WAIT_3, or ended
      with the octets last received. Any other transfer survives, switched off and
      unanswered; the one resting in ISDUERROR_4 is forgotten. */
  lemma DeactivationAnswersIff(s: Dl)
    requires Deactivates(s)
    ensures |ModeSm(s).out.cnfs| == |s.out.cnfs| + One(AnswersWhenOff(s))
    ensures Busy(s) && s.isdu.state != IhError4 ==> (Busy(ModeSm(s)) <==> !AnswersWhenOff(s))
  {
    if s.mode == MdPreoperate3 && s.dl_mode == ModeStartup {
      StartupOff(s);
    } else if s.mode == MdOperate4 && s.dl_mode == ModeStartup {
      SetOff(s);
    } else {
      IdleOff(s);
    }
  }

  /** A transfer that survived gets no answer from any input short of a mode change. */
  lemma AbandonedStep(s: Dl, i: Input)
    requires Busy(s) && !s.isdu.active && !s.od.active
    requires s.od.state == OdInactive0 || s.od.state == OdCommand2
    requires !i.ModeEvent?
    ensures var t := Step(s, i);
            && t.isdu.state == s.isdu.state && !t.isdu.active && !t.od.active
            && (t.od.state == OdInactive0 || t.od.state == OdCommand2)
            && Answers(s, t, i.IsduRequest?)
  {
    match i
    case Master => AbandonedTrigger(s, i);
    case Device(flag, rx) => AbandonedTrigger(s, i);
    case Control(code) => CommandKeeps(s, i);
    case Devicemode(m) => CommandKeeps(s, i);
    case LinkLost(preoperate) => WriteMasterCommandKeeps(s, NoComm);
    case WakeUp(ok) => AbandonedWakeUp(s, ok);
    case IsduRequest(q) => AbandonedRequest(s, q);
    case _ => AbandonedAside(s, i);
  }

  /** Still abandoned, and with one refusal more or none. */
  predicate StaysAbandoned(s: Dl, t: Dl, refused: bool) {
    && t.isdu.state == s.isdu.state && !t.isdu.active && !t.od.active
    && (t.od.state == OdInactive0 || t.od.state == OdCommand2)
    && Answers(s, t, refused)
  }

  lemma AbandonedTrigger(s: Dl, i: Input)
    requires !s.isdu.active && !s.od.active && (s.od.state == OdInactive0 || s.od.state == OdCommand2)
    requires i.Master? || i.Device?
    ensures StaysAbandoned(s, Step(s, i), false)
  {
    OdSmStep(Triggered(s, i));
  }

  lemma AbandonedRequest(s: Dl, q: Request)
    requires Busy(s) && !s.isdu.active && !s.od.active
    requires s.od.state == OdInactive0 || s.od.state == OdCommand2
    ensures StaysAbandoned(s, TransportReq(s, q), true)
  {
  }

  lemma AbandonedWakeUp(s: Dl, ok: bool)
    requires !s.isdu.active && !s.od.active && (s.od.state == OdInactive0 || s.od.state == OdCommand2)
    ensures StaysAbandoned(s, Step(s, WakeUp(ok)), false)
  {
    ChConfKeeps(s.(mode := MdStartup2), true);
  }

  lemma AbandonedAside(s: Dl, i: Input)
    requires !s.isdu.active && !s.od.active && (s.od.state == OdInactive0 || s.od.state == OdCommand2)
    requires i.Param? || i.Abort? || i.TimerExpires? || i.SetMode? || i.DirectAccess? || i.AccessDone?
    ensures StaysAbandoned(s, Step(s, i), false)
  {
  }

  function Requests(inputs: seq<Input>): nat {
    if inputs == [] then 0
    else Requests(inputs[..|inputs| - 1]) + One(inputs[|inputs| - 1].IsduRequest?)
  }

  /** So the application layer waits for it, over every run without a mode change:
      all that is confirmed are refusals of other requests. */
  lemma {:induction false} AbandonedTransferWaits(s: Dl, inputs: seq<Input>)
    requires Busy(s) && !s.isdu.active && !s.od.active
    requires s.od.state == OdInactive0 || s.od.state == OdCommand2
    requires forall k :: 0 <= k < |inputs| ==> !inputs[k].ModeEvent?
    ensures var t := Run(s, inputs);
            && t.isdu.state == s.isdu.state && !t.isdu.active && !t.od.active
            && (t.od.state == OdInactive0 || t.od.state == OdCommand2)
            && |t.out.cnfs| == |s.out.cnfs| + Requests(inputs)
  {
    if inputs != [] {
      AbandonedTransferWaits(s, inputs[..|inputs| - 1]);
      AbandonedStep(Run(s, inputs[..|inputs| - 1]), inputs[|inputs| - 1]);
    }
  }

  // ---------- switching on again ----------

  /** The handler holds a request command of before, or is in the middle of one. */
  predicate OldSegment(s: Dl) {
    match s.isdu.state
    case IhInactive0 => s.rwcmd == RwIsduTransport
    case IhIdle1 => s.rwcmd == RwIsduTransport
    case IhRequest2 =>
      && s.rwcmd != RwIsduAbort && !s.com_lost
      && (s.od.trigger == TrigDevice ==> s.isdu.current_isdu_seg < s.isdu.total_isdu_seg)
    case _ => false
  }

  /** The segments sent so far, and whether there is one more. */
  predicate Sends(s: Dl, t: Dl, sends: bool) {
    if sends then |t.out.segments| > |s.out.segments| else t.out.segments == s.out.segments
  }

  lemma OdReqSends(s: Dl, write: bool, channel: Channel, addr: nat, data: seq<byte>)
    requires |data| <= OD_MAX_SIZE && addr <= 31
    ensures Sends(s, OdReq(s, write, channel, addr, data), write && channel == ChIsdu)
  {
  }

  lemma GivingUpSendsNone(s: Dl)
    ensures Sends(s, EnterIsduError4(s), false) && Sends(s, IsduError4(s), false)
  {
    OdReqSends(s.(isdu := s.isdu.(total_isdu_seg := 0)), false, ChIsdu, FLOWCTRL_ABORT, []);
  }

  /** The handler sends a segment in this step. */
  predicate SendsNow(s: Dl) {
    && s.od.trigger == TrigMaster
    && ((s.isdu.state == IhIdle1 && s.isdu.active && s.rwcmd == RwIsduTransport)
        || (s.isdu.state == IhRequest2 && s.rwcmd != RwIsduAbort && !s.com_lost))
  }

  lemma Idle1Sends(s: Dl)
    requires s.isdu.state == IhIdle1
    ensures Sends(s, IsduIdle1(s), SendsNow(s))
  {
    if s.isdu.active && s.od.trigger == TrigMaster {
      match s.rwcmd
      case RwIsduTransport => OdReqSends(s, true, ChIsdu, FLOWCTRL_START, Window(s.isdu.data, 0, s.od_len));
      case _ =>
    }
  }

  lemma Request2Sends(s: Dl)
    requires s.isdu.state == IhRequest2
    ensures Sends(s, IsduRequest2(s), SendsNow(s))
  {
    GivingUpSendsNone(s);
    var cur := s.isdu.current_isdu_seg;
    OdReqSends(s, true, ChIsdu, cur % 16, Window(s.isdu.data, Times(cur, s.od_len), s.od_len));
  }

  lemma Wait3Sends(s: Dl)
    requires s.isdu.state == IhWait3
    ensures Sends(s, IsduWait3(s), false)
  {
    GivingUpSendsNone(s);
    GivingUpSendsNone(TimerReset(s));
    GivingUpSendsNone(TimerReset(Receive(s)));
    OdReqSends(s, false, ChIsdu, FLOWCTRL_START, Window(s.isdu.data, 0, s.od_len));
  }

  lemma Response5Sends(s: Dl)
    requires s.isdu.state == IhResponse5
    ensures Sends(s, IsduResponse5(s), false)
  {
    GivingUpSendsNone(s);
    var cur := s.isdu.current_isdu_seg;
    OdReqSends(s, false, ChIsdu, cur % 16, Window(s.isdu.data, Times(cur, s.od_len), s.od_len));
  }

  lemma IsduSends(s: Dl)
    ensures Sends(s, IsduSm(s), SendsNow(s))
  {
    match s.isdu.state
    case IhInactive0 =>
    case IhIdle1 => Idle1Sends(s);
    case IhRequest2 => Request2Sends(s);
    case IhWait3 => Wait3Sends(s);
    case IhError4 => GivingUpSendsNone(s);
    case IhResponse5 => Response5Sends(s);
  }

  /** After the step of activation: what the next master message will do. */
  lemma ActivationLeads(s: Dl)
    requires s.isdu.active
    ensures var t := IsduSm(s);
            && t.isdu.active && t.com_lost == s.com_lost
            && (SendsNow(s) || SendsNow(t.(od := t.od.(trigger := TrigMaster))) <==> OldSegment(s))
  {
    IsduSmStep(s);
    match s.isdu.state
    case IhInactive0 =>
    case IhIdle1 => if s.od.trigger == TrigMaster { } else if s.od.trigger == TrigDevice { }
    case IhRequest2 => if s.rwcmd == RwIsduAbort || s.com_lost { EnteredLeads(s); }
    case IhWait3 => Wait3Leads(s);
    case IhError4 =>
    case IhResponse5 => Response5Leads(s);
  }

  /** A transfer given up, or completed, takes its command with it. */
  predicate NothingToSend(t: Dl) {
    t.isdu.state != IhRequest2 && !(t.isdu.state == IhIdle1 && t.rwcmd == RwIsduTransport)
  }

  lemma EnteredLeads(s: Dl)
    requires s.isdu.active
    ensures NothingToSend(EnterIsduError4(s))
  {
  }

  lemma Wait3Leads(s: Dl)
    requires s.isdu.state == IhWait3 && s.isdu.active
    ensures NothingToSend(IsduWait3(s))
  {
    EnteredLeads(s);
    EnteredLeads(TimerReset(s));
    EnteredLeads(TimerReset(Receive(s)));
  }

  lemma Response5Leads(s: Dl)
    requires s.isdu.state == IhResponse5 && s.isdu.active
    ensures NothingToSend(IsduResponse5(s))
  {
    EnteredLeads(s);
  }

  function On(s: Dl): Dl {
    s.(od := s.od.(active := true))
  }

  /** Switching the ISDU handler on makes it send, by the trigger left over. */
  predicate SendsAtOnce(s: Dl) {
    SendsNow(s.(isdu := s.isdu.(active := true)))
  }

  /** When activation and the first message put an old segment on the wire. The OD
      handler is found in INACTIVE_0 or COMMAND_2; a control code left over, or the
      event flag behind COMMAND_2, keep the first message from the ISDU handler. The
      other two states are those of an OD handler that was never switched off. */
  predicate SendsOldSegment(s: Dl) {
    match s.od.state
    case OdInactive0 => if s.cmd.control_code == CcNone then OldSegment(s) else SendsAtOnce(s)
    case OdCommand2 =>
      && s.od.trigger != TrigNone && s.cmd.control_code == CcNone && !s.ev.event_flag
      && OldSegment(Rest(s))
    case OdEvent3 =>
      if CommandDue(s) then SendsAtOnce(s)
      else !s.ev.event_flag && s.cmd.control_code == CcNone && OldSegment(s)
    case OdIsdu1 =>
      if CommandDue(s) then SendsAtOnce(s)
      else if s.ev.event_flag then SendsNow(s) || SendsAtOnce(IsduSm(On(s)))
      else if s.od.trigger == TrigNone then s.cmd.control_code == CcNone && OldSegment(s)
      else SendsNow(s) || (s.cmd.control_code == CcNone && OldSegment(Rest(IsduSm(On(s)))))
  }

  lemma OdSends(s: Dl)
    ensures Sends(s, OdSm(s), IsduSees(s) && SendsNow(s))
  {
    match s.od.state
    case OdIsdu1 => if s.od.active { if CommandDue(s) { CmdSends(s); } else { IsduSends(s); } }
    case OdEvent3 => if s.od.active { if CommandDue(s) { CmdSends(s); } else { EvSends(s); } }
    case _ =>
  }

  lemma CmdSends(s: Dl)
    ensures Sends(s, CmdSm(s), false)
  {
  }

  /** What the rest of the activation and the message look at. */
  predicate Alike(s: Dl, t: Dl) {
    && t.od.trigger == s.od.trigger && t.rwcmd == s.rwcmd && t.com_lost == s.com_lost
    && t.isdu.(active := s.isdu.active) == s.isdu && t.cmd.control_code == s.cmd.control_code
  }

  lemma AlikeSends(s: Dl, t: Dl)
    requires Alike(s, t)
    ensures SendsAtOnce(s) == SendsAtOnce(t) && OldSegment(s) == OldSegment(t)
  {
  }

  /** From the switched OD handler on: the ISDU handler, the Event handler and the
      first message. */
  lemma RestSends(a: Dl, mode: ModeState)
    requires a.od.active
    ensures var m := Triggered(SetRest(a).(mode := mode), Master);
            |OdSm(m).out.segments| > |a.out.segments| <==>
              SendsAtOnce(a) || (a.od.state == OdIsdu1 && a.cmd.control_code == CcNone && OldSegment(a))
    ensures |OdSm(Triggered(SetRest(a).(mode := mode), Master)).out.segments| >= |a.out.segments|
  {
    var b := a.(isdu := a.isdu.(active := true));
    var c := IsduSm(b);
    var e := c.(ev := c.ev.(active := true));
    var d := EvSm(e);
    IsduSmStep(b);
    IsduSends(b);
    EvSmKeeps(e);
    EvSends(e);
    var m := Triggered(d.(mode := mode), Master);
    OdSends(m);
    ActivationLeads(b);
    AlikeSends(a, b);
    assert SendsNow(m) == SendsNow(c.(od := c.od.(trigger := TrigMaster)));
  }

  /** The ISDU and Event handlers switched on. */
  function SetRest(a: Dl): Dl {
    EhConf(IhConf(a, true), true)
  }

  /** The OD handler switched on first: what it does with the trigger left over. */
  lemma OdSwitchedOn(s: Dl)
    ensures var p, a := On(s), OhConf(s, true);
            && a.od.active
            && Sends(s, a, IsduSees(p) && SendsNow(s))
            && ((IsduSees(p) && SendsNow(s)) || SendsAtOnce(a)
                || (a.od.state == OdIsdu1 && a.cmd.control_code == CcNone && OldSegment(a))
                <==> SendsOldSegment(s))
  {
    var p := On(s);
    OdSends(p);
    match s.od.state
    case OdInactive0 => AlikeSends(p, Goto(p, OdIsdu1)); LeadsAtOnce(p); AlikeActive(s);
    case OdIsdu1 => Isdu1SwitchedOn(s);
    case OdCommand2 => Command2SwitchedOn(s);
    case OdEvent3 => Event3SwitchedOn(s);
  }

  lemma LeadsAtOnce(s: Dl)
    ensures SendsAtOnce(s) ==> OldSegment(s)
  {
  }

  lemma AlikeActive(s: Dl)
    ensures SendsAtOnce(On(s)) == SendsAtOnce(s) && OldSegment(On(s)) == OldSegment(s) && SendsNow(On(s)) == SendsNow(s)
    ensures CommandDue(On(s)) == CommandDue(s)
  {
  }

  lemma Isdu1SwitchedOn(s: Dl)
    requires s.od.state == OdIsdu1
    ensures var p, a := On(s), OhConf(s, true);
            && a.od.active
            && ((IsduSees(p) && SendsNow(s)) || SendsAtOnce(a)
                || (a.od.state == OdIsdu1 && a.cmd.control_code == CcNone && OldSegment(a))
                <==> SendsOldSegment(s))
  {
    var p := On(s);
    AlikeActive(s);
    IsduSmStep(p);
    if CommandDue(p) {
      CmdSmKeeps(p);
    } else if p.ev.event_flag {
    } else if p.od.trigger != TrigNone {
    }
  }

  lemma Command2SwitchedOn(s: Dl)
    requires s.od.state == OdCommand2
    ensures var a := OhConf(s, true);
            && a.od.active
            && (SendsAtOnce(a) || (a.od.state == OdIsdu1 && a.cmd.control_code == CcNone && OldSegment(a))
                <==> SendsOldSegment(s))
  {
    WriteMasterCommandKeeps(Rest(On(s)), NoError);
  }

  lemma Event3SwitchedOn(s: Dl)
    requires s.od.state == OdEvent3
    ensures var a := OhConf(s, true);
            && a.od.active
            && (SendsAtOnce(a) || (a.od.state == OdIsdu1 && a.cmd.control_code == CcNone && OldSegment(a))
                <==> SendsOldSegment(s))
  {
    var p := On(s);
    AlikeActive(s);
    LeadsAtOnce(s);
    if CommandDue(p) {
      CmdSmKeeps(p);
    } else if p.ev.event_flag && p.od.trigger != TrigNone {
      EvSmKeeps(p);
    }
  }

  /** In every state: the handlers are switched on and the first master message is
      prepared, and an old segment goes out if and only if. */
  lemma ActivationSendsOldSegmentIff(s: Dl)
    requires Activates(s)
    ensures var t := Step(Step(s, ModeEvent), Master);
            |t.out.segments| > |s.out.segments| <==> SendsOldSegment(s)
  {
    ActivationIs(s);
    OdSwitchedOn(s);
    RestSends(OhConf(s, true), ActivatedMode(s));
    assert SetActive(s, true) == SetRest(OhConf(s, true));
  }

  lemma EvSends(s: Dl)
    ensures Sends(s, EvSm(s), false)
  {
  }

  // ---------- how a transfer given up is reported ----------

  /** WAIT_3 is left with its timer running exactly when it timed out, or lost its
      link while the timer ran: only an abort and an answer reset it. */
  lemma TimerLeftRunningIff(s: Dl)
    requires s.isdu.state == IhWait3 && IsduSm(s).isdu.state != IhWait3
    ensures IsduSm(s).isdu.timer_on <==>
      s.isdu.timer_on && s.rwcmd != RwIsduAbort && (s.TimerElapsed() || s.com_lost)
  {
    var t := Receive(s);
    EnterKeepsTimer(s);
    EnterKeepsTimer(TimerReset(s));
    EnterKeepsTimer(TimerReset(t));
  }

  lemma EnterKeepsTimer(s: Dl)
    ensures EnterIsduError4(s).isdu.timer_on == s.isdu.timer_on
  {
  }

  /** The transfer of s is given up with this message: how that is confirmed. */
  predicate ReportedAs(s: Dl, status: Status) {
    var t := IsduSm(s);
    t.out.cnfs == s.out.cnfs + [GivenUp(s)] && t.isdu.state == IhIdle1 && t.rwcmd == RwNone
    && GivenUp(s).status == status && GivenUp(s).data == []
  }

  /** An abort is confirmed as ISDU_ABORT if and only if the link is up and no timer
      left over from an earlier WAIT_3 has run out; the timer of this WAIT_3 does
      not count. Otherwise it is reported as the loss of the link, or as a timeout
      that was none of this transfer's. */
  lemma AbortReportedAsAbortIff(s: Dl)
    requires s.isdu.active && s.od.trigger == TrigMaster && s.rwcmd == RwIsduAbort
    requires s.isdu.state == IhRequest2 || s.isdu.state == IhWait3 || s.isdu.state == IhResponse5
    ensures var t := IsduSm(s);
            && |t.out.cnfs| == |s.out.cnfs| + 1 && t.isdu.state == IhIdle1 && t.rwcmd == RwNone
            && var status := t.out.cnfs[|s.out.cnfs|].status;
               && (status == IsduAborted <==> !s.com_lost && (s.isdu.state == IhWait3 || !s.TimerElapsed()))
               && (status == IsduTimeout <==> s.isdu.state != IhWait3 && s.TimerElapsed())
               && (status == NoComm <==> s.com_lost && (s.isdu.state == IhWait3 || !s.TimerElapsed()))
  {
    var u := if s.isdu.state == IhWait3 then TimerReset(s) else s;
    assert IsduSm(s) == GiveUp(u, GivenUp(u));
  }

  /** Without an abort: WAIT_3 that timed out is confirmed as ISDU_TIMEOUT even on a
      lost link; any other lost link as NO_COMM unless an old timer has run out. */
  lemma LossReported(s: Dl)
    requires s.isdu.active && s.od.trigger == TrigMaster && s.rwcmd != RwIsduAbort
    requires (s.isdu.state == IhWait3 && (s.TimerElapsed() || s.com_lost))
             || ((s.isdu.state == IhRequest2 || s.isdu.state == IhResponse5) && s.com_lost)
    ensures ReportedAs(s, if s.TimerElapsed() then IsduTimeout else NoComm)
  {
    assert IsduSm(s) == GiveUp(s, GivenUp(s));
  }

  /** A refused answer is confirmed with the device's service code as an illegal
      service primitive, or as INVALID if its header is well formed, as with an
      octet 0 of zero. The next message sends the abort. */
  lemma RefusedAnswerReported(s: Dl)
    requires s.isdu.state == IhError4 && s.isdu.active
    requires !s.TimerElapsed() && !s.com_lost && s.rwcmd != RwIsduAbort
    ensures ReportedAs(s,
      if ValidHeader(s.isdu.data, s.isdu.data_dir_read) then Invalid else IllegalServicePrimitive)
    ensures IsduSm(s).out.wire == Frame(false, ChIsdu, FLOWCTRL_ABORT, [])
  {
    assert IsduSm(s) == GiveUp(s, GivenUp(s));
  }
}
