/**
 * Every ISDU request is confirmed at most once: a balance over all runs of the
 * on-request-data machine, whatever triggers, aborts, timeouts, link losses
 * and mode changes it meets.
 */
module DlAccounting {
  import opened Bytes
  import opened IsduCodec
  import opened DlModel

  /** The handler is busy with a transfer. */
  predicate Busy(s: Dl) {
    s.isdu.state.IhRequest2? || s.isdu.state.IhWait3? || s.isdu.state.IhError4? || s.isdu.state.IhResponse5?
  }

  /** A confirmation is still owed: a transfer is under way or waits in IDLE_1. */
  predicate Owing(s: Dl) {
    Busy(s) || (s.isdu.state.IhIdle1? && s.isdu.total_isdu_seg != 0)
  }

  function One(b: bool): int {
    if b then 1 else 0
  }

  /** Confirmed so far, plus what is still owed. */
  function Balance(s: Dl): int {
    |s.out.cnfs| + One(Owing(s))
  }

  /** A request command without a waiting request: starting it would send the
      old buffer again. */
  predicate StaleCommand(s: Dl) {
    s.isdu.state.IhIdle1? && s.rwcmd == RwIsduTransport && s.isdu.total_isdu_seg == 0
  }

  /** Deactivation in ISDUERROR_4 forgets the confirmation. */
  predicate Forgets(s: Dl, i: Input) {
    i == ModeEvent && s.isdu.state.IhError4? && Deactivates(s)
  }

  predicate Deactivates(s: Dl) {
    match s.mode
    case MdIdle0 => false
    case MdEstCom1 => false
    case MdStartup2 => s.dl_mode == ModeInactive || (s.dl_mode == ModeStartup && s.com_lost)
    case MdPreoperate3 => s.dl_mode == ModeStartup || (s.dl_mode != ModeInactive && s.com_lost)
    case MdOperate4 => s.dl_mode == ModeStartup || s.dl_mode == ModeInactive || s.com_lost
  }

  predicate Activates(s: Dl) {
    s.mode == MdStartup2 && (s.dl_mode == ModePreoperate || s.dl_mode == ModeOperate)
  }

  predicate Accepts(s: Dl, q: Request) {
    s.mode != MdIdle0 && s.mode != MdEstCom1 && q.index >= 2 && s.isdu.state.IhIdle1?
  }

  /** A request accepted while another one still waits replaces it. */
  predicate Replaces(s: Dl, i: Input) {
    i.IsduRequest? && Accepts(s, i.q) && s.isdu.total_isdu_seg != 0
  }

  // ---------- one handler step at a time ----------

  /** Everything the ISDU handler depends on. */
  predicate SameIsdu(s: Dl, t: Dl) {
    && t.isdu == s.isdu && t.rwcmd == s.rwcmd && t.out.cnfs == s.out.cnfs
    && t.com_lost == s.com_lost && t.mode == s.mode && t.dl_mode == s.dl_mode && t.od_len == s.od_len
  }

  /** What the Event handler leaves alone. */
  predicate OnlyEvents(s: Dl, t: Dl) {
    && SameIsdu(s, t) && t.od == s.od && t.cmd == s.cmd
    && t.ev.event_flag == s.ev.event_flag && t.ev.active == s.ev.active
  }

  lemma SignalKeeps(s: Dl)
    ensures OnlyEvents(s, SignalEvent3(s))
  {
  }

  lemma EvMemoryByteKeeps(s: Dl)
    ensures OnlyEvents(s, EvMemoryByte(s))
  {
    var t := s.(ev := StoreOctet(s.ev, s.ev.ev_addr - s.ev.ev_cnt * 3, s.rx[0]));
    SignalKeeps(t.(ev := EvAdvance(t.ev).(ev_current := 0)));
  }

  lemma EvStatusCodeKeeps(s: Dl)
    ensures OnlyEvents(s, EvStatusCode(s))
  {
    var e := s.ev.(status_code := s.rx[0]);
    SignalKeeps(s.(ev := e.(num_entries := e.num_entries + SlotCount(e.status_code, 5))));
  }

  lemma EvIdle1Keeps(s: Dl)
    ensures OnlyEvents(s, EvIdle1(s))
  {
  }

  lemma EvReadEvent2Keeps(s: Dl)
    ensures OnlyEvents(s, EvReadEvent2(s))
  {
    if s.com_lost || s.od.trigger != TrigDevice {
    } else if s.ev.ev_addr == 0 {
      EvStatusCodeKeeps(s);
    } else {
      EvMemoryByteKeeps(s);
    }
  }

  lemma EvSmKeeps(s: Dl)
    ensures OnlyEvents(s, EvSm(s))
  {
    match s.ev.state
    case EhIdle1 => EvIdle1Keeps(s);
    case EhReadEvent2 => EvReadEvent2Keeps(s);
    case _ =>
  }

  lemma CmdSmKeeps(s: Dl)
    ensures SameIsdu(s, CmdSm(s)) && CmdSm(s).od == s.od
  {
  }

  lemma WriteMasterCommandKeeps(s: Dl, status: Status)
    ensures SameIsdu(s, WriteMasterCommand(s, status)) && WriteMasterCommand(s, status).od == s.od
  {
  }

  /** A busy handler that comes back to IDLE_1 has confirmed exactly once and
      cleared the segment count and the command. */
  predicate ReturnsClean(s: Dl, t: Dl) {
    Busy(s) && t.isdu.state.IhIdle1? ==>
      |t.out.cnfs| == |s.out.cnfs| + 1 && t.isdu.total_isdu_seg == 0 && t.rwcmd == RwNone
  }

  /** What a step of the ISDU handler leaves alone. */
  predicate Around(s: Dl, t: Dl) {
    && t.od == s.od && t.cmd == s.cmd && t.ev == s.ev && t.isdu.active == s.isdu.active
    && t.mode == s.mode && t.dl_mode == s.dl_mode && t.com_lost == s.com_lost && t.od_len == s.od_len
    && (t.rwcmd == s.rwcmd || t.rwcmd == RwNone)
  }

  predicate BusyStep(s: Dl, t: Dl) {
    && Busy(s) && Around(s, t) && Balance(t) == Balance(s) && ReturnsClean(s, t)
    && (s.isdu.active ==> !t.isdu.state.IhInactive0?)
  }

  /** Bookkeeping inside a busy state. */
  predicate Prepares(s: Dl, t: Dl) {
    Busy(s) && Busy(t) && Around(s, t) && t.out == s.out
  }

  lemma PreparedStep(s: Dl, t: Dl, u: Dl)
    requires Prepares(s, t) && BusyStep(t, u)
    ensures BusyStep(s, u)
  {
  }

  lemma EnterIsduError4Step(s: Dl)
    requires Busy(s)
    ensures BusyStep(s, EnterIsduError4(s))
  {
  }

  lemma CollectedStep(s: Dl)
    requires Busy(s)
    ensures BusyStep(s, Collected(s))
  {
  }

  lemma Wait3AnswerStep(t: Dl)
    requires t.isdu.state == IhWait3
    ensures BusyStep(t, Wait3Answer(t))
  {
    EnterIsduError4Step(TimerReset(t));
    var v := TimerReset(ReadLength(t.(isdu := t.isdu.(current_isdu_seg := 1, state := IhResponse5))));
    CollectedStep(v);
    PreparedStep(t, TimerReset(t), EnterIsduError4(TimerReset(t)));
    PreparedStep(t, v, Collected(v));
  }

  lemma Wait3Step(s: Dl)
    requires s.isdu.state == IhWait3
    ensures BusyStep(s, IsduWait3(s))
  {
    if s.rwcmd == RwIsduAbort {
      EnterIsduError4Step(TimerReset(s));
      PreparedStep(s, TimerReset(s), EnterIsduError4(TimerReset(s)));
    } else if s.TimerElapsed() || s.com_lost {
      EnterIsduError4Step(s);
    } else if s.od.trigger == TrigDevice {
      Wait3AnswerStep(Receive(s));
      PreparedStep(s, Receive(s), Wait3Answer(Receive(s)));
    }
  }

  lemma Request2Step(s: Dl)
    requires s.isdu.state == IhRequest2
    ensures BusyStep(s, IsduRequest2(s))
  {
    EnterIsduError4Step(s);
  }

  lemma Response5Step(s: Dl)
    requires s.isdu.state == IhResponse5
    ensures BusyStep(s, IsduResponse5(s))
  {
    if s.rwcmd == RwIsduAbort || s.com_lost {
      EnterIsduError4Step(s);
    } else if s.od.trigger == TrigDevice {
      var v := CountSegment(Receive(ReadLength(s)));
      CollectedStep(v);
      PreparedStep(s, v, Collected(v));
    }
  }

  lemma Idle1Step(s: Dl)
    requires s.isdu.state == IhIdle1
    ensures Around(s, IsduIdle1(s))
    ensures Balance(IsduIdle1(s))
         == Balance(s) + One(StaleCommand(s) && s.isdu.active && s.od.trigger == TrigMaster)
    ensures StaleCommand(IsduIdle1(s)) ==> StaleCommand(s)
    ensures s.isdu.active ==> !IsduIdle1(s).isdu.state.IhInactive0?
  {
  }

  lemma Error4Step(s: Dl)
    requires s.isdu.state == IhError4
    ensures Around(s, IsduError4(s)) && ReturnsClean(s, IsduError4(s))
    ensures Balance(IsduError4(s)) == Balance(s) - One(!s.isdu.active)
  {
  }

  /** One step of the ISDU handler keeps the balance, except when it is
      deactivated in ISDUERROR_4 or restarts a stale command. */
  lemma IsduSmStep(s: Dl)
    ensures Around(s, IsduSm(s)) && ReturnsClean(s, IsduSm(s))
    ensures Balance(IsduSm(s)) == Balance(s)
              - One(s.isdu.state.IhError4? && !s.isdu.active)
              + One(StaleCommand(s) && s.isdu.active && s.od.trigger == TrigMaster)
    ensures StaleCommand(IsduSm(s)) ==> StaleCommand(s) || (s.isdu.active && s.isdu.state.IhInactive0?)
    ensures s.isdu.active ==> !IsduSm(s).isdu.state.IhInactive0?
  {
    match s.isdu.state
    case IhInactive0 =>
    case IhIdle1 => Idle1Step(s);
    case IhRequest2 => Request2Step(s);
    case IhWait3 => Wait3Step(s);
    case IhError4 => Error4Step(s);
    case IhResponse5 => Response5Step(s);
  }

  /** Does the OD handler hand this trigger to the ISDU handler? */
  predicate IsduSees(s: Dl) {
    s.od.state.OdIsdu1? && s.od.active && !CommandDue(s) && (s.ev.event_flag || s.od.trigger != TrigNone)
  }

  lemma OdIsdu1Step(s: Dl)
    requires s.od.state == OdIsdu1
    ensures if IsduSees(s) then SameIsdu(IsduSm(s), OdHandlerIsdu1(s)) else SameIsdu(s, OdHandlerIsdu1(s))
    ensures OdHandlerIsdu1(s).od.active == s.od.active
    ensures !s.od.active ==> OdHandlerIsdu1(s).od.state == OdInactive0
  {
    if !s.od.active {
    } else if CommandDue(s) {
      CmdSmKeeps(s);
    } else {
      IsduSmStep(s);
    }
  }

  lemma OdCommand2Step(s: Dl)
    ensures SameIsdu(s, OdHandlerCommand2(s))
    ensures OdHandlerCommand2(s).od.active == s.od.active
  {
    WriteMasterCommandKeeps(Rest(s), NoError);
  }

  lemma OdEvent3Step(s: Dl)
    ensures SameIsdu(s, OdHandlerEvent3(s))
    ensures OdHandlerEvent3(s).od.active == s.od.active
    ensures !s.od.active ==> OdHandlerEvent3(s).od.state == OdInactive0
  {
    if !s.od.active {
    } else if CommandDue(s) {
      CmdSmKeeps(s);
    } else if s.ev.event_flag {
      EvSmKeeps(s);
    }
  }

  lemma OdSmStep(s: Dl)
    ensures if IsduSees(s) then SameIsdu(IsduSm(s), OdSm(s)) else SameIsdu(s, OdSm(s))
    ensures OdSm(s).od.active == s.od.active
    ensures !s.od.active && s.od.state != OdCommand2 ==> OdSm(s).od.state == OdInactive0
  {
    match s.od.state
    case OdInactive0 =>
    case OdIsdu1 => OdIsdu1Step(s);
    case OdCommand2 => OdCommand2Step(s);
    case OdEvent3 => OdEvent3Step(s);
  }

  // ---------- whole runs ----------

  /** The handlers are switched on and off together, in the two data modes. */
  predicate Linked(s: Dl) {
    && s.od.active == s.isdu.active == (s.mode == MdPreoperate3 || s.mode == MdOperate4)
    && (!s.od.active ==> s.od.state == OdInactive0 || s.od.state == OdCommand2)
    && (s.isdu.active ==> !s.isdu.state.IhInactive0?)
    && !StaleCommand(s)
  }

  /** The master wakes a device only from its idle modes, and by the time it
      leaves STARTUP the parameter reads have taken over the command. */
  predicate Clean(s: Dl, i: Input) {
    && (i.WakeUp? ==> s.mode == MdIdle0 || s.mode == MdEstCom1)
    && (i == ModeEvent && Activates(s) ==> s.rwcmd != RwIsduTransport)
  }

  predicate CleanRun(s: Dl, inputs: seq<Input>) {
    inputs == []
    || (CleanRun(s, inputs[..|inputs| - 1])
        && Clean(Run(s, inputs[..|inputs| - 1]), inputs[|inputs| - 1]))
  }

  function Asked(inputs: seq<Input>): nat {
    if inputs == [] then 0
    else Asked(inputs[..|inputs| - 1]) + One(inputs[|inputs| - 1].IsduRequest?)
  }

  /** Requests that will never be answered, over a run. */
  function Dropped(s: Dl, inputs: seq<Input>): nat {
    if inputs == [] then 0
    else
      var before, i := Run(s, inputs[..|inputs| - 1]), inputs[|inputs| - 1];
      Dropped(s, inputs[..|inputs| - 1]) + One(Forgets(before, i) || Replaces(before, i))
  }

  lemma TriggerBalance(s: Dl)
    requires Linked(s)
    ensures Balance(OdSm(s)) == Balance(s) && Linked(OdSm(s)) && ReturnsClean(s, OdSm(s))
    ensures OdSm(s).mode == s.mode
  {
    OdSmStep(s);
    IsduSmStep(s);
  }

  lemma RequestBalance(s: Dl, q: Request)
    requires Linked(s)
    ensures Balance(TransportReq(s, q)) == Balance(s) + 1 - One(Replaces(s, IsduRequest(q)))
    ensures Linked(TransportReq(s, q))
  {
  }

  lemma ParamBalance(s: Dl, write: bool, address: nat, value: byte, ready: bool)
    requires Linked(s)
    ensures Balance(ParamReq(s, write, address, value, ready)) == Balance(s)
    ensures Linked(ParamReq(s, write, address, value, ready))
  {
  }

  lemma CommandBalance(s: Dl, i: Input)
    requires Linked(s) && (i.Control? || i.Devicemode?)
    ensures Balance(Step(s, i)) == Balance(s) && Linked(Step(s, i))
  {
    CommandKeeps(s, i);
  }

  lemma CommandKeeps(s: Dl, i: Input)
    requires i.Control? || i.Devicemode?
    ensures SameIsdu(s, Step(s, i)) && Step(s, i).od == s.od
  {
    match i
    case Control(code) =>
      CmdSmKeeps(s.(cmd := s.cmd.(control_code := code)));
    case Devicemode(m) =>
      var mc := DevicemodeCommand(m);
      CmdSmKeeps(s.(cmd := s.cmd.(master_command := mc, control_code := CcDevicemode)));
  }

  lemma ComLostBalance(s: Dl, preoperate: bool)
    requires Linked(s)
    ensures Balance(ComLost(s, preoperate)) == Balance(s) && Linked(ComLost(s, preoperate))
  {
    WriteMasterCommandKeeps(s, NoComm);
  }

  lemma OffStep(s: Dl)
    ensures var t := SetActive(s, false);
            && Balance(t) == Balance(s) - One(s.isdu.state.IhError4?)
            && !t.od.active && !t.isdu.active
            && (s.od.state != OdCommand2 ==> t.od.state == OdInactive0)
            && (s.od.state == OdCommand2 ==> t.od.state == OdCommand2)
            && (StaleCommand(t) ==> StaleCommand(s))
            && ReturnsClean(s, t)
            && t.mode == s.mode && t.dl_mode == s.dl_mode
  {
    var p := s.(od := s.od.(active := false));
    OdSmStep(p);
    var u := OdSm(p);
    var v := u.(isdu := u.isdu.(active := false));
    IsduSmStep(v);
    var w := IsduSm(v);
    EvSmKeeps(w.(ev := w.ev.(active := false)));
  }

  lemma OnStep(s: Dl)
    requires Linked(s) && !s.od.active && s.rwcmd != RwIsduTransport
    ensures var t := SetActive(s, true);
            && Balance(t) == Balance(s) && ReturnsClean(s, t)
            && t.od.active && t.isdu.active && !t.isdu.state.IhInactive0? && !StaleCommand(t)
  {
    var p := s.(od := s.od.(active := true));
    OdSmStep(p);
    var u := OdSm(p);
    var v := u.(isdu := u.isdu.(active := true));
    IsduSmStep(v);
    var w := IsduSm(v);
    EvSmKeeps(w.(ev := w.ev.(active := true)));
  }

  lemma ActivateBalance(s: Dl)
    requires Linked(s) && Clean(s, ModeEvent) && Activates(s)
    ensures Balance(ModeSm(s)) == Balance(s) && Linked(ModeSm(s)) && ReturnsClean(s, ModeSm(s))
  {
    OnStep(s);
  }

  lemma ChConfKeeps(s: Dl, active: bool)
    ensures var t := ChConf(s, active);
            t.isdu == s.isdu && t.rwcmd == s.rwcmd && t.out.cnfs == s.out.cnfs
            && t.od == s.od && t.mode == s.mode && t.dl_mode == s.dl_mode
  {
    CmdSmKeeps(s.(cmd := s.cmd.(active := active)));
  }

  lemma GotoIdleBalance(s: Dl)
    requires Linked(s)
    ensures Balance(GotoIdle(s)) == Balance(s) - One(s.isdu.state.IhError4?) && Linked(GotoIdle(s))
  {
    OffStep(s);
    ChConfKeeps(SetActive(s, false), false);
  }

  lemma DeactivateBalance(s: Dl)
    requires Linked(s) && Deactivates(s)
    ensures Balance(ModeSm(s)) == Balance(s) - One(s.isdu.state.IhError4?) && Linked(ModeSm(s))
  {
    GotoIdleBalance(s);
    if s.dl_mode == ModeStartup && s.mode == MdPreoperate3 {
      ChConfKeeps(s, false);
      OffStep(ChConf(s, false));
    } else {
      OffStep(s);
    }
  }

  lemma ModeBalance(s: Dl)
    requires Linked(s) && Clean(s, ModeEvent)
    ensures Balance(ModeSm(s)) == Balance(s) - One(Forgets(s, ModeEvent)) && Linked(ModeSm(s))
  {
    if Activates(s) {
      ActivateBalance(s);
    } else if Deactivates(s) {
      DeactivateBalance(s);
    }
  }

  predicate Balanced(s: Dl, i: Input, t: Dl) {
    && Linked(t)
    && Balance(t) == Balance(s) + One(i.IsduRequest?) - One(Forgets(s, i) || Replaces(s, i))
  }

  lemma EnvironmentBalance(s: Dl, i: Input)
    requires Linked(s) && Clean(s, i)
    requires i.Abort? || i.TimerExpires? || i.SetMode? || i.WakeUp? || i.DirectAccess? || i.AccessDone?
    ensures Balanced(s, i, Step(s, i))
  {
    if i.WakeUp? && i.ok {
      ChConfKeeps(s.(mode := MdStartup2), true);
    }
  }

  lemma TriggersBalance(s: Dl, i: Input)
    requires Linked(s) && (i.Master? || i.Device?)
    ensures Balanced(s, i, Step(s, i))
  {
    if i.Master? {
      TriggerBalance(s.(od := s.od.(trigger := TrigMaster)));
    } else {
      TriggerBalance(s.(od := s.od.(trigger := TrigDevice), ev := s.ev.(event_flag := i.flag), rx := i.rx));
    }
  }

  lemma StepBalance(s: Dl, i: Input)
    requires Linked(s) && Clean(s, i)
    ensures Balanced(s, i, Step(s, i))
  {
    match i
    case Master => TriggersBalance(s, i);
    case Device(_, _) => TriggersBalance(s, i);
    case IsduRequest(q) => RequestBalance(s, q);
    case Param(write, address, value, ready) => ParamBalance(s, write, address, value, ready);
    case Control(_) => CommandBalance(s, i);
    case Devicemode(_) => CommandBalance(s, i);
    case LinkLost(preoperate) => ComLostBalance(s, preoperate);
    case ModeEvent => ModeBalance(s);
    case _ => EnvironmentBalance(s, i);
  }

  /** Over every clean run: requests made = confirmations given + requests
      dropped + (one, when a transfer is under way or waits). */
  lemma {:induction false} RunBalance(s: Dl, inputs: seq<Input>)
    requires Linked(s) && CleanRun(s, inputs)
    ensures Linked(Run(s, inputs))
    ensures Balance(Run(s, inputs)) + Dropped(s, inputs) == Balance(s) + Asked(inputs)
  {
    if inputs != [] {
      var init, i := inputs[..|inputs| - 1], inputs[|inputs| - 1];
      RunBalance(s, init);
      StepBalance(Run(s, init), i);
    }
  }

  // ---------- the accounting theorems ----------

  /** Every handler off, nothing under way: the state after a reset. */
  predicate Fresh(s: Dl) {
    && s.mode == MdIdle0 && !s.com_lost && s.rwcmd == RwNone
    && s.od.state == OdInactive0 && !s.od.active
    && s.isdu.state == IhInactive0 && !s.isdu.active && s.isdu.total_isdu_seg == 0
    && s.out.cnfs == []
  }

  /** Never more confirmations than requests, and at any time the difference is
      exactly what is under way plus what was dropped. */
  lemma ConfirmedAtMostOnce(s: Dl, inputs: seq<Input>)
    requires Fresh(s) && CleanRun(s, inputs)
    ensures var t := Run(s, inputs);
            && |t.out.cnfs| <= Asked(inputs)
            && (Owing(t) ==> |t.out.cnfs| + 1 + Dropped(s, inputs) == Asked(inputs))
            && (!Owing(t) ==> |t.out.cnfs| + Dropped(s, inputs) == Asked(inputs))
  {
    RunBalance(s, inputs);
  }

  /** Whatever happens to a busy handler, when it is back in IDLE_1 it has
      confirmed exactly once and cleared the segment count and the command. */
  lemma EveryReturnConfirmsOnce(s: Dl, i: Input)
    requires Linked(s) && Clean(s, i)
    ensures ReturnsClean(s, Step(s, i))
  {
    if i.Master? || i.Device? {
      TriggersReturn(s, i);
    } else if i.ModeEvent? {
      ModeReturns(s, i);
    } else {
      QuietReturns(s, i);
    }
  }

  lemma QuietReturns(s: Dl, i: Input)
    requires !i.Master? && !i.Device? && !i.ModeEvent?
    ensures ReturnsClean(s, Step(s, i))
  {
    if Busy(s) { QuietInputs(s, i); }
  }

  lemma ModeReturns(s: Dl, i: Input)
    requires Linked(s) && Clean(s, i) && i.ModeEvent?
    ensures ReturnsClean(s, Step(s, i))
  {
    var t := ModeSm(s);
    assert ReturnsClean(s, t) by { HandlersReturn(s); }
    assert Step(s, i) == t;
  }

  lemma HandlersReturn(s: Dl)
    requires Linked(s) && Clean(s, ModeEvent)
    ensures ReturnsClean(s, ModeSm(s))
  {
    if Activates(s) { ActivateBalance(s); } else { DeactivateReturns(s); }
  }

  lemma TriggersReturn(s: Dl, i: Input)
    requires Linked(s) && (i.Master? || i.Device?)
    ensures ReturnsClean(s, Step(s, i))
  {
    if i.Master? {
      TriggerBalance(s.(od := s.od.(trigger := TrigMaster)));
    } else {
      TriggerBalance(s.(od := s.od.(trigger := TrigDevice), ev := s.ev.(event_flag := i.flag), rx := i.rx));
    }
  }

  /** Services and environment inputs never move a busy handler. */
  lemma QuietInputs(s: Dl, i: Input)
    requires Busy(s) && !i.Master? && !i.Device? && !i.ModeEvent?
    ensures Step(s, i).isdu.state == s.isdu.state
  {
    if i.Control? || i.Devicemode? {
      CommandKeeps(s, i);
    } else if i.LinkLost? {
      WriteMasterCommandKeeps(s, NoComm);
    } else if i.WakeUp? {
      ChConfKeeps(s.(mode := MdStartup2), true);
    }
  }

  lemma DeactivateReturns(s: Dl)
    requires !Activates(s)
    ensures ReturnsClean(s, ModeSm(s))
  {
    if Deactivates(s) {
      if s.mode == MdPreoperate3 && s.dl_mode == ModeStartup {
        ChConfKeeps(s, false);
        OffStep(ChConf(s, false));
      } else {
        OffStep(s);
        ChConfKeeps(SetActive(s, false), false);
      }
    }
  }

  /** A request still waiting in IDLE_1 is confirmed when the handlers are
      switched off. */
  lemma DeactivationConfirmsWaiting(s: Dl)
    requires Linked(s) && Deactivates(s)
    requires s.isdu.state == IhIdle1 && s.isdu.total_isdu_seg != 0
    ensures var t := ModeSm(s);
            t.out.cnfs == s.out.cnfs + [IsduCnf([], 0, NoComm)]
            && t.isdu.state == IhInactive0 && t.isdu.total_isdu_seg == 0
  {
    OffIdle1(s);
    ChConfKeeps(SetActive(s, false), false);
    if s.dl_mode == ModeStartup && s.mode == MdPreoperate3 {
      ChConfKeeps(s, false);
      OffIdle1(ChConf(s, false));
    }
  }

  lemma OffIdle1(s: Dl)
    requires s.isdu.state == IhIdle1 && s.isdu.total_isdu_seg != 0
    ensures var t := SetActive(s, false);
            t.out.cnfs == s.out.cnfs + [IsduCnf([], 0, NoComm)]
            && t.isdu.state == IhInactive0 && t.isdu.total_isdu_seg == 0
  {
    var p := s.(od := s.od.(active := false));
    OdSmStep(p);
    var v := OdSm(p).(isdu := OdSm(p).isdu.(active := false));
    EvSmKeeps(IsduSm(v).(ev := IsduSm(v).ev.(active := false)));
  }

  /** What a start that is not clean does to the balance, with the ISDU handler off:
      exactly when the command of an earlier request survived, the first master
      message after activation sends the old buffer again, and a confirmation is
      owed that nobody asked for. */
  lemma ActivationReplaysIffCommandSurvived(s: Dl)
    requires Activates(s) && !s.com_lost
    requires s.od.state == OdInactive0 && s.isdu.state == IhInactive0
    requires s.cmd.control_code == CcNone && !s.ev.event_flag
    ensures var t := Step(Step(s, ModeEvent), Master);
            (Balance(t) == Balance(s) + 1 && t.isdu.state == IhRequest2 <==> s.rwcmd == RwIsduTransport)
            && (Balance(t) == Balance(s) <==> s.rwcmd != RwIsduTransport)
  {
    var u := Step(s, ModeEvent);
    Activated(s);
    var v := u.(od := u.od.(trigger := TrigMaster));
    OdSmStep(v);
    IsduSmStep(v);
  }

  lemma Activated(s: Dl)
    requires Activates(s)
    requires s.od.state == OdInactive0 && s.isdu.state == IhInactive0
    ensures var t := Step(s, ModeEvent);
            && t.od.state == OdIsdu1 && t.od.active
            && t.isdu == s.isdu.(active := true, state := IhIdle1, total_isdu_seg := 0, current_isdu_seg := 0)
            && t.cmd == s.cmd && t.ev.event_flag == s.ev.event_flag && t.rwcmd == s.rwcmd
            && t.out.cnfs == s.out.cnfs
  {
    var u := OhConf(s, true);
    var w := IhConf(u, true);
    EvSmKeeps(w.(ev := w.ev.(active := true)));
  }
}
