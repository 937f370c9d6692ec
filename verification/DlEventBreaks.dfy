/**
 * What becomes of a reading of event memory, and of a confirmation that is due, when the
 * handlers are switched off and on again.
 */
module DlEventBreaks {
  import opened Bytes
  import opened IsduCodec
  import opened DlModel
  import opened DlAccounting
  import opened DlMultiplexer
  import opened DlEvents
  import opened DlEventRuns
  import opened DlEventCycles

  // ---------- what the other handlers leave alone ----------

  /** The Event handler, its channel and the link, but for the flag. */
  predicate Untouched(s: Dl, t: Dl) {
    && t.ev == s.ev.(event_flag := t.ev.event_flag)
    && t.out.diag == s.out.diag && t.com_lost == s.com_lost
  }

  predicate OdOff(s: Dl) {
    !s.od.active && (s.od.state == OdInactive0 || s.od.state == OdCommand2)
  }

  lemma OdUntouched(s: Dl)
    requires !s.od.active
    ensures var t := OdSm(s);
            && Untouched(s, t) && OdOff(t) && t.od.trigger == s.od.trigger && t.rx == s.rx
            && t.ev.event_flag == s.ev.event_flag
  {
  }

  /** The same octets received, the same diagnosis messages. */
  predicate SameDiag(s: Dl, t: Dl) {
    t.out.diag == s.out.diag && t.rx == s.rx && t.com_lost == s.com_lost
  }

  lemma OdReqUntouched(s: Dl, write: bool, channel: Channel, addr: nat, data: seq<byte>)
    requires channel != ChDiagnosis
    ensures SameDiag(s, OdReq(s, write, channel, addr, data))
  {
  }

  lemma EnteringUntouched(s: Dl)
    ensures SameDiag(s, EnterIsduError4(s))
  {
  }

  lemma CollectedUntouched(s: Dl)
    ensures SameDiag(s, Collected(s))
  {
  }

  lemma IdleUntouched(s: Dl)
    ensures SameDiag(s, IsduIdle1(s))
  {
  }

  lemma RequestUntouched(s: Dl)
    ensures SameDiag(s, IsduRequest2(s))
  {
    EnteringUntouched(s);
  }

  lemma Wait3Untouched(s: Dl)
    ensures SameDiag(s, IsduWait3(s))
  {
    EnteringUntouched(s);
    EnteringUntouched(TimerReset(s));
    OdReqUntouched(s, false, ChIsdu, FLOWCTRL_START, Window(s.isdu.data, 0, s.od_len));
    var t := Receive(s);
    EnteringUntouched(TimerReset(t));
    CollectedUntouched(FirstRead(t));
  }

  lemma Response5Untouched(s: Dl)
    ensures SameDiag(s, IsduResponse5(s))
  {
    EnteringUntouched(s);
    var cur := s.isdu.current_isdu_seg;
    OdReqUntouched(s, false, ChIsdu, cur % 16, Window(s.isdu.data, Times(cur, s.od_len), s.od_len));
    CollectedUntouched(CountSegment(Receive(ReadLength(s))));
  }

  lemma IsduUntouched(s: Dl)
    ensures var t := IsduSm(s);
            Untouched(s, t) && t.od == s.od && t.ev == s.ev && t.rx == s.rx && t.cmd == s.cmd
  {
    IsduSmKeepsMux(s);
    match s.isdu.state
    case IhInactive0 =>
    case IhIdle1 => IdleUntouched(s);
    case IhRequest2 => RequestUntouched(s);
    case IhWait3 => Wait3Untouched(s);
    case IhError4 =>
    case IhResponse5 => Response5Untouched(s);
  }

  lemma ChUntouched(s: Dl, active: bool)
    ensures var t := ChConf(s, active); Untouched(s, t) && t.od == s.od && t.ev == s.ev && t.rx == s.rx
  {
    CmdKeepsOut(s.(cmd := s.cmd.(active := active)));
  }

  // ---------- switching off ----------

  /** What the Event handler itself does when it is switched off. */
  function EventsOff(s: Dl): Dl {
    EhConf(s, false)
  }

  /** The last octets received, not looked at yet, are the last of the reading. */
  predicate EndsReading(s: Dl) {
    && s.od.trigger == TrigDevice
    && if s.ev.ev_addr == 0 then !Details(s.rx[0])
       else
         && s.ev.ev_addr == 3 * s.ev.ev_cnt + 3
         && forall j :: s.ev.ev_cnt < j < MAX_EVENTS ==> !Bit(s.ev.status_code, j)
  }

  predicate GoesOn(s: Dl) {
    s.ev.state == EhReadEvent2 && !s.com_lost && !EndsReading(s)
  }

  lemma SlotOff(s: Dl)
    requires s.ev.state == EhReadEvent2 && !s.com_lost && s.od.trigger == TrigDevice && s.ev.ev_addr != 0
    ensures EvSm(s).ev.state == EhReadEvent2 <==> GoesOn(s)
  {
    var c := s.ev.ev_addr - s.ev.ev_cnt * 3;
    if c == 3 {
      var e := StoreOctet(s.ev, c, s.rx[0]);
      if e.ev_cnt < MAX_EVENTS {
        var next := NextSlot(e.status_code, e.ev_cnt + 1);
        assert next < MAX_EVENTS ==> Bit(s.ev.status_code, next);
      }
    }
  }

  lemma EventsOffGoOn(s: Dl)
    requires s.ev.state != EhSignalEvent3
    ensures EventsOff(s).ev.state == EhReadEvent2 <==> GoesOn(s)
  {
    var v := s.(ev := s.ev.(active := false));
    if s.ev.state == EhReadEvent2 && !s.com_lost && s.od.trigger == TrigDevice && s.ev.ev_addr != 0 {
      SlotOff(v);
    }
  }

  /** The other handlers are switched off first, and it does not notice. */
  lemma SwitchedOffEvents(s: Dl)
    ensures var b, t := IhConf(OhConf(s, false), false), SetActive(s, false);
            && Untouched(s, b) && b.ev == s.ev && b.od.trigger == s.od.trigger && b.rx == s.rx
            && t == EventsOff(b) && OdOff(t) && t.com_lost == s.com_lost && !t.ev.active
  {
    OdUntouched(s.(od := s.od.(active := false)));
    var a := OhConf(s, false);
    IsduUntouched(a.(isdu := a.isdu.(active := false)));
    var b := IhConf(a, false);
    EvSmKeeps(b.(ev := b.ev.(active := false)));
  }

  /** Where the mode handler switches them off. */
  lemma DeactivationIs(s: Dl)
    requires Deactivates(s)
    ensures var t := Step(s, ModeEvent);
            var u := if s.mode == MdPreoperate3 && s.dl_mode == ModeStartup then ChConf(s, false) else s;
            && u.ev == s.ev && Untouched(s, u) && u.od == s.od && u.rx == s.rx
            && Untouched(SetActive(u, false), t.(com_lost := SetActive(u, false).com_lost))
            && t.ev == SetActive(u, false).ev && t.od == SetActive(u, false).od
  {
    ChUntouched(s, false);
    ChUntouched(SetActive(s, false), false);
  }

  /** In every state: a reading goes on behind the switching off if and only if the
      link is not lost and the octets received last do not end it. */
  lemma ReadingSurvivesIff(s: Dl)
    requires Deactivates(s) && s.ev.state != EhSignalEvent3
    ensures Step(s, ModeEvent).ev.state == EhReadEvent2 <==> GoesOn(s)
  {
    DeactivationIs(s);
    var u := if s.mode == MdPreoperate3 && s.dl_mode == ModeStartup then ChConf(s, false) else s;
    SwitchedOffEvents(u);
    EventsOffGoOn(IhConf(OhConf(u, false), false));
  }

  // ---------- a lost link ----------

  /** Events are off, and so is what calls the Event handler. */
  predicate EventsAreOff(s: Dl) {
    OdOff(s) && !s.ev.active && s.ev.state == EhInactive0
  }

  predicate StaysOff(s: Dl, t: Dl) {
    && EventsAreOff(t)
    && t.ev.event_confirmation == s.ev.event_confirmation && t.out.diag == s.out.diag
  }

  lemma LostIsOff(s: Dl)
    requires Deactivates(s) && s.ev.state != EhSignalEvent3 && (s.com_lost || s.ev.state != EhReadEvent2)
    ensures StaysOff(s, Step(s, ModeEvent))
  {
    DeactivationIs(s);
    SwitchedOffEvents(if s.mode == MdPreoperate3 && s.dl_mode == ModeStartup then ChConf(s, false) else s);
  }

  lemma CommandStaysOff(s: Dl, i: Input)
    requires EventsAreOff(s) && (i.Control? || i.Devicemode? || i.WakeUp?)
    ensures StaysOff(s, Step(s, i))
  {
    match i
    case Control(code) => CmdAside(s.(cmd := s.cmd.(control_code := code)));
    case Devicemode(m) =>
      CmdAside(s.(cmd := s.cmd.(master_command := DevicemodeCommand(m), control_code := CcDevicemode)));
    case WakeUp(ok) => ChUntouched(s.(mode := MdStartup2), true);
  }

  lemma CmdAside(s: Dl)
    ensures Untouched(s, CmdSm(s)) && CmdSm(s).ev == s.ev && CmdSm(s).od == s.od
  {
    CmdKeepsOut(s);
    CmdSmKeeps(s);
  }

  lemma OffStays(s: Dl, i: Input)
    requires EventsAreOff(s) && (i.ModeEvent? ==> !Activates(s))
    ensures StaysOff(s, Step(s, i))
  {
    match i
    case Master => OdUntouched(Triggered(s, i));
    case Device(flag, rx) => OdUntouched(Triggered(s, i));
    case ModeEvent => if Deactivates(s) { LostIsOff(s); }
    case WakeUp(ok) => CommandStaysOff(s, i);
    case Control(code) => CommandStaysOff(s, i);
    case Devicemode(m) => CommandStaysOff(s, i);
    case _ => RequestStaysOff(s, i);
  }

  lemma RequestStaysOff(s: Dl, i: Input)
    requires EventsAreOff(s)
    requires !i.Master? && !i.Device? && !i.ModeEvent? && !i.WakeUp? && !i.Control? && !i.Devicemode?
    ensures StaysOff(s, Step(s, i))
  {
  }

  predicate NoActivation(s: Dl, inputs: seq<Input>) {
    inputs == []
    || (NoActivation(s, inputs[..|inputs| - 1])
        && (inputs[|inputs| - 1].ModeEvent? ==> !Activates(Run(s, inputs[..|inputs| - 1]))))
  }

  lemma {:induction false} OffOverRun(s: Dl, inputs: seq<Input>)
    requires EventsAreOff(s) && NoActivation(s, inputs)
    ensures StaysOff(s, Run(s, inputs))
  {
    if inputs != [] {
      OffOverRun(s, inputs[..|inputs| - 1]);
      OffStays(Run(s, inputs[..|inputs| - 1]), inputs[|inputs| - 1]);
    }
  }

  /** Switching on wakes the Event handler, and it sends nothing yet. */
  lemma OffWakes(s: Dl)
    requires EventsAreOff(s)
    ensures var t := SetActive(s, true);
            && t.ev == s.ev.(state := EhIdle1, active := true) && t.out.diag == s.out.diag
            && t.com_lost == s.com_lost
  {
    OnUntouched(s);
    var a := OhConf(s, true);
    IsduUntouched(a.(isdu := a.isdu.(active := true)));
  }

  lemma OnUntouched(s: Dl)
    requires OdOff(s)
    ensures var t := OhConf(s, true); Untouched(s, t) && t.ev == s.ev && t.rx == s.rx
    ensures s.od.state == OdInactive0 ==> OhConf(s, true).od.trigger == s.od.trigger
  {
  }

  /** A link lost while events are read, or before they are confirmed: over every run
      up to the next activation nothing is read or written for them, a reading is
      forgotten, and a confirmation that was due is still due. */
  lemma LossForgetsReading(s: Dl, inputs: seq<Input>)
    requires Deactivates(s) && s.com_lost && s.ev.state != EhSignalEvent3
    requires NoActivation(Step(s, ModeEvent), inputs)
    ensures var u := Run(Step(s, ModeEvent), inputs);
            && StaysOff(s, u)
            && (Activates(u) ==>
                  var y := Step(u, ModeEvent);
                  && y.ev.state == EhIdle1 && y.ev.active && y.out.diag == s.out.diag
                  && y.ev.event_confirmation == s.ev.event_confirmation)
  {
    LostIsOff(s);
    OffOverRun(Step(s, ModeEvent), inputs);
    OffWakes(Run(Step(s, ModeEvent), inputs));
  }

  /** An exchange of the ISDU handler whose answer raises the flag. */
  lemma PollAsked(x: Session)
    requires MuxInv(x) && x.dl.od.state == OdIsdu1 && !x.awaiting && x.dl.cmd.control_code == CcNone
    ensures var y := SessionStep(x, Master);
            && MuxInv(y) && y.awaiting && y.dl.od.state == OdIsdu1 && y.dl.cmd == x.dl.cmd
            && Untouched(x.dl, y.dl) && y.dl.ev == x.dl.ev && y.dl.od_len == x.dl.od_len
  {
    MasterStep(x);
    IsduUntouched(Triggered(x.dl, Master));
    IsduSmStep(Triggered(x.dl, Master));
  }

  lemma FlagTaken(y: Session, rx: RxBuffer)
    requires MuxInv(y) && y.dl.od.state == OdIsdu1 && y.awaiting && y.dl.cmd.control_code == CcNone
    ensures var z := SessionStep(y, Device(true, rx));
            && MuxInv(z) && !z.awaiting && z.dl.od.state == OdEvent3 && z.dl.cmd == y.dl.cmd
            && Untouched(y.dl, z.dl) && z.dl.ev.event_flag && z.dl.od_len == y.dl.od_len
  {
    DeviceStep(y, true, rx);
    IsduUntouched(Triggered(y.dl, Device(true, rx)));
    IsduSmStep(Triggered(y.dl, Device(true, rx)));
  }

  /** What the handler does first behind such an activation, with the first flag the
      device raises: it reads the status octet, unless the confirmation is due. */
  lemma FirstFlagAfter(x: Session, rx: RxBuffer)
    requires MuxInv(x) && x.dl.od.state == OdIsdu1 && !x.awaiting && x.dl.cmd.control_code == CcNone
    requires x.dl.ev.state == EhIdle1 && x.dl.ev.active && !x.dl.com_lost
    ensures var z := SessionStep(SessionStep(x, Master), Device(true, rx));
            SessionStep(z, Master).dl.out.diag
            == x.dl.out.diag + [if x.dl.ev.event_confirmation then Taken(x.dl.od_len) else Read(0)]
  {
    PollAsked(x);
    FlagTaken(SessionStep(x, Master), rx);
    FirstMessage(SessionStep(SessionStep(x, Master), Device(true, rx)));
  }

  lemma FirstMessage(z: Session)
    requires MuxInv(z) && !z.awaiting && z.dl.od.state == OdEvent3 && z.dl.cmd.control_code == CcNone
    requires z.dl.ev.state == EhIdle1 && z.dl.ev.active && z.dl.ev.event_flag && !z.dl.com_lost
    ensures SessionStep(z, Master).dl.out.diag
            == z.dl.out.diag + [if z.dl.ev.event_confirmation then Taken(z.dl.od_len) else Read(0)]
  {
    MasterStep(z);
    if z.dl.ev.event_confirmation { ConfirmationSent(z); }
  }

  /** A confirmation that comes to its turn when the link is lost is not written, and
      stays due; the handler leaves. */
  lemma LostConfirmationStaysDue(x: Session)
    requires MuxInv(x) && !x.awaiting && x.dl.od.state == OdEvent3 && x.dl.cmd.control_code == CcNone
    requires x.dl.ev.event_flag && x.dl.ev.active && x.dl.ev.state == EhIdle1
    requires x.dl.ev.event_confirmation && x.dl.com_lost
    ensures var y := SessionStep(x, Master);
            y.dl.out == x.dl.out && y.dl.ev == x.dl.ev.(state := EhInactive0)
  {
    MasterStep(x);
  }

  // ---------- the link kept ----------

  /** STARTUP commanded, and what is called there: services, commands and accesses. */
  predicate CalledInStartup(i: Input) {
    !i.Master? && !i.Device? && !i.ModeEvent? && !i.LinkLost? && !i.WakeUp?
  }

  predicate Resting(s: Dl, t: Dl) {
    OdOff(t) && t.od.trigger == TrigNone && Untouched(s, t) && t.ev == s.ev
  }

  lemma CommandRests(s: Dl, i: Input)
    requires OdOff(s) && s.od.trigger == TrigNone && (i.Control? || i.Devicemode?)
    ensures Resting(s, Step(s, i))
  {
    match i
    case Control(code) => CmdAside(s.(cmd := s.cmd.(control_code := code)));
    case Devicemode(m) =>
      CmdAside(s.(cmd := s.cmd.(master_command := DevicemodeCommand(m), control_code := CcDevicemode)));
  }

  lemma RequestRests(s: Dl, i: Input)
    requires OdOff(s) && s.od.trigger == TrigNone && (i.Param? || i.IsduRequest?)
    ensures Resting(s, Step(s, i))
  {
  }

  lemma RestsOn(s: Dl, i: Input)
    requires OdOff(s) && s.od.trigger == TrigNone && CalledInStartup(i)
    ensures Resting(s, Step(s, i))
  {
    match i
    case Control(code) => CommandRests(s, i);
    case Devicemode(m) => CommandRests(s, i);
    case Param(write, address, value, ready) => RequestRests(s, i);
    case IsduRequest(q) => RequestRests(s, i);
    case _ =>
  }

  lemma {:induction false} RestsOverRun(s: Dl, inputs: seq<Input>)
    requires OdOff(s) && s.od.trigger == TrigNone
    requires forall k :: 0 <= k < |inputs| ==> CalledInStartup(inputs[k])
    ensures Resting(s, Run(s, inputs))
  {
    if inputs != [] {
      RestsOverRun(s, inputs[..|inputs| - 1]);
      RestsOn(Run(s, inputs[..|inputs| - 1]), inputs[|inputs| - 1]);
    }
  }

  /** Switching on leaves a reading where it is. */
  lemma OnGoesOn(s: Dl)
    requires OdOff(s) && s.od.trigger == TrigNone && s.ev.state == EhReadEvent2 && !s.com_lost
    ensures var t := SetActive(s, true);
            t.ev == s.ev.(active := true) && t.out.diag == s.out.diag
  {
    OnRests(s);
    var a := OhConf(s, true);
    IsduUntouched(a.(isdu := a.isdu.(active := true)));
  }

  lemma OnRests(s: Dl)
    requires OdOff(s) && s.od.trigger == TrigNone
    ensures var t := OhConf(s, true); Untouched(s, t) && t.ev == s.ev && t.od.trigger == TrigNone
  {
  }

  predicate ReadingLeft(s: Dl) {
    s.ev.state == EhReadEvent2 && !s.com_lost && s.od.trigger == TrigNone
  }

  lemma RestartRests(s: Dl)
    requires (s.mode == MdPreoperate3 || s.mode == MdOperate4) && s.dl_mode == ModeStartup && ReadingLeft(s)
    ensures var t := Step(s, ModeEvent);
            && OdOff(t) && ReadingLeft(t) && t.ev == s.ev.(active := false) && t.out.diag == s.out.diag
  {
    DeactivationIs(s);
    SwitchedOffEvents(if s.mode == MdPreoperate3 then ChConf(s, false) else s);
  }

  lemma ActivatedGoesOn(u: Dl)
    requires OdOff(u) && ReadingLeft(u) && Activates(u)
    ensures var y := Step(u, ModeEvent); y.ev == u.ev.(active := true) && y.out.diag == u.out.diag
  {
    OnGoesOn(u);
  }

  /** STARTUP commanded while events are read, with the link kept: after the next
      activation the reading goes on where it stopped, however long that takes. */
  lemma RestartKeepsReading(s: Dl, inputs: seq<Input>)
    requires (s.mode == MdPreoperate3 || s.mode == MdOperate4) && s.dl_mode == ModeStartup && ReadingLeft(s)
    requires forall k :: 0 <= k < |inputs| ==> CalledInStartup(inputs[k])
    ensures var u := Run(Step(s, ModeEvent), inputs);
            Activates(u) ==>
              var y := Step(u, ModeEvent);
              y.ev == s.ev.(active := true) && y.out.diag == s.out.diag
  {
    RestartRests(s);
    var t := Step(s, ModeEvent);
    RestsOverRun(t, inputs);
    var u := Run(t, inputs);
    if Activates(u) { ActivatedGoesOn(u); }
  }

  /** With the flag still up, the answer to the ISDU handler's first poll is then taken
      for the octet of the event that was to be read next, which nothing asked for. */
  lemma AnswerTakenForEvent(s: Dl, rx: RxBuffer)
    requires s.od.active && s.od.state == OdIsdu1 && s.od.trigger == TrigNone && s.cmd.control_code == CcNone
    requires s.isdu.active && s.isdu.state == IhIdle1 && s.rwcmd == RwNone && !s.com_lost
    requires s.ev.event_flag && s.ev.state == EhReadEvent2 && s.ev.ev_current < MAX_EVENTS
    requires s.ev.ev_addr == 3 * s.ev.ev_cnt + 1 || s.ev.ev_addr == 3 * s.ev.ev_cnt + 2
    ensures var y := Step(s, Master);
            var t := Step(y, Device(true, rx));
            && y.out.wire == Frame(false, ChIsdu, 0x11, [])
            && t.out.diag == s.out.diag && t.ev.ev_addr == s.ev.ev_addr + 1
            && var e := t.ev.events[s.ev.ev_current];
               if s.ev.ev_addr == 3 * s.ev.ev_cnt + 1 then e.event_qualifier == rx[0]
               else e.event_code_msb == rx[0]
  {
  }
}
