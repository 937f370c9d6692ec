/**
 * The OD handler lets Commands and Events share the message exchange with ISDU
 * transfers. This module shows that the ISDU handler cannot tell: it is given
 * master and device triggers in strict alternation, on every run.
 */
module DlMultiplexer {
  import opened Bytes
  import opened IsduCodec
  import opened DlModel
  import opened DlAccounting

  /** A run of the machine, seen from the message handler: `awaiting` is set
      between a master message and its answer, `seen` are the triggers the ISDU
      handler was given. */
  datatype Session = Session(dl: Dl, awaiting: bool, seen: seq<Trigger>)

  /** The machine as it stands when the OD handler is called for an input. */
  function Triggered(s: Dl, i: Input): Dl
    requires i.Master? || i.Device?
  {
    match i
    case Master => s.(od := s.od.(trigger := TrigMaster))
    case Device(flag, rx) =>
      s.(od := s.od.(trigger := TrigDevice), ev := s.ev.(event_flag := flag), rx := rx)
  }

  function SessionStep(x: Session, i: Input): Session {
    if i.Master? || i.Device? then
      var t := Triggered(x.dl, i);
      Session(OdSm(t), i.Master?, if IsduSees(t) then x.seen + [t.od.trigger] else x.seen)
    else x.(dl := Step(x.dl, i))
  }

  function SessionRun(x: Session, inputs: seq<Input>): Session {
    if inputs == [] then x
    else SessionStep(SessionRun(x, inputs[..|inputs| - 1]), inputs[|inputs| - 1])
  }

  lemma SessionFollowsMachine(x: Session, inputs: seq<Input>)
    ensures SessionRun(x, inputs).dl == Run(x.dl, inputs)
  {
  }

  /** No control code is pending and none is being carried out. */
  predicate CommandIdle(s: Dl) {
    s.cmd.control_code == CcNone && s.od.state != OdCommand2
  }

  /** The environment: messages and answers alternate, the link stays up, and one
      control code is outstanding at a time. Requests, parameter accesses, aborts
      and timeouts come at any time. When the message handler keeps to it, DlMessages
      says: a parameter write in OPERATE makes it ask for a second message. */
  predicate LinkUp(x: Session, i: Input) {
    match i
    case Master => !x.awaiting
    case Device(_, _) => x.awaiting
    case Control(code) => CommandIdle(x.dl) && (code == CcPdOutValid || code == CcPdOutInvalid)
    case Devicemode(_) => CommandIdle(x.dl) && x.dl.mode != MdStartup2
    case IsduRequest(_) => true
    case Param(_, _, _, _) => true
    case Abort => true
    case TimerExpires => true
    case _ => false
  }

  predicate LinkUpRun(x: Session, inputs: seq<Input>) {
    inputs == []
    || (LinkUpRun(x, inputs[..|inputs| - 1])
        && LinkUp(SessionRun(x, inputs[..|inputs| - 1]), inputs[|inputs| - 1]))
  }

  /** The running exchange belongs to the ISDU handler. */
  predicate Mine(x: Session) {
    x.awaiting && x.dl.od.state == OdIsdu1
  }

  predicate CommandReady(s: Dl) {
    && s.cmd.active
    && s.cmd.state == (if s.cmd.control_code == CcNone then ChIdle1 else ChMasterCommand2)
  }

  predicate MuxInv(x: Session) {
    && x.dl.od.active && x.dl.isdu.active
    && CommandReady(x.dl)
    && x.dl.od.state != OdInactive0
    && (x.dl.od.state == OdIsdu1 ==> !x.dl.ev.event_flag)
    && (x.dl.od.state == OdEvent3 ==> x.dl.ev.event_flag)
    && (x.dl.od.state == OdCommand2 ==> x.awaiting && x.dl.cmd.control_code == CcNone)
  }

  function Other(t: Trigger): Trigger {
    if t == TrigMaster then TrigDevice else TrigMaster
  }

  predicate Alternating(seen: seq<Trigger>, first: Trigger) {
    && (seen != [] ==> seen[0] == first)
    && (forall k :: 0 <= k < |seen| ==> seen[k] != TrigNone)
    && (forall j, k :: 0 <= j < |seen| && k == j + 1 && k < |seen| ==> seen[k] == Other(seen[j]))
  }

  /** The trigger the ISDU handler has to get next. */
  function Next(x: Session): Trigger {
    if Mine(x) then TrigDevice else TrigMaster
  }

  /** The triggers alternate from `first` on and `next` is the one due. */
  predicate Turns(seen: seq<Trigger>, first: Trigger, next: Trigger) {
    && Alternating(seen, first)
    && next != TrigNone
    && (if seen == [] then next == first else seen[|seen| - 1] == Other(next))
  }

  lemma TurnTaken(seen: seq<Trigger>, first: Trigger, next: Trigger)
    requires Turns(seen, first, next)
    ensures Turns(seen + [next], first, Other(next))
  {
  }

  // ---------- one exchange step ----------

  lemma IsduSmKeepsMux(s: Dl)
    ensures var t := IsduSm(s);
            t.od == s.od && t.cmd == s.cmd && t.ev == s.ev && t.isdu.active == s.isdu.active
  {
    IsduSmStep(s);
  }

  lemma EvSmKeepsMux(s: Dl)
    ensures var t := EvSm(s);
            && t.od == s.od && t.cmd == s.cmd && t.isdu == s.isdu
            && t.ev.event_flag == s.ev.event_flag && t.ev.active == s.ev.active
  {
    EvSmKeeps(s);
  }

  lemma MasterStep(x: Session)
    requires MuxInv(x) && !x.awaiting
    ensures var y, t := SessionStep(x, Master), Triggered(x.dl, Master);
            && MuxInv(y) && y.awaiting
            && (IsduSees(t) <==> Mine(y))
  {
    var t := Triggered(x.dl, Master);
    IsduSmKeepsMux(t);
    EvSmKeepsMux(t);
  }

  lemma DeviceStep(x: Session, flag: bool, rx: RxBuffer)
    requires MuxInv(x) && x.awaiting
    ensures var y, t := SessionStep(x, Device(flag, rx)), Triggered(x.dl, Device(flag, rx));
            && MuxInv(y) && !y.awaiting
            && (IsduSees(t) <==> Mine(x))
  {
    var t := Triggered(x.dl, Device(flag, rx));
    IsduSmKeepsMux(t);
    EvSmKeepsMux(t);
  }

  lemma ServiceStep(x: Session, i: Input)
    requires MuxInv(x) && LinkUp(x, i) && !i.Master? && !i.Device?
    ensures var y := SessionStep(x, i);
            MuxInv(y) && y.awaiting == x.awaiting && y.seen == x.seen && y.dl.od.state == x.dl.od.state
  {
  }

  lemma MuxStep(x: Session, i: Input, first: Trigger)
    requires MuxInv(x) && LinkUp(x, i) && Turns(x.seen, first, Next(x))
    ensures MuxInv(SessionStep(x, i)) && Turns(SessionStep(x, i).seen, first, Next(SessionStep(x, i)))
  {
    TurnTaken(x.seen, first, Next(x));
    if i.Master? {
      MasterStep(x);
    } else if i.Device? {
      DeviceStep(x, i.flag, i.rx);
    } else {
      ServiceStep(x, i);
    }
  }

  // ---------- transparency ----------

  /** On every run with the link up the ISDU handler sees strictly alternating
      master and device triggers, and the first one is a master message unless
      its own message was already out. */
  lemma {:induction false} Transparency(x: Session, inputs: seq<Input>)
    requires MuxInv(x) && x.seen == [] && LinkUpRun(x, inputs)
    ensures MuxInv(SessionRun(x, inputs))
    ensures var y := SessionRun(x, inputs); Turns(y.seen, Next(x), Next(y))
  {
    if inputs != [] {
      var init, i := inputs[..|inputs| - 1], inputs[|inputs| - 1];
      Transparency(x, init);
      MuxStep(SessionRun(x, init), i, Next(x));
    }
  }

  /** The event flag must be clear when the handlers start: a master message and
      its answer both reach the ISDU handler exactly when it is. */
  lemma ExchangeReachesIsduIffFlagClear(x: Session, flag: bool, rx: RxBuffer)
    requires x.dl.od.state == OdIsdu1 && x.dl.od.active && CommandReady(x.dl)
    requires x.dl.cmd.control_code == CcNone && !x.awaiting
    ensures var y := SessionStep(SessionStep(x, Master), Device(flag, rx));
            if x.dl.ev.event_flag then y.seen == x.seen + [TrigMaster]
            else y.seen == x.seen + [TrigMaster, TrigDevice]
  {
    IsduSmKeepsMux(Triggered(x.dl, Master));
  }

  /** A command gives the exchange back with its answer exactly when no second
      control code arrived in between. */
  lemma CommandReturnsIffNoSecondCode(x: Session, flag: bool, rx: RxBuffer)
    requires x.dl.od.state == OdCommand2 && x.dl.od.active
    ensures SessionStep(x, Device(flag, rx)).dl.od.state != OdCommand2 <==> x.dl.cmd.control_code == CcNone
  {
  }

  /** A control code that no master command stands for is not taken up either. The
      next master message goes to COMMAND_2 with the code still set exactly for
      these two; no exchange leads on from there. */
  lemma ControlCodeBlocksIffUnknown(x: Session, code: ControlCode)
    requires MuxInv(x) && !x.awaiting && CommandIdle(x.dl)
    requires code != CcNone && code != CcDevicemode
    ensures var y := SessionStep(SessionStep(x, Control(code)), Master);
            && y.dl.od.state == OdCommand2 && y.dl.od.active
            && (y.dl.cmd.control_code != CcNone <==> code == CcValid || code == CcInvalid)
            && (code == CcValid || code == CcInvalid ==> y.dl.out == x.dl.out)
  {
  }

  /** With a control code left over the OD handler stays in COMMAND_2 through every
      further exchange, and no exchange prepares another message. Which requests
      free it, DlCommands says. */
  lemma {:induction false} SecondCodeBlocksForever(x: Session, inputs: seq<Input>)
    requires x.dl.od.state == OdCommand2 && x.dl.od.active && x.dl.cmd.control_code != CcNone
    requires forall k :: 0 <= k < |inputs| ==> inputs[k].Master? || inputs[k].Device?
    ensures var y := SessionRun(x, inputs);
            && y.dl.od.state == OdCommand2 && y.dl.od.active && y.dl.cmd == x.dl.cmd
            && y.dl.out == x.dl.out && y.seen == x.seen
  {
    if inputs != [] {
      SecondCodeBlocksForever(x, inputs[..|inputs| - 1]);
    }
  }
}
