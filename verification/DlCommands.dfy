/**
 * Master commands and the OD handler: which requests free a COMMAND_2 that more
 * than one control code has blocked, when switching the handlers on opens an
 * exchange at all, and what becomes of a command that went down with the link.
 */
module DlCommands {
  import opened Bytes
  import opened IsduCodec
  import opened DlModel
  import opened DlAccounting
  import opened DlMultiplexer

  // ---------- a blocked COMMAND_2 ----------

  /** COMMAND_2 with a control code set: no exchange leads out. */
  predicate Blocked(s: Dl) {
    s.od.state == OdCommand2 && s.od.active && s.cmd.control_code != CcNone
  }

  /** DL_Control_req with a code it takes, or DL_Write_Devicemode_req. */
  predicate Commands(i: Input) {
    (i.Control? && i.code != CcNone && i.code != CcDevicemode) || i.Devicemode?
  }

  /** Those of them that the Command handler has a branch for in IDLE_1. */
  predicate Starts(i: Input) {
    (i.Control? && (i.code == CcPdOutValid || i.code == CcPdOutInvalid)) || i.Devicemode?
  }

  /** The Command handler, as requests alone move it. */
  function Moved(state: CmdState, active: bool, i: Input): CmdState {
    if !Commands(i) then state
    else
      match state
      case ChInactive0 => if active then ChIdle1 else ChInactive0
      case ChIdle1 => if !active then ChInactive0 else if Starts(i) then ChMasterCommand2 else ChIdle1
      case ChMasterCommand2 => ChIdle1
  }

  /** Neither the handlers nor the link are started or stopped. */
  predicate Steady(i: Input) {
    !i.ModeEvent? && !i.WakeUp?
  }

  lemma BlockedStep(s: Dl, i: Input)
    requires Blocked(s) && s.mode != MdStartup2 && Steady(i)
    ensures var t := Step(s, i);
            && t.od.state == OdCommand2 && t.od.active && t.mode == s.mode
            && t.cmd.active == s.cmd.active && t.cmd.state == Moved(s.cmd.state, s.cmd.active, i)
            && (Blocked(t) <==> !(Commands(i) && s.cmd.state == ChMasterCommand2))
  {
    match i
    case Control(code) => BlockedRequest(s, i);
    case Devicemode(m) => BlockedRequest(s, i);
    case LinkLost(preoperate) => BlockedLoss(s, preoperate);
    case _ =>
  }

  /** The Command handler after a request with this code. */
  lemma CmdMoves(s: Dl, i: Input)
    requires Commands(i) && s.cmd.control_code != CcNone
    requires i.Control? ==> s.cmd.control_code == i.code
    requires i.Devicemode? ==> s.cmd.control_code == CcDevicemode
    ensures var t := CmdSm(s);
            && t.od == s.od && t.mode == s.mode && t.cmd.active == s.cmd.active
            && t.cmd.state == Moved(s.cmd.state, s.cmd.active, i)
            && (t.cmd.control_code == CcNone <==> s.cmd.state == ChMasterCommand2)
  {
  }

  lemma BlockedRequest(s: Dl, i: Input)
    requires Blocked(s) && s.mode != MdStartup2 && (i.Control? || i.Devicemode?)
    ensures var t := Step(s, i);
            && t.od.state == OdCommand2 && t.od.active && t.mode == s.mode
            && t.cmd.active == s.cmd.active && t.cmd.state == Moved(s.cmd.state, s.cmd.active, i)
            && (Blocked(t) <==> !(Commands(i) && s.cmd.state == ChMasterCommand2))
  {
    match i
    case Control(code) => if Commands(i) { CmdMoves(s.(cmd := s.cmd.(control_code := code)), i); }
    case Devicemode(m) =>
      CmdMoves(s.(cmd := s.cmd.(master_command := DevicemodeCommand(m), control_code := CcDevicemode)), i);
  }

  lemma BlockedLoss(s: Dl, preoperate: bool)
    requires Blocked(s)
    ensures var t := ComLost(s, preoperate);
            t.od == s.od && t.mode == s.mode && t.cmd.(master_command := s.cmd.master_command) == s.cmd
  {
    WriteMasterCommandKeeps(s, NoComm);
  }

  function MovedOver(state: CmdState, active: bool, inputs: seq<Input>): CmdState {
    if inputs == [] then state
    else Moved(MovedOver(state, active, inputs[..|inputs| - 1]), active, inputs[|inputs| - 1])
  }

  /** Some request finds the Command handler in MASTERCOMMAND_2. */
  predicate Frees(state: CmdState, active: bool, inputs: seq<Input>) {
    inputs != []
    && (Frees(state, active, inputs[..|inputs| - 1])
        || (Commands(inputs[|inputs| - 1])
            && MovedOver(state, active, inputs[..|inputs| - 1]) == ChMasterCommand2))
  }

  predicate BlockedThroughout(s: Dl, inputs: seq<Input>) {
    && Blocked(Run(s, inputs))
    && (inputs != [] ==> BlockedThroughout(s, inputs[..|inputs| - 1]))
  }

  /** Over every run: COMMAND_2 stays blocked until a DL_Control_req or a
      DL_Write_Devicemode_req comes that finds the Command handler in
      MASTERCOMMAND_2, and no longer. */
  lemma {:induction false} BlockedUntilFreed(s: Dl, inputs: seq<Input>)
    requires Blocked(s) && s.mode != MdStartup2
    requires forall k :: 0 <= k < |inputs| ==> Steady(inputs[k])
    ensures BlockedThroughout(s, inputs) <==> !Frees(s.cmd.state, s.cmd.active, inputs)
    ensures BlockedThroughout(s, inputs) ==>
      var t := Run(s, inputs);
      && t.cmd.state == MovedOver(s.cmd.state, s.cmd.active, inputs)
      && t.cmd.active == s.cmd.active && t.mode == s.mode
  {
    if inputs != [] {
      var init, i := inputs[..|inputs| - 1], inputs[|inputs| - 1];
      BlockedUntilFreed(s, init);
      if BlockedThroughout(s, init) { BlockedStep(Run(s, init), i); }
    }
  }

  /** The request that frees it, and the next trigger leaves COMMAND_2: the session
      goes on as if nothing had been. */
  lemma FreedLeaves(x: Session, i: Input, next: Input)
    requires Blocked(x.dl) && x.dl.mode != MdStartup2 && x.dl.isdu.active
    requires x.dl.cmd.active && x.dl.cmd.state == ChMasterCommand2
    requires Commands(i) && (next.Master? || next.Device?)
    ensures var y := SessionStep(SessionStep(x, i), next);
            y.dl.od.state != OdCommand2 && MuxInv(y)
  {
    BlockedStep(x.dl, i);
    CommandKeeps(x.dl, i);
    Returns(SessionStep(x, i), next);
  }

  lemma Returns(x: Session, next: Input)
    requires x.dl.od.state == OdCommand2 && x.dl.od.active && x.dl.isdu.active
    requires CommandReady(x.dl) && x.dl.cmd.control_code == CcNone && (next.Master? || next.Device?)
    ensures SessionStep(x, next).dl.od.state != OdCommand2 && MuxInv(SessionStep(x, next))
  {
    WriteMasterCommandKeeps(Rest(Triggered(x.dl, next)), NoError);
  }

  // ---------- the same by requests counted ----------

  ghost predicate SomeStarts(inputs: seq<Input>) {
    exists j :: 0 <= j < |inputs| && Starts(inputs[j])
  }

  ghost predicate SomeCommands(inputs: seq<Input>) {
    exists j :: 0 <= j < |inputs| && Commands(inputs[j])
  }

  /** A request with a branch, and another one after it. */
  ghost predicate StartsThenCommands(inputs: seq<Input>) {
    exists j, k :: 0 <= j < k < |inputs| && Starts(inputs[j]) && Commands(inputs[k])
  }

  /** From IDLE_1, as after VALID or INVALID: two requests free it, the first of
      them PDOUTVALID, PDOUTINVALID or a device mode. */
  lemma {:induction false} FreedFromIdle(inputs: seq<Input>)
    ensures Frees(ChIdle1, true, inputs) <==> StartsThenCommands(inputs)
    ensures !Frees(ChIdle1, true, inputs) ==>
      MovedOver(ChIdle1, true, inputs) == (if SomeStarts(inputs) then ChMasterCommand2 else ChIdle1)
  {
    if inputs != [] {
      var init, i := inputs[..|inputs| - 1], inputs[|inputs| - 1];
      FreedFromIdle(init);
      LastStarts(inputs);
      LastPair(inputs);
    }
  }

  lemma LastStarts(inputs: seq<Input>)
    requires inputs != []
    ensures SomeStarts(inputs) <==> SomeStarts(inputs[..|inputs| - 1]) || Starts(inputs[|inputs| - 1])
  {
    var init := inputs[..|inputs| - 1];
    if SomeStarts(init) {
      var j :| 0 <= j < |init| && Starts(init[j]);
      assert Starts(inputs[j]);
    }
    if SomeStarts(inputs) && !Starts(inputs[|inputs| - 1]) {
      var j :| 0 <= j < |inputs| && Starts(inputs[j]);
      assert Starts(init[j]);
    }
  }

  lemma LastPair(inputs: seq<Input>)
    requires inputs != []
    ensures var init := inputs[..|inputs| - 1];
            StartsThenCommands(inputs) <==>
              StartsThenCommands(init) || (SomeStarts(init) && Commands(inputs[|inputs| - 1]))
  {
    var init, n := inputs[..|inputs| - 1], |inputs| - 1;
    if StartsThenCommands(init) {
      var j, k :| 0 <= j < k < |init| && Starts(init[j]) && Commands(init[k]);
      assert Starts(inputs[j]) && Commands(inputs[k]);
    }
    if SomeStarts(init) && Commands(inputs[n]) {
      var j :| 0 <= j < |init| && Starts(init[j]);
      assert Starts(inputs[j]);
    }
    if StartsThenCommands(inputs) {
      var j, k :| 0 <= j < k < |inputs| && Starts(inputs[j]) && Commands(inputs[k]);
      assert Starts(init[j]);
      if k < n { assert Commands(init[k]); }
    }
  }

  /** From MASTERCOMMAND_2, as after a second PDOUT code: any request does. */
  lemma {:induction false} FreedFromMasterCommand(active: bool, inputs: seq<Input>)
    ensures Frees(ChMasterCommand2, active, inputs) <==> SomeCommands(inputs)
    ensures !Frees(ChMasterCommand2, active, inputs) ==>
      MovedOver(ChMasterCommand2, active, inputs) == ChMasterCommand2
  {
    if inputs != [] {
      var init, i := inputs[..|inputs| - 1], inputs[|inputs| - 1];
      FreedFromMasterCommand(active, init);
      if SomeCommands(init) {
        var j :| 0 <= j < |init| && Commands(init[j]);
        assert Commands(inputs[j]);
      }
      if SomeCommands(inputs) && !Commands(i) {
        var j :| 0 <= j < |inputs| && Commands(inputs[j]);
        assert Commands(init[j]);
      }
    }
  }

  /** With the Command handler switched off: none does. */
  lemma {:induction false} NotFreedWhenOff(state: CmdState, inputs: seq<Input>)
    requires state != ChMasterCommand2
    ensures !Frees(state, false, inputs) && MovedOver(state, false, inputs) != ChMasterCommand2
  {
    if inputs != [] { NotFreedWhenOff(state, inputs[..|inputs| - 1]); }
  }

  // ---------- does activation open an exchange? ----------

  /** What switching on has to find. Only an answer clears the event flag, and only
      a wake-up switches the Command handler on. An OD handler that was left in
      COMMAND_2 goes on only by the trigger left over with it. */
  predicate Opens(s: Dl) {
    && CommandReady(s)
    && match s.od.state
       case OdInactive0 => !s.ev.event_flag
       case OdCommand2 => s.od.trigger != TrigNone && s.cmd.control_code == CcNone
       case OdIsdu1 => !CommandDue(s)
       case OdEvent3 => !CommandDue(s)
  }

  predicate OdReady(s: Dl) {
    && CommandReady(s) && s.od.state != OdInactive0 && s.od.state != OdCommand2
    && (s.od.state == OdIsdu1 ==> !s.ev.event_flag)
    && (s.od.state == OdEvent3 ==> s.ev.event_flag)
  }

  lemma OhOpens(s: Dl)
    ensures OhConf(s, true).od.active && (OdReady(OhConf(s, true)) <==> Opens(s))
  {
    var p := s.(od := s.od.(active := true));
    match s.od.state
    case OdInactive0 =>
    case OdIsdu1 => IsduSmKeepsMux(p);
    case OdCommand2 => WriteMasterCommandKeeps(Rest(p), NoError);
    case OdEvent3 => EvSmKeeps(p);
  }

  predicate SameMux(s: Dl, t: Dl) {
    t.od == s.od && t.cmd == s.cmd && t.ev.event_flag == s.ev.event_flag
  }

  lemma RestSwitchedOn(a: Dl)
    ensures var d := EhConf(IhConf(a, true), true); SameMux(a, d) && d.isdu.active
  {
    var b := a.(isdu := a.isdu.(active := true));
    IsduSmKeepsMux(b);
    var c := IsduSm(b);
    EvSmKeeps(c.(ev := c.ev.(active := true)));
  }

  lemma OpensIffReady(a: Dl, d: Dl, mode: ModeState)
    requires a.od.active && SameMux(a, d) && d.isdu.active
    ensures MuxInv(Session(d.(mode := mode), false, [])) <==> OdReady(a)
  {
  }

  /** In every state: switching the handlers on opens an exchange if and only if. */
  lemma ActivationOpensSession(s: Dl)
    requires Activates(s)
    ensures MuxInv(Session(Step(s, ModeEvent), false, [])) <==> Opens(s)
  {
    SwitchedOn(s);
    ActivationIs(s);
    OpensIffReady(OhConf(s, true), SetActive(s, true), ActivatedMode(s));
  }

  function ActivatedMode(s: Dl): ModeState {
    if s.dl_mode == ModePreoperate then MdPreoperate3 else MdOperate4
  }

  lemma ActivationIs(s: Dl)
    requires Activates(s)
    ensures Step(s, ModeEvent) == SetActive(s, true).(mode := ActivatedMode(s))
  {
  }

  lemma SwitchedOn(s: Dl)
    ensures var a, d := OhConf(s, true), SetActive(s, true);
            a.od.active && (OdReady(a) <==> Opens(s)) && SameMux(a, d) && d.isdu.active
  {
    OhOpens(s);
    RestSwitchedOn(OhConf(s, true));
  }

  // ---------- the Command handler is not switched on again ----------

  predicate CommandOff(s: Dl) {
    !s.cmd.active && s.cmd.state != ChMasterCommand2
  }

  /** PREOPERATE back to STARTUP switches it off. */
  lemma RestartSwitchesCommandsOff(s: Dl)
    requires s.mode == MdPreoperate3 && s.dl_mode == ModeStartup
    ensures CommandOff(Step(s, ModeEvent)) && Step(s, ModeEvent).mode == MdStartup2
  {
    RestartIs(s);
    StartupStaysOff(s);
  }

  lemma RestartIs(s: Dl)
    requires s.mode == MdPreoperate3 && s.dl_mode == ModeStartup
    ensures Step(s, ModeEvent) == SetActive(ChConf(s, false), false).(mode := MdStartup2)
  {
  }

  lemma CmdSmStaysOff(s: Dl)
    requires CommandOff(s)
    ensures CommandOff(CmdSm(s)) && CmdSm(s).out == s.out
  {
  }

  lemma OdSmStaysOff(s: Dl)
    requires CommandOff(s)
    ensures CommandOff(OdSm(s))
  {
    match s.od.state
    case OdInactive0 =>
    case OdIsdu1 => if s.od.active { if CommandDue(s) { CmdSmStaysOff(s); } else { IsduSmKeepsMux(s); } }
    case OdCommand2 =>
    case OdEvent3 => if s.od.active { if CommandDue(s) { CmdSmStaysOff(s); } else { EvSmKeeps(s); } }
  }

  lemma OffStays(s: Dl, active: bool)
    requires CommandOff(s)
    ensures CommandOff(SetActive(s, active))
  {
    OdSmStaysOff(s.(od := s.od.(active := active)));
    var a := OhConf(s, active);
    IsduSmKeepsMux(a.(isdu := a.isdu.(active := active)));
    var c := IhConf(a, active);
    EvSmKeeps(c.(ev := c.ev.(active := active)));
  }

  lemma ModeStaysOff(s: Dl)
    requires CommandOff(s)
    ensures CommandOff(ModeSm(s))
  {
    match s.mode
    case MdIdle0 =>
    case MdEstCom1 =>
    case MdStartup2 =>
      if s.dl_mode == ModePreoperate || s.dl_mode == ModeOperate { OffStays(s, true); } else { IdleStaysOff(s); }
    case MdPreoperate3 => if s.dl_mode == ModeStartup { StartupStaysOff(s); } else { IdleStaysOff(s); }
    case MdOperate4 => if s.dl_mode == ModeStartup { OffStays(s, false); } else { IdleStaysOff(s); }
  }

  lemma ChConfOff(s: Dl)
    ensures CommandOff(ChConf(s, false))
  {
  }

  lemma StartupStaysOff(s: Dl)
    ensures CommandOff(SetActive(ChConf(s, false), false))
  {
    ChConfOff(s);
    OffStays(ChConf(s, false), false);
  }

  lemma IdleStaysOff(s: Dl)
    ensures CommandOff(GotoIdle(s))
  {
    ChConfOff(SetActive(s, false));
  }

  lemma CommandOffStep(s: Dl, i: Input)
    requires CommandOff(s) && !(i.WakeUp? && i.ok)
    ensures CommandOff(Step(s, i))
  {
    match i
    case Master => OdSmStaysOff(Triggered(s, i));
    case Device(flag, rx) => OdSmStaysOff(Triggered(s, i));
    case Control(code) => CmdSmStaysOff(s.(cmd := s.cmd.(control_code := code)));
    case Devicemode(m) =>
      CmdSmStaysOff(s.(cmd := s.cmd.(master_command := DevicemodeCommand(m), control_code := CcDevicemode)));
    case LinkLost(preoperate) =>
    case ModeEvent => ModeStaysOff(s);
    case _ =>
  }

  /** So it stays off over every run without a wake-up, mode changes included, and
      no activation in that run opens an exchange. */
  lemma {:induction false} CommandOffForever(s: Dl, inputs: seq<Input>)
    requires CommandOff(s) && forall k :: 0 <= k < |inputs| ==> !(inputs[k].WakeUp? && inputs[k].ok)
    ensures var t := Run(s, inputs);
            CommandOff(t) && (Activates(t) ==> !MuxInv(Session(Step(t, ModeEvent), false, [])))
  {
    if inputs != [] {
      CommandOffForever(s, inputs[..|inputs| - 1]);
      CommandOffStep(Run(s, inputs[..|inputs| - 1]), inputs[|inputs| - 1]);
    }
    if Activates(Run(s, inputs)) { ActivationOpensSession(Run(s, inputs)); }
  }

  lemma SilentStep(s: Dl, i: Input)
    requires CommandOff(s) && Blocked(s) && s.mode != MdStartup2 && Steady(i)
    ensures Step(s, i).out.wire == s.out.wire
  {
    match i
    case Control(code) => CmdSmStaysOff(s.(cmd := s.cmd.(control_code := code)));
    case Devicemode(m) =>
      CmdSmStaysOff(s.(cmd := s.cmd.(master_command := DevicemodeCommand(m), control_code := CcDevicemode)));
    case Master =>
    case Device(flag, rx) =>
    case LinkLost(preoperate) =>
    case IsduRequest(q) =>
    case Param(write, address, value, ready) =>
    case _ =>
  }

  /** Then the first control code, the OPERATE command included, takes the exchange
      away for good: COMMAND_2 stays blocked and no message is prepared, over every
      run without a wake-up or a mode event. */
  lemma {:induction false} NextCommandBlocksForever(s: Dl, i: Input, inputs: seq<Input>)
    requires CommandOff(s) && s.od.active && (s.od.state == OdIsdu1 || s.od.state == OdEvent3)
    requires s.mode != MdStartup2 && Commands(i)
    requires forall k :: 0 <= k < |inputs| ==> Steady(inputs[k])
    ensures var t := Step(Step(s, i), Master);
            && BlockedThroughout(t, inputs)
            && Run(t, inputs).out.wire == s.out.wire
            && CommandOff(Run(t, inputs)) && Run(t, inputs).mode == s.mode
  {
    var t := Step(Step(s, i), Master);
    CommandOffStep(s, i);
    CommandOffStep(Step(s, i), Master);
    CommandTaken(s, i);
    NotFreedWhenOff(t.cmd.state, inputs);
    BlockedUntilFreed(t, inputs);
    if inputs != [] {
      var init := inputs[..|inputs| - 1];
      NextCommandBlocksForever(s, i, init);
      CommandOffStep(Run(t, init), inputs[|inputs| - 1]);
      SilentStep(Run(t, init), inputs[|inputs| - 1]);
    }
  }

  lemma CommandTaken(s: Dl, i: Input)
    requires CommandOff(s) && s.od.active && (s.od.state == OdIsdu1 || s.od.state == OdEvent3)
    requires s.mode != MdStartup2 && Commands(i)
    ensures var t := Step(Step(s, i), Master);
            Blocked(t) && t.mode == s.mode && t.out.wire == s.out.wire
  {
    var u := Step(s, i);
    assert CommandOff(u) && u.od == s.od && u.cmd.control_code != CcNone && u.out.wire == s.out.wire && u.mode == s.mode;
    CmdSmStaysOff(Triggered(u, Master));
  }

  // ---------- a command lost with the link ----------

  predicate Reported(master_command: byte) {
    || master_command == MASTERCMD_DEVICE_OPERATE || master_command == MASTERCMD_DEVICE_PREOP
    || master_command == MASTERCMD_FALLBACK
  }

  /** What an activation in COMMAND_2 tells system management: that the command of
      before was carried out, exactly if a trigger and the command were left over. */
  function LeftOverAnswer(s: Dl): seq<Primitive> {
    if s.od.trigger != TrigNone && s.cmd.control_code == CcNone && Reported(s.cmd.master_command)
    then [WriteDevicemodeCnf(s.cmd.master_command, NoError)] else []
  }

  lemma IsduRestedSaysNothing(s: Dl)
    requires s.od.trigger == TrigNone
    ensures IsduSm(s).out.log == s.out.log && IsduSm(s).od == s.od
  {
    IsduSmKeepsMux(s);
    match s.isdu.state
    case IhRequest2 => EnteringSaysNothing(s);
    case IhWait3 => EnteringSaysNothing(s); EnteringSaysNothing(TimerReset(s));
    case IhResponse5 => EnteringSaysNothing(s);
    case _ =>
  }

  lemma EnteringSaysNothing(s: Dl)
    ensures EnterIsduError4(s).out.log == s.out.log
  {
  }

  lemma EvRestedSaysNothing(s: Dl)
    requires s.od.trigger == TrigNone
    ensures EvSm(s).out.log == s.out.log
  {
  }

  lemma ActivationAnswersCommand(s: Dl)
    requires Activates(s) && s.od.state == OdCommand2
    ensures Step(s, ModeEvent).out.log == s.out.log + LeftOverAnswer(s)
  {
    var a := OhConf(s, true);
    assert a.od.trigger == TrigNone && a.out.log == s.out.log + LeftOverAnswer(s);
    var b := a.(isdu := a.isdu.(active := true));
    IsduRestedSaysNothing(b);
    var c := IsduSm(b);
    EvRestedSaysNothing(c.(ev := c.ev.(active := true)));
  }

  /** A master command was sent and is not answered yet. */
  predicate CommandOut(s: Dl) {
    && s.od.state == OdCommand2 && s.od.trigger == TrigMaster
    && s.cmd.control_code == CcNone && Reported(s.cmd.master_command)
  }

  /** The link is lost in OPERATE: the command stays where it is. */
  lemma LossKeepsCommand(s: Dl)
    requires CommandOut(s) && s.mode == MdOperate4 && s.dl_mode == ModeOperate
    ensures var t := Step(Step(s, LinkLost(false)), ModeEvent);
            && CommandOut(t) && t.cmd.master_command == s.cmd.master_command
            && t.mode == MdIdle0 && t.cmd.state == ChInactive0
  {
    var p := Step(s, LinkLost(false));
    var a := OhConf(p, false);
    IsduSmKeepsMux(a.(isdu := a.isdu.(active := false)));
    var c := IhConf(a, false);
    EvSmKeeps(c.(ev := c.ev.(active := false)));
  }

  /** A new start up to the activation; `len` is the message layout. */
  function Restarted(s: Dl, len: OdLen): Dl {
    var a := Step(Step(s, SetMode(ModeStartup, len)), ModeEvent);
    Step(Step(a, WakeUp(true)), SetMode(ModePreoperate, len))
  }

  lemma RestartKeepsCommand(s: Dl, len: OdLen)
    requires CommandOut(s) && s.mode == MdIdle0 && s.cmd.state == ChInactive0
    ensures var t := Restarted(s, len);
            CommandOut(t) && Activates(t) && t.cmd.master_command == s.cmd.master_command
            && t.cmd.active && t.cmd.state == ChIdle1 && t.out.log == s.out.log
  {
  }

  /** So a master command that goes down with the link in OPERATE is confirmed with
      NO_ERROR by the next start-up, and the exchange opens whatever the event flag. */
  lemma LostCommandConfirmed(s: Dl, len: OdLen)
    requires CommandOut(s) && s.mode == MdOperate4 && s.dl_mode == ModeOperate
    ensures var t := Restarted(Step(Step(s, LinkLost(false)), ModeEvent), len);
            && Activates(t) && MuxInv(Session(Step(t, ModeEvent), false, []))
            && Step(t, ModeEvent).out.log == t.out.log + [WriteDevicemodeCnf(s.cmd.master_command, NoError)]
  {
    LossKeepsCommand(s);
    var u := Step(Step(s, LinkLost(false)), ModeEvent);
    RestartKeepsCommand(u, len);
    ActivationOpensSession(Restarted(u, len));
    ActivationAnswersCommand(Restarted(u, len));
  }
}
