/**
 * No step looks back at what was sent, confirmed or reported before: put any
 * history in front, and every run does the same and ends with the same history
 * in front. What is proved of runs from an empty history so holds from any
 * moment of any run, counted from that moment.
 */
module DlHistory {
  import opened Bytes
  import opened IsduCodec
  import opened DlModel
  import opened DlMultiplexer

  /** The history of o behind that of h; the message on the wire is o's. */
  function Appended(h: Out, o: Out): Out {
    Out(o.wire, h.segments + o.segments, h.polls + o.polls, h.page + o.page, h.diag + o.diag,
        h.cnfs + o.cnfs, h.log + o.log)
  }

  function After(h: Out, s: Dl): Dl {
    s.(out := Appended(h, s.out))
  }

  function NoHistory(wire: Frame): Out {
    Out(wire, [], [], [], [], [], [])
  }

  /** The machine with its history forgotten. */
  function Forgotten(s: Dl): Dl {
    s.(out := NoHistory(s.out.wire))
  }

  lemma AfterForgotten(s: Dl)
    ensures After(s.out, Forgotten(s)) == s
  {
    assert Appended(s.out, NoHistory(s.out.wire)) == s.out;
  }

  // ---------- what is told and sent ----------

  lemma SayAfter(h: Out, s: Dl, p: Primitive)
    ensures Say(After(h, s), p) == After(h, Say(s, p))
  {
    assert (h.log + s.out.log) + [p] == h.log + (s.out.log + [p]);
  }

  lemma ConfirmAfter(h: Out, s: Dl, c: IsduCnf)
    ensures Confirm(After(h, s), c) == After(h, Confirm(s, c))
  {
    assert (h.cnfs + s.out.cnfs) + [c] == h.cnfs + (s.out.cnfs + [c]);
  }

  lemma SentAfter(h: Out, o: Out, f: Frame)
    ensures Sent(Appended(h, o), f) == Appended(h, Sent(o, f))
  {
    match f.channel
    case ChIsdu =>
      if f.write {
        assert (h.segments + o.segments) + [f] == h.segments + (o.segments + [f]);
      } else {
        assert (h.polls + o.polls) + [f] == h.polls + (o.polls + [f]);
      }
    case ChPage => assert (h.page + o.page) + [f] == h.page + (o.page + [f]);
    case ChDiagnosis => assert (h.diag + o.diag) + [f] == h.diag + (o.diag + [f]);
    case ChProcess =>
  }

  lemma OdReqAfter(h: Out, s: Dl, write: bool, channel: Channel, addr: nat, data: seq<byte>)
    ensures OdReq(After(h, s), write, channel, addr, data) == After(h, OdReq(s, write, channel, addr, data))
  {
    SentAfter(h, s.out, Frame(write, channel, addr, if write then Pad(data, s.od_len) else []));
  }

  // ---------- ISDU handler ----------

  lemma GiveUpAfter(h: Out, s: Dl, c: IsduCnf)
    ensures GiveUp(After(h, s), c) == After(h, GiveUp(s, c))
  {
    var t := s.(isdu := s.isdu.(total_isdu_seg := 0));
    OdReqAfter(h, t, false, ChIsdu, FLOWCTRL_ABORT, []);
    ConfirmAfter(h, OdReq(t, false, ChIsdu, FLOWCTRL_ABORT, []), c);
  }

  lemma IsduError4After(h: Out, s: Dl)
    ensures IsduError4(After(h, s)) == After(h, IsduError4(s))
  {
    GiveUpAfter(h, s, GivenUp(s));
    assert GivenUp(After(h, s)) == GivenUp(s);
  }

  lemma EnterIsduError4After(h: Out, s: Dl)
    ensures EnterIsduError4(After(h, s)) == After(h, EnterIsduError4(s))
  {
    ConfirmAfter(h, s, IsduCnf([], 0, NoComm));
    IsduError4After(h, s);
  }

  lemma CollectedAfter(h: Out, s: Dl)
    ensures Collected(After(h, s)) == After(h, Collected(s))
  {
    assert Completed(After(h, s)) == Completed(s);
    ConfirmAfter(h, s, Completed(s));
  }

  lemma IdleMasterAfter(h: Out, s: Dl)
    ensures IdleMaster(After(h, s)) == After(h, IdleMaster(s))
  {
    match s.rwcmd
    case RwIsduTransport => OdReqAfter(h, s, true, ChIsdu, FLOWCTRL_START, Window(s.isdu.data, 0, s.od_len));
    case RwReadParam => OdReqAfter(h, s, false, ChPage, s.od.data_addr, []);
    case RwWriteParam => OdReqAfter(h, s, true, ChPage, s.od.data_addr, [s.od.data_value]);
    case _ => OdReqAfter(h, s, false, ChIsdu, FLOWCTRL_IDLE_1, []);
  }

  lemma IdleDeviceAfter(h: Out, s: Dl)
    ensures IdleDevice(After(h, s)) == After(h, IdleDevice(s))
  {
    SayAfter(h, s, ReadParamCnf(s.rx[0], NoError));
    SayAfter(h, s, WriteParamCnf(NoError));
  }

  lemma IsduIdle1After(h: Out, s: Dl)
    ensures IsduIdle1(After(h, s)) == After(h, IsduIdle1(s))
  {
    ConfirmAfter(h, s, IsduCnf([], 0, NoComm));
    IdleMasterAfter(h, s);
    IdleDeviceAfter(h, s);
  }

  lemma IsduRequest2After(h: Out, s: Dl)
    ensures IsduRequest2(After(h, s)) == After(h, IsduRequest2(s))
  {
    EnterIsduError4After(h, s);
    var cur := s.isdu.current_isdu_seg;
    OdReqAfter(h, s, true, ChIsdu, cur % 16, Window(s.isdu.data, Times(cur, s.od_len), s.od_len));
  }

  lemma Wait3AnswerAfter(h: Out, t: Dl)
    ensures Wait3Answer(After(h, t)) == After(h, Wait3Answer(t))
  {
    EnterIsduError4After(h, TimerReset(t));
    CollectedAfter(h, FirstRead(t));
  }

  lemma IsduWait3After(h: Out, s: Dl)
    ensures IsduWait3(After(h, s)) == After(h, IsduWait3(s))
  {
    EnterIsduError4After(h, TimerReset(s));
    EnterIsduError4After(h, s);
    OdReqAfter(h, s, false, ChIsdu, FLOWCTRL_START, Window(s.isdu.data, 0, s.od_len));
    Wait3AnswerAfter(h, Receive(s));
  }

  lemma IsduResponse5After(h: Out, s: Dl)
    ensures IsduResponse5(After(h, s)) == After(h, IsduResponse5(s))
  {
    EnterIsduError4After(h, s);
    var cur := s.isdu.current_isdu_seg;
    OdReqAfter(h, s, false, ChIsdu, cur % 16, Window(s.isdu.data, Times(cur, s.od_len), s.od_len));
    CollectedAfter(h, CountSegment(Receive(ReadLength(s))));
  }

  lemma IsduSmAfter(h: Out, s: Dl)
    ensures IsduSm(After(h, s)) == After(h, IsduSm(s))
  {
    match s.isdu.state
    case IhInactive0 =>
    case IhIdle1 => IsduIdle1After(h, s);
    case IhRequest2 => IsduRequest2After(h, s);
    case IhWait3 => IsduWait3After(h, s);
    case IhError4 => IsduError4After(h, s);
    case IhResponse5 => IsduResponse5After(h, s);
  }

  // ---------- Command and Event handlers ----------

  lemma CmdSmAfter(h: Out, s: Dl)
    ensures CmdSm(After(h, s)) == After(h, CmdSm(s))
  {
    OdReqAfter(h, s, true, ChPage, 0, [s.cmd.master_command]);
  }

  lemma WriteMasterCommandAfter(h: Out, s: Dl, status: Status)
    ensures WriteMasterCommand(After(h, s), status) == After(h, WriteMasterCommand(s, status))
  {
    SayAfter(h, s.(cmd := s.cmd.(master_command := MASTERCMD_NONE)),
      WriteDevicemodeCnf(s.cmd.master_command, status));
  }

  lemma SignalEvent3After(h: Out, s: Dl)
    ensures SignalEvent3(After(h, s)) == After(h, SignalEvent3(s))
  {
    var n := s.ev.num_entries;
    var k := if n < 0 then 0 else if n > MAX_EVENTS then MAX_EVENTS else n;
    var inds := if Details(s.ev.status_code) then Type2Inds(s.ev.events, k, n) else Type1Inds(s.ev.status_code, 5, n);
    assert (h.log + s.out.log) + inds == h.log + (s.out.log + inds);
  }

  lemma EvStatusCodeAfter(h: Out, s: Dl)
    ensures EvStatusCode(After(h, s)) == After(h, EvStatusCode(s))
  {
    var e := s.ev.(status_code := s.rx[0]);
    SignalEvent3After(h, s.(ev := e.(num_entries := e.num_entries + SlotCount(e.status_code, 5))));
  }

  lemma EvMemoryByteAfter(h: Out, s: Dl)
    ensures EvMemoryByte(After(h, s)) == After(h, EvMemoryByte(s))
  {
    var t := s.(ev := StoreOctet(s.ev, s.ev.ev_addr - s.ev.ev_cnt * 3, s.rx[0]));
    SignalEvent3After(h, t.(ev := EvAdvance(t.ev).(ev_current := 0)));
  }

  lemma EvIdle1After(h: Out, s: Dl)
    ensures EvIdle1(After(h, s)) == After(h, EvIdle1(s))
  {
    OdReqAfter(h, s, true, ChDiagnosis, 0, [EVENT_CONFIRM_OCTET]);
    OdReqAfter(h, s, false, ChDiagnosis, 0, []);
  }

  lemma EvReadEvent2After(h: Out, s: Dl)
    ensures EvReadEvent2(After(h, s)) == After(h, EvReadEvent2(s))
  {
    OdReqAfter(h, s, false, ChDiagnosis, s.ev.ev_addr, []);
    EvStatusCodeAfter(h, s);
    EvMemoryByteAfter(h, s);
  }

  lemma EvSmAfter(h: Out, s: Dl)
    ensures EvSm(After(h, s)) == After(h, EvSm(s))
  {
    match s.ev.state
    case EhInactive0 =>
    case EhIdle1 => EvIdle1After(h, s);
    case EhReadEvent2 => EvReadEvent2After(h, s);
    case EhSignalEvent3 =>
  }

  // ---------- OD handler, services and modes ----------

  lemma OdIsdu1After(h: Out, s: Dl)
    ensures OdHandlerIsdu1(After(h, s)) == After(h, OdHandlerIsdu1(s))
  {
    if !s.od.active {
    } else if CommandDue(s) {
      CmdSmAfter(h, s);
    } else {
      IsduSmAfter(h, s);
    }
  }

  lemma OdEvent3After(h: Out, s: Dl)
    ensures OdHandlerEvent3(After(h, s)) == After(h, OdHandlerEvent3(s))
  {
    if !s.od.active {
    } else if CommandDue(s) {
      CmdSmAfter(h, s);
    } else {
      EvSmAfter(h, s);
    }
  }

  lemma OdSmAfter(h: Out, s: Dl)
    ensures OdSm(After(h, s)) == After(h, OdSm(s))
  {
    match s.od.state
    case OdInactive0 =>
    case OdIsdu1 => OdIsdu1After(h, s);
    case OdCommand2 => WriteMasterCommandAfter(h, Rest(s), NoError);
    case OdEvent3 => OdEvent3After(h, s);
  }

  lemma SetActiveAfter(h: Out, s: Dl, active: bool)
    ensures SetActive(After(h, s), active) == After(h, SetActive(s, active))
  {
    OdSmAfter(h, s.(od := s.od.(active := active)));
    var t := OhConf(s, active);
    IsduSmAfter(h, t.(isdu := t.isdu.(active := active)));
    var u := IhConf(t, active);
    EvSmAfter(h, u.(ev := u.ev.(active := active)));
  }

  lemma ChConfAfter(h: Out, s: Dl, active: bool)
    ensures ChConf(After(h, s), active) == After(h, ChConf(s, active))
  {
    CmdSmAfter(h, s.(cmd := s.cmd.(active := active)));
  }

  lemma GotoIdleAfter(h: Out, s: Dl)
    ensures GotoIdle(After(h, s)) == After(h, GotoIdle(s))
  {
    SetActiveAfter(h, s, false);
    ChConfAfter(h, SetActive(s, false), false);
  }

  lemma StartupAfter(h: Out, s: Dl)
    ensures SetActive(ChConf(After(h, s), false), false) == After(h, SetActive(ChConf(s, false), false))
  {
    ChConfAfter(h, s, false);
    SetActiveAfter(h, ChConf(s, false), false);
  }

  lemma ModeSmAfter(h: Out, s: Dl)
    ensures ModeSm(After(h, s)) == After(h, ModeSm(s))
  {
    match s.mode
    case MdIdle0 =>
    case MdEstCom1 =>
    case MdStartup2 => if s.dl_mode == ModePreoperate || s.dl_mode == ModeOperate { SetActiveAfter(h, s, true); } else { GotoIdleAfter(h, s); }
    case MdPreoperate3 => if s.dl_mode == ModeStartup { StartupAfter(h, s); } else { GotoIdleAfter(h, s); }
    case MdOperate4 => if s.dl_mode == ModeStartup { SetActiveAfter(h, s, false); } else { GotoIdleAfter(h, s); }
  }

  lemma TransportReqAfter(h: Out, s: Dl, q: Request)
    ensures TransportReq(After(h, s), q) == After(h, TransportReq(s, q))
  {
    ConfirmAfter(h, s, IsduCnf([], 0, NoComm));
    ConfirmAfter(h, s, IsduCnf([], 0, ValueOutOfRange));
    ConfirmAfter(h, s, IsduCnf([], 0, StateConflict));
  }

  lemma ParamReqAfter(h: Out, s: Dl, write: bool, address: nat, value: byte, ready: bool)
    ensures ParamReq(After(h, s), write, address, value, ready) == After(h, ParamReq(s, write, address, value, ready))
  {
    var t := s.(rwcmd := if write then RwWriteParam else RwReadParam);
    var status := if ready then ValueOutOfRange else StateConflict;
    SayAfter(h, t, if write then WriteParamCnf(status) else ReadParamCnf(0, status));
  }

  lemma DevicemodeReqAfter(h: Out, s: Dl, m: DlMode)
    ensures DevicemodeReq(After(h, s), m) == After(h, DevicemodeReq(s, m))
  {
    SayAfter(h, s, WriteDevicemodeCnf(MASTERCMD_NONE, StateConflict));
    var t := s.(cmd := s.cmd.(master_command := DevicemodeCommand(m), control_code := CcDevicemode));
    CmdSmAfter(h, t);
    SayAfter(h, CmdSm(t), WriteDevicemodeCnf(MASTERCMD_FALLBACK, NoError));
  }

  lemma ComLostAfter(h: Out, s: Dl, preoperate: bool)
    ensures ComLost(After(h, s), preoperate) == After(h, ComLost(s, preoperate))
  {
    WriteMasterCommandAfter(h, s, NoComm);
    SayAfter(h, WriteMasterCommand(s, NoComm), ReadParamCnf(0, NoComm));
    SayAfter(h, WriteMasterCommand(s, NoComm), WriteParamCnf(NoComm));
  }

  // ---------- runs ----------

  lemma StepIgnoresHistory(h: Out, s: Dl, i: Input)
    ensures Step(After(h, s), i) == After(h, Step(s, i))
  {
    match i
    case Master => OdSmAfter(h, Triggered(s, i));
    case Device(flag, rx) => OdSmAfter(h, Triggered(s, i));
    case IsduRequest(q) => TransportReqAfter(h, s, q);
    case Param(write, address, value, ready) => ParamReqAfter(h, s, write, address, value, ready);
    case Control(code) => CmdSmAfter(h, s.(cmd := s.cmd.(control_code := code)));
    case Devicemode(m) => DevicemodeReqAfter(h, s, m);
    case LinkLost(preoperate) => ComLostAfter(h, s, preoperate);
    case ModeEvent => ModeSmAfter(h, s);
    case WakeUp(ok) => ChConfAfter(h, s.(mode := MdStartup2), true);
    case _ =>
  }

  lemma {:induction false} RunIgnoresHistory(h: Out, s: Dl, inputs: seq<Input>)
    ensures Run(After(h, s), inputs) == After(h, Run(s, inputs))
  {
    if inputs != [] {
      var init := inputs[..|inputs| - 1];
      RunIgnoresHistory(h, s, init);
      StepIgnoresHistory(h, Run(s, init), inputs[|inputs| - 1]);
    }
  }

  /** So a run adds to its history exactly what it does from an empty one. */
  lemma RunAddsToHistory(s: Dl, inputs: seq<Input>)
    ensures Run(s, inputs) == After(s.out, Run(Forgotten(s), inputs))
  {
    AfterForgotten(s);
    RunIgnoresHistory(s.out, Forgotten(s), inputs);
  }

  function ForgottenSession(x: Session): Session {
    x.(dl := Forgotten(x.dl))
  }

  /** The same of a session: it hands the ISDU handler the same triggers, and its
      environment is as free. */
  lemma {:induction false} SessionAddsToHistory(x: Session, inputs: seq<Input>)
    ensures var y, z := SessionRun(x, inputs), SessionRun(ForgottenSession(x), inputs);
            y == z.(dl := After(x.dl.out, z.dl))
    ensures LinkUpRun(x, inputs) <==> LinkUpRun(ForgottenSession(x), inputs)
  {
    AfterForgotten(x.dl);
    if inputs != [] {
      var init, i := inputs[..|inputs| - 1], inputs[|inputs| - 1];
      SessionAddsToHistory(x, init);
      var z := SessionRun(ForgottenSession(x), init);
      StepIgnoresHistory(x.dl.out, z.dl, i);
    }
  }
}
