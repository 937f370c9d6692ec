/**
 * Master commands over whole runs: every request for one is sent once and in order,
 * as the octet that stands for it, and what its answer is taken for.
 */
module DlCommandRuns {
  import opened Bytes
  import opened IsduCodec
  import opened DlModel
  import opened DlAccounting
  import opened DlMultiplexer
  import SM = SystemManagement
  import V = SystemManagementVerdicts

  /** The octet a request has sent: 0x98 and 0x99 switch the outputs, the others are
      device modes. Output off and OPERATE are the same command. */
  function Codes(i: Input): seq<byte> {
    match i
    case Control(code) =>
      if code == CcPdOutValid then [0x98] else if code == CcPdOutInvalid then [0x99] else []
    case Devicemode(m) =>
      [match m
       case ModeInactive => 0x5A
       case ModeStartup => 0x97
       case ModePreoperate => 0x9A
       case ModeOperate => 0x99]
    case _ => []
  }

  function AllCodes(inputs: seq<Input>): seq<byte> {
    if inputs == [] then [] else AllCodes(inputs[..|inputs| - 1]) + Codes(inputs[|inputs| - 1])
  }

  /** One message of the page channel each, to address 0. */
  function Commands(codes: seq<byte>, od: OdLen): (r: seq<Frame>)
    ensures |r| == |codes|
  {
    seq(|codes|, k requires 0 <= k < |codes| => Frame(true, ChPage, 0, [codes[k]] + Zeros(od - 1)))
  }

  /** Requests for commands and transfers, exchanges, expiries: no parameter access,
      which has the page channel for itself. */
  predicate Commanding(x: Session, i: Input) {
    LinkUp(x, i) && !i.Param?
  }

  predicate CommandingRun(x: Session, inputs: seq<Input>) {
    inputs == []
    || (CommandingRun(x, inputs[..|inputs| - 1])
        && Commanding(SessionRun(x, inputs[..|inputs| - 1]), inputs[|inputs| - 1]))
  }

  predicate NoAccess(s: Dl) {
    s.rwcmd != RwReadParam && s.rwcmd != RwWriteParam
  }

  /** The last command is still to be sent. */
  predicate Unsent(s: Dl) {
    s.cmd.control_code != CcNone
  }

  /** These codes were requested since x. */
  predicate Sent(x: Session, codes: seq<byte>, y: Session) {
    && MuxInv(y) && NoAccess(y.dl) && y.dl.od_len == x.dl.od_len
    && (Unsent(y.dl) ==> codes != [] && y.dl.cmd.master_command == codes[|codes| - 1])
    && y.dl.out.page
       == x.dl.out.page + Commands(if Unsent(y.dl) then codes[..|codes| - 1] else codes, x.dl.od_len)
  }

  lemma IsduSendsNoPage(s: Dl)
    requires NoAccess(s)
    ensures IsduSm(s).out.page == s.out.page && NoAccess(IsduSm(s)) && IsduSm(s).od_len == s.od_len
  {
    match s.isdu.state
    case IhIdle1 => IdleSendsNoPage(s);
    case IhWait3 => Wait3SendsNoPage(s);
    case IhResponse5 => Response5SendsNoPage(s);
    case _ =>
  }

  lemma IdleSendsNoPage(s: Dl)
    requires NoAccess(s)
    ensures var t := IsduIdle1(s); t.out.page == s.out.page && NoAccess(t) && t.od_len == s.od_len
  {
  }

  lemma EnteringSendsNoPage(s: Dl)
    requires NoAccess(s)
    ensures var t := EnterIsduError4(s); t.out.page == s.out.page && NoAccess(t) && t.od_len == s.od_len
  {
  }

  lemma Wait3SendsNoPage(s: Dl)
    requires NoAccess(s)
    ensures var t := IsduWait3(s); t.out.page == s.out.page && NoAccess(t) && t.od_len == s.od_len
  {
    EnteringSendsNoPage(s);
    EnteringSendsNoPage(TimerReset(s));
    EnteringSendsNoPage(TimerReset(Receive(s)));
    assert Receive(s).out == s.out && Receive(s).rwcmd == s.rwcmd;
  }

  lemma Response5SendsNoPage(s: Dl)
    requires NoAccess(s)
    ensures var t := IsduResponse5(s); t.out.page == s.out.page && NoAccess(t) && t.od_len == s.od_len
  {
    EnteringSendsNoPage(s);
  }

  lemma EvSendsNoPage(s: Dl)
    ensures EvSm(s).out.page == s.out.page && EvSm(s).rwcmd == s.rwcmd && EvSm(s).od_len == s.od_len
  {
    EvSmKeeps(s);
    match s.ev.state
    case EhReadEvent2 => ReadingSendsNoPage(s);
    case _ =>
  }

  lemma ReadingSendsNoPage(s: Dl)
    ensures EvReadEvent2(s).out.page == s.out.page
  {
  }

  lemma CommandSent(s: Dl)
    requires s.cmd.state == ChMasterCommand2
    ensures var t := CmdSm(s);
            && t.out.page == s.out.page + [Frame(true, ChPage, 0, [s.cmd.master_command] + Zeros(s.od_len - 1))]
            && t.cmd.control_code == CcNone && t.rwcmd == s.rwcmd && t.od_len == s.od_len
  {
    assert Pad([s.cmd.master_command], s.od_len) == [s.cmd.master_command] + Zeros(s.od_len - 1);
  }

  lemma LastCommand(codes: seq<byte>, od: OdLen)
    requires codes != []
    ensures Commands(codes, od)
      == Commands(codes[..|codes| - 1], od) + [Frame(true, ChPage, 0, [codes[|codes| - 1]] + Zeros(od - 1))]
  {
  }

  lemma MasterSent(x: Session, codes: seq<byte>, y: Session)
    requires Sent(x, codes, y) && !y.awaiting
    ensures Sent(x, codes, SessionStep(y, Master))
  {
    var s := Triggered(y.dl, Master);
    MasterStep(y);
    if Unsent(y.dl) {
      CommandSent(s);
      LastCommand(codes, x.dl.od_len);
    } else if s.od.state == OdEvent3 {
      EvSendsNoPage(s);
      EvSmKeeps(s);
    } else {
      IsduSendsNoPage(s);
      IsduSmKeepsMux(s);
    }
  }

  lemma DeviceSent(x: Session, codes: seq<byte>, y: Session, i: Input)
    requires Sent(x, codes, y) && y.awaiting && i.Device?
    ensures Sent(x, codes, SessionStep(y, i))
  {
    var s := Triggered(y.dl, i);
    DeviceStep(y, i.flag, i.rx);
    if s.od.state == OdEvent3 {
      EvSendsNoPage(s);
      EvSmKeeps(s);
    } else if s.od.state == OdIsdu1 {
      IsduSendsNoPage(s);
      IsduSmKeepsMux(s);
    } else {
      WriteMasterCommandKeeps(Rest(s), NoError);
    }
  }

  lemma RequestSent(x: Session, codes: seq<byte>, y: Session, i: Input)
    requires Sent(x, codes, y) && Commanding(y, i) && (i.Control? || i.Devicemode?)
    ensures Sent(x, codes + Codes(i), SessionStep(y, i))
  {
    ServiceStep(y, i);
    CommandKeeps(y.dl, i);
    assert (codes + Codes(i))[..|codes + Codes(i)| - 1] == codes;
  }

  lemma OtherSent(x: Session, codes: seq<byte>, y: Session, i: Input)
    requires Sent(x, codes, y) && Commanding(y, i) && (i.IsduRequest? || i.Abort? || i.TimerExpires?)
    ensures Sent(x, codes, SessionStep(y, i))
  {
    ServiceStep(y, i);
  }

  /** Over every run: each request is sent once and in order, the last one perhaps not
      yet, and nothing else goes out on the page channel. */
  lemma {:induction false} EveryCommandIsSent(x: Session, inputs: seq<Input>)
    requires MuxInv(x) && CommandIdle(x.dl) && NoAccess(x.dl) && CommandingRun(x, inputs)
    ensures Sent(x, AllCodes(inputs), SessionRun(x, inputs))
  {
    if inputs == [] {
      assert Commands([], x.dl.od_len) == [];
    } else {
      var init, i := inputs[..|inputs| - 1], inputs[|inputs| - 1];
      EveryCommandIsSent(x, init);
      SentOn(x, AllCodes(init), SessionRun(x, init), i);
    }
  }

  lemma SentOn(x: Session, codes: seq<byte>, y: Session, i: Input)
    requires Sent(x, codes, y) && Commanding(y, i)
    ensures Sent(x, codes + Codes(i), SessionStep(y, i))
  {
    assert codes + [] == codes;
    match i
    case Master => MasterSent(x, codes, y);
    case Device(_, _) => DeviceSent(x, codes, y, i);
    case Control(_) => RequestSent(x, codes, y, i);
    case Devicemode(_) => RequestSent(x, codes, y, i);
    case _ => OtherSent(x, codes, y, i);
  }

  // ---------- what the answer is taken for ----------

  /** From a request to the answer of its message, on a free exchange. */
  function Exchanged(x: Session, i: Input, flag: bool, rx: RxBuffer): Session {
    SessionStep(SessionStep(SessionStep(x, i), Master), Device(flag, rx))
  }

  /** FALLBACK is told at once in PREOPERATE. */
  function ToldAtOnce(x: Session, i: Input): seq<Primitive> {
    if i == Devicemode(ModeInactive) && x.dl.mode == MdPreoperate3 then [WriteDevicemodeCnf(0x5A, NoError)] else []
  }

  /** The answers that are told: three of the five codes. */
  function ToldFor(c: byte): seq<Primitive> {
    if c == 0x99 || c == 0x9A || c == 0x5A then [WriteDevicemodeCnf(c, NoError)] else []
  }

  lemma CommandTaken(x: Session, i: Input)
    requires MuxInv(x) && CommandIdle(x.dl) && Commanding(x, i) && Codes(i) != []
    ensures var y := SessionStep(x, i);
            && MuxInv(y) && y.awaiting == x.awaiting && y.dl.cmd.master_command == Codes(i)[0] && Unsent(y.dl)
            && y.dl.out.log == x.dl.out.log + ToldAtOnce(x, i)
  {
    ServiceStep(x, i);
  }

  lemma CommandGoesOut(y: Session)
    requires MuxInv(y) && !y.awaiting && Unsent(y.dl)
    ensures var z := SessionStep(y, Master);
            && MuxInv(z) && z.awaiting && z.dl.od.state == OdCommand2 && !Unsent(z.dl)
            && z.dl.cmd.master_command == y.dl.cmd.master_command && z.dl.out.log == y.dl.out.log
  {
    MasterStep(y);
  }

  lemma CommandComesBack(z: Session, flag: bool, rx: RxBuffer)
    requires MuxInv(z) && z.awaiting && z.dl.od.state == OdCommand2
    ensures var w := SessionStep(z, Device(flag, rx));
            && MuxInv(w) && CommandIdle(w.dl) && w.dl.cmd.master_command == 0
            && w.dl.out.log == z.dl.out.log + ToldFor(z.dl.cmd.master_command)
  {
    DeviceStep(z, flag, rx);
  }

  /** The answer to a command tells system management that a device mode was taken on
      exactly for three of the five codes; the FALLBACK of PREOPERATE was told before. */
  lemma CommandIsAnswered(x: Session, i: Input, flag: bool, rx: RxBuffer)
    requires MuxInv(x) && !x.awaiting && CommandIdle(x.dl) && Commanding(x, i) && Codes(i) != []
    ensures var y := Exchanged(x, i, flag, rx);
            && y.dl.out.log == x.dl.out.log + ToldAtOnce(x, i) + ToldFor(Codes(i)[0])
            && y.dl.cmd.master_command == 0 && MuxInv(y) && CommandIdle(y.dl)
  {
    CommandTaken(x, i);
    CommandGoesOut(SessionStep(x, i));
    CommandComesBack(SessionStep(SessionStep(x, i), Master), flag, rx);
  }

  /** So switching the outputs off is told as OPERATE having been taken on, which
      system management in OPERATE takes for a lost link: the port is given up. */
  lemma OutputsOffEndOperate(x: Session, flag: bool, rx: RxBuffer, s: SM.Sm)
    requires MuxInv(x) && !x.awaiting && CommandIdle(x.dl) && s.state == SM.SMOperate
    ensures Exchanged(x, Control(CcPdOutInvalid), flag, rx).dl.out.log
            == x.dl.out.log + [WriteDevicemodeCnf(0x99, NoError)]
    ensures V.GivenUp(s, SM.SmStep(s, SM.DevmodeConfirmed(true)))
    ensures Exchanged(x, Control(CcPdOutValid), flag, rx).dl.out.log == x.dl.out.log
  {
    OutputsAnswered(x, flag, rx);
    V.ConfirmationEndsOperate(s);
  }

  lemma OutputsAnswered(x: Session, flag: bool, rx: RxBuffer)
    requires MuxInv(x) && !x.awaiting && CommandIdle(x.dl)
    ensures Exchanged(x, Control(CcPdOutInvalid), flag, rx).dl.out.log
            == x.dl.out.log + [WriteDevicemodeCnf(0x99, NoError)]
    ensures Exchanged(x, Control(CcPdOutValid), flag, rx).dl.out.log == x.dl.out.log
  {
    CommandIsAnswered(x, Control(CcPdOutInvalid), flag, rx);
    CommandIsAnswered(x, Control(CcPdOutValid), flag, rx);
  }
}
