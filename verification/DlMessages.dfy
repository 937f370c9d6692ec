/**
 * The message handler in PREOPERATE and OPERATE, where it asks the OD handler for
 * messages and hands it the answers. This module shows when the two alternate, as
 * the OD handler and all behind it count on, and when no message goes out any more.
 */
module DlMessages {
  import opened Bytes
  import opened IsduCodec
  import opened DlModel
  import opened DlAccounting
  import opened DlMultiplexer
  import S = DlStartup

  datatype MessageState =
    | MsInactive0 | MsStartup2
    | MsPreoperate6 | MsGetOd7 | MsResponse8 | MsAwReply9 | MsErrorHandling10
    | MsOperate12 | MsResponse15 | MsAwReply16

  /** The message handler with the handlers behind it. `out`: a message was sent and
      neither answered nor lost; `cycling`: the transceiver repeats the message in its
      buffer by itself, cycle after cycle. `given` are the triggers of the OD handler. */
  datatype Link = Link(
    x: Session, state: MessageState, cmd: S.MhCmd, retry: nat, timer: bool,
    cycling: bool, out: bool, given: seq<Trigger>)

  /** What the handler is run for: an answer with its event flag and octets, a line
      error, its timer, or a request of another layer. */
  datatype Signal = Answered(flag: bool, rx: RxBuffer) | Failed | Elapsed | Poked

  // ---------- the OD handler is called ----------

  function Give(l: Link, i: Input): Link
    requires i.Master? || i.Device?
  {
    l.(x := SessionStep(l.x, i), given := l.given + [if i.Master? then TrigMaster else TrigDevice])
  }

  /** By the trigger that stands in it. */
  function GiveAsSet(l: Link): Link {
    var s := l.x.dl;
    var t := s.od.trigger;
    l.(x := Session(OdSm(s), if t == TrigNone then l.x.awaiting else t == TrigMaster,
                    if IsduSees(s) then l.x.seen + [t] else l.x.seen),
       given := if t == TrigNone then l.given else l.given + [t])
  }

  function OnDl(l: Link, s: Dl): Link {
    l.(x := l.x.(dl := s))
  }

  function Prime(l: Link): Link {
    OnDl(l, l.x.dl.(od := l.x.dl.od.(trigger := TrigMaster)))
  }

  /** MHInfo_ind(COMLOST) alone, as on a change to INACTIVE. */
  function Drop(l: Link): Link {
    OnDl(l, l.x.dl.(com_lost := true)).(cycling := false, state := MsInactive0)
  }

  function GiveUpLink(l: Link, preoperate: bool): Link {
    OnDl(l, ComLost(l.x.dl, preoperate)).(retry := 0, timer := false, cycling := false, out := false, state := MsInactive0)
  }

  // ---------- PREOPERATE ----------

  predicate WorkWaits(s: Dl) {
    || s.rwcmd == RwReadParam || s.rwcmd == RwWriteParam || s.rwcmd == RwIsduTransport
    || s.cmd.master_command == MASTERCMD_DEVICE_OPERATE || s.ev.event_flag
  }

  function Startup2(l: Link): Link {
    if l.cmd == S.McPreoperate then l.(state := MsPreoperate6)  // T12
    else if l.cmd == S.McOperate then l.(timer := true, state := MsOperate12)  // T39
    else l
  }

  function Preoperate6(l: Link): Link {
    if l.cmd == S.McOperate then l.(timer := true, state := MsOperate12)  // T26
    else if l.cmd == S.McStartup then l.(state := MsStartup2)  // T37
    else if l.cmd == S.McInactive then Drop(l).(cycling := l.cycling, out := true)  // T36
    else if WorkWaits(l.x.dl) then Prime(l.(retry := 0, timer := true, state := MsGetOd7))  // T13..T17
    else l
  }

  function GetOd7(l: Link): Link {
    GiveAsSet(l).(retry := 0, out := true, state := MsResponse8)  // T18
  }

  /** The answer is taken: back to where messages come from. With the event flag up
      and nothing else to do the state stays. */
  function AnswerTaken(t: Link): Link {
    if t.x.dl.isdu.state == IhIdle1 then
      if t.cmd == S.McOperate then t.(timer := true, state := MsAwReply16)
      else if !t.x.dl.ev.event_flag then t.(state := MsPreoperate6)  // T23, T25
      else t
    else Prime(t.(timer := true, state := MsGetOd7))  // T23, T24
  }

  /** RESPONSE_8 does this without leaving its state. */
  function AwReply9(l: Link, g: Signal): Link {
    match g
    case Answered(flag, rx) => AnswerTaken(Give(l, Device(flag, rx)).(out := false))
    case Failed => l.(timer := true, out := false, state := MsErrorHandling10)  // T19, T20
    case _ => l
  }

  function ErrorHandling10(l: Link, g: Signal): Link {
    if l.retry >= S.MAX_RETRY then GiveUpLink(l, true)  // T22
    else if g == Elapsed && l.timer then l.(retry := l.retry + 1, out := true, state := MsAwReply9)  // T21
    else l
  }

  // ---------- OPERATE ----------

  predicate Ends(cmd: S.MhCmd) {
    cmd == S.McStartup || cmd == S.McInactive
  }

  function EndOperate(l: Link): Link {
    if l.cmd == S.McStartup then l.(cycling := false, state := MsStartup2) else Drop(l)  // T38, T35
  }

  function Operate12(l: Link): Link {
    if Ends(l.cmd) then EndOperate(l)
    else Give(l, Master).(retry := 0, cycling := true, out := true, state := MsResponse15)  // T29
  }

  /** A parameter write is taken up at once, whatever is on the line. */
  function AwReply16(l: Link, g: Signal): Link {
    if Ends(l.cmd) then EndOperate(l)
    else if l.x.dl.rwcmd == RwWriteParam then Give(l, Master).(retry := 0, state := MsAwReply9)
    else
      match g
      case Answered(flag, rx) => Give(Give(l, Device(flag, rx)), Master).(out := false)  // T34
      case Failed => GiveUpLink(l, false)
      case _ => l
  }

  function Sm(l: Link, g: Signal): Link {
    match l.state
    case MsInactive0 => l.(cycling := false)
    case MsStartup2 => Startup2(l)
    case MsPreoperate6 => Preoperate6(l)
    case MsGetOd7 => GetOd7(l)
    case MsResponse8 => AwReply9(l, g)
    case MsAwReply9 => AwReply9(l, g)
    case MsErrorHandling10 => ErrorHandling10(l, g)
    case MsOperate12 => Operate12(l)
    case MsResponse15 => AwReply16(l.(state := MsAwReply16), g)
    case MsAwReply16 => AwReply16(l, g)
  }

  // ---------- what drives it ----------

  /** The command the mode handler gives on an event, if any. */
  function ModeCommand(s: Dl): Option<S.MhCmd> {
    match s.mode
    case MdIdle0 => None
    case MdEstCom1 => None
    case MdStartup2 =>
      if s.dl_mode == ModePreoperate then Some(S.McPreoperate)
      else if s.dl_mode == ModeOperate then Some(S.McOperate)
      else if s.dl_mode == ModeInactive || s.com_lost then Some(S.McInactive)
      else None
    case MdPreoperate3 =>
      if s.dl_mode == ModeStartup then Some(S.McStartup)
      else if s.dl_mode == ModeInactive then Some(S.McOperate)
      else if s.com_lost then Some(S.McInactive)
      else if s.dl_mode == ModeOperate then Some(S.McOperate)
      else None
    case MdOperate4 =>
      if s.dl_mode == ModeStartup then Some(S.McStartup)
      else if s.dl_mode == ModeInactive || s.com_lost then Some(S.McInactive)
      else None
  }

  /** MH_Conf. */
  function Conf(l: Link, cmd: S.MhCmd): Link {
    Sm(l.(cmd := cmd), Poked)
  }

  /** The mode handler switches the handlers, then commands the message handler; on
      its way to IDLE_0 it forgets the loss of the link. */
  function ModeStep(l: Link): Link {
    var t := OnDl(l, Step(l.x.dl, ModeEvent));
    match ModeCommand(l.x.dl)
    case None => t
    case Some(cmd) =>
      var u := Conf(t, cmd);
      if cmd == S.McInactive then OnDl(u, u.x.dl.(com_lost := false)) else u
  }

  /** Inputs: a signal of the line or a request, the timer's event, and the calls of
      the other layers. A parameter access is accepted in two states. */
  datatype LinkInput = Line(g: Signal) | Timer | Call(i: Input)

  function CallStep(l: Link, i: Input): Link {
    match i
    case Param(write, address, value, _) =>
      OnDl(l, Step(l.x.dl, Param(write, address, value, l.state == MsPreoperate6 || l.state == MsAwReply16)))
    case ModeEvent => ModeStep(l)
    case WakeUp(ok) =>
      var t := OnDl(l, Step(l.x.dl, i));
      if ok then t.(state := MsStartup2) else t
    case Master => l
    case Device(_, _) => l
    case LinkLost(_) => l
    case _ => OnDl(l, Step(l.x.dl, i))
  }

  function LinkStep(l: Link, i: LinkInput): Link {
    match i
    case Line(g) => if g == Elapsed then l else Sm(l, g)
    case Timer => (if l.timer then Sm(l, Elapsed) else l).(timer := false)
    case Call(c) => CallStep(l, c)
  }

  function LinkRun(l: Link, inputs: seq<LinkInput>): Link {
    if inputs == [] then l
    else LinkStep(LinkRun(l, inputs[..|inputs| - 1]), inputs[|inputs| - 1])
  }

  // ---------- the environment ----------

  /** The line answers, or fails, only what is on it. */
  predicate Heard(l: Link, i: LinkInput) {
    i.Line? && (i.g.Answered? || i.g.Failed?) ==> l.out || l.cycling
  }

  /** The handlers stay switched on; PREOPERATE may go over to OPERATE. */
  predicate StaysOn(l: Link, i: LinkInput) {
    && (i.Call? ==> !i.i.WakeUp?)
    && (i == Call(ModeEvent) ==>
          l.x.dl.mode != MdStartup2 && (ModeCommand(l.x.dl) == None || ModeCommand(l.x.dl) == Some(S.McOperate)))
  }

  predicate HeardRun(l: Link, inputs: seq<LinkInput>) {
    inputs == []
    || (HeardRun(l, inputs[..|inputs| - 1])
        && Heard(LinkRun(l, inputs[..|inputs| - 1]), inputs[|inputs| - 1]))
  }

  predicate StaysOnRun(l: Link, inputs: seq<LinkInput>) {
    inputs == []
    || (StaysOnRun(l, inputs[..|inputs| - 1])
        && StaysOn(LinkRun(l, inputs[..|inputs| - 1]), inputs[|inputs| - 1]))
  }

  /** The handler is run for this input. */
  predicate Runs(l: Link, i: LinkInput) {
    match i
    case Line(g) => g != Elapsed
    case Timer => l.timer
    case Call(c) => c == ModeEvent && ModeCommand(l.x.dl).Some?
  }

  /** A parameter write is taken up in OPERATE with a message on the line. */
  predicate TakesWrite(l: Link, i: LinkInput) {
    && Runs(l, i) && (l.state == MsResponse15 || l.state == MsAwReply16)
    && l.x.dl.rwcmd == RwWriteParam && l.x.awaiting
  }

  predicate SomeWriteTaken(l: Link, inputs: seq<LinkInput>) {
    inputs != []
    && (SomeWriteTaken(l, inputs[..|inputs| - 1])
        || TakesWrite(LinkRun(l, inputs[..|inputs| - 1]), inputs[|inputs| - 1]))
  }

  // ---------- alternation ----------

  function Due(l: Link): Trigger {
    if l.x.awaiting then TrigDevice else TrigMaster
  }

  predicate InPlace(l: Link) {
    match l.state
    case MsInactive0 => true
    case MsStartup2 => false
    case MsPreoperate6 => !l.x.awaiting && !l.cycling
    case MsGetOd7 => !l.x.awaiting && !l.cycling && l.x.dl.od.trigger == TrigMaster
    case MsResponse8 => !l.cycling && (l.out ==> l.x.awaiting)
    case MsAwReply9 => !l.cycling && (l.out ==> l.x.awaiting)
    case MsErrorHandling10 => !l.cycling && !l.out && l.x.awaiting
    case MsOperate12 => !l.x.awaiting && !l.cycling
    case MsResponse15 => l.cycling && l.x.awaiting
    case MsAwReply16 => if l.cycling then l.x.awaiting else !l.x.awaiting && !l.out
  }

  predicate LinkInv(l: Link) {
    && Turns(l.given, TrigMaster, Due(l))
    && InPlace(l)
    && (l.state != MsInactive0 ==> l.cmd == S.McPreoperate || l.cmd == S.McOperate)
  }

  /** The handlers were just switched on: a session starts here. */
  predicate Opened(l: Link) {
    && l.given == [] && !l.x.awaiting && !l.cycling
    && (l.state == MsPreoperate6 || l.state == MsOperate12)
    && (l.cmd == S.McPreoperate || l.cmd == S.McOperate)
  }

  lemma GivenInTurn(l: Link, i: Input)
    requires Turns(l.given, TrigMaster, Due(l)) && (if l.x.awaiting then i.Device? else i.Master?)
    ensures var t := Give(l, i); Turns(t.given, TrigMaster, Due(t)) && t.x.awaiting == i.Master?
  {
    TurnTaken(l.given, TrigMaster, Due(l));
  }

  lemma SetIsMaster(l: Link)
    requires l.x.dl.od.trigger == TrigMaster
    ensures GiveAsSet(l) == Give(l, Master)
  {
    assert Triggered(l.x.dl, Master) == l.x.dl;
  }

  lemma AnswerKeepsInv(l: Link, g: Signal)
    requires LinkInv(l) && (l.state == MsResponse8 || l.state == MsAwReply9)
    requires g.Answered? || g.Failed? ==> l.out || l.cycling
    ensures LinkInv(AwReply9(l, g))
  {
    match g
    case Answered(flag, rx) => GivenInTurn(l, Device(flag, rx));
    case _ =>
  }

  lemma OperateKeepsInv(l: Link, g: Signal)
    requires LinkInv(l) && l.state == MsAwReply16
    requires g.Answered? || g.Failed? ==> l.out || l.cycling
    requires l.x.dl.rwcmd == RwWriteParam ==> !l.x.awaiting
    ensures LinkInv(AwReply16(l, g))
  {
    if l.x.dl.rwcmd == RwWriteParam {
      GivenInTurn(l, Master);
    } else if g.Answered? {
      GivenInTurn(l, Device(g.flag, g.rx));
      GivenInTurn(Give(l, Device(g.flag, g.rx)), Master);
    }
  }

  lemma SmKeepsInv(l: Link, g: Signal)
    requires LinkInv(l)
    requires g.Answered? || g.Failed? ==> l.out || l.cycling
    requires (l.state == MsResponse15 || l.state == MsAwReply16) && l.x.dl.rwcmd == RwWriteParam ==> !l.x.awaiting
    ensures LinkInv(Sm(l, g))
  {
    match l.state
    case MsGetOd7 =>
      SetIsMaster(l);
      GivenInTurn(l, Master);
    case MsResponse8 => AnswerKeepsInv(l, g);
    case MsAwReply9 => AnswerKeepsInv(l, g);
    case MsOperate12 => GivenInTurn(l, Master);
    case MsResponse15 => OperateKeepsInv(l.(state := MsAwReply16), g);
    case MsAwReply16 => OperateKeepsInv(l, g);
    case _ =>
  }

  /** No call touches the trigger or the exchange. */
  lemma CallKeepsInv(l: Link, i: Input)
    requires LinkInv(l) && !i.ModeEvent? && !i.WakeUp?
    ensures LinkInv(CallStep(l, i))
    ensures CallStep(l, i).given == l.given
  {
    if i.Control? || i.Devicemode? { CommandKeeps(l.x.dl, i); }
  }

  lemma ModeKeepsInv(l: Link)
    requires LinkInv(l) && StaysOn(l, Call(ModeEvent)) && !TakesWrite(l, Call(ModeEvent))
    ensures LinkInv(ModeStep(l))
  {
    var s := l.x.dl;
    var t := OnDl(l, Step(s, ModeEvent));
    assert s.mode != MdIdle0 && s.mode != MdEstCom1 ==> Step(s, ModeEvent) == s.(mode := Step(s, ModeEvent).mode);
    if ModeCommand(s) == Some(S.McOperate) {
      SmKeepsInv(t.(cmd := S.McOperate), Poked);
    }
  }

  lemma StepKeepsInv(l: Link, i: LinkInput)
    requires LinkInv(l) && Heard(l, i) && StaysOn(l, i) && !TakesWrite(l, i)
    ensures LinkInv(LinkStep(l, i))
  {
    match i
    case Line(g) => if g != Elapsed { SmKeepsInv(l, g); }
    case Timer => if l.timer { SmKeepsInv(l, Elapsed); }
    case Call(c) => if c.ModeEvent? { ModeKeepsInv(l); } else { CallKeepsInv(l, c); }
  }

  // ---------- where it breaks ----------

  lemma WriteBreaks(l: Link, i: LinkInput)
    requires LinkInv(l) && StaysOn(l, i) && TakesWrite(l, i)
    ensures !Alternating(LinkStep(l, i).given, TrigMaster)
  {
    var n := |l.given|;
    assert LinkStep(l, i).given == l.given + [TrigMaster];
    assert LinkStep(l, i).given[n - 1] == TrigMaster && LinkStep(l, i).given[n] == TrigMaster;
  }

  lemma GivesOne(l: Link, i: Input)
    requires i.Master? || i.Device?
    ensures l.given <= Give(l, i).given
  {
  }

  lemma AnswerGivesMore(l: Link, g: Signal)
    ensures l.given <= AwReply9(l, g).given
  {
    match g
    case Answered(flag, rx) => GivesOne(l, Device(flag, rx));
    case _ =>
  }

  lemma OperateGivesMore(l: Link, g: Signal)
    ensures l.given <= AwReply16(l, g).given
  {
    GivesOne(l, Master);
    match g
    case Answered(flag, rx) =>
      GivesOne(l, Device(flag, rx));
      GivesOne(Give(l, Device(flag, rx)), Master);
    case _ =>
  }

  lemma SmGivesMore(l: Link, g: Signal)
    ensures l.given <= Sm(l, g).given
  {
    match l.state
    case MsGetOd7 => SetGivesMore(l);
    case MsResponse8 => AnswerGivesMore(l, g);
    case MsAwReply9 => AnswerGivesMore(l, g);
    case MsOperate12 => GivesOne(l, Master);
    case MsResponse15 => OperateGivesMore(l.(state := MsAwReply16), g);
    case MsAwReply16 => OperateGivesMore(l, g);
    case MsPreoperate6 => PreoperateGivesNone(l);
    case MsErrorHandling10 => ErrorGivesNone(l, g);
    case MsInactive0 =>
    case MsStartup2 =>
  }

  lemma ErrorGivesNone(l: Link, g: Signal)
    ensures ErrorHandling10(l, g).given == l.given
  {
  }

  lemma SetGivesMore(l: Link)
    ensures l.given <= GetOd7(l).given
  {
  }

  lemma PreoperateGivesNone(l: Link)
    ensures Preoperate6(l).given == l.given
  {
  }

  lemma StepGivesMore(l: Link, i: LinkInput)
    ensures l.given <= LinkStep(l, i).given
  {
    match i
    case Line(g) => SmGivesMore(l, g);
    case Timer => SmGivesMore(l, Elapsed);
    case Call(c) =>
      if c.ModeEvent? {
        match ModeCommand(l.x.dl) {
          case None =>
          case Some(cmd) => SmGivesMore(OnDl(l, Step(l.x.dl, ModeEvent)).(cmd := cmd), Poked);
        }
      }
  }

  lemma PrefixAlternates(a: seq<Trigger>, b: seq<Trigger>, first: Trigger)
    requires a <= b && Alternating(b, first)
    ensures Alternating(a, first)
  {
    forall k | 0 <= k < |a| ensures a[k] != TrigNone { assert b[k] == a[k]; }
    forall j, k | 0 <= j < |a| && k == j + 1 && k < |a| ensures a[k] == Other(a[j]) {
      assert b[j] == a[j] && b[k] == a[k];
    }
  }

  /** From the moment the handlers are switched on, over every run that leaves them
      on: the OD handler is given strictly alternating triggers, a master message
      first, if and only if no parameter write is taken up in OPERATE while a message
      is on the line. */
  lemma {:induction false} TriggersAlternateIff(l: Link, inputs: seq<LinkInput>)
    requires Opened(l) && HeardRun(l, inputs) && StaysOnRun(l, inputs)
    ensures Alternating(LinkRun(l, inputs).given, TrigMaster) <==> !SomeWriteTaken(l, inputs)
    ensures !SomeWriteTaken(l, inputs) ==> LinkInv(LinkRun(l, inputs))
  {
    if inputs != [] {
      var init, i := inputs[..|inputs| - 1], inputs[|inputs| - 1];
      TriggersAlternateIff(l, init);
      var z := LinkRun(l, init);
      StepGivesMore(z, i);
      if SomeWriteTaken(l, init) {
        if Alternating(LinkStep(z, i).given, TrigMaster) {
          PrefixAlternates(z.given, LinkStep(z, i).given, TrigMaster);
        }
      } else if TakesWrite(z, i) {
        WriteBreaks(z, i);
      } else {
        StepKeepsInv(z, i);
      }
    }
  }

  // ---------- the ISDU handler's view ----------

  /** Requests of the other layers as LinkUp has them: one control code at a time. */
  predicate Polite(l: Link, i: LinkInput) {
    i.Call? ==> LinkUp(l.x, i.i) || i.i.SetMode? || i.i.ModeEvent?
  }

  predicate PoliteRun(l: Link, inputs: seq<LinkInput>) {
    inputs == []
    || (PoliteRun(l, inputs[..|inputs| - 1])
        && Polite(LinkRun(l, inputs[..|inputs| - 1]), inputs[|inputs| - 1]))
  }

  predicate Undisturbed(x: Session) {
    MuxInv(x) && Turns(x.seen, TrigMaster, Next(x))
  }

  lemma GivenUndisturbed(l: Link, i: Input)
    requires Undisturbed(l.x) && (if l.x.awaiting then i.Device? else i.Master?)
    ensures Undisturbed(Give(l, i).x) && Give(l, i).x.awaiting == i.Master?
  {
    MuxStep(l.x, i, TrigMaster);
  }

  lemma AnswerUndisturbed(l: Link, g: Signal)
    requires LinkInv(l) && Undisturbed(l.x) && (l.state == MsResponse8 || l.state == MsAwReply9)
    requires g.Answered? || g.Failed? ==> l.out || l.cycling
    ensures Undisturbed(AwReply9(l, g).x)
  {
    match g
    case Answered(flag, rx) => GivenUndisturbed(l, Device(flag, rx));
    case _ =>
  }

  lemma GivenUpUndisturbed(l: Link, preoperate: bool)
    requires Undisturbed(l.x)
    ensures Undisturbed(GiveUpLink(l, preoperate).x)
  {
  }

  lemma OperateUndisturbed(l: Link, g: Signal)
    requires LinkInv(l) && Undisturbed(l.x) && l.state == MsAwReply16
    requires g.Answered? || g.Failed? ==> l.out || l.cycling
    requires l.x.dl.rwcmd == RwWriteParam ==> !l.x.awaiting
    ensures Undisturbed(AwReply16(l, g).x)
  {
    if l.x.dl.rwcmd == RwWriteParam {
      GivenUndisturbed(l, Master);
    } else if g.Answered? {
      GivenUndisturbed(l, Device(g.flag, g.rx));
      GivenUndisturbed(Give(l, Device(g.flag, g.rx)), Master);
    } else if g.Failed? {
      GivenUpUndisturbed(l, false);
    }
  }

  lemma SmUndisturbed(l: Link, g: Signal)
    requires LinkInv(l) && Undisturbed(l.x)
    requires g.Answered? || g.Failed? ==> l.out || l.cycling
    requires (l.state == MsResponse15 || l.state == MsAwReply16) && l.x.dl.rwcmd == RwWriteParam ==> !l.x.awaiting
    ensures Undisturbed(Sm(l, g).x)
  {
    match l.state
    case MsGetOd7 =>
      SetIsMaster(l);
      GivenUndisturbed(l, Master);
    case MsResponse8 => AnswerUndisturbed(l, g);
    case MsAwReply9 => AnswerUndisturbed(l, g);
    case MsErrorHandling10 => GivenUpUndisturbed(l, true);
    case MsOperate12 => GivenUndisturbed(l, Master);
    case MsResponse15 => OperateUndisturbed(l.(state := MsAwReply16), g);
    case MsAwReply16 => OperateUndisturbed(l, g);
    case _ =>
  }

  lemma CallUndisturbed(l: Link, i: Input)
    requires Undisturbed(l.x) && !i.ModeEvent? && Polite(l, Call(i))
    ensures Undisturbed(CallStep(l, i).x)
  {
    if i.Param? {
      ParamUndisturbed(l.x, Param(i.write, i.address, i.value, l.state == MsPreoperate6 || l.state == MsAwReply16));
    } else if i.SetMode? {
    } else if !i.Master? && !i.Device? {
      ServiceStep(l.x, i);
    }
  }

  lemma ParamUndisturbed(x: Session, i: Input)
    requires Undisturbed(x) && i.Param?
    ensures Undisturbed(SessionStep(x, i))
  {
    ServiceStep(x, i);
  }

  lemma ModeUndisturbed(l: Link)
    requires LinkInv(l) && Undisturbed(l.x)
    requires StaysOn(l, Call(ModeEvent)) && !TakesWrite(l, Call(ModeEvent))
    ensures Undisturbed(ModeStep(l).x)
  {
    var s := l.x.dl;
    var t := OnDl(l, Step(s, ModeEvent));
    assert s.mode != MdIdle0 && s.mode != MdEstCom1 ==> Step(s, ModeEvent) == s.(mode := Step(s, ModeEvent).mode);
    if ModeCommand(s) == Some(S.McOperate) { SmUndisturbed(t.(cmd := S.McOperate), Poked); }
  }

  lemma StepUndisturbed(l: Link, i: LinkInput)
    requires LinkInv(l) && Undisturbed(l.x)
    requires Heard(l, i) && StaysOn(l, i) && Polite(l, i) && !TakesWrite(l, i)
    ensures Undisturbed(LinkStep(l, i).x)
  {
    match i
    case Line(g) => if g != Elapsed { SmUndisturbed(l, g); }
    case Timer => if l.timer { SmUndisturbed(l, Elapsed); }
    case Call(c) => if c.ModeEvent? { ModeUndisturbed(l); } else { CallUndisturbed(l, c); }
  }

  /** On every such run in which no parameter write is taken up with a message on the
      line, Commands and Events do not show: the ISDU handler itself is given strictly
      alternating triggers, a master message first. */
  lemma {:induction false} MessagesTransparent(l: Link, inputs: seq<LinkInput>)
    requires Opened(l) && MuxInv(l.x) && l.x.seen == []
    requires HeardRun(l, inputs) && StaysOnRun(l, inputs) && PoliteRun(l, inputs)
    requires !SomeWriteTaken(l, inputs)
    ensures var z := LinkRun(l, inputs);
            LinkInv(z) && MuxInv(z.x) && Turns(z.x.seen, TrigMaster, Next(z.x))
  {
    TriggersAlternateIff(l, inputs);
    if inputs != [] {
      var init := inputs[..|inputs| - 1];
      MessagesTransparent(l, init);
      StepUndisturbed(LinkRun(l, init), inputs[|inputs| - 1]);
    }
  }

  // ---------- what the parameter write does ----------

  lemma WriteTaken(l: Link, g: Signal)
    requires l.state == MsResponse15 || l.state == MsAwReply16
    requires !Ends(l.cmd) && l.x.dl.rwcmd == RwWriteParam
    ensures Sm(l, g) == Give(l, Master).(retry := 0, state := MsAwReply9)
  {
  }

  lemma MasterAgain(x: Session)
    requires MuxInv(x) && Mine(x) && x.dl.cmd.control_code == CcNone
    ensures var y, s := SessionStep(x, Master), Triggered(x.dl, Master);
            && y.seen == x.seen + [TrigMaster]
            && y.dl.isdu == IsduSm(s).isdu && y.dl.out == IsduSm(s).out && y.dl.rx == IsduSm(s).rx
  {
    IsduSmKeepsMux(Triggered(x.dl, Master));
  }

  /** What a second master message does to the ISDU handler: one more segment of the
      request, even behind its last one; the same poll again; or, with no transfer
      under way, the parameter write itself. */
  predicate AskedAgain(s: Dl, t: Dl) {
    var cur := s.isdu.current_isdu_seg;
    match s.isdu.state
    case IhRequest2 =>
      t == CountSegment(OdReq(s, true, ChIsdu, cur % 16, Window(s.isdu.data, Times(cur, s.od_len), s.od_len)))
    case IhWait3 => t.isdu == s.isdu && t.out.wire == Frame(false, ChIsdu, FLOWCTRL_START, [])
    case IhResponse5 => t.isdu == s.isdu && t.out.wire == Frame(false, ChIsdu, cur % 16, [])
    case IhIdle1 => t == OdReq(s, true, ChPage, s.od.data_addr, [s.od.data_value])
    case _ => true
  }

  lemma SecondMaster(s: Dl)
    requires s.od.trigger == TrigMaster && s.rwcmd == RwWriteParam && s.isdu.active
    requires !s.com_lost && !s.TimerElapsed()
    ensures AskedAgain(s, IsduSm(s)) && IsduSm(s).rx == s.rx
  {
    match s.isdu.state
    case IhIdle1 =>
    case IhRequest2 =>
    case IhWait3 =>
    case IhResponse5 =>
    case _ =>
  }

  /** The write is taken up during an exchange of the ISDU handler, with an answer, an
      error or nothing having come: the handler gets a second master message, and the
      octets of the device are not looked at. */
  lemma WriteTakesExchange(l: Link, g: Signal)
    requires l.state == MsResponse15 || l.state == MsAwReply16
    requires !Ends(l.cmd) && l.x.dl.rwcmd == RwWriteParam && MuxInv(l.x) && Mine(l.x)
    requires l.x.dl.cmd.control_code == CcNone && !l.x.dl.com_lost && !l.x.dl.TimerElapsed()
    ensures var t, s := Sm(l, g), Triggered(l.x.dl, Master);
            && t.state == MsAwReply9 && t.given == l.given + [TrigMaster] && t.x.seen == l.x.seen + [TrigMaster]
            && t.x.dl.rx == l.x.dl.rx && t.x.dl.isdu == IsduSm(s).isdu && t.x.dl.out == IsduSm(s).out
            && AskedAgain(s, IsduSm(s))
  {
    WriteTaken(l, g);
    MasterAgain(l.x);
    SecondMaster(Triggered(l.x.dl, Master));
  }

  /** DL_WriteParam_req in OPERATE is all it takes: whatever the line reports next, the
      triggers no longer alternate. */
  lemma WriteInOperateBreaks(l: Link, address: nat, value: byte, g: Signal)
    requires LinkInv(l) && l.state == MsAwReply16 && l.x.awaiting && g != Elapsed
    ensures var t := LinkStep(l, Call(Param(true, address, value, true)));
            TakesWrite(t, Line(g)) && !Alternating(LinkStep(t, Line(g)).given, TrigMaster)
  {
    var c := Param(true, address, value, true);
    CallKeepsInv(l, c);
    WriteBreaks(CallStep(l, c), Line(g));
  }

  /** The way back through AW_REPLY_9 hands over without a new message: the next cycle
      brings a second answer in a row. */
  lemma AnsweredTwice(l: Link, rx: RxBuffer, flag: bool, rx2: RxBuffer)
    requires l.state == MsAwReply9 && l.cmd == S.McOperate && l.x.dl.rwcmd == RwWriteParam
    requires MuxInv(l.x) && Mine(l.x) && l.x.dl.isdu.state == IhIdle1
    ensures var t := LinkStep(LinkStep(l, Line(Answered(false, rx))), Line(Answered(flag, rx2)));
            t.given == l.given + [TrigDevice, TrigDevice, TrigMaster] && t.state == MsAwReply16
  {
    var t := LinkStep(l, Line(Answered(false, rx)));
    IdleAnswered(l.x, rx);
    assert t.state == MsAwReply16 && t.given == l.given + [TrigDevice] && t.x.dl.rwcmd == RwNone;
  }

  lemma IdleAnswered(x: Session, rx: RxBuffer)
    requires MuxInv(x) && Mine(x) && x.dl.isdu.state == IhIdle1 && x.dl.rwcmd == RwWriteParam
    ensures var y := SessionStep(x, Device(false, rx)); y.dl.rwcmd == RwNone && y.dl.isdu.state == IhIdle1
  {
  }

  // ---------- a parameter access that meets a transfer ----------

  /** A parameter access has taken the command word of a transfer still under way, or
      neither is there any more. */
  predicate Overtaken(s: Dl) {
    && s.isdu.active
    && ((Busy(s) && (s.rwcmd == RwWriteParam || s.rwcmd == RwReadParam)) || s.rwcmd == RwNone)
  }

  /** Nothing that confirms a parameter access was added. */
  predicate NoAccessAnswered(a: seq<Primitive>, b: seq<Primitive>) {
    a <= b && forall k :: |a| <= k < |b| ==> !b[k].ReadParamCnf? && !b[k].WriteParamCnf?
  }

  lemma IsduAnswersNone(s: Dl)
    requires Overtaken(s)
    ensures Overtaken(IsduSm(s)) && IsduSm(s).out.log == s.out.log
  {
    IsduSmStep(s);
    IsduLogsNone(s);
  }

  lemma IsduLogsNone(s: Dl)
    requires s.isdu.state == IhIdle1 ==> s.rwcmd == RwNone
    ensures IsduSm(s).out.log == s.out.log
  {
    match s.isdu.state
    case IhRequest2 => EnteringLogsNone(s);
    case IhWait3 => Wait3LogsNone(s);
    case IhResponse5 => EnteringLogsNone(s);
    case _ =>
  }

  lemma Wait3LogsNone(s: Dl)
    ensures IsduWait3(s).out.log == s.out.log
  {
    EnteringLogsNone(s);
    EnteringLogsNone(TimerReset(s));
    EnteringLogsNone(TimerReset(Receive(s)));
  }

  lemma EnteringLogsNone(s: Dl)
    ensures EnterIsduError4(s).out.log == s.out.log
  {
  }

  lemma {:induction false} Type2Events(events: EventList, k: nat, n: int)
    requires k <= MAX_EVENTS
    ensures forall j :: 0 <= j < |Type2Inds(events, k, n)| ==> Type2Inds(events, k, n)[j].EventInd?
  {
    if k > 0 { Type2Events(events, k - 1, n); }
  }

  lemma {:induction false} Type1Events(status: byte, n: nat, left: int)
    requires n <= 5
    ensures forall j :: 0 <= j < |Type1Inds(status, n, left)| ==> Type1Inds(status, n, left)[j].EventInd?
  {
    if n > 0 { Type1Events(status, n - 1, left); }
  }

  lemma SignalAnswersNone(s: Dl)
    ensures NoAccessAnswered(s.out.log, SignalEvent3(s).out.log)
  {
    var n := s.ev.num_entries;
    var k := if n < 0 then 0 else if n > MAX_EVENTS then MAX_EVENTS else n;
    if Details(s.ev.status_code) { Type2Events(s.ev.events, k, n); } else { Type1Events(s.ev.status_code, 5, n); }
  }

  lemma EvAnswersNone(s: Dl)
    ensures NoAccessAnswered(s.out.log, EvSm(s).out.log)
  {
    if s.ev.state == EhReadEvent2 && !s.com_lost && s.od.trigger == TrigDevice {
      if s.ev.ev_addr == 0 { StatusAnswersNone(s); } else { MemoryAnswersNone(s); }
    }
  }

  lemma StatusAnswersNone(s: Dl)
    ensures NoAccessAnswered(s.out.log, EvStatusCode(s).out.log)
  {
    var e := s.ev.(status_code := s.rx[0]);
    SignalAnswersNone(s.(ev := e.(num_entries := e.num_entries + SlotCount(e.status_code, 5))));
  }

  lemma MemoryAnswersNone(s: Dl)
    ensures NoAccessAnswered(s.out.log, EvMemoryByte(s).out.log)
  {
    var u := s.(ev := StoreOctet(s.ev, s.ev.ev_addr - s.ev.ev_cnt * 3, s.rx[0]));
    SignalAnswersNone(u.(ev := EvAdvance(u.ev).(ev_current := 0)));
  }

  lemma OdAnswersNone(s: Dl)
    requires Overtaken(s)
    ensures Overtaken(OdSm(s)) && NoAccessAnswered(s.out.log, OdSm(s).out.log)
  {
    OdSmStep(s);
    match s.od.state
    case OdInactive0 =>
    case OdIsdu1 => IsduAnswersNone(s);
    case OdCommand2 =>
    case OdEvent3 => EvAnswersNone(s);
  }

  lemma OvertakenStep(s: Dl, i: Input)
    requires Overtaken(s)
    requires i.Master? || i.Device? || i.TimerExpires? || i.Control? || i.Devicemode? || i.SetMode?
    ensures Overtaken(Step(s, i)) && NoAccessAnswered(s.out.log, Step(s, i).out.log)
  {
    if i.Master? || i.Device? {
      OdAnswersNone(Triggered(s, i));
    } else if i.Control? || i.Devicemode? {
      CommandKeeps(s, i);
    }
  }

  /** A parameter access accepted while a transfer is under way is lost: over every
      run of exchanges and commands it is never confirmed. The transfer that comes to
      its end takes the command word with it. */
  lemma {:induction false} AccessInTransferIsLost(s: Dl, inputs: seq<Input>)
    requires Overtaken(s)
    requires forall k :: 0 <= k < |inputs| ==>
      var i := inputs[k];
      i.Master? || i.Device? || i.TimerExpires? || i.Control? || i.Devicemode? || i.SetMode?
    ensures var t := Run(s, inputs);
            && NoAccessAnswered(s.out.log, t.out.log)
            && Overtaken(t) && (!Busy(t) ==> t.rwcmd == RwNone)
  {
    if inputs != [] {
      var init := inputs[..|inputs| - 1];
      AccessInTransferIsLost(s, init);
      OvertakenStep(Run(s, init), inputs[|inputs| - 1]);
    }
  }

  /** The exchange is free for the ISDU handler, which has nothing under way. */
  predicate FreeForAccess(x: Session) {
    && MuxInv(x) && !x.awaiting && x.dl.od.state == OdIsdu1
    && x.dl.cmd.control_code == CcNone && x.dl.isdu.state == IhIdle1
  }

  /** With no transfer under way it is carried out by the next exchange. */
  lemma AccessInIdleIsAnswered(x: Session, rx: RxBuffer)
    requires FreeForAccess(x) && x.dl.rwcmd == RwWriteParam && x.dl.od.data_addr <= 31
    ensures var y := SessionStep(SessionStep(x, Master), Device(false, rx));
            && y.dl.out.log == x.dl.out.log + [WriteParamCnf(NoError)] && y.dl.rwcmd == RwNone
            && y.dl.out.page == x.dl.out.page
               + [Frame(true, ChPage, x.dl.od.data_addr, Pad([x.dl.od.data_value], x.dl.od_len))]
  {
  }

  /** An access of either kind that is accepted with no transfer under way: the next
      exchange is a message of the page channel for its address, and its answer, the
      first octet of a read, is passed on. */
  lemma AccessIsMade(x: Session, write: bool, address: nat, value: byte, rx: RxBuffer)
    requires FreeForAccess(x) && address <= 31
    ensures var y := SessionStep(SessionStep(SessionStep(x, Param(write, address, value, true)), Master), Device(false, rx));
            && y.dl.out.page == x.dl.out.page
                 + [Frame(write, ChPage, address, if write then [value] + Zeros(x.dl.od_len - 1) else [])]
            && y.dl.out.log == x.dl.out.log + [if write then WriteParamCnf(NoError) else ReadParamCnf(rx[0], NoError)]
            && y.dl.rwcmd == RwNone
  {
    var i := Param(write, address, value, true);
    ServiceStep(x, i);
    assert Pad([value], x.dl.od_len) == [value] + Zeros(x.dl.od_len - 1);
  }

  /** So is one that was refused: the refusal leaves the command word behind. The next
      exchange writes the address and value of the access before, and confirms once
      more. */
  lemma RefusedWriteIsCarriedOut(x: Session, address: nat, value: byte, ready: bool, rx: RxBuffer)
    requires FreeForAccess(x) && (!ready || address > 31) && x.dl.od.data_addr <= 31
    ensures var u := SessionStep(x, Param(true, address, value, ready));
            var y := SessionStep(SessionStep(u, Master), Device(false, rx));
            && y.dl.out.log == x.dl.out.log
                 + [WriteParamCnf(if ready then ValueOutOfRange else StateConflict), WriteParamCnf(NoError)]
            && y.dl.out.page == x.dl.out.page
                 + [Frame(true, ChPage, x.dl.od.data_addr, Pad([x.dl.od.data_value], x.dl.od_len))]
  {
    var i := Param(true, address, value, ready);
    ServiceStep(x, i);
    AccessInIdleIsAnswered(SessionStep(x, i), rx);
  }

  // ---------- what makes a message go out ----------

  /** What PREOPERATE sends messages for: a parameter access, a transfer, the OPERATE
      command to the device, an event. */
  predicate Wants(s: Dl) {
    || s.rwcmd == RwReadParam || s.rwcmd == RwWriteParam || s.rwcmd == RwIsduTransport
    || s.cmd.master_command == 0x99 || s.ev.event_flag
  }

  /** In PREOPERATE a message goes out for it with the next expiry of the timer, and
      none goes out without it. */
  lemma WorkIsSentIff(l: Link)
    requires l.state == MsPreoperate6 && l.cmd == S.McPreoperate
    ensures var t := LinkStep(LinkStep(l, Line(Poked)), Timer);
            if Wants(l.x.dl) then
              && t.state == MsResponse8 && t.out && t.given == l.given + [TrigMaster] && t.x == SessionStep(l.x, Master)
            else t.given == l.given && t.out == l.out
  {
    var u := LinkStep(l, Line(Poked));
    if Wants(l.x.dl) { SentByTimer(u, l.x); }
  }

  lemma SentByTimer(u: Link, x: Session)
    requires u.state == MsGetOd7 && u.timer
    requires u.x == x.(dl := x.dl.(od := x.dl.od.(trigger := TrigMaster)))
    ensures var t := LinkStep(u, Timer);
            t.state == MsResponse8 && t.out && t.given == u.given + [TrigMaster] && t.x == SessionStep(x, Master)
  {
    assert u.x.dl == Triggered(x.dl, Master);
  }

  /** A message of PREOPERATE that fails is repeated with the timer, twice at most; then
      the link is given up, and what waited is answered. */
  lemma MessageIsRepeated(l: Link)
    requires l.state == MsResponse8 || l.state == MsAwReply9
    ensures var t := LinkStep(LinkStep(l, Line(Failed)), Timer);
            if l.retry < 2 then
              t.state == MsAwReply9 && t.out && t.retry == l.retry + 1 && t.given == l.given && t.x == l.x
            else t.state == MsInactive0 && t.x.dl == Step(l.x.dl, LinkLost(true))
  {
  }

  /** In OPERATE each answer is followed by the next message; a failure gives the link
      up at once, and nothing that waited is answered. */
  lemma CycleGoesOn(l: Link, flag: bool, rx: RxBuffer)
    requires l.state == MsAwReply16 && !Ends(l.cmd) && l.x.dl.rwcmd != RwWriteParam
    ensures var t := LinkStep(l, Line(Answered(flag, rx)));
            && t.state == MsAwReply16 && t.given == l.given + [TrigDevice, TrigMaster]
            && t.x == SessionStep(SessionStep(l.x, Device(flag, rx)), Master)
    ensures var t := LinkStep(l, Line(Failed));
            t.state == MsInactive0 && t.x.dl == Step(l.x.dl, LinkLost(false))
  {
  }

  // ---------- when no message goes out any more ----------

  /** Nothing is on the line, nothing will come, and the state waits for it. */
  predicate Stalled(l: Link) {
    && !l.out && !l.cycling
    && (l.state == MsResponse8 || l.state == MsAwReply9 || l.state == MsAwReply16)
  }

  /** The answer of a PREOPERATE message finds no way on: the mode handler has asked
      for OPERATE meanwhile, or the event flag is up with no transfer under way. */
  predicate Stalls(l: Link, i: LinkInput) {
    && i.Line? && i.g.Answered? && (l.state == MsResponse8 || l.state == MsAwReply9)
    && var t := Give(l, Device(i.g.flag, i.g.rx));
       t.x.dl.isdu.state == IhIdle1 && (t.cmd == S.McOperate || t.x.dl.ev.event_flag)
  }

  lemma StallsExactly(l: Link, g: Signal)
    requires LinkInv(l) && !Stalled(l)
    requires g.Answered? || g.Failed? ==> l.out || l.cycling
    requires (l.state == MsResponse15 || l.state == MsAwReply16) && l.x.dl.rwcmd == RwWriteParam ==> !l.x.awaiting
    ensures Stalled(Sm(l, g)) <==> g != Elapsed && Stalls(l, Line(g))
  {
    match l.state
    case MsResponse8 => if g.Answered? { }
    case MsAwReply9 => if g.Answered? { }
    case _ =>
  }

  /** On every run of TriggersAlternateIff: no message goes out any more exactly from
      such an answer on. */
  lemma StallsIff(l: Link, i: LinkInput)
    requires LinkInv(l) && !Stalled(l)
    requires Heard(l, i) && StaysOn(l, i) && !TakesWrite(l, i)
    ensures Stalled(LinkStep(l, i)) <==> Stalls(l, i)
  {
    match i
    case Line(g) => if g != Elapsed { StallsExactly(l, g); }
    case Timer => if l.timer { StallsExactly(l, Elapsed); }
    case Call(c) => if c.ModeEvent? { ModeStalls(l); }
  }

  lemma ModeStalls(l: Link)
    requires LinkInv(l) && !Stalled(l)
    requires StaysOn(l, Call(ModeEvent)) && !TakesWrite(l, Call(ModeEvent))
    ensures !Stalled(ModeStep(l))
  {
    var s := l.x.dl;
    var t := OnDl(l, Step(s, ModeEvent));
    assert s.mode != MdIdle0 && s.mode != MdEstCom1 ==> Step(s, ModeEvent) == s.(mode := Step(s, ModeEvent).mode);
    if ModeCommand(s) == Some(S.McOperate) { StallsExactly(t.(cmd := S.McOperate), Poked); }
  }

  lemma StalledStep(l: Link, i: LinkInput)
    requires Stalled(l) && l.state != MsAwReply16 && Heard(l, i) && !(i.Call? && i.i.WakeUp?)
    ensures var t := LinkStep(l, i);
            Stalled(t) && t.state == l.state && t.given == l.given && t.x.seen == l.x.seen
  {
  }

  /** From RESPONSE_8 nothing short of a wake-up leads on, mode changes and deactivation
      included: no message goes out and the OD handler is not called. */
  lemma {:induction false} StalledForever(l: Link, inputs: seq<LinkInput>)
    requires Stalled(l) && l.state != MsAwReply16 && HeardRun(l, inputs)
    requires forall k :: 0 <= k < |inputs| ==> !(inputs[k].Call? && inputs[k].i.WakeUp?)
    ensures var t := LinkRun(l, inputs);
            Stalled(t) && t.state == l.state && t.given == l.given && t.x.seen == l.x.seen
  {
    if inputs != [] {
      StalledForever(l, inputs[..|inputs| - 1]);
      StalledStep(LinkRun(l, inputs[..|inputs| - 1]), inputs[|inputs| - 1]);
    }
  }

  /** In AW_REPLY_16 only the commands STARTUP and INACTIVE lead out; a parameter write
      leads to AW_REPLY_9, from where not even they do. */
  lemma StalledInOperate(l: Link, i: LinkInput)
    requires Stalled(l) && l.state == MsAwReply16 && !Ends(l.cmd) && Heard(l, i) && StaysOn(l, i)
    ensures var t := LinkStep(l, i);
            Stalled(t) && (t.state == MsAwReply9 <==> Runs(l, i) && l.x.dl.rwcmd == RwWriteParam)
  {
  }

  /** Where a session comes from: the mode handler leaves STARTUP. */
  lemma ActivationOpens(l: Link)
    requires l.state == MsStartup2 && Activates(l.x.dl)
    requires l.given == [] && !l.x.awaiting && !l.cycling
    ensures Opened(ModeStep(l))
  {
  }
}
