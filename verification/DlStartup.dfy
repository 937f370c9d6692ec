/**
 * The message handler while the device is in STARTUP: direct parameter accesses
 * of system management, one message each, repeated at most twice when the line
 * disturbs it.
 */
module DlStartup {
  import opened Bytes
  import opened DlModel

  const MAX_RETRY: nat := 2
  const MIN_CYCL: nat := 2

  datatype MhState =
    | MhInactive0 | MhAwReply1 | MhStartup2 | MhResponse3 | MhAwReply4 | MhErrorHandling5
    | MhBeyondStartup  // PREOPERATE_6 and OPERATE_12

  datatype MhCmd = McInactive | McStartup | McPreoperate | McOperate

  datatype Access = Access(write: bool, address: nat, value: byte)

  /** DL_Read_cnf and DL_Write_cnf. */
  datatype AccessCnf = AccessCnf(write: bool, value: byte, status: Status)

  /** Requests accepted and their confirmations; requests refused at once; the
      unasked confirmation of every wake-up; accesses another command overran;
      and the messages sent for the request accepted last. */
  datatype History = History(
    accepted: seq<Access>, confirmed: seq<AccessCnf>, refused: seq<AccessCnf>,
    greetings: seq<AccessCnf>, overrun: nat, sent: seq<Access>)

  datatype Mh = Mh(
    state: MhState, rwcmd: RwCmd, retry: nat, mhcmd: MhCmd,
    dataready: bool, line_error: bool, timer_elapsed: bool, timer_on: bool,
    first_read_min_cycl: bool, cycbyte: byte, com_lost: bool,
    rx: byte, tx: Access, h: History)

  /** An accepted access is waiting for its confirmation. */
  predicate Outstanding(s: Mh) {
    s.rwcmd == RwRead || s.rwcmd == RwWrite
  }

  function Answer(s: Mh, value: byte, status: Status): Mh {
    if !Outstanding(s) then s
    else
      var cnf := if s.rwcmd == RwRead then AccessCnf(false, value, status) else AccessCnf(true, 0, status);
      s.(rwcmd := RwNone, h := s.h.(confirmed := s.h.confirmed + [cnf]))
  }

  function Transmit(s: Mh): Mh {
    s.(h := s.h.(sent := s.h.sent + [s.tx]))
  }

  function Startup2(s: Mh): Mh {
    if s.mhcmd == McPreoperate then s.(state := MhBeyondStartup)  // T12
    else if s.mhcmd == McOperate then s.(timer_on := true, timer_elapsed := false, state := MhBeyondStartup)  // T39
    else if Outstanding(s) then Transmit(s.(retry := 0, dataready := false, state := MhResponse3))  // T5, T6
    else s
  }

  function AwaitReply4(s: Mh): Mh {
    if s.dataready then Answer(s.(state := MhStartup2), s.rx, NoError)  // T10
    else if s.line_error then s.(timer_on := true, timer_elapsed := false, state := MhErrorHandling5)  // T7, T8
    else s
  }

  function ErrorHandling5(s: Mh): Mh {
    if s.retry >= MAX_RETRY then
      Answer(s.(timer_on := false, com_lost := true, state := MhInactive0), 0, NoComm)  // T11
    else if s.timer_elapsed && s.timer_on then
      Transmit(s.(retry := s.retry + 1, state := MhAwReply4))  // T9
    else s
  }

  function Greet(s: Mh): Mh {
    s.(state := MhStartup2,
       h := s.h.(greetings := s.h.greetings + [AccessCnf(false, s.cycbyte, NoError)]))  // T2
  }

  function Sm(s: Mh): Mh {
    match s.state
    case MhInactive0 => s
    case MhAwReply1 => Greet(s)
    case MhStartup2 => Startup2(s)
    case MhResponse3 => AwaitReply4(s.(state := MhAwReply4))
    case MhAwReply4 => AwaitReply4(s)
    case MhErrorHandling5 => ErrorHandling5(s)
    case MhBeyondStartup => s
  }

  function Refuse(s: Mh, a: Access, status: Status): Mh {
    s.(h := s.h.(refused := s.h.refused + [AccessCnf(a.write, 0, status)]))
  }

  function ReadWriteReq(s: Mh, a: Access): Mh {
    if s.state != MhStartup2 then Refuse(s, a, StateConflict)
    else if a.address > 15 then Refuse(s, a, ValueOutOfRange)
    else if !a.write && a.address == MIN_CYCL && s.first_read_min_cycl then
      // The transceiver has read MIN_CYCL already, while waking the device up.
      s.(first_read_min_cycl := false,
         h := s.h.(accepted := s.h.accepted + [a], confirmed := s.h.confirmed + [AccessCnf(false, s.cycbyte, NoError)]))
    else
      s.(tx := a, rwcmd := if a.write then RwWrite else RwRead,
         h := s.h.(accepted := s.h.accepted + [a], sent := [],
                   overrun := s.h.overrun + (if Outstanding(s) then 1 else 0)))
  }

  /** DL_ReadParam_req, DL_WriteParam_req and DL_ISDUTransport_req put their own
      command in the place of an access that is under way. */
  function Overrun(s: Mh, rwcmd: RwCmd): Mh {
    s.(rwcmd := rwcmd, h := s.h.(overrun := s.h.overrun + (if Outstanding(s) then 1 else 0)))
  }

  function DataReceived(s: Mh, rx: byte): Mh {
    Sm(s.(rx := rx, dataready := true)).(dataready := false)
  }

  function LineError(s: Mh): Mh {
    Sm(s.(line_error := true)).(line_error := false)
  }

  function TimerTimeout(s: Mh): Mh {
    (if s.timer_on then Sm(s.(timer_elapsed := true)).(timer_elapsed := false) else s).(timer_on := false)
  }

  datatype MhInput =
    | Request(a: Access)
    | OtherCommand(rwcmd: RwCmd)
    | Data(rx: byte)
    | Error
    | Timeout
    | MhEvent
    | Conf(cmd: MhCmd)
    | WokenUp(cycbyte: byte)

  function MhStep(s: Mh, i: MhInput): Mh {
    match i
    case Request(a) => ReadWriteReq(s, a)
    case OtherCommand(c) => if c == RwRead || c == RwWrite then s else Overrun(s, c)
    case Data(rx) => DataReceived(s, rx)
    case Error => LineError(s)
    case Timeout => TimerTimeout(s)
    case MhEvent => Sm(s)
    case Conf(cmd) => Sm(s.(mhcmd := cmd))
    case WokenUp(cycbyte) => Sm(s.(cycbyte := cycbyte, state := MhAwReply1))
  }

  function MhRun(s: Mh, inputs: seq<MhInput>): Mh {
    if inputs == [] then s
    else MhStep(MhRun(s, inputs[..|inputs| - 1]), inputs[|inputs| - 1])
  }

  // ---------- how an access is taken up ----------

  /** An access is taken up in STARTUP_2 for the addresses 0 to 15 and refused with the
      reason otherwise, whatever is under way. The first read of MIN_CYCL is answered
      at once from the wake-up, and only the first; no message is sent for it. */
  lemma AccessTakenUpIff(s: Mh, a: Access)
    ensures var t := MhStep(s, Request(a));
            if s.state != MhStartup2 || a.address > 15 then
              t == s.(h := s.h.(refused := s.h.refused
                + [AccessCnf(a.write, 0, if s.state != MhStartup2 then StateConflict else ValueOutOfRange)]))
            else if !a.write && a.address == 2 && s.first_read_min_cycl then
              && t.h.confirmed == s.h.confirmed + [AccessCnf(false, s.cycbyte, NoError)]
              && !t.first_read_min_cycl && t.rwcmd == s.rwcmd && t.h.sent == s.h.sent
            else
              t.tx == a && t.rwcmd == (if a.write then RwWrite else RwRead) && t.h.confirmed == s.h.confirmed
  {
  }

  /** A wake-up is told with the cycle time the transceiver has read, and opens
      STARTUP_2. */
  lemma WakeUpTold(s: Mh, cycbyte: byte)
    ensures var t := MhStep(s, WokenUp(cycbyte));
            t.state == MhStartup2 && t.h.greetings == s.h.greetings + [AccessCnf(false, cycbyte, NoError)]
  {
  }

  // ---------- one confirmation for each accepted access ----------

  function Waiting(s: Mh): nat {
    if Outstanding(s) then 1 else 0
  }

  predicate InTransfer(s: Mh) {
    s.state == MhResponse3 || s.state == MhAwReply4 || s.state == MhErrorHandling5
  }

  predicate Counted(s: Mh) {
    |s.h.accepted| == |s.h.confirmed| + s.h.overrun + Waiting(s)
  }

  lemma AnswerCounted(s: Mh, value: byte, status: Status)
    requires Counted(s)
    ensures Counted(Answer(s, value, status))
  {
  }

  lemma AwaitReplyCounted(s: Mh)
    requires Counted(s)
    ensures Counted(AwaitReply4(s))
  {
    AnswerCounted(s.(state := MhStartup2), s.rx, NoError);
  }

  lemma ErrorHandlingCounted(s: Mh)
    requires Counted(s)
    ensures Counted(ErrorHandling5(s))
  {
    AnswerCounted(s.(timer_on := false, com_lost := true, state := MhInactive0), 0, NoComm);
  }

  lemma StartupCounted(s: Mh)
    requires Counted(s)
    ensures Counted(Startup2(s))
  {
  }

  lemma CountedSm(s: Mh)
    requires Counted(s)
    ensures Counted(Sm(s))
  {
    match s.state
    case MhStartup2 => StartupCounted(s);
    case MhResponse3 => AwaitReplyCounted(s.(state := MhAwReply4));
    case MhAwReply4 => AwaitReplyCounted(s);
    case MhErrorHandling5 => ErrorHandlingCounted(s);
    case _ =>
  }

  lemma RequestCounted(s: Mh, a: Access)
    requires Counted(s)
    ensures Counted(ReadWriteReq(s, a))
  {
    if s.state != MhStartup2 || a.address > 15 {
    } else if !a.write && a.address == MIN_CYCL && s.first_read_min_cycl {
    } else {
    }
  }

  lemma OverrunCounted(s: Mh, c: RwCmd)
    requires Counted(s) && c != RwRead && c != RwWrite
    ensures Counted(Overrun(s, c))
  {
  }

  lemma DataCounted(s: Mh, rx: byte)
    requires Counted(s)
    ensures Counted(DataReceived(s, rx))
  {
    CountedSm(s.(rx := rx, dataready := true));
  }

  lemma TimeoutCounted(s: Mh)
    requires Counted(s)
    ensures Counted(TimerTimeout(s))
  {
    CountedSm(s.(timer_elapsed := true));
  }

  lemma CountedStep(s: Mh, i: MhInput)
    requires Counted(s)
    ensures Counted(MhStep(s, i))
  {
    match i
    case Request(a) => RequestCounted(s, a);
    case OtherCommand(c) => if c != RwRead && c != RwWrite { OverrunCounted(s, c); }
    case Data(rx) => DataCounted(s, rx);
    case Error => CountedSm(s.(line_error := true));
    case Timeout => TimeoutCounted(s);
    case MhEvent => CountedSm(s);
    case Conf(cmd) => CountedSm(s.(mhcmd := cmd));
    case WokenUp(cycbyte) => CountedSm(s.(cycbyte := cycbyte, state := MhAwReply1));
  }

  /** The input puts its own command in the place of an access that still waits:
      another accepted access, other than the MIN_CYCL read that is answered at
      once, or one of the other services. */
  predicate Overruns(s: Mh, i: MhInput) {
    Outstanding(s)
    && match i
       case Request(a) =>
         s.state == MhStartup2 && a.address <= 15
         && !(!a.write && a.address == MIN_CYCL && s.first_read_min_cycl)
       case OtherCommand(c) => c != RwRead && c != RwWrite
       case _ => false
  }

  /** No input of the run overran an access. */
  predicate NeverOverrun(s: Mh, inputs: seq<MhInput>) {
    inputs == []
    || (NeverOverrun(s, inputs[..|inputs| - 1])
        && !Overruns(MhRun(s, inputs[..|inputs| - 1]), inputs[|inputs| - 1]))
  }

  lemma AnswerOverrun(s: Mh, value: byte, status: Status)
    ensures Answer(s, value, status).h.overrun == s.h.overrun
  {
  }

  lemma SmOverrun(s: Mh)
    ensures Sm(s).h.overrun == s.h.overrun
  {
    AnswerOverrun(s.(state := MhStartup2), s.rx, NoError);
    AnswerOverrun(s.(timer_on := false, com_lost := true, state := MhInactive0), 0, NoComm);
    match s.state
    case MhStartup2 => if s.mhcmd == McPreoperate || s.mhcmd == McOperate { } else if Outstanding(s) { }
    case MhResponse3 => if s.dataready { } else if s.line_error { }
    case MhAwReply4 => if s.dataready { } else if s.line_error { }
    case MhErrorHandling5 => if s.retry >= MAX_RETRY { } else if s.timer_elapsed && s.timer_on { }
    case _ =>
  }

  lemma RequestOverrun(s: Mh, a: Access)
    ensures ReadWriteReq(s, a).h.overrun == s.h.overrun + (if Overruns(s, Request(a)) then 1 else 0)
  {
    if s.state != MhStartup2 || a.address > 15 {
    } else if !a.write && a.address == MIN_CYCL && s.first_read_min_cycl {
    } else {
    }
  }

  lemma StepOverrun(s: Mh, i: MhInput)
    ensures MhStep(s, i).h.overrun == s.h.overrun + (if Overruns(s, i) then 1 else 0)
  {
    match i
    case Request(a) => RequestOverrun(s, a);
    case OtherCommand(c) =>
    case _ => SignalOverrun(s, i);
  }

  lemma SignalOverrun(s: Mh, i: MhInput)
    requires !i.Request? && !i.OtherCommand?
    ensures MhStep(s, i).h.overrun == s.h.overrun
  {
    match i
    case Data(rx) => SmOverrun(s.(rx := rx, dataready := true));
    case Error => SmOverrun(s.(line_error := true));
    case Timeout => if s.timer_on { SmOverrun(s.(timer_elapsed := true)); }
    case MhEvent => SmOverrun(s);
    case Conf(cmd) => SmOverrun(s.(mhcmd := cmd));
    case WokenUp(cycbyte) => SmOverrun(s.(cycbyte := cycbyte, state := MhAwReply1));
  }

  /** Over every run, with any interleaving of requests, replies, line errors,
      timeouts, mode changes and wake-ups: acceptance and confirmation balance if
      and only if no request or command came while an access was waiting. */
  lemma {:induction false} AcceptedAreConfirmedUnlessOverrun(s: Mh, inputs: seq<MhInput>)
    requires Counted(s) && s.h.overrun == 0
    ensures Counted(MhRun(s, inputs))
    ensures var t := MhRun(s, inputs);
            && (t.h.overrun == 0 <==> NeverOverrun(s, inputs))
            && (|t.h.accepted| == |t.h.confirmed| + Waiting(t) <==> NeverOverrun(s, inputs))
  {
    if inputs != [] {
      var init, i := inputs[..|inputs| - 1], inputs[|inputs| - 1];
      AcceptedAreConfirmedUnlessOverrun(s, init);
      CountedStep(MhRun(s, init), i);
      StepOverrun(MhRun(s, init), i);
    }
  }

  lemma OvertakenStep(s: Mh, i: MhInput)
    requires s.state == MhBeyondStartup && !i.WokenUp?
    ensures MhStep(s, i).state == MhBeyondStartup && MhStep(s, i).h.confirmed == s.h.confirmed
  {
    match i
    case Request(a) => assert ReadWriteReq(s, a) == Refuse(s, a, StateConflict);
    case Timeout => if s.timer_on { StaysBeyond(s.(timer_elapsed := true)); }
    case Data(rx) => StaysBeyond(s.(rx := rx, dataready := true));
    case Error => StaysBeyond(s.(line_error := true));
    case MhEvent => StaysBeyond(s);
    case Conf(cmd) => StaysBeyond(s.(mhcmd := cmd));
    case OtherCommand(c) =>
  }

  lemma StaysBeyond(s: Mh)
    requires s.state == MhBeyondStartup
    ensures Sm(s) == s
  {
  }

  /** An access accepted in STARTUP_2 and overtaken there by the mode handler's
      command is confirmed by nothing that comes before the next wake-up. */
  lemma {:induction false} OvertakenIsNeverConfirmed(s: Mh, cmd: MhCmd, inputs: seq<MhInput>)
    requires s.state == MhStartup2 && (cmd == McPreoperate || cmd == McOperate)
    requires forall k :: 0 <= k < |inputs| ==> !inputs[k].WokenUp?
    ensures var t := MhRun(MhStep(s, Conf(cmd)), inputs);
            t.state == MhBeyondStartup && t.h.confirmed == s.h.confirmed
  {
    if inputs != [] {
      OvertakenIsNeverConfirmed(s, cmd, inputs[..|inputs| - 1]);
      OvertakenStep(MhRun(MhStep(s, Conf(cmd)), inputs[..|inputs| - 1]), inputs[|inputs| - 1]);
    }
  }

  /** System management waits for one confirmation before the next request, and
      nobody uses the other services before PREOPERATE. A wake-up follows a lost
      link, so it finds nothing outstanding. */
  predicate OneAtATime(s: Mh, i: MhInput) {
    match i
    case Request(a) => !Outstanding(s)
    case OtherCommand(c) => false
    case WokenUp(_) => !Outstanding(s)
    case _ => true
  }

  predicate OneAtATimeRun(s: Mh, inputs: seq<MhInput>) {
    inputs == []
    || (OneAtATimeRun(s, inputs[..|inputs| - 1])
        && OneAtATime(MhRun(s, inputs[..|inputs| - 1]), inputs[|inputs| - 1]))
  }

  /** The confirmations answer the accepted accesses one for one and in order,
      a read with a read confirmation and a write with a write confirmation. */
  predicate Paired(h: History) {
    && |h.confirmed| <= |h.accepted| <= |h.confirmed| + 1
    && (forall k :: 0 <= k < |h.confirmed| ==> h.confirmed[k].write == h.accepted[k].write)
  }

  /** Everything sent for the outstanding access is that access. */
  predicate SentIsRequest(s: Mh) {
    && s.h.accepted != [] && s.tx == s.h.accepted[|s.h.accepted| - 1]
    && (forall k :: 0 <= k < |s.h.sent| ==> s.h.sent[k] == s.tx)
    && (s.rwcmd == RwWrite <==> s.tx.write)
  }

  predicate StartupInv(s: Mh) {
    && Counted(s) && s.h.overrun == 0 && Paired(s.h)
    && (Outstanding(s) || s.rwcmd == RwNone)
    && (Outstanding(s) ==> SentIsRequest(s))
    && (Outstanding(s) && s.state == MhStartup2 ==> s.h.sent == [])
    && (InTransfer(s) ==> Outstanding(s) && s.retry <= MAX_RETRY && |s.h.sent| == s.retry + 1)
    && (s.state == MhInactive0 || s.state == MhAwReply1 ==> !Outstanding(s))
    && |s.h.sent| <= MAX_RETRY + 1
  }

  lemma AwaitReplyKeeps(s: Mh)
    requires StartupInv(s) && s.state == MhAwReply4
    ensures StartupInv(AwaitReply4(s))
  {
  }

  lemma ErrorHandlingKeeps(s: Mh)
    requires StartupInv(s) && s.state == MhErrorHandling5
    ensures StartupInv(ErrorHandling5(s))
  {
  }

  lemma Startup2Keeps(s: Mh)
    requires StartupInv(s) && s.state == MhStartup2
    ensures StartupInv(Startup2(s))
  {
    if s.mhcmd == McPreoperate || s.mhcmd == McOperate {
    } else if Outstanding(s) {
      assert Startup2(s).h.sent == [s.tx];
    }
  }

  lemma StartupSm(s: Mh)
    requires StartupInv(s)
    ensures StartupInv(Sm(s))
  {
    match s.state
    case MhStartup2 => Startup2Keeps(s);
    case MhResponse3 => AwaitReplyKeeps(s.(state := MhAwReply4));
    case MhAwReply4 => AwaitReplyKeeps(s);
    case MhErrorHandling5 => ErrorHandlingKeeps(s);
    case _ =>
  }

  lemma RequestKeeps(s: Mh, a: Access)
    requires StartupInv(s) && !Outstanding(s)
    ensures StartupInv(ReadWriteReq(s, a))
  {
    if s.state != MhStartup2 || a.address > 15 {
    } else if !a.write && a.address == MIN_CYCL && s.first_read_min_cycl {
    } else {
    }
  }

  lemma TimeoutKeeps(s: Mh)
    requires StartupInv(s)
    ensures StartupInv(TimerTimeout(s))
  {
    if s.timer_on {
      StartupSm(s.(timer_elapsed := true));
      TimerTaken(Sm(s.(timer_elapsed := true)));
    } else {
      TimerTaken(s);
    }
  }

  lemma TimerTaken(s: Mh)
    requires StartupInv(s)
    ensures StartupInv(s.(timer_elapsed := false, timer_on := false)) && StartupInv(s.(timer_on := false))
  {
  }

  lemma DataKeeps(s: Mh, rx: byte)
    requires StartupInv(s)
    ensures StartupInv(DataReceived(s, rx))
  {
    StartupSm(s.(rx := rx, dataready := true));
  }

  lemma ErrorKeeps(s: Mh)
    requires StartupInv(s)
    ensures StartupInv(LineError(s))
  {
    StartupSm(s.(line_error := true));
  }

  lemma StartupStep(s: Mh, i: MhInput)
    requires StartupInv(s) && OneAtATime(s, i)
    ensures StartupInv(MhStep(s, i))
  {
    match i
    case Request(a) => RequestKeeps(s, a);
    case Data(rx) => DataKeeps(s, rx);
    case Error => ErrorKeeps(s);
    case Timeout => TimeoutKeeps(s);
    case MhEvent => StartupSm(s);
    case Conf(cmd) => StartupSm(s.(mhcmd := cmd));
    case WokenUp(cycbyte) => StartupSm(s.(cycbyte := cycbyte, state := MhAwReply1));
  }

  /** With one access at a time: `rwcmd` is set exactly while an access is
      outstanding; each is confirmed at most once and in order, exactly once
      whenever the handler is back in STARTUP_2 and has not accepted another, or
      has declared the link lost; and its message goes out at most three times. */
  lemma {:induction false} StartupRetry(s: Mh, inputs: seq<MhInput>)
    requires StartupInv(s) && OneAtATimeRun(s, inputs)
    ensures StartupInv(MhRun(s, inputs))
    ensures var t := MhRun(s, inputs);
            && (t.rwcmd != RwNone <==> |t.h.accepted| == |t.h.confirmed| + 1)
            && (t.rwcmd == RwNone <==> |t.h.accepted| == |t.h.confirmed|)
            && (t.state == MhInactive0 ==> |t.h.accepted| == |t.h.confirmed|)
            && |t.h.sent| <= 1 + MAX_RETRY
  {
    if inputs != [] {
      StartupRetry(s, inputs[..|inputs| - 1]);
      StartupStep(MhRun(s, inputs[..|inputs| - 1]), inputs[|inputs| - 1]);
    }
  }

  /** The confirmation that ends the transfer of s, the last octet being rx. */
  function EndOf(s: Mh, rx: byte): AccessCnf {
    if s.state == MhErrorHandling5 then AccessCnf(s.tx.write, 0, NoComm)
    else AccessCnf(s.tx.write, if s.tx.write then 0 else rx, NoError)
  }

  lemma SmEndsConfirmed(s: Mh)
    requires StartupInv(s) && InTransfer(s) && !InTransfer(Sm(s))
    ensures var t := Sm(s);
            && t.rwcmd == RwNone && t.h.confirmed == s.h.confirmed + [EndOf(s, s.rx)]
            && (if s.state == MhErrorHandling5 then t.state == MhInactive0 && t.com_lost && |s.h.sent| == 1 + MAX_RETRY
                else t.state == MhStartup2 && s.dataready)
  {
    match s.state
    case MhResponse3 => if s.dataready { }
    case MhAwReply4 => if s.dataready { }
    case _ => if s.retry >= MAX_RETRY { }
  }

  /** A failed message is repeated when the timer has run: the access goes out again, up
      to three times in all; after the third failure the link is given up and the access
      confirmed with NO_COMM. */
  lemma FailureIsRepeated(s: Mh)
    requires StartupInv(s) && (s.state == MhResponse3 || s.state == MhAwReply4) && !s.dataready
    ensures var t := MhStep(MhStep(s, Error), Timeout);
            if |s.h.sent| < 3 then
              t.state == MhAwReply4 && t.h.sent == s.h.sent + [s.tx] && t.h.confirmed == s.h.confirmed
            else
              && t.state == MhInactive0 && t.com_lost && t.h.sent == s.h.sent
              && t.h.confirmed == s.h.confirmed + [AccessCnf(s.tx.write, 0, NoComm)]
  {
    FailureNoticed(s);
    FailureTimed(MhStep(s, Error));
  }

  lemma FailureNoticed(s: Mh)
    requires StartupInv(s) && (s.state == MhResponse3 || s.state == MhAwReply4) && !s.dataready
    ensures var t := MhStep(s, Error);
            && t.state == MhErrorHandling5 && t.timer_on && !t.timer_elapsed && StartupInv(t)
            && t.tx == s.tx && t.h == s.h
  {
    ErrorKeeps(s);
  }

  lemma FailureTimed(s: Mh)
    requires StartupInv(s) && s.state == MhErrorHandling5 && s.timer_on
    ensures var t := MhStep(s, Timeout);
            if |s.h.sent| < 3 then
              t.state == MhAwReply4 && t.h.sent == s.h.sent + [s.tx] && t.h.confirmed == s.h.confirmed
            else
              && t.state == MhInactive0 && t.com_lost && t.h.sent == s.h.sent
              && t.h.confirmed == s.h.confirmed + [AccessCnf(s.tx.write, 0, NoComm)]
  {
  }

  lemma TimerEndsConfirmed(s: Mh)
    requires StartupInv(s) && InTransfer(s) && !InTransfer(TimerTimeout(s)) && !s.dataready
    ensures var t := TimerTimeout(s);
            && t.rwcmd == RwNone && t.h.confirmed == s.h.confirmed + [EndOf(s, t.rx)]
            && s.state == MhErrorHandling5 && t.state == MhInactive0 && t.com_lost && |s.h.sent| == 1 + MAX_RETRY
  {
    assert s.timer_on;
    SmEndsConfirmed(s.(timer_elapsed := true));
  }

  /** A transfer ends only by confirming its access: back in STARTUP_2 with
      NO_ERROR, or in INACTIVE_0 with NO_COMM after the third failure. */
  lemma TransferEndsConfirmed(s: Mh, i: MhInput)
    requires StartupInv(s) && InTransfer(s) && OneAtATime(s, i) && !InTransfer(MhStep(s, i))
    requires !s.dataready
    ensures var t := MhStep(s, i);
            && t.rwcmd == RwNone && t.h.confirmed == s.h.confirmed + [EndOf(s, t.rx)]
            && (if s.state == MhErrorHandling5 then t.state == MhInactive0 && t.com_lost && |s.h.sent| == 1 + MAX_RETRY
                else t.state == MhStartup2 && i.Data? && t.rx == i.rx)
  {
    match i
    case Request(a) =>
    case Data(rx) => SmEndsConfirmed(s.(rx := rx, dataready := true));
    case Error => SmEndsConfirmed(s.(line_error := true));
    case Timeout => TimerEndsConfirmed(s);
    case MhEvent => SmEndsConfirmed(s);
    case Conf(cmd) => SmEndsConfirmed(s.(mhcmd := cmd));
  }

  // ---------- the handler ----------

  class MessageHandler {
    var state: MhState
    var rwcmd: RwCmd
    var retry: nat
    var mhcmd: MhCmd
    var dataready: bool
    var line_error: bool
    var timer_elapsed: bool
    var timer_on: bool
    var first_read_min_cycl: bool
    var cycbyte: byte
    var com_lost: bool
    var rx: byte
    var tx: Access
    ghost var h: History

    ghost function View(): Mh
      reads this
    {
      Mh(state, rwcmd, retry, mhcmd, dataready, line_error, timer_elapsed, timer_on,
         first_read_min_cycl, cycbyte, com_lost, rx, tx, h)
    }

    constructor (cycletime: byte)
      ensures StartupInv(View())
    {
      state, rwcmd, retry, mhcmd := MhInactive0, RwNone, 0, McInactive;
      dataready, line_error, timer_elapsed, timer_on := false, false, false, false;
      first_read_min_cycl, cycbyte, com_lost := true, cycletime, false;
      rx, tx := 0, Access(false, 0, 0);
      h := History([], [], [], [], 0, []);
    }

    /** DL_Read_cnf or DL_Write_cnf, with the command taken back first. */
    method Confirm(value: byte, status: Status)
      modifies this
      ensures View() == Answer(old(View()), value, status)
    {
      if rwcmd == RwRead {
        rwcmd := RwNone;
        h := h.(confirmed := h.confirmed + [AccessCnf(false, value, status)]);
      } else if rwcmd == RwWrite {
        rwcmd := RwNone;
        h := h.(confirmed := h.confirmed + [AccessCnf(true, 0, status)]);
      }
    }

    method Startup2Sm()
      modifies this
      ensures View() == Startup2(old(View()))
    {
      if mhcmd == McPreoperate {
        state := MhBeyondStartup;
      } else if mhcmd == McOperate {
        timer_on, timer_elapsed := true, false;
        state := MhBeyondStartup;
      } else if rwcmd == RwRead || rwcmd == RwWrite {
        retry, dataready := 0, false;
        h := h.(sent := h.sent + [tx]);
        state := MhResponse3;
      }
    }

    method AwaitReply4Sm()
      modifies this
      ensures View() == AwaitReply4(old(View()))
    {
      if dataready {
        state := MhStartup2;
        Confirm(rx, NoError);
      } else if line_error {
        timer_on, timer_elapsed := true, false;
        state := MhErrorHandling5;
      }
    }

    method ErrorHandling5Sm()
      modifies this
      ensures View() == ErrorHandling5(old(View()))
    {
      if retry >= MAX_RETRY {
        timer_on, com_lost := false, true;
        state := MhInactive0;
        Confirm(0, NoComm);
      } else if timer_elapsed && timer_on {
        h := h.(sent := h.sent + [tx]);
        retry := retry + 1;
        state := MhAwReply4;
      }
    }

    method MessageSm()
      modifies this
      ensures View() == Sm(old(View()))
    {
      match state
      case MhAwReply1 =>
        state := MhStartup2;
        h := h.(greetings := h.greetings + [AccessCnf(false, cycbyte, NoError)]);
      case MhStartup2 => Startup2Sm();
      case MhResponse3 =>
        state := MhAwReply4;
        AwaitReply4Sm();
      case MhAwReply4 => AwaitReply4Sm();
      case MhErrorHandling5 => ErrorHandling5Sm();
      case _ =>
    }

    /** DL_Read_req and DL_Write_req. */
    method AccessReq(a: Access)
      modifies this
      ensures View() == ReadWriteReq(old(View()), a)
    {
      if state != MhStartup2 {
        h := h.(refused := h.refused + [AccessCnf(a.write, 0, StateConflict)]);
      } else if a.address > 15 {
        h := h.(refused := h.refused + [AccessCnf(a.write, 0, ValueOutOfRange)]);
      } else if !a.write && a.address == MIN_CYCL && first_read_min_cycl {
        first_read_min_cycl := false;
        h := h.(accepted := h.accepted + [a], confirmed := h.confirmed + [AccessCnf(false, cycbyte, NoError)]);
      } else {
        h := h.(accepted := h.accepted + [a], sent := [],
                overrun := h.overrun + (if rwcmd == RwRead || rwcmd == RwWrite then 1 else 0));
        tx := a;
        rwcmd := if a.write then RwWrite else RwRead;
      }
    }

    method HandleData(octet: byte)
      modifies this
      ensures View() == DataReceived(old(View()), octet)
    {
      rx, dataready := octet, true;
      MessageSm();
      dataready := false;
    }

    method HandleError()
      modifies this
      ensures View() == LineError(old(View()))
    {
      line_error := true;
      MessageSm();
      line_error := false;
    }

    method HandleTimerTimeout()
      modifies this
      ensures View() == TimerTimeout(old(View()))
    {
      if timer_on {
        timer_elapsed := true;
        MessageSm();
        timer_elapsed := false;
      }
      timer_on := false;
    }

    /** Another service takes the command word: DL_ReadParam_req, DL_WriteParam_req,
        DL_ISDUTransport_req. */
    method CommandWord(c: RwCmd)
      modifies this
      ensures View() == MhStep(old(View()), OtherCommand(c))
    {
      if c != RwRead && c != RwWrite {
        h := h.(overrun := h.overrun + (if rwcmd == RwRead || rwcmd == RwWrite then 1 else 0));
        rwcmd := c;
      }
    }

    /** iolink_dl_wurq_recv with a speed found. */
    method WakeUpReceived(cycletime: byte)
      modifies this
      ensures View() == MhStep(old(View()), WokenUp(cycletime))
    {
      cycbyte := cycletime;
      state := MhAwReply1;
      MessageSm();
    }

    /** The thread of the data link layer, one event after the other. */
    method Drive(inputs: seq<MhInput>)
      modifies this
      ensures View() == MhRun(old(View()), inputs)
    {
      var i := 0;
      assert inputs[..0] == [];
      while i < |inputs|
        invariant 0 <= i <= |inputs| && View() == MhRun(old(View()), inputs[..i])
      {
        assert inputs[..i + 1][..i] == inputs[..i];
        match inputs[i] {
          case Request(a) => AccessReq(a);
          case OtherCommand(c) => CommandWord(c);
          case Data(octet) => HandleData(octet);
          case Error => HandleError();
          case Timeout => HandleTimerTimeout();
          case MhEvent => MessageSm();
          case Conf(cmd) => MhConf(cmd);
          case WokenUp(cycletime) => WakeUpReceived(cycletime);
        }
        i := i + 1;
      }
      assert inputs[..|inputs|] == inputs;
    }

    /** So the retry theorem holds of the handler. */
    method DriveOneAtATime(inputs: seq<MhInput>)
      requires StartupInv(View()) && OneAtATimeRun(View(), inputs)
      modifies this
      ensures StartupInv(View())
      ensures rwcmd != RwNone <==> |h.accepted| == |h.confirmed| + 1
      ensures state == MhInactive0 ==> |h.accepted| == |h.confirmed|
      ensures |h.sent| <= 1 + MAX_RETRY
    {
      StartupRetry(View(), inputs);
      Drive(inputs);
    }

    method MhConf(cmd: MhCmd)
      modifies this
      ensures View() == MhStep(old(View()), Conf(cmd))
    {
      mhcmd := cmd;
      MessageSm();
    }
  }
}
