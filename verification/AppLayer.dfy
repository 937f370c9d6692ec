/**
 * The on-request half of the application layer: one request at a time goes down
 * to the data link layer and is confirmed through its own callback; what comes
 * in between is turned away.
 */
module AppLayer {
  import opened Bytes
  import opened IsduCodec
  import opened DlModel

  datatype AlOdState = OnReqIdle | BuildDlService | AwaitDlParamCnf | AwaitDlIsduCnf

  datatype AlEvent =
    | AlNone | AlService | AlArgErr | AlParamRead | AlParamWrite1 | AlIsduRead | AlIsduWrite
    | AlAbort | AlReadParamCnf | AlWriteParamCnf | AlIsduCnf | AlAbortPort

  const SMI_NONE: nat := 0x0000
  const SMI_APP_DEV: nat := 0x8000
  const SMI_COM_ERR: nat := 0x1000
  const SMI_I_SERVICE_TIMEOUT: nat := 0x1100
  const SMI_M_ISDU_CHECKSUM: nat := 0x5600
  const SMI_M_ISDU_ILLEGAL: nat := 0x5700
  const SMI_SERVICE_TEMP_UNAVAILABLE: nat := 0x4036

  /** AL_Read_req or AL_Write_req; `cb` names the callback to confirm through. */
  datatype AlRequest = AlRequest(read: bool, index: nat, subindex: byte, data: seq<byte>, cb: nat)

  /** A call of a callback, as a read or as a write confirmation. */
  datatype AlCnf = AlCnf(read: bool, cb: nat, data: seq<byte>, error: nat)

  datatype Service = Service(
    index: nat, subindex: byte, read: bool, data_read: IsduBuffer, data_write: seq<byte>, data_len: nat,
    errinfo: Status, qualifier: nat, cb: nat)

  /** What was handed to the data link layer. */
  datatype DlRequest =
    | ReadParam(address: nat)
    | WriteParam(waddress: nat, value: byte)
    | Isdu(read: bool, index: nat, subindex: byte, data: seq<byte>)

  /** History: requests taken on and turned away, their confirmations, and the
      requests to the data link layer. */
  datatype AlHistory = AlHistory(
    accepted: seq<AlRequest>, confirmed: seq<AlCnf>, busy: seq<AlRequest>, rejected: seq<AlCnf>, dl: seq<DlRequest>)

  datatype Al = Al(od: AlOdState, job: AlRequest, sv: Service, h: AlHistory)

  // ---------- error types ----------

  function StatusError(stat: Status): nat {
    match stat
    case NoError => SMI_NONE
    case IllegalServicePrimitive => SMI_M_ISDU_ILLEGAL
    case Invalid => SMI_COM_ERR
    case IsduChecksumError => SMI_M_ISDU_CHECKSUM
    case IsduTimeout => SMI_I_SERVICE_TIMEOUT
    case _ => SMI_APP_DEV
  }

  /** The code a negative response carries, if it is two octets. */
  function DeviceError(sv: Service): nat {
    if sv.data_len == 2 then U16(sv.data_read[0], sv.data_read[1]) else SMI_APP_DEV
  }

  function QualifierError(sv: Service): nat {
    if sv.errinfo == IsduChecksumError then SMI_M_ISDU_CHECKSUM
    else if sv.read then
      if sv.qualifier == READ_RESPONSE_NEG then DeviceError(sv)
      else if sv.qualifier == READ_RESPONSE_POS then SMI_NONE
      else SMI_APP_DEV
    else if sv.qualifier == WRITE_RESPONSE_NEG then DeviceError(sv)
    else if sv.qualifier == DEVICE_NO_SERVICE && sv.errinfo == NoError then SMI_COM_ERR
    else SMI_NONE
  }

  function ErrorType(sv: Service, is_isdu: bool): nat {
    var error := if is_isdu then QualifierError(sv) else SMI_NONE;
    if error == SMI_NONE then StatusError(sv.errinfo) else error
  }

  // ---------- actions ----------

  datatype AlOutcome = AlOutcome(s: Al, next: AlEvent)

  function Deliver(s: Al, c: AlCnf): Al {
    s.(h := s.h.(confirmed := s.h.confirmed + [c]))
  }

  function ReadData(sv: Service): seq<byte> {
    Window(sv.data_read, 0, sv.data_len)
  }

  function SendAlCnf(s: Al, e: AlEvent): Al {
    var sv := s.sv;
    match e
    case AlReadParamCnf => Deliver(s, AlCnf(true, sv.cb, ReadData(sv), ErrorType(sv, false)))
    case AlWriteParamCnf => Deliver(s, AlCnf(false, sv.cb, [], ErrorType(sv, false)))
    case AlIsduCnf =>
      Deliver(s, if sv.read then AlCnf(true, sv.cb, ReadData(sv), ErrorType(sv, true))
                 else AlCnf(false, sv.cb, [], ErrorType(sv, true)))
    case _ => Deliver(s, AlCnf(sv.read, sv.cb, [], ErrorType(sv, false)))
  }

  /** The job's own callback is told to come again; nothing else changes. */
  function Busy(s: Al): Al {
    s.(h := s.h.(busy := s.h.busy + [s.job],
                 rejected := s.h.rejected + [AlCnf(s.job.read, s.job.cb, [], SMI_SERVICE_TEMP_UNAVAILABLE)]))
  }

  function ServiceEvent(q: AlRequest): AlEvent {
    if q.read then (if q.index <= 1 then AlParamRead else AlIsduRead)
    else if q.index == 1 then AlParamWrite1
    else if q.index >= 2 then AlIsduWrite
    else AlArgErr
  }

  function BuildService(s: Al): AlOutcome {
    var q, e := s.job, ServiceEvent(s.job);
    var sv := s.sv.(index := q.index, subindex := q.subindex, read := q.read, cb := q.cb,
                    data_len := if q.read then 0 else |q.data|,
                    data_write := if q.read then s.sv.data_write else q.data,
                    errinfo := if e == AlArgErr then ParameterConflict else s.sv.errinfo);
    AlOutcome(s.(sv := sv, h := s.h.(accepted := s.h.accepted + [q])), e)
  }

  function CallDl(s: Al, r: DlRequest): Al {
    s.(h := s.h.(dl := s.h.dl + [r]))
  }

  function Transfer(s: Al, e: AlEvent): Al {
    var sv := s.sv;
    match e
    case AlParamRead => CallDl(s, ReadParam(sv.index))
    case AlParamWrite1 => CallDl(s, WriteParam(sv.index, if sv.data_write == [] then 0 else sv.data_write[0]))
    case _ => CallDl(s, Isdu(e == AlIsduRead, sv.index, sv.subindex, if e == AlIsduRead then [] else sv.data_write))
  }

  // ---------- the machine ----------

  /** One pass of the event loop; an event the state does not know ends it. */
  function AlFire(s: Al, e: AlEvent): AlOutcome {
    match (s.od, e)
    case (OnReqIdle, AlService) => BuildService(s.(od := BuildDlService))  // T1
    case (OnReqIdle, AlAbortPort) => AlOutcome(s, AlNone)  // T17
    case (BuildDlService, AlArgErr) => AlOutcome(SendAlCnf(s.(od := OnReqIdle), e), AlNone)  // T2, T16
    case (BuildDlService, AlParamRead) => AlOutcome(Transfer(s.(od := AwaitDlParamCnf), e), AlNone)  // T3
    case (BuildDlService, AlParamWrite1) => AlOutcome(Transfer(s.(od := AwaitDlParamCnf), e), AlNone)  // T4
    case (BuildDlService, AlIsduRead) => AlOutcome(Transfer(s.(od := AwaitDlIsduCnf), e), AlNone)  // T6
    case (BuildDlService, AlIsduWrite) => AlOutcome(Transfer(s.(od := AwaitDlIsduCnf), e), AlNone)  // T7
    case (AwaitDlParamCnf, AlService) => AlOutcome(Busy(s), AlNone)  // T8
    case (AwaitDlParamCnf, AlAbort) => AlOutcome(SendAlCnf(s.(od := OnReqIdle), e), AlNone)  // T9
    case (AwaitDlParamCnf, AlReadParamCnf) => AlOutcome(SendAlCnf(s.(od := OnReqIdle), e), AlNone)  // T13
    case (AwaitDlParamCnf, AlWriteParamCnf) => AlOutcome(SendAlCnf(s.(od := OnReqIdle), e), AlNone)  // T14
    case (AwaitDlIsduCnf, AlAbort) => AlOutcome(SendAlCnf(s.(od := OnReqIdle), e), AlNone)  // T11
    case (AwaitDlIsduCnf, AlService) => AlOutcome(Busy(s), AlNone)  // T12
    case (AwaitDlIsduCnf, AlIsduCnf) => AlOutcome(SendAlCnf(s.(od := OnReqIdle), e), AlNone)  // T15
    case _ => AlOutcome(s, AlNone)
  }

  function AlHandle(s: Al, e: AlEvent): Al
    decreases if e == AlService then 1 else 0
  {
    var o := AlFire(s, e);
    if o.next == AlNone then o.s else AlHandle(o.s, o.next)
  }

  // ---------- jobs ----------

  datatype AlInput =
    | Ask(q: AlRequest)
    | AbortRequest
    | ReadParamConfirmed(value: byte, rstat: Status)
    | WriteParamConfirmed(wstat: Status)
    | IsduConfirmed(data: Option<seq<byte>>, qualifier: nat, stat: Status)

  /** DL_ISDUTransport_cnf keeps the data of a good read or a refused write. */
  function KeepData(sv: Service, data: Option<seq<byte>>, qualifier: nat, stat: Status): Service {
    if (if sv.read then stat == NoError else qualifier == WRITE_RESPONSE_NEG)
       && data.Some? && |data.value| <= ISDU_MAX_SIZE
    then sv.(data_read := Overwrite(sv.data_read, 0, data.value), data_len := |data.value|)
    else sv
  }

  function AlStep(s: Al, i: AlInput): Al {
    match i
    case Ask(q) => AlHandle(s.(job := q), AlService)
    case AbortRequest =>
      AlHandle(s.(sv := s.sv.(errinfo := IsduAborted, data_len := 0)), if s.od == OnReqIdle then AlAbortPort else AlAbort)
    case ReadParamConfirmed(value, stat) =>
      AlHandle(s.(sv := s.sv.(data_read := Overwrite(s.sv.data_read, s.sv.data_len, [value]),
                              data_len := s.sv.data_len + 1, errinfo := stat)), AlReadParamCnf)
    case WriteParamConfirmed(stat) => AlHandle(s.(sv := s.sv.(errinfo := stat)), AlWriteParamCnf)
    case IsduConfirmed(data, qualifier, stat) =>
      var sv := KeepData(s.sv, data, qualifier, stat);
      AlHandle(s.(sv := sv.(errinfo := stat, qualifier := qualifier)), AlIsduCnf)
  }

  function AlRun(s: Al, inputs: seq<AlInput>): Al {
    if inputs == [] then s else AlStep(AlRun(s, inputs[..|inputs| - 1]), inputs[|inputs| - 1])
  }

  // ---------- one confirmation for each request ----------

  predicate Awaiting(s: Al) {
    s.od == AwaitDlParamCnf || s.od == AwaitDlIsduCnf
  }

  function Pending(s: Al): nat {
    if Awaiting(s) then 1 else 0
  }

  /** The service in progress is the one accepted last. */
  predicate InProgress(s: Al) {
    && s.h.accepted != []
    && var q := s.h.accepted[|s.h.accepted| - 1];
       && s.sv.cb == q.cb && s.sv.read == q.read && s.sv.index == q.index && s.sv.subindex == q.subindex
       && (!q.read ==> s.sv.data_write == q.data)
       && (s.od == AwaitDlIsduCnf <==> q.index >= 2)
  }

  predicate AlInv(s: Al) {
    && s.od != BuildDlService
    && |s.h.accepted| == |s.h.confirmed| + Pending(s)
    && |s.h.busy| == |s.h.rejected|
    && (forall k :: 0 <= k < |s.h.confirmed| ==> s.h.confirmed[k].cb == s.h.accepted[k].cb)
    && (forall k :: 0 <= k < |s.h.busy| ==>
          s.h.rejected[k] == AlCnf(s.h.busy[k].read, s.h.busy[k].cb, [], SMI_SERVICE_TEMP_UNAVAILABLE))
    && (Awaiting(s) ==> InProgress(s))
  }

  /** Every request asks for exactly one outcome. */
  lemma AskHandled(s: Al, q: AlRequest)
    requires s.od == OnReqIdle
    ensures var b := BuildService(s.(od := BuildDlService, job := q));
            AlHandle(s.(job := q), AlService) == AlFire(b.s, b.next).s
  {
    var b := BuildService(s.(od := BuildDlService, job := q));
    assert AlFire(s.(job := q), AlService) == b;
    assert AlFire(b.s, b.next).next == AlNone;
  }

  lemma AskKeeps(s: Al, q: AlRequest)
    requires AlInv(s)
    ensures AlInv(AlStep(s, Ask(q)))
  {
    if s.od == OnReqIdle {
      AskHandled(s, q);
    } else {
      assert AlHandle(s.(job := q), AlService) == Busy(s.(job := q));
    }
  }

  lemma ConfirmKeeps(s: Al, e: AlEvent)
    requires AlInv(s) && e != AlService
    ensures AlInv(AlHandle(s, e))
  {
    assert AlFire(s, e).next == AlNone;
  }

  lemma AlStepKeeps(s: Al, i: AlInput)
    requires AlInv(s)
    ensures AlInv(AlStep(s, i))
  {
    match i
    case Ask(q) => AskKeeps(s, q);
    case AbortRequest =>
      ConfirmKeeps(s.(sv := s.sv.(errinfo := IsduAborted, data_len := 0)), if s.od == OnReqIdle then AlAbortPort else AlAbort);
    case ReadParamConfirmed(value, stat) =>
      ConfirmKeeps(s.(sv := s.sv.(data_read := Overwrite(s.sv.data_read, s.sv.data_len, [value]),
                                  data_len := s.sv.data_len + 1, errinfo := stat)), AlReadParamCnf);
    case WriteParamConfirmed(stat) => ConfirmKeeps(s.(sv := s.sv.(errinfo := stat)), AlWriteParamCnf);
    case IsduConfirmed(data, qualifier, stat) =>
      ConfirmKeeps(s.(sv := KeepData(s.sv, data, qualifier, stat).(errinfo := stat, qualifier := qualifier)), AlIsduCnf);
  }

  /** For every sequence of requests, aborts and confirmations of the data link
      layer: each request is confirmed exactly once, through its own callback and
      in order, except the one being awaited; each request that met a busy layer
      was turned away through its own callback. */
  lemma {:induction false} OneConfirmationPerRequest(s: Al, inputs: seq<AlInput>)
    requires AlInv(s)
    ensures AlInv(AlRun(s, inputs))
    ensures var t := AlRun(s, inputs);
            |t.h.accepted| + |t.h.busy| == |t.h.confirmed| + |t.h.rejected| + Pending(t)
  {
    if inputs != [] {
      OneConfirmationPerRequest(s, inputs[..|inputs| - 1]);
      AlStepKeeps(AlRun(s, inputs[..|inputs| - 1]), inputs[|inputs| - 1]);
    }
  }

  /** A request that meets a busy layer leaves the service in progress alone. */
  lemma BusyDisturbsNothing(s: Al, q: AlRequest)
    requires AlInv(s)
    ensures Awaiting(s) <==> AlStep(s, Ask(q)).h.accepted == s.h.accepted
    ensures Awaiting(s) ==>
      var t := AlStep(s, Ask(q));
      t.od == s.od && t.sv == s.sv && t.h.confirmed == s.h.confirmed && t.h.dl == s.h.dl
      && t.h.rejected == s.h.rejected + [AlCnf(q.read, q.cb, [], 0x4036)]
  {
    if s.od == OnReqIdle {
      AskHandled(s, q);
    } else {
      assert AlHandle(s.(job := q), AlService) == Busy(s.(job := q));
    }
  }

  /** The callback is called in the form its request asked for exactly when the
      parameter confirmation is of the kind requested. A late confirmation of an
      aborted access is of the other kind when the next request is the opposite. */
  lemma RightFormIffLikeForLike(s: Al, i: AlInput)
    requires AlInv(s) && Awaiting(s) && !Awaiting(AlStep(s, i))
    ensures var t, q := AlStep(s, i), s.h.accepted[|s.h.accepted| - 1];
            && |t.h.confirmed| == |s.h.confirmed| + 1
            && (t.h.confirmed[|s.h.confirmed|].read == q.read <==>
                  !(i.ReadParamConfirmed? && !q.read) && !(i.WriteParamConfirmed? && q.read))
  {
    match i
    case Ask(q) => BusyDisturbsNothing(s, q);
    case _ =>
  }

  /** Like for like: the answer of a read is a read's, of a write a write's. */
  predicate LikeForLike(s: Al, i: AlInput) {
    Awaiting(s) ==> (i.ReadParamConfirmed? ==> s.sv.read) && (i.WriteParamConfirmed? ==> !s.sv.read)
  }

  predicate LikeForLikeRun(s: Al, inputs: seq<AlInput>) {
    inputs == []
    || (LikeForLikeRun(s, inputs[..|inputs| - 1])
        && LikeForLike(AlRun(s, inputs[..|inputs| - 1]), inputs[|inputs| - 1]))
  }

  predicate InForm(s: Al) {
    |s.h.confirmed| <= |s.h.accepted|
    && forall k :: 0 <= k < |s.h.confirmed| ==> s.h.confirmed[k].read == s.h.accepted[k].read
  }

  lemma AskInForm(s: Al, q: AlRequest)
    requires AlInv(s) && InForm(s)
    ensures InForm(AlStep(s, Ask(q)))
  {
    if s.od == OnReqIdle {
      AskHandled(s, q);
    } else {
      BusyDisturbsNothing(s, q);
    }
  }

  lemma FormKept(s: Al, i: AlInput)
    requires AlInv(s) && InForm(s) && LikeForLike(s, i)
    ensures InForm(AlStep(s, i))
  {
    AlStepKeeps(s, i);
    match i
    case Ask(q) => AskInForm(s, q);
    case _ =>
  }

  lemma {:induction false} ConfirmedInForm(s: Al, inputs: seq<AlInput>)
    requires AlInv(s) && InForm(s) && LikeForLikeRun(s, inputs)
    ensures InForm(AlRun(s, inputs))
  {
    if inputs != [] {
      ConfirmedInForm(s, inputs[..|inputs| - 1]);
      OneConfirmationPerRequest(s, inputs[..|inputs| - 1]);
      FormKept(AlRun(s, inputs[..|inputs| - 1]), inputs[|inputs| - 1]);
    }
  }

  // ---------- what is handed down ----------

  /** What the data link layer is asked for these requests: one service each, in
      order, except for writes of index 0, which it has no service for. */
  function Asks(qs: seq<AlRequest>): seq<DlRequest> {
    if qs == [] then [] else Asks(qs[..|qs| - 1]) + AsksFor(qs[|qs| - 1])
  }

  function AsksFor(q: AlRequest): seq<DlRequest> {
    if q.index >= 2 then [Isdu(q.read, q.index, q.subindex, if q.read then [] else q.data)]
    else if q.read then [ReadParam(q.index)]
    else if q.index == 1 then [WriteParam(1, if q.data == [] then 0 else q.data[0])]
    else []
  }

  /** Since s: the requests taken on and what was asked for them. */
  predicate HandedDown(s: Al, t: Al) {
    && s.h.accepted <= t.h.accepted
    && t.h.dl == s.h.dl + Asks(t.h.accepted[|s.h.accepted|..])
  }

  lemma AskedHandsDown(s: Al, q: AlRequest)
    requires s.od == OnReqIdle
    ensures var t := AlStep(s, Ask(q));
            && t.h.accepted == s.h.accepted + [q] && t.h.dl == s.h.dl + AsksFor(q) && t.od != BuildDlService
  {
    AskHandled(s, q);
  }

  lemma OthersHandNothingDown(s: Al, i: AlInput)
    requires s.od != BuildDlService && !(i.Ask? && s.od == OnReqIdle)
    ensures var t := AlStep(s, i);
            t.h.accepted == s.h.accepted && t.h.dl == s.h.dl && t.od != BuildDlService
  {
    match i
    case Ask(q) => assert AlHandle(s.(job := q), AlService) == Busy(s.(job := q));
    case _ =>
  }

  /** Over every run: each request taken on asks the data link layer for its own
      service, with its own index and data, once and in order; requests turned away,
      aborts and confirmations ask for nothing. */
  lemma {:induction false} EveryRequestIsHandedDown(s: Al, inputs: seq<AlInput>)
    requires s.od != BuildDlService
    ensures HandedDown(s, AlRun(s, inputs)) && AlRun(s, inputs).od != BuildDlService
  {
    if inputs != [] {
      var t, i := AlRun(s, inputs[..|inputs| - 1]), inputs[|inputs| - 1];
      EveryRequestIsHandedDown(s, inputs[..|inputs| - 1]);
      if i.Ask? && t.od == OnReqIdle {
        AskedHandsDown(t, i.q);
        var n := |s.h.accepted|;
        assert (t.h.accepted + [i.q])[n..][..|t.h.accepted| - n] == t.h.accepted[n..];
      } else {
        OthersHandNothingDown(t, i);
      }
    }
  }

  /** A write of index 0, for which there is no service, is refused at once. */
  lemma IndexZeroRefused(s: Al, q: AlRequest)
    requires s.od == OnReqIdle && !q.read && q.index == 0
    ensures var t := AlStep(s, Ask(q));
            && t.od == OnReqIdle && t.h.dl == s.h.dl
            && t.h.confirmed == s.h.confirmed + [AlCnf(false, q.cb, [], 0x8000)]
  {
    AskHandled(s, q);
  }

  /** A direct parameter access is done, or its failure is an error of the application
      whatever the reason. */
  lemma AccessTold(s: Al, value: byte, stat: Status)
    requires s.od == AwaitDlParamCnf
    requires stat == NoError || stat == NoComm || stat == StateConflict || stat == ValueOutOfRange
    ensures var t := AlStep(s, WriteParamConfirmed(stat));
            && t.od == OnReqIdle
            && t.h.confirmed == s.h.confirmed + [AlCnf(false, s.sv.cb, [], if stat == NoError then 0 else 0x8000)]
    ensures var t := AlStep(s, ReadParamConfirmed(value, stat));
            && t.od == OnReqIdle && OneMore(s.h.confirmed, t.h.confirmed)
            && t.h.confirmed[|s.h.confirmed|].error == if stat == NoError then 0 else 0x8000
  {
    var w := s.(sv := s.sv.(errinfo := stat));
    assert AlFire(w, AlWriteParamCnf).next == AlNone;
    var r := s.(sv := s.sv.(data_read := Overwrite(s.sv.data_read, s.sv.data_len, [value]),
                            data_len := s.sv.data_len + 1, errinfo := stat));
    assert AlFire(r, AlReadParamCnf).next == AlNone;
  }

  // ---------- what is confirmed ----------

  /** A read that the device answers hands over exactly its payload. */
  lemma IsduReadDelivers(s: Al, data: seq<byte>)
    requires AlInv(s) && s.od == AwaitDlIsduCnf && s.sv.read && |data| <= ISDU_MAX_SIZE
    ensures var t := AlStep(s, IsduConfirmed(Some(data), READ_RESPONSE_POS, NoError));
            t.od == OnReqIdle && t.h.confirmed == s.h.confirmed + [AlCnf(true, s.sv.cb, data, SMI_NONE)]
  {
    var sv := KeepData(s.sv, Some(data), READ_RESPONSE_POS, NoError).(errinfo := NoError, qualifier := READ_RESPONSE_POS);
    assert ReadData(sv) == data;
    assert AlFire(s.(sv := sv), AlIsduCnf).next == AlNone;
  }

  // ---------- what a parameter read hands over ----------

  /** The confirmation is one whose data the layer would keep for a read. */
  predicate Kept(i: AlInput) {
    i.IsduConfirmed? && i.stat == NoError && i.data.Some? && |i.data.value| <= ISDU_MAX_SIZE
  }

  /** Data of a late ISDU confirmation, left by the inputs since a read was taken on. */
  function LeftOver(inputs: seq<AlInput>): seq<byte> {
    if inputs == [] then []
    else
      var i := inputs[|inputs| - 1];
      if Kept(i) then i.data.value else LeftOver(inputs[..|inputs| - 1])
  }

  /** Neither an answer nor an abort of a direct parameter read. */
  predicate Meanwhile(i: AlInput) {
    i.Ask? || i.IsduConfirmed?
  }

  predicate ReadWaits(s: Al, left: seq<byte>) {
    s.od == AwaitDlParamCnf && s.sv.read && |left| <= ISDU_MAX_SIZE && ReadData(s.sv) == left
  }

  lemma ReadGoesOn(s: Al, i: AlInput, left: seq<byte>)
    requires ReadWaits(s, left) && Meanwhile(i)
    ensures ReadWaits(AlStep(s, i), if Kept(i) then i.data.value else left)
    ensures AlStep(s, i).h.confirmed == s.h.confirmed && AlStep(s, i).sv.cb == s.sv.cb
  {
    match i
    case Ask(q) => assert AlFire(s.(job := q), AlService) == AlOutcome(Busy(s.(job := q)), AlNone);
    case IsduConfirmed(data, qualifier, stat) =>
      var sv := KeepData(s.sv, data, qualifier, stat).(errinfo := stat, qualifier := qualifier);
      assert AlFire(s.(sv := sv), AlIsduCnf) == AlOutcome(s.(sv := sv), AlNone);
      if Kept(i) { assert ReadData(sv) == data.value; } else { assert ReadData(sv) == left; }
  }

  lemma {:induction false} ReadWaitsOn(s: Al, inputs: seq<AlInput>)
    requires ReadWaits(s, []) && forall k :: 0 <= k < |inputs| ==> Meanwhile(inputs[k])
    ensures ReadWaits(AlRun(s, inputs), LeftOver(inputs))
    ensures AlRun(s, inputs).h.confirmed == s.h.confirmed && AlRun(s, inputs).sv.cb == s.sv.cb
  {
    if inputs != [] {
      var init := inputs[..|inputs| - 1];
      ReadWaitsOn(s, init);
      ReadGoesOn(AlRun(s, init), inputs[|inputs| - 1], LeftOver(init));
    }
  }

  lemma ReadTakenOn(s: Al, q: AlRequest)
    requires s.od == OnReqIdle && q.read && q.index <= 1
    ensures ReadWaits(AlStep(s, Ask(q)), [])
    ensures AlStep(s, Ask(q)).h.confirmed == s.h.confirmed && AlStep(s, Ask(q)).sv.cb == q.cb
  {
    AskHandled(s, q);
  }

  lemma OctetAppended(sv: Service, left: seq<byte>, value: byte)
    requires |left| < ISDU_MAX_SIZE && ReadData(sv) == left
    ensures ReadData(sv.(data_read := Overwrite(sv.data_read, sv.data_len, [value]), data_len := sv.data_len + 1))
            == left + [value]
  {
    assert sv.data_len == |left|;
    var r := Overwrite(sv.data_read, sv.data_len, [value]);
    forall i | 0 <= i < |left| ensures r[i] == left[i] { assert ReadData(sv)[i] == sv.data_read[i]; }
  }

  lemma ReadAnswered(s: Al, left: seq<byte>, value: byte)
    requires ReadWaits(s, left) && |left| < ISDU_MAX_SIZE
    ensures AlStep(s, ReadParamConfirmed(value, NoError)).h.confirmed
            == s.h.confirmed + [AlCnf(true, s.sv.cb, left + [value], SMI_NONE)]
  {
    OctetAppended(s.sv, left, value);
    var sv := s.sv.(data_read := Overwrite(s.sv.data_read, s.sv.data_len, [value]),
                    data_len := s.sv.data_len + 1, errinfo := NoError);
    assert AlFire(s.(sv := sv), AlReadParamCnf) == AlOutcome(SendAlCnf(s.(sv := sv, od := OnReqIdle), AlReadParamCnf), AlNone);
    assert ReadData(sv) == left + [value];
  }

  /** A direct parameter read hands over its octet behind whatever the last good
      ISDU confirmation since it was taken on has left; that is a late answer to
      an aborted request. So it hands over exactly its octet if and only if no
      such confirmation left data. */
  lemma ParameterReadDelivers(s: Al, q: AlRequest, inputs: seq<AlInput>, value: byte)
    requires s.od == OnReqIdle && q.read && q.index <= 1
    requires forall k :: 0 <= k < |inputs| ==> Meanwhile(inputs[k])
    requires |LeftOver(inputs)| < ISDU_MAX_SIZE
    ensures var t := AlStep(AlRun(AlStep(s, Ask(q)), inputs), ReadParamConfirmed(value, NoError));
            && t.h.confirmed == s.h.confirmed + [AlCnf(true, q.cb, LeftOver(inputs) + [value], SMI_NONE)]
            && (t.h.confirmed[|s.h.confirmed|].data == [value] <==> LeftOver(inputs) == [])
  {
    ReadTakenOn(s, q);
    var u := AlStep(s, Ask(q));
    ReadWaitsOn(u, inputs);
    ReadAnswered(AlRun(u, inputs), LeftOver(inputs), value);
  }

  // ---------- which answer confirms an ISDU request ----------

  /** Neither an ISDU answer nor an abort. */
  predicate NoIsduAnswer(i: AlInput) {
    i.Ask? || i.ReadParamConfirmed? || i.WriteParamConfirmed?
  }

  predicate IsduWaits(s: Al, q: AlRequest) {
    s.od == AwaitDlIsduCnf && s.sv.read == q.read && s.sv.cb == q.cb
  }

  lemma IsduWaitsOn(s: Al, q: AlRequest, i: AlInput)
    requires IsduWaits(s, q) && NoIsduAnswer(i)
    ensures IsduWaits(AlStep(s, i), q) && AlStep(s, i).h.confirmed == s.h.confirmed
  {
    match i
    case Ask(q') => assert AlFire(s.(job := q'), AlService) == AlOutcome(Busy(s.(job := q')), AlNone);
    case _ =>
  }

  lemma {:induction false} IsduWaitsThrough(s: Al, q: AlRequest, inputs: seq<AlInput>)
    requires IsduWaits(s, q) && forall k :: 0 <= k < |inputs| ==> NoIsduAnswer(inputs[k])
    ensures IsduWaits(AlRun(s, inputs), q) && AlRun(s, inputs).h.confirmed == s.h.confirmed
  {
    if inputs != [] {
      IsduWaitsThrough(s, q, inputs[..|inputs| - 1]);
      IsduWaitsOn(AlRun(s, inputs[..|inputs| - 1]), q, inputs[|inputs| - 1]);
    }
  }

  /** What a positive answer to a request of either kind makes of this one: a
      read takes the data of a read, and reports a write's answer as an error; a
      write is done whatever was answered. */
  function Confirmation(q: AlRequest, answered_read: bool, data: seq<byte>): AlCnf {
    if !q.read then AlCnf(false, q.cb, [], SMI_NONE)
    else AlCnf(true, q.cb, data, if answered_read then SMI_NONE else SMI_APP_DEV)
  }

  function Positive(read: bool): nat {
    if read then READ_RESPONSE_POS else WRITE_RESPONSE_POS
  }

  function PositiveAnswer(read: bool, data: seq<byte>): AlInput {
    IsduConfirmed(Some(data), Positive(read), NoError)
  }

  lemma AnswerTaken(s: Al, q: AlRequest, a: AlInput)
    requires IsduWaits(s, q) && a.IsduConfirmed?
    ensures var t := AlStep(s, a);
            t.od == OnReqIdle && OneMore(s.h.confirmed, t.h.confirmed) && Last(t.h.confirmed, q)
  {
    var sv := KeepData(s.sv, a.data, a.qualifier, a.stat).(errinfo := a.stat, qualifier := a.qualifier);
    assert AlFire(s.(sv := sv), AlIsduCnf).next == AlNone;
  }

  predicate OneMore(before: seq<AlCnf>, after: seq<AlCnf>) {
    |after| == |before| + 1 && after[..|before|] == before
  }

  /** The last confirmation goes to the callback of this request, in its form. */
  predicate Last(confirmed: seq<AlCnf>, q: AlRequest) {
    confirmed != [] && var c := confirmed[|confirmed| - 1]; c.cb == q.cb && c.read == q.read
  }

  lemma PositiveTaken(s: Al, q: AlRequest, answered_read: bool, data: seq<byte>)
    requires IsduWaits(s, q) && |data| <= ISDU_MAX_SIZE
    ensures AlStep(s, PositiveAnswer(answered_read, data)).h.confirmed
            == s.h.confirmed + [Confirmation(q, answered_read, data)]
  {
    var code := Positive(answered_read);
    var sv := KeepData(s.sv, Some(data), code, NoError).(errinfo := NoError, qualifier := code);
    if q.read { assert ReadData(sv) == data; }
    assert AlFire(s.(sv := sv), AlIsduCnf).next == AlNone;
  }

  /** An ISDU request is confirmed by the first ISDU answer that comes, of
      whatever request: nothing ties an answer to what was asked. Every answer
      after it, the request's own with them, is passed to nobody. */
  lemma FirstAnswerConfirms(s: Al, q: AlRequest, inputs: seq<AlInput>, a: AlInput, later: AlInput)
    requires s.od == OnReqIdle && q.index >= 2 && a.IsduConfirmed? && later.IsduConfirmed?
    requires forall k :: 0 <= k < |inputs| ==> NoIsduAnswer(inputs[k])
    ensures var t := AlStep(AlRun(AlStep(s, Ask(q)), inputs), a);
            && t.od == OnReqIdle && OneMore(s.h.confirmed, t.h.confirmed) && Last(t.h.confirmed, q)
            && AlStep(t, later).od == OnReqIdle && AlStep(t, later).h == t.h
  {
    AskedWaits(s, q);
    var u := AlStep(s, Ask(q));
    IsduWaitsThrough(u, q, inputs);
    AnswerTaken(AlRun(u, inputs), q, a);
    AnswerIgnored(AlStep(AlRun(u, inputs), a), later);
  }

  lemma AskedWaits(s: Al, q: AlRequest)
    requires s.od == OnReqIdle && q.index >= 2
    ensures IsduWaits(AlStep(s, Ask(q)), q) && AlStep(s, Ask(q)).h.confirmed == s.h.confirmed
  {
    AskHandled(s, q);
  }

  lemma AnswerIgnored(s: Al, a: AlInput)
    requires s.od == OnReqIdle && a.IsduConfirmed?
    ensures AlStep(s, a).od == OnReqIdle && AlStep(s, a).h == s.h
  {
  }

  lemma AbortConfirms(s: Al, q: AlRequest)
    requires IsduWaits(s, q)
    ensures var t := AlStep(s, AbortRequest);
            t.od == OnReqIdle && t.h.confirmed == s.h.confirmed + [AlCnf(q.read, q.cb, [], SMI_APP_DEV)]
  {
    var a := s.(sv := s.sv.(errinfo := IsduAborted, data_len := 0));
    assert AlFire(a, AlAbort) == AlOutcome(SendAlCnf(a.(od := OnReqIdle), AlAbort), AlNone);
  }

  /** So a positive answer to an aborted request confirms the next one, which a
      caller then takes for read or written; the next one's own answer is lost. */
  lemma LateAnswerConfirmsNext(s: Al, q1: AlRequest, q2: AlRequest, data: seq<byte>, own: AlInput)
    requires s.od == OnReqIdle && q1.index >= 2 && q2.index >= 2 && |data| <= ISDU_MAX_SIZE && own.IsduConfirmed?
    ensures var t := AlStep(AlStep(AlStep(AlStep(s, Ask(q1)), AbortRequest), Ask(q2)), PositiveAnswer(q1.read, data));
            && t.h.confirmed == s.h.confirmed + [AlCnf(q1.read, q1.cb, [], SMI_APP_DEV), Confirmation(q2, q1.read, data)]
            && AlStep(t, own).h == t.h
  {
    AskedWaits(s, q1);
    AbortConfirms(AlStep(s, Ask(q1)), q1);
    var idle := AlStep(AlStep(s, Ask(q1)), AbortRequest);
    AskedWaits(idle, q2);
    var u, a := AlStep(idle, Ask(q2)), PositiveAnswer(q1.read, data);
    AnswerTaken(u, q2, a);
    PositiveTaken(u, q2, q1.read, data);
    AnswerIgnored(AlStep(u, a), own);
  }

  // ---------- negative answers ----------

  lemma CodeIsZero(sv: Service, data: seq<byte>)
    requires sv.data_len == |data| && (|data| == 2 ==> sv.data_read[0] == data[0] && sv.data_read[1] == data[1])
    ensures DeviceError(sv) == SMI_NONE <==> data == [0, 0]
  {
    if |data| == 2 && data[0] == 0 && data[1] == 0 { assert data == [0, 0]; }
  }

  function Negative(read: bool): nat {
    if read then READ_RESPONSE_NEG else WRITE_RESPONSE_NEG
  }

  lemma NegativeError(sv: Service)
    requires sv.errinfo == NoError && sv.qualifier == Negative(sv.read)
    ensures ErrorType(sv, true) == SMI_NONE <==> DeviceError(sv) == SMI_NONE
  {
  }

  /** A negative answer is passed on as success exactly when its two octets are
      the code 0. */
  lemma NegativeAnswerIsError(s: Al, data: seq<byte>)
    requires AlInv(s) && s.od == AwaitDlIsduCnf && |data| <= ISDU_MAX_SIZE
    ensures var t := AlStep(s, IsduConfirmed(Some(data), Negative(s.sv.read), NoError));
            && |t.h.confirmed| == |s.h.confirmed| + 1
            && (t.h.confirmed[|s.h.confirmed|].error == SMI_NONE <==> data == [0, 0])
  {
    var neg := Negative(s.sv.read);
    var sv := KeepData(s.sv, Some(data), neg, NoError).(errinfo := NoError, qualifier := neg);
    CodeIsZero(sv, data);
    NegativeError(sv);
    assert AlFire(s.(sv := sv), AlIsduCnf).next == AlNone;
  }

  /** Any other code arrives as it was sent, most significant octet first; an answer
      that is not a code of two octets stands for an error of the application. */
  lemma DeviceCodeIsTold(s: Al, data: seq<byte>)
    requires AlInv(s) && s.od == AwaitDlIsduCnf && |data| <= ISDU_MAX_SIZE && data != [0, 0]
    ensures var t := AlStep(s, IsduConfirmed(Some(data), Negative(s.sv.read), NoError));
            && |t.h.confirmed| == |s.h.confirmed| + 1
            && t.h.confirmed[|s.h.confirmed|].error == if |data| == 2 then 256 * data[0] + data[1] else SMI_APP_DEV
  {
    var neg := Negative(s.sv.read);
    var sv := KeepData(s.sv, Some(data), neg, NoError).(errinfo := NoError, qualifier := neg);
    if |data| == 2 { assert sv.data_read[0] == data[0] && sv.data_read[1] == data[1]; }
    CodeIsZero(sv, data);
    assert AlFire(s.(sv := sv), AlIsduCnf).next == AlNone;
  }

  /** An answer whose header does not fit is told as such to the caller of a write, and
      to that of a read only if it looks like a positive answer. */
  lemma IllegalAnswerIsTold(s: Al, data: Option<seq<byte>>, qualifier: nat)
    requires AlInv(s) && s.od == AwaitDlIsduCnf && qualifier != Negative(s.sv.read)
    ensures var t := AlStep(s, IsduConfirmed(data, qualifier, IllegalServicePrimitive));
            && OneMore(s.h.confirmed, t.h.confirmed)
            && t.h.confirmed[|s.h.confirmed|].error == if s.sv.read && qualifier != READ_RESPONSE_POS then 0x8000 else 0x5700
  {
    var sv := KeepData(s.sv, data, qualifier, IllegalServicePrimitive).(errinfo := IllegalServicePrimitive, qualifier := qualifier);
    assert AlFire(s.(sv := sv), AlIsduCnf) == AlOutcome(SendAlCnf(s.(sv := sv, od := OnReqIdle), AlIsduCnf), AlNone);
  }

  /** An answer without a service is an error of the communication to the caller of a
      write. */
  lemma NoServiceIsTold(s: Al, data: Option<seq<byte>>)
    requires AlInv(s) && s.od == AwaitDlIsduCnf
    ensures var t := AlStep(s, IsduConfirmed(data, DEVICE_NO_SERVICE, NoError));
            && OneMore(s.h.confirmed, t.h.confirmed)
            && t.h.confirmed[|s.h.confirmed|].error == if s.sv.read then 0x8000 else 0x1000
  {
    var sv := KeepData(s.sv, data, DEVICE_NO_SERVICE, NoError).(errinfo := NoError, qualifier := DEVICE_NO_SERVICE);
    assert AlFire(s.(sv := sv), AlIsduCnf) == AlOutcome(SendAlCnf(s.(sv := sv, od := OnReqIdle), AlIsduCnf), AlNone);
  }

  /** The ways in which the data link layer itself ends a transfer. */
  predicate Failure(stat: Status) {
    stat == NoComm || stat == Invalid || stat == IsduTimeout || stat == IsduAborted || stat == IsduChecksumError
  }

  /** What its caller is told. The caller of a write can tell a timeout, an invalid
      answer and a checksum error apart; to the caller of a read all but the checksum
      error are errors of the application. */
  function ToldAs(read: bool, stat: Status): nat
    requires Failure(stat)
  {
    match stat
    case IsduChecksumError => 0x5600
    case IsduTimeout => if read then 0x8000 else 0x1100
    case Invalid => if read then 0x8000 else 0x1000
    case NoComm => 0x8000
    case IsduAborted => 0x8000
  }

  lemma FailureIsTold(s: Al, data: Option<seq<byte>>, stat: Status)
    requires AlInv(s) && s.od == AwaitDlIsduCnf && Failure(stat)
    ensures var t := AlStep(s, IsduConfirmed(data, DEVICE_NO_SERVICE, stat));
            t.od == OnReqIdle && t.h.confirmed == s.h.confirmed
              + [AlCnf(s.sv.read, s.sv.cb, if s.sv.read then ReadData(s.sv) else [], ToldAs(s.sv.read, stat))]
  {
    var sv := KeepData(s.sv, data, DEVICE_NO_SERVICE, stat).(errinfo := stat, qualifier := DEVICE_NO_SERVICE);
    assert AlFire(s.(sv := sv), AlIsduCnf) == AlOutcome(SendAlCnf(s.(sv := sv, od := OnReqIdle), AlIsduCnf), AlNone);
  }
}
