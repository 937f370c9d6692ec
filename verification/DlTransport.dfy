/**
 * ISDU transfers end to end: what the device is sent, what is confirmed to the
 * application layer, and that Commands and Events in between change neither.
 */
module DlTransport {
  import opened Bytes
  import opened IsduCodec
  import opened DlModel
  import opened DlAccounting
  import opened DlMultiplexer

  /** The handler's buffer after a request was built. */
  function Built(q: Request): IsduBuffer {
    Encode(q) + Zeros(ISDU_MAX_SIZE - |Encode(q)|)
  }

  function RequestSegments(q: Request, od: OdLen): nat {
    Pieces(|Encode(q)|, od)
  }

  /** Segment k of a buffer: FlowCTRL counts START, 1, 2, .., 15, 0, 1, .. */
  function Segment(d: IsduBuffer, od: OdLen, k: nat): Frame {
    Frame(true, ChIsdu, if k == 0 then FLOWCTRL_START else k % 16, Window(d, Times(k, od), od))
  }

  function Segments(d: IsduBuffer, od: OdLen, n: nat): (r: seq<Frame>)
    ensures |r| == n && forall k :: 0 <= k < n ==> r[k] == Segment(d, od, k)
  {
    seq(n, k requires 0 <= k < n => Segment(d, od, k))
  }

  function Joined(frames: seq<Frame>): seq<byte> {
    if frames == [] then [] else Joined(frames[..|frames| - 1]) + frames[|frames| - 1].data
  }

  /** A device response the handler accepts: a service answer for the direction
      asked, of the length its header says, that fits the buffer. */
  predicate Framed(resp: seq<byte>, read: bool, od: OdLen) {
    && |resp| >= 2
    && IServiceOf(resp) != DEVICE_NO_SERVICE && ValidHeader(resp, read)
    && TotalLenOf(resp) == Some(|resp|)
    && |resp| >= HeaderLen(resp) + 1
    && Times(Pieces(|resp|, od), od) <= ISDU_MAX_SIZE
  }

  /** What a complete response is confirmed as. */
  function Expected(resp: seq<byte>): IsduCnf
    requires |resp| >= 3 || (|resp| == 2 && !Extended(resp))
  {
    IsduCnf(resp[HeaderLen(resp)..|resp| - 1], IServiceOf(resp),
      if XorFold(resp) == 0 then NoError else IsduChecksumError)
  }

  /** With one octet per message an extended length is read from octet 1 before
      the device has sent it: what stands there is the request's own octet 1. */
  predicate Misread(q: Request, resp: seq<byte>, od: OdLen)
    requires |resp| >= 2
  {
    od == 1 && Extended(resp) && (Built(q)[1] < 3 || Built(q)[1] == 16)
  }

  /** Segments the handler reads before it considers the response complete. */
  function Reads(q: Request, resp: seq<byte>, od: OdLen): nat
    requires |resp| >= 2
  {
    if !Misread(q, resp, od) then Pieces(|resp|, od) else if Built(q)[1] == 2 then 2 else 1
  }

  /** The length the handler goes by when it considers the response complete. */
  function LengthRead(q: Request, resp: seq<byte>, od: OdLen): nat
    requires |resp| >= 2
  {
    if !Misread(q, resp, od) then |resp| else if Built(q)[1] == 2 then 2 else 0
  }

  /** What a transfer is confirmed as. Cut short after one octet, the length is
      invalid; after two, the octets of the request itself are handed over, and the
      checksum is that of the two header octets. */
  function Outcome(q: Request, resp: seq<byte>, od: OdLen): IsduCnf
    requires Framed(resp, q.read, od)
  {
    if !Misread(q, resp, od) then Expected(resp)
    else if Built(q)[1] == 2 then
      IsduCnf(Window(Built(q), 2, |resp| - 3), IServiceOf(resp),
        if XorFold(resp[..2]) == 0 then NoError else IsduChecksumError)
    else IsduCnf([], IServiceOf(resp), Invalid)
  }

  predicate IsduRead(f: Frame) {
    f.channel == ChIsdu && !f.write
  }

  function Poll(addr: nat): Frame {
    Frame(false, ChIsdu, addr, [])
  }

  // ---------- the device ----------

  predicate IsBusy(rx: RxBuffer) {
    rx[0] == DEVICE_NO_SERVICE * 16 + 1
  }

  /** The octets carry segment k of the response. */
  predicate Carries(rx: RxBuffer, resp: seq<byte>, od: OdLen, k: nat) {
    forall j :: 0 <= j < od && Times(k, od) + j < |resp| ==> rx[j] == resp[Times(k, od) + j]
  }

  /** The device goes by the message on the wire: START asks for the first
      segment, or for "busy"; a FlowCTRL count asks for the next segment, and is
      answered when it is the count of that segment. k segments went out before. */
  predicate DeviceAnswers(wire: Frame, rx: RxBuffer, resp: seq<byte>, od: OdLen, k: nat) {
    IsduRead(wire) ==>
      && (wire.addr == FLOWCTRL_START ==> IsBusy(rx) || Carries(rx, resp, od, 0))
      && (wire.addr == k % 16 ==> Carries(rx, resp, od, k))
  }

  function Delivered(wire: Frame, rx: RxBuffer, k: nat): nat {
    if !IsduRead(wire) then k
    else if wire.addr == FLOWCTRL_START then (if IsBusy(rx) then 0 else 1)
    else if wire.addr == k % 16 then k + 1
    else k
  }

  // ---------- where a transfer stands ----------

  predicate Queued(s: Dl, q: Request) {
    && s.isdu.state == IhIdle1 && s.rwcmd == RwIsduTransport
    && s.isdu.data == Built(q)
    && s.isdu.total_isdu_seg == RequestSegments(q, s.od_len)
  }

  predicate Waiting(s: Dl, q: Request) {
    Queued(s, q) && s.out.segments == [] && s.out.cnfs == []
  }

  predicate Sending(s: Dl, q: Request, mine: bool) {
    var n := RequestSegments(q, s.od_len);
    && s.isdu.state == IhRequest2 && s.rwcmd == RwIsduTransport
    && s.isdu.data == Built(q) && s.isdu.total_isdu_seg == n
    && 1 <= s.isdu.current_isdu_seg <= n && (!mine ==> s.isdu.current_isdu_seg < n)
    && s.out.segments == Segments(Built(q), s.od_len, s.isdu.current_isdu_seg) && s.out.cnfs == []
  }

  predicate AllSent(s: Dl, q: Request) {
    s.out.segments == Segments(Built(q), s.od_len, RequestSegments(q, s.od_len))
  }

  predicate KeptFrom(d: IsduBuffer, q: Request, from: nat) {
    forall i :: from <= i < ISDU_MAX_SIZE ==> d[i] == Built(q)[i]
  }

  predicate Holds(d: IsduBuffer, resp: seq<byte>, upto: nat) {
    forall i :: 0 <= i < upto && i < |resp| && i < ISDU_MAX_SIZE ==> d[i] == resp[i]
  }

  predicate Polling(s: Dl, q: Request, mine: bool) {
    && s.isdu.state == IhWait3 && s.rwcmd == RwIsduTransport && s.isdu.current_isdu_seg == 0
    && !s.isdu.timer_expired
    && KeptFrom(s.isdu.data, q, s.od_len)
    && AllSent(s, q) && s.out.cnfs == []
    && (mine ==> s.out.wire == Poll(FLOWCTRL_START))
  }

  predicate Collecting(s: Dl, q: Request, resp: seq<byte>, k: nat, mine: bool)
    requires |resp| >= 2
  {
    && s.isdu.state == IhResponse5 && s.rwcmd == RwIsduTransport && s.isdu.current_isdu_seg == k
    && 1 <= k < Reads(q, resp, s.od_len)
    && KeptFrom(s.isdu.data, q, Times(k, s.od_len))
    && Holds(s.isdu.data, resp, Times(k, s.od_len))
    && AllSent(s, q) && s.out.cnfs == []
    && (mine ==> s.out.wire == Poll(k % 16))
  }

  predicate Finished(s: Dl, q: Request, resp: seq<byte>)
    requires Framed(resp, q.read, s.od_len)
  {
    && s.isdu.state == IhIdle1 && s.rwcmd == RwNone && s.isdu.total_isdu_seg == 0
    && AllSent(s, q)
    && s.out.cnfs == [Outcome(q, resp, s.od_len)]
  }

  /** `mine`: the message on the wire is the ISDU handler's and is unanswered. */
  predicate Phase(s: Dl, q: Request, resp: seq<byte>, k: nat, mine: bool) {
    && !s.com_lost && s.isdu.data_dir_read == q.read
    && Framed(resp, q.read, s.od_len)
    && ((k == 0 && (Waiting(s, q) || Sending(s, q, mine) || Polling(s, q, mine)))
        || Collecting(s, q, resp, k, mine)
        || (k == Reads(q, resp, s.od_len) && Finished(s, q, resp)))
    && (mine && IsduRead(s.out.wire) && !s.isdu.state.IhWait3? && !s.isdu.state.IhResponse5?
        ==> s.out.wire.addr == FLOWCTRL_IDLE_1)
  }

  // ---------- arithmetic of segments ----------

  lemma {:induction false} PiecesAtMostLength(len: nat, n: nat)
    requires n > 0
    ensures Pieces(len, n) <= len
  {
    if len > n { PiecesAtMostLength(len - n, n); }
  }

  lemma {:induction false} PiecesByOne(len: nat)
    ensures Pieces(len, 1) == len
  {
    if len > 0 { PiecesByOne(len - 1); }
  }

  lemma RequestSegmentsBounds(q: Request, od: OdLen)
    ensures 1 <= RequestSegments(q, od) <= ISDU_MAX_SIZE
  {
    PiecesAtMostLength(|Encode(q)|, od);
    EncodeHeaderCanonical(q);
  }

  lemma OneMoreSegment(s: Dl, q: Request, k: nat)
    ensures var f := Segment(Built(q), s.od_len, k);
            && Frame(true, ChIsdu, f.addr, Pad(f.data, s.od_len)) == f
            && Segments(Built(q), s.od_len, k) + [f] == Segments(Built(q), s.od_len, k + 1)
  {
    var f := Segment(Built(q), s.od_len, k);
    assert Pad(f.data, s.od_len) == f.data;
  }

  // ---------- the ISDU handler's own steps ----------

  lemma MasterWaiting(s: Dl, q: Request, resp: seq<byte>)
    requires Phase(s, q, resp, 0, false) && Waiting(s, q) && s.isdu.active && s.od.trigger == TrigMaster
    ensures Phase(IsduSm(s), q, resp, 0, true)
  {
    RequestSegmentsBounds(q, s.od_len);
    OneMoreSegment(s, q, 0);
    assert Segments(Built(q), s.od_len, 0) == [];
  }

  lemma MasterSending(s: Dl, q: Request, resp: seq<byte>)
    requires Phase(s, q, resp, 0, false) && Sending(s, q, false) && s.isdu.active && s.od.trigger == TrigMaster
    ensures Phase(IsduSm(s), q, resp, 0, true)
  {
    RequestSegmentsBounds(q, s.od_len);
    OneMoreSegment(s, q, s.isdu.current_isdu_seg);
  }

  lemma DeviceSending(s: Dl, q: Request, resp: seq<byte>)
    requires Phase(s, q, resp, 0, true) && Sending(s, q, true) && s.isdu.active && s.od.trigger == TrigDevice
    ensures Phase(IsduSm(s), q, resp, 0, false)
  {
  }

  lemma MasterPolling(s: Dl, q: Request, resp: seq<byte>)
    requires Phase(s, q, resp, 0, false) && Polling(s, q, false) && s.isdu.active && s.od.trigger == TrigMaster
    ensures Phase(IsduSm(s), q, resp, 0, true)
  {
  }

  lemma MasterCollecting(s: Dl, q: Request, resp: seq<byte>, k: nat)
    requires Phase(s, q, resp, k, false) && Collecting(s, q, resp, k, false) && s.isdu.active && s.od.trigger == TrigMaster
    ensures Phase(IsduSm(s), q, resp, k, true)
  {
  }

  /** Waiting or finished, the handler only polls and ignores the answer. */
  lemma IdleStep(s: Dl, q: Request, resp: seq<byte>, k: nat, mine: bool)
    requires Phase(s, q, resp, k, mine) && s.isdu.state == IhIdle1 && s.isdu.active
    requires if mine then s.od.trigger == TrigDevice else s.od.trigger == TrigMaster && Finished(s, q, resp)
    ensures Phase(IsduSm(s), q, resp, k, !mine)
  {
  }

  // ---------- reading the length, and completing ----------

  /** With two octets in, or a short header, the buffer tells the true length. */
  lemma LengthKnown(d: IsduBuffer, resp: seq<byte>, upto: nat)
    requires |resp| >= 2 && Holds(d, resp, upto)
    requires upto >= 2 || (upto >= 1 && !Extended(resp))
    ensures TotalLenOf(d) == TotalLenOf(resp) && HeaderLen(d) == HeaderLen(resp) && IServiceOf(d) == IServiceOf(resp)
  {
  }

  lemma ReceivedHolds(d: IsduBuffer, q: Request, resp: seq<byte>, od: OdLen, k: nat, rx: RxBuffer)
    requires Holds(d, resp, Times(k, od)) && Carries(rx, resp, od, k)
    requires k == 0 || KeptFrom(d, q, Times(k, od))
    requires k == 0 ==> KeptFrom(d, q, od)
    ensures var e := Overwrite(d, Times(k, od), Window(rx, 0, od));
            Holds(e, resp, Times(k + 1, od)) && KeptFrom(e, q, Times(k + 1, od))
  {
    assert Times(k + 1, od) == Times(k, od) + od;
    var e := Overwrite(d, Times(k, od), Window(rx, 0, od));
    forall i | 0 <= i < Times(k + 1, od) && i < |resp| && i < ISDU_MAX_SIZE
      ensures e[i] == resp[i]
    {
      if i >= Times(k, od) {
        var j := i - Times(k, od);
        assert rx[j] == resp[Times(k, od) + j];
      }
    }
  }

  lemma CompletesAsExpected(v: Dl, q: Request, resp: seq<byte>)
    requires Framed(resp, q.read, v.od_len)
    requires Holds(v.isdu.data, resp, |resp|) && v.isdu.total_isdu_len == |resp|
    requires AllSent(v, q) && v.out.cnfs == []
    ensures ReceptionComplete(v).out.cnfs == [Expected(resp)]
    ensures !Misread(q, resp, v.od_len) ==> Finished(ReceptionComplete(v), q, resp)
  {
    var d := v.isdu.data;
    PiecesCover(|resp|, v.od_len);
    LengthKnown(d, resp, |resp|);
    var n := |resp| - HeaderLen(resp) - 1;
    assert Window(d, 0, |resp|) == resp;
    assert n % 256 == n;
    assert ResponseData(d, n) == resp[HeaderLen(resp)..|resp| - 1];
  }

  /** A transfer cut short: octet 1, and all behind the octets read, are still the
      request's. */
  lemma CompletesMisread(v: Dl, q: Request, resp: seq<byte>)
    requires Framed(resp, q.read, v.od_len) && Misread(q, resp, v.od_len)
    requires Holds(v.isdu.data, resp, Reads(q, resp, 1)) && KeptFrom(v.isdu.data, q, Reads(q, resp, 1))
    requires v.isdu.total_isdu_len == LengthRead(q, resp, 1)
    requires AllSent(v, q) && v.out.cnfs == []
    ensures Finished(ReceptionComplete(v), q, resp)
  {
    var d := v.isdu.data;
    assert d[0] == resp[0];
    if Built(q)[1] == 2 {
      assert d[1] == resp[1];
      var n := |resp| - 3;
      assert Window(d, 0, 2) == resp[..2];
      assert ResponseData(d, n) == Window(Built(q), 2, n);
    } else {
      assert d[1] == Built(q)[1];
    }
  }

  /** Segment k is in: complete exactly when it was the last one to be read. */
  lemma CollectedPhase(v: Dl, q: Request, resp: seq<byte>, k: nat)
    requires !v.com_lost && v.isdu.data_dir_read == q.read && Framed(resp, q.read, v.od_len)
    requires v.isdu.state == IhResponse5 && v.rwcmd == RwIsduTransport
    requires v.isdu.current_isdu_seg == k + 1 && k + 1 <= Reads(q, resp, v.od_len)
    requires Holds(v.isdu.data, resp, Times(k + 1, v.od_len)) && KeptFrom(v.isdu.data, q, Times(k + 1, v.od_len))
    requires AllSent(v, q) && v.out.cnfs == []
    requires v.isdu.total_isdu_seg <= k + 1 <==> k + 1 == Reads(q, resp, v.od_len)
    requires k + 1 == Reads(q, resp, v.od_len) ==> v.isdu.total_isdu_len == LengthRead(q, resp, v.od_len)
    ensures Phase(Collected(v), q, resp, k + 1, false)
  {
    if k + 1 == Reads(q, resp, v.od_len) {
      if Misread(q, resp, v.od_len) {
        TimesIsProduct(k + 1, 1);
        CompletesMisread(v, q, resp);
      } else {
        PiecesCover(|resp|, v.od_len);
        CompletesAsExpected(v, q, resp);
      }
    }
  }

  /** What the segment count read from the buffer says about stopping at k + 1,
      when octet 1 is still the request's. */
  lemma MisreadCount(s: Dl, q: Request, resp: seq<byte>, k: nat)
    requires Framed(resp, q.read, s.od_len) && s.od_len == 1 && Extended(resp)
    requires s.isdu.data[0] == resp[0] && s.isdu.data[1] == Built(q)[1]
    requires k <= 1 && k < Reads(q, resp, s.od_len)
    ensures ReadLength(s).isdu.total_isdu_seg <= k + 1 <==> k + 1 == Reads(q, resp, s.od_len)
    ensures k + 1 <= Reads(q, resp, s.od_len)
    ensures !Misread(q, resp, s.od_len) ==> k + 1 < Reads(q, resp, s.od_len)
    ensures k + 1 == Reads(q, resp, s.od_len) ==> ReadLength(s).isdu.total_isdu_len == LengthRead(q, resp, s.od_len)
  {
    PiecesByOne(|resp|);
    PiecesByOne(Built(q)[1]);
    PiecesByOne(0);
  }

  lemma DevicePolling(s: Dl, q: Request, resp: seq<byte>)
    requires Phase(s, q, resp, 0, true) && Polling(s, q, true) && s.isdu.active && s.od.trigger == TrigDevice
    requires DeviceAnswers(s.out.wire, s.rx, resp, s.od_len, 0)
    ensures Phase(IsduSm(s), q, resp, Delivered(s.out.wire, s.rx, 0), false)
  {
    var t := Receive(s);
    assert Times(0, s.od_len) == 0 && Times(1, s.od_len) == s.od_len;
    assert t.isdu.data[0] == s.rx[0];
    if !IsBusy(s.rx) {
      ReceivedHolds(s.isdu.data, q, resp, s.od_len, 0, s.rx);
      var u := t.(isdu := t.isdu.(current_isdu_seg := 1, state := IhResponse5));
      if s.od_len >= 2 || !Extended(resp) {
        LengthKnown(t.isdu.data, resp, s.od_len);
      } else {
        MisreadCount(u, q, resp, 0);
      }
      assert t.isdu.data[0] == resp[0];
      CollectedPhase(TimerReset(ReadLength(u)), q, resp, 0);
    }
  }

  lemma CollectingCount(s: Dl, q: Request, resp: seq<byte>, k: nat)
    requires Phase(s, q, resp, k, true) && Collecting(s, q, resp, k, true)
    ensures var r := ReadLength(s);
            && (r.isdu.total_isdu_seg <= k + 1 <==> k + 1 == Reads(q, resp, s.od_len))
            && (k + 1 == Reads(q, resp, s.od_len) ==> r.isdu.total_isdu_len == LengthRead(q, resp, s.od_len))
  {
    TimesAtLeast(k, s.od_len);
    TimesMonotone(1, k, s.od_len);
    assert Times(1, s.od_len) == s.od_len;
    if s.od_len >= 2 || !Extended(resp) || k >= 2 {
      LengthKnown(s.isdu.data, resp, Times(k, s.od_len));
    } else {
      MisreadCount(s, q, resp, k);
    }
  }

  /** The segment counter of a response stays far from its wrap at 256. */
  lemma CollectingBounds(q: Request, resp: seq<byte>, od: OdLen, k: nat)
    requires Framed(resp, q.read, od) && k < Reads(q, resp, od)
    ensures k + 1 < 256
  {
    PiecesAtMostLength(|resp|, od);
    PiecesByOne(|resp|);
  }

  lemma DeviceCollecting(s: Dl, q: Request, resp: seq<byte>, k: nat)
    requires Phase(s, q, resp, k, true) && Collecting(s, q, resp, k, true) && s.isdu.active && s.od.trigger == TrigDevice
    requires DeviceAnswers(s.out.wire, s.rx, resp, s.od_len, k)
    ensures Phase(IsduSm(s), q, resp, Delivered(s.out.wire, s.rx, k), false)
  {
    CollectingBounds(q, resp, s.od_len, k);
    CollectingCount(s, q, resp, k);
    ReceivedHolds(s.isdu.data, q, resp, s.od_len, k, s.rx);
    CollectedPhase(CountSegment(Receive(ReadLength(s))), q, resp, k);
  }

  lemma TimesAtLeast(k: nat, n: nat)
    requires n > 0
    ensures Times(k, n) >= k
  {
  }

  // ---------- the transfer inside the multiplexed exchange ----------

  /** A session together with the number of response segments the device sent. */
  datatype Transfer = Transfer(x: Session, k: nat)

  function TransferStep(y: Transfer, i: Input): Transfer {
    Transfer(SessionStep(y.x, i),
      if i.Device? then Delivered(y.x.dl.out.wire, i.rx, y.k) else y.k)
  }

  function TransferRun(y: Transfer, inputs: seq<Input>): Transfer {
    if inputs == [] then y
    else TransferStep(TransferRun(y, inputs[..|inputs| - 1]), inputs[|inputs| - 1])
  }

  /** Only Commands and Events come in between, and the device answers ISDU
      messages as it must. What it answers to other messages is free. */
  predicate Undisturbed(y: Transfer, i: Input, resp: seq<byte>) {
    && LinkUp(y.x, i)
    && (i.Master? || i.Device? || i.Control? || i.Devicemode?)
    && (i.Device? ==> DeviceAnswers(y.x.dl.out.wire, i.rx, resp, y.x.dl.od_len, y.k))
  }

  predicate UndisturbedRun(y: Transfer, inputs: seq<Input>, resp: seq<byte>) {
    inputs == []
    || (UndisturbedRun(y, inputs[..|inputs| - 1], resp)
        && Undisturbed(TransferRun(y, inputs[..|inputs| - 1]), inputs[|inputs| - 1], resp))
  }

  predicate EventReady(s: Dl) {
    && s.ev.active && (s.ev.state == EhIdle1 || s.ev.state == EhReadEvent2)
    && s.ev.ev_cnt <= MAX_EVENTS && s.ev.ev_addr <= 3 * s.ev.ev_cnt + 3
  }

  predicate TransferInv(y: Transfer, q: Request, resp: seq<byte>) {
    && MuxInv(y.x) && EventReady(y.x.dl)
    && Phase(y.x.dl, q, resp, y.k, Mine(y.x))
    && (y.x.awaiting && !Mine(y.x) ==> !IsduRead(y.x.dl.out.wire))
  }

  /** Phase looks only at these. */
  predicate SameTransfer(s: Dl, t: Dl) {
    && t.isdu == s.isdu && t.rwcmd == s.rwcmd && t.com_lost == s.com_lost && t.od_len == s.od_len
    && t.out.segments == s.out.segments && t.out.cnfs == s.out.cnfs
  }

  lemma SamePhase(s: Dl, t: Dl, q: Request, resp: seq<byte>, k: nat, mine: bool)
    requires Phase(s, q, resp, k, mine) && SameTransfer(s, t) && (mine ==> t.out.wire == s.out.wire)
    ensures Phase(t, q, resp, k, mine)
  {
  }

  /** The event handler always prepares a message of its own. */
  lemma EvMaster(s: Dl)
    requires EventReady(s) && !s.com_lost && s.od.trigger == TrigMaster
    ensures EventReady(EvSm(s)) && SameTransfer(s, EvSm(s)) && !IsduRead(EvSm(s).out.wire)
  {
  }

  lemma EvMemoryByteReady(s: Dl)
    requires EventReady(s)
    ensures EventReady(EvMemoryByte(s)) && SameTransfer(s, EvMemoryByte(s))
  {
  }

  lemma EvDevice(s: Dl)
    requires EventReady(s) && !s.com_lost && s.od.trigger == TrigDevice
    ensures EventReady(EvSm(s)) && SameTransfer(s, EvSm(s))
  {
    EvMemoryByteReady(s);
  }

  lemma IsduMaster(s: Dl, q: Request, resp: seq<byte>, k: nat)
    requires Phase(s, q, resp, k, false) && s.isdu.active && s.od.trigger == TrigMaster
    ensures Phase(IsduSm(s), q, resp, k, true)
  {
    match s.isdu.state
    case IhIdle1 => if Waiting(s, q) && k == 0 { MasterWaiting(s, q, resp); } else { IdleStep(s, q, resp, k, false); }
    case IhRequest2 => MasterSending(s, q, resp);
    case IhWait3 => MasterPolling(s, q, resp);
    case _ => MasterCollecting(s, q, resp, k);
  }

  lemma IsduDevice(s: Dl, q: Request, resp: seq<byte>, k: nat)
    requires Phase(s, q, resp, k, true) && s.isdu.active && s.od.trigger == TrigDevice
    requires DeviceAnswers(s.out.wire, s.rx, resp, s.od_len, k)
    ensures Phase(IsduSm(s), q, resp, Delivered(s.out.wire, s.rx, k), false)
  {
    match s.isdu.state
    case IhIdle1 => IdleStep(s, q, resp, k, true);
    case IhRequest2 => DeviceSending(s, q, resp);
    case IhWait3 => DevicePolling(s, q, resp);
    case _ => DeviceCollecting(s, q, resp, k);
  }

  lemma MasterTransfer(y: Transfer, q: Request, resp: seq<byte>)
    requires TransferInv(y, q, resp) && !y.x.awaiting
    ensures TransferInv(TransferStep(y, Master), q, resp)
  {
    var s := Triggered(y.x.dl, Master);
    MasterStep(y.x);
    IsduSmKeepsMux(s);
    SamePhase(y.x.dl, s, q, resp, y.k, false);
    var z := TransferStep(y, Master);
    if CommandDue(s) {
      SamePhase(s, z.x.dl, q, resp, y.k, false);
    } else if s.od.state == OdEvent3 {
      EvMaster(s);
      SamePhase(s, z.x.dl, q, resp, y.k, false);
    } else {
      IsduMaster(s, q, resp, y.k);
      SamePhase(IsduSm(s), z.x.dl, q, resp, y.k, true);
    }
  }

  /** The answer to somebody else's message. */
  lemma OtherDevice(y: Transfer, q: Request, resp: seq<byte>, flag: bool, rx: RxBuffer)
    requires TransferInv(y, q, resp) && y.x.awaiting && !Mine(y.x)
    ensures TransferInv(TransferStep(y, Device(flag, rx)), q, resp)
  {
    var s := Triggered(y.x.dl, Device(flag, rx));
    DeviceStep(y.x, flag, rx);
    SamePhase(y.x.dl, s, q, resp, y.k, false);
    var z := TransferStep(y, Device(flag, rx));
    if s.od.state == OdEvent3 && flag {
      EvDevice(s);
    }
    SamePhase(s, z.x.dl, q, resp, y.k, false);
  }

  lemma DeviceTransfer(y: Transfer, q: Request, resp: seq<byte>, flag: bool, rx: RxBuffer)
    requires TransferInv(y, q, resp) && y.x.awaiting
    requires DeviceAnswers(y.x.dl.out.wire, rx, resp, y.x.dl.od_len, y.k)
    ensures TransferInv(TransferStep(y, Device(flag, rx)), q, resp)
  {
    if Mine(y.x) {
      var s := Triggered(y.x.dl, Device(flag, rx));
      DeviceStep(y.x, flag, rx);
      IsduSmKeepsMux(s);
      SamePhase(y.x.dl, s, q, resp, y.k, true);
      var z := TransferStep(y, Device(flag, rx));
      IsduDevice(s, q, resp, y.k);
      SamePhase(IsduSm(s), z.x.dl, q, resp, z.k, false);
    } else {
      OtherDevice(y, q, resp, flag, rx);
    }
  }

  lemma CommandAside(s: Dl, i: Input)
    requires i.Control? || i.Devicemode?
    requires s.cmd.control_code == CcNone && s.cmd.state == ChIdle1
    ensures var t := Step(s, i); SameTransfer(s, t) && t.ev == s.ev && t.out.wire == s.out.wire
  {
  }

  lemma ServiceTransfer(y: Transfer, q: Request, resp: seq<byte>, i: Input)
    requires TransferInv(y, q, resp) && LinkUp(y.x, i) && (i.Control? || i.Devicemode?)
    ensures TransferInv(TransferStep(y, i), q, resp)
  {
    ServiceStep(y.x, i);
    CommandAside(y.x.dl, i);
    var z := TransferStep(y, i);
    SamePhase(y.x.dl, z.x.dl, q, resp, y.k, Mine(y.x));
  }

  lemma {:induction false} TransferInvariant(y: Transfer, q: Request, resp: seq<byte>, inputs: seq<Input>)
    requires TransferInv(y, q, resp) && UndisturbedRun(y, inputs, resp)
    ensures TransferInv(TransferRun(y, inputs), q, resp)
  {
    if inputs != [] {
      var init, i := inputs[..|inputs| - 1], inputs[|inputs| - 1];
      TransferInvariant(y, q, resp, init);
      var z := TransferRun(y, init);
      match i
      case Master => MasterTransfer(z, q, resp);
      case Device(flag, rx) => DeviceTransfer(z, q, resp, flag, rx);
      case _ => ServiceTransfer(z, q, resp, i);
    }
  }
}
