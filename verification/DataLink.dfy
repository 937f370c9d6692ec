/**
 * The handlers as they run: one object whose methods update the handlers' fields,
 * the ISDU buffer and the transmit buffer in place. Each method is tied to its
 * step function on values, so that everything proved about runs of the step
 * machine holds of sequences of calls.
 */
module DataLink {
  import opened Bytes
  import opened IsduCodec
  import opened DlModel
  import opened DlAccounting
  import opened DlMultiplexer
  import opened DlTransport
  import opened DlEndToEnd
  import opened DlRequests
  import DlEvents
  import DlEventRuns
  import DlEventCycles
  import DlTimeouts

  /** The octets an ISDU handler step touches lie inside its buffer: what the
      handler demands of the request's and the response's length. */
  predicate InBounds(s: Dl) {
    (s.isdu.state == IhRequest2 && s.od.trigger == TrigMaster) || s.isdu.state == IhWait3 || s.isdu.state == IhResponse5 ==>
      Times(s.isdu.current_isdu_seg, s.od_len) + s.od_len <= ISDU_MAX_SIZE
  }

  /** A request and a response whose segments fit the buffer keep every step of
      the transfer inside it. */
  lemma TransferStaysInBounds(s: Dl, q: Request, resp: seq<byte>, k: nat, mine: bool)
    requires Phase(s, q, resp, k, mine)
    requires Times(RequestSegments(q, s.od_len), s.od_len) <= ISDU_MAX_SIZE
    ensures InBounds(s.(od := s.od.(trigger := if mine then TrigDevice else TrigMaster)))
  {
    var od := s.od_len;
    if s.isdu.state == IhRequest2 && !mine {
      TimesMonotone(s.isdu.current_isdu_seg + 1, RequestSegments(q, od), od);
    } else if s.isdu.state == IhResponse5 {
      PiecesByOne(|resp|);
      TimesMonotone(k + 1, Pieces(|resp|, od), od);
    }
  }

  /** A length behind the end of the buffer adds only zeros to the checksum. */
  lemma FoldBehindBuffer(d: IsduBuffer, len: nat)
    ensures XorFold(Window(d, 0, len)) == XorFold(d[..if len <= ISDU_MAX_SIZE then len else ISDU_MAX_SIZE])
  {
    if len > ISDU_MAX_SIZE {
      FoldOfZeros(d, len - ISDU_MAX_SIZE);
      assert Window(d, 0, len) == d + Zeros(len - ISDU_MAX_SIZE);
      assert d[..ISDU_MAX_SIZE] == d;
    } else {
      assert Window(d, 0, len) == d[..len];
    }
  }

  lemma SentIsOnWire(o: Out, f: Frame)
    ensures Sent(o, f).wire == f
  {
  }

  /** The ISDU handler's own variables, without its buffer. */
  datatype IsduVars = IsduVars(
    state: IsduState, active: bool, total_isdu_len: nat, current_isdu_seg: nat, total_isdu_seg: nat,
    timer_on: bool, timer_expired: bool, data_dir_read: bool)

  /** The control octet of the message being sent, and its on-request octets. */
  datatype TxHead = TxHead(write: bool, channel: Channel, addr: nat, od_txlen: nat)

  lemma RunOneMore(s: Dl, inputs: seq<Input>, i: nat)
    requires i < |inputs|
    ensures Run(s, inputs[..i + 1]) == Step(Run(s, inputs[..i]), inputs[i])
  {
    assert inputs[..i + 1][..i] == inputs[..i];
  }

  lemma {:induction false} TransferFollowsMachine(y: Transfer, inputs: seq<Input>)
    ensures TransferRun(y, inputs).x.dl == Run(y.x.dl, inputs)
  {
    if inputs != [] { TransferFollowsMachine(y, inputs[..|inputs| - 1]); }
  }

  /** The machine t reached with these inputs has sent and confirmed what the
      number of messages and of busy answers says. */
  predicate TransferTaken(x: Session, q: Request, resp: seq<byte>, inputs: seq<Input>, t: Dl)
    requires Framed(resp, q.read, x.dl.od_len)
  {
    var own, busy := OwnMessages(From(x), inputs), BusyAnswers(From(x), inputs);
    && SegmentsSent(x, q, own, t)
    && var z := TransferRun(From(x), inputs);
       z.x.dl == t && AnswerTaken(x, q, resp, own, busy, z)
  }

  class OnRequestHandlers {
    var od: OdHandler
    var cmd: CmdHandler
    var ev: EvHandler

    var ih: IsduVars
    const isdu_data: array<byte>

    // The message in the transmit buffer.
    var tx: TxHead
    const odout_buffer: array<byte>

    var rwcmd: RwCmd
    var od_len: OdLen
    var mode: ModeState
    var dl_mode: DlMode
    var com_lost: bool
    var rxbuffer: RxBuffer

    // The contents of the two buffers, and what was sent and told.
    ghost var buffer: IsduBuffer
    ghost var history: Out

    ghost predicate Valid()
      reads this, isdu_data, odout_buffer
    {
      && isdu_data.Length == ISDU_MAX_SIZE && odout_buffer.Length == OD_MAX_SIZE
      && isdu_data != odout_buffer
      && tx.od_txlen <= OD_MAX_SIZE
      && isdu_data[..] == buffer
      && history.wire == Frame(tx.write, tx.channel, tx.addr, if tx.write then odout_buffer[..tx.od_txlen] else [])
    }

    ghost function View(): Dl
      reads this
    {
      Dl(od,
         IsduHandler(ih.state, ih.active, ih.total_isdu_len, ih.current_isdu_seg, ih.total_isdu_seg,
                     buffer, ih.timer_on, ih.timer_expired, ih.data_dir_read),
         cmd, ev, rwcmd, od_len, mode, dl_mode, com_lost, rxbuffer, history)
    }

    /** After a reset, with the message layout of a first mode request. */
    constructor (octets_per_message: OdLen)
      ensures Valid() && fresh(isdu_data) && fresh(odout_buffer)
      ensures Fresh(View()) && od_len == octets_per_message
    {
      od := OdHandler(OdInactive0, false, TrigNone, 0, 0);
      cmd := CmdHandler(ChInactive0, false, CcNone, MASTERCMD_NONE);
      ev := EvHandler(EhInactive0, false, false, false, 0, 0, 0, 0, 0, NO_EVENTS);
      ih := IsduVars(IhInactive0, false, 0, 0, 0, false, false, false);
      isdu_data := new byte[ISDU_MAX_SIZE](_ => 0);
      tx := TxHead(false, ChProcess, 0, 0);
      odout_buffer := new byte[OD_MAX_SIZE](_ => 0);
      rwcmd, od_len, mode, dl_mode, com_lost := RwNone, octets_per_message, MdIdle0, ModeInactive, false;
      rxbuffer := Zeros(RXTX_BUFFER_SIZE);
      buffer := Zeros(ISDU_MAX_SIZE);
      history := Out(Frame(false, ChProcess, 0, []), [], [], [], [], [], []);
      new;
      assert isdu_data[..] == buffer;
    }

    // ---------- DL-A: OD_req ----------

    method FillOd(data: seq<byte>)
      requires odout_buffer.Length == OD_MAX_SIZE
      modifies odout_buffer
      ensures odout_buffer[..od_len] == Pad(data, od_len)
    {
      var i := 0;
      while i < od_len
        invariant 0 <= i <= od_len
        invariant forall k :: 0 <= k < i ==> odout_buffer[k] == if k < |data| then data[k] else 0
      {
        odout_buffer[i] := if i < |data| then data[i] else 0;
        i := i + 1;
      }
    }

    method SendOd(write: bool, channel: Channel, addr: nat, data: seq<byte>)
      requires Valid()
      modifies this`tx, this`history, odout_buffer
      ensures Valid()
      ensures View() == OdReq(old(View()), write, channel, addr, data)
    {
      if |data| > OD_MAX_SIZE || addr > 31 {
        return;
      }
      tx := TxHead(write, channel, addr, if write then od_len else 0);
      if write { FillOd(data); }
      ghost var f := Frame(write, channel, addr, if write then Pad(data, od_len) else []);
      SentIsOnWire(history, f);
      history := Sent(history, f);
    }

    // ---------- ISDU handler ----------

    method IsduError4Sm()
      requires Valid()
      modifies this, odout_buffer
      ensures Valid()
      ensures View() == IsduError4(old(View()))
    {
      if !ih.active {
        ih := ih.(state := IhInactive0);
      } else {
        var cnf := Reason();
        GiveUpSm(cnf);
      }
    }

    method GiveUpSm(cnf: IsduCnf)
      requires Valid()
      modifies this, odout_buffer
      ensures Valid()
      ensures View() == GiveUp(old(View()), cnf)
    {
      ih := ih.(total_isdu_seg := 0);
      SendOd(false, ChIsdu, FLOWCTRL_ABORT, []);
      Confirmed(cnf);
      rwcmd := RwNone;
      ih := ih.(state := IhIdle1);
    }

    /** Why a transfer was given up. */
    method Reason() returns (cnf: IsduCnf)
      requires Valid()
      ensures cnf == GivenUp(View())
    {
      cnf := IsduCnf([], DEVICE_NO_SERVICE, Invalid);
      if ih.timer_on && ih.timer_expired {
        cnf := cnf.(status := IsduTimeout);
      } else if com_lost {
        cnf := cnf.(status := NoComm);
      } else if rwcmd == RwIsduAbort {
        cnf := cnf.(status := IsduAborted);
      } else if !ValidHeader(isdu_data[..], ih.data_dir_read) {
        cnf := IsduCnf([], IServiceOf(isdu_data[..]), IllegalServicePrimitive);
      }
    }

    /** DL_ISDUTransport_cnf: handed to the application layer. */
    method Confirmed(cnf: IsduCnf)
      requires Valid()
      modifies this`history
      ensures Valid()
      ensures View() == Confirm(old(View()), cnf)
    {
      history := history.(cnfs := history.cnfs + [cnf]);
    }

    method EnterIsduError4Sm()
      requires Valid()
      modifies this, odout_buffer
      ensures Valid()
      ensures View() == EnterIsduError4(old(View()))
    {
      if !ih.active {
        ih := ih.(total_isdu_seg := 0);
        Confirmed(IsduCnf([], 0, NoComm));
        ih := ih.(state := IhInactive0);
      } else if od.trigger == TrigMaster {
        IsduError4Sm();
      } else {
        ih := ih.(state := IhError4);
      }
    }

    method Result() returns (cnf: IsduCnf)
      requires Valid()
      ensures cnf == Completed(View())
    {
      var d := isdu_data[..];
      var len := TotalLenOf(d);
      if len == None {
        cnf := IsduCnf([], IServiceOf(d), Invalid);
      } else {
        var chk := CalcChkpdu(isdu_data, if ih.total_isdu_len <= ISDU_MAX_SIZE then ih.total_isdu_len else ISDU_MAX_SIZE);
        var n := (len.value - HeaderLen(d) - 1) % 256;
        FoldBehindBuffer(buffer, ih.total_isdu_len);
        cnf := IsduCnf(ResponseData(d, n), IServiceOf(d), if chk == 0 then NoError else IsduChecksumError);
      }
    }

    method ReceptionCompleteSm()
      requires Valid()
      modifies this
      ensures Valid()
      ensures View() == ReceptionComplete(old(View()))
    {
      var cnf := Result();
      ConcludeSm(cnf);
    }

    method ConcludeSm(cnf: IsduCnf)
      requires Valid()
      modifies this
      ensures Valid()
      ensures View() == Conclude(old(View()), cnf)
    {
      Confirmed(cnf);
      rwcmd := RwNone;
      ih := ih.(current_isdu_seg := 0, total_isdu_seg := 0, state := IhIdle1);
    }

    method StartRequestSm()
      requires Valid()
      modifies this, odout_buffer
      ensures Valid()
      ensures View() == StartRequest(old(View()))
    {
      SendOd(true, ChIsdu, FLOWCTRL_START, isdu_data[..od_len]);
      ih := ih.(current_isdu_seg := 1, state := IhRequest2);
    }

    method IdleMasterSm()
      requires Valid()
      modifies this, odout_buffer
      ensures Valid()
      ensures View() == IdleMaster(old(View()))
    {
      match rwcmd
      case RwIsduTransport => StartRequestSm();
      case RwReadParam => SendOd(false, ChPage, od.data_addr, []);
      case RwWriteParam => SendOd(true, ChPage, od.data_addr, [od.data_value]);
      case _ => SendOd(false, ChIsdu, FLOWCTRL_IDLE_1, []);
    }

    method IdleDeviceSm()
      requires Valid()
      modifies this
      ensures Valid()
      ensures View() == IdleDevice(old(View()))
    {
      match rwcmd
      case RwReadParam =>
        Told(ReadParamCnf(rxbuffer[0], NoError));
        rwcmd := RwNone;
      case RwWriteParam =>
        Told(WriteParamCnf(NoError));
        rwcmd := RwNone;
      case _ =>
    }

    method IsduIdle1Sm()
      requires Valid()
      modifies this, odout_buffer
      ensures Valid()
      ensures View() == IsduIdle1(old(View()))
    {
      if !ih.active {
        if ih.total_isdu_seg != 0 {
          Confirmed(IsduCnf([], 0, NoComm));
          ih := ih.(total_isdu_seg := 0);
        }
        ih := ih.(state := IhInactive0);
      } else if od.trigger == TrigMaster {
        IdleMasterSm();
      } else if od.trigger == TrigDevice {
        IdleDeviceSm();
      }
    }

    /** Any other primitive for the layers above. */
    method Told(p: Primitive)
      requires Valid()
      modifies this`history
      ensures Valid()
      ensures View() == Say(old(View()), p)
    {
      history := history.(log := history.log + [p]);
    }

    method NextRequestSegmentSm()
      requires Valid()
      modifies this, odout_buffer
      ensures Valid()
      ensures View() == NextRequestSegment(old(View()))
    {
      var off := od_len * ih.current_isdu_seg;
      TimesIsProduct(ih.current_isdu_seg, od_len);
      SendOd(true, ChIsdu, ih.current_isdu_seg % 16, Window(isdu_data[..], off, od_len));
      CountUp();
    }

    method IsduRequest2Sm()
      requires Valid()
      modifies this, odout_buffer
      ensures Valid()
      ensures View() == IsduRequest2(old(View()))
    {
      if rwcmd == RwIsduAbort || com_lost {
        EnterIsduError4Sm();
      } else if od.trigger == TrigMaster {
        NextRequestSegmentSm();
      } else if od.trigger == TrigDevice && ih.current_isdu_seg >= ih.total_isdu_seg {
        ih := ih.(timer_on := true, timer_expired := false, current_isdu_seg := 0, state := IhWait3);
      }
    }

    /** memcpy of the received octets to their place in the ISDU buffer; octets
        behind its end are dropped. */
    method CopyReceived()
      requires Valid()
      modifies isdu_data, this`buffer
      ensures Valid()
      ensures View() == Receive(old(View()))
    {
      var off := ih.current_isdu_seg * od_len;
      TimesIsProduct(ih.current_isdu_seg, od_len);
      ghost var was := isdu_data[..];
      var i := 0;
      while i < od_len
        invariant 0 <= i <= od_len
        invariant forall k :: 0 <= k < ISDU_MAX_SIZE ==>
          isdu_data[k] == if off <= k < off + i then rxbuffer[k - off] else was[k]
        modifies isdu_data
      {
        if off + i < ISDU_MAX_SIZE { isdu_data[off + i] := rxbuffer[i]; }
        i := i + 1;
      }
      buffer := Overwrite(was, off, Window(rxbuffer, 0, od_len));
      assert isdu_data[..] == buffer;
    }

    method UpdateLength()
      requires Valid()
      modifies this`ih
      ensures Valid()
      ensures View() == ReadLength(old(View()))
      ensures ih.total_isdu_seg == Pieces(ih.total_isdu_len, od_len)
    {
      var len := TotalLenOf(isdu_data[..]);
      ih := ih.(total_isdu_len := if len == None then 0 else len.value);
      ih := ih.(total_isdu_seg := (ih.total_isdu_len + od_len - 1) / od_len);
      PiecesIsCeiling(ih.total_isdu_len, od_len);
    }

    method FinishIfComplete()
      requires Valid()
      modifies this
      ensures Valid()
      ensures View() == Collected(old(View()))
    {
      if ih.current_isdu_seg >= ih.total_isdu_seg {
        ReceptionCompleteSm();
      }
    }

    method IsduWait3Sm()
      requires Valid()
      modifies this, odout_buffer, isdu_data
      ensures Valid()
      ensures View() == IsduWait3(old(View()))
    {
      if rwcmd == RwIsduAbort {
        ih := ih.(timer_on := false);
        EnterIsduError4Sm();
      } else if (ih.timer_on && ih.timer_expired) || com_lost {
        EnterIsduError4Sm();
      } else if od.trigger == TrigMaster {
        assert isdu_data[..od_len] == Window(isdu_data[..], 0, od_len);
        SendOd(false, ChIsdu, FLOWCTRL_START, isdu_data[..od_len]);
      } else if od.trigger == TrigDevice {
        CopyReceived();
        WaitAnswerSm();
      }
    }

    method WaitAnswerSm()
      requires Valid()
      modifies this, odout_buffer
      ensures Valid()
      ensures View() == Wait3Answer(old(View()))
    {
      if isdu_data[0] == DEVICE_NO_SERVICE * 16 + 1 {
        // Device busy.
      } else if isdu_data[0] == 0 || !ValidHeader(isdu_data[..], ih.data_dir_read) {
        ih := ih.(timer_on := false);
        EnterIsduError4Sm();
      } else {
        FirstSegmentSm();
      }
    }

    method FirstSegmentSm()
      requires Valid()
      modifies this
      ensures Valid()
      ensures View() == FirstSegment(old(View()))
    {
      FirstReadSm();
      FinishIfComplete();
    }

    method FirstReadSm()
      requires Valid()
      modifies this
      ensures Valid()
      ensures View() == FirstRead(old(View()))
      ensures ih.current_isdu_seg == 1 && ih.total_isdu_seg == Pieces(ih.total_isdu_len, od_len)
    {
      ih := ih.(current_isdu_seg := 1, state := IhResponse5);
      UpdateLength();
      ih := ih.(timer_on := false);
    }

    method IsduResponse5Sm()
      requires Valid()
      modifies this, odout_buffer, isdu_data
      ensures Valid()
      ensures View() == IsduResponse5(old(View()))
    {
      if rwcmd == RwIsduAbort || com_lost {
        EnterIsduError4Sm();
      } else if od.trigger == TrigMaster {
        var off := od_len * ih.current_isdu_seg;
        TimesIsProduct(ih.current_isdu_seg, od_len);
        SendOd(false, ChIsdu, ih.current_isdu_seg % 16, Window(isdu_data[..], off, od_len));
      } else if od.trigger == TrigDevice {
        NextSegmentSm();
      }
    }

    /** The counter is an octet. */
    method CountUp()
      requires Valid()
      modifies this`ih
      ensures Valid()
      ensures View() == CountSegment(old(View()))
      ensures ih.current_isdu_seg <= old(ih.current_isdu_seg) + 1
    {
      ih := ih.(current_isdu_seg := (ih.current_isdu_seg + 1) % 256);
    }

    method NextSegmentSm()
      requires Valid()
      modifies this, isdu_data
      ensures Valid()
      ensures View() == Collected(CountSegment(Receive(ReadLength(old(View())))))
    {
      UpdateLength();
      CopyReceived();
      CountUp();
      FinishIfComplete();
    }

    method IsduSmRun()
      requires Valid()
      modifies this, odout_buffer, isdu_data
      ensures Valid()
      ensures View() == IsduSm(old(View()))
    {
      match ih.state
      case IhInactive0 =>
        if ih.active {
          ih := ih.(total_isdu_seg := 0, current_isdu_seg := 0, state := IhIdle1);
        }
      case IhIdle1 => IsduIdle1Sm();
      case IhRequest2 => IsduRequest2Sm();
      case IhWait3 => IsduWait3Sm();
      case IhError4 => IsduError4Sm();
      case IhResponse5 => IsduResponse5Sm();
    }

    // ---------- Command handler ----------

    method CmdSmRun()
      requires Valid()
      modifies this, odout_buffer
      ensures Valid()
      ensures View() == CmdSm(old(View()))
    {
      match cmd.state
      case ChInactive0 =>
        if cmd.active { cmd := cmd.(state := ChIdle1); }
      case ChIdle1 =>
        if !cmd.active {
          cmd := cmd.(state := ChInactive0);
        } else if cmd.control_code == CcPdOutValid || cmd.control_code == CcPdOutInvalid {
          cmd := cmd.(master_command :=
                        if cmd.control_code == CcPdOutValid then MASTERCMD_DEVICE_PD_OUT_OP else MASTERCMD_DEVICE_OPERATE);
          cmd := cmd.(state := ChMasterCommand2);
        } else if cmd.control_code == CcDevicemode {
          cmd := cmd.(state := ChMasterCommand2);
        }
      case ChMasterCommand2 =>
        SendOd(true, ChPage, 0, [cmd.master_command]);
        cmd := cmd.(control_code := CcNone);
        cmd := cmd.(state := ChIdle1);
    }

    method WriteMasterCommandCnf(status: Status)
      requires Valid()
      modifies this
      ensures Valid()
      ensures View() == WriteMasterCommand(old(View()), status)
    {
      var mc := cmd.master_command;
      cmd := cmd.(master_command := MASTERCMD_NONE);
      if mc == MASTERCMD_DEVICE_OPERATE || mc == MASTERCMD_DEVICE_PREOP || mc == MASTERCMD_FALLBACK {
        Told(WriteDevicemodeCnf(mc, status));
      }
    }

    // ---------- Event handler ----------

    /** DL_Event_ind for every entry collected. */
    method SignalDetails()
      requires Valid()
      modifies this`ev, this`history
      ensures Valid()
      ensures var s := old(View());
              var n := s.ev.num_entries;
              var k := if n < 0 then 0 else if n > MAX_EVENTS then MAX_EVENTS else n;
              View() == s.(out := s.out.(log := s.out.log + Type2Inds(s.ev.events, k, n)),
                           ev := s.ev.(ev_current := k))
    {
      ghost var log := history.log;
      var e := ev;
      var i := 0;
      while i < e.num_entries && i < MAX_EVENTS
        invariant 0 <= i <= MAX_EVENTS && (i > 0 ==> i <= e.num_entries)
        invariant history == old(history).(log := log + Type2Inds(e.events, i, e.num_entries))
        invariant ev == old(ev)
      {
        var x := e.events[i];
        history := history.(log := history.log
          + [EventInd(U16(x.event_code_msb, x.event_code_lsb), x.event_qualifier, e.num_entries - i - 1)]);
        i := i + 1;
      }
      ev := ev.(ev_current := i);
    }

    /** DL_Event_ind for every marked bit of a status octet without details. */
    method SignalStatus()
      requires Valid()
      modifies this`ev, this`history
      ensures Valid()
      ensures var s := old(View());
              View() == s.(out := s.out.(log := s.out.log + Type1Inds(s.ev.status_code, 5, s.ev.num_entries)),
                           ev := s.ev.(num_entries := s.ev.num_entries - SlotCount(s.ev.status_code, 5)))
    {
      ghost var log := history.log;
      var e := ev;
      var n := e.num_entries;
      var i := 0;
      while i < 5
        invariant 0 <= i <= 5
        invariant n == e.num_entries - SlotCount(e.status_code, i)
        invariant history == old(history).(log := log + Type1Inds(e.status_code, i, e.num_entries))
        invariant ev == old(ev)
      {
        if Bit(e.status_code, i) {
          n := n - 1;
          history := history.(log := history.log + [EventInd(EvType1Code(i), EvType1Qualifier(i), n)]);
        }
        i := i + 1;
      }
      ev := ev.(num_entries := n);
    }

    method SignalEvent3Sm()
      requires Valid()
      modifies this`ev, this`history
      ensures Valid()
      ensures View() == SignalEvent3(old(View()))
    {
      if Details(ev.status_code) { SignalDetails(); } else { SignalStatus(); }
      ev := ev.(event_confirmation := true);
      ev := ev.(state := EhIdle1);
    }

    /** Counts the marked slots and finds where the first one starts. */
    method ScanStatus()
      requires Valid()
      modifies this`ev
      ensures Valid()
      ensures ev == EvScan(old(ev))
    {
      var sc := ev.status_code;
      ghost var first := NextSlot(sc, 0);
      var n, addr := ev.num_entries, ev.ev_addr;
      var i := 0;
      while i < MAX_EVENTS
        invariant 0 <= i <= MAX_EVENTS
        invariant n == ev.num_entries + SlotCount(sc, i)
        invariant addr == if ev.ev_addr == 0 && first < i then 1 + 3 * first else ev.ev_addr
      {
        if Bit(sc, i) {
          n := n + 1;
          if addr == 0 { addr := 1 + i * 3; }
        }
        i := i + 1;
      }
      ev := ev.(num_entries := n, ev_addr := addr);
      ev := ev.(ev_cnt := if addr == 0 then 0 else (addr - 1) / 3);
    }

    method CountStatus()
      requires Valid()
      modifies this`ev
      ensures Valid()
      ensures ev == old(ev).(num_entries := old(ev).num_entries + SlotCount(old(ev).status_code, 5))
    {
      var i, n := 0, ev.num_entries;
      while i < 5
        invariant 0 <= i <= 5
        invariant n == ev.num_entries + SlotCount(ev.status_code, i)
      {
        if Bit(ev.status_code, i) { n := n + 1; }
        i := i + 1;
      }
      ev := ev.(num_entries := n);
    }

    method StatusCodeSm()
      requires Valid()
      modifies this`ev, this`history
      ensures Valid()
      ensures View() == EvStatusCode(old(View()))
    {
      ev := ev.(status_code := rxbuffer[0]);
      if Details(ev.status_code) {
        ScanStatus();
      } else {
        CountStatus();
        SignalEvent3Sm();
      }
    }

    /** Moves on to the next marked slot. */
    method ScanNext()
      requires Valid()
      modifies this`ev
      ensures Valid()
      ensures ev == EvAdvance(old(ev))
    {
      var cnt, sc := ev.ev_cnt, ev.status_code;
      ghost var start := cnt;
      while cnt < MAX_EVENTS
        invariant start <= cnt && (start < cnt ==> cnt <= MAX_EVENTS)
        invariant cnt > start ==> cnt <= NextSlot(sc, start + 1) && !Bit(sc, cnt)
        invariant cnt < MAX_EVENTS ==> NextSlot(sc, cnt + 1) == NextSlot(sc, start + 1)
        decreases MAX_EVENTS - cnt
      {
        cnt := cnt + 1;
        if Bit(sc, cnt) {
          ev := ev.(ev_cnt := cnt, ev_addr := 1 + cnt * 3);
          return;
        }
      }
      ev := ev.(ev_cnt := cnt);
    }

    method SlotDoneSm()
      requires Valid()
      modifies this`ev, this`history
      ensures Valid()
      ensures View() == EvSlotDone(old(View()))
    {
      ScanNext();
      if ev.ev_cnt >= MAX_EVENTS {
        ev := ev.(ev_current := 0);
        SignalEvent3Sm();
      }
    }

    method StoreOctetSm(c: int)
      requires Valid()
      modifies this`ev
      ensures Valid()
      ensures ev == StoreOctet(old(ev), c, rxbuffer[0])
    {
      var i := ev.ev_current;
      var e := if i < MAX_EVENTS then ev.events[i] else NO_EVENT;
      match c
      case 1 =>
        e := e.(event_qualifier := rxbuffer[0]);
        ev := ev.(events := SetEvent(ev.events, i, e), ev_addr := ev.ev_addr + 1);
      case 2 =>
        e := e.(event_code_msb := rxbuffer[0]);
        ev := ev.(events := SetEvent(ev.events, i, e), ev_addr := ev.ev_addr + 1);
      case 3 =>
        e := e.(event_code_lsb := rxbuffer[0]);
        ev := ev.(events := SetEvent(ev.events, i, e), ev_current := i + 1);
      case _ =>
    }

    method MemoryByteSm()
      requires Valid()
      modifies this`ev, this`history
      ensures Valid()
      ensures View() == EvMemoryByte(old(View()))
    {
      var c := ev.ev_addr - ev.ev_cnt * 3;
      StoreOctetSm(c);
      if c == 3 { SlotDoneSm(); }
    }

    method EvIdle1Sm()
      requires Valid()
      modifies this, odout_buffer
      ensures Valid()
      ensures View() == EvIdle1(old(View()))
    {
      if !ev.active {
        ev := ev.(state := EhInactive0);
      } else if od.trigger == TrigMaster {
        if ev.event_confirmation {
          if com_lost {
            ev := ev.(state := EhInactive0);
          } else {
            SendOd(true, ChDiagnosis, 0, [EVENT_CONFIRM_OCTET]);
            ev := ev.(event_confirmation := false);
          }
        } else {
          ev := ev.(ev_addr := 0, num_entries := 0, ev_current := 0, events := NO_EVENTS);
          SendOd(false, ChDiagnosis, ev.ev_addr, []);
          ev := ev.(state := EhReadEvent2);
        }
      }
    }

    method EvSmRun()
      requires Valid()
      modifies this, odout_buffer
      ensures Valid()
      ensures View() == EvSm(old(View()))
    {
      match ev.state
      case EhInactive0 => if ev.active { ev := ev.(state := EhIdle1); }
      case EhIdle1 => EvIdle1Sm();
      case EhReadEvent2 =>
        if com_lost {
          ev := ev.(state := EhInactive0);
        } else if od.trigger == TrigMaster {
          SendOd(false, ChDiagnosis, ev.ev_addr, []);
        } else if od.trigger == TrigDevice {
          if ev.ev_addr == 0 { StatusCodeSm(); } else { MemoryByteSm(); }
        }
      case EhSignalEvent3 =>
    }

    // ---------- OD handler ----------

    method OdIsdu1Sm()
      requires Valid()
      modifies this, odout_buffer, isdu_data
      ensures Valid()
      ensures View() == OdHandlerIsdu1(old(View()))
    {
      if !od.active {
        od := od.(state := OdInactive0);
      } else if cmd.control_code != CcNone && od.trigger == TrigMaster {
        CmdSmRun();
        od := od.(state := OdCommand2);
      } else if ev.event_flag {
        IsduSmRun();
        od := od.(state := OdEvent3);
      } else if od.trigger != TrigNone {
        IsduSmRun();
        od := od.(trigger := TrigNone);
      }
    }

    method OdCommand2Sm()
      requires Valid()
      modifies this
      ensures Valid()
      ensures View() == OdHandlerCommand2(old(View()))
    {
      if !od.active {
        cmd := cmd.(state := ChInactive0);
      } else if od.trigger != TrigNone {
        od := od.(trigger := TrigNone);
        if cmd.control_code == CcNone {
          WriteMasterCommandCnf(NoError);
          od := od.(state := if ev.event_flag then OdEvent3 else OdIsdu1);
        }
      }
    }

    method OdEvent3Sm()
      requires Valid()
      modifies this, odout_buffer
      ensures Valid()
      ensures View() == OdHandlerEvent3(old(View()))
    {
      if !od.active {
        od := od.(state := OdInactive0);
      } else if cmd.control_code != CcNone && od.trigger == TrigMaster {
        CmdSmRun();
        od := od.(state := OdCommand2);
      } else if !ev.event_flag {
        od := od.(state := OdIsdu1);
      } else if od.trigger != TrigNone {
        EvSmRun();
        od := od.(trigger := TrigNone);
      }
    }

    method OdSmRun()
      requires Valid()
      modifies this, odout_buffer, isdu_data
      ensures Valid()
      ensures View() == OdSm(old(View()))
    {
      match od.state
      case OdInactive0 => if od.active { od := od.(state := OdIsdu1); }
      case OdIsdu1 => OdIsdu1Sm();
      case OdCommand2 => OdCommand2Sm();
      case OdEvent3 => OdEvent3Sm();
    }

    // ---------- what drives the handlers ----------

    method MasterMessage()
      requires Valid()
      modifies this, odout_buffer, isdu_data
      ensures Valid()
      ensures View() == Step(old(View()), Master)
    {
      od := od.(trigger := TrigMaster);
      OdSmRun();
    }

    method DeviceMessage(flag: bool, octets: RxBuffer)
      requires Valid()
      modifies this, odout_buffer, isdu_data
      ensures Valid()
      ensures View() == Step(old(View()), Device(flag, octets))
    {
      rxbuffer := octets;
      od := od.(trigger := TrigDevice);
      ev := ev.(event_flag := flag);
      OdSmRun();
    }

    /** DL_ISDUTransport_req. */
    method IsduTransportReq(q: Request)
      requires Valid()
      modifies this, isdu_data
      ensures Valid()
      ensures View() == Step(old(View()), IsduRequest(q))
    {
      if mode == MdIdle0 || mode == MdEstCom1 {
        Confirmed(IsduCnf([], 0, NoComm));
      } else if q.index < 2 {
        Confirmed(IsduCnf([], 0, ValueOutOfRange));
      } else if ih.state != IhIdle1 {
        Confirmed(IsduCnf([], 0, StateConflict));
      } else {
        Accept(q);
      }
    }

    method Accept(q: Request)
      requires Valid()
      modifies this, isdu_data
      ensures Valid()
      ensures View() == Loaded(old(View()), q)
    {
      var len := BuildRequest(isdu_data, q);
      buffer := isdu_data[..];
      Load(q.read, len);
    }

    method Load(read: bool, len: nat)
      requires Valid()
      modifies this
      ensures Valid()
      ensures View() == LoadedWith(old(View()), read, buffer, len)
    {
      PiecesIsCeiling(len, od_len);
      ih := ih.(data_dir_read := read, total_isdu_len := len, total_isdu_seg := (len + od_len - 1) / od_len,
                current_isdu_seg := 0);
      rwcmd := RwIsduTransport;
    }

    /** DL_ReadParam_req and DL_WriteParam_req. */
    method ParameterReq(write: bool, address: nat, value: byte, ready: bool)
      requires Valid()
      modifies this
      ensures Valid()
      ensures View() == Step(old(View()), Param(write, address, value, ready))
    {
      rwcmd := if write then RwWriteParam else RwReadParam;
      if !ready || address > 31 {
        var status := if !ready then StateConflict else ValueOutOfRange;
        Told(if write then WriteParamCnf(status) else ReadParamCnf(0, status));
      } else {
        od := od.(data_addr := address);
        if write { od := od.(data_value := value); }
      }
    }

    /** DL_Control_req. */
    method ControlRequest(code: ControlCode)
      requires Valid()
      modifies this, odout_buffer
      ensures Valid()
      ensures View() == Step(old(View()), Control(code))
    {
      if code != CcNone && code != CcDevicemode {
        cmd := cmd.(control_code := code);
        CmdSmRun();
      }
    }

    /** DL_Write_Devicemode_req. */
    method DevicemodeRequest(devicemode: DlMode)
      requires Valid()
      modifies this, odout_buffer
      ensures Valid()
      ensures View() == Step(old(View()), Devicemode(devicemode))
    {
      if mode == MdStartup2 {
        Told(WriteDevicemodeCnf(MASTERCMD_NONE, StateConflict));
      } else {
        cmd := cmd.(master_command := DevicemodeCommand(devicemode), control_code := CcDevicemode);
        CmdSmRun();
        if mode == MdPreoperate3 && devicemode == ModeInactive {
          Told(WriteDevicemodeCnf(MASTERCMD_FALLBACK, NoError));
        }
      }
    }

    // ---------- activation and the mode handler ----------

    method OhConfSm(active: bool)
      requires Valid()
      modifies this, odout_buffer, isdu_data
      ensures Valid()
      ensures View() == OhConf(old(View()), active)
    {
      od := od.(active := active);
      OdSmRun();
    }

    method IhConfSm(active: bool)
      requires Valid()
      modifies this, odout_buffer, isdu_data
      ensures Valid()
      ensures View() == IhConf(old(View()), active)
    {
      ih := ih.(active := active);
      IsduSmRun();
    }

    method EhConfSm(active: bool)
      requires Valid()
      modifies this, odout_buffer
      ensures Valid()
      ensures View() == EhConf(old(View()), active)
    {
      ev := ev.(active := active);
      EvSmRun();
    }

    method ChConfSm(active: bool)
      requires Valid()
      modifies this, odout_buffer
      ensures Valid()
      ensures View() == ChConf(old(View()), active)
    {
      cmd := cmd.(active := active);
      CmdSmRun();
    }

    method SetHandlersActive(active: bool)
      requires Valid()
      modifies this, odout_buffer, isdu_data
      ensures Valid()
      ensures View() == SetActive(old(View()), active)
    {
      OhConfSm(active);
      IhConfSm(active);
      EhConfSm(active);
    }

    method AnswerAccessSm()
      requires Valid()
      modifies this`history
      ensures Valid()
      ensures View() == AnswerAccess(old(View()))
    {
      match rwcmd
      case RwReadParam => Told(ReadParamCnf(0, NoComm));
      case RwWriteParam => Told(WriteParamCnf(NoComm));
      case _ =>
    }

    method AnswerAllSm()
      requires Valid()
      modifies this
      ensures Valid()
      ensures View() == AnswerAll(old(View()))
    {
      WriteMasterCommandCnf(NoComm);
      AnswerAccessSm();
    }

    /** The message handler gives the link up. */
    method CommunicationLost(preoperate: bool)
      requires Valid()
      modifies this
      ensures Valid()
      ensures View() == Step(old(View()), LinkLost(preoperate))
    {
      if preoperate {
        AnswerAllSm();
      }
      com_lost := true;
      rwcmd := RwNone;
    }

    method GotoIdleSm()
      requires Valid()
      modifies this, odout_buffer, isdu_data
      ensures Valid()
      ensures View() == GotoIdle(old(View()))
    {
      SetHandlersActive(false);
      ChConfSm(false);
      com_lost := false;
      mode := MdIdle0;
    }

    method Startup2ModeSm()
      requires Valid() && mode == MdStartup2
      modifies this, odout_buffer, isdu_data
      ensures Valid()
      ensures View() == ModeSm(old(View()))
    {
      if dl_mode == ModePreoperate || dl_mode == ModeOperate {
        var next := if dl_mode == ModePreoperate then MdPreoperate3 else MdOperate4;
        SetHandlersActive(true);
        mode := next;
      } else if dl_mode == ModeInactive || com_lost {
        GotoIdleSm();
      }
    }

    method ModeHandlerSm()
      requires Valid()
      modifies this, odout_buffer, isdu_data
      ensures Valid()
      ensures View() == Step(old(View()), ModeEvent)
    {
      match mode
      case MdIdle0 => if dl_mode == ModeStartup { mode := MdEstCom1; }
      case MdEstCom1 =>
      case MdStartup2 => Startup2ModeSm();
      case MdPreoperate3 => PreoperateModeSm();
      case MdOperate4 => OperateModeSm();
    }

    method PreoperateModeSm()
      requires Valid() && mode == MdPreoperate3
      modifies this, odout_buffer, isdu_data
      ensures Valid()
      ensures View() == ModeSm(old(View()))
    {
      if dl_mode == ModeStartup {
        ChConfSm(false);
        SetHandlersActive(false);
        mode := MdStartup2;
      } else if dl_mode == ModeInactive {
      } else if com_lost {
        GotoIdleSm();
      } else if dl_mode == ModeOperate {
        mode := MdOperate4;
      }
    }

    method OperateModeSm()
      requires Valid() && mode == MdOperate4
      modifies this, odout_buffer, isdu_data
      ensures Valid()
      ensures View() == ModeSm(old(View()))
    {
      if dl_mode == ModeStartup {
        SetHandlersActive(false);
        mode := MdStartup2;
      } else if dl_mode == ModeInactive || com_lost {
        GotoIdleSm();
      }
    }

    // ---------- timers, aborts and the rest of the environment ----------

    /** The abort command that the handler's states test for; no service of this
        code sets it. */
    method AbortReq()
      requires Valid()
      modifies this`rwcmd
      ensures Valid()
      ensures View() == Step(old(View()), Input.Abort)
    {
      rwcmd := RwIsduAbort;
    }

    /** The response time has run out on the clock. */
    method ResponseTimePassed()
      requires Valid()
      modifies this`ih
      ensures Valid()
      ensures View() == Step(old(View()), TimerExpires)
    {
      ih := ih.(timer_expired := true);
    }

    /** DL_SetMode_req, with the message layout of the mode asked for. */
    method SetModeReq(new_mode: DlMode, new_od_len: OdLen)
      requires Valid()
      modifies this`dl_mode, this`od_len
      ensures Valid()
      ensures View() == Step(old(View()), SetMode(new_mode, new_od_len))
    {
      dl_mode := new_mode;
      if new_mode != ModeInactive { od_len := new_od_len; }
    }

    /** The wake-up was answered, or not. */
    method WokenUp(ok: bool)
      requires Valid()
      modifies this, odout_buffer
      ensures Valid()
      ensures View() == Step(old(View()), WakeUp(ok))
    {
      if ok {
        mode := MdStartup2;
        ChConfSm(true);
      } else {
        mode := MdIdle0;
        com_lost := false;
      }
    }

    /** The message handler takes on a direct parameter access in STARTUP. */
    method AccessTaken(access_write: bool)
      requires Valid()
      modifies this`rwcmd
      ensures Valid()
      ensures View() == Step(old(View()), DirectAccess(access_write))
    {
      rwcmd := if access_write then RwWrite else RwRead;
    }

    method AccessAnswered()
      requires Valid()
      modifies this`rwcmd
      ensures Valid()
      ensures View() == Step(old(View()), AccessDone)
    {
      if rwcmd == RwRead || rwcmd == RwWrite { rwcmd := RwNone; }
    }

    // ---------- the thread of the data link layer ----------

    method Take(i: Input)
      requires Valid()
      modifies this, odout_buffer, isdu_data
      ensures Valid()
      ensures View() == Step(old(View()), i)
    {
      match i
      case Master => MasterMessage();
      case Device(flag, rx) => DeviceMessage(flag, rx);
      case IsduRequest(q) => IsduTransportReq(q);
      case Param(write, address, value, ready) => ParameterReq(write, address, value, ready);
      case Control(code) => ControlRequest(code);
      case Devicemode(m) => DevicemodeRequest(m);
      case Abort => AbortReq();
      case TimerExpires => ResponseTimePassed();
      case LinkLost(preoperate) => CommunicationLost(preoperate);
      case SetMode(m, len) => SetModeReq(m, len);
      case ModeEvent => ModeHandlerSm();
      case WakeUp(ok) => WokenUp(ok);
      case DirectAccess(write) => AccessTaken(write);
      case AccessDone => AccessAnswered();
    }

    /** One event after the other: the handlers do what the step machine does. */
    method Drive(inputs: seq<Input>)
      requires Valid()
      modifies this, odout_buffer, isdu_data
      ensures Valid()
      ensures View() == Run(old(View()), inputs)
    {
      var i := 0;
      while i < |inputs|
        invariant 0 <= i <= |inputs| && Valid()
        invariant View() == Run(old(View()), inputs[..i])
      {
        RunOneMore(old(View()), inputs, i);
        Take(inputs[i]);
        i := i + 1;
      }
      assert inputs[..|inputs|] == inputs;
    }

    /** So no sequence of calls from a reset confirms more than was requested, and
        what is missing is under way or was dropped. */
    method DriveFromReset(inputs: seq<Input>)
      requires Valid() && Fresh(View()) && CleanRun(View(), inputs)
      modifies this, odout_buffer, isdu_data
      ensures Valid() && |history.cnfs| <= Asked(inputs)
      ensures |history.cnfs| + One(Owing(View())) + Dropped(old(View()), inputs) == Asked(inputs)
    {
      ConfirmedAtMostOnce(View(), inputs);
      Drive(inputs);
    }

    /** And every request the handlers have accepted, with every answer of a device,
        is sent and confirmed as the transport theorems say. */
    method DriveTransfer(q: Request, resp: seq<byte>, awaiting: bool, inputs: seq<Input>)
      requires Valid() && Accepted(Session(View(), awaiting, []), q)
      requires Framed(resp, q.read, od_len)
      requires UndisturbedRun(From(Session(View(), awaiting, [])), inputs, resp)
      requires Times(RequestSegments(q, od_len), od_len) <= ISDU_MAX_SIZE
      modifies this, odout_buffer, isdu_data
      ensures Valid()
      ensures TransferTaken(Session(old(View()), awaiting, []), q, resp, inputs, View())
    {
      ghost var x := Session(View(), awaiting, []);
      UndisturbedIsAnyDevice(From(x), inputs, resp);
      RequestEndToEnd(x, q, inputs);
      ResponseEndToEnd(x, q, resp, inputs);
      TransferFollowsMachine(From(x), inputs);
      Drive(inputs);
    }

    /** And every event memory is read and signalled as the event theorem says. */
    method DriveReading(mem: DlEvents.Memory, inputs: seq<Input>)
      requires Valid() && DlEventRuns.FlagRaised(Session(View(), false, []))
      requires DlEvents.ServesRun(Session(View(), false, []), inputs, mem)
      requires Details(mem[0]) && DlEvents.InUse(mem) != []
      modifies this, odout_buffer, isdu_data
      ensures Valid() && View() == SessionRun(Session(old(View()), false, []), inputs).dl
      ensures var x := Session(old(View()), false, []);
              DlEventRuns.ReadAndSignalled(old(history), mem, DlEventRuns.OwnReads(x, inputs), SessionRun(x, inputs))
    {
      DlEventRuns.EventsReadAndSignalled(Session(View(), false, []), mem, inputs);
      SessionFollowsMachine(Session(View(), false, []), inputs);
      Drive(inputs);
    }

    /** With the flag up, cycle after cycle, as the theorem of the cycles says. */
    method DriveCycles(mem: DlEvents.Memory, inputs: seq<Input>)
      requires Valid() && DlEventRuns.FlagRaised(Session(View(), false, []))
      requires DlEventCycles.StaysUpRun(Session(View(), false, []), inputs, mem)
      requires Details(mem[0]) && DlEvents.InUse(mem) != []
      modifies this, odout_buffer, isdu_data
      ensures Valid() && View() == SessionRun(Session(old(View()), false, []), inputs).dl
      ensures var x := Session(old(View()), false, []);
              DlEventCycles.ConfirmedInTurn(x, mem, DlEventRuns.OwnReads(x, inputs), SessionRun(x, inputs))
    {
      DlEventCycles.EventsConfirmedInTurn(Session(View(), false, []), mem, inputs);
      SessionFollowsMachine(Session(View(), false, []), inputs);
      Drive(inputs);
    }

    /** A request that the device puts off is given up as the theorem of the response
        time says. */
    method DriveTimeout(q: Request, awaiting: bool, inputs: seq<Input>)
      requires Valid() && Accepted(Session(View(), awaiting, []), q)
      requires AnyDeviceRun(From(Session(View(), awaiting, [])), inputs)
      requires DlTimeouts.PutOffRun(From(Session(View(), awaiting, [])), q, inputs)
      modifies this, odout_buffer, isdu_data
      ensures Valid()
      ensures history.cnfs == old(history).cnfs
                + if DlTimeouts.GivesUp(From(Session(old(View()), awaiting, [])), q, inputs) then [DlTimeouts.TIMEOUT] else []
    {
      ghost var x := Session(View(), awaiting, []);
      DlTimeouts.TimeoutReported(x, q, inputs);
      TransferFollowsMachine(From(x), inputs);
      Drive(inputs);
    }
  }
}
