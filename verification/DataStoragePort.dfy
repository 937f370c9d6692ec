/**
 * Data storage as it runs: one object per port, whose store and index list are
 * arrays filled in place and whose event loop runs to completion. Every method
 * is tied to the step function on values.
 */
module DataStoragePort {
  import opened Bytes
  import opened IsduCodec
  import opened DataStorage
  import opened DataStorageRuns
  import opened DataStorageStore

  /** master_ds without its bytes. */
  datatype StoreHead = StoreHead(id: Id, cs: nat, valid: bool, pos: nat, size: nat)

  predicate IsCheck(a: Action) {
    a == ActCheckId || a == ActCheckMemSize || a == ActCheckUpload || a == ActCheckValidity || a == ActCheckChecksum
  }

  predicate IsTransfer(a: Action) {
    || a == ActUpload || a == ActReadParam || a == ActInitDownload
    || a == ActDecomposeSet || a == ActWriteParam || a == ActDownloadDone
  }

  function OctetAt(d: Data, i: nat): byte {
    if i < DS_MAX_SIZE then d[i] else 0
  }

  /** A record read octet by octet. */
  lemma RecordByOctets(d: Data, at: nat)
    ensures RecordAt(d, at) ==
      Record(Entry(U16(OctetAt(d, at), OctetAt(d, at + 1)), OctetAt(d, at + 2)),
             Window(d, at + 4, OctetAt(d, at + 3)))
  {
    var h := Window(d, at, 4);
    assert h[0] == OctetAt(d, at) && h[1] == OctetAt(d, at + 1);
    assert h[2] == OctetAt(d, at + 2) && h[3] == OctetAt(d, at + 3);
  }

  lemma RunOneMore(s: Ds, inputs: seq<Input>, i: nat)
    requires i < |inputs|
    ensures Run(s, inputs[..i + 1]) == Step(Run(s, inputs[..i]), inputs[i])
  {
    assert inputs[..i + 1][..i] == inputs[..i];
  }

  class DsPort {
    var state: DsState
    var conf: Conf
    var device_ds: DeviceDs
    var current: Entry

    // master_ds
    var head: StoreHead
    const data: array<byte>

    // index_list
    const entries: array<Entry>
    var count: ListCount
    var list_pos: nat

    // The contents of the two arrays, and the history.
    ghost var bytes: Data
    ghost var list: Entries
    ghost var up: UploadLog
    ghost var h: History

    ghost predicate Valid()
      reads this, data, entries
    {
      && data.Length == DS_MAX_SIZE && entries.Length == INDEX_LIST_MAX_ENTRIES
      && data[..] == bytes && entries[..] == list
    }

    ghost function View(): Ds
      reads this
    {
      Ds(state, conf, device_ds, current, IndexList(list, count, list_pos),
         Store(head.id, head.cs, head.valid, head.pos, head.size, bytes), up, h)
    }

    /** iolink_ds_init. */
    constructor ()
      ensures Valid() && fresh(data) && fresh(entries)
      ensures Initial(View())
    {
      state, conf := CheckActivationState, Conf(false, false, false, FaultNone, Id(0, 0), Id(0, 0));
      device_ds, current := DeviceDs(0, 0, 0), Entry(0, 0);
      head := StoreHead(Id(0, 0), 0, false, 0, 0);
      data := new byte[DS_MAX_SIZE](_ => 0);
      entries := new Entry[INDEX_LIST_MAX_ENTRIES](_ => Entry(0, 0));
      count, list_pos := 0, 0;
      up, h := UploadLog([], [], [], false, false), History([], 0, [], false, []);
      new;
      bytes, list := data[..], entries[..];
    }

    // ---------- requests to the application layer ----------

    method ReadReq(e: Entry)
      requires Valid()
      modifies this`current, this`up
      ensures Valid() && View() == AlRead(old(View()), e)
    {
      current := e;
      up := up.(asked := up.asked + [e]);
    }

    method WriteReq(r: Record)
      requires Valid()
      modifies this`h
      ensures Valid() && View() == AlWrite(old(View()), r)
    {
      h := h.(writes := h.writes + [r]);
    }

    method CommandReq(cmd: byte)
      requires Valid()
      modifies this`current, this`h
      ensures Valid() && View() == Command(old(View()), cmd)
    {
      current := COMMAND;
      WriteReq(Record(COMMAND, [cmd]));
    }

    method Note(n: DataStorage.Note)
      requires Valid()
      modifies this`h
      ensures Valid() && View() == Noted(old(View()), n)
    {
      h := h.(log := h.log + [n]);
    }

    // ---------- actions ----------

    method FaultAct(e: DsEvent) returns (next: DsEvent)
      requires Valid()
      modifies this
      ensures Valid() && RaiseFault(old(View()), e) == Outcome(View(), next)
    {
      next := EvNone;
      match e
      case EvFaultId =>
        Note(Faulted(FaultId));
        next := EvFaultDone;
      case EvFaultSize =>
        Note(Faulted(FaultSize));
        next := EvFaultDone;
      case EvFaultUl =>
        conf := conf.(fault := FaultUp);
        CommandReq(CMD_BREAK);
      case EvFaultDl =>
        conf := conf.(fault := FaultDown);
        CommandReq(CMD_BREAK);
      case EvFaultLock =>
        conf := conf.(enable := false);
        Note(Faulted(FaultLock));
        next := EvFaultDone;
      case _ =>
    }

    method CheckIdAct() returns (next: DsEvent)
      requires Valid()
      modifies this
      ensures Valid() && CheckId(old(View())) == Outcome(View(), next)
    {
      next := EvNone;
      Note(Activated);
      if head.id.vendor == 0 || (head.id.vendor == conf.port.vendor && head.id.device == conf.port.device) {
        ReadReq(SIZE);
      } else {
        next := EvFaultId;
      }
    }

    method CheckFlagsAct() returns (next: DsEvent)
      requires Valid()
      modifies this
      ensures Valid() && CheckFlags(old(View())) == Outcome(View(), next)
    {
      next := EvNone;
      var upload_flag := device_ds.state_property / 128 == 1;
      if (device_ds.state_property / 2) % 4 == 3 {
        next := EvFaultLock;
      } else if upload_flag {
        if conf.upload { CommandReq(CMD_UL_START); } else { ReadReq(CHECKSUM); }
      } else {
        ReadReq(CHECKSUM);
      }
    }

    method CheckSizeAct() returns (next: DsEvent)
      requires Valid()
      modifies this
      ensures Valid() && CheckSize(old(View())) == Outcome(View(), next)
    {
      next := EvNone;
      if DS_MAX_SIZE < device_ds.size_max { next := EvFaultSize; } else { ReadReq(STATE_PROPERTY); }
    }

    method CheckValidityAct() returns (next: DsEvent)
      requires Valid()
      modifies this
      ensures Valid() && CheckValidity(old(View())) == Outcome(View(), next)
    {
      next := EvNone;
      if head.valid { next := EvPassed; } else { CommandReq(CMD_UL_START); }
    }

    method CheckCsAct() returns (next: DsEvent)
      requires Valid()
      ensures CheckCs(View()) == Outcome(View(), next)
    {
      next := if conf.download && head.cs != device_ds.cs then EvDownload else EvReady;
    }

    method WaitAct(e: DsEvent)
      requires Valid()
      modifies this`h
      ensures Valid() && View() == Ended(old(View()), e)
    {
      if e == EvComErr { Note(Silent); }
    }

    method OffAct(e: DsEvent)
      requires Valid()
      modifies this`h
      ensures Valid() && View() == WentOff(old(View()), e)
    {
      if e == EvStartup { h := h.(off_ready := h.off_ready + 1); }
    }

    method DeleteAct()
      requires Valid()
      modifies this`head
      ensures Valid() && View() == Delete(old(View()))
    {
      head := StoreHead(Id(0, 0), 0, false, 0, head.size);
    }

    method ReinitAct(from: DsState) returns (next: DsEvent)
      requires Valid()
      modifies this`h
      ensures Valid() && Reinit(old(View()), from) == Outcome(View(), next)
    {
      if Active(from) { Note(Silent); }
      next := if conf.enable then EvEnable else EvClrDisa;
    }

    method UploadStartAct() returns (next: DsEvent)
      requires Valid()
      modifies this
      ensures Valid() && UploadStart(old(View())) == Outcome(View(), next)
    {
      head := head.(pos := 0);
      list_pos := 0;
      current := INDEX_LIST;
      up := UploadLog([], [], [], true, false);
      h := h.(intact := false);
      next := EvMoreData;
    }

    method UploadNextAct() returns (next: DsEvent)
      requires Valid()
      modifies this
      ensures Valid() && UploadNext(old(View())) == Outcome(View(), next)
    {
      if list_pos < count {
        current := entries[list_pos];
        list_pos := list_pos + 1;
        next := EvMoreData;
      } else {
        head := head.(size := head.pos);
        h := h.(complete := up.stored, intact := up.own);
        ReadReq(CHECKSUM);
        next := EvStoreData;
      }
    }

    method DecomposeAct(e: DsEvent) returns (next: DsEvent)
      requires Valid()
      modifies this
      ensures Valid() && Decompose(old(View()), e) == Outcome(View(), next)
    {
      if e == EvDownload {
        head := head.(pos := 0);
        h := h.(writes := []);
      }
      next := if head.pos >= head.size then EvDlDone else EvMoreData;
    }

    /** The octet at the parse position, which moves on. */
    method TakeOctet() returns (b: byte)
      requires Valid()
      modifies this`head
      ensures Valid() && head == old(head).(pos := old(head.pos) + 1)
      ensures b == OctetAt(bytes, old(head.pos))
    {
      b := if head.pos < DS_MAX_SIZE then data[head.pos] else 0;
      head := head.(pos := head.pos + 1);
    }

    method TakeRecord() returns (r: Record)
      requires Valid()
      modifies this`head
      ensures Valid() && r == RecordAt(bytes, old(head.pos))
      ensures head == old(head).(pos := old(head.pos) + 4 + |r.data|)
    {
      RecordByOctets(bytes, head.pos);
      var hi := TakeOctet();
      var lo := TakeOctet();
      var subindex := TakeOctet();
      var len := TakeOctet();
      r := Record(Entry(U16(hi, lo), subindex), Window(data[..], head.pos, len));
      head := head.(pos := head.pos + len);
    }

    method WriteParamAct()
      requires Valid()
      modifies this
      ensures Valid() && View() == WriteParam(old(View()))
    {
      var r := TakeRecord();
      current := Entry(3, r.entry.subindex);
      WriteReq(r);
    }

    /** The checks of UploadDownload_2. */
    method PerformCheck(a: Action, e: DsEvent, from: DsState) returns (next: DsEvent)
      requires Valid() && IsCheck(a)
      modifies this
      ensures Valid() && Act(old(View()), a, e, from) == Outcome(View(), next)
    {
      next := EvNone;
      match a
      case ActCheckId => next := CheckIdAct();
      case ActCheckMemSize => next := CheckSizeAct();
      case ActCheckUpload => next := CheckFlagsAct();
      case ActCheckValidity => next := CheckValidityAct();
      case ActCheckChecksum => next := CheckCsAct();
    }

    /** The actions of Upload_7 and Download_10. */
    method PerformTransfer(a: Action, e: DsEvent, from: DsState) returns (next: DsEvent)
      requires Valid() && IsTransfer(a)
      modifies this
      ensures Valid() && Act(old(View()), a, e, from) == Outcome(View(), next)
    {
      next := EvNone;
      match a
      case ActUpload => next := UploadAct(e);
      case ActReadParam => ReadReq(current);
      case ActInitDownload => CommandReq(CMD_DL_START);
      case ActDecomposeSet => next := DecomposeAct(e);
      case ActWriteParam => WriteParamAct();
      case ActDownloadDone => CommandReq(CMD_DL_END);
    }

    method UploadAct(e: DsEvent) returns (next: DsEvent)
      requires Valid()
      modifies this
      ensures Valid() && Upload(old(View()), e) == Outcome(View(), next)
    {
      next := EvNone;
      if e == EvDoUpload { next := UploadStartAct(); } else if e == EvReadDone { next := UploadNextAct(); }
    }

    method PerformOther(a: Action, e: DsEvent, from: DsState) returns (next: DsEvent)
      requires Valid() && !IsCheck(a) && !IsTransfer(a)
      modifies this
      ensures Valid() && Act(old(View()), a, e, from) == Outcome(View(), next)
    {
      next := EvNone;
      match a
      case ActWait => WaitAct(e);
      case ActOff => OffAct(e);
      case ActDelete => DeleteAct();
      case ActReinit => next := ReinitAct(from);
      case ActReady =>
        Note(Ready);
        next := EvReady;
      case ActFault => next := FaultAct(e);
      case ActStoreData =>
      case ActUploadFault => next := EvFaultUl;
      case ActDownloadFault => next := EvFaultDl;
    }

    method Perform(a: Action, e: DsEvent, from: DsState) returns (next: DsEvent)
      requires Valid()
      modifies this
      ensures Valid() && Act(old(View()), a, e, from) == Outcome(View(), next)
    {
      if IsCheck(a) {
        next := PerformCheck(a, e, from);
      } else if IsTransfer(a) {
        next := PerformTransfer(a, e, from);
      } else {
        next := PerformOther(a, e, from);
      }
    }

    // ---------- the event loop ----------

    /** iolink_ds_event: ends for every state, event and data. */
    method Event(e: DsEvent)
      requires Valid()
      modifies this
      ensures Valid() && View() == Handle(old(View()), e)
    {
      var event, done := e, false;
      while !done
        invariant Valid()
        invariant Handle(old(View()), e) == if done then View() else Handle(View(), event)
        decreases if done then 0 else 1, Rank(state, event)
      {
        ghost var before := View();
        FireRanks(before, event);
        var transition := Lookup(state, event);
        if transition == None {
          done := true;
        } else {
          var from := state;
          state := transition.value.next;
          var next := Perform(transition.value.action, event, from);
          assert Fire(before, event) == Outcome(View(), next);
          event := next;
          done := event == EvNone;
        }
      }
    }

    // ---------- confirmations ----------

    /** Walks the list read until its terminating entry, at most 70 entries. */
    method WalkIndexList(buf: seq<byte>) returns (i: nat)
      requires entries.Length == INDEX_LIST_MAX_ENTRIES
      modifies entries
      ensures i == ListEnd(buf, 0) && entries[..] == Listed(old(entries[..]), buf, i)
    {
      ghost var was := entries[..];
      var read_data_pos := 0;
      i := 0;
      while i < INDEX_LIST_MAX_ENTRIES
        invariant 0 <= i <= INDEX_LIST_MAX_ENTRIES && read_data_pos == 3 * i
        invariant ListEnd(buf, 0) == ListEnd(buf, i)
        invariant entries[..] == Listed(was, buf, i)
      {
        var index := U16(Octet(buf, read_data_pos), Octet(buf, read_data_pos + 1));
        read_data_pos := read_data_pos + 2;
        ListEndNext(buf, i);
        if index == 0 {
          break;
        }
        var subindex := Octet(buf, read_data_pos);
        read_data_pos := read_data_pos + 1;
        assert Entry(index, subindex) == ListEntry(buf, i);
        ListedNext(was, buf, i);
        entries[i] := Entry(index, subindex);
        i := i + 1;
      }
    }

    method ParseIndexList(buf: seq<byte>)
      requires Valid()
      modifies this`count, this`list, entries
      ensures Valid()
      ensures IndexList(list, count, list_pos) == ParseList(old(IndexList(list, count, list_pos)), buf)
    {
      var n := WalkIndexList(buf);
      list := entries[..];
      if n < INDEX_LIST_MAX_ENTRIES { count := n; }
    }

    method CopyRecord(r: Record)
      requires Valid() && FitsAt(head.pos, |r.data|)
      modifies data, this`bytes
      ensures Valid() && bytes == Overwrite(old(bytes), head.pos, RecordBytes(r))
    {
      ghost var b := RecordBytes(r);
      var pos := head.pos;
      data[pos] := r.entry.index / 256;
      data[pos + 1] := r.entry.index % 256;
      data[pos + 2] := r.entry.subindex;
      data[pos + 3] := |r.data|;
      var i := 0;
      while i < |r.data|
        invariant 0 <= i <= |r.data|
        invariant forall k :: 0 <= k < DS_MAX_SIZE ==>
          data[k] == if pos <= k < pos + 4 + i then b[k - pos] else bytes[k]
        modifies data
      {
        data[pos + 4 + i] := r.data[i];
        i := i + 1;
      }
      bytes := Overwrite(bytes, pos, b);
      assert data[..] == bytes;
    }

    /** Appends a record if it fits entirely. */
    method AppendRecord(len: byte, buf: seq<byte>)
      requires Valid()
      modifies this, data
      ensures Valid()
      ensures View() == StoreRecord(old(View()), Record(old(current), Window(buf, 0, len)))
    {
      var r := Record(current, Window(buf, 0, len));
      up := up.(seen := up.seen + [r]);
      if head.pos + 2 + 1 + len < DS_MAX_SIZE {
        CopyRecord(r);
        head := head.(pos := head.pos + 4 + len);
        up := up.(stored := up.stored + [r]);
      }
    }

    method ParameterAnswer(len: byte, buf: seq<byte>)
      requires Valid()
      modifies this, data, entries
      ensures Valid()
      ensures View() == ParameterRead(old(View()), len, buf)
    {
      if current.index == 3 && current.subindex == 5 {
        ParseIndexList(buf);
        up := up.(relisted := up.relisted || list_pos > 0);
      } else {
        AppendRecord(len, buf);
      }
    }

    method ChecksumAnswer(len: byte, buf: seq<byte>)
      requires Valid()
      modifies this
      ensures Valid()
      ensures View() == ChecksumRead(old(View()), len, buf)
    {
      if len < 4 { Event(EvComErr); }
      device_ds := device_ds.(cs := U32(buf));
    }

    /** ds_read_cnf_cb. */
    method ReadConfirmation(error: AlError, len: byte, buf: seq<byte>)
      requires Valid()
      modifies this, data, entries
      ensures Valid()
      ensures View() == Step(old(View()), ReadConfirmed(error, len, buf))
    {
      if error == ErrCom {
        Event(EvComErr);
        return;
      }
      match state
      case CheckIdentity =>
        if error != ErrNone || len < 4 {
          Event(EvFaultId);
        } else {
          device_ds := device_ds.(size_max := U32(buf));
          Event(EvPassed);
        }
      case CheckMemSize =>
        if error != ErrNone || len != 1 {
          Event(EvFaultSize);
        } else {
          device_ds := device_ds.(state_property := Octet(buf, 0));
          Event(EvPassed);
        }
      case ReadParameter =>
        if error != ErrNone {
          Event(EvDevErr);
        } else {
          ParameterAnswer(len, buf);
          Event(EvReadDone);
        }
      case CheckUpload =>
        ChecksumAnswer(len, buf);
        Event(EvNoUpload);
      case StoreDataSet =>
        ChecksumAnswer(len, buf);
        CommandReq(CMD_UL_END);
      case DownloadDone =>
        ChecksumAnswer(len, buf);
        Event(EvReady);
      case _ =>
    }

    /** ds_write_cnf_cb. */
    method WriteConfirmation(error: AlError)
      requires Valid()
      modifies this
      ensures Valid()
      ensures View() == Step(old(View()), WriteConfirmed(error))
    {
      if error != ErrNone {
        Event(EvComErr);
        return;
      }
      match state
      case CheckUpload => Event(EvDoUpload);
      case CheckDSValidity => Event(EvDoUpload);
      case WriteParameter => Event(EvWrDone);
      case StoreDataSet =>
        head := head.(id := conf.pending, cs := device_ds.cs, valid := true);
        Event(EvUlDone);
      case DecomposeSet => Event(EvDownload);
      case DownloadDone => ReadReq(CHECKSUM);
      case DsFault =>
        Note(Faulted(conf.fault));
        Event(EvFaultDone);
      case _ =>
    }

    /** ds_init_cb. */
    method Initialise(backup: Backup, new_id: Id)
      requires Valid()
      modifies this
      ensures Valid()
      ensures View() == Step(old(View()), InitRequest(backup, new_id))
    {
      conf := conf.(upload := false, download := false, fault := FaultNone, pending := new_id);
      if backup == BackupRestore {
        conf := conf.(upload := true);
      }
      if backup == BackupRestore || backup == Restore {
        conf := conf.(download := true, enable := true);
      }
      Event(EvInit);
    }

    /** ds_SMI_ParServToDS_req, its length kept in an octet. */
    method LoadStore(new_id: Id, ds_data: seq<byte>)
      requires Valid()
      modifies this, data
      ensures Valid()
      ensures View() == Step(old(View()), ParServ(new_id, ds_data))
    {
      var n := |ds_data| % 256;
      CopyIn(ds_data[..n]);
      head := head.(cs := 0, id := new_id, valid := true, size := n);
      up := up.(own := false);
      h := h.(intact := false);
    }

    method CopyIn(octets: seq<byte>)
      requires Valid() && |octets| < 256
      modifies data, this`bytes
      ensures Valid() && bytes == Overwrite(old(bytes), 0, octets)
    {
      forall i | 0 <= i < |octets| { data[i] := octets[i]; }
      bytes := Overwrite(bytes, 0, octets);
      assert data[..] == bytes;
    }

    /** ds_startup_cb: the identity found on the port is the one just started. */
    method StartUp(port: Id)
      requires Valid()
      modifies this
      ensures Valid()
      ensures View() == Step(old(View()), Startup(port))
    {
      conf := conf.(port := port);
      Event(EvStartup);
    }

    /** ds_upload_cb. */
    method RequestUpload(port: Id)
      requires Valid()
      modifies this
      ensures Valid()
      ensures View() == Step(old(View()), UploadRequest(port))
    {
      conf := conf.(port := port);
      Event(EvUpload);
    }

    /** ds_delete_cb. */
    method RequestDelete()
      requires Valid()
      modifies this
      ensures Valid()
      ensures View() == Step(old(View()), DeleteRequest)
    {
      Event(EvDelete);
    }

    // ---------- the thread of the port ----------

    method Take(i: Input)
      requires Valid()
      modifies this, data, entries
      ensures Valid()
      ensures View() == Step(old(View()), i)
    {
      match i
      case ReadConfirmed(error, len, buf) => ReadConfirmation(error, len, buf);
      case WriteConfirmed(error) => WriteConfirmation(error);
      case Startup(port) => StartUp(port);
      case UploadRequest(port) => RequestUpload(port);
      case DeleteRequest => RequestDelete();
      case InitRequest(backup, id) => Initialise(backup, id);
      case ParServ(id, octets) => LoadStore(id, octets);
    }

    /** One call after the other: the port does what the step machine does. */
    method Drive(inputs: seq<Input>)
      requires Valid()
      modifies this, data, entries
      ensures Valid()
      ensures View() == Run(old(View()), inputs)
    {
      var i := 0;
      while i < |inputs|
        invariant 0 <= i <= |inputs| && Valid()
        invariant View() == Run(old(View()), inputs[..i])
      {
        RunOneMore(old(View()), inputs, i);
        Take(inputs[i]);
        i := i + 1;
      }
      assert inputs[..|inputs|] == inputs;
    }

    /** So from iolink_ds_init on activations and their ends take turns, and the
        store holds what the uploads left there. */
    method DriveFromInit(inputs: seq<Input>)
      requires Valid() && Initial(View())
      modifies this, data, entries
      ensures Valid() && Alternates(h.log) && (|h.log| % 2 == 1 <==> Active(state))
      ensures Filling(state) && up.own ==> head.pos <= DS_MAX_SIZE && data[..head.pos] == AllBytes(up.stored)
      ensures h.intact && state == DownloadDone ==>
        h.writes == Fitting(up.seen) + [Record(COMMAND, [CMD_DL_END])] && head.pos == head.size
    {
      ghost var s := View();
      EveryActivationEndsAtMostOnce(s, inputs);
      if Filling(Run(s, inputs).state) { StoreBoundsAndFraming(s, inputs); }
      if Run(s, inputs).h.intact && Run(s, inputs).state == DownloadDone { RoundTrip(s, inputs); }
      Drive(inputs);
    }
  }
}
