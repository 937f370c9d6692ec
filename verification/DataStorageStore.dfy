/**
 * The byte store over all runs: what an upload puts there, and that a download
 * gives exactly that back to the device.
 */
module DataStorageStore {
  import opened Bytes
  import opened IsduCodec
  import opened DataStorage

  // ---------- the byte format ----------

  lemma {:induction false} AllBytesPrefix(rs: seq<Record>, k: nat)
    requires k <= |rs|
    ensures AllBytes(rs[..k]) <= AllBytes(rs)
  {
    if k == |rs| {
      assert rs[..k] == rs;
    } else {
      AllBytesPrefix(rs[..|rs| - 1], k);
      assert rs[..|rs| - 1][..k] == rs[..k];
    }
  }

  lemma AllBytesNext(rs: seq<Record>, k: nat)
    requires k < |rs|
    ensures AllBytes(rs[..k + 1]) == AllBytes(rs[..k]) + RecordBytes(rs[k])
    ensures AllBytes(rs[..k + 1]) <= AllBytes(rs)
  {
    assert rs[..k + 1][..k] == rs[..k];
    AllBytesPrefix(rs, k + 1);
  }

  /** The bytes below n are exactly these records. */
  predicate Framed(d: Data, n: nat, rs: seq<Record>) {
    n == |AllBytes(rs)| && n <= DS_MAX_SIZE && d[..n] == AllBytes(rs)
  }

  lemma RecordAtItsBytes(d: Data, pos: nat, r: Record)
    requires pos + 4 + |r.data| <= DS_MAX_SIZE && d[pos..pos + 4 + |r.data|] == RecordBytes(r)
    ensures RecordAt(d, pos) == r
  {
    var b := RecordBytes(r);
    var w := d[pos..pos + |b|];
    assert Window(d, pos, 4) == w[..4] == b[..4];
    assert Window(d, pos + 4, |r.data|) == w[4..] == b[4..] == r.data;
  }

  /** Reading at the end of the first k records gives record k. */
  lemma ReadsRecord(d: Data, n: nat, rs: seq<Record>, k: nat)
    requires Framed(d, n, rs) && k < |rs|
    ensures var pos := |AllBytes(rs[..k])|;
            && RecordAt(d, pos) == rs[k]
            && |AllBytes(rs[..k + 1])| == pos + 4 + |rs[k].data| <= n
  {
    AllBytesNext(rs, k);
    var a, all := AllBytes(rs[..k]), AllBytes(rs);
    var m := |a| + |RecordBytes(rs[k])|;
    assert d[..m] == d[..n][..m] == all[..m] == a + RecordBytes(rs[k]);
    assert d[|a|..m] == d[..m][|a|..] == RecordBytes(rs[k]);
    RecordAtItsBytes(d, |a|, rs[k]);
  }

  lemma RecordAppended(d: Data, pos: nat, rs: seq<Record>, r: Record)
    requires Framed(d, pos, rs) && FitsAt(pos, |r.data|)
    ensures Framed(Overwrite(d, pos, RecordBytes(r)), pos + 4 + |r.data|, rs + [r])
  {
    var e := Overwrite(d, pos, RecordBytes(r));
    assert (rs + [r])[..|rs|] == rs;
    assert e[..pos + 4 + |r.data|] == d[..pos] + RecordBytes(r);
  }

  lemma FittingSnoc(rs: seq<Record>, r: Record)
    ensures Fitting(rs + [r]) == if FitsAt(|AllBytes(Fitting(rs))|, |r.data|) then Fitting(rs) + [r] else Fitting(rs)
  {
    assert (rs + [r])[..|rs|] == rs;
  }

  // ---------- the upload ----------

  /** While an upload fills the store: the kept records, as many bytes, and those
      bytes unless something else was loaded over them. */
  predicate FillInv(s: Ds) {
    Filling(s.state) ==>
      && s.m.pos == |AllBytes(s.up.stored)| <= DS_MAX_SIZE
      && (s.up.own ==> Framed(s.m.data, s.m.pos, s.up.stored))
      && s.up.stored == Fitting(s.up.seen)
  }

  /** While the store is intact it holds the records of the last full upload. */
  predicate IntactInv(s: Ds, e: DsEvent) {
    s.h.intact ==>
      && s.state != ReadParameter && (s.state == DecomposeIl ==> e == EvStoreData)
      && Framed(s.m.data, s.m.size, s.h.complete)
      && s.h.complete == Fitting(s.up.seen)
      && (!s.up.relisted ==> Answered(s, s.il.count))
  }

  /** The first n listed parameters were answered, in list order. */
  predicate Answered(s: Ds, n: nat) {
    && |s.up.seen| == n <= s.il.count
    && (forall j :: 0 <= j < n ==> s.up.seen[j].entry == s.il.entries[j] && s.up.seen[j].entry != INDEX_LIST)
  }

  /** The reads of an upload: the index list, then the first n listed parameters. */
  predicate Asked(s: Ds, n: nat) {
    n <= INDEX_LIST_MAX_ENTRIES && s.up.asked == [INDEX_LIST] + s.il.entries[..n]
  }

  /** The read of the index list, or of listed parameter pos - 1, is wanted. */
  predicate Wanted(s: Ds) {
    if s.il.pos == 0 then s.current == INDEX_LIST && s.up.seen == []
    else s.il.pos <= s.il.count && s.current == s.il.entries[s.il.pos - 1] && Answered(s, s.il.pos - 1)
  }

  predicate OrderInv(s: Ds, e: DsEvent) {
    !s.up.relisted ==>
      match s.state
      case DecomposeIl =>
        if e == EvStoreData then Answered(s, s.il.count)
        else Wanted(s) && (if s.il.pos == 0 then s.up.asked == [] else Asked(s, s.il.pos - 1))
      case ReadParameter =>
        && Asked(s, s.il.pos)
        && (if e == EvReadDone then s.il.pos <= s.il.count && Answered(s, s.il.pos) else Wanted(s))
      case StoreDataSet => Answered(s, s.il.count)
      case _ => true
  }

  // ---------- the download ----------

  /** The first k records of the store are written. */
  predicate Written(s: Ds) {
    var k := |s.h.writes|;
    && k <= |s.h.complete| && s.h.writes == s.h.complete[..k]
    && s.m.pos == |AllBytes(s.h.complete[..k])|
  }

  predicate DownloadInv(s: Ds, e: DsEvent) {
    s.h.intact ==>
      match s.state
      case DecomposeSet =>
        && (e == EvMoreData ==> Written(s) && s.m.pos < s.m.size)
        && (e == EvDlDone ==> Written(s) && s.m.pos >= s.m.size)
      case WriteParameter => Written(s)
      case DownloadDone => s.h.writes == s.h.complete + [Record(COMMAND, [CMD_DL_END])] && s.m.pos == s.m.size
      case _ => true
  }

  predicate StoreInv(s: Ds, e: DsEvent) {
    FillInv(s) && IntactInv(s, e) && OrderInv(s, e) && DownloadInv(s, e)
  }

  /** Some, but not all, records written is some, but not all, bytes parsed. */
  lemma WrittenEnds(s: Ds)
    requires Framed(s.m.data, s.m.size, s.h.complete) && Written(s)
    ensures s.m.pos <= s.m.size
    ensures s.m.pos == s.m.size <==> s.h.writes == s.h.complete
  {
    var k := |s.h.writes|;
    AllBytesPrefix(s.h.complete, k);
    if k < |s.h.complete| {
      ReadsRecord(s.m.data, s.m.size, s.h.complete, k);
    } else {
      assert s.h.complete[..k] == s.h.complete;
    }
  }

  // ---------- one pass of the event loop ----------

  lemma UploadStarts(s: Ds)
    requires s.state == DecomposeIl
    ensures StoreInv(UploadStart(s).s, EvMoreData)
  {
    assert Fitting([]) == [] && AllBytes([]) == [];
  }

  lemma UploadGoesOn(s: Ds)
    requires s.state == ReadParameter && StoreInv(s, EvReadDone)
    ensures var o := UploadNext(s.(state := DecomposeIl)); StoreInv(o.s, o.next)
  {
    if s.il.pos < s.il.count {
    } else {
    }
  }

  lemma ParameterInOrder(s: Ds)
    requires s.state == DecomposeIl && OrderInv(s, EvMoreData)
    ensures OrderInv(AlRead(s.(state := ReadParameter), s.current), EvNone)
  {
    var n := s.il.pos;
    if n > 0 && !s.up.relisted {
      assert s.il.entries[..n] == s.il.entries[..n - 1] + [s.il.entries[n - 1]];
    }
  }

  lemma ParameterWanted(s: Ds)
    requires s.state == DecomposeIl && StoreInv(s, EvMoreData)
    ensures StoreInv(AlRead(s.(state := ReadParameter), s.current), EvNone)
  {
    ParameterInOrder(s);
    assert FillInv(AlRead(s.(state := ReadParameter), s.current));
  }

  lemma RecordIsWritten(s: Ds)
    requires s.state == DecomposeSet && StoreInv(s, EvMoreData)
    ensures StoreInv(WriteParam(s.(state := WriteParameter)), EvNone)
  {
    if s.h.intact {
      var k := |s.h.writes|;
      WrittenEnds(s);
      ReadsRecord(s.m.data, s.m.size, s.h.complete, k);
      assert s.h.complete[..k + 1] == s.h.complete[..k] + [s.h.complete[k]];
    }
  }

  lemma DownloadGoesOn(s: Ds, e: DsEvent)
    requires s.state == DecomposeSet || s.state == WriteParameter
    requires StoreInv(s, e) && (e == EvDownload || (e == EvWrDone && s.state == WriteParameter))
    ensures var o := Decompose(s.(state := DecomposeSet), e); StoreInv(o.s, o.next)
  {
    assert s.h.complete[..0] == [] && AllBytes([]) == [];
  }

  lemma DownloadEnds(s: Ds)
    requires s.state == DecomposeSet && StoreInv(s, EvDlDone)
    ensures StoreInv(Command(s.(state := DownloadDone), CMD_DL_END), EvNone)
  {
    if s.h.intact { WrittenEnds(s); }
  }

  predicate SameStore(s: Ds, t: Ds) {
    && t.m == s.m && t.il == s.il
    && t.up.seen == s.up.seen && t.up.stored == s.up.stored && t.h.complete == s.h.complete
    && t.h.intact == s.h.intact && t.up.own == s.up.own && t.up.relisted == s.up.relisted
  }

  lemma FaultAside(s: Ds, e: DsEvent)
    ensures StepsAside(s, RaiseFault(s, e))
  {
    match e
    case EvFaultId =>
    case EvFaultSize =>
    case EvFaultUl =>
    case EvFaultDl =>
    case EvFaultLock =>
    case _ =>
  }

  predicate StepsAside(s: Ds, o: Outcome) {
    o.s.state == s.state && SameStore(s, o.s) && Outside(o.next) && o.next != EvDoUpload
  }

  lemma CheckIdAside(s: Ds)
    ensures StepsAside(s, CheckId(s))
  {
    if s.m.id.vendor == 0 || s.m.id == s.conf.port { }
  }

  lemma CheckSizeAside(s: Ds)
    ensures StepsAside(s, CheckSize(s))
  {
    if DS_MAX_SIZE < s.dev.size_max { }
  }

  lemma CheckFlagsAside(s: Ds)
    ensures StepsAside(s, CheckFlags(s))
  {
    if (s.dev.state_property / 2) % 4 == 3 {
    } else if s.dev.state_property / 128 == 1 && s.conf.upload {
    }
  }

  lemma CheckValidityAside(s: Ds)
    ensures StepsAside(s, CheckValidity(s))
  {
    if s.m.valid { }
  }

  lemma AsideActs(s: Ds, a: Action, e: DsEvent, from: DsState)
    requires Aside(a)
    ensures StepsAside(s, Act(s, a, e, from))
  {
    match a
    case ActFault => FaultAside(s, e);
    case ActCheckId => CheckIdAside(s);
    case ActCheckMemSize => CheckSizeAside(s);
    case ActCheckUpload => CheckFlagsAside(s);
    case ActCheckValidity => CheckValidityAside(s);
    case ActWait => if e == EvComErr { }
    case ActReinit => if Active(from) { }
    case _ =>
  }

  /** Events that are raised from outside, or by actions beside the store. */
  predicate Outside(e: DsEvent) {
    e != EvMoreData && e != EvDlDone && e != EvReadDone && e != EvStoreData
  }

  lemma AsideKeepsStore(s: Ds, e: DsEvent, t: Transition)
    requires StoreInv(s, e) && Aside(t.action) && Elsewhere(t.next)
    ensures KeepsStore(Act(s.(state := t.next), t.action, e, s.state))
  {
    AsideActs(s.(state := t.next), t.action, e, s.state);
  }

  /** Deleting resets the position only, and no transfer is under way. */
  lemma DeleteKeepsStore(s: Ds)
    requires StoreInv(s, EvDelete) && Elsewhere(s.state) && s.state != DecomposeSet
    ensures StoreInv(Delete(s), EvNone)
  {
  }

  predicate KeepsStore(o: Outcome) {
    StoreInv(o.s, o.next)
  }

  lemma DataRead(s: Ds)
    requires s.state == DecomposeIl && StoreInv(s, EvStoreData)
    ensures StoreInv(s.(state := StoreDataSet), EvNone)
  {
  }

  lemma UploadKeepsStore(s: Ds, e: DsEvent)
    requires StoreInv(s, e) && (StartsUpload(s.state, e) || (e == EvReadDone && s.state == ReadParameter))
    ensures KeepsStore(Upload(s.(state := DecomposeIl), e))
  {
    var u := s.(state := DecomposeIl);
    if e == EvDoUpload {
      StartKeepsStore(u);
      assert Upload(u, e) == UploadStart(u);
    } else {
      NextKeepsStore(s);
      assert Upload(u, e) == UploadNext(u);
    }
  }

  lemma StartKeepsStore(u: Ds)
    requires u.state == DecomposeIl
    ensures KeepsStore(UploadStart(u))
  {
    UploadStarts(u);
  }

  lemma NextKeepsStore(s: Ds)
    requires s.state == ReadParameter && StoreInv(s, EvReadDone)
    ensures KeepsStore(UploadNext(s.(state := DecomposeIl)))
  {
    UploadGoesOn(s);
  }

  lemma ReadKeeps(s: Ds, e: DsEvent, t: Transition)
    requires StoreInv(s, e) && TransferAt(s.state, e, t) && (t.action == ActReadParam || t.action == ActStoreData)
    ensures KeepsStore(Act(s.(state := t.next), t.action, e, s.state))
  {
    if t.action == ActReadParam { ParameterWanted(s); } else { DataRead(s); }
  }

  lemma DownloadKeepsStore(s: Ds, e: DsEvent, t: Transition)
    requires StoreInv(s, e) && TransferAt(s.state, e, t)
    requires t.action == ActDecomposeSet || t.action == ActWriteParam || t.action == ActDownloadDone
    ensures KeepsStore(Act(s.(state := t.next), t.action, e, s.state))
  {
    if t.action == ActDecomposeSet {
      DownloadGoesOn(s, e);
    } else if t.action == ActWriteParam {
      RecordIsWritten(s);
    } else {
      DownloadEnds(s);
    }
  }

  lemma ActKeepsStore(s: Ds, e: DsEvent, t: Transition)
    requires StoreInv(s, e) && TransferAt(s.state, e, t)
    ensures KeepsStore(Act(s.(state := t.next), t.action, e, s.state))
  {
    if t.action == ActUpload {
      UploadKeepsStore(s, e);
    } else if t.action == ActReadParam || t.action == ActStoreData {
      ReadKeeps(s, e, t);
    } else if t.action == ActDecomposeSet || t.action == ActWriteParam || t.action == ActDownloadDone {
      DownloadKeepsStore(s, e, t);
    } else if t.action == ActDelete {
      DeleteKeepsStore(s);
    } else {
      AsideKeepsStore(s, e, t);
    }
  }

  lemma FireKeepsStore(s: Ds, e: DsEvent)
    requires StoreInv(s, e)
    ensures KeepsStore(Fire(s, e))
  {
    match Lookup(s.state, e)
    case None => EventIgnored(s, e);
    case Some(t) => ActKeepsStore(s, e, t);
  }

  lemma {:induction false} HandleKeepsStore(s: Ds, e: DsEvent)
    requires StoreInv(s, e)
    ensures StoreInv(Handle(s, e), EvNone)
    decreases Rank(s.state, e)
  {
    FireRanks(s, e);
    FireKeepsStore(s, e);
    var o := Fire(s, e);
    if o.next != EvNone { HandleKeepsStore(o.s, o.next); }
  }

  // ---------- confirmations ----------

  lemma EventIgnored(s: Ds, e: DsEvent)
    requires StoreInv(s, e) && Lookup(s.state, e) == None
    ensures StoreInv(s, EvNone)
  {
  }

  // ---------- confirmations and requests ----------

  lemma OutsideKeepsStore(s: Ds, e: DsEvent)
    requires StoreInv(s, EvNone) && Outside(e)
    ensures StoreInv(Handle(s, e), EvNone)
  {
    HandleKeepsStore(s, e);
  }

  /** Everything the invariant looks at. */
  predicate Alike(s: Ds, t: Ds) {
    && t.state == s.state && t.current == s.current && t.il == s.il && t.up == s.up && t.h == s.h
    && t.m.pos == s.m.pos && t.m.size == s.m.size && t.m.data == s.m.data
  }

  lemma AlikeKeepsStore(s: Ds, t: Ds)
    requires StoreInv(s, EvNone) && Alike(s, t)
    ensures StoreInv(t, EvNone)
  {
  }

  lemma ListRead(s: Ds, len: byte, buf: seq<byte>)
    requires s.state == ReadParameter && StoreInv(s, EvNone) && s.current == INDEX_LIST
    ensures StoreInv(ParameterRead(s, len, buf), EvReadDone)
  {
  }

  lemma RecordFills(s: Ds, r: Record)
    requires s.state == ReadParameter && FillInv(s)
    ensures FillInv(StoreRecord(s, r))
  {
    FittingSnoc(s.up.seen, r);
    if FitsAt(s.m.pos, |r.data|) {
      assert (s.up.stored + [r])[..|s.up.stored|] == s.up.stored;
      if s.up.own { RecordAppended(s.m.data, s.m.pos, s.up.stored, r); }
    }
  }

  lemma RecordInOrder(s: Ds, r: Record)
    requires s.state == ReadParameter && OrderInv(s, EvNone)
    requires r.entry == s.current && s.current != INDEX_LIST
    ensures OrderInv(StoreRecord(s, r), EvReadDone)
  {
    var t := StoreRecord(s, r);
    assert t.il == s.il && t.state == s.state && t.up.seen == s.up.seen + [r] && t.up.asked == s.up.asked;
    assert t.up.relisted == s.up.relisted;
  }

  lemma RecordRead(s: Ds, r: Record)
    requires s.state == ReadParameter && StoreInv(s, EvNone)
    requires r.entry == s.current && s.current != INDEX_LIST
    ensures StoreInv(StoreRecord(s, r), EvReadDone)
  {
    RecordFills(s, r);
    RecordInOrder(s, r);
    assert !StoreRecord(s, r).h.intact && StoreRecord(s, r).state == ReadParameter;
  }

  lemma ParameterReadKeepsStore(s: Ds, len: byte, buf: seq<byte>)
    requires s.state == ReadParameter && StoreInv(s, EvNone)
    ensures StoreInv(ParameterRead(s, len, buf), EvReadDone)
  {
    if s.current == INDEX_LIST { ListRead(s, len, buf); } else { RecordRead(s, Record(s.current, Window(buf, 0, len))); }
  }

  lemma ChecksumKeepsStore(s: Ds, len: byte, buf: seq<byte>)
    requires StoreInv(s, EvNone)
    ensures StoreInv(ChecksumRead(s, len, buf), EvNone)
  {
    OutsideKeepsStore(s, EvComErr);
    var t := if len < 4 then Handle(s, EvComErr) else s;
    AlikeKeepsStore(t, WithChecksum(t, U32(buf)));
  }

  lemma CheckReadKeepsStore(s: Ds, error: AlError, len: byte, buf: seq<byte>)
    requires StoreInv(s, EvNone) && error != ErrCom && (s.state == CheckIdentity || s.state == CheckMemSize)
    ensures StoreInv(ReadCnf(s, error, len, buf), EvNone)
  {
    if s.state == CheckIdentity {
      OutsideKeepsStore(s, EvFaultId);
      OutsideKeepsStore(s.(dev := s.dev.(size_max := U32(buf))), EvPassed);
    } else {
      OutsideKeepsStore(s, EvFaultSize);
      OutsideKeepsStore(s.(dev := s.dev.(state_property := Octet(buf, 0))), EvPassed);
    }
  }

  lemma ReadKeepsStore(s: Ds, error: AlError, len: byte, buf: seq<byte>)
    requires StoreInv(s, EvNone)
    ensures StoreInv(ReadCnf(s, error, len, buf), EvNone)
  {
    if error == ErrCom {
      OutsideKeepsStore(s, EvComErr);
    } else {
      match s.state
      case CheckIdentity => CheckReadKeepsStore(s, error, len, buf);
      case CheckMemSize => CheckReadKeepsStore(s, error, len, buf);
      case ReadParameter =>
        OutsideKeepsStore(s, EvDevErr);
        ParameterReadKeepsStore(s, len, buf);
        HandleKeepsStore(ParameterRead(s, len, buf), EvReadDone);
      case CheckUpload =>
        ChecksumKeepsStore(s, len, buf);
        OutsideKeepsStore(ChecksumRead(s, len, buf), EvNoUpload);
      case StoreDataSet =>
        ChecksumKeepsStore(s, len, buf);
        UploadEndSent(s, len, buf);
      case DownloadDone =>
        ChecksumKeepsStore(s, len, buf);
        OutsideKeepsStore(ChecksumRead(s, len, buf), EvReady);
      case _ =>
    }
  }

  /** An upload that fails is broken off at once. */
  function BrokenOff(s: Ds): Ds {
    Command(Failing(s.(state := DsFault), FaultUp), CMD_BREAK)
  }

  lemma FailureFires(s: Ds)
    requires s.state == UploadFault
    ensures Handle(s, EvFaultUl) == BrokenOff(s)
  {
    assert Fire(s, EvFaultUl) == Outcome(BrokenOff(s), EvNone);
  }

  lemma CommunicationFails(s: Ds)
    requires s.state == ReadParameter || s.state == StoreDataSet
    ensures Fire(s, EvComErr) == Outcome(s.(state := UploadFault), EvFaultUl)
  {
  }

  lemma FailureHandled(s: Ds)
    requires s.state == ReadParameter || s.state == StoreDataSet
    ensures Handle(s, EvComErr) == BrokenOff(s)
  {
    CommunicationFails(s);
    FailureFires(s.(state := UploadFault));
    assert Handle(s, EvComErr) == Handle(s.(state := UploadFault), EvFaultUl);
  }

  /** A short checksum has already led to DsFault when the upload is ended. */
  lemma UploadEndSent(s: Ds, len: byte, buf: seq<byte>)
    requires s.state == StoreDataSet && StoreInv(ChecksumRead(s, len, buf), EvNone)
    ensures StoreInv(Command(ChecksumRead(s, len, buf), CMD_UL_END), EvNone)
  {
    if len < 4 { FailureHandled(s); }
  }

  lemma WriteKeepsStore(s: Ds, error: AlError)
    requires StoreInv(s, EvNone)
    ensures StoreInv(WriteCnf(s, error), EvNone)
  {
    if error != ErrNone {
      OutsideKeepsStore(s, EvComErr);
    } else {
      match s.state
      case CheckUpload => OutsideKeepsStore(s, EvDoUpload);
      case CheckDSValidity => OutsideKeepsStore(s, EvDoUpload);
      case WriteParameter => OutsideKeepsStore(s, EvWrDone);
      case StoreDataSet =>
        var t := Vouched(s);
        AlikeKeepsStore(s, t);
        OutsideKeepsStore(t, EvUlDone);
      case DecomposeSet => OutsideKeepsStore(s, EvDownload);
      case DsFault => OutsideKeepsStore(Noted(s, Faulted(s.conf.fault)), EvFaultDone);
      case _ =>
    }
  }

  lemma PortKeepsStore(s: Ds, port: Id, e: DsEvent)
    requires StoreInv(s, EvNone) && Outside(e)
    ensures StoreInv(Handle(WithPort(s, port), e), EvNone)
  {
    AlikeKeepsStore(s, WithPort(s, port));
    OutsideKeepsStore(WithPort(s, port), e);
  }

  lemma InitKeepsStore(s: Ds, backup: Backup, id: Id)
    requires StoreInv(s, EvNone)
    ensures StoreInv(Init(s, backup, id), EvNone)
  {
    var t := Reconfigured(s, backup, id);
    AlikeKeepsStore(s, t);
    OutsideKeepsStore(t, EvInit);
  }

  lemma ParServKeepsStore(s: Ds, id: Id, data: seq<byte>)
    requires StoreInv(s, EvNone)
    ensures StoreInv(ParServToDs(s, id, data), EvNone)
  {
    var t := ParServToDs(s, id, data);
    assert !t.h.intact && !t.up.own && t.m.pos == s.m.pos && t.il == s.il && t.state == s.state;
    assert FillInv(t);
    OrderKept(s, t, EvNone);
  }

  /** The order of the reads does not look at the store. */
  lemma OrderKept(s: Ds, t: Ds, e: DsEvent)
    requires OrderInv(s, e) && t.state == s.state && t.il == s.il && t.current == s.current
    requires t.up == s.up.(own := t.up.own)
    ensures OrderInv(t, e)
  {
  }

  lemma StepKeepsStore(s: Ds, i: Input)
    requires StoreInv(s, EvNone)
    ensures StoreInv(Step(s, i), EvNone)
  {
    match i
    case ReadConfirmed(error, len, buf) => ReadKeepsStore(s, error, len, buf);
    case WriteConfirmed(error) => WriteKeepsStore(s, error);
    case Startup(port) => PortKeepsStore(s, port, EvStartup);
    case UploadRequest(port) => PortKeepsStore(s, port, EvUpload);
    case DeleteRequest => OutsideKeepsStore(s, EvDelete);
    case InitRequest(backup, id) => InitKeepsStore(s, backup, id);
    case ParServ(id, data) => ParServKeepsStore(s, id, data);
  }

  lemma {:induction false} StoreInvariant(s: Ds, inputs: seq<Input>)
    requires StoreInv(s, EvNone)
    ensures StoreInv(Run(s, inputs), EvNone)
  {
    if inputs != [] {
      StoreInvariant(s, inputs[..|inputs| - 1]);
      StepKeepsStore(Run(s, inputs[..|inputs| - 1]), inputs[|inputs| - 1]);
    }
  }

  // ---------- the store theorems ----------

  /** For every index list and every parameter length: an upload never writes past
      the end of the store; the bytes below pos are the whole records kept, unless
      the store was loaded from outside meanwhile; and a record is kept exactly if
      it fits behind those kept before. */
  lemma StoreBoundsAndFraming(s: Ds, inputs: seq<Input>)
    requires Initial(s) && Filling(Run(s, inputs).state)
    ensures var t := Run(s, inputs);
            && t.m.pos <= DS_MAX_SIZE
            && (t.up.own ==> t.m.data[..t.m.pos] == AllBytes(t.up.stored))
            && t.up.stored == Fitting(t.up.seen)
  {
    StoreInvariant(s, inputs);
  }

  /** Once an upload has read everything its list names, and until the store is
      written again, a download that comes to its end has written exactly the
      records that fitted, in index-list order, and then DL_END, and has parsed
      exactly the bytes the upload stored. */
  lemma RoundTrip(s: Ds, inputs: seq<Input>)
    requires Initial(s) && Run(s, inputs).h.intact && Run(s, inputs).state == DownloadDone
    ensures var t := Run(s, inputs);
            && t.h.writes == Fitting(t.up.seen) + [Record(COMMAND, [CMD_DL_END])]
            && t.m.pos == t.m.size
            && (!t.up.relisted ==>
                  && |t.up.seen| == t.il.count
                  && forall j :: 0 <= j < t.il.count ==> t.up.seen[j].entry == t.il.entries[j])
  {
    StoreInvariant(s, inputs);
  }

  // ---------- a download that the device accepts ----------

  lemma DecomposeFires(s: Ds, e: DsEvent)
    requires (s.state == DecomposeSet && e == EvDownload) || (s.state == WriteParameter && e == EvWrDone)
    ensures Fire(s, e) == Decompose(s.(state := DecomposeSet), e)
  {
  }

  lemma HandledAtOnce(s: Ds, e: DsEvent, t: Ds)
    requires Fire(s, e) == Outcome(t, EvNone)
    ensures Handle(s, e) == t
  {
  }

  /** One more pass, after which the loop waits for a confirmation. */
  lemma EndFires(s: Ds)
    requires s.state == DecomposeSet
    ensures Handle(s, EvDlDone) == Command(s.(state := DownloadDone), CMD_DL_END)
  {
    assert Lookup(s.state, EvDlDone) == Some(To(DownloadDone, ActDownloadDone));
    HandledAtOnce(s, EvDlDone, Command(s.(state := DownloadDone), CMD_DL_END));
  }

  lemma WriteFires(s: Ds)
    requires s.state == DecomposeSet
    ensures Handle(s, EvMoreData) == WriteParam(s.(state := WriteParameter))
  {
    assert Lookup(s.state, EvMoreData) == Some(To(WriteParameter, ActWriteParam));
    HandledAtOnce(s, EvMoreData, WriteParam(s.(state := WriteParameter)));
  }

  /** DecomposeSet runs straight on to a write or to the end. */
  lemma DecomposeHandled(s: Ds, e: DsEvent)
    requires (s.state == DecomposeSet && e == EvDownload) || (s.state == WriteParameter && e == EvWrDone)
    ensures var t, u := Handle(s, e), Decompose(s.(state := DecomposeSet), e).s;
            t == if u.m.pos >= u.m.size then Command(u.(state := DownloadDone), CMD_DL_END)
                 else WriteParam(u.(state := WriteParameter))
  {
    var o := Decompose(s.(state := DecomposeSet), e);
    DecomposeFires(s, e);
    FireRanks(s, e);
    EndFires(o.s);
    WriteFires(o.s);
    assert Handle(s, e) == Handle(o.s, o.next);
  }

  function Acknowledged(n: nat): (r: seq<Input>)
    ensures |r| == n && forall k :: 0 <= k < n ==> r[k] == WriteConfirmed(ErrNone)
  {
    seq(n, i => WriteConfirmed(ErrNone))
  }

  /** k confirmations into the download of an intact store. */
  predicate Downloading(t: Ds, complete: seq<Record>, k: nat) {
    && StoreInv(t, EvNone) && t.h.intact && t.h.complete == complete
    && (if k <= |complete| then t.state == WriteParameter && |t.h.writes| == k else t.state == DownloadDone)
  }

  lemma DownloadAdvances(s: Ds, k: nat)
    requires StoreInv(s, EvNone) && s.h.intact
    requires if k == 0 then s.state == DecomposeSet else k <= |s.h.complete| && Downloading(s, s.h.complete, k)
    ensures Downloading(WriteCnf(s, ErrNone), s.h.complete, k + 1)
  {
    var e := if s.state == WriteParameter then EvWrDone else EvDownload;
    var u := Decompose(s.(state := DecomposeSet), e).s;
    OutsideKeepsStore(s, e);
    DecomposeHandled(s, e);
    DownloadGoesOn(s, e);
    assert Written(u);
    WrittenEnds(u);
  }

  lemma OneMoreAcknowledged(s: Ds, k: nat)
    ensures Run(s, Acknowledged(k + 1)) == WriteCnf(Run(s, Acknowledged(k)), ErrNone)
  {
    assert Acknowledged(k + 1)[..k] == Acknowledged(k);
    assert Acknowledged(k + 1)[k] == WriteConfirmed(ErrNone);
  }

  /** A download of n records whose writes the device accepts comes to its end
      with the n + 1st confirmation. */
  lemma {:induction false} DownloadCompletes(s: Ds, k: nat)
    requires StoreInv(s, EvNone) && s.h.intact && s.state == DecomposeSet && k <= |s.h.complete|
    ensures Downloading(Run(s, Acknowledged(k + 1)), s.h.complete, k + 1)
  {
    if k > 0 { DownloadCompletes(s, k - 1); }
    OneMoreAcknowledged(s, k);
    DownloadAdvances(Run(s, Acknowledged(k)), k);
  }

  // ---------- how long the store stays intact ----------

  lemma ActIntact(s: Ds, e: DsEvent, t: Transition)
    requires s.h.intact && IntactInv(s, e) && TransferAt(s.state, e, t)
    ensures var o := Act(s.(state := t.next), t.action, e, s.state);
            (o.s.h.intact <==> !StartsUpload(s.state, e)) && o.next != EvDoUpload
  {
    if Aside(t.action) { AsideActs(s.(state := t.next), t.action, e, s.state); }
  }

  lemma FireIntact(s: Ds, e: DsEvent)
    requires s.h.intact && StoreInv(s, e)
    ensures Fire(s, e).s.h.intact <==> !StartsUpload(s.state, e)
    ensures Fire(s, e).next != EvDoUpload
  {
    match Lookup(s.state, e)
    case None =>
    case Some(t) => ActIntact(s, e, t);
  }

  lemma {:induction false} HandleIntact(s: Ds, e: DsEvent)
    requires s.h.intact && StoreInv(s, e) && !StartsUpload(s.state, e)
    ensures Handle(s, e).h.intact
    decreases Rank(s.state, e)
  {
    FireRanks(s, e);
    FireKeepsStore(s, e);
    FireIntact(s, e);
    var o := Fire(s, e);
    if o.next != EvNone { HandleIntact(o.s, o.next); }
  }

  lemma UploadFires(s: Ds)
    requires s.state == CheckUpload || s.state == CheckDSValidity
    ensures Fire(s, EvDoUpload) == UploadStart(s.(state := DecomposeIl))
  {
  }

  lemma ReadFires(s: Ds)
    requires s.state == DecomposeIl
    ensures Handle(s, EvMoreData) == AlRead(s.(state := ReadParameter), s.current)
  {
    assert Lookup(s.state, EvMoreData) == Some(To(ReadParameter, ActReadParam));
    HandledAtOnce(s, EvMoreData, AlRead(s.(state := ReadParameter), s.current));
  }

  /** The event loop does not make a written store intact again by itself. */
  lemma UploadStartHandled(s: Ds)
    requires s.state == CheckUpload || s.state == CheckDSValidity
    ensures !Handle(s, EvDoUpload).h.intact
  {
    var o := UploadStart(s.(state := DecomposeIl));
    UploadFires(s);
    ReadFires(o.s);
    assert Handle(s, EvDoUpload) == Handle(o.s, EvMoreData);
  }

  lemma IdentityIntact(s: Ds, error: AlError, len: byte, buf: seq<byte>)
    requires s.h.intact && StoreInv(s, EvNone) && error != ErrCom && s.state == CheckIdentity
    ensures ReadCnf(s, error, len, buf).h.intact
  {
    HandleIntact(s, EvFaultId);
    HandleIntact(s.(dev := s.dev.(size_max := U32(buf))), EvPassed);
  }

  lemma SizeIntact(s: Ds, error: AlError, len: byte, buf: seq<byte>)
    requires s.h.intact && StoreInv(s, EvNone) && error != ErrCom && s.state == CheckMemSize
    ensures ReadCnf(s, error, len, buf).h.intact
  {
    HandleIntact(s, EvFaultSize);
    HandleIntact(s.(dev := s.dev.(state_property := Octet(buf, 0))), EvPassed);
  }

  lemma ChecksumIntact(s: Ds, len: byte, buf: seq<byte>, e: DsEvent)
    requires s.h.intact && StoreInv(s, EvNone) && Outside(e) && e != EvDoUpload
    ensures ChecksumRead(s, len, buf).h.intact && Handle(ChecksumRead(s, len, buf), e).h.intact
  {
    HandleIntact(s, EvComErr);
    ChecksumKeepsStore(s, len, buf);
    HandleIntact(ChecksumRead(s, len, buf), e);
  }

  lemma ReadIntact(s: Ds, error: AlError, len: byte, buf: seq<byte>)
    requires s.h.intact && StoreInv(s, EvNone)
    ensures ReadCnf(s, error, len, buf).h.intact
  {
    if error == ErrCom {
      HandleIntact(s, EvComErr);
    } else {
      match s.state
      case CheckIdentity => IdentityIntact(s, error, len, buf);
      case CheckMemSize => SizeIntact(s, error, len, buf);
      case CheckUpload => ChecksumIntact(s, len, buf, EvNoUpload);
      case StoreDataSet => ChecksumIntact(s, len, buf, EvNone);
      case DownloadDone => ChecksumIntact(s, len, buf, EvReady);
      case _ =>
    }
  }

  lemma WriteIntact(s: Ds, error: AlError)
    requires s.h.intact && StoreInv(s, EvNone)
    ensures WriteCnf(s, error).h.intact <==> error != ErrNone || (s.state != CheckUpload && s.state != CheckDSValidity)
  {
    if error != ErrNone {
      HandleIntact(s, EvComErr);
    } else {
      match s.state
      case CheckUpload => UploadStartHandled(s);
      case CheckDSValidity => UploadStartHandled(s);
      case WriteParameter => HandleIntact(s, EvWrDone);
      case StoreDataSet =>
        var t := Vouched(s);
        AlikeKeepsStore(s, t);
        HandleIntact(t, EvUlDone);
      case DecomposeSet => HandleIntact(s, EvDownload);
      case DsFault => HandleIntact(Noted(s, Faulted(s.conf.fault)), EvFaultDone);
      case _ =>
    }
  }

  /** The store stops being intact exactly when another upload starts or a store
      is loaded from outside. */
  lemma IntactUntilWritten(s: Ds, i: Input)
    requires s.h.intact && StoreInv(s, EvNone)
    ensures !Step(s, i).h.intact <==>
      i.ParServ? || (i == WriteConfirmed(ErrNone) && (s.state == CheckUpload || s.state == CheckDSValidity))
  {
    match i
    case ReadConfirmed(error, len, buf) => ReadIntact(s, error, len, buf);
    case WriteConfirmed(error) => WriteIntact(s, error);
    case Startup(port) =>
      AlikeKeepsStore(s, WithPort(s, port));
      HandleIntact(WithPort(s, port), EvStartup);
    case UploadRequest(port) =>
      AlikeKeepsStore(s, WithPort(s, port));
      HandleIntact(WithPort(s, port), EvUpload);
    case DeleteRequest => HandleIntact(s, EvDelete);
    case InitRequest(backup, id) =>
      var t := Reconfigured(s, backup, id);
      AlikeKeepsStore(s, t);
      HandleIntact(t, EvInit);
    case ParServ(id, data) =>
  }

  /** A re-upload that fails leaves a valid store that is not the old one: the
      header still vouches for it, and the next download begins with what the
      failed upload had stored. */
  lemma FailedReuploadIsDownloaded(s: Ds)
    requires StoreInv(s, EvNone) && s.state == ReadParameter
    requires s.m.valid && s.up.own && s.up.stored != [] && s.m.size > 0
    ensures var t := ReadCnf(s, ErrCom, 0, []);
            && t.state == DsFault && t.m.valid && !t.h.intact && t.m.size == s.m.size
            && Decompose(t.(state := DecomposeSet), EvDownload).next == EvMoreData
            && RecordAt(t.m.data, 0) == s.up.stored[0]
  {
    ReadsRecord(s.m.data, s.m.pos, s.up.stored, 0);
    assert s.up.stored[..0] == [];
    FailureHandled(s);
  }

  // ---------- how far a download parses ----------

  /** Where a parse of `size` octets from pos on comes to its end. A record's length
      octet behind the store reads as 0. */
  function ParseEnd(d: Data, pos: nat, size: nat): (end: nat)
    ensures end >= pos && (pos <= size ==> end < size + 259)
    decreases size - pos
  {
    if pos >= size then pos else ParseEnd(d, pos + 4 + |RecordAt(d, pos).data|, size)
  }

  /** Every parse of a store of at most 1790 octets stays within it. */
  lemma SmallStoreParsesInside(d: Data, size: nat)
    requires size <= 1790
    ensures ParseEnd(d, 0, size) <= DS_MAX_SIZE
  {
    if size > 0 { ParseEndBound(d, 0, size); }
  }

  lemma {:induction false} ParseEndBound(d: Data, pos: nat, size: nat)
    requires pos < size
    ensures ParseEnd(d, pos, size) <= size + 258
    decreases size - pos
  {
    var next := pos + 4 + |RecordAt(d, pos).data|;
    if next < size { ParseEndBound(d, next, size); }
  }

  /** A store of whole records is parsed to exactly its size. */
  lemma {:induction false} WholeRecordsParse(d: Data, n: nat, rs: seq<Record>, k: nat)
    requires Framed(d, n, rs) && k <= |rs|
    ensures ParseEnd(d, |AllBytes(rs[..k])|, n) == n
    decreases |rs| - k
  {
    if k < |rs| {
      ReadsRecord(d, n, rs, k);
      WholeRecordsParse(d, n, rs, k + 1);
    } else {
      assert rs[..k] == rs;
    }
  }

  /** On the way through the store as it stood when the download began. */
  predicate Parsing(s: Ds, t: Ds, k: nat) {
    var end := ParseEnd(s.m.data, 0, s.m.size);
    && t.m.data == s.m.data && t.m.size == s.m.size && t.m.pos <= end
    && (if t.state == WriteParameter then ParseEnd(s.m.data, t.m.pos, s.m.size) == end
           && t.m.pos >= 4 * k && 4 * (k - 1) < s.m.size
        else t.state == DownloadDone && t.m.pos == end)
  }

  lemma ParseAdvances(s: Ds, t: Ds, k: nat)
    requires Parsing(s, t, k)
    ensures Parsing(s, WriteCnf(t, ErrNone), k + 1)
  {
    if t.state == WriteParameter { RecordAcknowledged(s, t, k); } else { EndAcknowledged(s, t, k); }
  }

  lemma EndAcknowledged(s: Ds, t: Ds, k: nat)
    requires Parsing(s, t, k) && t.state == DownloadDone
    ensures Parsing(s, WriteCnf(t, ErrNone), k + 1)
  {
    assert WriteCnf(t, ErrNone) == AlRead(t, CHECKSUM);
  }

  lemma RecordAcknowledged(s: Ds, t: Ds, k: nat)
    requires Parsing(s, t, k) && t.state == WriteParameter
    ensures Parsing(s, WriteCnf(t, ErrNone), k + 1)
  {
    DecomposeHandled(t, EvWrDone);
    assert WriteCnf(t, ErrNone) == Handle(t, EvWrDone);
    if t.m.pos < t.m.size { NextParsed(s, t, k); } else { AllParsed(s, t, k); }
  }

  lemma AllParsed(s: Ds, t: Ds, k: nat)
    requires Parsing(s, t, k) && t.state == WriteParameter && t.m.pos >= t.m.size
    ensures Parsing(s, Command(t.(state := DownloadDone), CMD_DL_END), k + 1)
  {
  }

  lemma NextParsed(s: Ds, t: Ds, k: nat)
    requires Parsing(s, t, k) && t.state == WriteParameter && t.m.pos < t.m.size
    ensures Parsing(s, WriteParam(t), k + 1)
  {
    var next := t.m.pos + 4 + |RecordAt(s.m.data, t.m.pos).data|;
    assert ParseEnd(s.m.data, t.m.pos, s.m.size) == ParseEnd(s.m.data, next, s.m.size);
  }

  lemma ParseBegins(s: Ds)
    requires s.state == DecomposeSet
    ensures Parsing(s, WriteCnf(s, ErrNone), 1)
  {
    DecomposeHandled(s, EvDownload);
  }

  /** Whatever the store holds, intact or not: a download whose writes the device
      accepts reads its records up to ParseEnd, no further, and with
      confirmation number size / 4 + 2 at the latest it has read that far. So it stays within the store if and
      only if ParseEnd does; behind that the C code reads on. */
  lemma {:induction false} DownloadParsesTo(s: Ds, k: nat)
    requires s.state == DecomposeSet
    ensures Parsing(s, Run(s, Acknowledged(k + 1)), k + 1)
    ensures 4 * k >= s.m.size ==> Run(s, Acknowledged(k + 1)).state == DownloadDone
  {
    OneMoreAcknowledged(s, k);
    if k == 0 {
      assert Acknowledged(0) == [];
      ParseBegins(s);
    } else {
      DownloadParsesTo(s, k - 1);
      ParseAdvances(s, Run(s, Acknowledged(k)), k);
    }
  }

  // ---------- the index list ----------

  /** The count of entries to upload is that of the list read exactly if its
      terminating entry is among the first 70. A device whose list has 70 entries
      is uploaded by the count of an earlier list. */
  lemma ListCounted(il: IndexList, buf: seq<byte>, n: nat)
    requires forall k :: 0 <= k < n ==> ListIndex(buf, k) != 0
    requires ListIndex(buf, n) == 0
    ensures if n < INDEX_LIST_MAX_ENTRIES then
              ParseList(il, buf).count == n
              && forall k :: 0 <= k < n ==> ParseList(il, buf).entries[k] == ListEntry(buf, k)
            else ParseList(il, buf).count == il.count
  {
    var m := ListEnd(buf, 0);
    if m < INDEX_LIST_MAX_ENTRIES && m < n { assert false; }
  }
}
