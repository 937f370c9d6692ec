/**
 * Data storage: an upload reads the parameters a device lists and appends them
 * to a byte store; a download parses the store back into parameter writes. Both
 * are driven by one table of transitions whose actions raise further events.
 */
module DataStorage {
  import opened Bytes
  import opened IsduCodec

  const DS_MAX_SIZE: nat := 2048
  const INDEX_LIST_MAX_ENTRIES: nat := 70

  datatype DsState =
    | CheckActivationState | WaitingOnDSActivity | Off
    | CheckIdentity | CheckMemSize | CheckUpload | CheckDSValidity | CheckChecksum | DsReady | DsFault
    | DecomposeIl | ReadParameter | StoreDataSet | UploadFault
    | DecomposeSet | WriteParameter | DownloadDone | DownloadFault

  datatype DsEvent =
    | EvNone | EvEnable | EvStartup | EvReady | EvUpload | EvFaultDone | EvFaultId | EvFaultSize
    | EvFaultUl | EvFaultDl | EvFaultLock | EvClrDisa | EvDelete | EvPassed | EvDoUpload | EvNoUpload
    | EvDownload | EvMoreData | EvReadDone | EvStoreData | EvUlDone | EvDevErr | EvComErr | EvWrDone
    | EvDlDone | EvInit

  datatype Action =
    | ActWait | ActOff | ActDelete | ActReinit | ActCheckId | ActCheckMemSize | ActCheckUpload
    | ActCheckValidity | ActCheckChecksum | ActReady | ActFault | ActUpload | ActReadParam | ActStoreData
    | ActUploadFault | ActInitDownload | ActDecomposeSet | ActWriteParam | ActDownloadDone | ActDownloadFault

  datatype Transition = To(next: DsState, action: Action)

  datatype Fault = FaultNone | FaultId | FaultSize | FaultLock | FaultUp | FaultDown

  datatype RawEntry = Entry(index: nat, subindex: byte)
  type Entry = e: RawEntry | e.index < 65536 witness Entry(0, 0)

  const CMD_UL_START: byte := 1
  const CMD_UL_END: byte := 2
  const CMD_DL_START: byte := 3
  const CMD_DL_END: byte := 4
  const CMD_BREAK: byte := 5

  const COMMAND: Entry := Entry(3, 1)
  const STATE_PROPERTY: Entry := Entry(3, 2)
  const SIZE: Entry := Entry(3, 3)
  const CHECKSUM: Entry := Entry(3, 4)
  const INDEX_LIST: Entry := Entry(3, 5)

  datatype RawRecord = Record(entry: Entry, data: seq<byte>)
  /** An AL_Write_req, and what the store keeps: a 16-bit index, a length octet. */
  type Record = r: RawRecord | |r.data| < 256 witness Record(Entry(0, 0), [])

  datatype Id = Id(vendor: nat, device: nat)

  type Data = d: seq<byte> | |d| == DS_MAX_SIZE witness Zeros(DS_MAX_SIZE)

  datatype Store = Store(id: Id, cs: nat, valid: bool, pos: nat, size: nat, data: Data)

  type Entries = s: seq<Entry> | |s| == INDEX_LIST_MAX_ENTRIES
    witness seq(INDEX_LIST_MAX_ENTRIES, i => Entry(0, 0))

  type ListCount = n: nat | n <= INDEX_LIST_MAX_ENTRIES

  datatype IndexList = IndexList(entries: Entries, count: ListCount, pos: nat)

  /** What data storage tells the configuration manager about an activation. */
  datatype Note = Activated | Ready | Faulted(fault: Fault) | Silent

  /** History: `log` of activations and their ends; of the upload under way, its
      reads, the parameters answered and those stored; `complete`, the records of
      the last upload that read them all, which are `intact` until something else
      is written to the store; `own`, the bytes below pos are the upload's;
      `relisted`, a parameter was taken for the index list; the writes of the
      download under way; and DS_Ready reports given while off. */
  datatype UploadLog = UploadLog(
    asked: seq<Entry>, seen: seq<Record>, stored: seq<Record>, own: bool, relisted: bool)

  datatype History = History(
    log: seq<Note>, off_ready: nat, complete: seq<Record>, intact: bool, writes: seq<Record>)

  datatype Conf = Conf(enable: bool, upload: bool, download: bool, fault: Fault, pending: Id, port: Id)

  /** What the device told of its own storage. */
  datatype DeviceDs = DeviceDs(size_max: nat, state_property: byte, cs: nat)

  datatype Ds = Ds(
    state: DsState, conf: Conf, dev: DeviceDs, current: Entry, il: IndexList, m: Store, up: UploadLog, h: History)

  // ---------- the byte format of the store ----------

  function RecordBytes(r: Record): (b: seq<byte>)
    ensures |b| == 4 + |r.data|
  {
    [r.entry.index / 256, r.entry.index % 256, r.entry.subindex, |r.data|] + r.data
  }

  function AllBytes(rs: seq<Record>): seq<byte> {
    if rs == [] then [] else AllBytes(rs[..|rs| - 1]) + RecordBytes(rs[|rs| - 1])
  }

  /** The record a download reads at `pos`; octets behind the store read as 0. */
  function RecordAt(d: Data, pos: nat): Record {
    var h := Window(d, pos, 4);
    Record(Entry(U16(h[0], h[1]), h[2]), Window(d, pos + 4, h[3]))
  }

  predicate FitsAt(pos: nat, len: nat) {
    pos + 2 + 1 + len < DS_MAX_SIZE
  }

  /** The records an upload keeps: each one that still fits entirely. */
  function Fitting(rs: seq<Record>): seq<Record> {
    if rs == [] then []
    else
      var kept, r := Fitting(rs[..|rs| - 1]), rs[|rs| - 1];
      if FitsAt(|AllBytes(kept)|, |r.data|) then kept + [r] else kept
  }

  // ---------- requests to the application layer ----------

  function AlRead(s: Ds, e: Entry): Ds {
    s.(current := e, up := s.up.(asked := s.up.asked + [e]))
  }

  function AlWrite(s: Ds, r: Record): Ds {
    s.(h := s.h.(writes := s.h.writes + [r]))
  }

  function Command(s: Ds, cmd: byte): Ds {
    AlWrite(s.(current := COMMAND), Record(COMMAND, [cmd]))
  }

  function Noted(s: Ds, n: Note): Ds {
    s.(h := s.h.(log := s.h.log + [n]))
  }

  // ---------- actions ----------

  datatype Outcome = Outcome(s: Ds, next: DsEvent)

  function Delete(s: Ds): Ds {
    s.(m := s.m.(id := Id(0, 0), cs := 0, valid := false, pos := 0))
  }

  function Failing(s: Ds, f: Fault): Ds {
    s.(conf := s.conf.(fault := f))
  }

  function RaiseFault(s: Ds, e: DsEvent): Outcome {
    match e
    case EvFaultId => Outcome(Noted(s, Faulted(FaultId)), EvFaultDone)
    case EvFaultSize => Outcome(Noted(s, Faulted(FaultSize)), EvFaultDone)
    case EvFaultUl => Outcome(Command(Failing(s, FaultUp), CMD_BREAK), EvNone)
    case EvFaultDl => Outcome(Command(Failing(s, FaultDown), CMD_BREAK), EvNone)
    case EvFaultLock => Outcome(Noted(s.(conf := s.conf.(enable := false)), Faulted(FaultLock)), EvFaultDone)
    case _ => Outcome(s, EvNone)
  }

  /** An activation. The store may hold another device's parameters. */
  function CheckId(s: Ds): Outcome {
    var t := Noted(s, Activated);
    if s.m.id.vendor == 0 || s.m.id == s.conf.port then Outcome(AlRead(t, SIZE), EvNone)
    else Outcome(t, EvFaultId)
  }

  function CheckSize(s: Ds): Outcome {
    if DS_MAX_SIZE < s.dev.size_max then Outcome(s, EvFaultSize)
    else Outcome(AlRead(s, STATE_PROPERTY), EvNone)
  }

  /** Bits 1 and 2 are the device's storage state, bit 7 its upload request. */
  function CheckFlags(s: Ds): Outcome {
    if (s.dev.state_property / 2) % 4 == 3 then Outcome(s, EvFaultLock)
    else if s.dev.state_property / 128 == 1 && s.conf.upload then Outcome(Command(s, CMD_UL_START), EvNone)
    else Outcome(AlRead(s, CHECKSUM), EvNone)
  }

  function UploadStart(s: Ds): Outcome {
    Outcome(s.(m := s.m.(pos := 0), il := s.il.(pos := 0), current := INDEX_LIST,
               up := UploadLog([], [], [], true, false), h := s.h.(intact := false)),
      EvMoreData)
  }

  function UploadNext(s: Ds): Outcome {
    if s.il.pos < s.il.count then
      Outcome(s.(current := s.il.entries[s.il.pos], il := s.il.(pos := s.il.pos + 1)), EvMoreData)
    else
      Outcome(AlRead(s.(m := s.m.(size := s.m.pos), h := s.h.(complete := s.up.stored, intact := s.up.own)), CHECKSUM),
        EvStoreData)
  }

  function Upload(s: Ds, e: DsEvent): Outcome {
    match e
    case EvDoUpload => UploadStart(s)
    case EvReadDone => UploadNext(s)
    case _ => Outcome(s, EvNone)
  }

  function CheckValidity(s: Ds): Outcome {
    if s.m.valid then Outcome(s, EvPassed) else Outcome(Command(s, CMD_UL_START), EvNone)
  }

  function CheckCs(s: Ds): Outcome {
    Outcome(s, if s.conf.download && s.m.cs != s.dev.cs then EvDownload else EvReady)
  }

  function Decompose(s: Ds, e: DsEvent): Outcome {
    var t := if e == EvDownload then s.(m := s.m.(pos := 0), h := s.h.(writes := [])) else s;
    Outcome(t, if t.m.pos >= t.m.size then EvDlDone else EvMoreData)
  }

  /** The write goes to the record's index; the layer only notes its subindex. */
  function WriteParam(s: Ds): Ds {
    var r := RecordAt(s.m.data, s.m.pos);
    AlWrite(s.(m := s.m.(pos := s.m.pos + 4 + |r.data|), current := Entry(3, r.entry.subindex)), r)
  }

  /** Back to waiting: silently after a communication error. */
  function Ended(s: Ds, e: DsEvent): Ds {
    if e == EvComErr then Noted(s, Silent) else s
  }

  /** Off, a start-up is answered at once. */
  function WentOff(s: Ds, e: DsEvent): Ds {
    if e == EvStartup then s.(h := s.h.(off_ready := s.h.off_ready + 1)) else s  // T14
  }

  function Reinit(s: Ds, from: DsState): Outcome {
    Outcome(if Active(from) then Noted(s, Silent) else s, if s.conf.enable then EvEnable else EvClrDisa)
  }

  /** `from` is the state the transition leaves. */
  function Act(s: Ds, a: Action, e: DsEvent, from: DsState): Outcome {
    match a
    case ActWait => Outcome(Ended(s, e), EvNone)
    case ActOff => Outcome(WentOff(s, e), EvNone)
    case ActDelete => Outcome(Delete(s), EvNone)
    case ActReinit => Reinit(s, from)
    case ActCheckId => CheckId(s)
    case ActCheckMemSize => CheckSize(s)
    case ActCheckUpload => CheckFlags(s)
    case ActCheckValidity => CheckValidity(s)
    case ActCheckChecksum => CheckCs(s)
    case ActReady => Outcome(Noted(s, Ready), EvReady)
    case ActFault => RaiseFault(s, e)
    case ActUpload => Upload(s, e)
    case ActReadParam => Outcome(AlRead(s, s.current), EvNone)
    case ActStoreData => Outcome(s, EvNone)
    case ActUploadFault => Outcome(s, EvFaultUl)
    case ActInitDownload => Outcome(Command(s, CMD_DL_START), EvNone)
    case ActDecomposeSet => Decompose(s, e)
    case ActWriteParam => Outcome(WriteParam(s), EvNone)
    case ActDownloadDone => Outcome(Command(s, CMD_DL_END), EvNone)
    case ActDownloadFault => Outcome(s, EvFaultDl)
  }

  // ---------- the transition table ----------

  /** Between activation and report. */
  predicate Active(state: DsState) {
    state != CheckActivationState && state != WaitingOnDSActivity && state != Off
  }

  predicate Filling(state: DsState) {
    state == DecomposeIl || state == ReadParameter || state == StoreDataSet
  }

  /** Actions that touch neither the store nor its history. */
  predicate Aside(a: Action) {
    && a != ActUpload && a != ActReadParam && a != ActStoreData && a != ActDelete
    && a != ActDecomposeSet && a != ActWriteParam && a != ActDownloadDone
  }

  /** States in which nothing is claimed beyond the intact store. */
  predicate Elsewhere(state: DsState) {
    !Filling(state) && state != WriteParameter && state != DownloadDone
  }

  predicate StartsUpload(state: DsState, e: DsEvent) {
    e == EvDoUpload && (state == CheckUpload || state == CheckDSValidity)
  }

  /** Where in the table the actions on the store stand. */
  predicate TransferAt(state: DsState, e: DsEvent, t: Transition) {
    match t.action
    case ActUpload =>
      t.next == DecomposeIl && (StartsUpload(state, e) || (e == EvReadDone && state == ReadParameter))
    case ActReadParam => t.next == ReadParameter && e == EvMoreData && state == DecomposeIl
    case ActStoreData => t.next == StoreDataSet && e == EvStoreData && state == DecomposeIl
    case ActDelete => t.next == state && e == EvDelete && !Active(state)
    case ActDecomposeSet =>
      t.next == DecomposeSet
      && ((e == EvDownload && state == DecomposeSet) || (e == EvWrDone && state == WriteParameter))
    case ActWriteParam => t.next == WriteParameter && e == EvMoreData && state == DecomposeSet
    case ActDownloadDone => t.next == DownloadDone && e == EvDlDone && state == DecomposeSet
    case ActCheckId => t.next == CheckIdentity && !Active(state) && (e == EvStartup || e == EvUpload)
    case ActWait =>
      t.next == WaitingOnDSActivity
      && (if state == DsReady then e == EvReady
          else if state == DsFault then e == EvFaultDone || e == EvComErr
          else !Active(state) && e == EvEnable)
    case ActReinit => t.next == CheckActivationState && e == EvInit && state != DsReady && state != DsFault
    case ActReady => t.next == DsReady && e != EvDoUpload && Active(state) && state != DsReady && state != DsFault
    case ActFault => t.next == DsFault && e != EvDoUpload && Active(state) && state != DsReady && state != DsFault
    case _ =>
      && Elsewhere(t.next) && e != EvDoUpload && (Active(state) <==> Active(t.next))
      && state != DsReady && state != DsFault && t.next != DsReady && t.next != DsFault
  }

  /** Download_10. */
  function LookupDownload(state: DsState, e: DsEvent): (r: Option<Transition>)
    ensures r.Some? ==> TransferAt(state, e, r.value)
  {
    match state
    case DecomposeSet =>
      (match e
       case EvMoreData => Some(To(WriteParameter, ActWriteParam))  // T37
       case EvDownload => Some(To(DecomposeSet, ActDecomposeSet))  // T24
       case EvDlDone => Some(To(DownloadDone, ActDownloadDone))  // T41
       case _ => None)
    case WriteParameter =>
      (match e
       case EvWrDone => Some(To(DecomposeSet, ActDecomposeSet))  // T38
       case EvDevErr => Some(To(DownloadFault, ActDownloadFault))  // T39
       case EvComErr => Some(To(DownloadFault, ActDownloadFault))  // T40
       case _ => None)
    case DownloadDone =>
      (match e
       case EvReady => Some(To(DsReady, ActReady))  // T27
       case EvComErr => Some(To(DownloadFault, ActDownloadFault))  // T42
       case _ => None)
    case DownloadFault =>
      (match e
       case EvFaultDl => Some(To(DsFault, ActFault))  // T28
       case _ => None)
    case _ => None
  }

  /** Upload_7. */
  function LookupUpload(state: DsState, e: DsEvent): (r: Option<Transition>)
    ensures r.Some? ==> TransferAt(state, e, r.value)
  {
    match state
    case DecomposeIl =>
      (match e
       case EvMoreData => Some(To(ReadParameter, ActReadParam))  // T30
       case EvStoreData => Some(To(StoreDataSet, ActStoreData))  // T35
       case EvComErr => Some(To(UploadFault, ActUploadFault))  // T34
       case _ => None)
    case ReadParameter =>
      (match e
       case EvReadDone => Some(To(DecomposeIl, ActUpload))  // T31
       case EvDevErr => Some(To(UploadFault, ActUploadFault))  // T32
       case EvComErr => Some(To(UploadFault, ActUploadFault))  // T33
       case _ => None)
    case StoreDataSet =>
      (match e
       case EvUlDone => Some(To(DsReady, ActReady))  // T26
       case EvComErr => Some(To(UploadFault, ActUploadFault))  // T36
       case _ => None)
    case UploadFault =>
      (match e
       case EvFaultUl => Some(To(DsFault, ActFault))  // T23
       case _ => None)
    case _ => LookupDownload(state, e)
  }

  /** UploadDownload_2: the device's identity is known; and the two reports. */
  function LookupCompare(state: DsState, e: DsEvent): (r: Option<Transition>)
    ensures r.Some? ==> TransferAt(state, e, r.value)
  {
    match state
    case CheckDSValidity =>
      (match e
       case EvDoUpload => Some(To(DecomposeIl, ActUpload))  // T21
       case EvPassed => Some(To(CheckChecksum, ActCheckChecksum))  // T22
       case _ => None)
    case CheckChecksum =>
      (match e
       case EvDownload => Some(To(DecomposeSet, ActInitDownload))  // T24
       case EvReady => Some(To(DsReady, ActReady))  // T25
       case _ => None)
    case DsReady =>
      (match e
       case EvReady => Some(To(WaitingOnDSActivity, ActWait))  // T3
       case _ => None)
    case DsFault =>
      (match e
       case EvFaultDone => Some(To(WaitingOnDSActivity, ActWait))  // T5
       case EvComErr => Some(To(WaitingOnDSActivity, ActWait))
       case _ => None)
    case _ => LookupUpload(state, e)
  }

  /** UploadDownload_2: identity, size and flags of the device. */
  function LookupCheck(state: DsState, e: DsEvent): (r: Option<Transition>)
    ensures r.Some? ==> TransferAt(state, e, r.value)
  {
    match state
    case CheckIdentity =>
      (match e
       case EvPassed => Some(To(CheckMemSize, ActCheckMemSize))  // T16
       case EvFaultId => Some(To(DsFault, ActFault))  // T15
       case EvInit => Some(To(CheckActivationState, ActReinit))
       case _ => None)
    case CheckMemSize =>
      (match e
       case EvPassed => Some(To(CheckUpload, ActCheckUpload))  // T18
       case EvFaultSize => Some(To(DsFault, ActFault))  // T17
       case EvInit => Some(To(CheckActivationState, ActReinit))
       case _ => None)
    case CheckUpload =>
      (match e
       case EvDoUpload => Some(To(DecomposeIl, ActUpload))  // T19
       case EvNoUpload => Some(To(CheckDSValidity, ActCheckValidity))  // T20, T43
       case EvFaultLock => Some(To(DsFault, ActFault))  // T29
       case _ => None)
    case _ => LookupCompare(state, e)
  }

  /** The table: one function for each composite state. */
  function Lookup(state: DsState, e: DsEvent): (r: Option<Transition>)
    ensures r.Some? ==> TransferAt(state, e, r.value)
  {
    match state
    case CheckActivationState =>
      (match e
       case EvEnable => Some(To(WaitingOnDSActivity, ActWait))  // T1
       case EvClrDisa => Some(To(Off, ActOff))  // T7
       case EvDelete => Some(To(CheckActivationState, ActDelete))
       case EvInit => Some(To(CheckActivationState, ActReinit))
       case _ => None)
    case WaitingOnDSActivity =>
      (match e
       case EvStartup => Some(To(CheckIdentity, ActCheckId))  // T2
       case EvUpload => Some(To(CheckIdentity, ActCheckId))  // T4
       case EvDelete => Some(To(WaitingOnDSActivity, ActDelete))  // T9
       case EvInit => Some(To(CheckActivationState, ActReinit))
       case _ => None)
    case Off =>
      (match e
       case EvDelete => Some(To(Off, ActDelete))  // T10
       case EvUpload => Some(To(Off, ActOff))  // T13
       case EvStartup => Some(To(Off, ActOff))  // T14
       case EvInit => Some(To(CheckActivationState, ActReinit))
       case _ => None)
    case _ => LookupCheck(state, e)
  }

  // ---------- run to completion ----------

  /** One pass of the event loop. An event the state does not know ends it. */
  function Fire(s: Ds, e: DsEvent): Outcome {
    match Lookup(s.state, e)
    case None => Outcome(s, EvNone)
    case Some(t) => Act(s.(state := t.next), t.action, e, s.state)
  }

  /** Bounds the passes an event still causes. */
  function Rank(state: DsState, e: DsEvent): nat {
    match e
    case EvNone => 0
    case EvReady => if state == DsReady then 1 else 2
    case EvInit => 2
    case EvDownload => 2
    case EvWrDone => 2
    case EvFaultId => 2
    case EvFaultSize => 2
    case EvFaultLock => 2
    case EvFaultUl => 2
    case EvFaultDl => 2
    case EvReadDone => 2
    case EvDoUpload => 2
    case EvPassed => 3
    case EvStartup => 3
    case EvUpload => 3
    case EvUlDone => 3
    case EvComErr => 3
    case EvDevErr => 3
    case EvNoUpload => 4
    case _ => 1
  }

  /** A bound of the passes that the events of an action still cause. */
  function RankAfter(a: Action): nat {
    match a
    case ActReinit => 1
    case ActCheckId => 2
    case ActCheckMemSize => 2
    case ActCheckUpload => 2
    case ActCheckValidity => 3
    case ActCheckChecksum => 2
    case ActReady => 1
    case ActFault => 1
    case ActUpload => 1
    case ActUploadFault => 2
    case ActDecomposeSet => 1
    case ActDownloadFault => 2
    case _ => 0
  }

  lemma FaultRanks(s: Ds, e: DsEvent)
    ensures Rank(RaiseFault(s, e).s.state, RaiseFault(s, e).next) <= 1
  {
    match e
    case EvFaultId =>
    case EvFaultSize =>
    case EvFaultUl =>
    case EvFaultDl =>
    case EvFaultLock =>
    case _ =>
  }

  lemma ActRanks(s: Ds, a: Action, e: DsEvent, from: DsState)
    requires a == ActReady ==> s.state == DsReady
    ensures var o := Act(s, a, e, from); Rank(o.s.state, o.next) <= RankAfter(a)
  {
    match a
    case ActFault => FaultRanks(s, e);
    case ActUpload => match e { case EvDoUpload => case EvReadDone => case _ => }
    case _ =>
  }

  predicate Falls(r: Option<Transition>, state: DsState, e: DsEvent) {
    match r
    case None => true
    case Some(t) => RankAfter(t.action) < Rank(state, e) && (t.action == ActReady ==> t.next == DsReady)
  }

  lemma DownloadRanks(state: DsState, e: DsEvent)
    ensures Falls(LookupDownload(state, e), state, e)
  {
  }

  lemma UploadRanks(state: DsState, e: DsEvent)
    ensures Falls(LookupUpload(state, e), state, e)
  {
    DownloadRanks(state, e);
  }

  lemma CompareRanks(state: DsState, e: DsEvent)
    ensures Falls(LookupCompare(state, e), state, e)
  {
    UploadRanks(state, e);
  }

  lemma CheckRanks(state: DsState, e: DsEvent)
    ensures Falls(LookupCheck(state, e), state, e)
  {
    CompareRanks(state, e);
  }

  lemma LookupRanks(state: DsState, e: DsEvent)
    ensures Falls(Lookup(state, e), state, e)
  {
    CheckRanks(state, e);
  }

  lemma FireRanks(s: Ds, e: DsEvent)
    ensures var o := Fire(s, e); o.next != EvNone ==> Rank(o.s.state, o.next) < Rank(s.state, e)
  {
    LookupRanks(s.state, e);
    match Lookup(s.state, e)
    case None =>
    case Some(t) => ActRanks(s.(state := t.next), t.action, e, s.state);
  }

  /** The event loop ends, after at most four passes, for every state, event and data. */
  function Handle(s: Ds, e: DsEvent): Ds
    decreases Rank(s.state, e)
  {
    FireRanks(s, e);
    var o := Fire(s, e);
    if o.next == EvNone then o.s else Handle(o.s, o.next)
  }

  // ---------- confirmations and requests ----------

  /** How a service ended. Of the buffer of a read `len` octets count; it may hold more. */
  datatype AlError = ErrNone | ErrCom | ErrDevice

  function Octet(buf: seq<byte>, i: nat): byte {
    if i < |buf| then buf[i] else 0
  }

  function U32(buf: seq<byte>): nat {
    U16(U16(U16(Octet(buf, 0), Octet(buf, 1)), Octet(buf, 2)), Octet(buf, 3))
  }

  function ListIndex(buf: seq<byte>, i: nat): nat {
    U16(Octet(buf, 3 * i), Octet(buf, 3 * i + 1))
  }

  function ListEntry(buf: seq<byte>, i: nat): Entry {
    Entry(ListIndex(buf, i), Octet(buf, 3 * i + 2))
  }

  /** Position of the terminating entry at or after i; 70 when there is none. */
  function ListEnd(buf: seq<byte>, i: nat): (n: nat)
    requires i <= INDEX_LIST_MAX_ENTRIES
    ensures i <= n <= INDEX_LIST_MAX_ENTRIES
    ensures forall k :: i <= k < n ==> ListIndex(buf, k) != 0
    ensures n < INDEX_LIST_MAX_ENTRIES ==> ListIndex(buf, n) == 0
    decreases INDEX_LIST_MAX_ENTRIES - i
  {
    if i == INDEX_LIST_MAX_ENTRIES || ListIndex(buf, i) == 0 then i else ListEnd(buf, i + 1)
  }

  function Listed(old_entries: Entries, buf: seq<byte>, n: nat): (r: Entries)
    ensures forall i :: 0 <= i < INDEX_LIST_MAX_ENTRIES ==> r[i] == if i < n then ListEntry(buf, i) else old_entries[i]
  {
    seq(INDEX_LIST_MAX_ENTRIES, i requires 0 <= i < INDEX_LIST_MAX_ENTRIES =>
      if i < n then ListEntry(buf, i) else old_entries[i])
  }

  lemma ListEndNext(buf: seq<byte>, i: nat)
    requires i < INDEX_LIST_MAX_ENTRIES
    ensures ListEnd(buf, i) == if ListIndex(buf, i) == 0 then i else ListEnd(buf, i + 1)
  {
  }

  lemma ListedNext(old_entries: Entries, buf: seq<byte>, i: nat)
    requires i < INDEX_LIST_MAX_ENTRIES
    ensures Listed(old_entries, buf, i + 1) == Listed(old_entries, buf, i)[i := ListEntry(buf, i)]
  {
  }

  /** Without a terminating entry among the first 70 the count stays as it was. */
  function ParseList(il: IndexList, buf: seq<byte>): IndexList {
    var n := ListEnd(buf, 0);
    il.(entries := Listed(il.entries, buf, n), count := if n < INDEX_LIST_MAX_ENTRIES then n else il.count)
  }

  function StoreRecord(s: Ds, r: Record): Ds {
    var t := s.(up := s.up.(seen := s.up.seen + [r]));
    if FitsAt(s.m.pos, |r.data|) then
      t.(m := t.m.(data := Overwrite(t.m.data, t.m.pos, RecordBytes(r)), pos := t.m.pos + 4 + |r.data|),
         up := t.up.(stored := t.up.stored + [r]))
    else t
  }

  function ParameterRead(s: Ds, len: byte, buf: seq<byte>): Ds {
    if s.current == INDEX_LIST then
      s.(il := ParseList(s.il, buf), up := s.up.(relisted := s.up.relisted || s.il.pos > 0))
    else StoreRecord(s, Record(s.current, Window(buf, 0, len)))
  }

  function WithChecksum(s: Ds, cs: nat): Ds {
    s.(dev := s.dev.(cs := cs))
  }

  function ChecksumRead(s: Ds, len: byte, buf: seq<byte>): Ds {
    WithChecksum(if len < 4 then Handle(s, EvComErr) else s, U32(buf))
  }

  function ReadCnf(s: Ds, error: AlError, len: byte, buf: seq<byte>): Ds {
    if error == ErrCom then Handle(s, EvComErr)
    else
      match s.state
      case CheckIdentity =>
        if error != ErrNone || len < 4 then Handle(s, EvFaultId)
        else Handle(s.(dev := s.dev.(size_max := U32(buf))), EvPassed)
      case CheckMemSize =>
        if error != ErrNone || len != 1 then Handle(s, EvFaultSize)
        else Handle(s.(dev := s.dev.(state_property := Octet(buf, 0))), EvPassed)
      case ReadParameter =>
        if error != ErrNone then Handle(s, EvDevErr)
        else Handle(ParameterRead(s, len, buf), EvReadDone)
      case CheckUpload => Handle(ChecksumRead(s, len, buf), EvNoUpload)
      case StoreDataSet => Command(ChecksumRead(s, len, buf), CMD_UL_END)
      case DownloadDone => Handle(ChecksumRead(s, len, buf), EvReady)
      case _ => s
  }

  /** The store now speaks for the device just uploaded. */
  function Vouched(s: Ds): Ds {
    s.(m := s.m.(id := s.conf.pending, cs := s.dev.cs, valid := true))
  }

  function WriteCnf(s: Ds, error: AlError): Ds {
    if error != ErrNone then Handle(s, EvComErr)
    else
      match s.state
      case CheckUpload => Handle(s, EvDoUpload)
      case CheckDSValidity => Handle(s, EvDoUpload)
      case WriteParameter => Handle(s, EvWrDone)
      case StoreDataSet => Handle(Vouched(s), EvUlDone)
      case DecomposeSet => Handle(s, EvDownload)
      case DownloadDone => AlRead(s, CHECKSUM)
      case DsFault => Handle(Noted(s, Faulted(s.conf.fault)), EvFaultDone)
      case _ => s
  }

  datatype Backup = NoBackup | Restore | BackupRestore

  function Reconfigured(s: Ds, backup: Backup, id: Id): Ds {
    s.(conf := s.conf.(upload := backup == BackupRestore, download := backup != NoBackup,
                       enable := s.conf.enable || backup != NoBackup, fault := FaultNone, pending := id))
  }

  function WithPort(s: Ds, port: Id): Ds {
    s.(conf := s.conf.(port := port))
  }

  function Init(s: Ds, backup: Backup, id: Id): Ds {
    Handle(Reconfigured(s, backup, id), EvInit)
  }

  /** SMI_ParServToDS: the length is truncated to an octet. */
  function ParServToDs(s: Ds, id: Id, data: seq<byte>): Ds {
    var n := |data| % 256;
    s.(m := s.m.(data := Overwrite(s.m.data, 0, Window(data, 0, n)), cs := 0, id := id, valid := true, size := n),
       up := s.up.(own := false), h := s.h.(intact := false))
  }

  datatype Input =
    | ReadConfirmed(error: AlError, len: byte, buf: seq<byte>)
    | WriteConfirmed(error: AlError)
    | Startup(port: Id)
    | UploadRequest(port: Id)
    | DeleteRequest
    | InitRequest(backup: Backup, id: Id)
    | ParServ(id: Id, data: seq<byte>)

  function Step(s: Ds, i: Input): Ds {
    match i
    case ReadConfirmed(error, len, buf) => ReadCnf(s, error, len, buf)
    case WriteConfirmed(error) => WriteCnf(s, error)
    case Startup(port) => Handle(WithPort(s, port), EvStartup)
    case UploadRequest(port) => Handle(WithPort(s, port), EvUpload)
    case DeleteRequest => Handle(s, EvDelete)
    case InitRequest(backup, id) => Init(s, backup, id)
    case ParServ(id, data) => ParServToDs(s, id, data)
  }

  function Run(s: Ds, inputs: seq<Input>): Ds {
    if inputs == [] then s else Step(Run(s, inputs[..|inputs| - 1]), inputs[|inputs| - 1])
  }

  /** After iolink_ds_init. */
  predicate Initial(s: Ds) {
    && s.state == CheckActivationState && !s.conf.enable
    && s.il.count == 0 && s.il.pos == 0 && s.m.pos == 0 && s.m.size == 0 && !s.m.valid
    && s.up == UploadLog([], [], [], false, false) && s.h == History([], 0, [], false, [])
  }
}
