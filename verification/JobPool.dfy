/**
 * The jobs of the master: fifty records that travel between two free pools, the
 * work mailbox, the hands of the threads that fill them in and the main loop.
 */
module JobPool {
  import opened IsduCodec
  import opened Mailbox

  const JOB_CNT: nat := 40
  const JOB_API_CNT: nat := 10
  const ALL_JOBS: nat := JOB_CNT + JOB_API_CNT

  /** 0..39 belong to the internal pool, 40..49 to the API pool. */
  type Job = j: nat | j < ALL_JOBS

  datatype Home = Internal | Api

  function HomeOf(j: Job): Home {
    if j < JOB_CNT then Internal else Api
  }

  datatype JobType =
    | JobNone | JobPdEvent
    | JobSmOperateReq | JobSmSetPortCfgReq
    | JobDlModeInd | JobDlReadCnf | JobDlWriteCnf | JobDlWriteDevmodeCnf | JobDlReadparamCnf
    | JobDlWriteparamCnf | JobDlIsduTransCnf | JobDlEventInd | JobDlControlInd
    | JobAlReadReq | JobAlReadCnf | JobAlWriteReq | JobAlWriteCnf | JobAlEventRsp
    | JobSmPortModeInd | JobOdStart | JobOdStop | JobDsStartup | JobDsDelete | JobDsUpload | JobDsReady | JobDsChange | JobDsFault
    | JobAlAbort | JobSmiMasterident | JobSmiPortconfiguration | JobSmiReadbackportconfiguration
    | JobSmiPortstatus | JobSmiDeviceRead | JobSmiDeviceWrite | JobSmiParamRead | JobSmiParamWrite
    | JobAlEventReq

  /** The pool from which a job is fetched where it is posted with this type. */
  function DrawnFrom(t: JobType): Home {
    match t
    case JobAlAbort => Api
    case JobAlEventReq => Api
    case JobSmiMasterident => Api
    case JobSmiPortconfiguration => Api
    case JobSmiReadbackportconfiguration => Api
    case JobSmiPortstatus => Api
    case JobSmiDeviceRead => Api
    case JobSmiDeviceWrite => Api
    case JobSmiParamRead => Api
    case JobSmiParamWrite => Api
    case _ => Internal
  }

  /** The pool to which the main loop posts a job of this type when it is done;
      None where the switch has no case for it. */
  function ReturnedTo(t: JobType): Option<Home> {
    match t
    case JobAlAbort => Some(Api)
    case JobSmiMasterident => Some(Api)
    case JobSmiPortconfiguration => Some(Api)
    case JobSmiReadbackportconfiguration => Some(Api)
    case JobSmiPortstatus => Some(Api)
    case JobSmiDeviceRead => Some(Api)
    case JobSmiDeviceWrite => Some(Api)
    case JobSmiParamRead => Some(Api)
    case JobSmiParamWrite => Some(Api)
    case JobNone => None
    case JobAlEventReq => None
    case _ => Some(Internal)
  }

  datatype Pool = Pool(
    mbox: seq<Job>, avail: seq<Job>, api_avail: seq<Job>,
    hands: multiset<Job>, main: Option<Job>, types: map<Job, JobType>)

  /** What the threads and the main loop do, one mailbox operation at a time. */
  datatype Move =
    | FetchAvail | FetchApiAvail
    | Submit(j: Job, t: JobType)
    | TakeWork
    | GiveBack

  /** A mailbox operation with time 0: a full mailbox loses the job. */
  function Queue(box: seq<Job>, size: nat, j: Job): seq<Job> {
    if |box| < size then box + [j] else box
  }

  function Step(p: Pool, m: Move): Pool
    requires CanMove(p, m)
  {
    match m
    case FetchAvail => p.(avail := p.avail[1..], hands := p.hands + multiset{p.avail[0]})
    case FetchApiAvail => p.(api_avail := p.api_avail[1..], hands := p.hands + multiset{p.api_avail[0]})
    case Submit(j, t) =>
      p.(hands := p.hands - multiset{j}, types := p.types[j := t], mbox := Queue(p.mbox, ALL_JOBS, j))
    case TakeWork => p.(mbox := p.mbox[1..], main := Some(p.mbox[0]))
    case GiveBack =>
      var j := p.main.value;
      var q := p.(main := None, types := p.types[j := JobNone]);
      if ReturnedTo(p.types[j]) == Some(Api) then q.(api_avail := Queue(p.api_avail, JOB_API_CNT, j))
      else q.(avail := Queue(p.avail, JOB_CNT, j))
  }

  /** A free pool is not found empty, a job is submitted by who holds it and with
      a type of its kind, and the main loop handles one job at a time. */
  predicate CanMove(p: Pool, m: Move) {
    match m
    case FetchAvail => p.avail != []
    case FetchApiAvail => p.api_avail != []
    case Submit(j, t) => j in p.hands && Kind(j, t)
    case TakeWork => p.main == None && p.mbox != []
    case GiveBack => p.main.Some? && p.main.value in p.types
  }

  /** The call sites pair the pool and the type like this. */
  predicate Kind(j: Job, t: JobType) {
    t != JobNone && t != JobAlEventReq && DrawnFrom(t) == HomeOf(j)
  }

  predicate CanRun(p: Pool, moves: seq<Move>)
    decreases |moves|, 0
  {
    moves == []
    || (CanRun(p, moves[..|moves| - 1]) && CanMove(Run(p, moves[..|moves| - 1]), moves[|moves| - 1]))
  }

  function Run(p: Pool, moves: seq<Move>): Pool
    requires CanRun(p, moves)
    decreases |moves|, 1
  {
    if moves == [] then p else Step(Run(p, moves[..|moves| - 1]), moves[|moves| - 1])
  }

  // ---------- conservation ----------

  /** How often a job is anywhere. */
  function Places(p: Pool, j: Job): nat {
    multiset(p.mbox)[j] + multiset(p.avail)[j] + multiset(p.api_avail)[j] + p.hands[j]
    + (if p.main == Some(j) then 1 else 0)
  }

  predicate Conserved(p: Pool) {
    && (forall j: Job :: Places(p, j) == 1)
    && (forall j <- p.avail :: HomeOf(j) == Internal)
    && (forall j <- p.api_avail :: HomeOf(j) == Api)
    && (forall j <- p.mbox :: j in p.types && Kind(j, p.types[j]))
    && (p.main.Some? ==> p.main.value in p.types && Kind(p.main.value, p.types[p.main.value]))
  }

  lemma {:induction false} DistinctBound(m: multiset<Job>, lo: nat, hi: nat)
    requires lo <= hi && forall j: Job :: m[j] <= if lo <= j < hi then 1 else 0
    ensures |m| <= hi - lo
    decreases hi - lo
  {
    if hi == lo {
      assert m == multiset{};
    } else if hi <= ALL_JOBS {
      var j: Job := hi - 1;
      DistinctBound(m - multiset{j}, lo, hi - 1);
      assert j in m ==> m == (m - multiset{j}) + multiset{j};
      assert j !in m ==> m == m - multiset{j};
    } else {
      DistinctBound(m, lo, hi - 1);
    }
  }

  lemma MissingBound(s: seq<Job>, j: Job, lo: nat, hi: nat)
    requires lo <= j < hi && (forall x <- s :: lo <= x < hi) && j !in s
    requires forall x: Job :: multiset(s)[x] <= 1
    ensures |s| < hi - lo
  {
    var t: seq<Job> := s + [j];
    assert multiset(t) == multiset(s) + multiset{j};
    forall x: Job ensures multiset(t)[x] <= if lo <= x < hi then 1 else 0 {
      if x in t { assert x in s || x == j; }
    }
    DistinctBound(multiset(t), lo, hi);
  }

  /** Nobody ever finds the mailbox it posts to full. */
  lemma NeverFull(p: Pool)
    requires Conserved(p)
    ensures forall j :: j in p.hands ==> |p.mbox| < ALL_JOBS
    ensures p.main.Some? && HomeOf(p.main.value) == Internal ==> |p.avail| < JOB_CNT
    ensures p.main.Some? && HomeOf(p.main.value) == Api ==> |p.api_avail| < JOB_API_CNT
  {
    forall j | j in p.hands ensures |p.mbox| < ALL_JOBS {
      assert Places(p, j) == 1;
      forall x: Job ensures multiset(p.mbox)[x] <= 1 { assert Places(p, x) == 1; }
      MissingBound(p.mbox, j, 0, ALL_JOBS);
    }
    if p.main.Some? {
      var j := p.main.value;
      assert Places(p, j) == 1;
      if HomeOf(j) == Internal {
        forall x: Job ensures multiset(p.avail)[x] <= 1 { assert Places(p, x) == 1; }
        MissingBound(p.avail, j, 0, JOB_CNT);
      } else {
        forall x: Job ensures multiset(p.api_avail)[x] <= 1 { assert Places(p, x) == 1; }
        MissingBound(p.api_avail, j, JOB_CNT, ALL_JOBS);
      }
    }
  }

  lemma HeadMoves(s: seq<Job>)
    requires s != []
    ensures multiset(s) == multiset{s[0]} + multiset(s[1..])
  {
    assert s == [s[0]] + s[1..];
  }

  /** The types the main loop returns to a pool are those drawn from it. */
  lemma ReturnedWhereDrawn(j: Job, t: JobType)
    requires Kind(j, t)
    ensures ReturnedTo(t) == Some(HomeOf(j))
  {
  }

  lemma SubmitConserves(p: Pool, j: Job, t: JobType)
    requires Conserved(p) && CanMove(p, Submit(j, t))
    ensures Conserved(Step(p, Submit(j, t)))
  {
    NeverFull(p);
    var q := Step(p, Submit(j, t));
    assert Places(p, j) == 1;
    forall x: Job ensures Places(q, x) == 1 { assert Places(p, x) == 1; }
    forall x | x in q.mbox ensures x in q.types && Kind(x, q.types[x]) {
      if x != j { assert x in p.mbox; }
    }
  }

  lemma GiveBackConserves(p: Pool)
    requires Conserved(p) && CanMove(p, GiveBack)
    ensures Conserved(Step(p, GiveBack))
  {
    NeverFull(p);
    var j, q := p.main.value, Step(p, GiveBack);
    ReturnedWhereDrawn(j, p.types[j]);
    assert Places(p, j) == 1;
    forall x: Job ensures Places(q, x) == 1 { assert Places(p, x) == 1; }
  }

  lemma FetchConserves(p: Pool, m: Move)
    requires Conserved(p) && CanMove(p, m) && (m.FetchAvail? || m.FetchApiAvail? || m.TakeWork?)
    ensures Conserved(Step(p, m))
  {
    var box := if m.FetchAvail? then p.avail else if m.FetchApiAvail? then p.api_avail else p.mbox;
    HeadMoves(box);
    var q := Step(p, m);
    forall x: Job ensures Places(q, x) == 1 { assert Places(p, x) == 1; }
    forall x | x in box[1..] ensures x in box { }
    assert box[0] in box;
  }

  /** Every job is in exactly one place after any interleaving of the threads and
      the main loop, comes back to its own pool, and is never lost to a full
      mailbox. */
  lemma {:induction false} JobsAreConserved(p: Pool, moves: seq<Move>)
    requires Conserved(p) && CanRun(p, moves)
    ensures Conserved(Run(p, moves))
  {
    if moves != [] {
      var init, m := moves[..|moves| - 1], moves[|moves| - 1];
      JobsAreConserved(p, init);
      var q := Run(p, init);
      match m
      case Submit(j, t) => SubmitConserves(q, j, t);
      case GiveBack => GiveBackConserves(q);
      case _ => FetchConserves(q, m);
    }
  }

  /** n jobs from `first` on. */
  function Range(first: nat, n: nat): (r: seq<Job>)
    requires first + n <= ALL_JOBS
    ensures |r| == n && forall i :: 0 <= i < n ==> r[i] == first + i
  {
    seq(n, i requires 0 <= i < n => first + i)
  }

  lemma {:induction false} RangeOnce(first: nat, n: nat, j: Job)
    requires first + n <= ALL_JOBS
    ensures multiset(Range(first, n))[j] == if first <= j < first + n then 1 else 0
  {
    if n > 0 {
      RangeOnce(first, n - 1, j);
      assert Range(first, n) == Range(first, n - 1) + [first + n - 1];
    }
  }

  /** iolink_m_init puts every job into its pool. */
  function Initial(): Pool {
    Pool([], Range(0, JOB_CNT), Range(JOB_CNT, JOB_API_CNT), multiset{}, None, map[])
  }

  lemma InitiallyConserved()
    ensures Conserved(Initial())
  {
    forall j: Job ensures Places(Initial(), j) == 1 {
      RangeOnce(0, JOB_CNT, j);
      RangeOnce(JOB_CNT, JOB_API_CNT, j);
    }
  }

  /** A job of one pool under a type of the other ends in the wrong pool: the
      pairing at the call sites is what the conservation rests on. */
  lemma ForeignTypeChangesPool(p: Pool)
    requires p.main.Some? && p.main.value in p.types && ReturnedTo(p.types[p.main.value]).Some?
    requires |p.avail| < JOB_CNT && |p.api_avail| < JOB_API_CNT
    ensures var j, q := p.main.value, Step(p, GiveBack);
            (if HomeOf(j) == Internal then multiset(q.avail)[j] > multiset(p.avail)[j]
             else multiset(q.api_avail)[j] > multiset(p.api_avail)[j])
            <==> DrawnFrom(p.types[j]) == HomeOf(j)
  {
  }
}
