/**
 * The master's three mailboxes and the calls that move jobs between them. The
 * mailboxes are rings; what their contents do is the pool on values.
 */
module MasterJobs {
  import opened IsduCodec
  import opened Mailbox
  import opened JobPool

  lemma RangeNext(first: nat, n: nat)
    requires first + n < ALL_JOBS
    ensures Range(first, n + 1) == Range(first, n) + [first + n]
  {
  }

  method FillPool(box: Mbox<Job>, first: nat)
    requires box.Valid() && box.Contents() == [] && first + box.msg.Length <= ALL_JOBS
    modifies box, box.msg
    ensures box.Valid() && box.Contents() == Range(first, box.msg.Length)
  {
    var i := 0;
    while i < box.msg.Length
      invariant 0 <= i <= box.msg.Length && box.Valid()
      invariant box.Contents() == Range(first, i)
    {
      RangeNext(first, i);
      assert |box.Contents()| == i;
      var failed := box.Post(first + i, false);
      i := i + 1;
    }
  }

  lemma SamePlaces(p: Pool, q: Pool)
    requires p.mbox == q.mbox == [] && p.avail == q.avail && p.api_avail == q.api_avail
    requires p.hands == q.hands && p.main == q.main == None && Conserved(q)
    ensures Conserved(p)
  {
    forall j: Job ensures Places(p, j) == 1 { assert Places(q, j) == 1; }
  }

  lemma RoomToReturn(p: Pool)
    requires Conserved(p) && CanMove(p, GiveBack)
    ensures Conserved(Step(p, GiveBack))
    ensures if ReturnedTo(p.types[p.main.value]) == Some(Api) then |p.api_avail| < JOB_API_CNT else |p.avail| < JOB_CNT
  {
    NeverFull(p);
    GiveBackConserves(p);
    ReturnedWhereDrawn(p.main.value, p.types[p.main.value]);
  }

  class Master {
    const mbox: Mbox<Job>
    const mbox_avail: Mbox<Job>
    const mbox_api_avail: Mbox<Job>
    const job_type: array<JobType>

    // Who holds a job: the threads, or the main loop between fetch and return.
    ghost var hands: multiset<Job>
    ghost var main: Option<Job>

    ghost predicate Valid()
      reads this, mbox, mbox_avail, mbox_api_avail, mbox.msg, mbox_avail.msg, mbox_api_avail.msg, job_type
    {
      && mbox != mbox_avail && mbox != mbox_api_avail && mbox_avail != mbox_api_avail
      && mbox.msg != mbox_avail.msg && mbox.msg != mbox_api_avail.msg && mbox_avail.msg != mbox_api_avail.msg
      && mbox.Valid() && mbox_avail.Valid() && mbox_api_avail.Valid()
      && mbox.msg.Length == ALL_JOBS && mbox_avail.msg.Length == JOB_CNT && mbox_api_avail.msg.Length == JOB_API_CNT
      && job_type.Length == ALL_JOBS
    }

    ghost function Types(): map<Job, JobType>
      reads job_type
      requires job_type.Length == ALL_JOBS
    {
      map j: Job | 0 <= j < ALL_JOBS :: job_type[j]
    }

    ghost function View(): Pool
      requires Valid()
      reads this, mbox, mbox_avail, mbox_api_avail, mbox.msg, mbox_avail.msg, mbox_api_avail.msg, job_type
    {
      Pool(mbox.Contents(), mbox_avail.Contents(), mbox_api_avail.Contents(), hands, main, Types())
    }

    /** iolink_m_init: every job is posted to its pool. */
    constructor ()
      ensures Valid() && Conserved(View()) && View().(types := map[]) == Initial()
    {
      mbox := new Mbox<Job>(ALL_JOBS, 0);
      var internal := new Mbox<Job>(JOB_CNT, 0);
      FillPool(internal, 0);
      mbox_avail := internal;
      var api := new Mbox<Job>(JOB_API_CNT, 0);
      FillPool(api, JOB_CNT);
      mbox_api_avail := api;
      job_type := new JobType[ALL_JOBS](_ => JobNone);
      hands, main := multiset{}, None;
      new;
      InitiallyConserved();
      SamePlaces(View(), Initial());
    }

    /** iolink_fetch_avail_job. */
    method FetchAvailJob() returns (j: Job)
      requires Valid() && CanMove(View(), Move.FetchAvail)
      modifies this`hands, mbox_avail
      ensures Valid() && View() == Step(old(View()), Move.FetchAvail)
      ensures j in hands
    {
      var failed, got := mbox_avail.Fetch(false);
      j := got.value;
      hands := hands + multiset{j};
    }

    /** iolink_fetch_avail_api_job. */
    method FetchAvailApiJob() returns (j: Job)
      requires Valid() && CanMove(View(), FetchApiAvail)
      modifies this`hands, mbox_api_avail
      ensures Valid() && View() == Step(old(View()), FetchApiAvail)
      ensures j in hands
    {
      var failed, got := mbox_api_avail.Fetch(false);
      j := got.value;
      hands := hands + multiset{j};
    }

    method SetType(j: Job, t: JobType)
      requires Valid()
      modifies job_type
      ensures Valid() && View() == old(View()).(types := old(View()).types[j := t])
    {
      ghost var before := Types();
      job_type[j] := t;
      assert Types() == before[j := t];
    }

    /** iolink_post_job_with_type_and_callback: its assertion always holds. */
    method PostJobWithType(j: Job, t: JobType)
      requires Valid() && Conserved(View()) && CanMove(View(), Submit(j, t))
      modifies this`hands, mbox, mbox.msg, job_type
      ensures Valid() && View() == Step(old(View()), Submit(j, t)) && Conserved(View())
      ensures View().mbox == old(View()).mbox + [j]
    {
      NeverFull(View());
      SubmitConserves(View(), j, t);
      SetType(j, t);
      hands := hands - multiset{j};
      var failed := mbox.Post(j, false);
    }

    /** The main loop fetches its next job. */
    method FetchWork() returns (j: Job)
      requires Valid() && Conserved(View()) && CanMove(View(), TakeWork)
      modifies this`main, mbox
      ensures Valid() && View() == Step(old(View()), TakeWork) && Conserved(View())
      ensures main == Some(j)
    {
      FetchConserves(View(), TakeWork);
      var failed, got := mbox.Fetch(false);
      j := got.value;
      main := Some(j);
    }

    /** The main loop is done with its job: the switch over its type. */
    method GiveJobBack(j: Job)
      requires Valid() && Conserved(View()) && main == Some(j)
      modifies this`main, mbox_avail, mbox_avail.msg, mbox_api_avail, mbox_api_avail.msg, job_type
      ensures Valid() && View() == Step(old(View()), GiveBack) && Conserved(View())
    {
      RoomToReturn(View());
      var t := job_type[j];
      assert View().types[j] == t;
      SetType(j, JobNone);
      main := None;
      if ReturnedTo(t) == Some(Api) {
        var failed := mbox_api_avail.Post(j, false);
      } else {
        var failed := mbox_avail.Post(j, false);
      }
    }

    /** One pass of the main loop: the oldest job is handled and returned. */
    method MainLoopPass()
      requires Valid() && Conserved(View()) && CanMove(View(), TakeWork)
      modifies this`main, mbox, mbox_avail, mbox_avail.msg, mbox_api_avail, mbox_api_avail.msg, job_type
      ensures Valid() && Conserved(View())
      ensures View() == Step(Step(old(View()), TakeWork), GiveBack)
    {
      var j := FetchWork();
      GiveJobBack(j);
    }
  }
}
