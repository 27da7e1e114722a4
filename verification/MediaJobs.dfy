/** Image jobs owned by the service: identity, capacity and final statuses, over every order in which
    calls, task steps and shutdown can happen. */
module MediaJobs {
  import opened Basics

  /** What a job was asked for. Two requests have the same fingerprint only if they are the same. */
  datatype Request = Request(batch: bool, workflow: string, values: seq<map<string, int>>, references: seq<seq<string>>)

  datatype Status = Preparing | Queued | Generating | Saving | Succeeded | Partial | Failed

  /** The job's task: created, running, over. ran tells whether it ever got to run. */
  datatype Phase = Created | Running | Ended

  datatype Job = Job(
    request: Request,
    items: seq<Status>,
    status: Status,
    phase: Phase,
    cancelled: bool,
    ran: bool)

  predicate Final(s: Status) {
    s.Succeeded? || s.Failed?
  }

  predicate AllFinal(items: seq<Status>) {
    forall i :: 0 <= i < |items| ==> Final(items[i])
  }

  predicate All(items: seq<Status>, s: Status) {
    forall i :: 0 <= i < |items| ==> items[i] == s
  }

  function Succeeding(items: seq<Status>): (n: nat)
    ensures n <= |items|
    ensures n == |items| <==> All(items, Succeeded)
    ensures n == 0 <==> forall i :: 0 <= i < |items| ==> items[i] != Succeeded
  {
    if items == [] then 0
    else Succeeding(items[..|items| - 1]) + if items[|items| - 1].Succeeded? then 1 else 0
  }

  /** The images of a job that are over: a single job is its own image. */
  predicate Finished(j: Job) {
    if j.request.batch then AllFinal(j.items) else Final(j.status)
  }

  /** What the statuses of a job mean. */
  predicate JobOk(j: Job) {
    && |j.items| >= 1 && (!j.request.batch ==> |j.items| == 1 && !j.status.Partial?)
    && (j.phase.Created? ==> !j.ran && (j.cancelled ==> j.status.Failed?))
    && (j.phase.Running? ==> j.ran)
    && (!j.ran ==> All(j.items, Preparing))
    && (j.phase.Ended? ==> j.status in {Succeeded, Partial, Failed})
    && (j.phase.Ended? && !j.ran ==> j.cancelled && j.status.Failed?)
    && (j.phase.Ended? && j.ran ==> Finished(j))
    && (j.phase.Ended? && j.request.batch && j.status.Succeeded? ==> All(j.items, Succeeded))
    && (j.phase.Ended? && j.status.Partial? ==> 0 < Succeeding(j.items) < |j.items|)
  }

  /** Every image of a job that is over succeeded or failed, except in a batch that shutdown cancelled
      before its task ever ran: its images stay as they were created. */
  lemma EndedExactly(j: Job)
    requires JobOk(j) && j.phase.Ended?
    ensures Finished(j) <==> !j.request.batch || j.ran
  {
    if j.request.batch && !j.ran {
      assert j.items[0] == Preparing;
    }
  }

  function Stopped(j: Job): Job {
    if j.phase.Ended? then j else j.(status := Failed, cancelled := true)
  }

  lemma StoppedOk(j: Job)
    requires JobOk(j)
    ensures JobOk(Stopped(j)) && Stopped(j).request == j.request && Size(Stopped(j)) == Size(j)
  {
  }

  function Fresh(request: Request, count: nat): Job {
    Job(request, seq(count, i => Preparing), Preparing, Created, false, false)
  }

  function Size(j: Job): nat {
    if j.phase.Ended? then 0 else |j.items|
  }

  /** The images of all jobs whose task is not done, in the order of the job table. */
  function Active(ids: seq<string>, jobs: map<string, Job>): nat {
    if ids == [] then 0
    else Active(ids[..|ids| - 1], jobs)
         + if ids[|ids| - 1] in jobs then Size(jobs[ids[|ids| - 1]]) else 0
  }

  /** The images whose jobs are not over, one by one. */
  function Waiting(jobs: map<string, Job>): set<(string, int)> {
    set id, i | id in jobs && !jobs[id].phase.Ended? && 0 <= i < |jobs[id].items| :: (id, i)
  }

  function WaitingOf(ids: seq<string>, jobs: map<string, Job>, n: nat): set<(string, int)>
    requires n <= |ids|
  {
    set id, i | id in jobs && id in ids[..n] && !jobs[id].phase.Ended? && 0 <= i < |jobs[id].items| :: (id, i)
  }

  lemma {:induction false} CountsWaiting(ids: seq<string>, jobs: map<string, Job>, n: nat)
    requires n <= |ids| && Distinct(ids) && forall i :: 0 <= i < |ids| ==> ids[i] in jobs
    ensures |WaitingOf(ids, jobs, n)| == Active(ids[..n], jobs)
  {
    if n > 0 {
      CountsWaiting(ids, jobs, n - 1);
      assert ids[..n][..n - 1] == ids[..n - 1];
      OneMoreWaits(ids, jobs, n);
    }
  }

  lemma OneMoreWaits(ids: seq<string>, jobs: map<string, Job>, n: nat)
    requires 0 < n <= |ids| && Distinct(ids) && ids[n - 1] in jobs
    ensures |WaitingOf(ids, jobs, n)| == |WaitingOf(ids, jobs, n - 1)| + Size(jobs[ids[n - 1]])
  {
    var id := ids[n - 1];
    assert ids[..n] == ids[..n - 1] + [id];
    assert id !in ids[..n - 1];
    if jobs[id].phase.Ended? {
      assert WaitingOf(ids, jobs, n) == WaitingOf(ids, jobs, n - 1);
    } else {
      var more := set i | 0 <= i < |jobs[id].items| :: (id, i);
      Indices(id, |jobs[id].items|);
      assert WaitingOf(ids, jobs, n) == WaitingOf(ids, jobs, n - 1) + more;
      assert WaitingOf(ids, jobs, n - 1) !! more;
    }
  }

  lemma {:induction false} Indices(id: string, n: nat)
    ensures |set i | 0 <= i < n :: (id, i)| == n
  {
    if n > 0 {
      Indices(id, n - 1);
      assert (set i | 0 <= i < n :: (id, i)) == (set i | 0 <= i < n - 1 :: (id, i)) + {(id, n - 1)};
    }
  }

  predicate Distinct(ids: seq<string>) {
    forall i, j :: 0 <= i < j < |ids| ==> ids[i] != ids[j]
  }

  lemma {:induction false} ActiveOther(ids: seq<string>, jobs: map<string, Job>, id: string, j: Job)
    requires id !in ids
    ensures Active(ids, jobs[id := j]) == Active(ids, jobs)
  {
    if ids != [] {
      assert ids[|ids| - 1] in ids;
      ActiveOther(ids[..|ids| - 1], jobs, id, j);
    }
  }

  /** A job that does not grow does not add to the load. */
  lemma {:induction false} ActiveShrinks(ids: seq<string>, jobs: map<string, Job>, id: string, j: Job)
    requires id in jobs && Size(j) <= Size(jobs[id])
    ensures Active(ids, jobs[id := j]) <= Active(ids, jobs)
  {
    if ids != [] {
      ActiveShrinks(ids[..|ids| - 1], jobs, id, j);
    }
  }

  lemma AddOne(ids: seq<string>, jobs: map<string, Job>, id: string, j: Job)
    requires Distinct(ids) && id !in jobs
    requires forall i :: 0 <= i < |ids| ==> ids[i] in jobs
    ensures Distinct(ids + [id])
    ensures Active(ids + [id], jobs[id := j]) == Active(ids, jobs) + Size(j)
  {
    assert id !in ids;
    ActiveOther(ids, jobs, id, j);
    assert (ids + [id])[..|ids|] == ids;
  }

  /** Shutdown has reached the first n jobs of the table. */
  ghost predicate StoppedUpTo(ids: seq<string>, n: nat, before: map<string, Job>, after: map<string, Job>)
    requires n <= |ids|
  {
    && after.Keys == before.Keys
    && forall k :: k in before ==> after[k] == if k in ids[..n] then Stopped(before[k]) else before[k]
  }

  lemma StopNext(ids: seq<string>, n: nat, before: map<string, Job>, after: map<string, Job>)
    requires n < |ids| && Distinct(ids) && ids[n] in before
    requires StoppedUpTo(ids, n, before, after)
    ensures StoppedUpTo(ids, n + 1, before, after[ids[n] := Stopped(after[ids[n]])])
  {
    assert ids[..n + 1] == ids[..n] + [ids[n]];
  }

  // What one step of a job's task makes of the job.

  function Begun(j: Job): Job {
    if j.phase.Created? && !j.cancelled
    then j.(phase := Running, ran := true, status := if j.request.batch then j.status else Queued)
    else j
  }

  function QueuedAs(generating: bool): Job -> Job {
    (j: Job) => if j.phase.Running? && j.request.batch
                then j.(status := if generating then Generating else Queued) else j
  }

  function ItemAs(item: nat, status: Status): Job -> Job {
    (j: Job) => if j.phase.Running? && j.request.batch && item < |j.items| && !Final(j.items[item])
                then j.(items := j.items[item := status]) else j
  }

  function SingleAs(status: Status): Job -> Job {
    (j: Job) => if j.phase.Running? && !j.request.batch
                then j.(status := status, phase := if Final(status) then Ended else Running) else j
  }

  /** All succeeded, some did, or none. */
  function Verdict(items: seq<Status>): Status {
    if All(items, Succeeded) then Succeeded
    else if exists i :: 0 <= i < |items| && items[i].Succeeded? then Partial
    else Failed
  }

  function Done(j: Job): Job {
    if j.phase.Running? && j.request.batch && AllFinal(j.items)
    then j.(phase := Ended, status := Verdict(j.items)) else j
  }

  function FailItems(items: seq<Status>): seq<Status> {
    seq(|items|, i requires 0 <= i < |items| => if Final(items[i]) then items[i] else Failed)
  }

  /** A task that never ran ends without running anything. */
  function Aborted(j: Job): Job {
    if j.phase.Created? && j.cancelled then j.(phase := Ended)
    else if j.phase.Running? then
      j.(phase := Ended, status := Failed, items := if j.request.batch then FailItems(j.items) else j.items)
    else j
  }

  function Changed(jobs: map<string, Job>, id: string, step: Job -> Job): map<string, Job> {
    if id in jobs then jobs[id := step(jobs[id])] else jobs
  }

  /** What is over stays as it is: a job, and an image of a batch. */
  predicate Keeps(j: Job, k: Job) {
    && k.request == j.request && |k.items| == |j.items|
    && (j.phase.Ended? ==> k == j)
    && forall i :: 0 <= i < |j.items| && Final(j.items[i]) ==> k.items[i] == j.items[i]
  }

  /** Every job is still there, for the request it was made for, and what is over stays. */
  predicate Bound(before: map<string, Job>, after: map<string, Job>) {
    forall k :: k in before ==> k in after && Keeps(before[k], after[k])
  }

  lemma BoundTransitive(a: map<string, Job>, b: map<string, Job>, c: map<string, Job>)
    requires Bound(a, b) && Bound(b, c)
    ensures Bound(a, c)
  {
  }

  /** A job reported as failed although one of its images succeeded. */
  predicate Mixed(j: Job) {
    j.request.batch && j.phase.Ended? && j.status.Failed? && exists i :: 0 <= i < |j.items| && j.items[i].Succeeded?
  }

  /** The verdict on a batch whose images are all over. */
  lemma VerdictMeans(items: seq<Status>)
    requires |items| >= 1 && AllFinal(items)
    ensures Verdict(items).Succeeded? <==> forall i :: 0 <= i < |items| ==> items[i].Succeeded?
    ensures Verdict(items).Failed? <==> forall i :: 0 <= i < |items| ==> items[i].Failed?
    ensures Verdict(items) in {Succeeded, Partial, Failed}
  {
    assert Final(items[0]);
    if exists i :: 0 <= i < |items| && items[i].Succeeded? {
      var i :| 0 <= i < |items| && items[i].Succeeded?;
      assert !items[i].Failed?;
    } else {
      assert forall i :: 0 <= i < |items| ==> Final(items[i]) && !items[i].Succeeded?;
    }
  }

  datatype Answer = Attached | Started | Shutdown | Conflict | QueueFull

  /** What may happen between two awaits. */
  datatype Event =
    | Generate(id: string, request: Request, count: nat)
    | Begin(id: string)
    | BatchQueued(id: string, generating: bool)
    | ItemMoves(id: string, item: nat, status: Status)
    | JobMoves(id: string, status: Status)
    | BatchDone(id: string)
    | TaskFails(id: string)
    | Close

  // ---------------------------------------------------------------- what has happened

  predicate ClosedBefore(log: seq<Event>, n: nat)
    requires n <= |log|
  {
    exists k :: 0 <= k < n && log[k].Close?
  }

  /** The job's task took its first step, after the call at index at created it and before shutdown. */
  predicate Stepped(log: seq<Event>, at: nat, id: string) {
    exists n :: at < n < |log| && log[n] == Begin(id) && !ClosedBefore(log, n)
  }

  /** The job table against the events: created are the indices of the calls that made the jobs. */
  ghost predicate Traced(log: seq<Event>, created: map<string, nat>, jobs: map<string, Job>, closing: bool) {
    && (closing <==> ClosedBefore(log, |log|))
    && created.Keys == jobs.Keys
    && forall id :: id in jobs ==> JobTraced(log, created[id], id, jobs[id], closing)
  }

  /** The event came after the call that made the job. */
  predicate Happened(log: seq<Event>, at: nat, what: Event) {
    exists n :: at < n < |log| && log[n] == what
  }

  /** Every final status has its event: an image succeeded because its task said so, and failed because its
      task said so or the job's own task ended early. */
  predicate Founded(log: seq<Event>, at: nat, id: string, j: Job) {
    && (Mixed(j) ==> Happened(log, at, TaskFails(id)))
    && (j.request.batch ==> forall i :: 0 <= i < |j.items| ==> ItemFounded(log, at, id, i, j.items[i]))
    && (!j.request.batch && j.phase.Ended? ==>
          && (j.status.Succeeded? ==> Happened(log, at, JobMoves(id, Succeeded)))
          && (j.status.Failed? ==> Happened(log, at, JobMoves(id, Failed)) || Happened(log, at, TaskFails(id))))
  }

  predicate ItemFounded(log: seq<Event>, at: nat, id: string, i: nat, status: Status) {
    && (status.Succeeded? ==> Happened(log, at, ItemMoves(id, i, Succeeded)))
    && (status.Failed? ==> Happened(log, at, ItemMoves(id, i, Failed)) || Happened(log, at, TaskFails(id)))
  }

  /** The same of one step. */
  predicate Earned(j: Job, k: Job, id: string, event: Event)
    requires |k.items| == |j.items|
  {
    && (Mixed(k) ==> Mixed(j) || event == TaskFails(id))
    && (k.request.batch ==> forall i :: 0 <= i < |k.items| ==> ItemEarned(j.items[i], k.items[i], id, i, event))
    && (!k.request.batch && k.phase.Ended? && k != j ==>
          && (k.status.Succeeded? ==> event == JobMoves(id, Succeeded))
          && (k.status.Failed? ==> event == JobMoves(id, Failed) || event == TaskFails(id)))
  }

  predicate ItemEarned(before: Status, after: Status, id: string, i: nat, event: Event) {
    && (after.Succeeded? ==> before.Succeeded? || event == ItemMoves(id, i, Succeeded))
    && (after.Failed? ==> before.Failed? || event == ItemMoves(id, i, Failed) || event == TaskFails(id))
  }

  predicate JobTraced(log: seq<Event>, at: nat, id: string, j: Job, closing: bool) {
    && at < |log| && log[at].Generate? && log[at].id == id && log[at].request == j.request
    && (j.ran <==> Stepped(log, at, id))
    && (j.cancelled ==> closing)
    && (j.phase.Created? && closing ==> j.cancelled)
    && Founded(log, at, id, j)
  }

  lemma HappenedMore(log: seq<Event>, at: nat, what: Event, event: Event)
    requires at < |log|
    ensures Happened(log + [event], at, what) <==> Happened(log, at, what) || event == what
  {
    var longer := log + [event];
    assert longer[|log|] == event;
    if Happened(log, at, what) {
      var n :| at < n < |log| && log[n] == what;
      assert longer[n] == what;
    }
  }

  lemma FoundedMore(log: seq<Event>, at: nat, id: string, j: Job, k: Job, event: Event)
    requires at < |log| && Founded(log, at, id, j)
    requires Keeps(j, k) && Earned(j, k, id, event)
    ensures Founded(log + [event], at, id, k)
  {
    HappenedMore(log, at, TaskFails(id), event);
    HappenedMore(log, at, JobMoves(id, Succeeded), event);
    HappenedMore(log, at, JobMoves(id, Failed), event);
    if k.request.batch {
      forall i | 0 <= i < |k.items|
        ensures ItemFounded(log + [event], at, id, i, k.items[i])
      {
        assert ItemFounded(log, at, id, i, j.items[i]) && ItemEarned(j.items[i], k.items[i], id, i, event);
        HappenedMore(log, at, ItemMoves(id, i, Succeeded), event);
        HappenedMore(log, at, ItemMoves(id, i, Failed), event);
      }
    }
  }

  lemma StillOpen(log: seq<Event>, event: Event)
    ensures ClosedBefore(log + [event], |log| + 1) <==> ClosedBefore(log, |log|) || event.Close?
    ensures forall n :: 0 <= n <= |log| ==> ClosedBefore(log + [event], n) == ClosedBefore(log, n)
  {
    var longer := log + [event];
    assert longer[|log|] == event;
    forall n | 0 <= n <= |log|
      ensures ClosedBefore(longer, n) == ClosedBefore(log, n)
    {
      assert forall k :: 0 <= k < n ==> longer[k] == log[k];
    }
    if ClosedBefore(log, |log|) {
      var k :| 0 <= k < |log| && log[k].Close?;
      assert longer[k].Close?;
    }
  }

  lemma SteppedMore(log: seq<Event>, at: nat, id: string, event: Event)
    requires at < |log|
    ensures Stepped(log + [event], at, id) <==>
              Stepped(log, at, id) || (event == Begin(id) && !ClosedBefore(log, |log|))
  {
    var longer := log + [event];
    StillOpen(log, event);
    if Stepped(log, at, id) {
      var n :| at < n < |log| && log[n] == Begin(id) && !ClosedBefore(log, n);
      assert longer[n] == Begin(id);
    }
    if event == Begin(id) && !ClosedBefore(log, |log|) {
      assert longer[|log|] == Begin(id);
    }
    if Stepped(longer, at, id) {
      var n :| at < n < |longer| && longer[n] == Begin(id) && !ClosedBefore(longer, n);
      if n < |log| {
        assert log[n] == Begin(id);
      }
    }
  }

  /** What an event may do to a job that exists. */
  predicate Follows(j: Job, k: Job, id: string, event: Event, closing: bool) {
    && Keeps(j, k)
    && Earned(j, k, id, event)
    && (k.ran <==> j.ran || (event == Begin(id) && !closing))
    && k.cancelled == (j.cancelled || (event.Close? && !j.phase.Ended?))
    && (k.phase.Created? ==> j.phase.Created?)
  }

  lemma TracedNext(log: seq<Event>, created: map<string, nat>, before: map<string, Job>, after: map<string, Job>,
                   closing: bool, event: Event)
    requires Traced(log, created, before, closing) && AllFollow(before, after, event, closing)
    ensures Traced(log + [event], created, after, closing || event.Close?)
  {
    StillOpen(log, event);
    forall id | id in after
      ensures JobTraced(log + [event], created[id], id, after[id], closing || event.Close?)
    {
      assert JobTraced(log, created[id], id, before[id], closing);
      SteppedMore(log, created[id], id, event);
      FoundedMore(log, created[id], id, before[id], after[id], event);
    }
  }

  lemma TracedSame(log: seq<Event>, created: map<string, nat>, jobs: map<string, Job>, closing: bool, event: Event)
    requires Traced(log, created, jobs, closing) && event.Generate?
    ensures Traced(log + [event], created, jobs, closing)
  {
    TracedNext(log, created, jobs, jobs, closing, event);
  }

  /** What the events say of every job, and nothing else. */
  predicate JobFits(j: Job, closing: bool) {
    && JobOk(j) && (j.cancelled ==> closing) && (j.phase.Created? && closing ==> j.cancelled)
  }

  predicate TableFits(jobs: map<string, Job>, closing: bool) {
    forall id :: id in jobs ==> JobFits(jobs[id], closing)
  }

  lemma TableOk(log: seq<Event>, created: map<string, nat>, jobs: map<string, Job>, closing: bool)
    requires Traced(log, created, jobs, closing)
    requires forall id :: id in jobs ==> JobOk(jobs[id])
    ensures TableFits(jobs, closing)
  {
    forall id | id in jobs
      ensures JobFits(jobs[id], closing)
    {
      assert JobTraced(log, created[id], id, jobs[id], closing);
    }
  }

  predicate AllFollow(before: map<string, Job>, after: map<string, Job>, event: Event, closing: bool) {
    after.Keys == before.Keys
    && forall id :: id in before ==> Follows(before[id], after[id], id, event, closing)
  }

  lemma Unchanged(jobs: map<string, Job>, event: Event, closing: bool)
    requires !event.Begin? && !event.Close?
    ensures AllFollow(jobs, jobs, event, closing)
  {
  }

  /** A step that an event may take on any job. */
  ghost predicate Suits(step: Job -> Job, id: string, event: Event) {
    forall j :: JobOk(j) ==>
      && Keeps(j, step(j)) && Earned(j, step(j), id, event)
      && step(j).ran == j.ran && step(j).cancelled == j.cancelled
      && (step(j).phase.Created? ==> j.phase.Created?)
  }

  /** One step of a job's own task. */
  lemma ChangedFollows(jobs: map<string, Job>, id: string, step: Job -> Job, event: Event, closing: bool)
    requires TableFits(jobs, closing) && !event.Close?
    requires event.Begin? ==> event.id == id && step == Begun
    requires !event.Begin? ==> Suits(step, id, event)
    ensures AllFollow(jobs, Changed(jobs, id, step), event, closing)
  {
    if id in jobs {
      assert JobFits(jobs[id], closing);
    }
  }

  lemma QueuedSuits(id: string, generating: bool)
    ensures Suits(QueuedAs(generating), id, BatchQueued(id, generating))
  {
  }

  lemma ItemSuits(id: string, item: nat, status: Status)
    ensures Suits(ItemAs(item, status), id, ItemMoves(id, item, status))
  {
  }

  lemma SingleSuits(id: string, status: Status)
    ensures Suits(SingleAs(status), id, JobMoves(id, status))
  {
  }

  lemma DoneSuits(id: string)
    ensures Suits(Done, id, BatchDone(id))
  {
  }

  lemma AbortedSuits(id: string)
    ensures Suits(Aborted, id, TaskFails(id))
  {
    forall j: Job | JobOk(j)
      ensures Keeps(j, Aborted(j)) && Earned(j, Aborted(j), id, TaskFails(id))
    {
      var k := Aborted(j);
      forall i | 0 <= i < |j.items|
        ensures k.items[i] == j.items[i] || (k.items[i].Failed? && !Final(j.items[i]))
      {
      }
    }
  }

  lemma StoppedFollows(before: map<string, Job>, after: map<string, Job>, closing: bool)
    requires after.Keys == before.Keys && forall k :: k in after ==> after[k] == Stopped(before[k])
    ensures AllFollow(before, after, Close, closing)
  {
  }

  lemma TracedNew(log: seq<Event>, created: map<string, nat>, jobs: map<string, Job>, id: string, j: Job,
                  request: Request, count: nat)
    requires Traced(log, created, jobs, false) && id !in jobs
    requires j.request == request && j.phase.Created? && !j.ran && !j.cancelled
    requires forall i :: 0 <= i < |j.items| ==> !Final(j.items[i])
    ensures Traced(log + [Generate(id, request, count)], created[id := |log|], jobs[id := j], false)
  {
    var event := Generate(id, request, count);
    StillOpen(log, event);
    forall k | k in jobs
      ensures JobTraced(log + [event], created[k], k, jobs[k], false)
    {
      assert JobTraced(log, created[k], k, jobs[k], false);
      SteppedMore(log, created[k], k, event);
      FoundedMore(log, created[k], k, jobs[k], jobs[k], event);
    }
    assert (log + [event])[|log|] == event;
  }

  lemma TracedCall(log: seq<Event>, created: map<string, nat>, before: map<string, Job>, after: map<string, Job>,
                   closing: bool, id: string, request: Request, count: nat, started: bool)
    returns (told: map<string, nat>)
    requires Traced(log, created, before, closing)
    requires started ==> !closing && id !in before && after == before[id := Fresh(request, count)]
    requires !started ==> after == before
    ensures Bound(before, after)
    ensures Traced(log + [Generate(id, request, count)], told, after, closing)
  {
    if started {
      told := created[id := |log|];
      TracedNew(log, created, before, id, after[id], request, count);
    } else {
      told := created;
      TracedSame(log, created, before, closing, Generate(id, request, count));
    }
  }

  lemma NextEvent(log: seq<Event>, events: seq<Event>, n: nat)
    requires n < |events|
    ensures (log + events[..n]) + [events[n]] == log + events[..n + 1]
  {
  }

  lemma NoMoreEvents(events: seq<Event>)
    ensures events[..|events|] == events
  {
  }

  class MediaJobs {
    const limit: nat
    var closing: bool
    var ids: seq<string>
    var jobs: map<string, Job>
    ghost var tasks: seq<string>
    ghost var log: seq<Event>
    ghost var created: map<string, nat>

    ghost predicate Told()
      reads this
    {
      Traced(log, created, jobs, closing)
    }

    /** Every job has one task; the images of unfinished jobs fit the queue. */
    ghost predicate Valid()
      reads this
    {
      && Distinct(ids) && tasks == ids
      && (forall i :: 0 <= i < |ids| ==> ids[i] in jobs)
      && (forall id :: id in jobs ==> id in ids && JobOk(jobs[id]))
      && Active(ids, jobs) <= limit
    }

    constructor (limit: nat)
      ensures Valid() && Told() && jobs == map[] && !closing && this.limit == limit
      ensures ids == [] && log == []
    {
      this.limit, closing, ids, jobs, tasks := limit, false, [], map[], [];
      log, created := [], map[];
    }

    /** The part of a call after its last await: everything that decides about the job happens here at
        once. count is the number of images asked for. */
    method Generate(id: string, request: Request, count: nat) returns (answer: Answer)
      requires Valid() && count >= 1 && (!request.batch ==> count == 1)
      modifies this`ids, this`jobs, this`tasks
      ensures Valid()
      ensures answer.Shutdown? <==> closing
      ensures answer.Conflict? <==> !closing && id in old(jobs) && old(jobs)[id].request != request
      ensures answer.Attached? <==> !closing && id in old(jobs) && old(jobs)[id].request == request
      ensures answer.QueueFull? <==>
                !closing && id !in old(jobs) && |Waiting(old(jobs))| + count > limit
      ensures answer.Started? ==>
                id !in old(jobs) && tasks == old(tasks) + [id]
                && jobs == old(jobs)[id := jobs[id]] && jobs[id].request == request
                && jobs[id] == Fresh(request, count)
      ensures !answer.Started? ==> jobs == old(jobs) && ids == old(ids) && tasks == old(tasks)
    {
      ActiveIsWaiting();
      if closing {
        return Shutdown;
      }
      if id in jobs {
        return if jobs[id].request == request then Attached else Conflict;
      }
      if Active(ids, jobs) + count > limit {
        return QueueFull;
      }
      Add(id, Fresh(request, count));
      return Started;
    }

    /** The images whose jobs are not over are what is counted. */
    lemma ActiveIsWaiting()
      requires Valid()
      ensures |Waiting(jobs)| == Active(ids, jobs)
    {
      CountsWaiting(ids, jobs, |ids|);
      assert WaitingOf(ids, jobs, |ids|) == Waiting(jobs);
      assert ids[..|ids|] == ids;
    }

    method Add(id: string, job: Job)
      requires Valid() && id !in jobs && JobOk(job)
      requires Active(ids, jobs) + Size(job) <= limit
      modifies this`ids, this`jobs, this`tasks
      ensures Valid() && jobs == old(jobs)[id := job] && tasks == old(tasks) + [id]
    {
      AddOne(ids, jobs, id, job);
      ids := ids + [id];
      jobs := jobs[id := job];
      tasks := tasks + [id];
    }

    /** A job's own task changes the job; nothing else does. */
    method Update(id: string, job: Job)
      requires Valid() && id in jobs && JobOk(job)
      requires job.request == jobs[id].request && Size(job) <= Size(jobs[id])
      modifies this`jobs
      ensures Valid() && jobs == old(jobs)[id := job]
    {
      ActiveShrinks(ids, jobs, id, job);
      jobs := jobs[id := job];
    }

    /** A job's task runs for the first time. One that was cancelled before that never does. */
    method Begin(id: string)
      requires Valid()
      modifies this`jobs
      ensures Valid() && jobs == Changed(old(jobs), id, Begun)
      ensures id in jobs && old(jobs)[id].phase.Created? ==>
                (jobs[id].phase.Running? <==> !old(jobs)[id].cancelled)
                && jobs[id].items == old(jobs)[id].items
                && (!old(jobs)[id].cancelled && !jobs[id].request.batch ==> jobs[id].status.Queued?)
    {
      if id in jobs && jobs[id].phase.Created? && !jobs[id].cancelled {
        var j := jobs[id];
        Update(id, j.(phase := Running, ran := true, status := if j.request.batch then j.status else Queued));
      }
    }

    /** A batch is queued, or its first image was submitted. */
    method BatchQueued(id: string, generating: bool)
      requires Valid()
      modifies this`jobs
      ensures Valid() && jobs == Changed(old(jobs), id, QueuedAs(generating))
    {
      if id in jobs && jobs[id].phase.Running? && jobs[id].request.batch {
        Update(id, jobs[id].(status := if generating then Generating else Queued));
      }
    }

    /** A batch runs one task an image, which sets the image's status; after a final one it is over. */
    method ItemMoves(id: string, item: nat, status: Status)
      requires Valid() && !status.Partial?
      modifies this`jobs
      ensures Valid() && jobs == Changed(old(jobs), id, ItemAs(item, status))
      ensures id in jobs && old(jobs)[id].phase.Running? && old(jobs)[id].request.batch
              && item < |old(jobs)[id].items| && !Final(old(jobs)[id].items[item]) ==>
                && jobs[id].phase.Running? && |jobs[id].items| == |old(jobs)[id].items|
                && jobs[id].items[item] == status
                && forall i :: 0 <= i < |jobs[id].items| && i != item ==> jobs[id].items[i] == old(jobs)[id].items[i]
    {
      if id in jobs && jobs[id].phase.Running? && jobs[id].request.batch
         && item < |jobs[id].items| && !Final(jobs[id].items[item]) {
        Update(id, jobs[id].(items := jobs[id].items[item := status]));
      }
    }

    /** A single image is the job itself: its last status ends the job. */
    method JobMoves(id: string, status: Status)
      requires Valid() && !status.Partial?
      modifies this`jobs
      ensures Valid() && jobs == Changed(old(jobs), id, SingleAs(status))
      ensures id in jobs && old(jobs)[id].phase.Running? && !old(jobs)[id].request.batch ==>
                jobs[id].status == status && (jobs[id].phase.Ended? <==> status.Succeeded? || status.Failed?)
    {
      if id in jobs && jobs[id].phase.Running? && !jobs[id].request.batch {
        var j := jobs[id].(status := status);
        Update(id, if Final(status) then j.(phase := Ended) else j);
      }
    }

    /** All images of a batch are over, and the broker is not closing. */
    method BatchDone(id: string)
      requires Valid()
      modifies this`jobs
      ensures Valid() && jobs == if closing then old(jobs) else Changed(old(jobs), id, Done)
      ensures !closing && id in jobs && old(jobs)[id].phase.Running? && old(jobs)[id].request.batch
              && AllFinal(old(jobs)[id].items) ==>
                var items := old(jobs)[id].items;
                && jobs[id].phase.Ended? && jobs[id].items == items
                && (jobs[id].status.Succeeded? <==> forall i :: 0 <= i < |items| ==> items[i].Succeeded?)
                && (jobs[id].status.Failed? <==> forall i :: 0 <= i < |items| ==> items[i].Failed?)
                && jobs[id].status in {Succeeded, Partial, Failed}
    {
      if id in jobs && AllFinal(jobs[id].items) {
        VerdictMeans(jobs[id].items);
      }
      if id in jobs && jobs[id].phase.Running? && jobs[id].request.batch
         && AllFinal(jobs[id].items) && !closing {
        var j := jobs[id];
        var succeeded := Succeeding(j.items);
        var status := if succeeded == |j.items| then Succeeded else if succeeded > 0 then Partial else Failed;
        Update(id, j.(phase := Ended, status := status));
      }
    }

    /** Whatever is not over when a batch ends early fails with it. */
    method FailRest(items: seq<Status>) returns (ended: seq<Status>)
      ensures ended == FailItems(items) && AllFinal(ended)
    {
      ended := [];
      while |ended| < |items|
        invariant |ended| <= |items|
        invariant forall i :: 0 <= i < |ended| ==>
                    ended[i] == if Final(items[i]) then items[i] else Failed
      {
        var item := items[|ended|];
        ended := ended + [if Final(item) then item else Failed];
      }
    }

    /** A job's task ends with an exception or a cancellation. If it never ran, nothing in it runs. */
    method TaskFails(id: string)
      requires Valid()
      modifies this`jobs
      ensures Valid() && jobs == Changed(old(jobs), id, Aborted)
      ensures id in jobs && old(jobs)[id].phase.Running? ==>
                && jobs[id].phase.Ended? && jobs[id].status.Failed?
                && (jobs[id].request.batch ==>
                      |jobs[id].items| == |old(jobs)[id].items|
                      && forall i :: 0 <= i < |jobs[id].items| ==>
                           jobs[id].items[i] == if Final(old(jobs)[id].items[i]) then old(jobs)[id].items[i] else Failed)
    {
      if id !in jobs {
        return;
      }
      var j := jobs[id];
      if j.phase.Created? && j.cancelled {
        Update(id, j.(phase := Ended));
      } else if j.phase.Running? && j.request.batch {
        var items := FailRest(j.items);
        Update(id, j.(phase := Ended, status := Failed, items := items));
      } else if j.phase.Running? {
        Update(id, j.(phase := Ended, status := Failed));
      }
    }

    /** Shutdown: no new jobs, every unfinished task is cancelled and its job reported as failed. */
    method Close()
      requires Valid()
      modifies this`jobs, this`closing
      ensures Valid() && closing && jobs.Keys == old(jobs).Keys
      ensures forall k :: k in jobs ==> jobs[k] == Stopped(old(jobs)[k])
      ensures forall k :: k in jobs ==>
                if old(jobs)[k].phase.Ended? then jobs[k] == old(jobs)[k]
                else jobs[k].status.Failed? && jobs[k].cancelled && !jobs[k].phase.Ended?
                     && jobs[k].request == old(jobs)[k].request && jobs[k].items == old(jobs)[k].items
    {
      closing := true;
      ghost var before := jobs;
      var i := 0;
      while i < |ids|
        invariant 0 <= i <= |ids| && Valid() && closing
        invariant StoppedUpTo(ids, i, before, jobs)
      {
        StopNext(ids, i, before, jobs);
        Stop(ids[i]);
        i := i + 1;
      }
    }

    method Stop(id: string)
      requires Valid() && id in jobs
      modifies this`jobs
      ensures Valid() && jobs == old(jobs)[id := Stopped(old(jobs)[id])]
    {
      if !jobs[id].phase.Ended? {
        StoppedOk(jobs[id]);
        Update(id, Stopped(jobs[id]));
      }
    }

    /** One event, on the table and in the log. */
    method Handle(event: Event)
      requires Valid() && Told()
      modifies this
      ensures Valid() && Told() && log == old(log) + [event]
      ensures Bound(old(jobs), jobs) && old(tasks) <= tasks
      ensures old(closing) ==> closing && tasks == old(tasks)
    {
      if event.Generate? && event.count >= 1 && (!event.request.batch ==> event.count == 1) {
        HandleCall(event.id, event.request, event.count);
      } else {
        HandleChange(event);
      }
    }

    method HandleCall(id: string, request: Request, count: nat)
      requires Valid() && Told() && count >= 1 && (!request.batch ==> count == 1)
      modifies this`ids, this`jobs, this`tasks, this`log, this`created
      ensures Valid() && Told() && log == old(log) + [Event.Generate(id, request, count)]
      ensures Bound(old(jobs), jobs) && old(tasks) <= tasks
      ensures closing ==> tasks == old(tasks)
    {
      ghost var before := jobs;
      var started := Call(id, request, count);
      created := TracedCall(log, created, before, jobs, closing, id, request, count, started);
      log := log + [Event.Generate(id, request, count)];
    }

    method Call(id: string, request: Request, count: nat) returns (started: bool)
      requires Valid() && count >= 1 && (!request.batch ==> count == 1)
      modifies this`ids, this`jobs, this`tasks
      ensures Valid()
      ensures started ==> !closing && id !in old(jobs) && jobs == old(jobs)[id := Fresh(request, count)]
      ensures started ==> tasks == old(tasks) + [id]
      ensures !started ==> jobs == old(jobs) && tasks == old(tasks)
    {
      var answer := Generate(id, request, count);
      return answer.Started?;
    }

    method HandleChange(event: Event)
      requires Valid() && Told()
      requires event.Generate? ==> event.count < 1 || (!event.request.batch && event.count != 1)
      modifies this`jobs, this`closing, this`log
      ensures Valid() && Told() && log == old(log) + [event]
      ensures Bound(old(jobs), jobs) && (old(closing) ==> closing)
    {
      ghost var before, shut := jobs, closing;
      Change(event);
      TracedNext(log, created, before, jobs, shut, event);
      log := log + [event];
    }

    // What each event does to the jobs that exist.

    method OnBegin(id: string)
      requires Valid() && Told()
      modifies this`jobs
      ensures Valid() && AllFollow(old(jobs), jobs, Event.Begin(id), closing)
    {
      TableOk(log, created, jobs, closing);
      ChangedFollows(jobs, id, Begun, Event.Begin(id), closing);
      Begin(id);
    }

    method OnQueued(id: string, generating: bool)
      requires Valid() && Told()
      modifies this`jobs
      ensures Valid() && AllFollow(old(jobs), jobs, Event.BatchQueued(id, generating), closing)
    {
      TableOk(log, created, jobs, closing);
      QueuedSuits(id, generating);
      ChangedFollows(jobs, id, QueuedAs(generating), Event.BatchQueued(id, generating), closing);
      BatchQueued(id, generating);
    }

    method OnItem(id: string, item: nat, status: Status)
      requires Valid() && Told()
      modifies this`jobs
      ensures Valid() && AllFollow(old(jobs), jobs, Event.ItemMoves(id, item, status), closing)
    {
      TableOk(log, created, jobs, closing);
      Unchanged(jobs, Event.ItemMoves(id, item, status), closing);
      if !status.Partial? {
        ItemSuits(id, item, status);
        ChangedFollows(jobs, id, ItemAs(item, status), Event.ItemMoves(id, item, status), closing);
        ItemMoves(id, item, status);
      }
    }

    method OnJob(id: string, status: Status)
      requires Valid() && Told()
      modifies this`jobs
      ensures Valid() && AllFollow(old(jobs), jobs, Event.JobMoves(id, status), closing)
    {
      TableOk(log, created, jobs, closing);
      Unchanged(jobs, Event.JobMoves(id, status), closing);
      if !status.Partial? {
        SingleSuits(id, status);
        ChangedFollows(jobs, id, SingleAs(status), Event.JobMoves(id, status), closing);
        JobMoves(id, status);
      }
    }

    method OnDone(id: string)
      requires Valid() && Told()
      modifies this`jobs
      ensures Valid() && AllFollow(old(jobs), jobs, Event.BatchDone(id), closing)
    {
      TableOk(log, created, jobs, closing);
      Unchanged(jobs, Event.BatchDone(id), closing);
      DoneSuits(id);
      ChangedFollows(jobs, id, Done, Event.BatchDone(id), closing);
      BatchDone(id);
    }

    method OnFailure(id: string)
      requires Valid() && Told()
      modifies this`jobs
      ensures Valid() && AllFollow(old(jobs), jobs, Event.TaskFails(id), closing)
    {
      TableOk(log, created, jobs, closing);
      AbortedSuits(id);
      ChangedFollows(jobs, id, Aborted, Event.TaskFails(id), closing);
      TaskFails(id);
    }

    /** Every event but a call: no job comes or goes. */
    method Change(event: Event)
      requires Valid() && Told()
      requires event.Generate? ==> event.count < 1 || (!event.request.batch && event.count != 1)
      modifies this`jobs, this`closing
      ensures Valid() && closing == (old(closing) || event.Close?)
      ensures AllFollow(old(jobs), jobs, event, old(closing))
    {
      ghost var before, shut := jobs, closing;
      match event {
        case Generate(_, _, _) => Unchanged(before, event, shut);
        case Begin(id) => OnBegin(id);
        case BatchQueued(id, generating) => OnQueued(id, generating);
        case ItemMoves(id, item, status) => OnItem(id, item, status);
        case JobMoves(id, status) => OnJob(id, status);
        case BatchDone(id) => OnDone(id);
        case TaskFails(id) => OnFailure(id);
        case Close =>
          Close();
          StoppedFollows(before, jobs, shut);
      }
    }

    /** Any events in any order: a job never goes away and stays with its request, its task is the only
        one ever started for it, and the images of unfinished jobs fit the queue. */
    method Run(events: seq<Event>)
      requires Valid() && Told()
      modifies this
      ensures Valid() && Told() && log == old(log) + events
      ensures Bound(old(jobs), jobs)
      ensures old(tasks) <= tasks && Distinct(tasks)
      ensures old(closing) ==> closing && tasks == old(tasks)
    {
      var n := 0;
      while n < |events|
        invariant 0 <= n <= |events| && Valid() && Told()
        invariant log == old(log) + events[..n]
        invariant Bound(old(jobs), jobs) && old(tasks) <= tasks
        invariant old(closing) ==> closing && tasks == old(tasks)
      {
        ghost var before := jobs;
        NextEvent(old(log), events, n);
        Handle(events[n]);
        BoundTransitive(old(jobs), before, jobs);
        n := n + 1;
      }
      NoMoreEvents(events);
    }

    /** Every image of a finished job succeeded or failed, if and only if the job is a single image or
        its task took a first step before shutdown began. */
    lemma FinishedExactly(id: string)
      requires Valid() && Told() && id in jobs && jobs[id].phase.Ended?
      ensures Finished(jobs[id]) <==> !jobs[id].request.batch || Stepped(log, created[id], id)
    {
      assert JobTraced(log, created[id], id, jobs[id], closing);
      EndedExactly(jobs[id]);
    }

    /** What the status of a batch that is over says of its images: all succeeded, some did, or none; only
        a batch whose task ended early is reported as failed although an image succeeded. */
    lemma StatusTells(id: string)
      requires Valid() && Told() && id in jobs && jobs[id].phase.Ended? && jobs[id].request.batch
      ensures var items := jobs[id].items;
              match jobs[id].status
              case Succeeded => forall i :: 0 <= i < |items| ==> items[i].Succeeded?
              case Partial =>
                (exists i :: 0 <= i < |items| && items[i].Succeeded?)
                && exists i :: 0 <= i < |items| && !items[i].Succeeded?
              case Failed =>
                (forall i :: 0 <= i < |items| ==> !items[i].Succeeded?) || Happened(log, created[id], Event.TaskFails(id))
              case _ => false
    {
      assert JobTraced(log, created[id], id, jobs[id], closing);
      assert JobOk(jobs[id]);
    }

    /** Every status that an image ends with was reported: success by the image's own task, failure by it or
        by the early end of the job's task. */
    lemma ImagesTell(id: string, i: nat)
      requires Valid() && Told() && id in jobs && i < |jobs[id].items|
      ensures var j, at := jobs[id], created[id];
              && log[at] == Event.Generate(id, j.request, log[at].count)
              && (j.request.batch && j.items[i].Succeeded? ==> Happened(log, at, Event.ItemMoves(id, i, Succeeded)))
              && (j.request.batch && j.items[i].Failed? ==>
                    Happened(log, at, Event.ItemMoves(id, i, Failed)) || Happened(log, at, Event.TaskFails(id)))
              && (!j.request.batch && j.phase.Ended? && j.status.Succeeded? ==>
                    Happened(log, at, Event.JobMoves(id, Succeeded)))
              && (!j.request.batch && j.phase.Ended? && j.status.Failed? ==>
                    Happened(log, at, Event.JobMoves(id, Failed)) || Happened(log, at, Event.TaskFails(id)))
    {
      assert JobTraced(log, created[id], id, jobs[id], closing);
      if jobs[id].request.batch {
        assert ItemFounded(log, created[id], id, i, jobs[id].items[i]);
      }
    }
  }

  /** A batch of one image, cancelled by shutdown before its first step: it is over and failed, and its
      image is still being prepared. */
  method UnfinishedBatch() returns (m: MediaJobs)
    ensures fresh(m) && m.Valid() && "job" in m.jobs
    ensures var j := m.jobs["job"];
            j.request.batch && j.phase.Ended? && j.status.Failed? && j.items == [Preparing] && !Finished(j)
  {
    m := new MediaJobs(1);
    var answer := m.Generate("job", Request(true, "w", [map[]], [[]]), 1);
    assert answer.Started?;
    ghost var j := m.jobs["job"];
    assert j.items == [Preparing];
    m.Close();
    assert m.jobs["job"] == Stopped(j);
    m.TaskFails("job");
    assert m.jobs["job"] == Aborted(Stopped(j));
    assert m.jobs["job"].items[0] == Preparing;
  }
}
