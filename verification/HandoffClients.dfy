/** Every client section keeps the invariant. */
module HandoffClients {
  import opened Basics
  import opened Handoff
  import opened HandoffInvariant
  import opened HandoffBooks

  // ---------------------------------------------------------------- withdrawing a work

  /** Replace the record of r and take r off the queue if it is still there. */
  function Withdrawn(s: State, r: nat, w: Work): State
    requires r < |s.works| && Allocated(s)
  {
    RemoveQueued(Put(s, r, w), r)
    .(activeChats := s.activeChats - GrantUnit(s.works[r]) + GrantUnit(w))
  }

  function Remaining(queue: seq<nat>, r: nat): seq<nat> {
    if queue == [] then []
    else if queue[0] == r then queue[1..]
    else [queue[0]] + Remaining(queue[1..], r)
  }

  lemma {:induction false} RemainingAt(queue: seq<nat>, r: nat, i: nat)
    requires if r in queue then i < |queue| && queue[i] == r && r !in queue[..i] else i == |queue|
    ensures Remaining(queue, r) == if i == |queue| then queue else queue[..i] + queue[i + 1..]
  {
    if queue != [] && queue[0] != r {
      assert r in queue ==> r in queue[1..];
      assert queue[1..][..i - 1] == queue[..i][1..];
      RemainingAt(queue[1..], r, i - 1);
      assert i == |queue| || queue[1..][..i - 1] + queue[1..][i..] == queue[1..i] + queue[i + 1..];
    }
  }

  lemma RemovedQueue(s: State, r: nat)
    requires r < |s.works| && Allocated(s) && Ordered(s.queue)
    requires forall k :: 0 <= k < |s.works| ==> s.works[k].sequence == k + 1
    ensures RemoveQueued(s, r).queue == Remaining(s.queue, r)
    ensures RemoveQueued(s, r).works == s.works
    ensures RemoveQueued(s, r) ==
            if r in s.queue
            then ReleaseAccounting(s.(queue := Remaining(s.queue, r)), s.works[r])
            else s
    ensures (Remaining(s.queue, r) == s.queue) <==> r !in s.queue
  {
    RemovalIsExact(s.queue, s.works, r);
    IndexRemains(s.queue, r, IndexOf(s.queue, s.works, s.works[r]));
  }

  lemma IndexRemains(queue: seq<nat>, r: nat, i: nat)
    requires Ordered(queue)
    requires if r in queue then i < |queue| && queue[i] == r else i == |queue|
    ensures Remaining(queue, r) == if i == |queue| then queue else queue[..i] + queue[i + 1..]
    ensures (Remaining(queue, r) == queue) <==> r !in queue
  {
    if r in queue {
      assert r !in queue[..i];
    }
    RemainingAt(queue, r, i);
    if r in queue {
      assert |queue[..i] + queue[i + 1..]| == |queue| - 1;
    }
  }

  lemma RemainingMembers(queue: seq<nat>, r: nat)
    requires Ordered(queue)
    ensures Ordered(Remaining(queue, r))
    ensures forall q :: q in Remaining(queue, r) <==> q in queue && q != r
  {
    if r in queue {
      var i :| 0 <= i < |queue| && queue[i] == r;
      RemainingAt(queue, r, i);
      Without(queue, i);
    } else {
      RemainingAt(queue, r, |queue|);
    }
  }

  lemma RemainingQueueOk(works: seq<Work>, queue: seq<nat>, dispatched: seq<nat>,
                         current: Option<nat>, abandoned: set<nat>, r: nat, w: Work)
    requires r < |works| && QueueOk(works, queue, dispatched, current, abandoned)
    ensures QueueOk(works[r := w], Remaining(queue, r), dispatched, current, abandoned)
  {
    RemainingMembers(queue, r);
    var rest := Remaining(queue, r);
    forall i | 0 <= i < |rest|
      ensures rest[i] < |works| && forall j :: 0 <= j < |dispatched| ==> dispatched[j] < rest[i]
    {
      assert rest[i] in rest;
      assert rest[i] in queue;
    }
  }

  lemma RemainingLedgerOk(works: seq<Work>, queue: seq<nat>, current: Option<nat>,
                          abandoned: set<nat>, r: nat, w: Work)
    requires r < |works| && Ordered(queue) && LedgerOk(works, queue, current, abandoned)
    requires WorkOk(w, r, false, current == Some(r), r in abandoned)
    ensures LedgerOk(works[r := w], Remaining(queue, r), current, abandoned)
  {
    RemainingMembers(queue, r);
    forall k | 0 <= k < |works|
      ensures WorkOk(works[r := w][k], k, k in Remaining(queue, r), current == Some(k),
                     k in abandoned)
    {
      assert WorkOk(works[k], k, k in queue, current == Some(k), k in abandoned);
    }
  }

  lemma Sequenced(s: State, current: Option<nat>)
    requires BooksFor(s, current)
    ensures forall k :: 0 <= k < |s.works| ==> s.works[k].sequence == k + 1
  {
    forall k | 0 <= k < |s.works|
      ensures s.works[k].sequence == k + 1
    {
      assert WorkOk(s.works[k], k, k in s.queue, current == Some(k), k in s.seen.abandoned);
    }
  }

  lemma WithdrawBooks(s: State, r: nat, w: Work, current: Option<nat>)
    requires r < |s.works| && BooksFor(s, current) && Kin(s.works[r], w)
    requires Size(s.works[r]) == Size(w)
    requires w.job.Chat? ==> !w.job.granted
    requires WorkOk(w, r, false, current == Some(r), r in s.seen.abandoned)
    ensures BooksFor(Withdrawn(s, r, w), current)
    ensures Withdrawn(s, r, w).queue == Remaining(s.queue, r)
    ensures Withdrawn(s, r, w).works == s.works[r := w]
  {
    Sequenced(s, current);
    RemovedQueue(Put(s, r, w), r);
    PutAccounts(s, r, w);
    RemoveAccounts(Put(s, r, w), r);
    PutLeases(s.works, s.activeChats, s.restorePoint, s.cfg, r, w);
    PutGroups(s.works, s.seen.batches, r, w);
    RemainingQueueOk(s.works, s.queue, s.seen.dispatched, current, s.seen.abandoned, r, w);
    RemainingLedgerOk(s.works, s.queue, current, s.seen.abandoned, r, w);
  }

  // ---------------------------------------------------------------- leaving a lease

  function LeftChat(w: Work): Work
    requires w.job.Chat?
  {
    w.(cancelled := w.cancelled || !w.caller.Entered?, caller := Left,
       job := w.job.(granted := false))
  }

  predicate Numbered(s: State) {
    && Allocated(s) && Ordered(s.queue)
    && forall k :: 0 <= k < |s.works| ==> s.works[k].sequence == k + 1
  }

  lemma RemovePut(s: State, r: nat, w: Work)
    requires r < |s.works| && Numbered(s) && w.sequence == r + 1
    ensures RemoveQueued(Put(s, r, w), r) ==
            if r in s.queue
            then ReleaseAccounting(Put(s, r, w).(queue := Remaining(s.queue, r)), w)
            else Put(s, r, w)
    ensures (Remaining(s.queue, r) == s.queue) <==> r !in s.queue
  {
    RemovedQueue(Put(s, r, w), r);
  }

  /** Leaving is withdrawing: off the queue unless the chat was entered, and out of the count. */
  lemma LeaveChatIs(s: State, r: nat)
    requires Numbered(s) && OpenChat(s, r)
    requires r in s.queue ==> s.works[r].caller.Waiting?
    ensures LeaveChat(s, r) == Withdrawn(s, r, LeftChat(s.works[r]))
  {
    var w := s.works[r];
    var v := LeftChat(w);
    RemovePut(s, r, v);
    if !w.caller.Entered? {
      var u := w.(cancelled := true);
      RemovePut(s, r, u);
      assert s.works[r := u][r := v] == s.works[r := v];
    }
  }

  lemma LeaveChatBooks(s: State, r: nat, current: Option<nat>)
    requires BooksFor(s, current) && OpenChat(s, r)
    ensures BooksFor(LeaveChat(s, r), current)
  {
    Sequenced(s, current);
    var w := s.works[r];
    assert WorkOk(w, r, r in s.queue, current == Some(r), r in s.seen.abandoned);
    LeaveChatIs(s, r);
    WithdrawBooks(s, r, LeftChat(w), current);
  }

  // ---------------------------------------------------------------- cancelling images

  function CancelledImage(w: Work, queued: bool, reason: Reason): Work {
    var v := w.(cancelled := true);
    if queued then Answered(v, reason) else v
  }

  lemma CancelImageIs(s: State, r: nat, reason: Reason)
    requires Numbered(s) && r < |s.works| && s.works[r].job.Image?
    ensures CancelImage(s, r, reason) ==
            Withdrawn(s, r, CancelledImage(s.works[r], r in s.queue, reason))
  {
    var w := s.works[r];
    var u := w.(cancelled := true);
    var v := CancelledImage(w, r in s.queue, reason);
    RemovePut(s, r, u);
    RemovePut(s, r, v);
    PutTwice(s.works, r, u, v);
  }

  lemma PutTwice(works: seq<Work>, r: nat, u: Work, v: Work)
    requires r < |works|
    ensures works[r := u][r := v] == works[r := v]
  {
  }

  lemma CancelImageBooks(s: State, r: nat, reason: Reason, current: Option<nat>)
    requires BooksFor(s, current) && r < |s.works| && s.works[r].job.Image?
    ensures BooksFor(CancelImage(s, r, reason), current)
    ensures CancelImage(s, r, reason).works ==
            s.works[r := CancelledImage(s.works[r], r in s.queue, reason)]
    ensures CancelImage(s, r, reason).queue == Remaining(s.queue, r)
  {
    Sequenced(s, current);
    CancelImageIs(s, r, reason);
    var w := s.works[r];
    assert WorkOk(w, r, r in s.queue, current == Some(r), r in s.seen.abandoned);
    WithdrawBooks(s, r, CancelledImage(w, r in s.queue, reason), current);
  }

  // ---------------------------------------------------------------- batches

  lemma CancelledGrew(w: Work, queued: bool, reason: Reason)
    requires w.job.Image?
    ensures Grew(w, CancelledImage(w, queued, reason))
  {
  }

  lemma WithdrawnFrame(s: State, r: nat, w: Work)
    requires Numbered(s) && r < |s.works| && w.sequence == r + 1
    requires Grew(s.works[r], w) && w.job.Image?
    ensures Withdrawn(s, r, w).works == s.works[r := w]
    ensures Evolves(s.works, s.works[r := w])
    ensures GateUntouched(s, Withdrawn(s, r, w))
  {
    RemovePut(s, r, w);
  }

  lemma CancelImageFrame(s: State, r: nat, reason: Reason)
    requires Numbered(s) && r < |s.works| && s.works[r].job.Image?
    ensures GateUntouched(s, CancelImage(s, r, reason))
    ensures Evolves(s.works, CancelImage(s, r, reason).works)
  {
    var v := CancelledImage(s.works[r], r in s.queue, reason);
    CancelledGrew(s.works[r], r in s.queue, reason);
    WithdrawnFrame(s, r, v);
    CancelImageIs(s, r, reason);
    assert CancelImage(s, r, reason) == Withdrawn(s, r, v);
  }

  lemma CancelMember(s: State, first: nat, count: nat, current: Option<nat>)
    requires BooksFor(s, current) && Members(s, first, count) && count > 0
    ensures var t := CancelImage(s, first, BatchCancelled);
            && BooksFor(t, current) && Members(t, first + 1, count - 1)
            && GateUntouched(s, t) && Evolves(s.works, t.works) && |t.works| == |s.works|
  {
    CancelImageBooks(s, first, BatchCancelled, current);
    Sequenced(s, current);
    CancelImageFrame(s, first, BatchCancelled);
  }

  /** The state after looking at the first member of a batch. */
  function AfterMember(s: State, first: nat): State
    requires Members(s, first, 1) && Allocated(s)
  {
    if s.works[first].job.completion.value.Pending? then CancelImage(s, first, BatchCancelled) else s
  }

  lemma MemberKept(s: State, first: nat, count: nat, current: Option<nat>)
    requires BooksFor(s, current) && Members(s, first, count) && count > 0
    ensures var t := AfterMember(s, first);
            && BooksFor(t, current) && Members(t, first + 1, count - 1)
            && GateUntouched(s, t) && Evolves(s.works, t.works)
            && LeaveBatch(s, first, count) == LeaveBatch(t, first + 1, count - 1)
  {
    if s.works[first].job.completion.value.Pending? {
      CancelMember(s, first, count, current);
    }
  }

  lemma LeaveBatchBooks(s: State, first: nat, count: nat, current: Option<nat>)
    requires BooksFor(s, current) && Members(s, first, count)
    ensures var t := LeaveBatch(s, first, count);
            BooksFor(t, current) && GateUntouched(s, t) && Evolves(s.works, t.works)
    decreases count
  {
    if count > 0 {
      var s1 := AfterMember(s, first);
      MemberKept(s, first, count, current);
      LeaveBatchBooks(s1, first + 1, count - 1, current);
      LeftTransitive(s, s1, LeaveBatch(s1, first + 1, count - 1));
    }
  }

  lemma LeftTransitive(a: State, b: State, c: State)
    requires GateUntouched(a, b) && Evolves(a.works, b.works)
    requires GateUntouched(b, c) && Evolves(b.works, c.works)
    ensures GateUntouched(a, c) && Evolves(a.works, c.works)
  {
    EvolvesTransitive(a.works, b.works, c.works);
  }

  lemma {:induction false} LeaveBatchLength(s: State, first: nat, count: nat)
    requires Members(s, first, count) && Allocated(s)
    ensures |LeaveBatch(s, first, count).works| == |s.works|
    decreases count
  {
    if count > 0 {
      if s.works[first].job.completion.value.Pending? {
        LeaveBatchLength(CancelImage(s, first, BatchCancelled), first + 1, count - 1);
      } else {
        LeaveBatchLength(s, first + 1, count - 1);
      }
    }
  }

  /** The parts of a state that Gate reads, the queue only through its emptiness. */
  predicate GateUntouched(s: State, t: State) {
    && s.cfg == t.cfg && s.restorePoint == t.restorePoint
    && s.activeChats == t.activeChats && s.activeMetadata == t.activeMetadata
    && s.activeControls == t.activeControls
    && s.fatal == t.fatal && s.recoverable == t.recoverable
    && s.owner == t.owner && s.phase == t.phase
    && s.closing == t.closing && s.pc == t.pc && s.closer == t.closer
    && s.seen == t.seen
    && (s.queue == [] ==> t.queue == [])
  }

  // ---------------------------------------------------------------- admission

  function NewImages(base: nat, sizes: seq<nat>, completion: Option<Future>, group: nat): seq<Work> {
    seq(|sizes|, i requires 0 <= i < |sizes| =>
      Work(base + i + 1, false, Waiting, Image(sizes[i], Pending, completion, group)))
  }

  function Range(from: nat, count: nat): seq<nat> {
    seq(count, i requires 0 <= i < count => from + i)
  }

  /** The records of one admission take consecutive positions, in the order of their bodies. */
  lemma AppendImagesIs(s: State, sizes: seq<nat>, completion: Option<Future>, group: nat)
    ensures var t := AppendImages(s, sizes, completion, group);
            && t.works == s.works + NewImages(s.sequence, sizes, completion, group)
            && t.queue == s.queue + Range(|s.works|, |sizes|)
    decreases |sizes|
  {
    if sizes != [] {
      var w := Work(s.sequence + 1, false, Waiting, Image(sizes[0], Pending, completion, group));
      AppendImagesIs(AppendQueued(s, w), sizes[1..], completion, group);
      assert NewImages(s.sequence, sizes, completion, group)
          == [w] + NewImages(s.sequence + 1, sizes[1..], completion, group);
      assert Range(|s.works|, |sizes|) == [|s.works|] + Range(|s.works| + 1, |sizes| - 1);
    }
  }

  lemma AppendImagesFrame(s: State, sizes: seq<nat>, completion: Option<Future>, group: nat)
    ensures var t := AppendImages(s, sizes, completion, group);
            GateUntouched(s.(queue := t.queue), t)
    decreases |sizes|
  {
    if sizes != [] {
      var w := Work(s.sequence + 1, false, Waiting, Image(sizes[0], Pending, completion, group));
      AppendImagesFrame(AppendQueued(s, w), sizes[1..], completion, group);
    }
  }

  /** The works from group on are exactly one unfinished admission. */
  predicate Gathering(works: seq<Work>, group: nat) {
    && group <= |works|
    && forall k :: group <= k < |works| ==> works[k].job.Image? && works[k].job.group == group
  }

  /** Room for a whole admission is room at each of its positions. */
  lemma AppendImagesBooks(s: State, sizes: seq<nat>, completion: Option<Future>, group: nat,
                          current: Option<nat>)
    requires BooksFor(s, current) && Unsettled(completion) && Gathering(s.works, group)
    requires s.waitingImages + |sizes| <= s.cfg.maxImages
    requires s.queuedBytes + Total(sizes) <= s.cfg.maxBytes
    ensures BooksFor(AppendImages(s, sizes, completion, group), current)
  {
    var t := AppendAllBooks(s, sizes, completion, group, current);
  }

  /** The first image of an admission. */
  function FirstImage(s: State, sizes: seq<nat>, completion: Option<Future>, group: nat): Work
    requires sizes != []
  {
    Work(s.sequence + 1, false, Waiting, Image(sizes[0], Pending, completion, group))
  }

  lemma {:induction false} AppendAllBooks(s: State, sizes: seq<nat>, completion: Option<Future>, group: nat,
                                          current: Option<nat>)
    returns (t: State)
    requires BooksFor(s, current) && Unsettled(completion) && Gathering(s.works, group)
    requires s.waitingImages + |sizes| <= s.cfg.maxImages
    requires s.queuedBytes + Total(sizes) <= s.cfg.maxBytes
    ensures t == AppendImages(s, sizes, completion, group) && BooksFor(t, current)
    decreases |sizes|
  {
    if sizes == [] {
      t := s;
    } else {
      AppendFirstBooks(s, sizes, completion, group, current);
      AppendFirstFits(s, sizes, completion, group);
      t := AppendAllBooks(AppendQueued(s, FirstImage(s, sizes, completion, group)), sizes[1..],
                          completion, group, current);
    }
  }

  lemma AppendFirstBooks(s: State, sizes: seq<nat>, completion: Option<Future>, group: nat, current: Option<nat>)
    requires BooksFor(s, current) && Unsettled(completion) && Gathering(s.works, group) && sizes != []
    requires s.waitingImages + 1 <= s.cfg.maxImages && s.queuedBytes + sizes[0] <= s.cfg.maxBytes
    ensures BooksFor(AppendQueued(s, FirstImage(s, sizes, completion, group)), current)
  {
    AppendBooks(s, FirstImage(s, sizes, completion, group), current);
  }

  lemma AppendFirstFits(s: State, sizes: seq<nat>, completion: Option<Future>, group: nat)
    requires Gathering(s.works, group) && sizes != []
    requires s.waitingImages + |sizes| <= s.cfg.maxImages
    requires s.queuedBytes + Total(sizes) <= s.cfg.maxBytes
    ensures var t := AppendQueued(s, FirstImage(s, sizes, completion, group));
            && Gathering(t.works, group)
            && t.waitingImages + |sizes[1..]| <= t.cfg.maxImages
            && t.queuedBytes + Total(sizes[1..]) <= t.cfg.maxBytes
  {
  }

  // ---------------------------------------------------------------- records over time

  predicate GrewFuture(f: Future, g: Future) {
    f.Pending? || f == g
  }

  /** One record at two points of a run: identity is fixed, settled futures never change again, and
      a caller only moves on. */
  predicate Grew(w: Work, v: Work) {
    && Kin(w, v)
    && (w.cancelled ==> v.cancelled)
    && (w.caller.Left? ==> v.caller.Left?)
    && (w.caller.Entered? ==> !v.caller.Waiting?)
    && (w.job.Chat? ==> GrewFuture(w.job.ready, v.job.ready))
    && (w.job.Image? ==>
          && GrewFuture(w.job.submitted, v.job.submitted)
          && (w.job.completion.Some? ==>
                GrewFuture(w.job.completion.value, v.job.completion.value)))
  }

  predicate Evolves(before: seq<Work>, after: seq<Work>) {
    |before| <= |after| && forall r :: 0 <= r < |before| ==> Grew(before[r], after[r])
  }

  lemma EvolvesTransitive(a: seq<Work>, b: seq<Work>, c: seq<Work>)
    requires Evolves(a, b) && Evolves(b, c)
    ensures Evolves(a, c)
  {
    forall r | 0 <= r < |a|
      ensures Grew(a[r], c[r])
    {
      assert Grew(a[r], b[r]) && Grew(b[r], c[r]);
    }
  }
}
