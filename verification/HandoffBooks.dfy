/** Every step keeps the books: queue, ledger, counters and futures. */
module HandoffBooks {
  import opened Basics
  import opened Handoff
  import opened HandoffInvariant

  /** What a change of one record may not touch. */
  predicate Kin(w: Work, v: Work) {
    && w.sequence == v.sequence
    && w.job.Chat? == v.job.Chat?
    && (w.job.Chat? ==> w.job.target == v.job.target)
    && (w.job.Image? ==> && w.job.group == v.job.group
                         && w.job.completion.Some? == v.job.completion.Some?)
  }

  lemma NoneGranted(works: seq<Work>)
    requires Granted(works) == 0
    ensures forall r :: 0 <= r < |works| && works[r].job.Chat? ==> !works[r].job.granted
  {
    forall r | 0 <= r < |works| && works[r].job.Chat?
      ensures !works[r].job.granted
    {
      GrantedPositive(works, r);
    }
  }

  lemma BooksSame(s: State, t: State, current: Option<nat>)
    requires BooksFor(s, current) && SameBooks(s, t)
    requires s.restorePoint == t.restorePoint || s.activeChats == 0
    ensures BooksFor(t, current)
  {
    if s.activeChats == 0 {
      NoneGranted(s.works);
    }
  }

  lemma PutAccounts(s: State, r: nat, w: Work)
    requires r < |s.works|
    requires AccountsOk(s.works, s.queue, s.waitingChats, s.waitingImages, s.queuedBytes, s.cfg)
    requires Kin(s.works[r], w)
    requires r in s.queue ==> Size(s.works[r]) == Size(w)
    ensures AccountsOk(s.works[r := w], s.queue, s.waitingChats, s.waitingImages, s.queuedBytes,
                       s.cfg)
  {
    var after := s.works[r := w];
    SumAgrees(s.queue, s.works, after, ChatUnit);
    SumAgrees(s.queue, s.works, after, ImageUnit);
    SumAgrees(s.queue, s.works, after, Size);
  }

  lemma PutGroups(works: seq<Work>, batches: seq<Batch>, r: nat, w: Work)
    requires r < |works| && GroupsOk(works, batches) && Kin(works[r], w)
    ensures GroupsOk(works[r := w], batches)
  {
    var after := works[r := w];
    forall b | 0 <= b < |batches|
      ensures BatchOk(after, batches[b])
    {
      assert BatchOk(works, batches[b]);
    }
  }

  lemma PutLedger(works: seq<Work>, queue: seq<nat>, before: Option<nat>, after: Option<nat>,
                  abandoned: set<nat>, r: nat, w: Work)
    requires r < |works| && LedgerOk(works, queue, before, abandoned)
    requires WorkOk(w, r, r in queue, after == Some(r), r in abandoned)
    requires before == after || (before == Some(r) && after == None)
    ensures LedgerOk(works[r := w], queue, after, abandoned)
  {
    forall k | 0 <= k < |works|
      ensures WorkOk(works[r := w][k], k, k in queue, after == Some(k), k in abandoned)
    {
      assert WorkOk(works[k], k, k in queue, before == Some(k), k in abandoned);
    }
  }

  lemma PutLeases(works: seq<Work>, active: int, point: Option<Point>, cfg: Config, r: nat, w: Work)
    requires r < |works| && LeasesOk(works, active, point, cfg) && Kin(works[r], w)
    requires w.job.Chat? && w.job.granted ==> w.job.target in {None, point}
    ensures LeasesOk(works[r := w], active - GrantUnit(works[r]) + GrantUnit(w), point, cfg)
  {
    GrantedPut(works, r, w);
  }

  /** Changing one record keeps everything except what the ledger says about that record. */
  lemma PutBooks(s: State, r: nat, w: Work, before: Option<nat>, after: Option<nat>)
    requires r < |s.works| && BooksFor(s, before) && Kin(s.works[r], w)
    requires r in s.queue ==> Size(s.works[r]) == Size(w)
    requires w.job.Chat? && w.job.granted ==> w.job.target in {None, s.restorePoint}
    requires WorkOk(w, r, r in s.queue, after == Some(r), r in s.seen.abandoned)
    requires before == after || (before == Some(r) && after == None)
    ensures BooksFor(Put(s, r, w).(activeChats := s.activeChats - GrantUnit(s.works[r]) + GrantUnit(w)),
                     after)
  {
    PutAccounts(s, r, w);
    PutGroups(s.works, s.seen.batches, r, w);
    PutLeases(s.works, s.activeChats, s.restorePoint, s.cfg, r, w);
    PutLedger(s.works, s.queue, before, after, s.seen.abandoned, r, w);
  }

  lemma ResolveCurrent(s: State, r: nat, reason: Reason)
    requires BooksFor(s, Some(r))
    ensures BooksFor(Resolve(s, r, reason), None)
  {
    PutBooks(s, r, Answered(s.works[r], reason), Some(r), None);
  }

  lemma DropCancelled(s: State, r: nat)
    requires BooksFor(s, Some(r)) && s.works[r].job.Chat? && s.works[r].cancelled
    ensures BooksFor(s, None)
  {
    assert WorkOk(s.works[r], r, r in s.queue, true, r in s.seen.abandoned);
    assert WorkOk(s.works[r], r, r in s.queue, false, r in s.seen.abandoned);
  }

  lemma Abandon(s: State, r: nat)
    requires BooksFor(s, Some(r)) && s.works[r].job.Chat? && s.closing && s.cfg.Serialised()
    ensures BooksFor(s.(seen := s.seen.(abandoned := s.seen.abandoned + {r})), None)
  {
    assert WorkOk(s.works[r], r, r in s.queue, true, r in s.seen.abandoned);
  }

  // ---------------------------------------------------------------- queue operations

  lemma AppendAccounts(s: State, w: Work)
    requires AccountsOk(s.works, s.queue, s.waitingChats, s.waitingImages, s.queuedBytes, s.cfg)
    requires w.job.Image? ==> && s.waitingImages + 1 <= s.cfg.maxImages
                              && s.queuedBytes + w.job.bytes <= s.cfg.maxBytes
    ensures var t := AppendQueued(s, w);
            AccountsOk(t.works, t.queue, t.waitingChats, t.waitingImages, t.queuedBytes, t.cfg)
  {
    var t := AppendQueued(s, w);
    AppendSum(s, w, ChatUnit);
    AppendSum(s, w, ImageUnit);
    AppendSum(s, w, Size);
  }

  lemma AppendSum(s: State, w: Work, f: Work -> int)
    requires forall i :: 0 <= i < |s.queue| ==> s.queue[i] < |s.works|
    ensures Sum(s.queue + [|s.works|], s.works + [w], f) == Sum(s.queue, s.works, f) + f(w)
  {
    var after := s.works + [w];
    SumAgrees(s.queue, s.works, after, f);
    SumConcat(s.queue, [|s.works|], after, f);
    assert [|s.works|][1..] == [];
  }

  lemma AppendBooks(s: State, w: Work, current: Option<nat>)
    requires BooksFor(s, current)
    requires w.sequence == s.sequence + 1 && !w.cancelled && w.caller == Waiting
    requires match w.job
             case Chat(ready, granted, target) =>
               ready.Pending? && !granted && (target.Some? ==> s.cfg.Targeted())
             case Image(bytes, submitted, completion, group) =>
               && submitted.Pending? && Unsettled(completion) && group <= |s.works|
               && s.waitingImages + 1 <= s.cfg.maxImages
               && s.queuedBytes + bytes <= s.cfg.maxBytes
               && forall k :: group <= k < |s.works| ==>
                    s.works[k].job.Image? && s.works[k].job.group == group
    ensures BooksFor(AppendQueued(s, w), current)
  {
    AppendAccounts(s, w);
    AppendLeases(s.works, s.activeChats, s.restorePoint, s.cfg, w);
    AppendLedger(s.works, s.queue, current, s.seen.abandoned, w);
    AppendQueue(s.works, s.queue, s.seen.dispatched, current, s.seen.abandoned, w);
    AppendGroups(s, w);
  }

  lemma AppendQueue(works: seq<Work>, queue: seq<nat>, dispatched: seq<nat>, current: Option<nat>,
                    abandoned: set<nat>, w: Work)
    requires QueueOk(works, queue, dispatched, current, abandoned)
    ensures QueueOk(works + [w], queue + [|works|], dispatched, current, abandoned)
  {
  }

  lemma FailFirstQueue(works: seq<Work>, queue: seq<nat>, dispatched: seq<nat>,
                       current: Option<nat>, abandoned: set<nat>, w: Work)
    requires QueueOk(works, queue, dispatched, current, abandoned) && queue != []
    ensures QueueOk(works[queue[0] := w], queue[1..], dispatched, current, abandoned)
  {
  }

  lemma AppendLeases(works: seq<Work>, active: int, point: Option<Point>, cfg: Config, w: Work)
    requires LeasesOk(works, active, point, cfg)
    requires w.job.Chat? ==> !w.job.granted && (w.job.target.Some? ==> cfg.Targeted())
    ensures LeasesOk(works + [w], active, point, cfg)
  {
    GrantedAppend(works, w);
  }

  lemma AppendLedger(works: seq<Work>, queue: seq<nat>, current: Option<nat>, abandoned: set<nat>,
                     w: Work)
    requires LedgerOk(works, queue, current, abandoned)
    requires WorkOk(w, |works|, true, current == Some(|works|), |works| in abandoned)
    ensures LedgerOk(works + [w], queue + [|works|], current, abandoned)
  {
    var after, longer := works + [w], queue + [|works|];
    forall r | 0 <= r < |after|
      ensures WorkOk(after[r], r, r in longer, current == Some(r), r in abandoned)
    {
      if r < |works| {
        assert WorkOk(works[r], r, r in queue, current == Some(r), r in abandoned);
      }
    }
  }

  lemma AppendGroups(s: State, w: Work)
    requires GroupsOk(s.works, s.seen.batches)
    requires w.job.Image? ==>
               && w.job.group <= |s.works|
               && forall k :: w.job.group <= k < |s.works| ==>
                    s.works[k].job.Image? && s.works[k].job.group == w.job.group
    ensures GroupsOk(s.works + [w], s.seen.batches)
  {
    var after := s.works + [w];
    forall b | 0 <= b < |s.seen.batches|
      ensures BatchOk(after, s.seen.batches[b])
    {
      assert BatchOk(s.works, s.seen.batches[b]);
    }
  }

  /** Works carry distinct sequence numbers, so a removal by value hits exactly its own entry. */
  lemma RemovalIsExact(queue: seq<nat>, works: seq<Work>, r: nat)
    requires r < |works|
    requires forall i :: 0 <= i < |queue| ==> queue[i] < |works|
    requires forall k :: 0 <= k < |works| ==> works[k].sequence == k + 1
    ensures var i := IndexOf(queue, works, works[r]);
            if r in queue then i < |queue| && queue[i] == r else i == |queue|
  {
    var i := IndexOf(queue, works, works[r]);
    if r in queue {
      var j :| 0 <= j < |queue| && queue[j] == r;
      assert works[queue[j]] == works[r];
      assert i < |queue|;
    }
    if i < |queue| {
      assert works[queue[i]].sequence == queue[i] + 1;
    }
  }

  lemma Without(queue: seq<nat>, i: nat)
    requires i < |queue| && Ordered(queue)
    ensures var rest := queue[..i] + queue[i + 1..];
            Ordered(rest) && forall q :: q in rest <==> q in queue && q != queue[i]
  {
    var rest := queue[..i] + queue[i + 1..];
    assert forall k :: 0 <= k < |rest| ==> rest[k] == queue[if k < i then k else k + 1];
    forall q | q in queue && q != queue[i]
      ensures q in rest
    {
      var j :| 0 <= j < |queue| && queue[j] == q;
      assert rest[if j < i then j else j - 1] == q;
    }
  }

  lemma RemoveAccounts(s: State, r: nat)
    requires r < |s.works|
    requires AccountsOk(s.works, s.queue, s.waitingChats, s.waitingImages, s.queuedBytes, s.cfg)
    ensures var t := RemoveQueued(s, r);
            AccountsOk(t.works, t.queue, t.waitingChats, t.waitingImages, t.queuedBytes, t.cfg)
  {
    var i := IndexOf(s.queue, s.works, s.works[r]);
    if i < |s.queue| {
      SumWithout(s.queue, i, s.works, ChatUnit);
      SumWithout(s.queue, i, s.works, ImageUnit);
      SumWithout(s.queue, i, s.works, Size);
    }
  }

  lemma PopAccounts(s: State)
    requires s.queue != []
    requires AccountsOk(s.works, s.queue, s.waitingChats, s.waitingImages, s.queuedBytes, s.cfg)
    ensures var t := ReleaseAccounting(s.(queue := s.queue[1..]), s.works[s.queue[0]]);
            AccountsOk(t.works, t.queue, t.waitingChats, t.waitingImages, t.queuedBytes, t.cfg)
  {
  }

  lemma FailQueuedBooks(s: State, reason: Reason, current: Option<nat>)
    requires BooksFor(s, current)
    ensures BooksFor(FailQueued(s, reason), current)
    ensures FailQueued(s, reason).queue == []
    decreases |s.queue|
  {
    if s.queue != [] {
      var r := s.queue[0];
      var t := Resolve(ReleaseAccounting(s.(queue := s.queue[1..]), s.works[r]), r, reason);
      FailFirstBooks(s, reason, current);
      FailQueuedBooks(t, reason, current);
    }
  }

  /** Nobody waits for this work any more. */
  predicate IsAnswered(w: Work) {
    if w.job.Chat? then !w.job.ready.Pending?
    else !w.job.submitted.Pending? && (w.job.completion.Some? ==> !w.job.completion.value.Pending?)
  }

  /** Failing the whole queue empties it, answers every work in it and leaves all others alone. */
  lemma {:induction false} FailQueuedAnswers(s: State, reason: Reason)
    requires Allocated(s)
    ensures var t := FailQueued(s, reason);
            && t.queue == [] && |t.works| == |s.works|
            && forall r :: 0 <= r < |s.works| ==>
                 && (r in s.queue || IsAnswered(s.works[r]) ==> IsAnswered(t.works[r]))
                 && (r !in s.queue ==> t.works[r] == s.works[r])
    decreases |s.queue|
  {
    if s.queue != [] {
      var r := s.queue[0];
      FailQueuedAnswers(
        Resolve(ReleaseAccounting(s.(queue := s.queue[1..]), s.works[r]), r, reason), reason);
    }
  }

  lemma FailFirstBooks(s: State, reason: Reason, current: Option<nat>)
    requires BooksFor(s, current) && s.queue != []
    ensures var r := s.queue[0];
            BooksFor(Resolve(ReleaseAccounting(s.(queue := s.queue[1..]), s.works[r]), r, reason),
                     current)
  {
    var r := s.queue[0];
    var t := ReleaseAccounting(s.(queue := s.queue[1..]), s.works[r]);
    FailFirstParts(s, reason, current, t.waitingChats, t.waitingImages, t.queuedBytes);
  }

  lemma FailFirstParts(s: State, reason: Reason, current: Option<nat>, chats: int, images: int, bytes: int)
    requires BooksFor(s, current) && s.queue != []
    requires var w := s.works[s.queue[0]];
             && chats == s.waitingChats - ChatUnit(w) && images == s.waitingImages - ImageUnit(w)
             && bytes == s.queuedBytes - Size(w)
    ensures var works := s.works[s.queue[0] := Answered(s.works[s.queue[0]], reason)];
            && LedgerOk(works, s.queue[1..], current, s.seen.abandoned)
            && QueueOk(works, s.queue[1..], s.seen.dispatched, current, s.seen.abandoned)
            && AccountsOk(works, s.queue[1..], chats, images, bytes, s.cfg)
            && LeasesOk(works, s.activeChats, s.restorePoint, s.cfg)
            && GroupsOk(works, s.seen.batches)
  {
    var r := s.queue[0];
    var w := Answered(s.works[r], reason);
    assert WorkOk(s.works[r], r, true, current == Some(r), r in s.seen.abandoned);
    FailFirstAccounts(s, w);
    FailFirstQueue(s.works, s.queue, s.seen.dispatched, current, s.seen.abandoned, w);
    PutLeased(s, r, w, current);
    FailFirstLedger(s.works, s.queue, current, s.seen.abandoned, w);
  }

  lemma PutLeased(s: State, r: nat, w: Work, current: Option<nat>)
    requires BooksFor(s, current) && s.queue != [] && r == s.queue[0] && r < |s.works|
    requires Kin(s.works[r], w) && GrantUnit(s.works[r]) == GrantUnit(w)
    ensures LeasesOk(s.works[r := w], s.activeChats, s.restorePoint, s.cfg)
    ensures GroupsOk(s.works[r := w], s.seen.batches)
  {
    PutGroups(s.works, s.seen.batches, r, w);
    PutLeases(s.works, s.activeChats, s.restorePoint, s.cfg, r, w);
  }

  lemma FailFirstAccounts(s: State, w: Work)
    requires s.queue != [] && Ordered(s.queue) && s.queue[0] < |s.works| && Kin(s.works[s.queue[0]], w)
    requires AccountsOk(s.works, s.queue, s.waitingChats, s.waitingImages, s.queuedBytes, s.cfg)
    ensures var t := ReleaseAccounting(s.(queue := s.queue[1..]), s.works[s.queue[0]]);
            AccountsOk(s.works[s.queue[0] := w], s.queue[1..], t.waitingChats, t.waitingImages,
                       t.queuedBytes, s.cfg)
  {
    PopMembers(s.queue);
    PopAccounts(s);
    PutAccounts(ReleaseAccounting(s.(queue := s.queue[1..]), s.works[s.queue[0]]), s.queue[0], w);
  }

  lemma FailFirstLedger(works: seq<Work>, queue: seq<nat>, current: Option<nat>,
                        abandoned: set<nat>, w: Work)
    requires queue != [] && Ordered(queue) && queue[0] < |works|
    requires LedgerOk(works, queue, current, abandoned)
    requires WorkOk(w, queue[0], false, current == Some(queue[0]), queue[0] in abandoned)
    ensures LedgerOk(works[queue[0] := w], queue[1..], current, abandoned)
  {
    PopMembers(queue);
    forall k | 0 <= k < |works|
      ensures WorkOk(works[queue[0] := w][k], k, k in queue[1..], current == Some(k), k in abandoned)
    {
      assert WorkOk(works[k], k, k in queue, current == Some(k), k in abandoned);
    }
  }

  lemma PopMembers(queue: seq<nat>)
    requires queue != [] && Ordered(queue)
    ensures Ordered(queue[1..])
    ensures forall q :: q in queue[1..] <==> q in queue && q != queue[0]
  {
    forall q | q in queue && q != queue[0]
      ensures q in queue[1..]
    {
      var j :| 0 <= j < |queue| && queue[j] == q;
      assert queue[1..][j - 1] == q;
    }
  }
}
