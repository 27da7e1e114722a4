/** What the handoff protocol guarantees over every run. */
module HandoffTheorems {
  import opened Basics
  import opened Handoff
  import opened HandoffInvariant
  import opened HandoffBooks
  import opened HandoffClients
  import opened HandoffSteps
  import opened HandoffHistory

  /** The limits configuration parsing accepts, and router mode only with its one backend. */
  predicate Accepted(cfg: Config) {
    && cfg.maxImages > 0 && cfg.maxBody > 0 && cfg.maxBytes >= cfg.maxBody
    && (cfg.router ==> cfg.kind == KoboldCpp)
  }

  ghost predicate Reachable(s: State) {
    exists snapshot, held, run :: s == After(Initial(s.cfg, snapshot, held), run)
  }

  lemma ReachableInv(s: State)
    requires Reachable(s)
    ensures Inv(s)
  {
    var snapshot, held, run :| s == After(Initial(s.cfg, snapshot, held), run);
    InitialHolds(s.cfg, snapshot, held);
    RunKeeps(Initial(s.cfg, snapshot, held), run);
  }

  lemma ReachableStep(s: State, l: Label)
    requires Reachable(s)
    ensures Reachable(Step(s, l))
  {
    var snapshot, held, run :| s == After(Initial(s.cfg, snapshot, held), run);
    ReachableInv(s);
    StepLater(s, l);
    assert (run + [l])[..|run|] == run;
    assert Step(s, l) == After(Initial(Step(s, l).cfg, snapshot, held), run + [l]);
  }

  // ---------------------------------------------------------------- GPU exclusion

  /** ComfyUI and the LLM are never given the GPU together. */
  predicate Exclusive(s: State) {
    && (s.seen.dirty ==> s.owner == COMFY)
    && (s.seen.held ==> s.owner != COMFY)
  }

  predicate Acquires(pc: Pc) {
    pc.AcquiringTarget? || pc.RouterAcquiring? || pc.Acquiring? || pc.ActivateAcquiring?
  }

  /** Submissions run while the LLM holds nothing; acquisitions start and run while ComfyUI holds
      nothing. */
  predicate CallsAreSafe(s: State) {
    && (s.pc.Submitting? || s.pc.AwaitingPrompt? || s.pc.Interrupting? ==> !s.seen.held)
    && (Acquires(s.pc) ==> !s.seen.dirty)
  }

  ghost predicate AlwaysExclusive(cfg: Config) {
    forall s :: Reachable(s) && s.cfg == cfg ==> Exclusive(s) && CallsAreSafe(s)
  }

  // The failing run, step by step.

  lemma IdleStep(s: State)
    requires Awake(s) && s.pc.Idle?
    ensures Step(s, LResume(Wake)) == NextWork(s)
  {
  }

  lemma ImageStep(s: State, o: Outcome)
    requires Awake(s) && Current(s.pc).Some? && !ServesChat(s.pc)
    ensures Step(s, LResume(o)) == ResumeImage(s, o)
  {
  }

  lemma SubmitStep(s: State)
    requires Awake(s) && !Refuses(s) && s.waitingImages == 0 && s.queuedBytes == 0
    requires Accepted(s.cfg)
    ensures Step(s, LSubmitImage(0, false)) ==
            AppendQueued(s, Work(s.sequence + 1, false, Waiting, Image(0, Pending, None, |s.works|)))
  {
    assert [0][1..] == [] && Total([0]) == 0;
    var w := Work(s.sequence + 1, false, Waiting, Image(0, Pending, None, |s.works|));
    assert AppendImages(AppendQueued(s, w), [0][1..], None, |s.works|) == AppendQueued(s, w);
  }

  /** An image that arrives while the broker is idle is taken off the queue at once. */
  lemma ImageArrives(s: State) returns (t: State)
    requires Reachable(s) && Accepted(s.cfg) && s.pc.Idle? && !Refuses(s) && s.queue == []
    requires s.owner != COMFY
    ensures Reachable(t) && t.pc == DrainEntry(|s.works|)
    ensures t.works == s.works + [Work(s.sequence + 1, false, Waiting, Image(0, Pending, None, |s.works|))]
    ensures t.queue == [] && t.waitingImages == 0 && t.queuedBytes == 0
    ensures GateUntouched(s.(pc := t.pc, seen := t.seen), t) && t.seen.held == s.seen.held
  {
    ReachableInv(s);
    var u := Step(s, LSubmitImage(0, false));
    SubmitStep(s);
    ReachableStep(s, LSubmitImage(0, false));
    assert u.queue == [|s.works|];
    t := NextWork(u);
    IdleStep(u);
    ReachableStep(u, LResume(Wake));
    assert u.queue[1..] == [];
  }

  /** At startup the LLM owns the GPU, and the first image asks for its release. */
  lemma FirstRelease(cfg: Config) returns (s: State)
    requires Accepted(cfg) && !Guarded(cfg)
    ensures Reachable(s) && s.cfg == cfg && s.pc == Releasing(0) && s.queue == [] && !Refuses(s)
    ensures s.owner == UNKNOWN && s.seen.held && s.activeChats == 0 && s.activeMetadata == 0
  {
    var s0 := Initial(cfg, Some(Point(0, 0)), false);
    assert After(s0, []) == s0;
    assert Reachable(s0);
    var s1 := ImageArrives(s0);
    ReachableInv(s1);
    ImageStep(s1, Wake);
    ReachableStep(s1, LResume(Wake));
    s := ResumeImage(s1, Wake);
    assert s == s1.(phase := UnloadingLlm, owner := UNKNOWN, pc := Releasing(0));
  }

  /** The release fails. */
  lemma FailedRelease(cfg: Config) returns (s: State)
    requires Accepted(cfg) && !Guarded(cfg)
    ensures Reachable(s) && s.cfg == cfg && s.pc.Idle? && s.queue == [] && !Refuses(s)
    ensures s.owner == UNKNOWN && s.seen.held && s.activeChats == 0 && s.activeMetadata == 0
  {
    var s3 := ReleaseRaises(cfg);
    ReachableInv(s3);
    ImageStep(s3, Wake);
    ReachableStep(s3, LResume(Wake));
    s := ResumeImage(s3, Wake);
  }

  lemma ReleaseRaises(cfg: Config) returns (s: State)
    requires Accepted(cfg) && !Guarded(cfg)
    ensures Reachable(s) && s.cfg == cfg && s.pc == ImageMarking(0) && s.queue == [] && !Refuses(s)
    ensures s.owner == UNKNOWN && s.seen.held && s.activeChats == 0 && s.activeMetadata == 0
  {
    var s2 := FirstRelease(cfg);
    ReachableInv(s2);
    ImageStep(s2, Raised(false));
    ReachableStep(s2, LResume(Raised(false)));
    s := ResumeImage(s2, Raised(false));
    assert s == s2.(pc := ImageMarking(0));
  }

  /** The next image then reaches ComfyUI with no release at all. */
  lemma SecondImageSlipsThrough(cfg: Config) returns (s: State)
    requires Accepted(cfg) && !Guarded(cfg)
    ensures Reachable(s) && s.cfg == cfg && s.pc.Submitting? && s.owner == COMFY && s.seen.held
  {
    var s3 := FailedRelease(cfg);
    var s4 := ImageArrives(s3);
    ReachableInv(s4);
    ImageStep(s4, Wake);
    ReachableStep(s4, LResume(Wake));
    s := ResumeImage(s4, Wake);
  }

  /** GPU exclusion holds over every run exactly for the configurations that resolve an unknown
      owner before granting ComfyUI. */
  lemma ExclusionExactly(cfg: Config)
    requires Accepted(cfg)
    ensures AlwaysExclusive(cfg) <==> Guarded(cfg)
  {
    if Guarded(cfg) {
      forall s | Reachable(s) && s.cfg == cfg
        ensures Exclusive(s) && CallsAreSafe(s)
      {
        ReachableInv(s);
      }
    } else {
      var s := SecondImageSlipsThrough(cfg);
      assert Reachable(s) && !Exclusive(s);
    }
  }

  // ---------------------------------------------------------------- leases

  /** A granted chat runs on an LLM that owns the GPU, at a known restore point, on the very target
      it asked for; serialised backends have at most one. */
  lemma GrantedChatsOwnTheGpu(s: State, r: nat)
    requires Reachable(s) && r < |s.works| && s.works[r].job.Chat? && s.works[r].job.granted
    ensures s.owner == LLM && s.restorePoint.Some? && s.activeChats >= 1
    ensures s.works[r].job.target in {None, s.restorePoint}
    ensures s.cfg.Serialised() ==>
              forall k :: 0 <= k < |s.works| && s.works[k].job.Chat? && s.works[k].job.granted ==>
                k == r
  {
    ReachableInv(s);
    GrantedPositive(s.works, r);
    forall k | 0 <= k < |s.works| && s.works[k].job.Chat? && s.works[k].job.granted && k != r
      ensures s.activeChats >= 2
    {
      TwoGranted(s.works, r, k);
    }
  }

  lemma TwoGranted(works: seq<Work>, r: nat, k: nat)
    requires r < |works| && k < |works| && r != k
    requires GrantUnit(works[r]) == 1 && GrantUnit(works[k]) == 1
    ensures Granted(works) >= 2
  {
    var w := works[r].(job := Chat(Pending, false, None));
    GrantedPut(works, r, w);
    GrantedPositive(works[r := w], k);
  }

  /** A chat is granted only when the broker has no unsolved problem with the backend, and on its own
      target. */
  lemma GrantsAreClean(s: State, r: nat)
    requires Reachable(s) && s.pc == Granting(r) && !s.closing
    ensures s.recoverable.None? && s.fatal.None? && s.owner == LLM && s.restorePoint.Some?
    ensures r < |s.works| && s.works[r].job.Chat? && s.works[r].job.target in {None, s.restorePoint}
    ensures s.cfg.Serialised() ==> s.activeChats == 0
  {
    ReachableInv(s);
  }

  /** No release runs under a chat or a metadata lease, and none lacks a restore point: the error
      branch for a missing one is unreachable. */
  lemma ReleasesAreQuiet(s: State)
    requires Reachable(s)
    ensures s.pc.Releasing? || s.pc.RouterReleasing? ==>
              && s.activeChats == 0 && s.activeMetadata == 0
              && s.restorePoint.Some? && s.owner == UNKNOWN
    ensures s.owner == LLM ==> s.restorePoint.Some?
  {
    ReachableInv(s);
  }

  /** ComfyUI is cleaned up only while no ComfyUI control request runs, no chat does and, for a
      serialised backend, no metadata request. */
  lemma CleanupIsQuiet(s: State)
    requires Reachable(s) && s.pc.Freeing?
    ensures s.activeControls == 0 && s.seen.controlsHeld == 0 && s.activeChats == 0
    ensures s.cfg.Serialised() ==> s.activeMetadata == 0
    ensures !ComfyControlAllowed(s)
  {
    ReachableInv(s);
  }

  /** The reported phase never contradicts the owner. */
  lemma PhaseIsHonest(s: State)
    requires Reachable(s)
    ensures PhaseAgrees(s.owner, s.phase)
    ensures s.activeChats > 0 ==> s.owner == LLM
    ensures s.cfg.Serialised() ==> s.activeChats <= 1
  {
    ReachableInv(s);
  }

  // ---------------------------------------------------------------- conservation

  /** Every counter is the count it is named after, and the limits hold, in every reachable state. */
  lemma CountersAreExact(s: State)
    requires Reachable(s)
    ensures s.activeChats == Granted(s.works)
    ensures Allocated(s)
    ensures s.waitingChats == Sum(s.queue, s.works, ChatUnit)
    ensures s.waitingImages == Sum(s.queue, s.works, ImageUnit) <= s.cfg.maxImages
    ensures s.queuedBytes == Sum(s.queue, s.works, Size) <= s.cfg.maxBytes
    ensures s.activeMetadata == s.seen.metadataHeld && s.activeControls == s.seen.controlsHeld
  {
    ReachableInv(s);
  }

  /** A batch is admitted whole, at consecutive places at the end of the queue, or not at all. */
  lemma BatchesAreAllOrNone(s: State, sizes: seq<nat>)
    requires Reachable(s)
    ensures var t := SubmitBatch(s, sizes);
            if && sizes != [] && !s.closing && s.fatal.None?
               && (forall i :: 0 <= i < |sizes| ==> sizes[i] <= s.cfg.maxBody)
               && s.waitingImages + |sizes| <= s.cfg.maxImages && s.queuedBytes + Total(sizes) <= s.cfg.maxBytes
            then && t.queue == s.queue + Range(|s.works|, |sizes|)
                 && t.waitingImages == s.waitingImages + |sizes|
                 && t.queuedBytes == s.queuedBytes + Total(sizes)
            else t == s
  {
    if sizes != [] && !Refuses(s) && Fits(s, sizes) {
      AppendImagesIs(s, sizes, Some(Pending), |s.works|);
      AppendImagesCount(s, sizes, Some(Pending), |s.works|);
    }
  }

  lemma {:induction false} AppendImagesCount(s: State, sizes: seq<nat>, completion: Option<Future>,
                                             group: nat)
    ensures var t := AppendImages(s, sizes, completion, group);
            && t.waitingImages == s.waitingImages + |sizes|
            && t.queuedBytes == s.queuedBytes + Total(sizes)
    decreases |sizes|
  {
    if sizes != [] {
      var w := Work(s.sequence + 1, false, Waiting, Image(sizes[0], Pending, completion, group));
      AppendImagesCount(AppendQueued(s, w), sizes[1..], completion, group);
    }
  }

  // ---------------------------------------------------------------- FIFO

  /** Works leave the queue in the order of their sequence numbers, later steps only extend that
      order, and everything still queued is younger than everything dispatched. */
  lemma DispatchIsFifo(s: State, run: seq<Label>)
    requires Reachable(s)
    ensures Ordered(s.seen.dispatched) && Ordered(s.queue)
    ensures forall d, q :: d in s.seen.dispatched && q in s.queue ==> d < q
    ensures s.seen.dispatched <= After(s, run).seen.dispatched
    ensures forall r :: 0 <= r < |s.works| ==> s.works[r].sequence == r + 1
  {
    ReachableInv(s);
    RunLater(s, run);
    Sequenced(s, Current(s.pc));
  }

  /** Between two dispatched members of one admission every dispatched work belongs to it. */
  lemma BatchesRunTogether(s: State, i: nat, j: nat, k: nat)
    requires Reachable(s) && i <= j <= k < |s.seen.dispatched|
    requires forall m :: 0 <= m < |s.seen.dispatched| ==> s.seen.dispatched[m] < |s.works|
    requires var first, last := s.works[s.seen.dispatched[i]], s.works[s.seen.dispatched[k]];
             first.job.Image? && last.job.Image? && first.job.group == last.job.group
    ensures var middle := s.works[s.seen.dispatched[j]];
            && middle.job.Image?
            && middle.job.group == s.works[s.seen.dispatched[i]].job.group
  {
    ReachableInv(s);
    var a, b, c := s.seen.dispatched[i], s.seen.dispatched[j], s.seen.dispatched[k];
    assert a <= b <= c;
    assert s.works[c].job.group == s.works[a].job.group <= a;
  }

  /** Removal by value takes off exactly the intended work, in every reachable state. */
  lemma RemovalByValueIsExact(s: State, r: nat)
    requires Reachable(s) && r < |s.works|
    ensures Allocated(s)
    ensures forall q :: q in RemoveQueued(s, r).queue <==> q in s.queue && q != r
    ensures RemoveQueued(s, r).works == s.works
  {
    ReachableInv(s);
    Sequenced(s, Current(s.pc));
    RemovedQueue(s, r);
    RemainingMembers(s.queue, r);
  }

  // ---------------------------------------------------------------- outcomes

  /** Whatever happens, an admitted image is queued and unanswered, in the dispatcher's hands, or
      has every future resolved; what is resolved stays as it is for the rest of any run. */
  lemma ImagesAreAnsweredOnce(s: State, r: nat, run: seq<Label>)
    requires Reachable(s) && r < |s.works| && s.works[r].job.Image?
    ensures var job := s.works[r].job;
            if r in s.queue then
              job.submitted.Pending? && Unsettled(job.completion) && Current(s.pc) != Some(r)
            else
              Current(s.pc) == Some(r) || (!job.submitted.Pending? && Settled(job.completion))
    ensures |After(s, run).works| >= |s.works| && Grew(s.works[r], After(s, run).works[r])
  {
    ReachableInv(s);
    RunLater(s, run);
    assert WorkOk(s.works[r], r, r in s.queue, Current(s.pc) == Some(r), r in s.seen.abandoned);
    if r in s.queue {
      var j :| 0 <= j < |s.queue| && s.queue[j] == r;
    }
  }

  /** A chat that no one will answer: not queued, not in hand, not given up by its caller. */
  predicate Lost(s: State, r: nat) {
    && r < |s.works| && s.works[r].job.Chat? && s.works[r].job.ready.Pending?
    && r !in s.queue && Current(s.pc) != Some(r) && !s.works[r].cancelled
  }

  /** A chat can only be lost by the drain loop's return during shutdown. */
  lemma LostOnlyWhileClosing(s: State, r: nat)
    requires Reachable(s) && Lost(s, r)
    ensures s.closing && s.cfg.Serialised() && r in s.seen.abandoned
  {
    ReachableInv(s);
    assert WorkOk(s.works[r], r, false, false, r in s.seen.abandoned);
  }

  ghost predicate NeverLoses(cfg: Config) {
    forall s, r :: Reachable(s) && s.cfg == cfg ==> !Lost(s, r)
  }

  lemma ChatStep(s: State, o: Outcome)
    requires Awake(s) && ServesChat(s.pc)
    ensures Step(s, LResume(o)) == ResumeChat(s, o)
  {
  }

  /** A client of the router's own interface holds a metadata lease before anything else happens. */
  lemma MetadataFirst(cfg: Config) returns (s: State)
    requires Accepted(cfg) && cfg.Serialised()
    ensures Reachable(s) && s == TakeMetadata(Initial(cfg, None, false))
  {
    var s0 := Initial(cfg, None, false);
    assert After(s0, []) == s0;
    assert Reachable(s0);
    s := TakeMetadata(s0);
    assert Step(s0, LControl(false)) == s;
    ReachableStep(s0, LControl(false));
  }

  /** Then a chat is queued, and taken off the queue. */
  lemma ChatIsTaken(cfg: Config) returns (s: State)
    requires Accepted(cfg) && cfg.Serialised()
    ensures Reachable(s) && s.cfg == cfg && s.pc == ChatEntry(0) && s.queue == []
    ensures s.works == [Work(1, false, Waiting, Chat(Pending, false, None))]
    ensures !s.closing && s.activeMetadata == 1 && Awake(s)
  {
    var s1 := MetadataFirst(cfg);
    var s2 := AdmitChat(s1, None);
    assert Step(s1, LAdmitChat(None)) == s2;
    ReachableStep(s1, LAdmitChat(None));
    assert s2.queue == [0];
    s := NextWork(s2);
    ReachableInv(s2);
    IdleStep(s2);
    ReachableStep(s2, LResume(Wake));
    assert s.queue == [0][1..];
  }

  /** The metadata lease keeps the chat in the drain loop. */
  lemma ChatWaitsForMetadata(cfg: Config) returns (s: State)
    requires Accepted(cfg) && cfg.Serialised()
    ensures Reachable(s) && s.cfg == cfg && s.pc == ChatDrain(0) && s.queue == []
    ensures s.works == [Work(1, false, Waiting, Chat(Pending, false, None))] && !s.closing
  {
    var s3 := ChatIsTaken(cfg);
    ChatStep(s3, Wake);
    ReachableStep(s3, LResume(Wake));
    s := ResumeChat(s3, Wake);
  }

  /** What a contended condition would allow: the wake-up comes after close() has begun and before it
      drains the queue. HandoffLoop shows that the condition is never contended. */
  lemma ClosingLosesAChat(cfg: Config) returns (s: State)
    requires Accepted(cfg) && cfg.Serialised()
    ensures Reachable(s) && s.cfg == cfg && Lost(s, 0)
  {
    var s4 := ChatWaitsForMetadata(cfg);
    ReachableInv(s4);
    var s5 := BeginClose(s4);
    assert Step(s4, LBeginClose) == s5;
    ReachableStep(s4, LBeginClose);
    s := ResumeChat(s5, Wake);
    ChatStep(s5, Wake);
    ReachableStep(s5, LResume(Wake));
  }

  /** Backends whose chats run side by side answer every chat even if acquiring the condition could
      suspend; the serialised ones would then drop one during shutdown. */
  lemma AnswersExactly(cfg: Config)
    requires Accepted(cfg)
    ensures NeverLoses(cfg) <==> !cfg.Serialised()
  {
    if cfg.Serialised() {
      var s := ClosingLosesAChat(cfg);
    } else {
      forall s, r | Reachable(s) && s.cfg == cfg
        ensures !Lost(s, r)
      {
        if Lost(s, r) {
          LostOnlyWhileClosing(s, r);
        }
      }
    }
  }

  /** Once the dispatcher has failed, or close() has drained, nothing waits and nothing is ever
      queued again. */
  lemma NothingIsQueuedAfterTheEnd(s: State, run: seq<Label>)
    requires Reachable(s) && (s.fatal.Some? || s.closer == Drained)
    ensures s.queue == []
    ensures After(s, run).queue == []
  {
    ReachableInv(s);
    EndStays(s, run);
  }

  predicate Ended(s: State) {
    s.fatal.Some? || s.closer == Drained
  }

  lemma {:induction false} EndStays(s: State, run: seq<Label>)
    requires Inv(s) && Ended(s)
    ensures Ended(After(s, run)) && After(s, run).queue == []
  {
    if run != [] {
      var t := After(s, run[..|run| - 1]);
      EndStays(s, run[..|run| - 1]);
      RunKeeps(s, run[..|run| - 1]);
      RunKeeps(s, run);
      StepLater(t, run[|run| - 1]);
      if t.fatal.Some? {
        FatalStays(t, run[|run| - 1]);
      }
    }
  }

  lemma FatalStays(s: State, l: Label)
    requires Inv(s) && s.fatal.Some?
    ensures Step(s, l).fatal == s.fatal
  {
    Sequenced(s, Current(s.pc));
    if Enabled(s, l) {
      if l.LLeaveChat? {
        var r := l.r;
        assert WorkOk(s.works[r], r, r in s.queue, false, r in s.seen.abandoned);
        LeaveChatFrame(s, r);
      } else if l.LLeaveImage? && !l.completed {
        CancelImageFrame(s, l.r, ImageCancelled);
      } else if l.LLeaveBatch? {
        var batch := s.seen.batches[l.b];
        BatchClosed(s, l.b);
        LeaveBatchBooks(s.(seen := s.seen.(batches := s.seen.batches[l.b := batch.(open := false)])),
                        batch.first, batch.count, Current(s.pc));
      } else if l.LDrainClose? {
        FailQueuedFrame(s, BrokerClosing);
      }
    }
  }
}
