/** What a run can never undo: settled futures, departed callers and the dispatch order. */
module HandoffHistory {
  import opened Basics
  import opened Handoff
  import opened HandoffInvariant
  import opened HandoffBooks
  import opened HandoffClients
  import opened HandoffSteps

  /** What only grows: the ledger, and the list of works taken off the queue. */
  predicate Later(s: State, t: State) {
    && s.cfg == t.cfg
    && Evolves(s.works, t.works)
    && s.seen.dispatched <= t.seen.dispatched
    && (s.closing ==> t.closing)
    && (s.closer == Drained ==> t.closer == Drained)
  }

  lemma LaterTransitive(a: State, b: State, c: State)
    requires Later(a, b) && Later(b, c)
    ensures Later(a, c)
  {
    EvolvesTransitive(a.works, b.works, c.works);
  }

  /** Later, with no work admitted in between. */
  predicate Handled(s: State, t: State) {
    Later(s, t) && |s.works| == |t.works|
  }

  lemma HandledTransitive(a: State, b: State, c: State)
    requires Handled(a, b) && Handled(b, c)
    ensures Handled(a, c)
  {
    LaterTransitive(a, b, c);
  }

  predicate SameHistory(s: State, t: State) {
    s.cfg == t.cfg && s.works == t.works && s.seen.dispatched == t.seen.dispatched
    && s.closing == t.closing && s.closer == t.closer
  }

  lemma ResolveLater(s: State, r: nat, reason: Reason)
    requires r < |s.works|
    ensures Handled(s, Resolve(s, r, reason))
  {
    AnsweredGrew(s.works[r], reason);
  }

  lemma DecideLater(s: State, r: nat)
    requires r < |s.works| && s.works[r].job.Chat?
    ensures SameHistory(s, Decide(s, r)) && SameHistory(s, BeginReload(s, r))
    ensures SameHistory(s, Reload(s, r)) && SameHistory(s, DrainChats(s, r))
    ensures SameHistory(s, ResumeDrainChats(s, r))
  {
    ReloadLater(s, r);
    ReloadLater(s.(owner := UNKNOWN), r);
  }

  lemma ReloadLater(s: State, r: nat)
    requires r < |s.works| && s.works[r].job.Chat?
    ensures SameHistory(s, Reload(s, r))
  {
  }

  lemma RefuseLater(s: State, r: nat, reason: Reason, o: Outcome)
    requires r < |s.works|
    ensures Handled(s, RefuseChat(s, r)) && Handled(s, RestoreFailed(s, r, reason))
    ensures Handled(s, Stumble(s, r, o))
  {
    ResolveLater(s, r, if s.fatal.Some? then s.fatal.value
                       else if s.recoverable.Some? then s.recoverable.value
                       else NotReady);
  }

  lemma GrantLater(s: State, r: nat)
    requires r < |s.works| && s.works[r].job.Chat?
    ensures Handled(s, Grant(s, r))
  {
    var w := s.works[r];
    PutEvolves(s.works, r, w.(job := w.job.(granted := true, ready := Settle(w.job.ready, Value))));
    AnsweredGrew(w, BrokerClosing);
    if s.fatal.Some? {
      AnsweredGrew(w, s.fatal.value);
    }
  }

  lemma ResumeChatLater(s: State, o: Outcome)
    requires Awake(s) && ServesChat(s.pc)
    ensures Handled(s, ResumeChat(s, o))
  {
    var r := s.pc.r;
    if s.pc.ChatEntry? || s.pc.ChatDrain? {
      DecideLater(s, r);
    } else if s.pc.Granting? {
      GrantLater(s, r);
    } else if s.pc.RestoreMarking? {
      RefuseLater(MarkRecoverable(s, s.pc.reason), r, NotReady, o);
    } else if s.pc.ControlEntry? || s.pc.ControlDrain? {
      RefuseLater(s, r, CleanupUnconfirmed, o);
    } else {
      PrepareLater(s, o);
    }
  }

  lemma PrepareLater(s: State, o: Outcome)
    requires Awake(s)
    requires || s.pc.Freeing? || s.pc.RestoreValidating? || s.pc.AcquiringTarget?
             || s.pc.RouterReleasing? || s.pc.RouterAcquiring? || s.pc.RestoreObserving?
             || s.pc.Acquiring?
    ensures Handled(s, ResumeChat(s, o))
  {
    var r := s.pc.r;
    RefuseLater(s, r, CleanupUnconfirmed, o);
    if s.pc.Freeing? {
      DecideLater(s.(seen := s.seen.(dirty := false)), r);
    } else if s.pc.RestoreValidating? {
      DecideLater(s.(controlValidated := true), r);
    }
  }

  lemma ImageFailedLater(s: State, r: nat)
    requires r < |s.works|
    ensures Handled(s, ImageFailed(s, r))
  {
    AnsweredGrew(s.works[r], HandoffFailed);
  }

  lemma SubmitLater(s: State, r: nat)
    requires r < |s.works| && s.works[r].job.Image?
    ensures Handled(s, Submit(s, r)) && Handled(s, GiveToComfy(s, r))
  {
    AnsweredGrew(s.works[r], ImageCancelled);
  }

  lemma ReleaseOwnerLater(s: State, r: nat)
    requires r < |s.works| && s.works[r].job.Image?
    ensures Handled(s, ReleaseOwner(s, r))
  {
    SubmitLater(s, r);
    ImageFailedLater(s.(owner := UNKNOWN, phase := UnloadingLlm), r);
  }

  lemma DrainForImageLater(s: State, r: nat)
    requires r < |s.works| && s.works[r].job.Image?
    ensures Handled(s, DrainForImage(s, r))
  {
    AnsweredGrew(s.works[r], ImageCancelled);
    ReleaseOwnerLater(s, r);
  }

  lemma SubmittedLater(s: State, r: nat, rejected: bool, prompt: bool)
    requires r < |s.works| && s.works[r].job.Image?
    ensures Handled(s, Submitted(s, r, rejected, prompt)) && Handled(s, Forgotten(s, r))
  {
    var w := s.works[r];
    var u := w.(job := w.job.(bytes := 0));
    var v := u.(job := u.job.(submitted := Settle(u.job.submitted, Value)));
    PutEvolves(s.works, r, u);
    PutEvolves(s.works, r, v);
    assert s.works[r := u][r := v] == s.works[r := v];
    var s1 := Put(s, r, v);
    ImageFailedLater(s1, r);
    HandledTransitive(s, s1, ImageFailed(s1, r));
  }

  lemma PromptDoneLater(s: State, r: nat)
    requires r < |s.works| && s.works[r].job.Image?
    ensures Handled(s, PromptDone(s, r))
  {
    var w := s.works[r];
    PutEvolves(s.works, r, w.(job := w.job.(completion := Notify(w.job.completion, Value))));
  }

  lemma ActivateObservingLater(s: State, o: Outcome)
    requires Awake(s) && s.pc.ActivateObserving?
    ensures Handled(s, ResumeImage(s, o))
  {
    var r := s.pc.r;
    if o.Gave? && o.point.Some? {
      ReleaseOwnerLater(s.(restorePoint := o.point, owner := LLM,
                           seen := s.seen.(held := true)), r);
    } else if o.Gave? {
      ReleaseOwnerLater(s.(seen := s.seen.(held := false)), r);
    } else {
      ImageFailedLater(s, r);
    }
  }

  lemma SubmittingLater(s: State, o: Outcome)
    requires Awake(s) && s.pc.Submitting?
    ensures Handled(s, ResumeImage(s, o))
  {
    var r := s.pc.r;
    if o.Responded? {
      SubmittedLater(s, r, o.rejected, o.prompt);
    } else if o.Raised? {
      SubmittedLater(s, r, false, false);
      ImageFailedLater(Forgotten(s, r), r);
      HandledTransitive(s, Forgotten(s, r), ImageFailed(Forgotten(s, r), r));
    }
  }

  lemma ResumeImageLater(s: State, o: Outcome)
    requires Awake(s) && Current(s.pc).Some? && !ServesChat(s.pc)
    ensures Handled(s, ResumeImage(s, o))
  {
    var r := s.pc.r;
    if s.pc.ActivateObserving? {
      ActivateObservingLater(s, o);
    } else if s.pc.Submitting? {
      SubmittingLater(s, o);
    } else if s.pc.DrainEntry? || s.pc.Draining? {
      DrainingLater(s, o);
    } else if s.pc.Interrupting? {
      ResolveLater(s, r, BrokerClosing);
      ResolveLater(s, r, DispatcherFailed);
    } else if s.pc.ImageMarking? {
      ResolveLater(MarkRecoverable(s, OwnershipUnconfirmed), r, HandoffFailed);
    } else {
      ImageCallLater(s, o);
    }
  }

  lemma DrainingLater(s: State, o: Outcome)
    requires Awake(s) && (s.pc.DrainEntry? || s.pc.Draining?)
    ensures Handled(s, ResumeImage(s, o))
  {
    DrainForImageLater(s.(phase := DrainingLlm), s.pc.r);
    DrainForImageLater(s, s.pc.r);
    ImageFailedLater(s, s.pc.r);
  }

  lemma ImageCallLater(s: State, o: Outcome)
    requires Awake(s)
    requires || s.pc.Releasing? || s.pc.AwaitingPrompt? || s.pc.ActivateValidating?
             || s.pc.ActivateAcquiring?
    ensures Handled(s, ResumeImage(s, o))
  {
    var r := s.pc.r;
    if o.Raised? {
      ImageFailedLater(s, r);
    } else if s.pc.Releasing? {
      if o.Returned? {
        SubmitLater(s.(seen := s.seen.(held := false)), r);
      }
    } else if s.pc.AwaitingPrompt? {
      PromptDoneLater(s, r);
    } else {
      ActivationLater(s, o);
    }
  }

  lemma ActivationLater(s: State, o: Outcome)
    requires Awake(s) && (s.pc.ActivateValidating? || s.pc.ActivateAcquiring?) && !o.Raised?
    ensures SameHistory(s, ResumeImage(s, o))
  {
  }

  lemma NextWorkLater(s: State)
    requires Allocated(s)
    ensures Handled(s, NextWork(s))
  {
    if !Refuses(s) && s.queue != [] {
      var r := s.queue[0];
      var s1 := ReleaseAccounting(
        s.(queue := s.queue[1..], seen := s.seen.(dispatched := s.seen.dispatched + [r])),
        s.works[r]);
      if s1.works[r].job.Chat? {
        DecideLater(s1, r);
      } else {
        AnsweredGrew(s1.works[r], ImageCancelled);
        SubmitLater(s1, r);
      }
    }
  }

  lemma EndLater(s: State)
    requires Awake(s)
    ensures Handled(s, Cancel(s)) && Handled(s, Crash(s))
  {
    if Current(s.pc).Some? {
      ResolveLater(s, s.pc.r, BrokerClosing);
      ResolveLater(s, s.pc.r, DispatcherFailed);
    }
  }

  lemma ResumeLater(s: State, o: Outcome)
    requires Awake(s)
    ensures Handled(s, Resume(s, o))
  {
    if ServesChat(s.pc) {
      ResumeChatLater(s, o);
    } else if Current(s.pc).Some? {
      ResumeImageLater(s, o);
    } else if s.pc.Idle? {
      NextWorkLater(s);
    } else if s.pc.MarkingFatal? {
      FailQueuedFrame(s.(fatal := Some(DispatcherFailed), phase := Error), DispatcherFailed);
    }
  }

  lemma AdmissionLater(s: State, sizes: seq<nat>, completion: Option<Future>)
    ensures Later(s, AppendImages(s, sizes, completion, |s.works|))
  {
    AppendImagesIs(s, sizes, completion, |s.works|);
    AppendImagesFrame(s, sizes, completion, |s.works|);
  }

  lemma LeaveChatLater(s: State, r: nat)
    requires Numbered(s) && OpenChat(s, r)
    requires r in s.queue ==> s.works[r].caller.Waiting?
    ensures Handled(s, LeaveChat(s, r))
  {
    LeaveChatFrame(s, r);
    PutEvolves(s.works, r, LeftChat(s.works[r]));
  }

  lemma LeaveBatchLater(s: State, b: nat)
    requires Inv(s) && OpenBatch(s, b)
    ensures Handled(s, Step(s, LLeaveBatch(b)))
  {
    var batch := s.seen.batches[b];
    BatchClosed(s, b);
    LeftBatchHandled(s.(seen := s.seen.(batches := s.seen.batches[b := batch.(open := false)])),
                     batch.first, batch.count);
  }

  lemma LeftBatchHandled(s: State, first: nat, count: nat)
    requires Inv(s) && Members(s, first, count)
    ensures Handled(s, LeaveBatch(s, first, count))
  {
    LeaveBatchBooks(s, first, count, Current(s.pc));
    LeaveBatchLength(s, first, count);
  }

  lemma LeaveImageLater(s: State, r: nat, completed: bool)
    requires Numbered(s) && r < |s.works| && s.works[r].job.Image?
    ensures Handled(s, LeaveImage(s, r, completed))
  {
    var s1 := if completed then s else CancelImage(s, r, ImageCancelled);
    CancelImageFrame(s, r, ImageCancelled);
    PutEvolves(s1.works, r, s1.works[r].(caller := Left));
    HandledTransitive(s, s1, LeaveImage(s, r, completed));
  }

  predicate Admits(l: Label) {
    l.LAdmitChat? || l.LSubmitImage? || l.LSubmitBatch?
  }

  /** Only admissions lengthen the ledger. */
  lemma StepHandles(s: State, l: Label)
    requires Inv(s) && !Admits(l)
    ensures Handled(s, Step(s, l))
  {
    if Enabled(s, l) {
      if l.LLeaveImage? {
        Sequenced(s, Current(s.pc));
        LeaveImageLater(s, l.r, l.completed);
      } else if l.LLeaveBatch? {
        LeaveBatchLater(s, l.b);
      } else if l.LLeaveChat? || l.LEnterChat? {
        LeaseHandles(s, l);
      } else if l.LResume? {
        ResumeLater(s, l.outcome);
      } else {
        RestHandles(s, l);
      }
    }
  }

  lemma RestHandles(s: State, l: Label)
    requires Inv(s) && Enabled(s, l) && !Admits(l) && !l.LResume?
    requires !l.LLeaveImage? && !l.LLeaveBatch? && !l.LLeaveChat? && !l.LEnterChat?
    ensures Handled(s, Step(s, l))
  {
    if l.LDrainClose? {
      FailQueuedFrame(s, BrokerClosing);
    } else {
      EndLater(s);
    }
  }

  lemma LeaseHandles(s: State, l: Label)
    requires Inv(s) && Enabled(s, l) && (l.LLeaveChat? || l.LEnterChat?)
    ensures Handled(s, Step(s, l))
  {
    if l.LLeaveChat? {
      var r := l.r;
      Sequenced(s, Current(s.pc));
      assert WorkOk(s.works[r], r, r in s.queue, Current(s.pc) == Some(r), r in s.seen.abandoned);
      LeaveChatLater(s, r);
    }
  }

  /** Every step leads to a later state, and an admission appends exactly its own works. */
  lemma StepLater(s: State, l: Label)
    requires Inv(s)
    ensures Later(s, Step(s, l))
    ensures forall r :: |s.works| <= r < |Step(s, l).works| ==>
              && Admits(l)
              && (Step(s, l).works[r].job.Chat? ==>
                    l.LAdmitChat? && Step(s, l).works[r].job.target == l.target)
  {
    if Admits(l) {
      if Enabled(s, l) && l.LSubmitImage? {
        AdmissionLater(s, [l.size], if l.notifies then Some(Pending) else None);
        AppendImagesIs(s, [l.size], if l.notifies then Some(Pending) else None, |s.works|);
      } else if Enabled(s, l) && l.LSubmitBatch? {
        AdmissionLater(s, l.sizes, Some(Pending));
        AppendImagesIs(s, l.sizes, Some(Pending), |s.works|);
      }
    } else {
      StepHandles(s, l);
    }
  }

  /** Futures are resolved at most once, callers never come back, and the dispatch order is only
      ever extended, over every run. */
  lemma {:induction false} RunLater(s: State, run: seq<Label>)
    requires Inv(s)
    ensures Later(s, After(s, run))
  {
    if run != [] {
      var t := After(s, run[..|run| - 1]);
      RunLater(s, run[..|run| - 1]);
      RunKeeps(s, run[..|run| - 1]);
      StepLater(t, run[|run| - 1]);
      LaterTransitive(s, t, After(s, run));
    }
  }
}
