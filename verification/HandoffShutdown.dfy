/** Shutdown when nothing can come between its sections: close() finds the condition free, and the
    dispatcher continues only with its cancellation. HandoffLoop derives both from the event loop. */
module HandoffShutdown {
  import opened Basics
  import opened Handoff
  import opened HandoffInvariant
  import opened HandoffClients
  import opened HandoffSteps
  import opened HandoffTheorems

  datatype Move = Take(l: Label) | Shutdown

  /** Once the cancellation is requested the dispatcher takes no other step, until it has been
      delivered. */
  predicate Allowed(s: State, l: Label) {
    && !l.LBeginClose? && !l.LDrainClose?
    && (l.LResume? || l.LCrash? ==> s.closer != Drained || s.pc.Interrupting? || s.pc.MarkingFatal?)
  }

  function Make(s: State, m: Move): State {
    match m
    case Take(l) => if Allowed(s, l) then Step(s, l) else s
    case Shutdown => Step(Step(s, LBeginClose), LDrainClose)
  }

  function AfterMoves(s: State, moves: seq<Move>): State {
    if moves == [] then s else Make(AfterMoves(s, moves[..|moves| - 1]), moves[|moves| - 1])
  }

  /** These runs are runs of the protocol. */
  lemma {:induction false} MovesAreRuns(s: State, moves: seq<Move>) returns (run: seq<Label>)
    ensures AfterMoves(s, moves) == After(s, run)
    decreases |moves|
  {
    run := [];
    if moves != [] {
      run := MovesAreRuns(s, moves[..|moves| - 1]);
      var m := moves[|moves| - 1];
      if m.Shutdown? {
        assert (run + [LBeginClose])[..|run|] == run;
        var longer := run + [LBeginClose];
        assert (longer + [LDrainClose])[..|longer|] == longer;
        run := longer + [LDrainClose];
      } else if Allowed(After(s, run), m.l) {
        assert (run + [m.l])[..|run|] == run;
        run := run + [m.l];
      }
    }
  }

  // ---------------------------------------------------------------- no chat is dropped

  predicate Calm(s: State) {
    && Inv(s) && s.seen.abandoned == {} && (s.closing ==> s.closer == Drained)
  }

  /** Nothing is dropped, and shutdown does not move on. */
  predicate Stays(s: State, t: State) {
    t.seen.abandoned == s.seen.abandoned && t.closing == s.closing && t.closer == s.closer
  }

  /** The dispatcher and its knowledge of the backend are left alone. */
  predicate HandsOff(s: State, t: State) {
    t.pc == s.pc && t.recoverable == s.recoverable && t.restorePoint == s.restorePoint && t.cfg == s.cfg
  }

  lemma DecideStays(s: State, r: nat)
    requires r < |s.works| && s.works[r].job.Chat?
    ensures Stays(s, Decide(s, r)) && Stays(s, BeginReload(s, r)) && Stays(s, Reload(s, r))
    ensures Stays(s, DrainChats(s, r))
    ensures !s.closing ==> Stays(s, ResumeDrainChats(s, r))
  {
  }

  lemma RefuseStays(s: State, r: nat, reason: Reason, o: Outcome)
    requires r < |s.works|
    ensures Stays(s, RefuseChat(s, r)) && Stays(s, RestoreFailed(s, r, reason)) && Stays(s, Stumble(s, r, o))
    ensures Stays(s, ImageFailed(s, r))
  {
  }

  lemma GrantStays(s: State, r: nat)
    requires r < |s.works| && s.works[r].job.Chat?
    ensures Stays(s, Grant(s, r))
  {
  }

  lemma ReloadingStays(s: State, o: Outcome)
    requires Awake(s) && Reloads(s.pc)
    ensures Stays(s, ResumeChat(s, o))
  {
    RefuseStays(s, s.pc.r, NotReady, o);
    if s.pc.RestoreValidating? {
      DecideStays(s.(controlValidated := true), s.pc.r);
    }
  }

  predicate Reloads(pc: Pc) {
    || pc.RestoreValidating? || pc.AcquiringTarget? || pc.RouterReleasing? || pc.RouterAcquiring?
    || pc.RestoreObserving? || pc.Acquiring?
  }

  lemma ChatStays(s: State, o: Outcome)
    requires Awake(s) && ServesChat(s.pc) && !s.closing
    ensures Stays(s, ResumeChat(s, o))
  {
    var r := s.pc.r;
    if Reloads(s.pc) {
      ReloadingStays(s, o);
    } else if s.pc.Granting? {
      GrantStays(s, r);
    } else if s.pc.RestoreMarking? {
      RefuseStays(MarkRecoverable(s, s.pc.reason), r, NotReady, o);
    } else if s.pc.Freeing? {
      DecideStays(s.(seen := s.seen.(dirty := false)), r);
      RefuseStays(s, r, CleanupUnconfirmed, o);
    } else {
      DecideStays(s, r);
      RefuseStays(s, r, CleanupUnconfirmed, o);
    }
  }

  lemma SubmitStays(s: State, r: nat)
    requires r < |s.works| && s.works[r].job.Image?
    ensures Stays(s, Submit(s, r)) && Stays(s, DispatchImage(s, r)) && Stays(s, GiveToComfy(s, r))
    ensures Stays(s, ReleaseOwner(s, r))
  {
    RefuseStays(s.(owner := UNKNOWN, phase := UnloadingLlm), r, NotReady, Wake);
  }

  lemma DrainForImageStays(s: State, r: nat)
    requires r < |s.works| && s.works[r].job.Image?
    ensures Stays(s, Activated(s, r)) && Stays(s, Activate(s, r)) && Stays(s, DrainForImage(s, r))
  {
    SubmitStays(s, r);
  }

  lemma SubmittedStays(s: State, r: nat, rejected: bool, prompt: bool)
    requires r < |s.works| && s.works[r].job.Image?
    ensures Stays(s, Submitted(s, r, rejected, prompt)) && Stays(s, Forgotten(s, r)) && Stays(s, PromptDone(s, r))
  {
    RefuseStays(Forgotten(s, r), r, NotReady, Wake);
  }

  lemma ImageStays(s: State, o: Outcome)
    requires Awake(s) && Current(s.pc).Some? && !ServesChat(s.pc)
    ensures Stays(s, ResumeImage(s, o))
  {
    var r := s.pc.r;
    RefuseStays(s, r, NotReady, o);
    if s.pc.DrainEntry? || s.pc.Draining? {
      DrainForImageStays(s, r);
      DrainForImageStays(s.(phase := DrainingLlm), r);
    } else if s.pc.Submitting? || s.pc.AwaitingPrompt? {
      ComfyStays(s, o);
    } else {
      ActivationStays(s, o);
    }
  }

  lemma ComfyStays(s: State, o: Outcome)
    requires Awake(s) && (s.pc.Submitting? || s.pc.AwaitingPrompt?)
    ensures Stays(s, ResumeImage(s, o))
  {
    var r := s.pc.r;
    RefuseStays(s, r, NotReady, o);
    RefuseStays(Forgotten(s, r), r, NotReady, o);
    if o.Responded? {
      SubmittedStays(s, r, o.rejected, o.prompt);
    } else {
      SubmittedStays(s, r, false, false);
    }
  }

  lemma ActivationStays(s: State, o: Outcome)
    requires Awake(s) && Current(s.pc).Some? && !ServesChat(s.pc)
    requires !s.pc.DrainEntry? && !s.pc.Draining? && !s.pc.Submitting? && !s.pc.AwaitingPrompt?
    ensures Stays(s, ResumeImage(s, o))
  {
    var r := s.pc.r;
    RefuseStays(s, r, NotReady, o);
    if s.pc.ActivateValidating? {
      DrainForImageStays(s.(controlValidated := true), r);
    } else if s.pc.Releasing? {
      SubmitStays(s.(seen := s.seen.(held := false)), r);
    } else if s.pc.ActivateObserving? && o.Gave? && o.point.Some? {
      SubmitStays(s.(restorePoint := o.point, owner := LLM, seen := s.seen.(held := true)), r);
    } else if s.pc.ActivateObserving? {
      SubmitStays(s.(seen := s.seen.(held := false)), r);
    }
  }

  lemma NextStays(s: State)
    requires Allocated(s)
    ensures Stays(s, NextWork(s))
  {
    if !Refuses(s) && s.queue != [] {
      var r := s.queue[0];
      var s1 := ReleaseAccounting(
        s.(queue := s.queue[1..], seen := s.seen.(dispatched := s.seen.dispatched + [r])), s.works[r]);
      if s1.works[r].job.Chat? {
        DecideStays(s1, r);
      } else {
        SubmitStays(s1, r);
      }
    }
  }

  lemma ResumeStays(s: State, o: Outcome)
    requires Inv(s) && Awake(s) && (s.closing ==> !ServesChat(s.pc))
    ensures Stays(s, Resume(s, o))
  {
    if ServesChat(s.pc) {
      ChatStays(s, o);
    } else if Current(s.pc).Some? {
      ImageStays(s, o);
    } else if s.pc.Idle? {
      NextStays(s);
    } else if s.pc.MarkingFatal? {
      FailQueuedFrame(s.(fatal := Some(DispatcherFailed), phase := Error), DispatcherFailed);
    }
  }

  lemma LeaveBatchStays(s: State, b: nat)
    requires Inv(s) && OpenBatch(s, b)
    ensures Stays(s, Step(s, LLeaveBatch(b))) && HandsOff(s, Step(s, LLeaveBatch(b)))
  {
    var batch := s.seen.batches[b];
    BatchClosed(s, b);
    LeftBatchStays(s.(seen := s.seen.(batches := s.seen.batches[b := batch.(open := false)])),
                   batch.first, batch.count);
  }

  lemma LeftBatchStays(s: State, first: nat, count: nat)
    requires Inv(s) && Members(s, first, count)
    ensures Stays(s, LeaveBatch(s, first, count)) && HandsOff(s, LeaveBatch(s, first, count))
  {
    LeaveBatchBooks(s, first, count, Current(s.pc));
  }

  lemma LeaveChatStays(s: State, r: nat)
    requires Inv(s) && OpenChat(s, r)
    ensures Stays(s, LeaveChat(s, r)) && HandsOff(s, LeaveChat(s, r))
  {
    Sequenced(s, Current(s.pc));
    assert WorkOk(s.works[r], r, r in s.queue, Current(s.pc) == Some(r), r in s.seen.abandoned);
    LeaveChatFrame(s, r);
  }

  lemma QueueStays(s: State, l: Label)
    requires Inv(s) && Enabled(s, l) && Queues(l)
    ensures Stays(s, Step(s, l)) && HandsOff(s, Step(s, l))
  {
    if l.LLeaveChat? {
      LeaveChatStays(s, l.r);
    } else if l.LLeaveImage? {
      LeaveImageStays(s, l.r, l.completed);
    } else if l.LLeaveBatch? {
      LeaveBatchStays(s, l.b);
    } else {
      EnterStays(s, l);
    }
  }

  lemma LeaveImageStays(s: State, r: nat, completed: bool)
    requires Inv(s) && OpenImage(s, r)
    ensures Stays(s, LeaveImage(s, r, completed)) && HandsOff(s, LeaveImage(s, r, completed))
  {
    Sequenced(s, Current(s.pc));
    CancelImageFrame(s, r, ImageCancelled);
  }

  lemma EnterStays(s: State, l: Label)
    requires Enabled(s, l) && Queues(l) && !l.LLeaveChat? && !l.LLeaveImage? && !l.LLeaveBatch?
    ensures Stays(s, Step(s, l)) && HandsOff(s, Step(s, l))
  {
    if l.LSubmitImage? {
      AppendImagesFrame(s, [l.size], if l.notifies then Some(Pending) else None, |s.works|);
    } else if l.LSubmitBatch? {
      AppendImagesFrame(s, l.sizes, Some(Pending), |s.works|);
    }
  }

  lemma TakeStays(s: State, l: Label)
    requires Calm(s) && Allowed(s, l)
    ensures Calm(Step(s, l)) && Stays(s, Step(s, l))
  {
    StepKeeps(s, l);
    if Enabled(s, l) {
      if l.LResume? {
        ResumeStays(s, l.outcome);
      } else if Queues(l) {
        QueueStays(s, l);
      }
    }
  }

  lemma ShutdownStays(s: State)
    requires Calm(s)
    ensures Calm(Step(Step(s, LBeginClose), LDrainClose))
  {
    StepKeeps(s, LBeginClose);
    BeginStays(s);
    DrainEnds(Step(s, LBeginClose));
  }

  lemma DrainEnds(t: State)
    requires Inv(t) && t.seen.abandoned == {}
    requires t.closing ==> t.closer == Begun || t.closer == Drained
    ensures Calm(Step(t, LDrainClose))
  {
    if t.closer == Begun {
      DrainStays(t);
    }
  }

  lemma BeginStays(s: State)
    requires Calm(s)
    ensures var t := Step(s, LBeginClose);
            && t.seen == s.seen && (t.closing ==> t.closer == Begun || t.closer == Drained)
  {
  }

  lemma DrainStays(t: State)
    requires Inv(t) && t.closer == Begun && t.seen.abandoned == {}
    ensures Calm(Step(t, LDrainClose))
  {
    StepKeeps(t, LDrainClose);
    FailQueuedFrame(t, BrokerClosing);
  }

  lemma {:induction false} MovesStayCalm(cfg: Config, snapshot: Option<Point>, held: bool, moves: seq<Move>)
    ensures Calm(AfterMoves(Initial(cfg, snapshot, held), moves))
    decreases |moves|
  {
    var s := Initial(cfg, snapshot, held);
    if moves == [] {
      InitialHolds(cfg, snapshot, held);
    } else {
      MovesStayCalm(cfg, snapshot, held, moves[..|moves| - 1]);
      var t, m := AfterMoves(s, moves[..|moves| - 1]), moves[|moves| - 1];
      if m.Shutdown? {
        ShutdownStays(t);
      } else if Allowed(t, m.l) {
        TakeStays(t, m.l);
      }
    }
  }

  /** With an uninterrupted shutdown every chat of every backend is answered, queued, in the
      dispatcher's hands or given up by its caller, in every state of every run. */
  lemma UninterruptedShutdownAnswersAll(cfg: Config, snapshot: Option<Point>, held: bool, moves: seq<Move>, r: nat)
    ensures !Lost(AfterMoves(Initial(cfg, snapshot, held), moves), r)
  {
    var s := AfterMoves(Initial(cfg, snapshot, held), moves);
    MovesStayCalm(cfg, snapshot, held, moves);
    if Lost(s, r) {
      LostWasDropped(s, r);
    }
  }

  lemma LostWasDropped(s: State, r: nat)
    requires Inv(s) && Lost(s, r)
    ensures r in s.seen.abandoned
  {
    assert WorkOk(s.works[r], r, false, false, r in s.seen.abandoned);
  }
}
