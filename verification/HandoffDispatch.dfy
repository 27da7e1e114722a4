/** Every dispatcher section keeps the invariant. */
module HandoffDispatch {
  import opened Basics
  import opened Handoff
  import opened HandoffInvariant
  import opened HandoffBooks

  /** Between two suspension points: the invariant of a running dispatcher that holds work r,
      whatever its recorded suspension point. */
  predicate Mid(s: State, r: nat) {
    && r < |s.works|
    && BooksFor(s, Some(r))
    && Ownership(s)
    && (s.closing <==> s.closer != Open)
    && (s.closer == Drained ==> s.queue == [])
    && s.fatal.None?
  }

  predicate MidChat(s: State, r: nat) {
    Mid(s, r) && s.works[r].job.Chat?
  }

  predicate MidImage(s: State, r: nat) {
    Mid(s, r) && s.works[r].job.Image?
  }

  // ---------------------------------------------------------------- chats

  lemma AnswerKeeps(s: State, r: nat, reason: Reason, pc: Pc)
    requires Mid(s, r)
    requires pc.Idle? || pc.MarkingFatal? || (pc.Dead? && s.closing)
    ensures Inv(Resolve(s, r, reason).(pc := pc))
  {
    ResolveCurrent(s, r, reason);
  }

  lemma RestoreFailedKeeps(s: State, r: nat, reason: Reason)
    requires MidChat(s, r) && s.activeChats == 0 && Neutral(s.phase)
    requires !s.cfg.Serialised() ==> s.owner != LLM
    ensures Inv(RestoreFailed(s, r, reason))
  {
    if s.closing {
      RefuseKeeps(s, r);
    } else {
      BooksSame(s, RestoreFailed(s, r, reason), Some(r));
    }
  }

  lemma RefuseKeeps(s: State, r: nat)
    requires MidChat(s, r)
    ensures Inv(RefuseChat(s, r))
  {
    AnswerKeeps(s, r, if s.recoverable.Some? then s.recoverable.value else NotReady, Idle);
  }

  lemma ReloadSavedKeeps(s: State, r: nat)
    requires MidChat(s, r) && Preparing(s) && Neutral(s.phase) && s.owner == UNKNOWN
    requires s.works[r].job.target.None?
    requires !s.cfg.router
    ensures Inv(ReloadSaved(s, r))
  {
    BooksSame(s, ReloadSaved(s, r), Some(r));
  }

  lemma ReloadKeeps(s: State, r: nat)
    requires MidChat(s, r) && Preparing(s) && Neutral(s.phase) && s.owner == UNKNOWN
    ensures Inv(Reload(s, r))
  {
    if s.works[r].job.target.Some? {
      ReloadTargetKeeps(s, r);
    } else if s.cfg.router {
      ReloadRouterKeeps(s, r);
    } else if && s.restorePoint.None? && s.cfg.Observes()
              && !(s.cfg.kind.TabbyApi? && s.recoverable.Some?) {
      ReloadObservedKeeps(s, r);
    } else {
      ReloadSavedKeeps(s, r);
    }
  }

  lemma ReloadRouterKeeps(s: State, r: nat)
    requires MidChat(s, r) && Preparing(s) && Neutral(s.phase) && s.owner == UNKNOWN
    requires s.cfg.router
    requires s.works[r].job.target.None?
    ensures Inv(StartAcquire(s, RouterAcquiring(r)))
    ensures s.restorePoint.Some? ==> Inv(s.(pc := RouterReleasing(r)))
  {
    BooksSame(s, StartAcquire(s, RouterAcquiring(r)), Some(r));
    BooksSame(s, s.(pc := RouterReleasing(r)), Some(r));
  }

  lemma ReloadObservedKeeps(s: State, r: nat)
    requires MidChat(s, r) && Preparing(s) && Neutral(s.phase) && s.owner == UNKNOWN
    requires s.works[r].job.target.None?
    requires !s.cfg.router
    ensures Inv(s.(pc := RestoreObserving(r)))
  {
    BooksSame(s, s.(pc := RestoreObserving(r)), Some(r));
  }

  lemma ReloadTargetKeeps(s: State, r: nat)
    requires MidChat(s, r) && Preparing(s) && Neutral(s.phase) && s.owner == UNKNOWN
    requires s.works[r].job.target.Some?
    ensures Inv(StartAcquire(s.(phase := ReloadingLlm), AcquiringTarget(r)))
  {
    assert s.cfg.Targeted();
    BooksSame(s, StartAcquire(s.(phase := ReloadingLlm), AcquiringTarget(r)), Some(r));
  }

  lemma BeginReloadKeeps(s: State, r: nat)
    requires MidChat(s, r) && Preparing(s) && Neutral(s.phase) && !s.seen.dirty
    ensures Inv(BeginReload(s, r))
  {
    var s1 := s.(owner := UNKNOWN);
    BooksSame(s, s1, Some(r));
    if s1.controlValidated {
      ReloadKeeps(s1, r);
    } else {
      BooksSame(s, BeginReload(s, r), Some(r));
    }
  }

  lemma DecideKeeps(s: State, r: nat)
    requires MidChat(s, r)
    requires if s.cfg.Serialised() then Quiet(s) else !s.closing
    ensures Inv(Decide(s, r))
  {
    var target := s.works[r].job.target;
    if !Suits(s, target) && s.owner == LLM && target.Some? {
      BeginReloadKeeps(s, r);
    } else {
      BooksSame(s, Decide(s, r), Some(r));
    }
  }

  lemma DrainChatsKeeps(s: State, r: nat)
    requires MidChat(s, r) && s.cfg.Serialised()
    ensures Inv(DrainChats(s, r))
  {
    if s.activeChats != 0 || s.activeMetadata != 0 {
      BooksSame(s, DrainChats(s, r), Some(r));
    } else {
      var s1 := s.(phase := DrainingLlm);
      BooksSame(s, s1, Some(r));
      DecideKeeps(s1, r);
    }
  }

  lemma ResumeDrainChatsKeeps(s: State, r: nat)
    requires MidChat(s, r) && s.cfg.Serialised()
    ensures Inv(ResumeDrainChats(s, r))
  {
    if s.works[r].cancelled {
      DropCancelled(s, r);
    } else if s.closing {
      Abandon(s, r);
    } else {
      DrainChatsKeeps(s, r);
    }
  }

  lemma RestoredKeeps(s: State, r: nat, point: Option<Point>)
    requires MidChat(s, r) && Preparing(s) && Neutral(s.phase) && s.owner == UNKNOWN
    requires point.Some? && s.seen.held && s.works[r].job.target in {None, point}
    ensures Inv(Restored(s, r, point))
  {
    BooksSame(s, Restored(s, r, point), Some(r));
  }

  lemma GrantKeeps(s: State, r: nat)
    requires MidChat(s, r) && s.pc == Granting(r) && At(s)
    requires s.works[r].job.target in {None, s.restorePoint}
    ensures Inv(Grant(s, r))
  {
    var w := s.works[r];
    if w.cancelled {
      DropCancelled(s, r);
    } else if s.closing {
      AnswerKeeps(s, r, BrokerClosing, Idle);
    } else {
      GrantedKeeps(s, r);
    }
  }

  lemma GrantedKeeps(s: State, r: nat)
    requires MidChat(s, r) && s.pc == Granting(r) && At(s)
    requires s.works[r].job.target in {None, s.restorePoint}
    requires !s.works[r].cancelled && !s.closing
    ensures Inv(Grant(s, r))
  {
    var w := s.works[r];
    assert WorkOk(w, r, r in s.queue, true, r in s.seen.abandoned);
    var v := w.(job := w.job.(granted := true, ready := Settle(w.job.ready, Value)));
    PutBooks(s, r, v, Some(r), None);
  }

  // ---------------------------------------------------------------- images

  lemma ImageFailedKeeps(s: State, r: nat)
    requires MidImage(s, r)
    ensures Inv(ImageFailed(s, r))
  {
    if s.owner == COMFY && !s.closing {
      AnswerKeeps(s.(phase := ComfyReady), r, HandoffFailed, Idle);
    } else if s.owner == LLM {
      AnswerKeeps(s.(phase := LlmReady), r, HandoffFailed, Idle);
    } else if s.closing {
      AnswerKeeps(s, r, HandoffFailed, Idle);
    }
  }

  lemma SubmitKeeps(s: State, r: nat)
    requires MidImage(s, r) && s.owner == COMFY
    ensures Inv(Submit(s, r))
  {
    if s.works[r].cancelled {
      AnswerKeeps(s, r, ImageCancelled, Idle);
    } else {
      BooksSame(s, Submit(s, r), Some(r));
    }
  }

  lemma GiveToComfyKeeps(s: State, r: nat)
    requires MidImage(s, r) && s.activeChats == 0
    requires Guarded(s.cfg) ==> !s.seen.held
    ensures Inv(GiveToComfy(s, r))
  {
    var s1 := s.(owner := COMFY, recoverable := None, phase := ComfyReady);
    BooksSame(s, s1, Some(r));
    SubmitKeeps(s1, r);
  }

  lemma StartReleaseKeeps(s: State, r: nat)
    requires MidImage(s, r) && Quiet(s) && s.owner != COMFY && s.restorePoint.Some?
    ensures Inv(StartRelease(s, r))
  {
    BooksSame(s, StartRelease(s, r), Some(r));
  }

  lemma ReleaseOwnerKeeps(s: State, r: nat)
    requires MidImage(s, r) && Quiet(s) && s.owner != COMFY && !s.cfg.router
    requires s.owner == UNKNOWN && s.cfg.Observes() ==> !s.seen.held
    ensures Inv(ReleaseOwner(s, r))
  {
    if s.owner == LLM {
      StartReleaseKeeps(s, r);
    } else {
      GiveToComfyKeeps(s, r);
    }
  }

  lemma ActivatedKeeps(s: State, r: nat)
    requires MidImage(s, r) && Quiet(s) && s.owner != COMFY
    requires !s.cfg.router ==> s.cfg.Observes() && s.owner == UNKNOWN
    ensures Inv(Activated(s, r))
  {
    if s.cfg.router && s.restorePoint.Some? {
      StartReleaseKeeps(s, r);
    } else {
      BooksSame(s, Activated(s, r), Some(r));
    }
  }

  lemma ActivateKeeps(s: State, r: nat)
    requires MidImage(s, r) && Quiet(s) && s.owner != COMFY
    ensures Inv(Activate(s, r))
  {
    if s.cfg.router || (s.cfg.Observes() && s.owner == UNKNOWN) {
      if s.controlValidated {
        ActivatedKeeps(s, r);
      } else {
        BooksSame(s, Activate(s, r), Some(r));
      }
    } else {
      ReleaseOwnerKeeps(s, r);
    }
  }

  lemma DrainForImageKeeps(s: State, r: nat)
    requires MidImage(s, r) && s.owner != COMFY && Neutral(s.phase)
    ensures Inv(DrainForImage(s, r))
  {
    if s.works[r].cancelled {
      AnswerKeeps(s.(phase := if s.owner == LLM then LlmReady else AwaitingRequest), r,
                  ImageCancelled, Idle);
    } else if s.activeChats != 0 || s.activeMetadata != 0 {
      BooksSame(s, DrainForImage(s, r), Some(r));
    } else {
      ActivateKeeps(s, r);
    }
  }

  lemma ForgottenKeeps(s: State, r: nat)
    requires MidImage(s, r)
    ensures MidImage(Forgotten(s, r), r)
  {
    var w := s.works[r];
    assert WorkOk(w, r, r in s.queue, true, r in s.seen.abandoned);
    CurrentNotQueued(s, r);
    PutBooks(s, r, w.(job := w.job.(bytes := 0)), Some(r), Some(r));
  }

  lemma CurrentNotQueued(s: State, r: nat)
    requires BooksFor(s, Some(r))
    ensures r !in s.queue
  {
  }

  lemma RespondKeeps(s: State, r: nat)
    requires MidImage(s, r) && s.owner == COMFY
    ensures var w := s.works[r];
            MidImage(Put(s, r, w.(job := w.job.(submitted := Settle(w.job.submitted, Value)))), r)
  {
    var w := s.works[r];
    var v := w.(job := w.job.(submitted := Settle(w.job.submitted, Value)));
    assert WorkOk(w, r, r in s.queue, true, r in s.seen.abandoned);
    CurrentNotQueued(s, r);
    PutBooks(s, r, v, Some(r), Some(r));
  }

  lemma SubmittedKeeps(s: State, r: nat, rejected: bool, prompt: bool)
    requires MidImage(s, r) && s.owner == COMFY
    ensures Inv(Submitted(s, r, rejected, prompt))
  {
    ForgottenKeeps(s, r);
    var s0 := Forgotten(s, r);
    RespondKeeps(s0, r);
    var w := s0.works[r];
    var s1 := Put(s0, r, w.(job := w.job.(submitted := Settle(w.job.submitted, Value))));
    if rejected || !prompt {
      ImageFailedKeeps(s1, r);
    } else {
      BooksSame(s1, s1.(pc := AwaitingPrompt(r)), Some(r));
    }
  }

  lemma PromptDoneKeeps(s: State, r: nat)
    requires MidImage(s, r) && s.owner == COMFY && !s.works[r].job.submitted.Pending?
    ensures Inv(PromptDone(s, r))
  {
    var w := s.works[r];
    assert WorkOk(w, r, r in s.queue, true, r in s.seen.abandoned);
    CurrentNotQueued(s, r);
    PutBooks(s, r, w.(job := w.job.(completion := Notify(w.job.completion, Value))), Some(r), None);
  }
}
