/** The coordinator object itself: the same sections as statements on its fields, each proved to
    take the object from one value of the protocol to the next. */
module Coordinator {
  import opened Basics
  import opened Handoff
  import opened HandoffInvariant
  import opened HandoffBooks
  import opened HandoffClients
  import opened HandoffSteps

  /** Cancelling the first member leaves the others to be looked at. */
  lemma NextMember(s: State, first: nat, count: nat)
    requires Members(s, first, count) && Allocated(s) && count > 0
    ensures var t := if s.works[first].job.completion.value.Pending?
                     then CancelImage(s, first, BatchCancelled) else s;
            && Members(t, first + 1, count - 1) && Allocated(t)
            && LeaveBatch(s, first, count) == LeaveBatch(t, first + 1, count - 1)
  {
  }

  class HandoffCoordinator {
    const cfg: Config
    var restorePoint: Option<Point>
    var queue: seq<nat>
    var works: seq<Work>
    var sequence: nat
    var activeChats: int
    var activeMetadata: int
    var waitingChats: int
    var waitingImages: int
    var queuedBytes: int
    var activeControls: int
    var fatal: Option<Reason>
    var recoverable: Option<Reason>
    var owner: Owner
    var phase: Phase
    var closing: bool
    var controlValidated: bool
    var pc: Pc
    var closer: Closer
    ghost var seen: Observed

    /** The protocol state this object represents. */
    ghost function Now(): State
      reads this
    {
      State(cfg, restorePoint, queue, works, sequence, activeChats, activeMetadata, waitingChats,
            waitingImages, queuedBytes, activeControls, fatal, recoverable, owner, phase, closing,
            controlValidated, pc, closer, seen)
    }

    ghost predicate Valid()
      reads this
    {
      Inv(Now())
    }

    /** Construction and initialize(): a request-driven backend is not contacted; any other is
        validated, ComfyUI is freed, and the loaded model is taken as the restore point. */
    constructor (cfg: Config, validated: bool, freed: bool, snapshot: Option<Point>, ghost held: bool)
      ensures Now() == Initial(cfg, if validated && freed then snapshot else None, held)
      ensures Valid()
    {
      var starts := !cfg.Observes() && validated && freed && snapshot.Some?;
      var broken := !cfg.Observes() && !starts;
      this.cfg := cfg;
      restorePoint := if starts then snapshot else None;
      queue, works, sequence := [], [], 0;
      activeChats, activeMetadata, activeControls := 0, 0, 0;
      waitingChats, waitingImages, queuedBytes := 0, 0, 0;
      fatal := if broken then Some(InitializationFailed) else None;
      recoverable := None;
      owner := if starts then LLM else UNKNOWN;
      phase := if starts then LlmReady else if broken then Error else AwaitingRequest;
      closing, controlValidated, closer := false, starts, Open;
      pc := if broken then Dead else Idle;
      seen := Observed(false, held || starts, 0, 0, [], {}, []);
      new;
      InitialHolds(cfg, if validated && freed then snapshot else None, held);
    }

    // -------------------------------------------------------------- queue

    method AppendWork(w: Work)
      modifies this
      ensures Now() == AppendQueued(old(Now()), w)
    {
      sequence := sequence + 1;
      queue := queue + [|works|];
      works := works + [w];
      if w.job.Chat? {
        waitingChats := waitingChats + 1;
      } else {
        waitingImages := waitingImages + 1;
        queuedBytes := queuedBytes + w.job.bytes;
      }
    }

    method ReleaseQueueAccounting(w: Work)
      modifies this
      ensures Now() == ReleaseAccounting(old(Now()), w)
    {
      if w.job.Chat? {
        waitingChats := waitingChats - 1;
      } else {
        waitingImages := waitingImages - 1;
        queuedBytes := queuedBytes - w.job.bytes;
      }
    }

    method RemoveWork(r: nat) returns (removed: bool)
      requires r < |works| && Allocated(Now())
      modifies this
      ensures Now() == RemoveQueued(old(Now()), r)
      ensures removed <==> queue != old(queue)
    {
      var i := IndexOf(queue, works, works[r]);
      if i == |queue| {
        return false;
      }
      var w := works[queue[i]];
      queue := queue[..i] + queue[i + 1..];
      ReleaseQueueAccounting(w);
      return true;
    }

    method ResolveWork(r: nat, reason: Reason)
      requires r < |works|
      modifies this
      ensures Now() == Resolve(old(Now()), r, reason)
    {
      var w := works[r];
      match w.job {
        case Chat(ready, _, _) =>
          if ready.Pending? {
            works := works[r := w.(job := w.job.(ready := Failure(reason)))];
          }
        case Image(_, submitted, completion, _) =>
          if submitted.Pending? {
            w := w.(job := w.job.(submitted := Failure(reason)));
          }
          if completion.Some? && completion.value.Pending? {
            w := w.(job := w.job.(completion := Some(Failure(reason))));
          }
          works := works[r := w];
      }
      assert Answered(old(works)[r], reason) == works[r];
      assert works == old(works)[r := works[r]];
    }

    method FailAll(reason: Reason)
      requires Allocated(Now())
      modifies this
      ensures Now() == FailQueued(old(Now()), reason)
      ensures queue == [] && |works| == |old(works)|
      ensures forall r :: 0 <= r < |works| ==>
                if r in old(queue) then IsAnswered(works[r]) else works[r] == old(works)[r]
    {
      FailQueuedAnswers(Now(), reason);
      while queue != []
        invariant Allocated(Now())
        invariant FailQueued(Now(), reason) == FailQueued(old(Now()), reason)
        decreases |queue|
      {
        var r := queue[0];
        queue := queue[1..];
        ReleaseQueueAccounting(works[r]);
        ResolveWork(r, reason);
      }
    }

    // -------------------------------------------------------------- clients

    method RequestChat(target: Option<Point>) returns (admitted: bool)
      requires Valid() && (target.Some? ==> cfg.Targeted())
      modifies this
      ensures Valid() && Now() == AdmitChat(old(Now()), target)
      ensures admitted <==> !Refuses(old(Now()))
    {
      AdmitChatKeeps(Now(), target);
      if closing || fatal.Some? {
        return false;
      }
      AppendWork(Work(sequence + 1, false, Waiting, Chat(Pending, false, target)));
      return true;
    }

    method EnterLease(r: nat)
      requires Valid() && OpenChat(Now(), r)
      requires works[r].caller.Waiting? && works[r].job.ready.Value?
      modifies this
      ensures Valid() && Now() == EnterChat(old(Now()), r)
    {
      EnterChatKeeps(Now(), r);
      works := works[r := works[r].(caller := Entered)];
    }

    method LeaveLease(r: nat)
      requires Valid() && OpenChat(Now(), r)
      modifies this
      ensures Valid() && Now() == LeaveChat(old(Now()), r)
    {
      LeaveChatKeeps(Now(), r);
      EndLease(r);
    }

    method EndLease(r: nat)
      requires r < |works| && works[r].job.Chat? && Allocated(Now())
      modifies this
      ensures Now() == LeaveChat(old(Now()), r)
    {
      if !works[r].caller.Entered? {
        works := works[r := works[r].(cancelled := true)];
        var _ := RemoveWork(r);
      }
      var w := works[r];
      if w.job.granted {
        w := w.(job := w.job.(granted := false));
        activeChats := activeChats - 1;
      }
      works := works[r := w.(caller := Left)];
    }

    /** The three capacity checks, in the order they are made. */
    method CheckCapacity(sizes: seq<nat>) returns (fits: bool)
      ensures fits <==> Fits(Now(), sizes)
    {
      var total := 0;
      var i := 0;
      while i < |sizes|
        invariant 0 <= i <= |sizes|
        invariant forall k :: 0 <= k < i ==> sizes[k] <= cfg.maxBody
        invariant total + Total(sizes[i..]) == Total(sizes)
      {
        if sizes[i] > cfg.maxBody {
          return false;
        }
        total := total + sizes[i];
        assert sizes[i..][1..] == sizes[i + 1..];
        i := i + 1;
      }
      fits := waitingImages + |sizes| <= cfg.maxImages && queuedBytes + total <= cfg.maxBytes;
    }

    method AppendAll(sizes: seq<nat>, completion: Option<Future>)
      modifies this
      ensures Now() == AppendImages(old(Now()), sizes, completion, old(|works|))
    {
      var group := |works|;
      var i := 0;
      while i < |sizes|
        invariant 0 <= i <= |sizes|
        invariant AppendImages(Now(), sizes[i..], completion, group)
               == AppendImages(old(Now()), sizes, completion, group)
      {
        assert sizes[i..][1..] == sizes[i + 1..];
        AppendWork(Work(sequence + 1, false, Waiting, Image(sizes[i], Pending, completion, group)));
        i := i + 1;
      }
    }

    method RequestImage(size: nat, notifies: bool) returns (admitted: bool)
      requires Valid()
      modifies this
      ensures Valid() && Now() == SubmitImage(old(Now()), size, notifies)
      ensures admitted <==> !Refuses(old(Now())) && Fits(old(Now()), [size])
    {
      SubmitImageKeeps(Now(), size, notifies);
      if closing || fatal.Some? {
        return false;
      }
      admitted := CheckCapacity([size]);
      if admitted {
        AppendAll([size], if notifies then Some(Pending) else None);
      }
    }

    method RequestBatch(sizes: seq<nat>) returns (admitted: bool)
      requires Valid()
      modifies this
      ensures Valid() && Now() == SubmitBatch(old(Now()), sizes)
      ensures admitted <==> sizes != [] && !Refuses(old(Now())) && Fits(old(Now()), sizes)
    {
      SubmitBatchKeeps(Now(), sizes);
      admitted := AppendBatch(sizes);
    }

    method AppendBatch(sizes: seq<nat>) returns (admitted: bool)
      modifies this
      ensures Now() == SubmitBatch(old(Now()), sizes)
      ensures admitted <==> sizes != [] && !Refuses(old(Now())) && Fits(old(Now()), sizes)
    {
      if sizes == [] || closing || fatal.Some? {
        return false;
      }
      admitted := CheckCapacity(sizes);
      if admitted {
        ghost var first := |works|;
        AppendImagesFrame(Now(), sizes, Some(Pending), |works|);
        AppendAll(sizes, Some(Pending));
        seen := seen.(batches := seen.batches + [Batch(first, |sizes|, true)]);
      }
    }

    method Withdraw(r: nat, reason: Reason)
      requires r < |works| && works[r].job.Image? && Allocated(Now())
      modifies this
      ensures Now() == CancelImage(old(Now()), r, reason)
    {
      works := works[r := works[r].(cancelled := true)];
      var removed := RemoveWork(r);
      if removed {
        ResolveWork(r, reason);
      }
    }

    method LeaveSubmission(r: nat, completed: bool)
      requires Valid() && OpenImage(Now(), r)
      requires completed ==> !works[r].job.submitted.Pending?
      modifies this
      ensures Valid() && Now() == LeaveImage(old(Now()), r, completed)
    {
      LeaveImageKeeps(Now(), r, completed);
      EndSubmission(r, completed);
    }

    method EndSubmission(r: nat, completed: bool)
      requires r < |works| && works[r].job.Image? && Allocated(Now())
      modifies this
      ensures Now() == LeaveImage(old(Now()), r, completed)
    {
      if !completed {
        Withdraw(r, ImageCancelled);
      }
      works := works[r := works[r].(caller := Left)];
    }

    /** The closing section of a batch: every member not yet complete is cancelled. */
    method WithdrawBatch(first: nat, count: nat)
      requires Members(Now(), first, count) && Allocated(Now())
      modifies this
      ensures Now() == LeaveBatch(old(Now()), first, count)
    {
      var k := 0;
      while k < count
        invariant 0 <= k <= count
        invariant Members(Now(), first + k, count - k) && Allocated(Now())
        invariant LeaveBatch(Now(), first + k, count - k) == LeaveBatch(old(Now()), first, count)
      {
        NextMember(Now(), first + k, count - k);
        WithdrawMember(first + k);
        k := k + 1;
      }
    }

    method WithdrawMember(r: nat)
      requires r < |works| && works[r].job.Image? && works[r].job.completion.Some? && Allocated(Now())
      modifies this
      ensures Now() == var s := old(Now());
              if s.works[r].job.completion.value.Pending? then CancelImage(s, r, BatchCancelled) else s
    {
      if works[r].job.completion.value.Pending? {
        Withdraw(r, BatchCancelled);
      }
    }

    method PassiveMetadata() returns (granted: bool)
      requires Valid()
      modifies this
      ensures Valid() && granted == PassiveAllowed(old(Now()))
      ensures Now() == if granted then TakeMetadata(old(Now())) else old(Now())
    {
      granted := false;
      if !closing && fatal.None? && recoverable.None? && owner == LLM {
        if phase in {LlmReady, LlmReserved} && (!cfg.router || activeChats == 0) {
          PassiveKeeps(Now());
          CountMetadata();
          granted := true;
        }
      }
    }

    method RouterControl(abort: bool) returns (allowed: bool)
      requires Valid()
      modifies this
      ensures Valid() && allowed == ControlAllowed(old(Now()), abort)
      ensures Now() == if allowed then TakeMetadata(old(Now())) else old(Now())
    {
      allowed := !closing && (
        (abort && activeChats > 0)
        || (!abort && activeChats == 0
            && phase in {AwaitingRequest, LlmReserved, LlmReady, ComfyReady, ImageActive}));
      if allowed {
        ControlLeaseKeeps(Now(), abort);
        CountMetadata();
      }
    }

    method CountMetadata()
      modifies this
      ensures Now() == TakeMetadata(old(Now()))
    {
      activeMetadata := activeMetadata + 1;
      seen := seen.(metadataHeld := seen.metadataHeld + 1);
    }

    method EndMetadata()
      requires Valid() && seen.metadataHeld > 0
      modifies this
      ensures Valid() && Now() == DropMetadata(old(Now()))
    {
      DropMetadataKeeps(Now());
      activeMetadata := activeMetadata - 1;
      seen := seen.(metadataHeld := seen.metadataHeld - 1);
    }

    method ComfyControl() returns (granted: bool)
      requires Valid()
      modifies this
      ensures Valid() && granted == ComfyControlAllowed(old(Now()))
      ensures Now() == if granted then TakeControl(old(Now())) else old(Now())
    {
      if closing || fatal.Some? {
        return false;
      }
      if owner != COMFY || phase !in {ComfyReady, ImageActive} {
        return false;
      }
      TakeControlKeeps(Now());
      CountControl();
      return true;
    }

    method CountControl()
      modifies this
      ensures Now() == TakeControl(old(Now()))
    {
      activeControls := activeControls + 1;
      seen := seen.(controlsHeld := seen.controlsHeld + 1);
    }

    method EndControl()
      requires Valid() && seen.controlsHeld > 0
      modifies this
      ensures Valid() && Now() == DropControl(old(Now()))
    {
      DropControlKeeps(Now());
      activeControls := activeControls - 1;
      seen := seen.(controlsHeld := seen.controlsHeld - 1);
    }

    method RouterRequestFailed(r: nat)
      requires Valid() && OpenChat(Now(), r) && works[r].job.granted && cfg.Reserves()
      modifies this
      ensures Valid() && Now() == MarkRecoverable(old(Now()), RouterUnreliable)
    {
      RouterFailedKeeps(Now(), r);
      recoverable := Some(RouterUnreliable);
      phase := Error;
    }

    /** close() up to its first suspension, and the section that empties the queue. */
    method Close()
      requires Valid()
      modifies this
      ensures Valid() && Now() == BeginClose(old(Now()))
    {
      BeginCloseKeeps(Now());
      StopAccepting();
    }

    method StopAccepting()
      modifies this
      ensures Now() == BeginClose(old(Now()))
    {
      if closing {
        return;
      }
      closing := true;
      phase := ShuttingDown;
      closer := Begun;
    }

    method CloseDrain()
      requires Valid() && closer == Begun
      modifies this
      ensures Valid() && Now() == DrainClose(old(Now()))
      ensures queue == []
    {
      DrainCloseKeeps(Now());
      FailAll(BrokerClosing);
      closer := Drained;
    }

    // -------------------------------------------------------------- dispatcher: chats

    /** _next_work and the dispatch of what it returns, up to the next suspension. */
    method PopNext()
      requires Allocated(Now())
      modifies this
      ensures Now() == NextWork(old(Now()))
    {
      if closing || fatal.Some? {
        pc := Dead;
      } else if queue != [] {
        var r := queue[0];
        queue := queue[1..];
        seen := seen.(dispatched := seen.dispatched + [r]);
        ReleaseQueueAccounting(works[r]);
        if works[r].job.Chat? {
          BeginChat(r);
        } else {
          BeginImage(r);
        }
      }
    }

    method BeginChat(r: nat)
      requires r < |works| && works[r].job.Chat?
      modifies this
      ensures Now() == DispatchChat(old(Now()), r)
    {
      if works[r].cancelled {
        pc := Idle;
      } else if cfg.router || cfg.kind in {Prism, All, Strata} {
        pc := ChatEntry(r);
      } else {
        PrepareLlm(r);
      }
    }

    /** The head of the drain loop; after it no new metadata lease is handed out. */
    method AwaitDrained(r: nat)
      requires r < |works| && works[r].job.Chat?
      modifies this
      ensures Now() == DrainChats(old(Now()), r)
    {
      if activeChats != 0 || activeMetadata != 0 {
        pc := ChatDrain(r);
      } else {
        phase := DrainingLlm;
        PrepareLlm(r);
      }
    }

    method WakeInDrain(r: nat)
      requires r < |works| && works[r].job.Chat?
      modifies this
      ensures Now() == ResumeDrainChats(old(Now()), r)
    {
      if works[r].cancelled || closing {
        if !works[r].cancelled {
          seen := seen.(abandoned := seen.abandoned + {r});
        }
        pc := Idle;
      } else {
        AwaitDrained(r);
      }
    }

    method PrepareLlm(r: nat)
      requires r < |works| && works[r].job.Chat?
      modifies this
      ensures Now() == Decide(old(Now()), r)
    {
      var target := works[r].job.target;
      if owner != LLM || recoverable.Some? || (target.Some? && target != restorePoint) {
        if owner != LLM || target.None? {
          pc := ControlEntry(r);
        } else {
          StartReload(r);
        }
      } else {
        pc := Granting(r);
      }
    }

    method StartReload(r: nat)
      requires r < |works| && works[r].job.Chat?
      modifies this
      ensures Now() == BeginReload(old(Now()), r)
    {
      owner := UNKNOWN;
      if controlValidated {
        ContinueReload(r);
      } else {
        pc := RestoreValidating(r);
      }
    }

    method Acquire(at: Pc)
      modifies this
      ensures Now() == StartAcquire(old(Now()), at)
    {
      pc := at;
      seen := seen.(held := true);
    }

    method ContinueReload(r: nat)
      requires r < |works| && works[r].job.Chat?
      modifies this
      ensures Now() == Reload(old(Now()), r)
    {
      if works[r].job.target.Some? {
        phase := ReloadingLlm;
        Acquire(AcquiringTarget(r));
      } else if cfg.router {
        if recoverable.Some? && restorePoint.Some? {
          pc := RouterReleasing(r);
        } else {
          Acquire(RouterAcquiring(r));
        }
      } else if restorePoint.None? && cfg.kind != Other && !(cfg.kind == TabbyApi && recoverable.Some?) {
        pc := RestoreObserving(r);
      } else {
        phase := ReloadingLlm;
        Acquire(Acquiring(r));
      }
    }

    method FailRestore(r: nat, reason: Reason)
      requires r < |works|
      modifies this
      ensures Now() == RestoreFailed(old(Now()), r, reason)
    {
      if closing {
        Refuse(r);
      } else {
        pc := RestoreMarking(r, reason);
      }
    }

    method Refuse(r: nat)
      requires r < |works|
      modifies this
      ensures Now() == RefuseChat(old(Now()), r)
    {
      ResolveWork(r, if fatal.Some? then fatal.value
                     else if recoverable.Some? then recoverable.value
                     else NotReady);
      pc := Idle;
    }

    method FinishRestore(r: nat, point: Option<Point>)
      modifies this
      ensures Now() == Restored(old(Now()), r, point)
    {
      restorePoint := point;
      owner := LLM;
      pc := Granting(r);
      if !closing {
        ClearErrors();
      }
    }

    method ClearErrors()
      modifies this
      ensures Now() == old(Now()).(fatal := None, recoverable := None,
                                   phase := if cfg.Reserves() then LlmReserved else LlmReady)
    {
      fatal := None;
      recoverable := None;
      phase := if cfg.router || cfg.kind == All then LlmReserved else LlmReady;
    }

    method GrantChat(r: nat)
      requires r < |works| && works[r].job.Chat?
      modifies this
      ensures Now() == Grant(old(Now()), r)
    {
      pc := Idle;
      if works[r].cancelled {
        return;
      }
      if closing {
        ResolveWork(r, BrokerClosing);
        return;
      }
      if fatal.Some? {
        ResolveWork(r, fatal.value);
        return;
      }
      var w := works[r];
      w := w.(job := w.job.(granted := true));
      activeChats := activeChats + 1;
      if cfg.router || cfg.kind == All {
        phase := LlmReserved;
      } else if cfg.kind in {Prism, Strata} {
        phase := LlmReady;
      }
      if w.job.ready.Pending? {
        w := w.(job := w.job.(ready := Value));
      }
      works := works[r := w];
    }

    // -------------------------------------------------------------- dispatcher: images

    method BeginImage(r: nat)
      requires r < |works| && works[r].job.Image?
      modifies this
      ensures Now() == DispatchImage(old(Now()), r)
    {
      if works[r].cancelled {
        ResolveWork(r, ImageCancelled);
        pc := Idle;
      } else if owner != COMFY {
        pc := DrainEntry(r);
      } else {
        StartSubmit(r);
      }
    }

    method StartSubmit(r: nat)
      requires r < |works| && works[r].job.Image?
      modifies this
      ensures Now() == Submit(old(Now()), r)
    {
      if works[r].cancelled {
        ResolveWork(r, ImageCancelled);
        pc := Idle;
      } else {
        phase := ImageActive;
        pc := Submitting(r);
        seen := seen.(dirty := true);
      }
    }

    method DrainLlm(r: nat)
      requires r < |works| && works[r].job.Image?
      modifies this
      ensures Now() == DrainForImage(old(Now()), r)
    {
      if (activeChats != 0 || activeMetadata != 0) && !works[r].cancelled {
        pc := Draining(r);
      } else if works[r].cancelled {
        phase := if owner == LLM then LlmReady else AwaitingRequest;
        ResolveWork(r, ImageCancelled);
        pc := Idle;
      } else {
        ActivateComfy(r);
      }
    }

    method ActivateComfy(r: nat)
      requires r < |works| && works[r].job.Image?
      modifies this
      ensures Now() == Activate(old(Now()), r)
    {
      if cfg.router || (cfg.kind != Other && owner == UNKNOWN) {
        if controlValidated {
          ContinueActivation(r);
        } else {
          pc := ActivateValidating(r);
        }
      } else {
        ReleaseLlm(r);
      }
    }

    method ContinueActivation(r: nat)
      requires r < |works| && works[r].job.Image?
      modifies this
      ensures Now() == Activated(old(Now()), r)
    {
      if cfg.router {
        if restorePoint.None? {
          Acquire(ActivateAcquiring(r));
        } else {
          owner := UNKNOWN;
          phase := UnloadingLlm;
          pc := Releasing(r);
        }
      } else {
        pc := ActivateObserving(r);
      }
    }

    method ReleaseLlm(r: nat)
      requires r < |works| && works[r].job.Image?
      modifies this
      ensures Now() == ReleaseOwner(old(Now()), r)
    {
      if owner == LLM {
        owner := UNKNOWN;
        phase := UnloadingLlm;
        if restorePoint.None? {
          FailImage(r);
        } else {
          pc := Releasing(r);
        }
      } else {
        TransferToComfy(r);
      }
    }

    method TransferToComfy(r: nat)
      requires r < |works| && works[r].job.Image?
      modifies this
      ensures Now() == GiveToComfy(old(Now()), r)
    {
      owner := COMFY;
      recoverable := None;
      phase := ComfyReady;
      StartSubmit(r);
    }

    method FailImage(r: nat)
      requires r < |works|
      modifies this
      ensures Now() == ImageFailed(old(Now()), r)
    {
      if owner == COMFY && !closing {
        phase := ComfyReady;
      } else if owner == LLM && fatal.None? {
        phase := LlmReady;
      } else if !closing {
        pc := ImageMarking(r);
        return;
      }
      ResolveWork(r, HandoffFailed);
      pc := Idle;
    }

    method FinishSubmit(r: nat, rejected: bool, prompt: bool)
      requires r < |works| && works[r].job.Image?
      modifies this
      ensures Now() == Submitted(old(Now()), r, rejected, prompt)
    {
      var w := works[r];
      w := w.(job := w.job.(bytes := 0));
      if w.job.submitted.Pending? {
        w := w.(job := w.job.(submitted := Value));
      }
      works := works[r := w];
      ghost var s0 := Forgotten(old(Now()), r);
      ghost var u := s0.works[r];
      assert w == u.(job := u.job.(submitted := Settle(u.job.submitted, Value)));
      assert s0.works[r := w] == works;
      if rejected || !prompt {
        FailImage(r);
      } else {
        pc := AwaitingPrompt(r);
      }
    }

    method FinishPrompt(r: nat)
      requires r < |works| && works[r].job.Image?
      modifies this
      ensures Now() == PromptDone(old(Now()), r)
    {
      var w := works[r];
      if w.job.completion.Some? && w.job.completion.value.Pending? {
        w := w.(job := w.job.(completion := Some(Value)));
      }
      works := works[r := w];
      phase := ComfyReady;
      pc := Idle;
    }

    // -------------------------------------------------------------- resumption

    method ContinueChat(o: Outcome)
      requires Awake(Now()) && ServesChat(pc)
      modifies this
      ensures Now() == ResumeChat(old(Now()), o)
    {
      if pc.ChatEntry? || pc.ChatDrain? || pc.RestoreMarking? || pc.Granting? {
        ContinueUnderLock(o);
      } else if pc.ControlEntry? || pc.ControlDrain? || pc.Freeing? {
        ContinueCleaning(o);
      } else if o.Raised? {
        FailRestore(pc.r, if o.vram then InsufficientVram else NotReady);
      } else {
        ContinueReloading(o);
      }
    }

    method ContinueUnderLock(o: Outcome)
      requires Awake(Now())
      requires pc.ChatEntry? || pc.ChatDrain? || pc.RestoreMarking? || pc.Granting?
      modifies this
      ensures Now() == ResumeChat(old(Now()), o)
    {
      var r := pc.r;
      if !o.Wake? {
        return;
      }
      if pc.ChatEntry? {
        AwaitDrained(r);
      } else if pc.ChatDrain? {
        WakeInDrain(r);
      } else if pc.Granting? {
        GrantChat(r);
      } else {
        recoverable := Some(pc.reason);
        phase := Error;
        Refuse(r);
      }
    }

    method ContinueCleaning(o: Outcome)
      requires Awake(Now()) && (pc.ControlEntry? || pc.ControlDrain? || pc.Freeing?)
      modifies this
      ensures Now() == ResumeChat(old(Now()), o)
    {
      var r := pc.r;
      if pc.Freeing? {
        if o.Returned? {
          seen := seen.(dirty := false);
          StartReload(r);
        } else if o.Raised? {
          FailRestore(r, CleanupUnconfirmed);
        }
      } else if o.Wake? {
        if pc.ControlEntry? {
          phase := CleaningComfy;
        }
        pc := if activeControls != 0 then ControlDrain(r) else Freeing(r);
      } else if pc.ControlDrain? && o.TimedOut? {
        FailRestore(r, CleanupUnconfirmed);
      }
    }

    predicate Reloading()
      reads this
    {
      || pc.RestoreValidating? || pc.AcquiringTarget? || pc.RouterReleasing?
      || pc.RouterAcquiring? || pc.RestoreObserving? || pc.Acquiring?
    }

    method ContinueReloading(o: Outcome)
      requires Awake(Now()) && Reloading() && !o.Raised?
      modifies this
      ensures Now() == ResumeChat(old(Now()), o)
    {
      var r := pc.r;
      if pc.RestoreValidating? {
        if o.Returned? {
          controlValidated := true;
          ContinueReload(r);
        }
      } else if pc.RouterReleasing? {
        if o.Returned? {
          seen := seen.(held := false);
          Acquire(RouterAcquiring(r));
        }
      } else if o.Gave? {
        if pc.RestoreObserving? {
          seen := seen.(held := o.point.Some?);
        }
        if o.point.Some? {
          if !pc.AcquiringTarget? || o.point == works[r].job.target {
            FinishRestore(r, o.point);
          }
        } else if pc.RestoreObserving? {
          phase := ReloadingLlm;
          Acquire(Acquiring(r));
        }
      }
    }

    method ContinueImage(o: Outcome)
      requires Awake(Now()) && Current(pc).Some? && !ServesChat(pc)
      modifies this
      ensures Now() == ResumeImage(old(Now()), o)
    {
      if pc.DrainEntry? || pc.Draining? || pc.ImageMarking? || pc.Interrupting? {
        ContinueImageWait(o);
      } else if o.Raised? {
        if pc.Submitting? {
          works := works[pc.r := works[pc.r].(job := works[pc.r].job.(bytes := 0))];
        }
        FailImage(pc.r);
      } else if pc.Submitting? || pc.AwaitingPrompt? {
        ContinuePrompt(o);
      } else {
        ContinueActivating(o);
      }
    }

    method ContinueImageWait(o: Outcome)
      requires Awake(Now())
      requires pc.DrainEntry? || pc.Draining? || pc.ImageMarking? || pc.Interrupting?
      modifies this
      ensures Now() == ResumeImage(old(Now()), o)
    {
      var r := pc.r;
      if pc.Interrupting? {
        if o.Returned? {
          ResolveWork(r, BrokerClosing);
          pc := Dead;
        } else if o.Raised? {
          ResolveWork(r, DispatcherFailed);
          pc := MarkingFatal;
        }
      } else if o.Wake? {
        if pc.ImageMarking? {
          recoverable := Some(OwnershipUnconfirmed);
          phase := Error;
          ResolveWork(r, HandoffFailed);
          pc := Idle;
        } else {
          if pc.DrainEntry? {
            phase := DrainingLlm;
          }
          DrainLlm(r);
        }
      } else if pc.Draining? && o.TimedOut? {
        FailImage(r);
      }
    }

    method ContinuePrompt(o: Outcome)
      requires Awake(Now()) && (pc.Submitting? || pc.AwaitingPrompt?) && !o.Raised?
      modifies this
      ensures Now() == ResumeImage(old(Now()), o)
    {
      if pc.Submitting? && o.Responded? {
        FinishSubmit(pc.r, o.rejected, o.prompt);
      } else if pc.AwaitingPrompt? && o.Returned? {
        FinishPrompt(pc.r);
      }
    }

    method ContinueActivating(o: Outcome)
      requires Awake(Now()) && !o.Raised?
      requires || pc.ActivateValidating? || pc.ActivateAcquiring? || pc.ActivateObserving?
               || pc.Releasing?
      modifies this
      ensures Now() == ResumeImage(old(Now()), o)
    {
      var r := pc.r;
      if pc.ActivateValidating? || pc.Releasing? {
        if o.Returned? { ContinueReturned(r); }
      } else if pc.ActivateAcquiring? {
        if o.Gave? && o.point.Some? {
          restorePoint := o.point;
          owner := UNKNOWN;
          phase := UnloadingLlm;
          pc := Releasing(r);
        }
      } else if o.Gave? {
        ContinueObserved(r, o.point);
      }
    }

    method ContinueReturned(r: nat)
      requires Awake(Now()) && (pc.ActivateValidating? || pc.Releasing?) && r == pc.r
      modifies this
      ensures Now() == ResumeImage(old(Now()), Returned)
    {
      if pc.Releasing? {
        seen := seen.(held := false);
        TransferToComfy(r);
      } else {
        controlValidated := true;
        ContinueActivation(r);
      }
    }

    method ContinueObserved(r: nat, point: Option<Point>)
      requires r < |works| && works[r].job.Image?
      modifies this
      ensures Now() == var s := old(Now());
              if point.Some?
              then Handoff.ReleaseOwner(s.(restorePoint := point, owner := LLM, seen := s.seen.(held := true)), r)
              else Handoff.ReleaseOwner(s.(seen := s.seen.(held := false)), r)
    {
      seen := seen.(held := point.Some?);
      if point.Some? {
        restorePoint := point;
        owner := LLM;
      }
      ReleaseLlm(r);
    }

    /** The dispatcher task continues after whatever it awaited. */
    method Dispatch(o: Outcome)
      requires Valid()
      modifies this
      ensures Valid() && Now() == Resume(old(Now()), o)
    {
      ResumeKeeps(Now(), o);
      Continue(o);
    }

    method Continue(o: Outcome)
      requires Awake(Now())
      modifies this
      ensures Now() == Resume(old(Now()), o)
    {
      if pc.Idle? {
        if o.Wake? { PopNext(); }
      } else if pc.MarkingFatal? {
        if o.Wake? { MarkFatal(); }
      } else if !pc.Dead? {
        if ServesChat(pc) { ContinueChat(o); } else { ContinueImage(o); }
      }
    }

    method MarkFatal()
      requires Allocated(Now())
      modifies this
      ensures Now() == FailQueued(old(Now()).(fatal := Some(DispatcherFailed), phase := Error), DispatcherFailed)
                       .(pc := Dead)
    {
      fatal := Some(DispatcherFailed);
      phase := Error;
      FailAll(DispatcherFailed);
      pc := Dead;
    }

    /** The dispatcher task is cancelled by close(). */
    method CancelDispatch()
      requires Valid() && closer == Drained
      modifies this
      ensures Valid() && Now() == Cancel(old(Now()))
    {
      CancelKeeps(Now());
      EndDispatch();
    }

    method EndDispatch()
      requires Awake(Now()) && closer == Drained
      modifies this
      ensures Now() == Cancel(old(Now()))
    {
      if pc.Dead? {
        return;
      }
      if pc.AwaitingPrompt? {
        pc := Interrupting(pc.r);
      } else if Current(pc).Some? {
        ResolveWork(pc.r, BrokerClosing);
        pc := Dead;
      } else {
        pc := Dead;
      }
    }
  }
}
