/** Who is told what: for every future of every work, the one event of a run that resolves it, and with
    what. */
module HandoffAnswers {
  import opened Basics
  import opened Handoff
  import opened HandoffInvariant
  import opened HandoffBooks
  import opened HandoffClients
  import opened HandoffSteps
  import opened HandoffHistory
  import opened HandoffTheorems
  import opened HandoffShutdown

  /** A chat waits for its lease, an image for the response to its submission and, if its client asked,
      for its outputs. */
  datatype Slot = Lease | Response | Outputs

  function FutureOf(w: Work, slot: Slot): Option<Future> {
    match w.job
    case Chat(ready, _, _) => if slot.Lease? then Some(ready) else None
    case Image(_, submitted, completion, _) =>
      if slot.Response? then Some(submitted) else if slot.Outputs? then completion else None
  }

  // ---------------------------------------------------------------- the events

  /** The event that gives r what it waits for: the grant of its lease, ComfyUI's response, the end of
      its prompt. */
  predicate Fulfils(s: State, l: Label, r: nat, slot: Slot)
    requires r < |s.works|
  {
    match slot
    case Lease =>
      s.pc == Granting(r) && l == LResume(Wake)
      && !s.works[r].cancelled && !s.closing && s.fatal.None?
    case Response => s.pc == Submitting(r) && l.LResume? && l.outcome.Responded?
    case Outputs => s.pc == AwaitingPrompt(r) && l == LResume(Returned)
  }

  /** The event that ends r's waiting with an error, and the error. */
  function Blame(s: State, l: Label, r: nat): Option<Reason>
    requires r < |s.works|
  {
    if !Enabled(s, l) then None
    else
      match l
      case LLeaveImage(q, completed) =>
        if q == r && !completed && r in s.queue then Some(ImageCancelled) else None
      case LLeaveBatch(b) =>
        var batch := s.seen.batches[b];
        if batch.first <= r < batch.first + batch.count && r in s.queue then Some(BatchCancelled) else None
      case LDrainClose => if r in s.queue then Some(BrokerClosing) else None
      case LCancel =>
        if s.closer == Drained && Current(s.pc) == Some(r) && !s.pc.AwaitingPrompt?
        then Some(BrokerClosing) else None
      case LCrash =>
        if ServesChat(s.pc) && s.pc.r == r then Some(DispatcherFailed) else None
      case LResume(o) =>
        if s.pc.MarkingFatal? then (if o.Wake? && r in s.queue then Some(DispatcherFailed) else None)
        else if Current(s.pc) != Some(r) then None
        else if ServesChat(s.pc) then ChatBlame(s, o, r)
        else ImageBlame(s, o, r)
      case _ => None
  }

  /** What a chat is told that cannot be served: the fatal error, else the recoverable one. */
  function Standing(s: State): Reason {
    if s.fatal.Some? then s.fatal.value
    else if s.recoverable.Some? then s.recoverable.value
    else NotReady
  }

  /** A backend or ComfyUI call of a chat's preparation raised, or the controls did not drain in time. */
  predicate ChatBreaks(pc: Pc, o: Outcome) {
    || (pc.ControlDrain? && o.TimedOut?)
    || (o.Raised? && (pc.Freeing? || pc.RestoreValidating? || pc.AcquiringTarget? || pc.RouterReleasing?
                      || pc.RouterAcquiring? || pc.RestoreObserving? || pc.Acquiring?))
  }

  function ChatBlame(s: State, o: Outcome, r: nat): Option<Reason>
    requires r < |s.works|
  {
    if s.pc.Granting? then
      if !o.Wake? || s.works[r].cancelled then None
      else if s.closing then Some(BrokerClosing)
      else s.fatal
    else if s.pc.RestoreMarking? then
      if o.Wake? then Some(if s.fatal.Some? then s.fatal.value else s.pc.reason) else None
    else if ChatBreaks(s.pc, o) && s.closing then Some(Standing(s))
    else None
  }

  /** The dispatch of an image raised. */
  predicate ImageBreaks(pc: Pc, o: Outcome) {
    || (pc.Draining? && o.TimedOut?)
    || (pc.Submitting? && o.Responded? && (o.rejected || !o.prompt))
    || (o.Raised? && (pc.ActivateValidating? || pc.ActivateAcquiring? || pc.ActivateObserving?
                      || pc.Releasing? || pc.Submitting? || pc.AwaitingPrompt?))
  }

  /** The image's turn is over without work: it was cancelled before the GPU was given to it. */
  predicate Skipped(s: State, o: Outcome, r: nat)
    requires r < |s.works|
  {
    s.works[r].cancelled
    && (|| ((s.pc.DrainEntry? || s.pc.Draining?) && o.Wake?)
        || (s.pc.Releasing? && o.Returned?)
        || (s.pc.ActivateObserving? && o == Gave(None)))
  }

  function ImageBlame(s: State, o: Outcome, r: nat): Option<Reason>
    requires r < |s.works|
  {
    if Skipped(s, o, r) then Some(ImageCancelled)
    else if s.pc.ImageMarking? then (if o.Wake? then Some(HandoffFailed) else None)
    else if s.pc.Interrupting? then
      (if o.Returned? then Some(BrokerClosing) else if o.Raised? then Some(DispatcherFailed) else None)
    else if ImageBreaks(s.pc, o) && (s.closing || s.owner != UNKNOWN) then Some(HandoffFailed)
    else None
  }

  /** What a future is after the step. */
  function Resolved(f: Future, fulfilled: bool, blame: Option<Reason>): Future {
    if !f.Pending? then f
    else if fulfilled then Value
    else if blame.Some? then Failure(blame.value)
    else Pending
  }

  function NextFuture(s: State, l: Label, r: nat, slot: Slot): Option<Future>
    requires r < |s.works|
  {
    var f := FutureOf(s.works[r], slot);
    if f.None? then None else Some(Resolved(f.value, Fulfils(s, l, r, slot), Blame(s, l, r)))
  }

  /** The step told r what these events say. */
  predicate Told(s: State, l: Label, t: State, r: nat) {
    r < |s.works| <= |t.works|
    && forall slot :: FutureOf(t.works[r], slot) == NextFuture(s, l, r, slot)
  }

  // ---------------------------------------------------------------- one step

  /** Only r was told anything. */
  predicate OthersUntold(s: State, t: State, r: nat) {
    && r < |s.works| == |t.works|
    && forall k :: 0 <= k < |s.works| && k != r ==> t.works[k] == s.works[k]
  }

  predicate ChatGets(s: State, t: State, r: nat, f: Future) {
    OthersUntold(s, t, r) && t.works[r].job.Chat? && t.works[r].job.ready == f
  }

  lemma QuietChat(s: State, t: State, r: nat)
    requires r < |s.works| && s.works[r].job.Chat? && t.works == s.works && s.works[r].job.ready.Pending?
    ensures ChatGets(s, t, r, Pending)
  {
  }

  lemma RefusedTells(s: State, r: nat, reason: Reason)
    requires r < |s.works| && s.works[r].job.Chat? && s.works[r].job.ready.Pending?
    ensures ChatGets(s, RefuseChat(s, r), r, Failure(Standing(s)))
    ensures ChatGets(s, RestoreFailed(s, r, reason), r, if s.closing then Failure(Standing(s)) else Pending)
  {
  }

  predicate Drains(pc: Pc) {
    pc.ChatEntry? || pc.ChatDrain? || pc.ControlEntry? || pc.ControlDrain?
  }

  lemma DrainTells(s: State, o: Outcome)
    requires Inv(s) && Drains(s.pc) && s.works[s.pc.r].job.ready.Pending?
    ensures ChatGets(s, ResumeChat(s, o), s.pc.r,
                     if ChatBreaks(s.pc, o) && s.closing then Failure(Standing(s)) else Pending)
  {
    var r := s.pc.r;
    if s.pc.ChatEntry? || s.pc.ChatDrain? {
      DecideLater(s, r);
    } else {
      RefusedTells(s, r, CleanupUnconfirmed);
    }
  }

  lemma PreparationTells(s: State, o: Outcome)
    requires Inv(s) && (s.pc.Freeing? || s.pc.RestoreValidating?) && s.works[s.pc.r].job.ready.Pending?
    ensures ChatGets(s, ResumeChat(s, o), s.pc.r,
                     if ChatBreaks(s.pc, o) && s.closing then Failure(Standing(s)) else Pending)
  {
    var r := s.pc.r;
    RefusedTells(s, r, CleanupUnconfirmed);
    if s.pc.Freeing? {
      DecideLater(s.(seen := s.seen.(dirty := false)), r);
    } else {
      DecideLater(s.(controlValidated := true), r);
      StumbleTells(s, r, o);
    }
  }

  lemma StumbleTells(s: State, r: nat, o: Outcome)
    requires r < |s.works| && s.works[r].job.Chat? && s.works[r].job.ready.Pending?
    ensures ChatGets(s, Stumble(s, r, o), r,
                     if o.Raised? && s.closing then Failure(Standing(s)) else Pending)
  {
    RefusedTells(s, r, if o.Raised? && o.vram then InsufficientVram else NotReady);
  }

  lemma AcquisitionTells(s: State, o: Outcome)
    requires Inv(s) && ServesChat(s.pc) && s.works[s.pc.r].job.ready.Pending?
    requires || s.pc.AcquiringTarget? || s.pc.RouterReleasing? || s.pc.RouterAcquiring?
             || s.pc.RestoreObserving? || s.pc.Acquiring?
    ensures ChatGets(s, ResumeChat(s, o), s.pc.r,
                     if ChatBreaks(s.pc, o) && s.closing then Failure(Standing(s)) else Pending)
  {
    StumbleTells(s, s.pc.r, o);
  }

  lemma GrantTells(s: State, o: Outcome)
    requires Inv(s) && s.pc.Granting? && s.works[s.pc.r].job.ready.Pending?
    ensures var r := s.pc.r;
            ChatGets(s, ResumeChat(s, o), r,
                     Resolved(Pending, Fulfils(s, LResume(o), r, Lease), ChatBlame(s, o, r)))
  {
  }

  lemma PreparingTells(s: State, o: Outcome)
    requires Inv(s) && ServesChat(s.pc) && !s.pc.Granting? && !s.pc.RestoreMarking?
    requires s.works[s.pc.r].job.ready.Pending?
    ensures ChatGets(s, ResumeChat(s, o), s.pc.r,
                     if ChatBreaks(s.pc, o) && s.closing then Failure(Standing(s)) else Pending)
  {
    if Drains(s.pc) {
      DrainTells(s, o);
    } else if s.pc.Freeing? || s.pc.RestoreValidating? {
      PreparationTells(s, o);
    } else {
      AcquisitionTells(s, o);
    }
  }

  lemma MarkingTells(s: State, o: Outcome)
    requires Inv(s) && s.pc.RestoreMarking? && s.works[s.pc.r].job.ready.Pending?
    ensures var r := s.pc.r;
            ChatGets(s, ResumeChat(s, o), r, Resolved(Pending, false, ChatBlame(s, o, r)))
  {
    RefusedTells(MarkRecoverable(s, s.pc.reason), s.pc.r, NotReady);
  }

  lemma HandPending(s: State)
    requires Inv(s) && ServesChat(s.pc)
    ensures s.works[s.pc.r].job.ready.Pending?
  {
    var r := s.pc.r;
    assert WorkOk(s.works[r], r, r in s.queue, true, r in s.seen.abandoned);
  }

  lemma ChatTells(s: State, o: Outcome)
    requires Inv(s) && ServesChat(s.pc)
    ensures var r := s.pc.r;
            ChatGets(s, ResumeChat(s, o), r,
                     Resolved(Pending, Fulfils(s, LResume(o), r, Lease), ChatBlame(s, o, r)))
  {
    HandPending(s);
    if s.pc.Granting? {
      GrantTells(s, o);
    } else if s.pc.RestoreMarking? {
      MarkingTells(s, o);
    } else {
      PreparingTells(s, o);
    }
  }

  // ---------------------------------------------------------------- one step of an image

  /** An image whose submission has not ended is waiting for its response. */
  predicate Unsent(s: State) {
    Current(s.pc).Some? && !ServesChat(s.pc) && s.pc.r < |s.works| && s.works[s.pc.r].job.Image?
    && !s.pc.ImageMarking? && !s.pc.Interrupting? ==>
      if s.pc.AwaitingPrompt? then s.works[s.pc.r].job.submitted.Value?
      else s.works[s.pc.r].job.submitted.Pending?
  }

  predicate ImageGets(s: State, t: State, r: nat, response: Future, outputs: Option<Future>) {
    && OthersUntold(s, t, r) && t.works[r].job.Image?
    && t.works[r].job.submitted == response && t.works[r].job.completion == outputs
    && Unsent(t)
  }

  /** Both futures get the same error, or nothing. */
  predicate ImageFails(s: State, t: State, r: nat, blame: Option<Reason>) {
    && r < |s.works| && s.works[r].job.Image?
    && ImageGets(s, t, r, Resolved(s.works[r].job.submitted, false, blame),
                 if s.works[r].job.completion.None? then None
                 else Some(Resolved(s.works[r].job.completion.value, false, blame)))
  }

  lemma ResolveTells(s: State, r: nat, reason: Reason, pc: Pc)
    requires r < |s.works| && s.works[r].job.Image? && Current(pc).None?
    ensures ImageFails(s, Resolve(s, r, reason).(pc := pc), r, Some(reason))
  {
  }

  lemma BrokenTells(s: State, r: nat)
    requires r < |s.works| && s.works[r].job.Image?
    ensures ImageFails(s, ImageFailed(s, r), r,
                       if s.closing || s.owner == COMFY || (s.owner == LLM && s.fatal.None?)
                       then Some(HandoffFailed) else None)
  {
    ResolveTells(s, r, HandoffFailed, Idle);
  }

  lemma SubmitTells(s: State, r: nat)
    requires r < |s.works| && s.works[r].job.Image? && s.works[r].job.submitted.Pending?
    ensures ImageFails(s, Submit(s, r), r, if s.works[r].cancelled then Some(ImageCancelled) else None)
    ensures ImageFails(s, GiveToComfy(s, r), r, if s.works[r].cancelled then Some(ImageCancelled) else None)
  {
  }

  lemma ActivateTells(s: State, r: nat)
    requires r < |s.works| && s.works[r].job.Image? && s.works[r].job.submitted.Pending?
    requires !s.works[r].cancelled && (s.owner == LLM ==> s.restorePoint.Some?)
    ensures ImageFails(s, Activate(s, r), r, None) && ImageFails(s, Activated(s, r), r, None)
  {
    SubmitTells(s, r);
  }

  lemma DrainedTells(s: State, r: nat)
    requires r < |s.works| && s.works[r].job.Image? && s.works[r].job.submitted.Pending?
    requires s.owner == LLM ==> s.restorePoint.Some?
    ensures ImageFails(s, DrainForImage(s, r), r,
                       if s.works[r].cancelled then Some(ImageCancelled) else None)
  {
    if !s.works[r].cancelled {
      ActivateTells(s, r);
    }
  }

  /** What the dispatch of an image knows in between. */
  predicate Handing(s: State) {
    && Awake(s) && Unsent(s) && Current(s.pc).Some? && !ServesChat(s.pc) && s.fatal.None?
    && (s.owner == LLM ==> s.restorePoint.Some?)
  }

  lemma DrainingTells(s: State, o: Outcome)
    requires Handing(s) && (s.pc.DrainEntry? || s.pc.Draining?) && s.owner != COMFY
    ensures ImageFails(s, ResumeImage(s, o), s.pc.r, ImageBlame(s, o, s.pc.r))
  {
    var r := s.pc.r;
    if o.Wake? {
      DrainedTells(if s.pc.DrainEntry? then s.(phase := DrainingLlm) else s, r);
    } else {
      BrokenTells(s, r);
    }
  }

  lemma ActivatingTells(s: State, o: Outcome)
    requires Handing(s) && (s.pc.ActivateValidating? || s.pc.ActivateAcquiring?) && s.owner != COMFY
    ensures ImageFails(s, ResumeImage(s, o), s.pc.r, ImageBlame(s, o, s.pc.r))
  {
    BrokenTells(s, s.pc.r);
  }

  lemma ObservingTells(s: State, o: Outcome)
    requires Handing(s) && s.pc.ActivateObserving? && s.owner == UNKNOWN
    ensures ImageFails(s, ResumeImage(s, o), s.pc.r, ImageBlame(s, o, s.pc.r))
  {
    var r := s.pc.r;
    if o.Raised? {
      BrokenTells(s, r);
    } else {
      SubmitTells(s.(seen := s.seen.(held := false)), r);
    }
  }

  lemma ReleasingTells(s: State, o: Outcome)
    requires Handing(s) && s.pc.Releasing? && s.owner == UNKNOWN
    ensures ImageFails(s, ResumeImage(s, o), s.pc.r, ImageBlame(s, o, s.pc.r))
  {
    var r := s.pc.r;
    if o.Raised? {
      BrokenTells(s, r);
    } else {
      SubmitTells(s.(seen := s.seen.(held := false)), r);
    }
  }

  /** What ComfyUI answered, and what became of the outputs. */
  predicate ImageEnds(s: State, o: Outcome, t: State) {
    && Current(s.pc).Some? && s.pc.r < |s.works| && s.works[s.pc.r].job.Image?
    && var r := s.pc.r;
       var job, l := s.works[r].job, LResume(o);
       ImageGets(s, t, r, Resolved(job.submitted, Fulfils(s, l, r, Response), ImageBlame(s, o, r)),
                 if job.completion.None? then None
                 else Some(Resolved(job.completion.value, Fulfils(s, l, r, Outputs), ImageBlame(s, o, r))))
  }

  lemma SubmittingTells(s: State, o: Outcome)
    requires Handing(s) && s.pc.Submitting? && s.owner == COMFY
    ensures ImageEnds(s, o, ResumeImage(s, o))
    ensures o.Responded? || o.Raised? ==> ResumeImage(s, o).works[s.pc.r].job.bytes == 0
  {
    var r := s.pc.r;
    if o.Raised? {
      BrokenTells(Forgotten(s, r), r);
    }
  }

  lemma PromptTells(s: State, o: Outcome)
    requires Handing(s) && s.pc.AwaitingPrompt? && s.owner == COMFY && !s.works[s.pc.r].job.submitted.Pending?
    ensures ImageEnds(s, o, ResumeImage(s, o))
  {
    if o.Raised? {
      BrokenTells(s, s.pc.r);
    }
  }

  lemma EndingTells(s: State, o: Outcome)
    requires Handing(s) && (s.pc.ImageMarking? || s.pc.Interrupting?)
    ensures ImageFails(s, ResumeImage(s, o), s.pc.r, ImageBlame(s, o, s.pc.r))
  {
    var r := s.pc.r;
    ResolveTells(s, r, BrokerClosing, Dead);
    ResolveTells(s, r, DispatcherFailed, MarkingFatal);
    ResolveTells(MarkRecoverable(s, OwnershipUnconfirmed), r, HandoffFailed, Idle);
  }

  lemma ImageTells(s: State, o: Outcome)
    requires Inv(s) && Unsent(s) && Current(s.pc).Some? && !ServesChat(s.pc)
    ensures ImageEnds(s, o, ResumeImage(s, o))
  {
    if s.pc.Submitting? {
      SubmittingTells(s, o);
    } else if s.pc.AwaitingPrompt? {
      PromptTells(s, o);
    } else if s.pc.ImageMarking? || s.pc.Interrupting? {
      EndingTells(s, o);
    } else if s.pc.DrainEntry? || s.pc.Draining? {
      DrainingTells(s, o);
    } else if s.pc.ActivateObserving? {
      ObservingTells(s, o);
    } else if s.pc.Releasing? {
      ReleasingTells(s, o);
    } else {
      ActivatingTells(s, o);
    }
  }

  // ---------------------------------------------------------------- one step of anybody

  lemma NextWorkTells(s: State)
    requires Inv(s) && s.pc.Idle?
    ensures NextWork(s).works == s.works && Unsent(NextWork(s))
  {
    if !Refuses(s) && s.queue != [] {
      var r := s.queue[0];
      assert WorkOk(s.works[r], r, true, false, r in s.seen.abandoned);
      var s1 := ReleaseAccounting(
        s.(queue := s.queue[1..], seen := s.seen.(dispatched := s.seen.dispatched + [r])), s.works[r]);
      if s1.works[r].job.Chat? {
        DecideLater(s1, r);
        ChatServed(s1, r);
      }
    }
  }

  /** What a chat's dispatch leads to is not an image's business. */
  lemma ChatServed(s: State, r: nat)
    requires r < |s.works| && s.works[r].job.Chat?
    ensures Unsent(DispatchChat(s, r))
  {
  }

  function Lost1(f: Future, failed: bool, reason: Reason): Future {
    if failed && f.Pending? then Failure(reason) else f
  }

  predicate Failed(w: Work, v: Work, failed: bool, reason: Reason) {
    match w.job
    case Chat(ready, _, _) => v.job.Chat? && v.job.ready == Lost1(ready, failed, reason)
    case Image(_, submitted, completion, _) =>
      && v.job.Image? && v.job.submitted == Lost1(submitted, failed, reason)
      && v.job.completion == if completion.None? then None else Some(Lost1(completion.value, failed, reason))
  }

  lemma {:induction false} FailQueuedTells(s: State, reason: Reason, r: nat)
    requires Allocated(s) && r < |s.works|
    ensures var t := FailQueued(s, reason);
            |t.works| == |s.works| && Failed(s.works[r], t.works[r], r in s.queue, reason)
    decreases |s.queue|
  {
    if s.queue != [] {
      var s1 := FirstTells(s, reason, r);
      FailQueuedTells(s1, reason, r);
      FailedTwice(s.works[r], s1.works[r], FailQueued(s, reason).works[r], r == s.queue[0], r in s1.queue, reason);
    }
  }

  lemma FirstTells(s: State, reason: Reason, r: nat) returns (t: State)
    requires Allocated(s) && r < |s.works| && s.queue != []
    ensures t == Resolve(ReleaseAccounting(s.(queue := s.queue[1..]), s.works[s.queue[0]]), s.queue[0], reason)
    ensures |t.works| == |s.works| && Allocated(t) && t.queue == s.queue[1..]
    ensures Failed(s.works[r], t.works[r], r == s.queue[0], reason)
  {
    t := Resolve(ReleaseAccounting(s.(queue := s.queue[1..]), s.works[s.queue[0]]), s.queue[0], reason);
  }

  lemma FailedTwice(w: Work, u: Work, v: Work, first: bool, second: bool, reason: Reason)
    requires Failed(w, u, first, reason) && Failed(u, v, second, reason)
    ensures Failed(w, v, first || second, reason)
  {
  }

  /** The record of a batch member after its batch was left. */
  function Withdrawn1(w: Work, queued: bool): Work {
    if w.job.Image? && w.job.completion == Some(Pending) then CancelledImage(w, queued, BatchCancelled) else w
  }

  lemma {:induction false} LeaveBatchIs(s: State, first: nat, count: nat, r: nat, queued: bool)
    returns (t: State)
    requires Numbered(s) && Members(s, first, count) && r < |s.works|
    requires first <= r < first + count ==> queued == (r in s.queue)
    ensures t == LeaveBatch(s, first, count) && |t.works| == |s.works|
    ensures t.works[r] == if first <= r < first + count then Withdrawn1(s.works[r], queued) else s.works[r]
    decreases count
  {
    if count == 0 {
      t := s;
    } else {
      var u := MemberIs(s, first, count, r, queued);
      t := LeaveBatchIs(u, first + 1, count - 1, r, queued);
    }
  }

  lemma MemberIs(s: State, first: nat, count: nat, r: nat, queued: bool) returns (t: State)
    requires Numbered(s) && Members(s, first, count) && count > 0 && r < |s.works|
    requires first <= r < first + count ==> queued == (r in s.queue)
    ensures Numbered(t) && Members(t, first + 1, count - 1)
    ensures LeaveBatch(s, first, count) == LeaveBatch(t, first + 1, count - 1)
    ensures |t.works| == |s.works|
    ensures t.works[r] == (if r == first then Withdrawn1(s.works[r], queued) else s.works[r])
    ensures first + 1 <= r < first + count ==> queued == (r in t.queue)
  {
    t := AfterMember(s, first);
    if s.works[first].job.completion.value.Pending? {
      CancelledIs(s, first, BatchCancelled);
    }
  }

  lemma CancelledIs(s: State, r: nat, reason: Reason)
    requires Numbered(s) && r < |s.works| && s.works[r].job.Image?
    ensures var t := CancelImage(s, r, reason);
            && Numbered(t) && t.works == s.works[r := CancelledImage(s.works[r], r in s.queue, reason)]
            && forall k :: k in t.queue <==> k in s.queue && k != r
  {
    var v := CancelledImage(s.works[r], r in s.queue, reason);
    CancelImageIs(s, r, reason);
    RemovePut(s, r, v);
    StillQueued(s.queue, r);
    if r in s.queue {
      StillNumbered(s, CancelImage(s, r, reason), r, v, Remaining(s.queue, r));
    } else {
      StillNumbered(s, CancelImage(s, r, reason), r, v, s.queue);
    }
  }

  lemma StillQueued(queue: seq<nat>, r: nat)
    requires Ordered(queue)
    ensures var rest := Remaining(queue, r);
            && Ordered(rest) && (forall k :: k in rest <==> k in queue && k != r)
            && (forall i :: 0 <= i < |rest| ==> rest[i] in queue)
  {
    RemainingMembers(queue, r);
    var rest := Remaining(queue, r);
    forall i | 0 <= i < |rest|
      ensures rest[i] in queue
    {
      assert rest[i] in rest;
    }
  }

  lemma StillNumbered(s: State, t: State, r: nat, w: Work, queue: seq<nat>)
    requires Numbered(s) && r < |s.works| && w.sequence == r + 1
    requires t.works == s.works[r := w] && t.queue == queue && Ordered(queue)
    requires forall i :: 0 <= i < |queue| ==> queue[i] in s.queue
    ensures Numbered(t)
  {
  }

  /** What a step that may only fail r tells it. */
  lemma FailedTold(s: State, l: Label, t: State, r: nat, failed: bool, reason: Reason)
    requires r < |s.works| <= |t.works| && Failed(s.works[r], t.works[r], failed, reason)
    requires Blame(s, l, r) == if failed then Some(reason) else None
    requires Fulfils(s, l, r, Lease) || Fulfils(s, l, r, Response) || Fulfils(s, l, r, Outputs) ==> false
    ensures Told(s, l, t, r)
  {
  }

  lemma SameTold(s: State, l: Label, t: State, r: nat)
    requires r < |s.works| <= |t.works| && Failed(s.works[r], t.works[r], false, NotReady)
    requires Blame(s, l, r).None?
    requires Fulfils(s, l, r, Lease) || Fulfils(s, l, r, Response) || Fulfils(s, l, r, Outputs) ==> false
    ensures Told(s, l, t, r)
  {
    FailedTold(s, l, t, r, false, NotReady);
  }

  lemma ChatGotten(s: State, o: Outcome, t: State, r: nat)
    requires Awake(s) && ServesChat(s.pc) && r < |s.works|
    requires s.works[s.pc.r].job.ready.Pending?
    requires ChatGets(s, t, s.pc.r, Resolved(Pending, Fulfils(s, LResume(o), s.pc.r, Lease),
                                             ChatBlame(s, o, s.pc.r)))
    ensures Told(s, LResume(o), t, r)
  {
    if r != s.pc.r {
      SameTold(s, LResume(o), t, r);
    }
  }

  lemma ImageGotten(s: State, o: Outcome, t: State, r: nat)
    requires Awake(s) && Current(s.pc).Some? && !ServesChat(s.pc) && r < |s.works|
    requires ImageEnds(s, o, t)
    ensures Told(s, LResume(o), t, r)
  {
    if r != s.pc.r {
      SameTold(s, LResume(o), t, r);
    }
  }

  lemma HandTold(s: State, o: Outcome, r: nat)
    requires Inv(s) && Unsent(s) && Current(s.pc).Some? && r < |s.works|
    ensures Told(s, LResume(o), Resume(s, o), r)
  {
    if ServesChat(s.pc) {
      HandPending(s);
      ChatTells(s, o);
      ChatGotten(s, o, ResumeChat(s, o), r);
    } else {
      ImageTells(s, o);
      ImageGotten(s, o, ResumeImage(s, o), r);
    }
  }

  lemma IdleTold(s: State, o: Outcome, r: nat)
    requires Inv(s) && s.pc.Idle? && r < |s.works|
    ensures Told(s, LResume(o), Resume(s, o), r)
  {
    var t := IdleWorks(s, o);
    SameTold(s, LResume(o), t, r);
  }

  lemma IdleWorks(s: State, o: Outcome) returns (t: State)
    requires Inv(s) && s.pc.Idle?
    ensures t == Resume(s, o) && t.works == s.works
  {
    NextWorkTells(s);
    t := Resume(s, o);
  }

  lemma FatalTold(s: State, o: Outcome, r: nat)
    requires Awake(s) && s.pc.MarkingFatal? && r < |s.works|
    ensures Told(s, LResume(o), Resume(s, o), r)
  {
    FailQueuedTells(s.(fatal := Some(DispatcherFailed), phase := Error), DispatcherFailed, r);
    FailedTold(s, LResume(o), Resume(s, o), r, o.Wake? && r in s.queue, DispatcherFailed);
  }

  lemma ResumeTold(s: State, o: Outcome, r: nat)
    requires Inv(s) && Unsent(s) && r < |s.works|
    ensures Told(s, LResume(o), Resume(s, o), r)
  {
    if Current(s.pc).Some? {
      HandTold(s, o, r);
    } else if s.pc.Idle? {
      IdleTold(s, o, r);
    } else if s.pc.MarkingFatal? {
      FatalTold(s, o, r);
    } else {
      SameTold(s, LResume(o), s, r);
    }
  }

  lemma CancelTold(s: State, r: nat)
    requires Awake(s) && r < |s.works|
    ensures Told(s, LCancel, Cancel(s), r)
  {
    FailedTold(s, LCancel, Cancel(s), r,
               s.closer == Drained && Current(s.pc) == Some(r) && !s.pc.AwaitingPrompt?, BrokerClosing);
  }

  lemma CrashTold(s: State, r: nat)
    requires Awake(s) && r < |s.works|
    ensures Told(s, LCrash, Crash(s), r)
  {
    FailedTold(s, LCrash, Crash(s), r, ServesChat(s.pc) && s.pc.r == r, DispatcherFailed);
  }

  lemma DrainTold(s: State, r: nat)
    requires Awake(s) && s.closer == Begun && r < |s.works|
    ensures Told(s, LDrainClose, DrainClose(s), r)
  {
    FailQueuedTells(s, BrokerClosing, r);
    FailedTold(s, LDrainClose, DrainClose(s), r, r in s.queue, BrokerClosing);
  }

  lemma LeaveImageTold(s: State, q: nat, completed: bool, r: nat)
    requires Numbered(s) && Enabled(s, LLeaveImage(q, completed)) && r < |s.works|
    ensures Told(s, LLeaveImage(q, completed), LeaveImage(s, q, completed), r)
  {
    CancelledIs(s, q, ImageCancelled);
    FailedTold(s, LLeaveImage(q, completed), LeaveImage(s, q, completed), r,
               q == r && !completed && r in s.queue, ImageCancelled);
  }

  lemma LeaveBatchTold(s: State, b: nat, r: nat)
    requires Numbered(s) && Enabled(s, LLeaveBatch(b)) && r < |s.works|
    requires r in s.queue && s.works[r].job.Image? ==> Unsettled(s.works[r].job.completion)
    ensures Told(s, LLeaveBatch(b), Step(s, LLeaveBatch(b)), r)
  {
    var batch := s.seen.batches[b];
    var s1 := s.(seen := s.seen.(batches := s.seen.batches[b := batch.(open := false)]));
    var t := LeaveBatchIs(s1, batch.first, batch.count, r, r in s.queue);
    FailedTold(s, LLeaveBatch(b), t, r, batch.first <= r < batch.first + batch.count && r in s.queue,
               BatchCancelled);
  }

  lemma ChatTold(s: State, l: Label, r: nat)
    requires Inv(s) && Enabled(s, l) && (l.LLeaveChat? || l.LEnterChat?) && r < |s.works|
    ensures Told(s, l, Step(s, l), r)
  {
    if l.LLeaveChat? {
      Sequenced(s, Current(s.pc));
      assert WorkOk(s.works[l.r], l.r, l.r in s.queue, Current(s.pc) == Some(l.r), l.r in s.seen.abandoned);
      LeaveChatFrame(s, l.r);
    }
    SameTold(s, l, Step(s, l), r);
  }

  lemma AdmitTold(s: State, l: Label, r: nat)
    requires Enabled(s, l) && Admits(l) && r < |s.works|
    ensures Told(s, l, Step(s, l), r)
  {
    if l.LSubmitImage? {
      AppendImagesIs(s, [l.size], if l.notifies then Some(Pending) else None, |s.works|);
    } else if l.LSubmitBatch? {
      AppendImagesIs(s, l.sizes, Some(Pending), |s.works|);
    }
    SameTold(s, l, Step(s, l), r);
  }

  predicate OfLease(l: Label) {
    && !Queues(l) && !l.LResume? && !l.LCancel? && !l.LCrash? && !l.LDrainClose?
  }

  lemma LeaseTold(s: State, l: Label, r: nat)
    requires Enabled(s, l) && r < |s.works| && OfLease(l)
    ensures Told(s, l, Step(s, l), r)
  {
    SameTold(s, l, Step(s, l), r);
  }

  lemma ClientTold(s: State, l: Label, r: nat)
    requires Inv(s) && Enabled(s, l) && r < |s.works| && Queues(l)
    ensures Told(s, l, Step(s, l), r)
  {
    Sequenced(s, Current(s.pc));
    assert WorkOk(s.works[r], r, r in s.queue, Current(s.pc) == Some(r), r in s.seen.abandoned);
    if l.LLeaveImage? {
      LeaveImageTold(s, l.r, l.completed, r);
    } else if l.LLeaveBatch? {
      LeaveBatchTold(s, l.b, r);
    } else if Admits(l) {
      AdmitTold(s, l, r);
    } else {
      ChatTold(s, l, r);
    }
  }

  /** Every step tells every work exactly what the tables say. */
  lemma StepTold(s: State, l: Label, r: nat)
    requires Inv(s) && Unsent(s) && r < |s.works|
    ensures Told(s, l, Step(s, l), r)
  {
    if !Enabled(s, l) {
      NothingTold(s, l, r);
    } else if l.LResume? {
      ResumeTold(s, l.outcome, r);
    } else if l.LCancel? {
      CancelTold(s, r);
    } else if l.LCrash? {
      CrashTold(s, r);
    } else if l.LDrainClose? {
      DrainTold(s, r);
    } else if Queues(l) {
      ClientTold(s, l, r);
    } else {
      LeaseTold(s, l, r);
    }
  }

  lemma NothingTold(s: State, l: Label, r: nat)
    requires Awake(s) && !Enabled(s, l) && r < |s.works|
    ensures Told(s, l, s, r)
  {
    SameTold(s, l, s, r);
  }

  lemma ChatHand(s: State, o: Outcome)
    requires Awake(s) && ServesChat(s.pc)
    ensures Current(ResumeChat(s, o).pc) in {None, Some(s.pc.r)}
  {
    var r := s.pc.r;
    if s.pc.ChatEntry? || s.pc.ChatDrain? {
      DecideHand(s.(phase := DrainingLlm), r);
    } else if s.pc.Freeing? {
      DecideHand(s.(seen := s.seen.(dirty := false)), r);
    } else if s.pc.RestoreValidating? {
      DecideHand(s.(controlValidated := true), r);
    }
  }

  lemma DecideHand(s: State, r: nat)
    requires r < |s.works| && s.works[r].job.Chat?
    ensures Current(Decide(s, r).pc) == Some(r) && Current(BeginReload(s, r).pc) == Some(r)
    ensures Current(Reload(s, r).pc) == Some(r)
  {
  }

  lemma HandUnsent(s: State, o: Outcome)
    requires Inv(s) && Unsent(s)
    ensures Unsent(Resume(s, o))
  {
    if ServesChat(s.pc) {
      ChatHand(s, o);
      ChatTells(s, o);
    } else if Current(s.pc).Some? {
      ImageTells(s, o);
    } else if s.pc.Idle? {
      NextWorkTells(s);
    }
  }

  lemma ClientUnsent(s: State, l: Label)
    requires Inv(s) && Unsent(s) && Enabled(s, l) && !l.LResume? && !l.LCancel? && !l.LCrash?
    requires Step(s, l).pc == s.pc && (Current(s.pc).Some? ==> Told(s, l, Step(s, l), s.pc.r))
    ensures Unsent(Step(s, l))
  {
    if Current(s.pc).Some? {
      HandNotQueued(s);
      assert FutureOf(Step(s, l).works[s.pc.r], Response) == NextFuture(s, l, s.pc.r, Response);
    }
  }

  lemma HandNotQueued(s: State)
    requires Inv(s) && Current(s.pc).Some?
    ensures s.pc.r !in s.queue
  {
  }

  lemma ClientsLeaveHand(s: State, l: Label)
    requires Inv(s) && Enabled(s, l) && !l.LResume? && !l.LCancel? && !l.LCrash?
    ensures Step(s, l).pc == s.pc
  {
    if Queues(l) {
      QueueStays(s, l);
    } else if l.LDrainClose? {
      FailQueuedFrame(s, BrokerClosing);
    }
  }

  lemma StepUnsent(s: State, l: Label)
    requires Inv(s) && Unsent(s)
    ensures Unsent(Step(s, l))
  {
    if Enabled(s, l) {
      if l.LResume? {
        HandUnsent(s, l.outcome);
      } else if !l.LCancel? && !l.LCrash? {
        ClientsLeaveHand(s, l);
        if Current(s.pc).Some? {
          StepTold(s, l, s.pc.r);
        }
        ClientUnsent(s, l);
      }
    }
  }

  /** What is admitted waits. */
  lemma NewWaits(s: State, l: Label, r: nat, slot: Slot)
    requires Inv(s) && |s.works| <= r < |Step(s, l).works|
    ensures FutureOf(Step(s, l).works[r], slot) in {None, Some(Pending)}
  {
    if !Admits(l) {
      StepHandles(s, l);
    } else if Enabled(s, l) {
      if l.LSubmitImage? {
        AppendImagesIs(s, [l.size], if l.notifies then Some(Pending) else None, |s.works|);
      } else if l.LSubmitBatch? {
        AppendImagesIs(s, l.sizes, Some(Pending), |s.works|);
      }
    }
  }

  // ---------------------------------------------------------------- over runs

  /** At the n-th step of the run r was given what it waits for. */
  predicate Served(s: State, run: seq<Label>, n: nat, r: nat, slot: Slot)
    requires n < |run|
  {
    var t := After(s, run[..n]);
    r < |t.works| && Fulfils(t, run[n], r, slot)
  }

  /** At the n-th step of the run r, still waiting and not served by that step, was given an error. */
  predicate Refused(s: State, run: seq<Label>, n: nat, r: nat, slot: Slot, reason: Reason)
    requires n < |run|
  {
    var t := After(s, run[..n]);
    r < |t.works| && FutureOf(t.works[r], slot) == Some(Pending)
    && Blame(t, run[n], r) == Some(reason) && !Fulfils(t, run[n], r, slot)
  }

  lemma FulfilPending(s: State, l: Label, r: nat, slot: Slot)
    requires Inv(s) && Unsent(s) && r < |s.works| && Fulfils(s, l, r, slot)
    ensures FutureOf(s.works[r], slot) in {None, Some(Pending)}
  {
    assert WorkOk(s.works[r], r, r in s.queue, Current(s.pc) == Some(r), r in s.seen.abandoned);
  }

  lemma {:induction false} RunUnsent(s: State, run: seq<Label>)
    requires Inv(s) && Unsent(s)
    ensures Inv(After(s, run)) && Unsent(After(s, run))
  {
    RunKeeps(s, run);
    if run != [] {
      RunUnsent(s, run[..|run| - 1]);
      StepUnsent(After(s, run[..|run| - 1]), run[|run| - 1]);
    }
  }

  lemma {:induction false} LedgerGrows(s: State, run: seq<Label>, n: nat)
    requires Inv(s) && n <= |run|
    ensures |After(s, run[..n]).works| <= |After(s, run).works|
    decreases |run|
  {
    if n == |run| {
      assert run[..n] == run;
    } else {
      var front := run[..|run| - 1];
      LedgerGrows(s, front, n);
      assert front[..n] == run[..n];
      RunKeeps(s, front);
      StepLater(After(s, front), run[|run| - 1]);
    }
  }

  predicate EverServed(s: State, run: seq<Label>, r: nat, slot: Slot) {
    exists n :: 0 <= n < |run| && Served(s, run, n, r, slot)
  }

  predicate EverRefused(s: State, run: seq<Label>, r: nat, slot: Slot, reason: Reason) {
    exists n :: 0 <= n < |run| && Refused(s, run, n, r, slot, reason)
  }

  lemma SamePrefix(s: State, run: seq<Label>, n: nat)
    requires n < |run| - 1
    ensures var front := run[..|run| - 1]; front[..n] == run[..n] && front[n] == run[n]
  {
  }

  lemma EarlierEvent(s: State, run: seq<Label>, n: nat, r: nat, slot: Slot, reason: Reason)
    requires n < |run| - 1
    ensures var front := run[..|run| - 1];
            && Served(s, run, n, r, slot) == Served(s, front, n, r, slot)
            && Refused(s, run, n, r, slot, reason) == Refused(s, front, n, r, slot, reason)
  {
    SamePrefix(s, run, n);
  }

  /** The events of a run are those of its front, and perhaps its last step. */
  lemma LastServed(s: State, run: seq<Label>, r: nat, slot: Slot)
    requires run != []
    ensures EverServed(s, run, r, slot) <==>
              EverServed(s, run[..|run| - 1], r, slot) || Served(s, run, |run| - 1, r, slot)
  {
    var front := run[..|run| - 1];
    if EverServed(s, front, r, slot) {
      var n :| 0 <= n < |front| && Served(s, front, n, r, slot);
      EarlierEvent(s, run, n, r, slot, NotReady);
    }
    if EverServed(s, run, r, slot) {
      var n :| 0 <= n < |run| && Served(s, run, n, r, slot);
      if n < |front| {
        EarlierEvent(s, run, n, r, slot, NotReady);
      }
    }
  }

  lemma LastRefused(s: State, run: seq<Label>, r: nat, slot: Slot, reason: Reason)
    requires run != []
    ensures EverRefused(s, run, r, slot, reason) <==>
              EverRefused(s, run[..|run| - 1], r, slot, reason)
              || Refused(s, run, |run| - 1, r, slot, reason)
  {
    if EverRefused(s, run[..|run| - 1], r, slot, reason) {
      StillRefused(s, run, r, slot, reason);
    }
    if EverRefused(s, run, r, slot, reason) && !Refused(s, run, |run| - 1, r, slot, reason) {
      AlreadyRefused(s, run, r, slot, reason);
    }
  }

  lemma StillRefused(s: State, run: seq<Label>, r: nat, slot: Slot, reason: Reason)
    requires run != [] && EverRefused(s, run[..|run| - 1], r, slot, reason)
    ensures EverRefused(s, run, r, slot, reason)
  {
    var n :| 0 <= n < |run| - 1 && Refused(s, run[..|run| - 1], n, r, slot, reason);
    EarlierEvent(s, run, n, r, slot, reason);
  }

  lemma AlreadyRefused(s: State, run: seq<Label>, r: nat, slot: Slot, reason: Reason)
    requires EverRefused(s, run, r, slot, reason) && !Refused(s, run, |run| - 1, r, slot, reason)
    ensures EverRefused(s, run[..|run| - 1], r, slot, reason)
  {
    var n :| 0 <= n < |run| && Refused(s, run, n, r, slot, reason);
    EarlierEvent(s, run, n, r, slot, reason);
  }

  /** Nothing happens to a work before it is admitted. */
  lemma NoEvents(s: State, run: seq<Label>, r: nat, slot: Slot, reason: Reason)
    requires Inv(s) && r >= |After(s, run).works|
    ensures !EverServed(s, run, r, slot) && !EverRefused(s, run, r, slot, reason)
  {
    forall n | 0 <= n < |run|
      ensures r >= |After(s, run[..n]).works|
    {
      LedgerGrows(s, run, n);
    }
  }

  lemma OneMore(f: Future, g: Future, fulfilled: bool, blame: Option<Reason>, a: bool, b: bool, x: Reason)
    requires g == Resolved(f, fulfilled, blame) && (fulfilled ==> f.Pending?)
    requires (f == Value <==> a) && (f == Failure(x) <==> b)
    ensures g == Value <==> a || fulfilled
    ensures g == Failure(x) <==> b || (f.Pending? && blame == Some(x) && !fulfilled)
  {
  }

  /** The whole story of every future of every work, over every run: it has its value exactly if the
      run served it, and a reason exactly if the run refused it for that reason. */
  lemma {:induction false} EveryFutureExplained(s: State, run: seq<Label>, r: nat, slot: Slot, reason: Reason)
    requires Inv(s) && Unsent(s) && s.works == []
    requires r < |After(s, run).works| && FutureOf(After(s, run).works[r], slot).Some?
    ensures var f := FutureOf(After(s, run).works[r], slot).value;
            && (f == Value <==> EverServed(s, run, r, slot))
            && (f == Failure(reason) <==> EverRefused(s, run, r, slot, reason))
    decreases |run|
  {
    var front, l := run[..|run| - 1], run[|run| - 1];
    var t := After(s, front);
    RunUnsent(s, front);
    LastServed(s, run, r, slot);
    LastRefused(s, run, r, slot, reason);
    if r < |t.works| {
      StepTold(t, l, r);
      EveryFutureExplained(s, front, r, slot, reason);
      StepExplained(t, l, r, slot, EverServed(s, front, r, slot), EverRefused(s, front, r, slot, reason), reason);
    } else {
      NewWaits(t, l, r, slot);
      NoEvents(s, front, r, slot, reason);
    }
  }

  lemma StepExplained(t: State, l: Label, r: nat, slot: Slot, a: bool, b: bool, x: Reason)
    requires Inv(t) && Unsent(t) && r < |t.works| && Told(t, l, Step(t, l), r)
    requires FutureOf(Step(t, l).works[r], slot).Some?
    requires FutureOf(t.works[r], slot).Some? ==>
               (FutureOf(t.works[r], slot).value == Value <==> a)
               && (FutureOf(t.works[r], slot).value == Failure(x) <==> b)
    ensures FutureOf(t.works[r], slot).Some?
    ensures var f, g := FutureOf(t.works[r], slot).value, FutureOf(Step(t, l).works[r], slot).value;
            && (g == Value <==> a || Fulfils(t, l, r, slot))
            && (g == Failure(x) <==>
                  b || (f.Pending? && Blame(t, l, r) == Some(x) && !Fulfils(t, l, r, slot)))
  {
    assert FutureOf(Step(t, l).works[r], slot) == NextFuture(t, l, r, slot);
    if Fulfils(t, l, r, slot) {
      FulfilPending(t, l, r, slot);
    }
    OneMore(FutureOf(t.works[r], slot).value, FutureOf(Step(t, l).works[r], slot).value,
            Fulfils(t, l, r, slot), Blame(t, l, r), a, b, x);
  }

  // ---------------------------------------------------------------- what is given, exactly

  /** An image's outputs arrive exactly if the wait for its prompt returned, in every run. */
  lemma OutputsExactly(cfg: Config, snapshot: Option<Point>, held: bool, run: seq<Label>, r: nat)
    requires var works := After(Initial(cfg, snapshot, held), run).works;
             r < |works| && works[r].job.Image? && works[r].job.completion.Some?
    ensures var start := Initial(cfg, snapshot, held);
            After(start, run).works[r].job.completion == Some(Value) <==>
            exists n :: 0 <= n < |run|
              && After(start, run[..n]).pc == AwaitingPrompt(r) && run[n] == LResume(Returned)
  {
    var start := Initial(cfg, snapshot, held);
    Explained(cfg, snapshot, held, run, r, Outputs, NotReady);
    forall n | 0 <= n < |run|
      ensures Served(start, run, n, r, Outputs) <==>
                After(start, run[..n]).pc == AwaitingPrompt(r) && run[n] == LResume(Returned)
    {
      AwakeAt(cfg, snapshot, held, run[..n]);
    }
  }

  /** An image's submission is answered with ComfyUI's response exactly if ComfyUI gave one. */
  lemma ResponsesExactly(cfg: Config, snapshot: Option<Point>, held: bool, run: seq<Label>, r: nat)
    requires var works := After(Initial(cfg, snapshot, held), run).works;
             r < |works| && works[r].job.Image?
    ensures var start := Initial(cfg, snapshot, held);
            After(start, run).works[r].job.submitted == Value <==>
            exists n :: 0 <= n < |run|
              && After(start, run[..n]).pc == Submitting(r) && run[n].LResume? && run[n].outcome.Responded?
  {
    var start := Initial(cfg, snapshot, held);
    Explained(cfg, snapshot, held, run, r, Response, NotReady);
    forall n | 0 <= n < |run|
      ensures Served(start, run, n, r, Response) <==>
                After(start, run[..n]).pc == Submitting(r) && run[n].LResume? && run[n].outcome.Responded?
    {
      AwakeAt(cfg, snapshot, held, run[..n]);
    }
  }

  /** A chat gets its lease exactly if the dispatcher reached its grant while the chat was still wanted
      and the broker neither closing nor failed. */
  lemma LeasesExactly(cfg: Config, snapshot: Option<Point>, held: bool, run: seq<Label>, r: nat)
    requires var works := After(Initial(cfg, snapshot, held), run).works;
             r < |works| && works[r].job.Chat?
    ensures var start := Initial(cfg, snapshot, held);
            After(start, run).works[r].job.ready == Value <==>
            exists n :: 0 <= n < |run|
              && var t := After(start, run[..n]);
                 t.pc == Granting(r) && run[n] == LResume(Wake)
                 && r < |t.works| && !t.works[r].cancelled && !t.closing && t.fatal.None?
  {
    var start := Initial(cfg, snapshot, held);
    Explained(cfg, snapshot, held, run, r, Lease, NotReady);
    forall n | 0 <= n < |run|
      ensures Served(start, run, n, r, Lease) <==>
                var t := After(start, run[..n]);
                t.pc == Granting(r) && run[n] == LResume(Wake)
                && r < |t.works| && !t.works[r].cancelled && !t.closing && t.fatal.None?
    {
      AwakeAt(cfg, snapshot, held, run[..n]);
    }
  }

  lemma Explained(cfg: Config, snapshot: Option<Point>, held: bool, run: seq<Label>, r: nat, slot: Slot,
                  reason: Reason)
    requires var works := After(Initial(cfg, snapshot, held), run).works;
             r < |works| && FutureOf(works[r], slot).Some?
    ensures var start := Initial(cfg, snapshot, held);
            var f := FutureOf(After(start, run).works[r], slot).value;
            && (f == Value <==> EverServed(start, run, r, slot))
            && (f == Failure(reason) <==> EverRefused(start, run, r, slot, reason))
  {
    InitialHolds(cfg, snapshot, held);
    EveryFutureExplained(Initial(cfg, snapshot, held), run, r, slot, reason);
  }

  lemma AwakeAt(cfg: Config, snapshot: Option<Point>, held: bool, run: seq<Label>)
    ensures Awake(After(Initial(cfg, snapshot, held), run))
  {
    InitialHolds(cfg, snapshot, held);
    RunKeeps(Initial(cfg, snapshot, held), run);
  }
}
