/** One step of the handoff protocol, by any client or by the dispatcher, keeps the invariant. */
module HandoffSteps {
  import opened Basics
  import opened Handoff
  import opened HandoffInvariant
  import opened HandoffBooks
  import opened HandoffDispatch
  import opened HandoffClients

  // ---------------------------------------------------------------- clients

  /** A client section changes records and queue, and leaves the gate alone. */
  lemma ClientKeeps(s: State, t: State)
    requires Inv(s) && BooksFor(t, Current(s.pc)) && Evolves(s.works, t.works)
    requires GateUntouched(s.(seen := t.seen), t)
    requires t.seen.dirty == s.seen.dirty && t.seen.held == s.seen.held
    requires t.seen.metadataHeld == s.seen.metadataHeld
    requires t.seen.controlsHeld == s.seen.controlsHeld
    ensures Inv(t)
  {
    CurrentPersists(s, t);
  }

  lemma CurrentPersists(s: State, t: State)
    requires Awake(s) && Books(s) && Evolves(s.works, t.works)
    requires s.pc == t.pc && s.restorePoint == t.restorePoint
    requires BooksFor(t, Current(t.pc))
    ensures Awake(t) && Books(t)
  {
    if Current(s.pc).Some? {
      assert Grew(s.works[s.pc.r], t.works[s.pc.r]);
    }
  }

  lemma PutEvolves(works: seq<Work>, r: nat, w: Work)
    requires r < |works| && Grew(works[r], w)
    ensures Evolves(works, works[r := w])
  {
  }

  /** A client changes one record, neither its size nor its grant. */
  lemma ClientPutBooks(s: State, r: nat, w: Work, current: Option<nat>)
    requires BooksFor(s, current) && r < |s.works| && Kin(s.works[r], w)
    requires Size(s.works[r]) == Size(w) && GrantUnit(s.works[r]) == GrantUnit(w)
    requires WorkOk(w, r, r in s.queue, current == Some(r), r in s.seen.abandoned)
    ensures BooksFor(Put(s, r, w), current)
  {
    PutBooks(s, r, w, current, current);
    assert Put(s, r, w).(activeChats := s.activeChats - GrantUnit(s.works[r]) + GrantUnit(w))
        == Put(s, r, w);
  }

  lemma ClientPuts(s: State, r: nat, w: Work)
    requires Inv(s) && r < |s.works| && Grew(s.works[r], w)
    requires Size(s.works[r]) == Size(w) && GrantUnit(s.works[r]) == GrantUnit(w)
    requires WorkOk(w, r, r in s.queue, Current(s.pc) == Some(r), r in s.seen.abandoned)
    ensures Inv(Put(s, r, w))
  {
    ClientPutBooks(s, r, w, Current(s.pc));
    PutEvolves(s.works, r, w);
    ClientKeeps(s, Put(s, r, w));
  }

  /** Admission happens only before any failure or shutdown, where nothing forbids a longer queue. */
  lemma AdmitGate(s: State, t: State)
    requires Gate(s) && !Refuses(s) && GateUntouched(s.(queue := t.queue), t)
    ensures Gate(t)
  {
  }

  lemma AdmitChatKeeps(s: State, target: Option<Point>)
    requires Inv(s) && (target.Some? ==> s.cfg.Targeted())
    ensures Inv(AdmitChat(s, target))
  {
    if !Refuses(s) {
      var w := Work(s.sequence + 1, false, Waiting, Chat(Pending, false, target));
      var t := AppendQueued(s, w);
      AppendBooks(s, w, Current(s.pc));
      CurrentPersists(s, t);
      AdmitGate(s, t);
    }
  }

  lemma EnterChatKeeps(s: State, r: nat)
    requires Inv(s) && OpenChat(s, r) && s.works[r].caller.Waiting? && s.works[r].job.ready.Value?
    ensures Inv(EnterChat(s, r))
  {
    var w := s.works[r];
    assert WorkOk(w, r, r in s.queue, Current(s.pc) == Some(r), r in s.seen.abandoned);
    ClientPuts(s, r, w.(caller := Entered));
  }

  lemma LeaveChatFrame(s: State, r: nat)
    requires Numbered(s) && OpenChat(s, r)
    requires r in s.queue ==> s.works[r].caller.Waiting?
    ensures var t := LeaveChat(s, r);
            && t.works == s.works[r := LeftChat(s.works[r])]
            && t.activeChats == s.activeChats - GrantUnit(s.works[r])
            && GateUntouched(s.(activeChats := t.activeChats), t)
  {
    LeaveChatIs(s, r);
    RemovePut(s, r, LeftChat(s.works[r]));
  }

  lemma LeaveChatKeeps(s: State, r: nat)
    requires Inv(s) && OpenChat(s, r)
    ensures Inv(LeaveChat(s, r))
  {
    var w, t := s.works[r], LeaveChat(s, r);
    LeaveChatBooks(s, r, Current(s.pc));
    Sequenced(s, Current(s.pc));
    assert WorkOk(w, r, r in s.queue, Current(s.pc) == Some(r), r in s.seen.abandoned);
    LeaveChatFrame(s, r);
    PutEvolves(s.works, r, LeftChat(w));
    CurrentPersists(s, t);
    GrantedPositive(s.works, r);
    LeaveGate(s, t);
  }

  /** Fewer active chats never open the gate. */
  lemma LeaveGate(s: State, t: State)
    requires Gate(s) && 0 <= t.activeChats <= s.activeChats
    requires GateUntouched(s.(activeChats := t.activeChats), t)
    ensures Gate(t)
  {
  }

  lemma AdmitImagesKeeps(s: State, sizes: seq<nat>, completion: Option<Future>)
    requires Inv(s) && !Refuses(s) && Fits(s, sizes) && Unsettled(completion)
    ensures Inv(AppendImages(s, sizes, completion, |s.works|))
  {
    var t := AppendImages(s, sizes, completion, |s.works|);
    AppendImagesBooks(s, sizes, completion, |s.works|, Current(s.pc));
    AppendImagesIs(s, sizes, completion, |s.works|);
    AppendImagesFrame(s, sizes, completion, |s.works|);
    CurrentPersists(s, t);
    AdmitGate(s, t);
  }

  lemma SubmitBatchKeeps(s: State, sizes: seq<nat>)
    requires Inv(s)
    ensures Inv(SubmitBatch(s, sizes))
  {
    if sizes != [] && !Refuses(s) && Fits(s, sizes) {
      var t := AppendImages(s, sizes, Some(Pending), |s.works|);
      AdmitImagesKeeps(s, sizes, Some(Pending));
      AppendImagesIs(s, sizes, Some(Pending), |s.works|);
      AppendImagesFrame(s, sizes, Some(Pending), |s.works|);
      assert BatchOk(t.works, Batch(|s.works|, |sizes|, true));
      BatchListed(t, Batch(|s.works|, |sizes|, true));
    }
  }

  lemma BatchListed(s: State, b: Batch)
    requires Inv(s) && BatchOk(s.works, b)
    ensures Inv(s.(seen := s.seen.(batches := s.seen.batches + [b])))
  {
    var batches := s.seen.batches + [b];
    assert forall i :: 0 <= i < |batches| ==> BatchOk(s.works, batches[i]);
  }

  lemma LeaveImageKeeps(s: State, r: nat, completed: bool)
    requires Inv(s) && OpenImage(s, r)
    ensures Inv(LeaveImage(s, r, completed))
  {
    if completed {
      LeftImageKeeps(s, r);
    } else {
      CancelImageBooks(s, r, ImageCancelled, Current(s.pc));
      Sequenced(s, Current(s.pc));
      CancelImageFrame(s, r, ImageCancelled);
      var t := CancelImage(s, r, ImageCancelled);
      ClientKeeps(s, t);
      LeftImageKeeps(t, r);
    }
  }

  lemma LeftImageKeeps(s: State, r: nat)
    requires Inv(s) && r < |s.works| && s.works[r].job.Image?
    ensures Inv(Put(s, r, s.works[r].(caller := Left)))
  {
    var w := s.works[r];
    assert WorkOk(w, r, r in s.queue, Current(s.pc) == Some(r), r in s.seen.abandoned);
    ClientPuts(s, r, w.(caller := Left));
  }

  lemma LeaveBatchKeeps(s: State, b: nat)
    requires Inv(s) && OpenBatch(s, b)
    ensures Inv(Step(s, LLeaveBatch(b)))
  {
    var batch := s.seen.batches[b];
    assert BatchOk(s.works, batch);
    BatchClosed(s, b);
    LeftBatchKeeps(s.(seen := s.seen.(batches := s.seen.batches[b := batch.(open := false)])),
                   batch.first, batch.count);
  }

  lemma LeftBatchKeeps(s: State, first: nat, count: nat)
    requires Inv(s) && Members(s, first, count)
    ensures Inv(LeaveBatch(s, first, count))
  {
    LeaveBatchBooks(s, first, count, Current(s.pc));
    ClientKeeps(s, LeaveBatch(s, first, count));
  }

  lemma BatchClosed(s: State, b: nat)
    requires Inv(s) && b < |s.seen.batches|
    ensures Inv(s.(seen := s.seen.(batches := s.seen.batches[b := s.seen.batches[b].(open := false)])))
  {
    var closed := s.seen.batches[b].(open := false);
    var batches := s.seen.batches[b := closed];
    assert BatchOk(s.works, s.seen.batches[b]);
    assert BatchOk(s.works, closed);
    assert forall i :: 0 <= i < |batches| ==> BatchOk(s.works, batches[i]);
  }

  // ---------------------------------------------------------------- small leases

  /** The invariant survives a change that only the gate can see. */
  lemma GateChange(s: State, t: State)
    requires Inv(s) && SameBooks(s, t) && s.pc == t.pc && s.restorePoint == t.restorePoint
    requires Gate(t)
    ensures Inv(t)
  {
    BooksSame(s, t, Current(s.pc));
  }

  lemma PassiveKeeps(s: State)
    requires Inv(s) && PassiveAllowed(s)
    ensures Inv(TakeMetadata(s))
  {
    GateChange(s, TakeMetadata(s));
  }

  lemma ControlLeaseKeeps(s: State, abort: bool)
    requires Inv(s) && ControlAllowed(s, abort)
    ensures Inv(TakeMetadata(s))
  {
    GateChange(s, TakeMetadata(s));
  }

  lemma DropMetadataKeeps(s: State)
    requires Inv(s) && s.seen.metadataHeld > 0
    ensures Inv(DropMetadata(s))
  {
    GateChange(s, DropMetadata(s));
  }

  lemma TakeControlKeeps(s: State)
    requires Inv(s) && ComfyControlAllowed(s)
    ensures Inv(TakeControl(s))
  {
    GateChange(s, TakeControl(s));
  }

  lemma DropControlKeeps(s: State)
    requires Inv(s) && s.seen.controlsHeld > 0
    ensures Inv(DropControl(s))
  {
    GateChange(s, DropControl(s));
  }

  lemma RouterFailedKeeps(s: State, r: nat)
    requires Inv(s) && OpenChat(s, r) && s.works[r].job.granted && s.cfg.Reserves()
    ensures Inv(MarkRecoverable(s, RouterUnreliable))
  {
    GrantedPositive(s.works, r);
    GateChange(s, MarkRecoverable(s, RouterUnreliable));
  }

  lemma BeginCloseKeeps(s: State)
    requires Inv(s)
    ensures Inv(BeginClose(s))
  {
    GateChange(s, BeginClose(s));
  }

  lemma DrainCloseKeeps(s: State)
    requires Inv(s) && s.closer == Begun
    ensures Inv(DrainClose(s))
  {
    var t := FailQueued(s, BrokerClosing);
    FailQueuedBooks(s, BrokerClosing, Current(s.pc));
    FailQueuedFrame(s, BrokerClosing);
    ClientKeeps(s, t);
    GateChange(t, t.(closer := Drained));
  }

  lemma AnsweredGrew(w: Work, reason: Reason)
    ensures Grew(w, Answered(w, reason))
  {
  }

  lemma FailQueuedFrame(s: State, reason: Reason)
    requires Allocated(s)
    ensures var t := FailQueued(s, reason);
            Evolves(s.works, t.works) && |t.works| == |s.works| && GateUntouched(s, t)
    decreases |s.queue|
  {
    if s.queue != [] {
      var r := s.queue[0];
      var s1 := Resolve(ReleaseAccounting(s.(queue := s.queue[1..]), s.works[r]), r, reason);
      AnsweredGrew(s.works[r], reason);
      FailQueuedFrame(s1, reason);
      EvolvesTransitive(s.works, s1.works, FailQueued(s, reason).works);
    }
  }

  // ---------------------------------------------------------------- dispatcher

  lemma PopBooks(s: State)
    requires BooksFor(s, None) && s.queue != []
    ensures var r := s.queue[0];
            BooksFor(ReleaseAccounting(
              s.(queue := s.queue[1..], seen := s.seen.(dispatched := s.seen.dispatched + [r])),
              s.works[r]), Some(r))
  {
    var r := s.queue[0];
    PopAccounts(s);
    PopLedger(s.works, s.queue, s.seen.abandoned);
    PopQueue(s.works, s.queue, s.seen.dispatched, s.seen.abandoned);
  }

  lemma PopLedger(works: seq<Work>, queue: seq<nat>, abandoned: set<nat>)
    requires queue != [] && Ordered(queue) && LedgerOk(works, queue, None, abandoned)
    ensures LedgerOk(works, queue[1..], Some(queue[0]), abandoned)
  {
    PopMembers(queue);
    forall k | 0 <= k < |works|
      ensures WorkOk(works[k], k, k in queue[1..], Some(queue[0]) == Some(k), k in abandoned)
    {
      assert WorkOk(works[k], k, k in queue, false, k in abandoned);
    }
  }

  lemma PopQueue(works: seq<Work>, queue: seq<nat>, dispatched: seq<nat>, abandoned: set<nat>)
    requires queue != [] && QueueOk(works, queue, dispatched, None, abandoned)
    ensures QueueOk(works, queue[1..], dispatched + [queue[0]], Some(queue[0]), abandoned)
  {
  }

  lemma NextWorkKeeps(s: State)
    requires Inv(s) && s.pc.Idle?
    ensures Inv(NextWork(s))
  {
    if Refuses(s) {
      BooksSame(s, s.(pc := Dead), None);
    } else if s.queue != [] {
      var r := s.queue[0];
      PopBooks(s);
      var s1 := ReleaseAccounting(
        s.(queue := s.queue[1..], seen := s.seen.(dispatched := s.seen.dispatched + [r])),
        s.works[r]);
      if s1.works[r].job.Chat? {
        DispatchChatKeeps(s1, r);
      } else {
        DispatchImageKeeps(s1, r);
      }
    }
  }

  lemma DispatchChatKeeps(s: State, r: nat)
    requires MidChat(s, r) && !s.closing
    ensures Inv(DispatchChat(s, r))
  {
    if s.works[r].cancelled {
      DropCancelled(s, r);
    } else if s.cfg.Serialised() {
      BooksSame(s, s.(pc := ChatEntry(r)), Some(r));
    } else {
      DecideKeeps(s, r);
    }
  }

  lemma DispatchImageKeeps(s: State, r: nat)
    requires MidImage(s, r)
    ensures Inv(DispatchImage(s, r))
  {
    if s.works[r].cancelled {
      AnswerKeeps(s, r, ImageCancelled, Idle);
    } else if s.owner != COMFY {
      BooksSame(s, s.(pc := DrainEntry(r)), Some(r));
    } else {
      SubmitKeeps(s, r);
    }
  }

  /** A gate change while the dispatcher holds r. */
  lemma MidChange(s: State, t: State, r: nat)
    requires Mid(s, r) && SameBooks(s, t)
    requires s.restorePoint == t.restorePoint || s.activeChats == 0
    requires Ownership(t) && t.closing == s.closing && t.closer == s.closer && t.fatal == s.fatal
    ensures Mid(t, r)
  {
    BooksSame(s, t, Some(r));
  }

  lemma Holding(s: State)
    requires Inv(s) && Current(s.pc).Some?
    ensures Mid(s, s.pc.r)
    ensures s.works[s.pc.r].job.Chat? == ServesChat(s.pc)
  {
  }

  lemma StumbleKeeps(s: State, r: nat, o: Outcome)
    requires Inv(s) && ServesChat(s.pc) && s.pc.r == r && s.activeChats == 0 && Neutral(s.phase)
    requires !s.cfg.Serialised() ==> s.owner != LLM
    ensures Inv(Stumble(s, r, o))
  {
    Holding(s);
    if o.Raised? {
      RestoreFailedKeeps(s, r, if o.vram then InsufficientVram else NotReady);
    }
  }

  lemma ResumeDrainKeeps(s: State, o: Outcome)
    requires Inv(s) && (s.pc.ChatEntry? || s.pc.ChatDrain?)
    ensures Inv(ResumeChat(s, o))
  {
    Holding(s);
    if o.Wake? {
      if s.pc.ChatEntry? {
        DrainChatsKeeps(s, s.pc.r);
      } else {
        ResumeDrainChatsKeeps(s, s.pc.r);
      }
    }
  }

  lemma DrainControlsKeeps(s: State, r: nat)
    requires MidChat(s, r) && Preparing(s) && Neutral(s.phase)
    requires !s.cfg.Serialised() ==> s.owner != LLM
    ensures Inv(DrainControls(s, r))
  {
    BooksSame(s, DrainControls(s, r), Some(r));
  }

  lemma ResumeControlsKeeps(s: State, o: Outcome)
    requires Inv(s) && (s.pc.ControlEntry? || s.pc.ControlDrain?)
    ensures Inv(ResumeChat(s, o))
  {
    Holding(s);
    var r := s.pc.r;
    if o.Wake? {
      if s.pc.ControlEntry? {
        var t := s.(phase := CleaningComfy);
        MidChange(s, t, r);
        DrainControlsKeeps(t, r);
      } else {
        DrainControlsKeeps(s, r);
      }
    } else if o.TimedOut? && s.pc.ControlDrain? {
      RestoreFailedKeeps(s, r, CleanupUnconfirmed);
    }
  }

  lemma ResumeFreeingKeeps(s: State, o: Outcome)
    requires Inv(s) && s.pc.Freeing?
    ensures Inv(ResumeChat(s, o))
  {
    Holding(s);
    var r := s.pc.r;
    if o.Returned? {
      var t := s.(seen := s.seen.(dirty := false));
      MidChange(s, t, r);
      BeginReloadKeeps(t, r);
    } else if o.Raised? {
      RestoreFailedKeeps(s, r, CleanupUnconfirmed);
    }
  }

  lemma ResumeValidatingKeeps(s: State, o: Outcome)
    requires Inv(s) && s.pc.RestoreValidating?
    ensures Inv(ResumeChat(s, o))
  {
    Holding(s);
    var r := s.pc.r;
    if o.Returned? {
      var t := s.(controlValidated := true);
      MidChange(s, t, r);
      ReloadKeeps(t, r);
    } else {
      StumbleKeeps(s, r, o);
    }
  }

  /** In every acquisition the LLM already counts as holding the GPU. */
  lemma ResumeAcquiringKeeps(s: State, o: Outcome)
    requires Inv(s) && (s.pc.AcquiringTarget? || s.pc.RouterAcquiring? || s.pc.Acquiring?)
    ensures Inv(ResumeChat(s, o))
  {
    Holding(s);
    var r := s.pc.r;
    if && o.Gave? && o.point.Some?
       && (s.pc.AcquiringTarget? ==> o.point == s.works[r].job.target) {
      RestoredKeeps(s, r, o.point);
    } else {
      StumbleKeeps(s, r, o);
    }
  }

  lemma ResumeRouterReleasingKeeps(s: State, o: Outcome)
    requires Inv(s) && s.pc.RouterReleasing?
    ensures Inv(ResumeChat(s, o))
  {
    Holding(s);
    var r := s.pc.r;
    if o.Returned? {
      var t := s.(seen := s.seen.(held := false));
      MidChange(s, t, r);
      ReloadRouterKeeps(t, r);
    } else {
      StumbleKeeps(s, r, o);
    }
  }

  lemma ResumeObservingKeeps(s: State, o: Outcome)
    requires Inv(s) && s.pc.RestoreObserving?
    ensures Inv(ResumeChat(s, o))
  {
    Holding(s);
    var r := s.pc.r;
    if o.Gave? {
      var t := s.(seen := s.seen.(held := o.point.Some?));
      MidChange(s, t, r);
      if o.point.Some? {
        RestoredKeeps(t, r, o.point);
      } else {
        ReloadSavedKeeps(t, r);
      }
    } else {
      StumbleKeeps(s, r, o);
    }
  }

  lemma ResumeMarkingKeeps(s: State, o: Outcome)
    requires Inv(s) && s.pc.RestoreMarking?
    ensures Inv(ResumeChat(s, o))
  {
    Holding(s);
    if o.Wake? {
      var t := MarkRecoverable(s, s.pc.reason);
      MidChange(s, t, s.pc.r);
      RefuseKeeps(t, s.pc.r);
    }
  }

  lemma ResumeGrantingKeeps(s: State, o: Outcome)
    requires Inv(s) && s.pc.Granting?
    ensures Inv(ResumeChat(s, o))
  {
    Holding(s);
    if o.Wake? {
      GrantKeeps(s, s.pc.r);
    }
  }

  lemma ResumeChatKeeps(s: State, o: Outcome)
    requires Inv(s) && ServesChat(s.pc)
    ensures Inv(ResumeChat(s, o))
  {
    match s.pc
    case ChatEntry(_) => ResumeDrainKeeps(s, o);
    case ChatDrain(_) => ResumeDrainKeeps(s, o);
    case ControlEntry(_) => ResumeControlsKeeps(s, o);
    case ControlDrain(_) => ResumeControlsKeeps(s, o);
    case Freeing(_) => ResumeFreeingKeeps(s, o);
    case RestoreValidating(_) => ResumeValidatingKeeps(s, o);
    case AcquiringTarget(_) => ResumeAcquiringKeeps(s, o);
    case RouterReleasing(_) => ResumeRouterReleasingKeeps(s, o);
    case RouterAcquiring(_) => ResumeAcquiringKeeps(s, o);
    case RestoreObserving(_) => ResumeObservingKeeps(s, o);
    case Acquiring(_) => ResumeAcquiringKeeps(s, o);
    case RestoreMarking(_, _) => ResumeMarkingKeeps(s, o);
    case Granting(_) => ResumeGrantingKeeps(s, o);
  }

  lemma ResumeDrainForImageKeeps(s: State, o: Outcome)
    requires Inv(s) && (s.pc.DrainEntry? || s.pc.Draining?)
    ensures Inv(ResumeImage(s, o))
  {
    Holding(s);
    var r := s.pc.r;
    if o.Wake? {
      if s.pc.DrainEntry? {
        var t := s.(phase := DrainingLlm);
        MidChange(s, t, r);
        DrainForImageKeeps(t, r);
      } else {
        DrainForImageKeeps(s, r);
      }
    } else if o.TimedOut? && s.pc.Draining? {
      ImageFailedKeeps(s, r);
    }
  }

  lemma ResumeActivationKeeps(s: State, o: Outcome)
    requires Inv(s) && (s.pc.ActivateValidating? || s.pc.ActivateAcquiring?)
    ensures Inv(ResumeImage(s, o))
  {
    Holding(s);
    var r := s.pc.r;
    if o.Raised? {
      ImageFailedKeeps(s, r);
    } else if s.pc.ActivateValidating? && o.Returned? {
      var t := s.(controlValidated := true);
      MidChange(s, t, r);
      ActivatedKeeps(t, r);
    } else if s.pc.ActivateAcquiring? && o.Gave? && o.point.Some? {
      var t := s.(restorePoint := o.point);
      MidChange(s, t, r);
      StartReleaseKeeps(t, r);
    }
  }

  lemma ResumeActivateObservingKeeps(s: State, o: Outcome)
    requires Inv(s) && s.pc.ActivateObserving?
    ensures Inv(ResumeImage(s, o))
  {
    Holding(s);
    var r := s.pc.r;
    if o.Raised? {
      ImageFailedKeeps(s, r);
    } else if o.Gave? && o.point.Some? {
      ObservedKeeps(s, r, o.point);
    } else if o.Gave? {
      var t := s.(seen := s.seen.(held := false));
      MidChange(s, t, r);
      ReleaseOwnerKeeps(t, r);
    }
  }

  /** An observed model makes the LLM the owner only until the release that follows at once. */
  lemma ObservedKeeps(s: State, r: nat, point: Option<Point>)
    requires MidImage(s, r) && Quiet(s) && s.owner == UNKNOWN && point.Some?
    ensures var t := s.(restorePoint := point, owner := LLM, seen := s.seen.(held := true));
            t.restorePoint.Some? && Inv(ReleaseOwner(t, r))
  {
    var u := s.(restorePoint := point, seen := s.seen.(held := true));
    MidChange(s, u, r);
    StartReleaseKeeps(u, r);
    assert StartRelease(u, r) == StartRelease(u.(owner := LLM), r);
  }

  lemma ResumeReleasingKeeps(s: State, o: Outcome)
    requires Inv(s) && s.pc.Releasing?
    ensures Inv(ResumeImage(s, o))
  {
    Holding(s);
    var r := s.pc.r;
    if o.Raised? {
      ImageFailedKeeps(s, r);
    } else if o.Returned? {
      var t := s.(seen := s.seen.(held := false));
      MidChange(s, t, r);
      GiveToComfyKeeps(t, r);
    }
  }

  lemma ResumeComfyKeeps(s: State, o: Outcome)
    requires Inv(s) && (s.pc.Submitting? || s.pc.AwaitingPrompt?)
    ensures Inv(ResumeImage(s, o))
  {
    Holding(s);
    var r := s.pc.r;
    if s.pc.Submitting? && o.Responded? {
      SubmittedKeeps(s, r, o.rejected, o.prompt);
    } else if s.pc.Submitting? && o.Raised? {
      ForgottenKeeps(s, r);
      ImageFailedKeeps(Forgotten(s, r), r);
    } else if s.pc.AwaitingPrompt? && o.Returned? {
      PromptDoneKeeps(s, r);
    } else if s.pc.AwaitingPrompt? && o.Raised? {
      ImageFailedKeeps(s, r);
    }
  }

  lemma ResumeEndKeeps(s: State, o: Outcome)
    requires Inv(s) && (s.pc.ImageMarking? || s.pc.Interrupting?)
    ensures Inv(ResumeImage(s, o))
  {
    Holding(s);
    var r := s.pc.r;
    if s.pc.ImageMarking? && o.Wake? {
      var t := MarkRecoverable(s, OwnershipUnconfirmed);
      MidChange(s, t, r);
      AnswerKeeps(t, r, HandoffFailed, Idle);
    } else if s.pc.Interrupting? && o.Returned? {
      AnswerKeeps(s, r, BrokerClosing, Dead);
    } else if s.pc.Interrupting? && o.Raised? {
      AnswerKeeps(s, r, DispatcherFailed, MarkingFatal);
    }
  }

  lemma ResumeImageKeeps(s: State, o: Outcome)
    requires Inv(s) && Current(s.pc).Some? && !ServesChat(s.pc)
    ensures Inv(ResumeImage(s, o))
  {
    match s.pc
    case DrainEntry(_) => ResumeDrainForImageKeeps(s, o);
    case Draining(_) => ResumeDrainForImageKeeps(s, o);
    case ActivateValidating(_) => ResumeActivationKeeps(s, o);
    case ActivateAcquiring(_) => ResumeActivationKeeps(s, o);
    case ActivateObserving(_) => ResumeActivateObservingKeeps(s, o);
    case Releasing(_) => ResumeReleasingKeeps(s, o);
    case Submitting(_) => ResumeComfyKeeps(s, o);
    case AwaitingPrompt(_) => ResumeComfyKeeps(s, o);
    case ImageMarking(_) => ResumeEndKeeps(s, o);
    case Interrupting(_) => ResumeEndKeeps(s, o);
  }

  lemma MarkFatalKeeps(s: State)
    requires Inv(s) && s.pc.MarkingFatal?
    ensures Inv(Resume(s, Wake))
  {
    var t := s.(fatal := Some(DispatcherFailed), phase := Error);
    BooksSame(s, t, None);
    FailQueuedBooks(t, DispatcherFailed, None);
    FailQueuedFrame(t, DispatcherFailed);
    var u := FailQueued(t, DispatcherFailed);
    BooksSame(u, u.(pc := Dead), None);
    FatalGate(s, u.(pc := Dead));
  }

  lemma FatalGate(s: State, t: State)
    requires Gate(s) && t.queue == []
    requires GateUntouched(s.(fatal := Some(DispatcherFailed), phase := Error, pc := Dead,
                              queue := t.queue), t)
    ensures Gate(t)
  {
  }

  lemma ResumeKeeps(s: State, o: Outcome)
    requires Inv(s)
    ensures Inv(Resume(s, o))
  {
    if ServesChat(s.pc) {
      ResumeChatKeeps(s, o);
    } else if Current(s.pc).Some? {
      ResumeImageKeeps(s, o);
    } else if o.Wake? && s.pc.Idle? {
      NextWorkKeeps(s);
    } else if o.Wake? && s.pc.MarkingFatal? {
      MarkFatalKeeps(s);
    }
  }

  lemma CancelKeeps(s: State)
    requires Inv(s)
    ensures Inv(Cancel(s))
  {
    if s.closer == Drained && !s.pc.Dead? {
      if Current(s.pc).None? {
        BooksSame(s, s.(pc := Dead), None);
      } else if s.pc.AwaitingPrompt? {
        InterruptKeeps(s);
      } else {
        Holding(s);
        AnswerKeeps(s, s.pc.r, BrokerClosing, Dead);
      }
    }
  }

  lemma InterruptKeeps(s: State)
    requires Inv(s) && s.pc.AwaitingPrompt? && s.closer == Drained
    ensures Inv(s.(pc := Interrupting(s.pc.r)))
  {
    BooksSame(s, s.(pc := Interrupting(s.pc.r)), Some(s.pc.r));
  }

  lemma CrashKeeps(s: State)
    requires Inv(s)
    ensures Inv(Crash(s))
  {
    if ServesChat(s.pc) {
      Holding(s);
      AnswerKeeps(s, s.pc.r, DispatcherFailed, MarkingFatal);
    }
  }

  // ---------------------------------------------------------------- the step theorem

  predicate Queues(l: Label) {
    || l.LAdmitChat? || l.LEnterChat? || l.LLeaveChat? || l.LSubmitImage? || l.LLeaveImage?
    || l.LSubmitBatch? || l.LLeaveBatch?
  }

  lemma QueueStepKeeps(s: State, l: Label)
    requires Inv(s) && Enabled(s, l) && Queues(l)
    ensures Inv(Step(s, l))
  {
    match l
    case LAdmitChat(target) => AdmitChatKeeps(s, target);
    case LEnterChat(r) => EnterChatKeeps(s, r);
    case LLeaveChat(r) => LeaveChatKeeps(s, r);
    case LSubmitImage(size, notifies) => SubmitImageKeeps(s, size, notifies);
    case LLeaveImage(r, completed) => LeaveImageKeeps(s, r, completed);
    case LSubmitBatch(sizes) => SubmitBatchKeeps(s, sizes);
    case LLeaveBatch(b) => LeaveBatchKeeps(s, b);
  }

  lemma LeaseStepKeeps(s: State, l: Label)
    requires Inv(s) && Enabled(s, l)
    requires || l.LPassive? || l.LControl? || l.LDropMetadata? || l.LComfyControl?
             || l.LDropControl? || l.LRouterFailed?
    ensures Inv(Step(s, l))
  {
    match l
    case LPassive => PassiveKeeps(s);
    case LControl(abort) => ControlLeaseKeeps(s, abort);
    case LDropMetadata => DropMetadataKeeps(s);
    case LComfyControl => TakeControlKeeps(s);
    case LDropControl => DropControlKeeps(s);
    case LRouterFailed(r) => RouterFailedKeeps(s, r);
  }

  /** No step of any client or of the dispatcher breaks the invariant. */
  lemma StepKeeps(s: State, l: Label)
    requires Inv(s)
    ensures Inv(Step(s, l))
  {
    if Enabled(s, l) {
      if Queues(l) {
        QueueStepKeeps(s, l);
      } else if l.LBeginClose? {
        BeginCloseKeeps(s);
      } else if l.LDrainClose? {
        DrainCloseKeeps(s);
      } else if l.LResume? {
        ResumeKeeps(s, l.outcome);
      } else if l.LCancel? {
        CancelKeeps(s);
      } else if l.LCrash? {
        CrashKeeps(s);
      } else {
        LeaseStepKeeps(s, l);
      }
    }
  }

  lemma SubmitImageKeeps(s: State, size: nat, notifies: bool)
    requires Inv(s)
    ensures Inv(SubmitImage(s, size, notifies))
  {
    if !Refuses(s) && Fits(s, [size]) {
      AdmitImagesKeeps(s, [size], if notifies then Some(Pending) else None);
    }
  }

  lemma InitialHolds(cfg: Config, snapshot: Option<Point>, held: bool)
    ensures Inv(Initial(cfg, snapshot, held))
  {
    EmptyBooks(Initial(cfg, snapshot, held));
  }

  lemma EmptyBooks(s: State)
    requires s.works == [] && s.queue == [] && s.sequence == 0 && s.seen.dispatched == [] && s.seen.batches == []
    requires s.waitingChats == 0 && s.waitingImages == 0 && s.queuedBytes == 0 && s.activeChats == 0
    requires s.seen.abandoned == {} && Current(s.pc).None?
    ensures Books(s) && Awake(s)
  {
  }

  /** The invariant holds after every run: every interleaving of every number of clients. */
  lemma {:induction false} RunKeeps(s: State, run: seq<Label>)
    requires Inv(s)
    ensures Inv(After(s, run))
  {
    if run != [] {
      RunKeeps(s, run[..|run| - 1]);
      StepKeeps(After(s, run[..|run| - 1]), run[|run| - 1]);
    }
  }
}
