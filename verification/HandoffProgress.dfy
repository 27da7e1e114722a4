/** No history wedges the broker. Whatever failed before, and wherever the dispatcher was left: as long as it
    is neither closing nor failed, and once every lease is closed, calls that succeed answer every waiting
    request with what it asked for. This says what the dispatcher does when it is resumed, and nothing about
    when that happens. */
module HandoffProgress {
  import opened Basics
  import opened Handoff
  import opened HandoffInvariant
  import opened HandoffSteps
  import opened HandoffTheorems
  import opened HandoffAnswers

  /** What a backend answers when its calls succeed: the point it gives, and what it is seen to hold. */
  datatype Luck = Luck(point: Point, sees: Option<Point>)

  /** How the awaited operation ends when it succeeds. */
  function Well(s: State, luck: Luck): Outcome
    requires Awake(s)
  {
    match s.pc
    case Freeing(_) => Returned
    case RestoreValidating(_) => Returned
    case RouterReleasing(_) => Returned
    case ActivateValidating(_) => Returned
    case Releasing(_) => Returned
    case AwaitingPrompt(_) => Returned
    case AcquiringTarget(r) => Gave(s.works[r].job.target)
    case RouterAcquiring(_) => Gave(Some(luck.point))
    case Acquiring(_) => Gave(Some(luck.point))
    case ActivateAcquiring(_) => Gave(Some(luck.point))
    case RestoreObserving(_) => Gave(luck.sees)
    case ActivateObserving(_) => Gave(luck.sees)
    case Submitting(_) => Responded(false, true)
    case _ => Wake
  }

  /** Every call succeeds, and clients only take up and close what they were granted. */
  predicate Smooth(s: State, run: seq<Label>, luck: Luck) {
    run != [] ==>
      var before, l := run[..|run| - 1], run[|run| - 1];
      && Smooth(s, before, luck)
      && (l.LEnterChat? || l.LLeaveChat?
          || (Awake(After(s, before)) && l == LResume(Well(After(s, before), luck))))
  }

  lemma OneMore(s: State, run: seq<Label>, l: Label, luck: Luck)
    requires Smooth(s, run, luck) && Awake(After(s, run))
    requires l.LEnterChat? || l.LLeaveChat? || l == LResume(Well(After(s, run), luck))
    ensures Smooth(s, run + [l], luck) && After(s, run + [l]) == Step(After(s, run), l)
  {
    assert (run + [l])[..|run|] == run;
  }

  // ---------------------------------------------------------------- one work

  predicate Open(s: State) {
    && Awake(s) && !s.closing && s.fatal.None? && (s.owner == LLM ==> s.restorePoint.Some?)
    && !s.pc.Interrupting? && !s.pc.MarkingFatal? && !s.pc.Dead?
    && s.activeMetadata == 0 && s.activeControls == 0
  }

  predicate Marks(pc: Pc) {
    pc.RestoreMarking? || pc.ImageMarking?
  }

  /** Nothing was said to this work yet but what its place in the protocol implies. */
  predicate Unheard(w: Work, pc: Pc) {
    match w.job
    case Chat(ready, granted, target) =>
      ready.Pending? && !granted && (w.cancelled || w.caller.Waiting?) && (pc.AcquiringTarget? ==> target.Some?)
    case Image(_, submitted, completion, _) =>
      (if pc.AwaitingPrompt? then submitted.Value? else submitted.Pending?) && Unsettled(completion)
  }

  predicate Heard(w: Work) {
    match w.job
    case Chat(ready, _, _) => ready.Value?
    case Image(_, submitted, completion, _) => submitted.Value? && completion in {None, Some(Value)}
  }

  /** The dispatcher has the work in hand and may still answer it. */
  predicate Serving(s: State, r: nat) {
    && Open(s) && s.activeChats == 0 && Current(s.pc) == Some(r) && !Marks(s.pc) && Unheard(s.works[r], s.pc)
  }

  /** The dispatcher is done with it: a chat is granted, an image has its outputs; only what its own client
      cancelled may be left without. */
  predicate Finished(s: State, r: nat) {
    && Open(s) && s.pc.Idle? && r < |s.works| && (s.works[r].cancelled || Heard(s.works[r]))
    && if s.works[r].job.Chat? && !s.works[r].cancelled
       then s.activeChats == 1 && s.works[r].caller.Waiting? && s.works[r].job.granted
       else s.activeChats == 0
  }

  predicate OnlyTouches(s: State, t: State, r: nat) {
    && t.queue == s.queue && |t.works| == |s.works|
    && (forall k :: 0 <= k < |s.works| && k != r ==> t.works[k] == s.works[k])
    && (r < |s.works| ==> t.works[r].cancelled == s.works[r].cancelled)
  }

  /** How far the dispatcher still has to go with a work. */
  function Rank(pc: Pc): nat {
    match pc
    case ChatEntry(_) => 9
    case ChatDrain(_) => 8
    case ControlEntry(_) => 7
    case ControlDrain(_) => 6
    case Freeing(_) => 5
    case RestoreValidating(_) => 4
    case RestoreObserving(_) => 3
    case RouterReleasing(_) => 3
    case AcquiringTarget(_) => 2
    case RouterAcquiring(_) => 2
    case Acquiring(_) => 2
    case Granting(_) => 1
    case DrainEntry(_) => 8
    case Draining(_) => 7
    case ActivateValidating(_) => 6
    case ActivateAcquiring(_) => 5
    case ActivateObserving(_) => 5
    case Releasing(_) => 4
    case Submitting(_) => 3
    case AwaitingPrompt(_) => 2
    case _ => 0
  }

  /** Between two awaits, with this work in hand. */
  predicate Handles(s: State, r: nat) {
    && Allocated(s) && r < |s.works| && !s.closing && s.fatal.None? && (s.owner == LLM ==> s.restorePoint.Some?)
    && s.activeMetadata == 0 && s.activeControls == 0 && s.activeChats == 0
    && Unheard(s.works[r], Idle)
  }

  predicate Nearer(s: State, t: State, r: nat, rank: nat) {
    OnlyTouches(s, t, r) && (Finished(t, r) || (Serving(t, r) && Rank(t.pc) <= rank))
  }

  lemma ReloadNearer(s: State, r: nat)
    requires Handles(s, r) && s.works[r].job.Chat?
    ensures Nearer(s, Reload(s, r), r, 3)
  {
  }

  lemma BeginNearer(s: State, r: nat)
    requires Handles(s, r) && s.works[r].job.Chat?
    ensures Nearer(s, BeginReload(s, r), r, 4)
  {
    ReloadNearer(s.(owner := UNKNOWN), r);
  }

  lemma DecideNearer(s: State, r: nat)
    requires Handles(s, r) && s.works[r].job.Chat?
    ensures Nearer(s, Decide(s, r), r, 7)
  {
    BeginNearer(s, r);
  }

  lemma DrainedNearer(s: State, r: nat, luck: Luck)
    requires Serving(s, r) && (s.pc.ChatEntry? || s.pc.ChatDrain?)
    ensures Nearer(s, ResumeChat(s, Wake), r, 7)
  {
    DecideNearer(s.(phase := DrainingLlm), r);
  }

  lemma FreedNearer(s: State, r: nat, luck: Luck)
    requires Serving(s, r) && (s.pc.ControlEntry? || s.pc.ControlDrain? || s.pc.Freeing? || s.pc.RestoreValidating?)
    ensures Nearer(s, ResumeChat(s, Well(s, luck)), r, Rank(s.pc) - 1)
  {
    if s.pc.Freeing? {
      BeginNearer(s.(seen := s.seen.(dirty := false)), r);
    } else if s.pc.RestoreValidating? {
      ReloadNearer(s.(controlValidated := true), r);
    }
  }

  lemma ChatNearer(s: State, r: nat, luck: Luck)
    requires Serving(s, r) && ServesChat(s.pc)
    ensures Nearer(s, ResumeChat(s, Well(s, luck)), r, Rank(s.pc) - 1)
  {
    if s.pc.ChatEntry? || s.pc.ChatDrain? {
      DrainedNearer(s, r, luck);
    } else if s.pc.ControlEntry? || s.pc.ControlDrain? || s.pc.Freeing? || s.pc.RestoreValidating? {
      FreedNearer(s, r, luck);
    }
  }

  lemma ReleaseNearer(s: State, r: nat)
    requires Handles(s, r) && s.works[r].job.Image?
    ensures Nearer(s, ReleaseOwner(s, r), r, 4) && Nearer(s, GiveToComfy(s, r), r, 3)
  {
  }

  lemma ActivateNearer(s: State, r: nat)
    requires Handles(s, r) && s.works[r].job.Image?
    ensures Nearer(s, Activated(s, r), r, 5)
  {
  }

  lemma DrainNearer(s: State, r: nat)
    requires Handles(s, r) && s.works[r].job.Image?
    ensures Nearer(s, DrainForImage(s, r), r, 6)
  {
    ActivateNearer(s, r);
    ReleaseNearer(s, r);
  }

  lemma ImageNearer(s: State, r: nat, luck: Luck)
    requires Serving(s, r) && !ServesChat(s.pc)
    ensures Nearer(s, ResumeImage(s, Well(s, luck)), r, Rank(s.pc) - 1)
  {
    if s.pc.DrainEntry? || s.pc.Draining? || s.pc.ActivateValidating? {
      PreparingNearer(s, r, luck);
    } else if s.pc.ActivateAcquiring? || s.pc.ActivateObserving? || s.pc.Releasing? {
      ReleasingNearer(s, r, luck);
    }
  }

  lemma PreparingNearer(s: State, r: nat, luck: Luck)
    requires Serving(s, r) && (s.pc.DrainEntry? || s.pc.Draining? || s.pc.ActivateValidating?)
    ensures Nearer(s, ResumeImage(s, Well(s, luck)), r, Rank(s.pc) - 1)
  {
    if s.pc.ActivateValidating? {
      ActivateNearer(s.(controlValidated := true), r);
    } else {
      DrainNearer(if s.pc.DrainEntry? then s.(phase := DrainingLlm) else s, r);
    }
  }

  lemma ReleasingNearer(s: State, r: nat, luck: Luck)
    requires Serving(s, r) && (s.pc.ActivateAcquiring? || s.pc.ActivateObserving? || s.pc.Releasing?)
    ensures Nearer(s, ResumeImage(s, Well(s, luck)), r, Rank(s.pc) - 1)
  {
    if s.pc.Releasing? {
      ReleaseNearer(s.(seen := s.seen.(held := false)), r);
    } else if s.pc.ActivateObserving? {
      ReleaseNearer(if luck.sees.Some? then s.(restorePoint := luck.sees, owner := LLM, seen := s.seen.(held := true))
                    else s.(seen := s.seen.(held := false)), r);
    }
  }

  /** The dispatcher brings a work to its end within nine resumptions. */
  lemma {:induction false} Serve(s: State, run: seq<Label>, r: nat, luck: Luck) returns (more: seq<Label>)
    requires Smooth(s, run, luck) && Serving(After(s, run), r)
    ensures Smooth(s, more, luck) && Finished(After(s, more), r)
    ensures OnlyTouches(After(s, run), After(s, more), r)
    ensures |more| <= |run| + Rank(After(s, run).pc)
    decreases Rank(After(s, run).pc)
  {
    var t := After(s, run);
    var l := LResume(Well(t, luck));
    OneMore(s, run, l, luck);
    if ServesChat(t.pc) {
      ChatNearer(t, r, luck);
    } else {
      ImageNearer(t, r, luck);
    }
    more := run + [l];
    if !Finished(After(s, more), r) {
      more := Serve(s, more, r, luck);
    }
  }

  // ---------------------------------------------------------------- one client

  /** The client of a granted chat takes it up and closes it. */
  lemma Leave(s: State, run: seq<Label>, r: nat, luck: Luck) returns (more: seq<Label>)
    requires Smooth(s, run, luck) && Finished(After(s, run), r)
    ensures Smooth(s, more, luck) && OnlyTouches(After(s, run), After(s, more), r)
    ensures Rests(After(s, more)) && (After(s, more).works[r].cancelled || Heard(After(s, more).works[r]))
  {
    var t := After(s, run);
    more := run;
    if t.works[r].job.Chat? && !t.works[r].cancelled {
      OneMore(s, run, LEnterChat(r), luck);
      OneMore(s, run + [LEnterChat(r)], LLeaveChat(r), luck);
      more := run + [LEnterChat(r)] + [LLeaveChat(r)];
    }
  }

  /** Between two works, with no lease open. */
  predicate Rests(s: State) {
    Open(s) && s.pc.Idle? && s.activeChats == 0
  }

  // ---------------------------------------------------------------- the queue

  /** Every queued work waits for an answer. */
  predicate Waits(s: State) {
    && Ordered(s.queue) && Allocated(s)
    && forall i :: 0 <= i < |s.queue| ==>
         !s.works[s.queue[i]].cancelled && Unheard(s.works[s.queue[i]], Idle)
  }

  lemma TakeNext(s: State, r: nat)
    requires Rests(s) && Waits(s) && s.queue != [] && r == s.queue[0]
    ensures var t := NextWork(s);
            Serving(t, r) && t.queue == s.queue[1..] && t.works == s.works
  {
    var s1 := ReleaseAccounting(
      s.(queue := s.queue[1..], seen := s.seen.(dispatched := s.seen.dispatched + [r])), s.works[r]);
    DispatchServes(s1, r);
  }

  lemma DispatchServes(s: State, r: nat)
    requires Handles(s, r) && !s.works[r].cancelled
    ensures var t := if s.works[r].job.Chat? then DispatchChat(s, r) else DispatchImage(s, r);
            Serving(t, r) && t.queue == s.queue && t.works == s.works
  {
  }

  lemma StillWaits(s: State, t: State, r: nat)
    requires Waits(s) && s.queue != [] && r == s.queue[0]
    requires t.queue == s.queue[1..] && |t.works| == |s.works|
    requires forall k :: 0 <= k < |s.works| && k != r ==> t.works[k] == s.works[k]
    ensures Waits(t) && r !in t.queue
  {
  }

  /** What became of a queue that was served to its end. */
  predicate AllHeard(s: State, t: State) {
    && Rests(t) && t.queue == [] && |t.works| == |s.works|
    && (forall i :: 0 <= i < |s.queue| && s.queue[i] < |t.works| ==> Heard(t.works[s.queue[i]]))
    && (forall k :: 0 <= k < |s.works| && k !in s.queue ==> t.works[k] == s.works[k])
  }

  /** The first of the queue was served, and nothing else was touched. */
  predicate FirstHeard(t: State, u: State) {
    && t.queue != [] && u.queue == t.queue[1..] && |u.works| == |t.works|
    && t.queue[0] < |t.works| && !u.works[t.queue[0]].cancelled && Heard(u.works[t.queue[0]])
    && forall k :: 0 <= k < |t.works| && k != t.queue[0] ==> u.works[k] == t.works[k]
  }

  lemma ServeFirst(s: State, run: seq<Label>, luck: Luck) returns (more: seq<Label>)
    requires Smooth(s, run, luck) && Rests(After(s, run)) && Waits(After(s, run)) && After(s, run).queue != []
    ensures Smooth(s, more, luck) && Rests(After(s, more)) && Waits(After(s, more))
    ensures FirstHeard(After(s, run), After(s, more))
  {
    var t := After(s, run);
    var r := t.queue[0];
    TakeNext(t, r);
    OneMore(s, run, LResume(Wake), luck);
    more := Serve(s, run + [LResume(Wake)], r, luck);
    more := Leave(s, more, r, luck);
    StillWaits(t, After(s, more), r);
  }

  lemma {:induction false} ServeAll(s: State, run: seq<Label>, luck: Luck) returns (more: seq<Label>)
    requires Smooth(s, run, luck) && Rests(After(s, run)) && Waits(After(s, run))
    ensures Smooth(s, more, luck) && AllHeard(After(s, run), After(s, more))
    decreases |After(s, run).queue|
  {
    more := run;
    if After(s, run).queue != [] {
      var first := ServeFirst(s, run, luck);
      more := ServeAll(s, first, luck);
      FirstToo(After(s, run), After(s, first), After(s, more));
    }
  }

  lemma FirstToo(t: State, u: State, v: State)
    requires Waits(t) && FirstHeard(t, u) && AllHeard(u, v)
    ensures AllHeard(t, v)
  {
    assert t.queue == [t.queue[0]] + u.queue;
    assert t.queue[0] !in u.queue;
  }

  // ---------------------------------------------------------------- every history

  lemma ReadyToGo(s: State)
    requires Inv(s) && Unsent(s) && !s.closing && s.fatal.None? && !s.pc.MarkingFatal?
    requires s.activeMetadata == 0 && s.activeControls == 0
    ensures Open(s) && Waits(s)
    ensures Current(s.pc).Some? ==> s.pc.r < |s.works| && s.pc.r !in s.queue
    ensures Current(s.pc).Some? && !Marks(s.pc) ==> Unheard(s.works[s.pc.r], s.pc)
  {
    forall i | 0 <= i < |s.queue|
      ensures !s.works[s.queue[i]].cancelled && Unheard(s.works[s.queue[i]], Idle)
    {
      var r := s.queue[i];
      assert WorkOk(s.works[r], r, true, Current(s.pc) == Some(r), r in s.seen.abandoned);
    }
    if Current(s.pc).Some? {
      var r := s.pc.r;
      assert WorkOk(s.works[r], r, r in s.queue, true, r in s.seen.abandoned);
    }
  }

  /** From every reachable state in which the broker is neither closing nor failed and no lease is open, a
      run of successful calls brings the dispatcher to rest with an empty queue, every queued chat granted
      and every queued image submitted and completed. The work in hand is answered in the same way, unless
      its client cancelled it or its failure was already being recorded. */
  lemma NothingIsWedged(s: State, luck: Luck)
    requires Reachable(s) && !s.closing && s.fatal.None? && !s.pc.MarkingFatal?
    requires s.activeChats == 0 && s.activeMetadata == 0 && s.activeControls == 0
    ensures exists run :: Smooth(s, run, luck)
              && var t := After(s, run);
                 && t.pc.Idle? && t.queue == [] && t.activeChats == 0 && |t.works| == |s.works|
                 && (forall i :: 0 <= i < |s.queue| && s.queue[i] < |t.works| ==> Heard(t.works[s.queue[i]]))
                 && (Current(s.pc).Some? && !Marks(s.pc) && s.pc.r < |t.works| && !s.works[s.pc.r].cancelled ==>
                       Heard(t.works[s.pc.r]))
  {
    ReachableUnsent(s);
    ReadyToGo(s);
    var run := ToRest(s, luck);
    var all := ServeAll(s, run, luck);
  }

  lemma ReachableUnsent(s: State)
    requires Reachable(s)
    ensures Inv(s) && Unsent(s)
  {
    var snapshot, held, run :| s == After(Initial(s.cfg, snapshot, held), run);
    InitialHolds(s.cfg, snapshot, held);
    RunUnsent(Initial(s.cfg, snapshot, held), run);
  }

  lemma Record(s: State, luck: Luck) returns (run: seq<Label>)
    requires Open(s) && s.activeChats == 0 && Marks(s.pc)
    ensures Smooth(s, run, luck) && Rests(After(s, run)) && OnlyTouches(s, After(s, run), s.pc.r)
  {
    OneMore(s, [], LResume(Wake), luck);
    run := [] + [LResume(Wake)];
  }

  lemma ToRest(s: State, luck: Luck) returns (run: seq<Label>)
    requires Open(s) && Waits(s) && s.activeChats == 0
    requires Current(s.pc).Some? ==> s.pc.r < |s.works| && s.pc.r !in s.queue
    requires Current(s.pc).Some? && !Marks(s.pc) ==> Unheard(s.works[s.pc.r], s.pc)
    ensures Smooth(s, run, luck) && Rests(After(s, run)) && Waits(After(s, run))
    ensures After(s, run).queue == s.queue && |After(s, run).works| == |s.works|
    ensures Current(s.pc).Some? && !Marks(s.pc) && !s.works[s.pc.r].cancelled ==>
              Heard(After(s, run).works[s.pc.r])
  {
    run := [];
    if Current(s.pc).Some? {
      if Marks(s.pc) {
        run := Record(s, luck);
      } else {
        run := Serve(s, [], s.pc.r, luck);
        run := Leave(s, run, s.pc.r, luck);
      }
    }
  }
}
