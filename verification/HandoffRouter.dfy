/** A router whose request failed is unloaded before the broker trusts it again. */
module HandoffRouter {
  import opened Basics
  import opened Handoff
  import opened HandoffInvariant
  import opened HandoffSteps
  import opened HandoffHistory
  import opened HandoffShutdown
  import opened HandoffTheorems

  /** A release of the router's model is confirmed. */
  predicate Unloads(s: State, l: Label) {
    (s.pc.RouterReleasing? || s.pc.Releasing?) && l == LResume(Returned)
  }

  /** The router is distrusted, and nothing has been acquired since. */
  predicate Distrusted(s: State) {
    s.recoverable.Some? && s.restorePoint.Some? && !s.pc.RouterAcquiring?
  }

  lemma ReloadDistrusted(s: State, r: nat)
    requires r < |s.works| && s.works[r].job.Chat? && s.works[r].job.target.None? && s.cfg.router
    requires s.recoverable.Some? && s.restorePoint.Some?
    ensures Distrusted(Decide(s, r)) && Distrusted(BeginReload(s, r)) && Distrusted(Reload(s, r))
  {
  }

  lemma UntargetedHand(s: State)
    requires Inv(s) && ServesChat(s.pc) && s.cfg.router
    ensures s.works[s.pc.r].job.target.None? && !s.pc.AcquiringTarget?
    ensures !s.pc.RestoreObserving? && !s.pc.Acquiring?
  {
  }

  lemma ChatDistrusted(s: State, o: Outcome)
    requires Inv(s) && ServesChat(s.pc) && s.cfg.router && Distrusted(s)
    ensures Distrusted(ResumeChat(s, o)) || Unloads(s, LResume(o))
  {
    UntargetedHand(s);
    var r := s.pc.r;
    if s.pc.ChatEntry? || s.pc.ChatDrain? {
      ReloadDistrusted(s.(phase := DrainingLlm), r);
    } else if s.pc.Freeing? {
      ReloadDistrusted(s.(seen := s.seen.(dirty := false)), r);
    } else if s.pc.RestoreValidating? {
      ReloadDistrusted(s.(controlValidated := true), r);
    }
  }

  lemma ImageDistrusted(s: State, o: Outcome)
    requires Inv(s) && Current(s.pc).Some? && !ServesChat(s.pc) && s.cfg.router && Distrusted(s)
    ensures Distrusted(ResumeImage(s, o)) || Unloads(s, LResume(o))
  {
    var r := s.pc.r;
    if s.pc.DrainEntry? || s.pc.Draining? {
      DrainDistrusted(s, r);
      DrainDistrusted(s.(phase := DrainingLlm), r);
    }
  }

  lemma DrainDistrusted(s: State, r: nat)
    requires r < |s.works| && s.works[r].job.Image? && s.cfg.router && s.recoverable.Some? && s.restorePoint.Some?
    ensures Distrusted(DrainForImage(s, r)) && Distrusted(Activated(s, r))
  {
  }

  lemma NextDistrusted(s: State)
    requires Inv(s) && s.pc.Idle? && s.cfg.router && Distrusted(s)
    ensures Distrusted(NextWork(s))
  {
  }

  lemma StepDistrusted(s: State, l: Label)
    requires Inv(s) && s.cfg.router && Distrusted(s)
    ensures Distrusted(Step(s, l)) || Unloads(s, l)
  {
    if Enabled(s, l) {
      if l.LResume? {
        if ServesChat(s.pc) {
          ChatDistrusted(s, l.outcome);
        } else if Current(s.pc).Some? {
          ImageDistrusted(s, l.outcome);
        } else if s.pc.Idle? {
          NextDistrusted(s);
        } else if s.pc.MarkingFatal? {
          FailQueuedFrame(s.(fatal := Some(DispatcherFailed), phase := Error), DispatcherFailed);
        }
      } else if Queues(l) {
        QueueStays(s, l);
      } else if l.LDrainClose? {
        FailQueuedFrame(s, BrokerClosing);
      }
    }
  }

  /** After a failed router request, which only a granted chat reports, the broker counts the router as
      trustworthy again, and grants another chat, only if a release of its model was confirmed since. */
  lemma {:induction false} RouterFailureIsUnloaded(s: State, run: seq<Label>)
    requires Reachable(s) && s.cfg.router && s.recoverable.Some? && s.activeChats > 0
    requires After(s, run).recoverable.None?
    ensures exists n :: 0 <= n < |run| && Unloads(After(s, run[..n]), run[n])
  {
    ReachableInv(s);
    StillDistrusted(s, run);
  }

  lemma {:induction false} StillDistrusted(s: State, run: seq<Label>)
    requires Inv(s) && s.cfg.router && Distrusted(s)
    ensures Distrusted(After(s, run)) || exists n :: 0 <= n < |run| && Unloads(After(s, run[..n]), run[n])
    decreases |run|
  {
    if run != [] {
      var front, l := run[..|run| - 1], run[|run| - 1];
      StillDistrusted(s, front);
      RunKeeps(s, front);
      RunLater(s, front);
      if Distrusted(After(s, front)) {
        StepDistrusted(After(s, front), l);
      } else {
        var n :| 0 <= n < |front| && Unloads(After(s, front[..n]), front[n]);
        assert front[..n] == run[..n];
        assert Unloads(After(s, run[..n]), run[n]);
      }
    }
  }
}
