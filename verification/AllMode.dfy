/** The coordinator over the group of engines: both state machines run together, and every adapter
    call of the coordinator is answered by the group. */
module AllMode {
  import opened Basics
  import H = Handoff
  import HI = HandoffInvariant
  import HB = HandoffBooks
  import HC = HandoffClients
  import HD = HandoffDispatch
  import HS = HandoffSteps
  import HH = HandoffHistory
  import M = Multi

  datatype State = State(broker: H.State, group: M.State)

  datatype Label =
    | Broker(step: H.Label, env: M.Env)   // a step of the broker, with the engines' answers
    | Request(r: nat)                      // the client of lease r sends its request upstream

  predicate Calls(pc: H.Pc) {
    || pc.AcquiringTarget? || pc.Acquiring? || pc.RestoreObserving? || pc.ActivateObserving?
    || pc.Releasing?
  }

  datatype Answered = Answered(group: M.State, outcome: H.Outcome)

  function Looked(s: M.State, env: M.Env): Answered {
    match M.ObserveReady(s, env)
    case Blind => Answered(s, H.Raised(false))
    case Sight(point) => Answered(s, H.Gave(point))
  }

  function Acquired(s: M.State, target: Option<Point>, env: M.Env): Answered {
    var r := M.AcquireGpu(s, target, env);
    Answered(r.state, if r.ok then H.Gave(target) else H.Raised(false))
  }

  /** What the group answers to the call the dispatcher is waiting for. */
  function Call(s: State, env: M.Env): Answered
    requires H.Awake(s.broker) && Calls(s.broker.pc)
  {
    var b := s.broker;
    if b.pc.AcquiringTarget? then Acquired(s.group, b.works[b.pc.r].job.target, env)
    else if b.pc.Acquiring? then Acquired(s.group, b.restorePoint, env)
    else if b.pc.Releasing? then
      var r := M.ReleaseGpu(s.group, env);
      Answered(r.state, if r.ok then H.Returned else H.Raised(false))
    else Looked(s.group, env)
  }

  /** Every chat of this mode names a model of one of the engines. */
  predicate Admissible(s: State, l: H.Label) {
    l.LAdmitChat? ==> l.target.Some? && l.target.value.engine in s.group.fleet.engines
  }

  predicate InLease(b: H.State, r: nat) {
    H.OpenChat(b, r) && b.works[r].job.granted && b.works[r].caller.Entered?
  }

  function Step(s: State, m: Label): State {
    match m
    case Request(r) =>
      if InLease(s.broker, r) && s.broker.works[r].job.target.Some?
      then s.(group := M.Serve(s.group, s.broker.works[r].job.target.value.engine))
      else s
    case Broker(l, env) =>
      if !H.Enabled(s.broker, l) || !Admissible(s, l) then s
      else if l.LResume? && Calls(s.broker.pc) then
        if M.Honest(env, s.group) then
          var a := Call(s, env);
          State(H.Step(s.broker, H.LResume(a.outcome)), a.group)
        else s
      else if l.LRouterFailed? && s.broker.works[l.r].job.target.Some? then
        State(H.Step(s.broker, l),
              M.RequestFailed(s.group, s.broker.works[l.r].job.target.value))
      else s.(broker := H.Step(s.broker, l))
  }

  function After(s: State, run: seq<Label>): State {
    if run == [] then s else Step(After(s, run[..|run| - 1]), run[|run| - 1])
  }

  /** Any engines may be loaded when the broker starts. */
  predicate Starts(s: State) {
    && s.broker.cfg.kind.All? && !s.broker.cfg.router
    && s.broker == H.Initial(s.broker.cfg, None, true)
    && s.group.active.None? && s.group.pending.None? && !s.group.koboldReleased
    && s.group.saved == map[] && s.group.world.log == []
    && forall e :: e in s.group.world.busy ==> e in s.group.fleet.engines
  }

  // ---------------------------------------------------------------- joint invariant

  predicate Targets(works: seq<H.Work>, engines: seq<nat>) {
    forall r :: 0 <= r < |works| && works[r].job.Chat? ==>
      works[r].job.target.Some? && works[r].job.target.value.engine in engines
  }

  /** Owner and group agree: an LLM that owns the GPU is the active model of the only engine that
      may hold memory, and while ComfyUI owns it no engine holds any. */
  predicate Agree(s: State) {
    && (s.broker.owner == H.LLM ==>
          && s.group.active.Some? && s.group.active == s.broker.restorePoint
          && s.group.world.busy <= {s.group.active.value.engine})
    && (s.broker.owner == H.COMFY ==> s.group.pending.None? && s.group.world.busy == {})
  }

  ghost predicate Inv(s: State) {
    && s.broker.cfg.kind.All? && !s.broker.cfg.router
    && HI.Inv(s.broker) && M.Inv(s.group)
    && Targets(s.broker.works, s.group.fleet.engines)
    && Agree(s)
  }

  /** Outside the adapter calls the owner is only ever given up, and the restore point stays. */
  predicate OwnerFades(b: H.State, c: H.State) {
    c.restorePoint == b.restorePoint && (c.owner == b.owner || c.owner == H.UNKNOWN)
  }

  lemma TargetsKept(s: State, l: H.Label)
    requires Inv(s) && Admissible(s, l)
    ensures Targets(H.Step(s.broker, l).works, s.group.fleet.engines)
  {
    var b, c := s.broker, H.Step(s.broker, l);
    HH.StepLater(b, l);
    forall r | 0 <= r < |c.works| && c.works[r].job.Chat?
      ensures c.works[r].job.target.Some?
              && c.works[r].job.target.value.engine in s.group.fleet.engines
    {
      if r < |b.works| {
        assert HC.Grew(b.works[r], c.works[r]);
      }
    }
  }

  lemma DecideFades(b: H.State, r: nat)
    requires r < |b.works| && b.works[r].job.Chat?
    ensures OwnerFades(b, H.Decide(b, r)) && OwnerFades(b, H.BeginReload(b, r))
    ensures OwnerFades(b, H.Reload(b, r)) && OwnerFades(b, H.DrainChats(b, r))
    ensures OwnerFades(b, H.ResumeDrainChats(b, r))
  {
  }

  lemma RefuseFades(b: H.State, r: nat, reason: H.Reason, o: H.Outcome)
    requires r < |b.works|
    ensures OwnerFades(b, H.RefuseChat(b, r)) && OwnerFades(b, H.RestoreFailed(b, r, reason))
    ensures OwnerFades(b, H.Stumble(b, r, o))
  {
  }

  lemma GrantFades(b: H.State, r: nat)
    requires r < |b.works| && b.works[r].job.Chat?
    ensures OwnerFades(b, H.Grant(b, r))
  {
  }

  lemma ChatOwnerFades(b: H.State, o: H.Outcome)
    requires H.Awake(b) && H.ServesChat(b.pc) && !Calls(b.pc)
    requires !b.pc.RouterReleasing? && !b.pc.RouterAcquiring?
    ensures OwnerFades(b, H.ResumeChat(b, o))
  {
    var r := b.pc.r;
    if b.pc.ChatEntry? || b.pc.ChatDrain? {
      DecideFades(b, r);
    } else if b.pc.Freeing? {
      DecideFades(b.(seen := b.seen.(dirty := false)), r);
      RefuseFades(b, r, H.CleanupUnconfirmed, o);
    } else if b.pc.RestoreValidating? {
      DecideFades(b.(controlValidated := true), r);
      RefuseFades(b, r, H.CleanupUnconfirmed, o);
    } else if b.pc.Granting? {
      GrantFades(b, r);
    } else if b.pc.RestoreMarking? {
      RefuseFades(H.MarkRecoverable(b, b.pc.reason), r, H.NotReady, o);
    } else {
      RefuseFades(b, r, H.CleanupUnconfirmed, o);
    }
  }

  lemma ImageFailedFades(b: H.State, r: nat)
    requires r < |b.works|
    ensures OwnerFades(b, H.ImageFailed(b, r))
  {
  }

  lemma SubmitFades(b: H.State, r: nat)
    requires r < |b.works| && b.works[r].job.Image?
    ensures OwnerFades(b, H.Submit(b, r)) && OwnerFades(b, H.DispatchImage(b, r))
  {
  }

  lemma DrainForImageFades(b: H.State, r: nat)
    requires r < |b.works| && b.works[r].job.Image?
    requires b.cfg.kind.All? && !b.cfg.router && b.owner != H.COMFY
    ensures OwnerFades(b, H.DrainForImage(b, r))
  {
    ImageFailedFades(b.(owner := H.UNKNOWN, phase := H.UnloadingLlm), r);
  }

  lemma ComfyFades(b: H.State, o: H.Outcome)
    requires H.Awake(b) && (b.pc.Submitting? || b.pc.AwaitingPrompt?)
    ensures OwnerFades(b, H.ResumeImage(b, o))
  {
    var r := b.pc.r;
    if o.Raised? {
      ImageFailedFades(b, r);
      ImageFailedFades(H.Forgotten(b, r), r);
    }
  }

  lemma ImageOwnerFades(b: H.State, o: H.Outcome)
    requires H.Awake(b) && H.Current(b.pc).Some? && !H.ServesChat(b.pc) && !Calls(b.pc)
    requires b.cfg.kind.All? && !b.cfg.router && !b.pc.ActivateAcquiring?
    requires b.pc.DrainEntry? || b.pc.Draining? ==> b.owner != H.COMFY
    ensures OwnerFades(b, H.ResumeImage(b, o))
  {
    var r := b.pc.r;
    if b.pc.DrainEntry? || b.pc.Draining? {
      DrainForImageFades(b, r);
      DrainForImageFades(b.(phase := H.DrainingLlm), r);
      ImageFailedFades(b, r);
    } else if b.pc.Submitting? || b.pc.AwaitingPrompt? {
      ComfyFades(b, o);
    } else if b.pc.ActivateValidating? {
      ImageFailedFades(b, r);
    }
  }

  lemma ResumeOwnerFades(b: H.State, o: H.Outcome)
    requires HI.Inv(b) && !Calls(b.pc) && b.cfg.kind.All? && !b.cfg.router
    ensures OwnerFades(b, H.Resume(b, o))
  {
    if H.ServesChat(b.pc) {
      ChatOwnerFades(b, o);
    } else if H.Current(b.pc).Some? {
      ImageOwnerFades(b, o);
    } else if b.pc.Idle? {
      NextOwnerFades(b);
    } else if b.pc.MarkingFatal? {
      HS.FailQueuedFrame(b.(fatal := Some(H.DispatcherFailed), phase := H.Error), H.DispatcherFailed);
    }
  }

  lemma NextOwnerFades(b: H.State)
    requires H.Allocated(b)
    ensures OwnerFades(b, H.NextWork(b))
  {
    if !H.Refuses(b) && b.queue != [] {
      var r := b.queue[0];
      var c := H.ReleaseAccounting(
        b.(queue := b.queue[1..], seen := b.seen.(dispatched := b.seen.dispatched + [r])),
        b.works[r]);
      if c.works[r].job.Chat? {
        DecideFades(c, r);
      } else {
        SubmitFades(c, r);
      }
    }
  }

  lemma StepOwnerFades(b: H.State, l: H.Label)
    requires HI.Inv(b) && b.cfg.kind.All? && !b.cfg.router
    requires l.LResume? ==> !Calls(b.pc)
    ensures OwnerFades(b, H.Step(b, l))
  {
    if H.Enabled(b, l) {
      if l.LResume? {
        ResumeOwnerFades(b, l.outcome);
      } else if HS.Queues(l) {
        QueueOwnerFades(b, l);
      } else if l.LDrainClose? {
        HS.FailQueuedFrame(b, H.BrokerClosing);
      }
    }
  }

  lemma QueueOwnerFades(b: H.State, l: H.Label)
    requires HI.Inv(b) && H.Enabled(b, l) && HS.Queues(l)
    ensures OwnerFades(b, H.Step(b, l))
  {
    HC.Sequenced(b, H.Current(b.pc));
    if l.LLeaveChat? {
      var r := l.r;
      assert HI.WorkOk(b.works[r], r, r in b.queue, H.Current(b.pc) == Some(r), r in b.seen.abandoned);
      HS.LeaveChatFrame(b, r);
    } else if l.LLeaveImage? {
      HC.CancelImageFrame(b, l.r, H.ImageCancelled);
    } else if l.LLeaveBatch? {
      var batch := b.seen.batches[l.b];
      HS.BatchClosed(b, l.b);
      HC.LeaveBatchBooks(
        b.(seen := b.seen.(batches := b.seen.batches[l.b := batch.(open := false)])),
        batch.first, batch.count, H.Current(b.pc));
    } else if l.LSubmitImage? {
      HC.AppendImagesFrame(b, [l.size], if l.notifies then Some(H.Pending) else None, |b.works|);
    } else if l.LSubmitBatch? {
      HC.AppendImagesFrame(b, l.sizes, Some(H.Pending), |b.works|);
    }
  }

  // ---------------------------------------------------------------- the adapter calls

  /** How each answered call moves the owner. */
  lemma CallOwner(b: H.State, o: H.Outcome)
    requires HI.Inv(b) && Calls(b.pc) && b.cfg.kind.All? && !b.cfg.router
    requires b.works[b.pc.r].job.Chat? ==> b.works[b.pc.r].job.target.Some?
    ensures var c := H.Resume(b, o);
            && (c.owner == H.LLM ==> b.pc.AcquiringTarget? && o == H.Gave(c.restorePoint))
            && (c.owner == H.COMFY ==>
                  (b.pc.Releasing? && o.Returned?) || (b.pc.ActivateObserving? && o == H.Gave(None)))
  {
    if b.pc.AcquiringTarget? {
      AcquiredOwner(b, o);
    } else if b.pc.Releasing? {
      ReleasedOwner(b, o);
    } else {
      ObservedOwner(b, o);
    }
  }

  lemma AcquiredOwner(b: H.State, o: H.Outcome)
    requires H.Awake(b) && b.pc.AcquiringTarget? && b.owner == H.UNKNOWN
    ensures var c := H.Resume(b, o);
            && (c.owner == H.LLM ==> o == H.Gave(c.restorePoint))
            && c.owner != H.COMFY
  {
    RefuseFades(b, b.pc.r, H.NotReady, o);
  }

  lemma ReleasedOwner(b: H.State, o: H.Outcome)
    requires H.Awake(b) && b.pc.Releasing? && b.owner == H.UNKNOWN
    ensures var c := H.Resume(b, o);
            c.owner != H.LLM && (c.owner == H.COMFY ==> o.Returned?)
  {
    ImageFailedFades(b, b.pc.r);
  }

  lemma ObservedOwner(b: H.State, o: H.Outcome)
    requires H.Awake(b) && b.pc.ActivateObserving? && b.owner == H.UNKNOWN
    ensures var c := H.Resume(b, o);
            c.owner != H.LLM && (c.owner == H.COMFY ==> o == H.Gave(None))
  {
    ImageFailedFades(b, b.pc.r);
  }

  lemma CallKeeps(s: State, env: M.Env)
    requires Inv(s) && Calls(s.broker.pc) && M.Honest(env, s.group)
    ensures var a := Call(s, env);
            M.Inv(a.group) && a.group.fleet == s.group.fleet
            && Agree(State(H.Resume(s.broker, a.outcome), a.group))
  {
    var b, a := s.broker, Call(s, env);
    CallOwner(b, a.outcome);
    if b.pc.AcquiringTarget? {
      M.AcquireGpuKeeps(s.group, b.works[b.pc.r].job.target, env);
    } else if b.pc.Acquiring? {
      M.AcquireGpuKeeps(s.group, b.restorePoint, env);
    } else if b.pc.Releasing? {
      M.ReleaseGpuConfirms(s.group, env);
    } else {
      M.ObserveReadyConfirms(s.group, env);
    }
  }

  // ---------------------------------------------------------------- every run

  lemma ServeAgrees(s: State, r: nat)
    requires Inv(s) && InLease(s.broker, r)
    ensures Inv(Step(s, Request(r)))
  {
    var b := s.broker;
    HI.GrantedPositive(b.works, r);
    assert b.works[r].job.target == b.restorePoint;
    var e := b.works[r].job.target.value.engine;
    M.ServeKeeps(s.group, e);
  }

  lemma ResumeStep(b: H.State, o: H.Outcome)
    requires H.Awake(b)
    ensures H.Step(b, H.LResume(o)) == H.Resume(b, o)
  {
  }

  lemma ResumeTargets(s: State, o: H.Outcome)
    requires Inv(s)
    ensures var c := H.Resume(s.broker, o);
            HI.Inv(c) && c.cfg == s.broker.cfg && Targets(c.works, s.group.fleet.engines)
  {
    ResumeStep(s.broker, o);
    TargetsKept(s, H.LResume(o));
    HS.StepKeeps(s.broker, H.LResume(o));
    HH.StepLater(s.broker, H.LResume(o));
  }

  lemma CallStepKeeps(s: State, env: M.Env)
    requires Inv(s) && Calls(s.broker.pc) && M.Honest(env, s.group)
    ensures var a := Call(s, env);
            Inv(State(H.Step(s.broker, H.LResume(a.outcome)), a.group))
  {
    var a := Call(s, env);
    CallKeeps(s, env);
    ResumeTargets(s, a.outcome);
    ResumeStep(s.broker, a.outcome);
  }

  lemma QuietStepKeeps(s: State, l: H.Label)
    requires Inv(s) && Admissible(s, l) && (l.LResume? ==> !Calls(s.broker.pc))
    ensures Inv(s.(broker := H.Step(s.broker, l)))
  {
    TargetsKept(s, l);
    HS.StepKeeps(s.broker, l);
    HH.StepLater(s.broker, l);
    StepOwnerFades(s.broker, l);
  }

  lemma FailureReportKeeps(s: State, target: Point)
    requires Inv(s)
    ensures Inv(s.(group := M.RequestFailed(s.group, target)))
  {
    M.RequestFailedKeeps(s.group, target);
  }

  lemma BrokerStepKeeps(s: State, l: H.Label, env: M.Env)
    requires Inv(s)
    ensures Inv(Step(s, Broker(l, env)))
  {
    if H.Enabled(s.broker, l) && Admissible(s, l) {
      if l.LResume? && Calls(s.broker.pc) {
        if M.Honest(env, s.group) {
          CallStepKeeps(s, env);
        }
      } else {
        QuietStepKeeps(s, l);
        var t := s.(broker := H.Step(s.broker, l));
        if l.LRouterFailed? && s.broker.works[l.r].job.target.Some? {
          FailureReportKeeps(t, s.broker.works[l.r].job.target.value);
        }
      }
    }
  }

  lemma {:induction false} RunKeeps(s: State, run: seq<Label>)
    requires Starts(s)
    ensures Inv(After(s, run))
  {
    if run == [] {
      HS.InitialHolds(s.broker.cfg, None, true);
    } else {
      RunKeeps(s, run[..|run| - 1]);
      var t, m := After(s, run[..|run| - 1]), run[|run| - 1];
      match m
      case Request(r) => if InLease(t.broker, r) { ServeAgrees(t, r); }
      case Broker(l, env) => BrokerStepKeeps(t, l, env);
    }
  }

  lemma StepFleet(s: State, m: Label)
    requires Inv(s)
    ensures Step(s, m).group.fleet == s.group.fleet
  {
    match m
    case Request(_) =>
    case Broker(l, env) =>
      if H.Enabled(s.broker, l) && l.LResume? && Calls(s.broker.pc) && M.Honest(env, s.group) {
        CallKeeps(s, env);
      }
  }

  lemma {:induction false} RunFleet(s: State, run: seq<Label>)
    requires Starts(s)
    ensures After(s, run).group.fleet == s.group.fleet
  {
    if run != [] {
      RunFleet(s, run[..|run| - 1]);
      RunKeeps(s, run[..|run| - 1]);
      StepFleet(After(s, run[..|run| - 1]), run[|run| - 1]);
    }
  }

  /** A granted chat runs on the active model of the only engine that may hold memory. */
  predicate RunsAlone(s: State, w: H.Work) {
    w.job.Chat? && w.job.granted ==>
      && s.group.active.Some? && w.job.target == s.group.active
      && s.group.world.busy <= {s.group.active.value.engine}
  }

  /** Whatever the engines answer and however the clients interleave: while ComfyUI owns the GPU no
      engine holds memory, whatever ComfyUI is doing; a granted chat runs on the active model of the
      only engine that may; and every native load is started with all other engines empty. */
  lemma GroupAndBrokerAgree(s: State, run: seq<Label>)
    requires Starts(s)
    ensures var t := After(s, run);
            && (t.broker.owner == H.COMFY ==> t.group.world.busy == {})
            && (t.broker.pc.Submitting? || t.broker.pc.AwaitingPrompt? || t.broker.pc.Interrupting? ==>
                  t.broker.owner == H.COMFY)
            && (t.broker.owner == H.LLM ==> t.group.active == t.broker.restorePoint)
            && (forall r :: 0 <= r < |t.broker.works| ==> RunsAlone(t, t.broker.works[r]))
            && (forall i :: 0 <= i < |t.group.world.log| && t.group.world.log[i].Started? ==>
                  t.group.world.log[i].others == {})
  {
    var t := After(s, run);
    RunKeeps(s, run);
    forall r | 0 <= r < |t.broker.works|
      ensures RunsAlone(t, t.broker.works[r])
    {
      GrantedAlone(t, r);
    }
    forall i | 0 <= i < |t.group.world.log| && t.group.world.log[i].Started?
      ensures t.group.world.log[i].others == {}
    {
      M.LogOkAt(t.group.world.log, i, t.group.fleet.strata);
    }
    PromptsAreOwned(t);
  }

  lemma GrantedAlone(t: State, r: nat)
    requires Inv(t) && r < |t.broker.works|
    ensures RunsAlone(t, t.broker.works[r])
  {
    HI.GrantedPositive(t.broker.works, r);
  }

  lemma PromptsAreOwned(t: State)
    requires Inv(t)
    ensures t.broker.pc.Submitting? || t.broker.pc.AwaitingPrompt? || t.broker.pc.Interrupting? ==>
              t.broker.owner == H.COMFY
  {
  }

  /** Any number of switches, on one engine or several: a model is loaded with the settings last observed
      or restored while it was the active one, and a model that was never seen by its own name or, on a
      Strata engine, as the point that the engine named just before. */
  lemma LoadsAskForTheirModel(s: State, run: seq<Label>, i: nat)
    requires Starts(s)
    requires i < |After(s, run).group.world.log| && After(s, run).group.world.log[i].Started?
    ensures var log := After(s, run).group.world.log;
            var target, native, latest := log[i].target, log[i].native, M.Latest(log[..i], log[i].target);
            if latest.Some? then native == latest.value
            else if target.engine !in s.group.fleet.strata then native == M.Named(target.model)
            else i > 0 && log[i - 1] == M.Asked(target.engine, native)
  {
    RunKeeps(s, run);
    RunFleet(s, run);
    LoadAsks(After(s, run).group.world.log, i, s.group.fleet.strata);
  }

  lemma LoadAsks(log: seq<M.Event>, i: nat, strata: set<nat>)
    requires M.LogOk(log, strata) && i < |log| && log[i].Started?
    ensures var target, native, latest := log[i].target, log[i].native, M.Latest(log[..i], log[i].target);
            if latest.Some? then native == latest.value
            else if target.engine !in strata then native == M.Named(target.model)
            else i > 0 && log[i - 1] == M.Asked(target.engine, native)
  {
    M.LogOkAt(log, i, strata);
  }

  // ---------------------------------------------------------------- a started load, later on

  lemma LogGrows(s: State, m: Label)
    requires Inv(s)
    ensures s.group.world.log <= Step(s, m).group.world.log
  {
    match m
    case Request(_) =>
    case Broker(l, env) =>
      if H.Enabled(s.broker, l) && Admissible(s, l) && l.LResume? && Calls(s.broker.pc) && M.Honest(env, s.group) {
        CallLogs(s, env);
      }
  }

  lemma CallLogs(s: State, env: M.Env)
    requires Inv(s) && Calls(s.broker.pc) && M.Honest(env, s.group)
    ensures s.group.world.log <= Call(s, env).group.world.log
  {
    var b := s.broker;
    if b.pc.AcquiringTarget? {
      M.AcquireGpuKeeps(s.group, b.works[b.pc.r].job.target, env);
    } else if b.pc.Acquiring? {
      M.AcquireGpuKeeps(s.group, b.restorePoint, env);
    } else if b.pc.Releasing? {
      M.ReleaseGpuConfirms(s.group, env);
    }
  }

  lemma {:induction false} LogOnlyGrows(s: State, early: seq<Label>, late: seq<Label>)
    requires Starts(s)
    ensures After(s, early).group.world.log <= After(s, early + late).group.world.log
    decreases |late|
  {
    if late == [] {
      assert early + late == early;
    } else {
      var before, m := late[..|late| - 1], late[|late| - 1];
      LogOnlyGrows(s, early, before);
      RunKeeps(s, early + before);
      assert (early + late)[..|early + late| - 1] == early + before;
      LogGrows(After(s, early + before), m);
    }
  }

  predicate ClearedAfter(log: seq<M.Event>, i: nat, e: nat) {
    exists j :: i < j < |log| && log[j] == M.Cleared(e, false)
  }

  /** From the attempt of a load, whatever came of it, until its engine is confirmed empty: the group
      never reports that nothing is loaded, the load stays the pending one, and ComfyUI is not given
      the GPU. Over every run: once a load was started, a later state in which ComfyUI owns the GPU, or
      another load or none is pending, has the engine's confirmation in between. */
  lemma FailedLoadBlocksComfy(s: State, early: seq<Label>, late: seq<Label>, i: nat, env: M.Env)
    requires Starts(s)
    requires i < |After(s, early).group.world.log| && After(s, early).group.world.log[i].Started?
    ensures var t, u := After(s, early), After(s, early + late);
            var e := t.group.world.log[i].target.engine;
            && t.group.world.log <= u.group.world.log
            && (ClearedAfter(u.group.world.log, i, e)
                || (M.On(u.group.pending, e) && u.broker.owner != H.COMFY
                    && (M.Honest(env, u.group) ==> M.ObserveReady(u.group, env) != M.Sight(None))))
  {
    var t, u := After(s, early), After(s, early + late);
    var e := t.group.world.log[i].target.engine;
    LogOnlyGrows(s, early, late);
    RunKeeps(s, early + late);
    assert u.group.world.log[i] == t.group.world.log[i];
    if M.Running(u.group.world.log, e) {
      if M.Honest(env, u.group) {
        M.ObserveReadyConfirms(u.group, env);
      }
    } else {
      var j := M.NotRunning(u.group.world.log, i);
      M.LogOkAt(u.group.world.log, j, u.group.fleet.strata);
      assert u.group.world.log[j] == M.Cleared(e, false);
    }
  }

  /** The step that matters: with a load pending, the observation before an image does not free the GPU
      for ComfyUI. */
  lemma PendingBlocksComfy(s: State, env: M.Env)
    requires Inv(s) && s.broker.pc.ActivateObserving? && M.Honest(env, s.group)
    requires s.group.pending.Some?
    ensures Call(s, env).outcome != H.Gave(None)
    ensures Step(s, Broker(H.LResume(H.Wake), env)).broker.owner != H.COMFY
  {
    M.ObserveReadyConfirms(s.group, env);
    StillOccupied(s, env);
    ObservedOwner(s.broker, Call(s, env).outcome);
  }

  lemma StillOccupied(s: State, env: M.Env)
    requires H.Awake(s.broker) && s.broker.pc.ActivateObserving?
    requires M.ObserveReady(s.group, env) != M.Sight(None)
    ensures Call(s, env).outcome != H.Gave(None)
  {
  }
}
