/** One GPU participant made of several engines.

    World is the truth the adapters cannot see directly: which engines may hold GPU memory, and
    under what circumstances each native load was started. Env supplies the outcome of every
    awaited native call of one operation. */
module Multi {
  import opened Basics

  /** A native restore point: built from a model name, or observed on a running engine. */
  datatype Native = Named(model: nat) | Seen(settings: nat)

  datatype Answer = Failed | Nothing | Saw(native: Native)

  datatype Env = Env(
    observe: nat -> Answer,     // observe_ready of an engine
    release: nat -> bool,       // release_gpu of an engine returns
    lingers: nat -> bool,       // an engine whose release or load failed still holds memory
    again: Answer,              // the second observation, when switching models on one engine
    request: Option<Native>,    // request_target of a Strata engine
    acquire: Option<Native>)    // acquire_gpu of the target engine

  /** What happens at the engines. Looked: an engine told what it has loaded, while active was the
      group's model. Cleared: an engine was confirmed empty, by its release or by reporting nothing;
      held is whether it still held memory. Asked: a Strata engine told which point a model name stands
      for. Started: a native load, and who else held memory. Restored: that load succeeded. */
  datatype Event =
    | Looked(engine: nat, active: Option<Point>, native: Native)
    | Cleared(engine: nat, held: bool)
    | Asked(engine: nat, native: Native)
    | Started(target: Point, native: Native, others: set<nat>)
    | Restored(target: Point, native: Native)

  datatype World = World(busy: set<nat>, log: seq<Event>)

  datatype Fleet = Fleet(engines: seq<nat>, kobold: nat, strata: set<nat>)

  datatype State = State(
    fleet: Fleet,
    active: Option<Point>,
    pending: Option<Point>,
    saved: map<Point, Native>,
    routerFailed: bool,
    koboldReleased: bool,
    world: World)

  /** The backend contract, as an assumption on the native answers: an engine that reports nothing
      loaded holds nothing. */
  predicate Honest(env: Env, s: State) {
    forall e :: e in s.fleet.engines ==>
      AbsenceConfirms(env.observe(e).Nothing?, e in s.world.busy)
  }

  predicate On(p: Option<Point>, e: nat) {
    p.Some? && p.value.engine == e
  }

  // ---------------------------------------------------------------- operations

  function WithBusy(s: State, busy: set<nat>): State {
    s.(world := s.world.(busy := busy))
  }

  function Log(s: State, event: Event): State {
    s.(world := s.world.(log := s.world.log + [event]))
  }

  /** The engine counts as empty from here on. */
  function Clear(s: State, e: nat): State {
    Forget(Log(s, Cleared(e, e in s.world.busy)), e)
  }

  function Forget(s: State, e: nat): State {
    s.(active := if On(s.active, e) then None else s.active,
       pending := if On(s.pending, e) then None else s.pending)
  }

  /** A native release: if it returns the engine is empty, otherwise it may or may not be. */
  function NativeRelease(s: State, e: nat, env: Env): State {
    if env.release(e) || !env.lingers(e) then WithBusy(s, s.world.busy - {e}) else s
  }

  datatype Result = Result(state: State, ok: bool)

  function ReleaseKobold(s: State, env: Env): Result {
    var e := s.fleet.kobold;
    if s.koboldReleased then Result(Forget(s.(routerFailed := false), e), true)
    else
      var s1 := NativeRelease(s, e, env);
      if !env.release(e) then Result(s1, false)
      else Result(Clear(s1.(koboldReleased := true, routerFailed := false), e), true)
  }

  function Remember(s: State, e: nat, native: Native): State {
    var s1 := Log(s, Looked(e, s.active, native));
    if On(s.active, e) then s1.(saved := s.saved[s.active.value := native]) else s1
  }

  function ReleaseNative(s: State, e: nat, env: Env): Result {
    match env.observe(e)
    case Failed => Result(s, false)
    case Nothing => Result(Clear(s, e), true)
    case Saw(native) =>
      var s1 := NativeRelease(Remember(s, e, native), e, env);
      if env.release(e) then Result(Clear(s1, e), true) else Result(s1, false)
  }

  function ReleaseEngine(s: State, e: nat, env: Env): Result {
    if e == s.fleet.kobold then ReleaseKobold(s, env) else ReleaseNative(s, e, env)
  }

  /** Release the listed engines in order, except one, stopping at the first failure. */
  function ReleaseEach(s: State, engines: seq<nat>, except: Option<nat>, env: Env): Result
    decreases |engines|
  {
    if engines == [] then Result(s, true)
    else if except == Some(engines[0]) then ReleaseEach(s, engines[1..], except, env)
    else
      var r := ReleaseEngine(s, engines[0], env);
      if r.ok then ReleaseEach(r.state, engines[1..], except, env) else r
  }

  function ReleaseGpu(s: State, env: Env): Result {
    ReleaseEach(s, s.fleet.engines, None, env)
  }

  /** Saving the settings of the model that is about to be replaced on the same engine. */
  function SaveReplaced(s: State, target: Point, env: Env): Result {
    if On(s.active, target.engine) && s.active != Some(target) then
      match env.again
      case Failed => Result(s, false)
      case Nothing => Result(s, true)
      case Saw(native) => Result(Remember(s, target.engine, native), true)
    else Result(s, true)
  }

  function Prepare(s: State, target: Point, env: Env): Result {
    var r1 := ReleaseEach(s, s.fleet.engines, Some(target.engine), env);
    if !r1.ok then r1
    else
      var s1 := r1.state;
      var r2 := if target.engine == s1.fleet.kobold && (s1.routerFailed || s1.active == Some(target))
                then ReleaseKobold(s1, env) else r1;
      if !r2.ok then r2 else SaveReplaced(r2.state, target, env)
  }

  function Restore(s: State, target: Point, env: Env): Option<Native> {
    if target in s.saved then Some(s.saved[target])
    else if target.engine in s.fleet.strata then env.request
    else Some(Named(target.model))
  }

  function Asking(s: State, target: Point, env: Env): State {
    if target !in s.saved && target.engine in s.fleet.strata && env.request.Some?
    then Log(s, Asked(target.engine, env.request.value)) else s
  }

  /** The native load itself, from the moment it is attempted. */
  function Attempt(s: State, target: Point, native: Native, env: Env): Result {
    var e := target.engine;
    var s1 := s.(pending := Some(target), active := None,
                 koboldReleased := s.koboldReleased && e != s.fleet.kobold,
                 world := World(
                   if env.acquire.Some? || env.lingers(e) then s.world.busy + {e} else s.world.busy,
                   s.world.log + [Started(target, native, s.world.busy - {e})]));
    if env.acquire.None? then Result(s1, false)
    else
      Result(Log(s1, Restored(target, env.acquire.value))
             .(saved := s1.saved[target := env.acquire.value], active := Some(target)), true)
  }

  function AcquireGpu(s: State, target: Option<Point>, env: Env): Result {
    if target.None? || target.value.engine !in s.fleet.engines then Result(s, false)
    else
      var r := Prepare(s, target.value, env);
      if !r.ok then r
      else
        var native := Restore(r.state, target.value, env);
        if native.None? then Result(r.state, false)
        else Attempt(Asking(r.state, target.value, env), target.value, native.value, env)
  }

  datatype Sight = Blind | Sight(point: Option<Point>)

  function AnySees(engines: seq<nat>, env: Env): bool {
    engines != [] && (env.observe(engines[0]).Saw? || AnySees(engines[1..], env))
  }

  predicate AnyFails(engines: seq<nat>, env: Env) {
    engines != [] && (env.observe(engines[0]).Failed? || AnyFails(engines[1..], env))
  }

  /** The group counts as occupied while an acquisition is pending, whatever the engines report. */
  function ObserveReady(s: State, env: Env): Sight {
    if AnyFails(s.fleet.engines, env) then Blind
    else if s.pending.Some? || AnySees(s.fleet.engines, env)
    then Sight(Some(if s.active.Some? then s.active.value else Point(0, 0)))
    else Sight(None)
  }

  function RequestFailed(s: State, target: Point): State {
    if target.engine == s.fleet.kobold then s.(routerFailed := true, koboldReleased := false) else s
  }

  /** A request in a lease may make its engine hold memory, as the native router does. */
  function Serve(s: State, e: nat): State {
    WithBusy(s, s.world.busy + {e})
  }

  // ---------------------------------------------------------------- what the log tells

  /** A load of e was started, and e was not confirmed empty since. */
  predicate Running(log: seq<Event>, e: nat) {
    log != []
    && match log[|log| - 1]
       case Started(target, _, _) => target.engine == e || Running(log[..|log| - 1], e)
       case Cleared(engine, _) => engine != e && Running(log[..|log| - 1], e)
       case _ => Running(log[..|log| - 1], e)
  }

  /** The settings last observed or restored while p was the group's model. */
  function Latest(log: seq<Event>, p: Point): Option<Native> {
    if log == [] then None
    else
      match log[|log| - 1]
      case Looked(engine, active, native) =>
        if active == Some(p) && p.engine == engine then Some(native) else Latest(log[..|log| - 1], p)
      case Restored(target, native) => if target == p then Some(native) else Latest(log[..|log| - 1], p)
      case _ => Latest(log[..|log| - 1], p)
  }

  /** What a model that was never seen is loaded with: its name, and on a Strata engine the point that
      the engine has just named. */
  predicate FirstLoad(before: seq<Event>, target: Point, native: Native, strata: set<nat>) {
    if target.engine in strata
    then before != [] && before[|before| - 1] == Asked(target.engine, native)
    else native == Named(target.model)
  }

  /** A load starts alone, with the latest settings of its model or as a first load; an engine confirmed
      empty is. */
  predicate EventOk(before: seq<Event>, event: Event, strata: set<nat>) {
    match event
    case Started(target, native, others) =>
      && others == {}
      && (if Latest(before, target).Some? then native == Latest(before, target).value
          else FirstLoad(before, target, native, strata))
    case Cleared(_, held) => !held
    case _ => true
  }

  predicate LogOk(log: seq<Event>, strata: set<nat>) {
    log == []
    || (LogOk(log[..|log| - 1], strata) && EventOk(log[..|log| - 1], log[|log| - 1], strata))
  }

  lemma Appended(log: seq<Event>, event: Event, strata: set<nat>)
    ensures (log + [event])[..|log|] == log && (log + [event])[|log|] == event
    ensures LogOk(log + [event], strata) <==> LogOk(log, strata) && EventOk(log, event, strata)
    ensures forall e :: Running(log + [event], e) <==>
              if event.Started? && event.target.engine == e then true
              else !(event.Cleared? && event.engine == e) && Running(log, e)
  {
    assert (log + [event])[..|log|] == log;
  }

  lemma {:induction false} LogOkAt(log: seq<Event>, i: nat, strata: set<nat>)
    requires LogOk(log, strata) && i < |log|
    ensures EventOk(log[..i], log[i], strata)
    decreases |log|
  {
    if i < |log| - 1 {
      LogOkAt(log[..|log| - 1], i, strata);
      assert log[..|log| - 1][..i] == log[..i];
    }
  }

  /** A started load that no longer runs was followed by a confirmation that its engine is empty. */
  lemma {:induction false} NotRunning(log: seq<Event>, i: nat) returns (j: nat)
    requires i < |log| && log[i].Started? && !Running(log, log[i].target.engine)
    ensures i < j < |log| && log[j].Cleared? && log[j].engine == log[i].target.engine
    decreases |log|
  {
    j := |log| - 1;
    if !(log[j].Cleared? && log[j].engine == log[i].target.engine) {
      assert log[..|log| - 1][i] == log[i];
      j := NotRunning(log[..|log| - 1], i);
      assert log[..|log| - 1][j] == log[j];
    }
  }

  /** The log only grows, and without starting a load. */
  predicate Quietly(a: seq<Event>, b: seq<Event>) {
    a <= b && forall i :: |a| <= i < |b| ==> !b[i].Started?
  }

  // ---------------------------------------------------------------- invariant

  /** The load that may still run is the pending one. */
  ghost predicate Pends(s: State) {
    forall e :: Running(s.world.log, e) ==> On(s.pending, e)
  }

  /** What the group saved of a model are its latest settings. */
  ghost predicate Saves(s: State) {
    forall p :: Latest(s.world.log, p) == if p in s.saved then Some(s.saved[p]) else None
  }

  ghost predicate Inv(s: State) {
    && (forall e :: e in s.world.busy ==> e in s.fleet.engines)
    && (s.koboldReleased ==> s.fleet.kobold !in s.world.busy && !On(s.pending, s.fleet.kobold))
    && (s.pending.Some? ==> s.pending.value.engine in s.fleet.engines)
    && (s.active.Some? ==> s.pending == s.active)
    && LogOk(s.world.log, s.fleet.strata) && Pends(s) && Saves(s)
  }

  /** A released engine holds nothing and is neither active nor pending; no other engine changes. */
  predicate Released(s: State, e: nat, t: State) {
    && t.fleet == s.fleet
    && t.world.busy == s.world.busy - {e}
    && t.active == (if On(s.active, e) then None else s.active)
    && t.pending == (if On(s.pending, e) then None else s.pending)
  }

  lemma ClearKeeps(s: State, e: nat)
    requires LogOk(s.world.log, s.fleet.strata) && Pends(s) && Saves(s) && e !in s.world.busy
    ensures var t := Clear(s, e); LogOk(t.world.log, s.fleet.strata) && Pends(t) && Saves(t)
    ensures Quietly(s.world.log, Clear(s, e).world.log)
  {
    Appended(s.world.log, Cleared(e, false), s.fleet.strata);
    assert Clear(s, e).world.log == s.world.log + [Cleared(e, false)];
  }

  lemma RememberKeeps(s: State, e: nat, native: Native)
    requires LogOk(s.world.log, s.fleet.strata) && Pends(s) && Saves(s)
    ensures var t := Remember(s, e, native); LogOk(t.world.log, s.fleet.strata) && Pends(t) && Saves(t)
    ensures Quietly(s.world.log, Remember(s, e, native).world.log)
  {
    Appended(s.world.log, Looked(e, s.active, native), s.fleet.strata);
    assert Remember(s, e, native).world.log == s.world.log + [Looked(e, s.active, native)];
  }

  /** Releasing one engine clears exactly that engine, and a failed release forgets nothing. */
  lemma ReleaseEngineKeeps(s: State, e: nat, env: Env)
    requires Inv(s) && Honest(env, s) && e in s.fleet.engines
    ensures var r := ReleaseEngine(s, e, env);
            && Inv(r.state)
            && r.state.fleet == s.fleet && Quietly(s.world.log, r.state.world.log)
            && s.world.busy - {e} <= r.state.world.busy <= s.world.busy
            && (r.ok ==> Released(s, e, r.state))
            && (!r.ok ==> r.state.active == s.active && r.state.pending == s.pending)
  {
    if e == s.fleet.kobold {
      ReleaseKoboldKeeps(s, env);
    } else {
      ReleaseNativeKeeps(s, e, env);
    }
  }

  lemma ReleaseKoboldKeeps(s: State, env: Env)
    requires Inv(s) && s.fleet.kobold in s.fleet.engines
    ensures var r, e := ReleaseKobold(s, env), s.fleet.kobold;
            && Inv(r.state)
            && r.state.fleet == s.fleet && Quietly(s.world.log, r.state.world.log)
            && s.world.busy - {e} <= r.state.world.busy <= s.world.busy
            && (r.ok ==> Released(s, e, r.state))
            && (!r.ok ==> r.state.active == s.active && r.state.pending == s.pending)
  {
    var e := s.fleet.kobold;
    if s.koboldReleased {
      assert s.world.busy - {e} == s.world.busy;
    } else if env.release(e) {
      var s1 := NativeRelease(s, e, env);
      ClearKeeps(s1.(koboldReleased := true, routerFailed := false), e);
    }
  }

  lemma ReleaseNativeKeeps(s: State, e: nat, env: Env)
    requires Inv(s) && Honest(env, s) && e in s.fleet.engines && e != s.fleet.kobold
    ensures var r := ReleaseNative(s, e, env);
            && Inv(r.state)
            && r.state.fleet == s.fleet && Quietly(s.world.log, r.state.world.log)
            && s.world.busy - {e} <= r.state.world.busy <= s.world.busy
            && (r.ok ==> Released(s, e, r.state))
            && (!r.ok ==> r.state.active == s.active && r.state.pending == s.pending)
  {
    match env.observe(e)
    case Failed =>
    case Nothing =>
      ClearInv(s, e);
    case Saw(native) =>
      ReleaseSeenKeeps(s, e, native, env);
  }

  lemma ReleaseSeenKeeps(s: State, e: nat, native: Native, env: Env)
    requires Inv(s) && e in s.fleet.engines && e != s.fleet.kobold
    ensures var s1 := NativeRelease(Remember(s, e, native), e, env);
            var t := if env.release(e) then Clear(s1, e) else s1;
            && Inv(t) && t.fleet == s.fleet && Quietly(s.world.log, t.world.log)
            && s.world.busy - {e} <= t.world.busy <= s.world.busy
            && (env.release(e) ==> Released(s, e, t))
            && (!env.release(e) ==> t.active == s.active && t.pending == s.pending)
  {
    var s0 := Remember(s, e, native);
    RememberInv(s, e, native);
    NativeReleaseInv(s0, e, env);
    var s1 := NativeRelease(s0, e, env);
    if env.release(e) {
      ClearInv(s1, e);
      QuietlyTransitive(s.world.log, s1.world.log, Clear(s1, e).world.log);
    }
  }

  lemma QuietlyTransitive(a: seq<Event>, b: seq<Event>, c: seq<Event>)
    requires Quietly(a, b) && Quietly(b, c)
    ensures Quietly(a, c)
  {
  }

  lemma RememberInv(s: State, e: nat, native: Native)
    requires Inv(s)
    ensures var t := Remember(s, e, native);
            && Inv(t) && t.fleet == s.fleet && Quietly(s.world.log, t.world.log)
            && t.world.busy == s.world.busy && t.active == s.active && t.pending == s.pending
  {
    RememberKeeps(s, e, native);
  }

  lemma NativeReleaseInv(s: State, e: nat, env: Env)
    requires Inv(s)
    ensures var t := NativeRelease(s, e, env);
            && Inv(t) && t.fleet == s.fleet && t.world.log == s.world.log
            && s.world.busy - {e} <= t.world.busy <= s.world.busy
            && t.active == s.active && t.pending == s.pending
            && (env.release(e) ==> t.world.busy == s.world.busy - {e})
  {
  }

  lemma ClearInv(s: State, e: nat)
    requires Inv(s) && e !in s.world.busy
    ensures Inv(Clear(s, e)) && Released(s, e, Clear(s, e)) && Quietly(s.world.log, Clear(s, e).world.log)
  {
    ClearKeeps(s, e);
    assert s.world.busy - {e} == s.world.busy;
  }

  /** What a sequence of releases leaves behind, complete or not. */
  predicate Shrunk(s: State, t: State) {
    && t.fleet == s.fleet && Quietly(s.world.log, t.world.log)
    && t.world.busy <= s.world.busy
    && t.active in {None, s.active} && t.pending in {None, s.pending}
  }

  lemma ShrunkTransitive(a: State, b: State, c: State)
    requires Shrunk(a, b) && Shrunk(b, c)
    ensures Shrunk(a, c)
  {
  }

  /** Nothing of the engine is left. */
  predicate Gone(s: State, e: nat) {
    e !in s.world.busy && !On(s.pending, e) && !On(s.active, e)
  }

  /** Everything released in order: none of the listed engines holds memory afterwards. */
  lemma {:induction false} ReleaseEachKeeps(s: State, engines: seq<nat>, except: Option<nat>, env: Env)
    requires Inv(s) && Honest(env, s)
    requires forall e :: e in engines ==> e in s.fleet.engines
    ensures var r := ReleaseEach(s, engines, except, env);
            && Inv(r.state) && Shrunk(s, r.state)
            && (r.ok ==> forall e :: e in engines && except != Some(e) ==> Gone(r.state, e))
            && (forall e :: Gone(s, e) ==> Gone(r.state, e))
    decreases |engines|
  {
    if engines != [] {
      if except == Some(engines[0]) {
        ReleaseEachKeeps(s, engines[1..], except, env);
      } else {
        ReleaseEngineKeeps(s, engines[0], env);
        var r := ReleaseEngine(s, engines[0], env);
        if r.ok {
          ReleaseEachKeeps(r.state, engines[1..], except, env);
          assert Gone(r.state, engines[0]);
          ShrunkTransitive(s, r.state, ReleaseEach(s, engines, except, env).state);
        }
      }
    }
  }

  /** A release that returns leaves the whole group without GPU memory: the backend contract of the
      group follows from the contracts of its engines. */
  lemma ReleaseGpuConfirms(s: State, env: Env)
    requires Inv(s) && Honest(env, s)
    ensures var r := ReleaseGpu(s, env);
            && Inv(r.state) && Shrunk(s, r.state)
            && ReleaseConfirms(r.ok, r.state.world.busy != {})
            && (r.ok ==> r.state.active.None? && r.state.pending.None?)
  {
    ReleaseEachKeeps(s, s.fleet.engines, None, env);
    var r := ReleaseGpu(s, env);
    assert r.ok ==> forall e :: e in s.fleet.engines ==> Gone(r.state, e);
  }

  lemma SaveReplacedKeeps(s: State, target: Point, env: Env)
    requires Inv(s)
    ensures var r := SaveReplaced(s, target, env);
            && Inv(r.state) && Shrunk(s, r.state)
            && forall e :: Gone(s, e) ==> Gone(r.state, e)
  {
    if env.again.Saw? {
      RememberInv(s, target.engine, env.again.native);
    }
  }

  /** Before any native load every other engine is clear, and no load is started yet. */
  lemma PrepareKeeps(s: State, target: Point, env: Env)
    requires Inv(s) && Honest(env, s) && target.engine in s.fleet.engines
    ensures var r := Prepare(s, target, env);
            && Inv(r.state) && Shrunk(s, r.state)
            && (r.ok ==> forall e :: e in s.fleet.engines && e != target.engine ==> Gone(r.state, e))
  {
    var e := target.engine;
    ReleaseEachKeeps(s, s.fleet.engines, Some(e), env);
    var r1 := ReleaseEach(s, s.fleet.engines, Some(e), env);
    if r1.ok {
      var s1 := r1.state;
      if e == s1.fleet.kobold && (s1.routerFailed || s1.active == Some(target)) {
        ReleaseEngineKeeps(s1, e, env);
        var r2 := ReleaseKobold(s1, env);
        ShrunkTransitive(s, s1, r2.state);
        if r2.ok {
          SaveReplacedKeeps(r2.state, target, env);
          ShrunkTransitive(s, r2.state, SaveReplaced(r2.state, target, env).state);
        }
      } else {
        SaveReplacedKeeps(s1, target, env);
        ShrunkTransitive(s, s1, SaveReplaced(s1, target, env).state);
      }
    }
  }

  lemma StartLogs(s: State, target: Point, native: Native)
    requires Inv(s) && forall e :: e in s.fleet.engines && e != target.engine ==> Gone(s, e)
    requires if target in s.saved then native == s.saved[target]
             else FirstLoad(s.world.log, target, native, s.fleet.strata)
    ensures var log := s.world.log + [Started(target, native, {})];
            && LogOk(log, s.fleet.strata) && (forall e :: Running(log, e) ==> e == target.engine)
            && forall p :: Latest(log, p) == Latest(s.world.log, p)
  {
    Appended(s.world.log, Started(target, native, {}), s.fleet.strata);
    forall e | Running(s.world.log, e)
      ensures e == target.engine
    {
      assert On(s.pending, e);
    }
  }

  lemma RestoreLogs(log: seq<Event>, target: Point, native: Native, strata: set<nat>)
    requires LogOk(log, strata)
    ensures var longer := log + [Restored(target, native)];
            && LogOk(longer, strata) && (forall e :: Running(longer, e) <==> Running(log, e))
            && forall p :: Latest(longer, p) == if p == target then Some(native) else Latest(log, p)
  {
    Appended(log, Restored(target, native), strata);
  }

  /** From the moment a load is attempted it is the pending one, whether it succeeds or fails. */
  lemma AttemptKeeps(s: State, target: Point, native: Native, env: Env)
    requires Inv(s) && target.engine in s.fleet.engines
    requires forall e :: e in s.fleet.engines && e != target.engine ==> Gone(s, e)
    requires if target in s.saved then native == s.saved[target]
             else FirstLoad(s.world.log, target, native, s.fleet.strata)
    ensures Attempted(s, target, native, Attempt(s, target, native, env), env)
  {
    assert s.world.busy - {target.engine} == {};
    StartLogs(s, target, native);
    if env.acquire.Some? {
      AttemptWorks(s, target, native, env);
    }
  }

  ghost predicate Attempted(s: State, target: Point, native: Native, r: Result, env: Env) {
    && Inv(r.state) && r.state.fleet == s.fleet
    && r.state.pending == Some(target) && (r.ok <==> env.acquire.Some?)
    && (r.ok ==> r.state.active == Some(target))
    && r.state.world.busy <= {target.engine}
    && r.state.world.log == s.world.log + [Started(target, native, {})]
                            + (if r.ok then [Restored(target, env.acquire.value)] else [])
  }

  lemma AttemptWorks(s: State, target: Point, native: Native, env: Env)
    requires Inv(s) && target.engine in s.fleet.engines && s.world.busy <= {target.engine}
    requires var log := s.world.log + [Started(target, native, {})];
             && LogOk(log, s.fleet.strata) && (forall e :: Running(log, e) ==> e == target.engine)
             && forall p :: Latest(log, p) == Latest(s.world.log, p)
    requires s.world.busy - {target.engine} == {} && env.acquire.Some?
    ensures Attempted(s, target, native, Attempt(s, target, native, env), env)
  {
    RestoreLogs(s.world.log + [Started(target, native, {})], target, env.acquire.value, s.fleet.strata);
  }

  /** Asking a Strata engine which point a name stands for changes nothing but what is known. */
  lemma AskingKeeps(s: State, target: Point, env: Env)
    requires Inv(s) && Restore(s, target, env).Some?
    ensures var t := Asking(s, target, env);
            && Inv(t) && t == s.(world := t.world) && t.world.busy == s.world.busy
            && Quietly(s.world.log, t.world.log)
            && (if target in t.saved then Restore(s, target, env).value == t.saved[target]
                else FirstLoad(t.world.log, target, Restore(s, target, env).value, t.fleet.strata))
  {
    var t := Asking(s, target, env);
    if t != s {
      Appended(s.world.log, Asked(target.engine, env.request.value), s.fleet.strata);
    }
  }

  /** Cross-engine exclusion: at every native load the target is the only engine that may hold
      memory. A successful acquisition makes exactly the target the active model; one that started its
      load leaves the target pending, whatever came of it. */
  lemma AcquireGpuKeeps(s: State, target: Option<Point>, env: Env)
    requires Inv(s) && Honest(env, s)
    ensures var r := AcquireGpu(s, target, env);
            && Inv(r.state)
            && r.state.fleet == s.fleet
            && s.world.log <= r.state.world.log
            && (r.ok ==> && target.Some? && r.state.active == target && r.state.pending == target
                         && r.state.world.busy <= {target.value.engine}
                         && LoadedLast(r.state.world.log, target.value, env))
            && (Quietly(s.world.log, r.state.world.log)
                || (target.Some? && r.state.pending == target
                    && r.state.world.busy <= {target.value.engine}))
  {
    if target.Some? && target.value.engine in s.fleet.engines {
      PrepareKeeps(s, target.value, env);
      var r := Prepare(s, target.value, env);
      if r.ok {
        var native := Restore(r.state, target.value, env);
        if native.Some? {
          AskingKeeps(r.state, target.value, env);
          var asked := Asking(r.state, target.value, env);
          AttemptKeeps(asked, target.value, native.value, env);
        }
      }
    }
  }

  /** The last thing that happened: a load of the target was started, and gave what the engine said. */
  predicate LoadedLast(log: seq<Event>, target: Point, env: Env) {
    && |log| >= 2 && env.acquire.Some? && log[|log| - 1] == Restored(target, env.acquire.value)
    && log[|log| - 2].Started? && log[|log| - 2].target == target
  }

  /** From the attempt of a load until its engine is released, the group never reports that nothing
      is loaded; and when it does report that, no engine holds memory. */
  lemma ObserveReadyConfirms(s: State, env: Env)
    requires Inv(s) && Honest(env, s)
    ensures ObserveReady(s, env) == Sight(None) ==> s.pending.None? && s.world.busy == {}
    ensures s.pending.Some? ==> ObserveReady(s, env) != Sight(None)
  {
    if ObserveReady(s, env) == Sight(None) {
      forall e | e in s.fleet.engines
        ensures e !in s.world.busy
      {
        NobodySeen(s.fleet.engines, env, e);
      }
    }
  }

  lemma {:induction false} NobodySeen(engines: seq<nat>, env: Env, e: nat)
    requires e in engines && !AnyFails(engines, env) && !AnySees(engines, env)
    ensures env.observe(e).Nothing?
  {
    if e != engines[0] {
      NobodySeen(engines[1..], env, e);
    }
  }

  lemma RequestFailedKeeps(s: State, target: Point)
    requires Inv(s)
    ensures Inv(RequestFailed(s, target))
  {
  }

  lemma ServeKeeps(s: State, e: nat)
    requires Inv(s) && On(s.active, e)
    ensures Inv(Serve(s, e))
  {
  }

  // ---------------------------------------------------------------- when a call succeeds

  /** The engine can be emptied: Kobold by a release unless it was released already, any other engine by
      reporting nothing or by a release. */
  predicate Clears(s: State, e: nat, env: Env) {
    if e == s.fleet.kobold then s.koboldReleased || env.release(e)
    else env.observe(e).Nothing? || (env.observe(e).Saw? && env.release(e))
  }

  lemma {:induction false} ReleasesExactly(s: State, engines: seq<nat>, except: Option<nat>, env: Env)
    ensures ReleaseEach(s, engines, except, env).ok <==>
              forall e :: e in engines && except != Some(e) ==> Clears(s, e, env)
    decreases |engines|
  {
    if engines != [] {
      if except == Some(engines[0]) {
        ReleasesExactly(s, engines[1..], except, env);
      } else {
        var r := ReleaseEngine(s, engines[0], env);
        if r.ok {
          ReleasesExactly(r.state, engines[1..], except, env);
          forall e | e in engines[1..]
            ensures Clears(r.state, e, env) == Clears(s, e, env)
          {
          }
        }
      }
    }
  }

  /** A release of the whole group returns exactly if every engine can be emptied. */
  lemma GroupReleasesExactly(s: State, env: Env)
    ensures ReleaseGpu(s, env).ok <==> forall e :: e in s.fleet.engines ==> Clears(s, e, env)
  {
    ReleasesExactly(s, s.fleet.engines, None, env);
  }

  /** Kobold is unloaded again before it is reserved for the model it has, or after a failed request. */
  predicate Repeats(s: State, target: Point) {
    target.engine == s.fleet.kobold && (s.routerFailed || s.active == Some(target))
  }

  /** Another model of the target's own engine is left. */
  predicate Replaces(s: State, target: Point) {
    On(s.active, target.engine) && s.active != Some(target) && !Repeats(s, target)
  }

  /** An acquisition succeeds exactly if it names an engine of the group, every other engine can be
      emptied, so can Kobold where it must be unloaded again, the engine that is left tells its settings
      or that it has none, a point to load is known, and the load succeeds. */
  lemma AcquiresExactly(s: State, target: Option<Point>, env: Env)
    ensures AcquireGpu(s, target, env).ok <==>
              && target.Some? && target.value.engine in s.fleet.engines
              && (forall e :: e in s.fleet.engines && e != target.value.engine ==> Clears(s, e, env))
              && (Repeats(s, target.value) ==> Clears(s, target.value.engine, env))
              && (Replaces(s, target.value) ==> !env.again.Failed?)
              && (target.value in s.saved || target.value.engine !in s.fleet.strata || env.request.Some?)
              && env.acquire.Some?
  {
    if target.Some? && target.value.engine in s.fleet.engines {
      var except := Some(target.value.engine);
      ReleasesExactly(s, s.fleet.engines, except, env);
      assert (forall e :: e in s.fleet.engines && e != target.value.engine ==> Clears(s, e, env)) <==>
             (forall e :: e in s.fleet.engines && except != Some(e) ==> Clears(s, e, env));
      if ReleaseEach(s, s.fleet.engines, except, env).ok {
        OwnEngineStays(s, s.fleet.engines, target.value, env);
      }
    }
  }

  /** Emptying the other engines tells nothing new of the target's own. */
  lemma {:induction false} OwnEngineStays(s: State, engines: seq<nat>, target: Point, env: Env)
    requires ReleaseEach(s, engines, Some(target.engine), env).ok
    ensures var t := ReleaseEach(s, engines, Some(target.engine), env).state;
            && t.fleet == s.fleet && On(t.active, target.engine) == On(s.active, target.engine)
            && (On(s.active, target.engine) ==> t.active == s.active)
            && (target in t.saved <==> target in s.saved)
            && (target.engine == s.fleet.kobold ==>
                  t.routerFailed == s.routerFailed && t.koboldReleased == s.koboldReleased)
    decreases |engines|
  {
    if engines != [] {
      if engines[0] == target.engine {
        OwnEngineStays(s, engines[1..], target, env);
      } else {
        OwnEngineStays(ReleaseEngine(s, engines[0], env).state, engines[1..], target, env);
      }
    }
  }

  /** An observation raises exactly if some engine does not answer, and reports nothing exactly if no
      engine has anything loaded and no acquisition is pending; otherwise it names the active model. */
  lemma ObservesExactly(s: State, env: Env)
    ensures ObserveReady(s, env).Blind? <==> exists e :: e in s.fleet.engines && env.observe(e).Failed?
    ensures ObserveReady(s, env) == Sight(None) <==>
              s.pending.None? && forall e :: e in s.fleet.engines ==> env.observe(e).Nothing?
    ensures ObserveReady(s, env).Sight? && ObserveReady(s, env).point.Some? ==>
              ObserveReady(s, env).point == if s.active.Some? then s.active else Some(Point(0, 0))
  {
    AnyFailsExactly(s.fleet.engines, env);
    AnySeesExactly(s.fleet.engines, env);
  }

  lemma {:induction false} AnyFailsExactly(engines: seq<nat>, env: Env)
    ensures AnyFails(engines, env) <==> exists e :: e in engines && env.observe(e).Failed?
  {
    if engines != [] {
      AnyFailsExactly(engines[1..], env);
    }
  }

  lemma {:induction false} AnySeesExactly(engines: seq<nat>, env: Env)
    ensures AnySees(engines, env) <==> exists e :: e in engines && env.observe(e).Saw?
  {
    if engines != [] {
      AnySeesExactly(engines[1..], env);
    }
  }

  // ---------------------------------------------------------------- the log is true

  /** What the log may say of one call: what the engines answered to it, about its own target. */
  predicate ToldBy(event: Event, target: Option<Point>, env: Env) {
    match event
    case Looked(e, _, native) => env.observe(e) == Saw(native) || (On(target, e) && env.again == Saw(native))
    case Cleared(e, _) => env.observe(e).Nothing? || env.release(e)
    case Asked(e, native) => On(target, e) && env.request == Some(native)
    case Started(p, _, _) => target == Some(p)
    case Restored(p, native) => target == Some(p) && env.acquire == Some(native)
  }

  predicate LogsTruly(s: State, t: State, target: Option<Point>, env: Env) {
    s.world.log <= t.world.log
    && forall i :: |s.world.log| <= i < |t.world.log| ==> ToldBy(t.world.log[i], target, env)
  }

  lemma {:induction false} ReleasesLogTruly(s: State, engines: seq<nat>, except: Option<nat>,
                                            target: Option<Point>, env: Env)
    ensures LogsTruly(s, ReleaseEach(s, engines, except, env).state, target, env)
    decreases |engines|
  {
    if engines != [] {
      if except == Some(engines[0]) {
        ReleasesLogTruly(s, engines[1..], except, target, env);
      } else {
        ReleaseLogsTruly(s, engines[0], target, env);
        var r := ReleaseEngine(s, engines[0], env);
        if r.ok {
          ReleasesLogTruly(r.state, engines[1..], except, target, env);
        }
      }
    }
  }

  lemma ReleaseLogsTruly(s: State, e: nat, target: Option<Point>, env: Env)
    ensures LogsTruly(s, ReleaseEngine(s, e, env).state, target, env)
  {
  }

  /** Nothing in the log is made up. */
  lemma AcquireLogsTruly(s: State, target: Option<Point>, env: Env)
    ensures LogsTruly(s, AcquireGpu(s, target, env).state, target, env)
    ensures LogsTruly(s, ReleaseGpu(s, env).state, None, env)
  {
    ReleasesLogTruly(s, s.fleet.engines, None, None, env);
    if target.Some? && target.value.engine in s.fleet.engines {
      PrepareLogsTruly(s, target.value, env);
    }
  }

  lemma PrepareLogsTruly(s: State, target: Point, env: Env)
    ensures LogsTruly(s, Prepare(s, target, env).state, Some(target), env)
  {
    ReleasesLogTruly(s, s.fleet.engines, Some(target.engine), Some(target), env);
    var r := ReleaseEach(s, s.fleet.engines, Some(target.engine), env);
    if r.ok {
      ReleaseLogsTruly(r.state, target.engine, Some(target), env);
    }
  }

  // ---------------------------------------------------------------- the cached bit

  /** The release that repeats the native unload every time. */
  function AlwaysRelease(s: State, env: Env): Result {
    ReleaseKobold(s.(koboldReleased := false), env)
  }

  /** Everything but the log of what was done. */
  function Unlogged(s: State): State {
    s.(world := s.world.(log := []))
  }

  /** Skipping a confirmed unload changes nothing: whenever repeating it would succeed, both forms
      end in the same state. */
  lemma CachedReleaseIsExact(s: State, env: Env)
    requires Inv(s) && env.release(s.fleet.kobold)
    ensures ReleaseKobold(s, env).ok && AlwaysRelease(s, env).ok
    ensures Unlogged(ReleaseKobold(s, env).state) == Unlogged(AlwaysRelease(s, env).state)
  {
    if s.koboldReleased {
      assert s.world.busy - {s.fleet.kobold} == s.world.busy;
    }
  }

  // ---------------------------------------------------------------- settings across switches

  /** Leaving a model for another engine and coming back loads it with the settings observed when it
      was left. */
  lemma SettingsSurviveSwitch(s: State, away: Point, env1: Env, env2: Env)
    requires Inv(s) && s.active.Some?
    requires var home := s.active.value;
             && home.engine != s.fleet.kobold && home.engine != away.engine
             && home.engine in s.fleet.engines && env1.observe(home.engine).Saw?
    requires AcquireGpu(s, Some(away), env1).ok
    requires AcquireGpu(AcquireGpu(s, Some(away), env1).state, s.active, env2).ok
    ensures var log := AcquireGpu(AcquireGpu(s, Some(away), env1).state, s.active, env2).state.world.log;
            && |log| > 1 && log[|log| - 2].Started? && log[|log| - 2].target == s.active.value
            && log[|log| - 2].native == env1.observe(s.active.value.engine).native
  {
    var home := s.active.value;
    SwitchSaves(s, away, env1);
    ReturnLoadsSaved(AcquireGpu(s, Some(away), env1).state, home, env2);
  }

  lemma SwitchSaves(s: State, away: Point, env: Env)
    requires Inv(s) && s.active.Some?
    requires var home := s.active.value;
             && home.engine != s.fleet.kobold && home.engine != away.engine
             && home.engine in s.fleet.engines && env.observe(home.engine).Saw?
    requires AcquireGpu(s, Some(away), env).ok
    ensures var home, t := s.active.value, AcquireGpu(s, Some(away), env).state;
            && home in t.saved && t.saved[home] == env.observe(home.engine).native
            && t.active == Some(away) && t.fleet == s.fleet
  {
    LeavingSaves(s, s.fleet.engines, away, env);
    var home := s.active.value;
    var r := ReleaseEach(s, s.fleet.engines, Some(away.engine), env);
    SavedStays(r.state, [], None, home, env);
    FleetStays(s, s.fleet.engines, Some(away.engine), env);
  }

  lemma {:induction false} FleetStays(s: State, engines: seq<nat>, except: Option<nat>, env: Env)
    ensures ReleaseEach(s, engines, except, env).state.fleet == s.fleet
    decreases |engines|
  {
    if engines != [] {
      if except == Some(engines[0]) {
        FleetStays(s, engines[1..], except, env);
      } else {
        var r := ReleaseEngine(s, engines[0], env);
        if r.ok {
          FleetStays(r.state, engines[1..], except, env);
        }
      }
    }
  }

  lemma ReturnLoadsSaved(t: State, home: Point, env: Env)
    requires home in t.saved && home.engine != t.fleet.kobold
    requires t.active.Some? && t.active.value.engine != home.engine
    requires AcquireGpu(t, Some(home), env).ok
    ensures var log := AcquireGpu(t, Some(home), env).state.world.log;
            && |log| > 1 && log[|log| - 2].Started? && log[|log| - 2].target == home
            && log[|log| - 2].native == t.saved[home]
  {
    SavedStays(t, t.fleet.engines, Some(home.engine), home, env);
  }

  lemma {:induction false} LeavingSaves(s: State, engines: seq<nat>, away: Point, env: Env)
    requires s.active.Some? && s.active.value.engine in engines
    requires s.active.value.engine != s.fleet.kobold && s.active.value.engine != away.engine
    requires env.observe(s.active.value.engine).Saw?
    requires ReleaseEach(s, engines, Some(away.engine), env).ok
    ensures var t := ReleaseEach(s, engines, Some(away.engine), env).state;
            && s.active.value in t.saved
            && t.saved[s.active.value] == env.observe(s.active.value.engine).native
            && t.active.None?
    decreases |engines|
  {
    var home := s.active.value;
    if engines[0] == away.engine {
      LeavingSaves(s, engines[1..], away, env);
    } else {
      var t := ReleaseEngine(s, engines[0], env).state;
      if engines[0] == home.engine {
        SavedStays(t, engines[1..], Some(away.engine), home, env);
      } else {
        LeavingSaves(t, engines[1..], away, env);
      }
    }
  }

  /** Releases only ever save under the active model. */
  lemma {:induction false} SavedStays(s: State, engines: seq<nat>, except: Option<nat>, p: Point,
                                      env: Env)
    requires p in s.saved && (s.active.Some? ==> s.active.value.engine != p.engine)
    ensures var t := ReleaseEach(s, engines, except, env).state;
            p in t.saved && t.saved[p] == s.saved[p]
            && t.active in {None, s.active} && t.fleet == s.fleet
    decreases |engines|
  {
    if engines != [] {
      if except == Some(engines[0]) {
        SavedStays(s, engines[1..], except, p, env);
      } else {
        var r := ReleaseEngine(s, engines[0], env);
        if r.ok {
          SavedStays(r.state, engines[1..], except, p, env);
        }
      }
    }
  }

  // ---------------------------------------------------------------- the adapter object

  /** The adapter as an object: the source's fields, updated while it loops over its engines. */
  class MultiBackend {
    const fleet: Fleet
    var active: Option<Point>
    var saved: map<Point, Native>
    var pending: Option<Point>
    var routerFailed: bool
    var koboldReleased: bool
    ghost var world: World

    ghost function Now(): State
      reads this
    {
      State(fleet, active, pending, saved, routerFailed, koboldReleased, world)
    }

    constructor (fleet: Fleet, ghost busy: set<nat>)
      requires forall e :: e in busy ==> e in fleet.engines
      ensures this.fleet == fleet && Inv(Now()) && world == World(busy, [])
      ensures active.None? && pending.None? && saved == map[] && !routerFailed && !koboldReleased
    {
      this.fleet := fleet;
      active, pending, saved := None, None, map[];
      routerFailed, koboldReleased := false, false;
      world := World(busy, []);
    }

    method RequestFailure(target: Point)
      requires Inv(Now())
      modifies this
      ensures Inv(Now()) && Now() == RequestFailed(old(Now()), target)
    {
      if target.engine == fleet.kobold {
        routerFailed := true;
        koboldReleased := false;
      }
    }

    method CallRelease(e: nat, env: Env) returns (ok: bool)
      modifies this`world
      ensures ok == env.release(e) && Now() == NativeRelease(old(Now()), e, env)
    {
      ok := env.release(e);
      if ok || !env.lingers(e) {
        world := world.(busy := world.busy - {e});
      }
    }

    method ReleaseOne(e: nat, env: Env) returns (ok: bool)
      modifies this
      ensures Result(Now(), ok) == ReleaseEngine(old(Now()), e, env)
    {
      if e == fleet.kobold {
        if !koboldReleased {
          ok := CallRelease(e, env);
          if !ok {
            return;
          }
          koboldReleased := true;
          world := world.(log := world.log + [Cleared(e, e in world.busy)]);
        }
        routerFailed := false;
      } else {
        var observed := env.observe(e);
        if observed.Failed? {
          return false;
        }
        if observed.Saw? {
          world := world.(log := world.log + [Looked(e, active, observed.native)]);
          if active.Some? && active.value.engine == e {
            saved := saved[active.value := observed.native];
          }
          ok := CallRelease(e, env);
          if !ok {
            return;
          }
        }
        world := world.(log := world.log + [Cleared(e, e in world.busy)]);
      }
      if active.Some? && active.value.engine == e {
        active := None;
      }
      if pending.Some? && pending.value.engine == e {
        pending := None;
      }
      ok := true;
    }

    method ReleaseLoop(except: Option<nat>, env: Env) returns (ok: bool)
      modifies this
      ensures Result(Now(), ok) == ReleaseEach(old(Now()), fleet.engines, except, env)
    {
      var i := 0;
      while i < |fleet.engines|
        invariant 0 <= i <= |fleet.engines|
        invariant ReleaseEach(Now(), fleet.engines[i..], except, env)
               == ReleaseEach(old(Now()), fleet.engines, except, env)
      {
        var e := fleet.engines[i];
        assert fleet.engines[i..][1..] == fleet.engines[i + 1..];
        if except != Some(e) {
          ok := ReleaseOne(e, env);
          if !ok {
            return;
          }
        }
        i := i + 1;
      }
      ok := true;
    }

    /** Returns only when no engine of the group holds GPU memory. */
    method ReleaseAll(env: Env) returns (ok: bool)
      requires Inv(Now()) && Honest(env, Now())
      modifies this
      ensures Inv(Now()) && Result(Now(), ok) == ReleaseGpu(old(Now()), env)
      ensures ReleaseConfirms(ok, world.busy != {})
    {
      ReleaseGpuConfirms(Now(), env);
      ok := ReleaseLoop(None, env);
    }

    /** Everything before the native load: other engines released, a failed or repeated router
        reservation unloaded, the replaced model's settings saved. */
    method PrepareLoad(target: Point, env: Env) returns (ok: bool)
      modifies this
      ensures Result(Now(), ok) == Prepare(old(Now()), target, env)
    {
      ok := ReleaseLoop(Some(target.engine), env);
      if !ok {
        return;
      }
      if target.engine == fleet.kobold && (routerFailed || active == Some(target)) {
        ok := ReleaseOne(target.engine, env);
        if !ok {
          return;
        }
      }
      if active.Some? && active.value.engine == target.engine && active != Some(target) {
        var observed := env.again;
        if observed.Failed? {
          return false;
        }
        if observed.Saw? {
          world := world.(log := world.log + [Looked(target.engine, active, observed.native)]);
          saved := saved[active.value := observed.native];
        }
      }
      ok := true;
    }

    method TryLoad(target: Point, native: Native, env: Env) returns (ok: bool)
      modifies this
      ensures Result(Now(), ok) == Attempt(old(Now()), target, native, env)
    {
      pending := Some(target);
      active := None;
      if target.engine == fleet.kobold {
        koboldReleased := false;
      }
      ghost var e := target.engine;
      world := World(
        if env.acquire.Some? || env.lingers(e) then world.busy + {e} else world.busy,
        world.log + [Started(target, native, world.busy - {e})]);
      if env.acquire.None? {
        return false;
      }
      world := world.(log := world.log + [Restored(target, env.acquire.value)]);
      saved := saved[target := env.acquire.value];
      active := Some(target);
      return true;
    }

    /** Every native load starts with all other engines clear. */
    method Acquire(target: Option<Point>, env: Env) returns (ok: bool)
      requires Inv(Now()) && Honest(env, Now())
      modifies this
      ensures Inv(Now()) && Result(Now(), ok) == AcquireGpu(old(Now()), target, env)
      ensures ok ==> active == target && world.busy <= {target.value.engine}
    {
      AcquireGpuKeeps(Now(), target, env);
      if target.None? || target.value.engine !in fleet.engines {
        return false;
      }
      ok := PrepareLoad(target.value, env);
      if !ok {
        return;
      }
      var native := if target.value in saved then Some(saved[target.value]) else None;
      if native.None? {
        if target.value.engine in fleet.strata {
          native := env.request;
          if native.None? {
            return false;
          }
          world := world.(log := world.log + [Asked(target.value.engine, native.value)]);
        } else {
          native := Some(Named(target.value.model));
        }
      }
      ok := TryLoad(target.value, native.value, env);
    }

    method Observe(env: Env) returns (sight: Sight)
      ensures sight == ObserveReady(Now(), env)
    {
      var occupied := pending.Some?;
      var i := 0;
      while i < |fleet.engines|
        invariant 0 <= i <= |fleet.engines|
        invariant AnyFails(fleet.engines, env) == AnyFails(fleet.engines[i..], env)
        invariant (pending.Some? || AnySees(fleet.engines, env))
               == (occupied || AnySees(fleet.engines[i..], env))
      {
        assert fleet.engines[i..][1..] == fleet.engines[i + 1..];
        var observed := env.observe(fleet.engines[i]);
        if observed.Failed? {
          return Blind;
        }
        if observed.Saw? {
          occupied := true;
        }
        i := i + 1;
      }
      sight := Sight(if occupied
                     then Some(if active.Some? then active.value else Point(0, 0))
                     else None);
    }
  }
}
