/** The Strata adapter: one installation with one model, moved by synchronous load and unload
    requests, and a latch that closes the adapter once one of them was not confirmed. */
module Strata {
  import opened Basics

  datatype Health = Health(loaded: bool, model: string)

  /** The status field of a lifecycle answer. */
  datatype Status = IsLoaded | IsUnloaded | NotLoaded | Unexpected

  datatype Request = Request(model: string, load: bool)

  /** A target carries the engine it was taken from. */
  datatype Target = Target(model: string, kind: string)

  datatype Observed = Raised | Nothing | Ready(target: Target)

  datatype Call = Observe | Snapshot | Release(target: Target) | Acquire(wanted: Option<Target>)

  /** What was asked of an installation and what it answered: its health, whether it accepts a name, and a
      lifecycle request. */
  datatype Event =
    | Told(health: Option<Health>)
    | Listed(name: string, known: Option<bool>)
    | Posted(request: Request, answer: Option<Status>)

  /** An installation. doing is a request that may still take effect. */
  class Installation {
    var loaded: bool
    var model: string
    var doing: Option<bool>
    ghost var log: seq<Event>

    predicate MayHold()
      reads this
    {
      loaded || doing == Some(true)
    }

    constructor (loaded: bool, model: string)
      ensures this.loaded == loaded && this.model == model && doing.None? && log == []
    {
      this.loaded, this.model, doing, log := loaded, model, None, [];
    }

    /** Time passes: only a request under way changes what is loaded. */
    method Drift()
      modifies this`loaded, this`doing
      ensures old(doing).None? ==> loaded == old(loaded) && doing.None?
      ensures doing.Some? ==> doing == old(doing)
    {
      var ends: bool := *;
      if doing.Some? && ends {
        loaded, doing := doing.value, None;
      }
    }

    /** GET /health tells the truth or fails. */
    method GetHealth() returns (health: Option<Health>)
      modifies this`loaded, this`doing, this`log
      ensures old(doing).None? ==> loaded == old(loaded) && doing.None?
      ensures doing.Some? ==> doing == old(doing)
      ensures health.Some? ==> health.value == Health(loaded, model)
      ensures log == old(log) + [Told(health)]
    {
      Drift();
      var fails: bool := *;
      health := if fails then None else Some(Health(loaded, model));
      log := log + [Told(health)];
    }

    /** GET /v1/models: which names the installation accepts. */
    method Names(name: string) returns (known: Option<bool>)
      modifies this`loaded, this`doing, this`log
      ensures old(doing).None? ==> loaded == old(loaded) && doing.None?
      ensures doing.Some? ==> doing == old(doing)
      ensures log == old(log) + [Listed(name, known)]
    {
      Drift();
      known := *;
      log := log + [Listed(name, known)];
    }

    /** POST /v1/load or /v1/unload. The operation is synchronous: with an answer it is over. */
    method Post(request: Request) returns (answer: Option<Status>)
      requires doing.None?
      requires request.load ==> !loaded
      modifies this`loaded, this`doing, this`log
      ensures log == old(log) + [Posted(request, answer)]
      ensures answer.Some? ==> doing.None?
      ensures doing.Some? ==> doing == Some(request.load)
    {
      var effect: bool := *;
      answer := *;
      log := log + [Posted(request, answer)];
      if effect && answer.Some? {
        loaded := request.load;
      } else if effect {
        doing := Some(request.load);
        Drift();
      }
    }
  }

  /** The restore point that stands for wanted, from the answers at at up to upto. A target must come from
      this engine and be its own model; without one the engine's own model stands, if it lists it. */
  predicate Resolved(kind: string, log: seq<Event>, at: nat, upto: nat, wanted: Option<Target>, restore: Option<Target>) {
    if wanted.Some? && wanted.value.kind != kind then
      upto == at && restore.None?
    else if !(at < |log| && log[at].Told?) then
      false
    else if wanted.Some? then
      && upto == at + 1
      && restore == (if log[at].health.Some? && log[at].health.value.model == wanted.value.model then wanted else None)
    else
      Requested(kind, log, at, upto, None, restore)
  }

  /** The same for a model that a caller names, by any name that the engine lists. */
  predicate Requested(kind: string, log: seq<Event>, at: nat, upto: nat, name: Option<string>, restore: Option<Target>) {
    && at < |log| && log[at].Told?
    && if log[at].health.None? then upto == at + 1 && restore.None?
       else
         var model := log[at].health.value.model;
         && at + 1 < |log| && upto == at + 2
         && log[at + 1].Listed? && log[at + 1].name == (if name.Some? then name.value else model)
         && restore == (if log[at + 1].known == Some(true) then Some(Target(model, kind)) else None)
  }

  /** The request of a change and its answer, and after a fitting answer one more look. The change is
      confirmed exactly if that shows the model in the state that was asked for. */
  predicate Changed(log: seq<Event>, at: nat, upto: nat, model: string, load: bool, ok: bool) {
    && at < |log| && log[at].Posted? && log[at].request == Request(model, load)
    && if log[at].answer in (if load then {Some(IsLoaded)} else {Some(IsUnloaded), Some(NotLoaded)}) then
         && at + 1 < |log| && upto == at + 2 && log[at + 1].Told?
         && (ok <==> log[at + 1].health == Some(Health(load, model)))
       else upto == at + 1 && !ok
  }

  class StrataBackend {
    const kind: string
    const server: Installation
    var uncertain: bool

    constructor (kind: string, server: Installation)
      requires server.doing.None?
      ensures this.kind == kind && this.server == server && !uncertain && Sound()
    {
      this.kind, this.server, uncertain := kind, server, false;
    }

    ghost predicate Sound()
      reads this, server
    {
      !uncertain ==> server.doing.None?
    }

    /** One look decides: nothing if it shows nothing loaded, and otherwise the model. */
    method ObserveReady() returns (seen: Observed)
      requires Sound()
      modifies server`loaded, server`doing, server`log
      ensures Sound()
      ensures !uncertain ==> server.loaded == old(server.loaded)
      ensures AbsenceConfirms(seen.Nothing?, server.MayHold())
      ensures seen.Ready? ==> server.loaded && seen.target == Target(server.model, kind)
      ensures uncertain ==> seen == Raised && server.log == old(server.log)
      ensures !uncertain ==>
                && |server.log| == |old(server.log)| + 1 && old(server.log) <= server.log
                && var got := server.log[|old(server.log)|];
                   && got.Told?
                   && (seen.Raised? <==> got.health.None?)
                   && (seen.Nothing? <==> got.health.Some? && !got.health.value.loaded)
    {
      if uncertain {
        return Raised;
      }
      var health := server.GetHealth();
      if health.None? {
        return Raised;
      }
      return if health.value.loaded then Ready(Target(health.value.model, kind)) else Nothing;
    }

    method SnapshotReady() returns (seen: Observed)
      requires Sound()
      modifies server`loaded, server`doing, server`log
      ensures Sound()
      ensures seen != Nothing
      ensures seen.Ready? ==> server.loaded && seen.target == Target(server.model, kind)
      ensures uncertain ==> seen == Raised && server.log == old(server.log)
      ensures !uncertain ==>
                && |server.log| == |old(server.log)| + 1 && old(server.log) <= server.log
                && var got := server.log[|old(server.log)|];
                   got.Told? && (seen.Ready? <==> got.health.Some? && got.health.value.loaded)
    {
      seen := ObserveReady();
      if seen.Nothing? {
        return Raised;
      }
    }

    /** The canonical model, if name is one the installation accepts. */
    method RequestTarget(name: Option<string>) returns (target: Option<Target>)
      modifies server`loaded, server`doing, server`log
      ensures old(server.doing).None? ==>
                server.loaded == old(server.loaded) && server.doing.None?
      ensures server.doing.Some? ==> server.doing == old(server.doing)
      ensures target.Some? ==> target.value == Target(server.model, kind)
      ensures old(server.log) <= server.log
      ensures Requested(kind, server.log, |old(server.log)|, |server.log|, name, target)
    {
      var health := server.GetHealth();
      if health.None? {
        return None;
      }
      var known := server.Names(if name.Some? then name.value else health.value.model);
      if known != Some(true) {
        return None;
      }
      return Some(Target(health.value.model, kind));
    }

    /** A target must be this installation's own model. */
    method Resolve(target: Option<Target>) returns (restore: Option<Target>)
      modifies server`loaded, server`doing, server`log
      ensures old(server.doing).None? ==>
                server.loaded == old(server.loaded) && server.doing.None?
      ensures server.doing.Some? ==> server.doing == old(server.doing)
      ensures restore.Some? ==> restore.value == Target(server.model, kind)
      ensures old(server.log) <= server.log
      ensures Resolved(kind, server.log, |old(server.log)|, |server.log|, target, restore)
    {
      if target.None? {
        restore := RequestTarget(None);
        return;
      }
      if target.value.kind != kind {
        return None;
      }
      var health := server.GetHealth();
      if health.None? || target.value.model != health.value.model {
        return None;
      }
      return target;
    }

    /** A request counts only when the answer and a later health report confirm it; otherwise the
        latch stays set. */
    method Change(target: Target, load: bool) returns (ok: bool)
      requires Sound()
      requires load && !uncertain ==> !server.loaded
      modifies this`uncertain, server`loaded, server`doing, server`log
      ensures Sound()
      ensures ok <==> !uncertain
      ensures ok ==> server.loaded == load && target.model == server.model
      ensures old(uncertain) ==> uncertain && server.log == old(server.log)
      ensures old(server.log) <= server.log
      ensures !old(uncertain) ==>
                Changed(server.log, |old(server.log)|, |server.log|, target.model, load, ok)
    {
      if uncertain {
        return false;
      }
      uncertain := true;
      var answer := server.Post(Request(target.model, load));
      var accepted := if load then answer == Some(IsLoaded)
                      else answer == Some(IsUnloaded) || answer == Some(NotLoaded);
      if !accepted {
        return false;
      }
      var health := server.GetHealth();
      if health.None? || health.value.loaded != load || health.value.model != target.model {
        return false;
      }
      uncertain := false;
      return true;
    }

    /** Asks for the unload of this engine's own model whatever is loaded, and returns exactly if that is
        confirmed. For any other target it raises and asks for nothing. */
    method ReleaseGpu(target: Target) returns (ok: bool)
      requires Sound()
      modifies this`uncertain, server`loaded, server`doing, server`log
      ensures Sound()
      ensures ReleaseConfirms(ok, server.MayHold())
      ensures ok ==> !uncertain && target == Target(server.model, kind)
      ensures old(server.log) <= server.log
      ensures old(uncertain) ==> !ok && uncertain && server.log == old(server.log)
      ensures !old(uncertain) ==>
                var n, log := |old(server.log)|, server.log;
                if Resolved(kind, log, n, n + 1, Some(target), Some(target)) then
                  Changed(log, n + 1, |log|, target.model, false, ok) && (ok <==> !uncertain)
                else
                  Resolved(kind, log, n, |log|, Some(target), None) && !ok && !uncertain
    {
      if uncertain {
        return false;
      }
      var resolved := Resolve(Some(target));
      if resolved.None? {
        return false;
      }
      ok := Change(resolved.value, false);
    }

    /** Succeeds only with the installation's model loaded. Once the target is resolved one look decides:
        what is loaded is kept, and with nothing loaded the load is asked for and confirmed. */
    method AcquireGpu(wanted: Option<Target>) returns (result: Option<Target>)
      requires Sound()
      modifies this`uncertain, server`loaded, server`doing, server`log
      ensures Sound()
      ensures result.Some? ==>
                !uncertain && server.loaded && result.value == Target(server.model, kind)
                && (wanted.Some? ==> result == wanted)
      ensures old(server.log) <= server.log
      ensures old(uncertain) ==> result.None? && uncertain && server.log == old(server.log)
      ensures !old(uncertain) ==>
                var n, log := |old(server.log)|, server.log;
                exists at: nat, restore: Option<Target> :: at <= |log| && Resolved(kind, log, n, at, wanted, restore)
                  && if restore.None? then result.None? && !uncertain && |log| == at
                     else
                       && at < |log| && log[at].Told?
                       && if log[at].health.Some? && !log[at].health.value.loaded then
                            && Changed(log, at + 1, |log|, restore.value.model, true, result.Some?)
                            && (result.Some? <==> !uncertain)
                          else
                            && |log| == at + 1 && !uncertain
                            && result == (if log[at].health.Some? then restore else None)
    {
      if uncertain {
        return None;
      }
      var resolved := Resolve(wanted);
      ghost var at := |server.log|;
      if resolved.None? {
        return None;
      }
      ghost var log := server.log;
      var observed := ObserveReady();
      ResolvedLater(kind, log, server.log, |old(server.log)|, at, wanted, resolved);
      match observed {
        case Raised => return None;
        case Ready(_) => return resolved;
        case Nothing =>
          var ok := Change(resolved.value, true);
          ResolvedLater(kind, log, server.log, |old(server.log)|, at, wanted, resolved);
          return if ok then resolved else None;
      }
    }

    /** Any calls at all: once the latch is set every one of them raises, nothing is asked for
        again, and the latch stays set. */
    method Serve(calls: seq<Call>) returns (raised: seq<bool>)
      requires Sound()
      modifies this`uncertain, server`loaded, server`doing, server`log
      ensures Sound()
      ensures |raised| == |calls|
      ensures old(uncertain) ==> uncertain && server.log == old(server.log)
      ensures old(uncertain) ==> forall i :: 0 <= i < |raised| ==> raised[i]
    {
      raised := [];
      while |raised| < |calls|
        invariant Sound()
        invariant |raised| <= |calls|
        invariant old(uncertain) ==> uncertain && server.log == old(server.log)
        invariant old(uncertain) ==> forall i :: 0 <= i < |raised| ==> raised[i]
      {
        var failed: bool;
        match calls[|raised|] {
          case Observe =>
            var seen := ObserveReady();
            failed := seen.Raised?;
          case Snapshot =>
            var seen := SnapshotReady();
            failed := seen.Raised?;
          case Release(target) =>
            var ok := ReleaseGpu(target);
            failed := !ok;
          case Acquire(wanted) =>
            var result := AcquireGpu(wanted);
            failed := result.None?;
        }
        raised := raised + [failed];
      }
    }
  }

  lemma ResolvedLater(kind: string, log: seq<Event>, later: seq<Event>, at: nat, upto: nat,
                      wanted: Option<Target>, restore: Option<Target>)
    requires Resolved(kind, log, at, upto, wanted, restore) && log <= later
    ensures Resolved(kind, later, at, upto, wanted, restore)
  {
  }
}
