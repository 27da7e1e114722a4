/** The Prism adapter: one worker at a time behind a router, moved by explicit load and unload
    requests, and a latch that closes the adapter once one of them was not confirmed. */
module Prism {
  import opened Basics

  datatype Value = Unloaded | Loading | Loaded | Sleeping

  datatype Preset = Preset(value: Value, failed: bool)

  /** One entry of the router's model list, as it arrives. */
  datatype Card = Invalid | Entry(id: string, preset: Preset)

  type Presets = map<string, Preset>

  /** A lifecycle request: load, or unload, a model. */
  datatype Change = Change(model: string, load: bool)

  // ---------------------------------------------------------------- observations

  predicate Busy(states: Presets, model: string) {
    model in states && !states[model].value.Unloaded?
  }

  predicate Single(states: Presets) {
    forall a, b :: a in states && b in states && Busy(states, a) && Busy(states, b) ==> a == b
  }

  predicate Idle(states: Presets) {
    forall a :: a in states ==> !Busy(states, a)
  }

  /** The state that a lifecycle request asks for. */
  predicate Reached(states: Presets, change: Change) {
    && change.model in states
    && if change.load then states[change.model].value.Loaded?
       else states[change.model].value.Unloaded? && Idle(states)
  }

  predicate Distinct(cards: seq<Card>) {
    && (forall i :: 0 <= i < |cards| ==> cards[i].Entry? && cards[i].id != "")
    && (forall i, j :: 0 <= i < j < |cards| && cards[i].Entry? && cards[j].Entry? ==>
          cards[i].id != cards[j].id)
  }

  /** The list tells exactly what states says, preset by preset. */
  predicate Lists(cards: seq<Card>, states: Presets) {
    && (forall i :: 0 <= i < |cards| && cards[i].Entry? ==>
          cards[i].id in states && states[cards[i].id] == cards[i].preset)
    && (forall m :: m in states ==> exists i :: 0 <= i < |cards| && cards[i].Entry? && cards[i].id == m)
  }

  predicate TwoBusy(cards: seq<Card>) {
    exists i, j :: 0 <= i < j < |cards|
      && cards[i].Entry? && !cards[i].preset.value.Unloaded?
      && cards[j].Entry? && !cards[j].preset.value.Unloaded?
  }

  predicate Named(cards: seq<Card>, model: string) {
    exists i :: 0 <= i < |cards| && cards[i].Entry? && cards[i].id == model
  }

  /** Reads a model list. It is refused exactly when an entry is malformed or repeated, the default
      preset is missing or two workers are active. */
  method ReadList(cards: seq<Card>, standard: string) returns (states: Option<Presets>)
    ensures states.Some? <==> Distinct(cards) && Named(cards, standard) && !TwoBusy(cards)
    ensures states.Some? ==>
              Lists(cards, states.value) && standard in states.value && Single(states.value)
  {
    if cards == [] {
      return None;
    }
    var found: Presets := map[];
    var i := 0;
    while i < |cards|
      invariant 0 <= i <= |cards|
      invariant Distinct(cards[..i])
      invariant Lists(cards[..i], found)
    {
      var card := cards[i];
      if card.Invalid? {
        return None;
      }
      if card.id == "" || card.id in found {
        return None;
      }
      ListsOneMore(cards, i, found);
      found := found[card.id := card.preset];
      i := i + 1;
    }
    assert cards[..|cards|] == cards;
    SingleExactly(cards, found);
    if standard !in found || !Single(found) {
      return None;
    }
    return Some(found);
  }

  lemma SingleExactly(cards: seq<Card>, states: Presets)
    requires Distinct(cards) && Lists(cards, states)
    ensures Single(states) <==> !TwoBusy(cards)
  {
    if TwoBusy(cards) {
      var i, j :| 0 <= i < j < |cards|
                  && cards[i].Entry? && !cards[i].preset.value.Unloaded?
                  && cards[j].Entry? && !cards[j].preset.value.Unloaded?;
      assert Busy(states, cards[i].id) && Busy(states, cards[j].id) && cards[i].id != cards[j].id;
    } else if !Single(states) {
      var a, b :| a in states && b in states && Busy(states, a) && Busy(states, b) && a != b;
      BusyTwice(cards, states, a, b);
      assert false;
    }
  }

  lemma BusyTwice(cards: seq<Card>, states: Presets, a: string, b: string)
    requires Lists(cards, states) && Busy(states, a) && Busy(states, b) && a != b
    ensures TwoBusy(cards)
  {
    var i :| 0 <= i < |cards| && cards[i].Entry? && cards[i].id == a;
    var j :| 0 <= j < |cards| && cards[j].Entry? && cards[j].id == b;
    if i < j {
      assert cards[i].Entry? && cards[j].Entry?;
    } else {
      assert cards[j].Entry? && cards[i].Entry?;
    }
  }

  lemma ListsOneMore(cards: seq<Card>, i: nat, found: Presets)
    requires i < |cards| && cards[i].Entry? && cards[i].id !in found && cards[i].id != ""
    requires Distinct(cards[..i]) && Lists(cards[..i], found)
    ensures Distinct(cards[..i + 1])
    ensures Lists(cards[..i + 1], found[cards[i].id := cards[i].preset])
  {
    var after := found[cards[i].id := cards[i].preset];
    assert forall k :: 0 <= k < i ==> cards[..i][k] == cards[..i + 1][k];
    var longer := cards[..i + 1];
    assert forall k :: 0 <= k < i ==> longer[k] == cards[..i][k];
    assert forall k :: 0 <= k < i ==> longer[k].id in found;
    forall m | m in after
      ensures exists k :: 0 <= k < |longer| && longer[k].Entry? && longer[k].id == m
    {
      if m == cards[i].id {
        assert longer[i].id == m;
      } else {
        var k :| 0 <= k < i && cards[..i][k].Entry? && cards[..i][k].id == m;
        assert longer[k].id == m;
      }
    }
  }

  // ---------------------------------------------------------------- the router

  /** A GET of the model list: the reply, if one came, and the truth at that moment. */
  datatype Look = Look(reply: Option<seq<Card>>, states: Presets)

  predicate Truthful(look: Look) {
    look.reply.Some? && Distinct(look.reply.value) ==> Lists(look.reply.value, look.states)
  }

  /** A lifecycle request as it was sent, after at looks, and whether the router accepted it. */
  datatype Posted = Posted(change: Change, accepted: bool, at: nat)

  /** The router and its worker. doing is a lifecycle request that may still take effect. */
  class Router {
    var states: Presets
    var doing: Option<Change>
    ghost var looks: seq<Look>
    ghost var posts: seq<Posted>

    /** One worker, a request is over once the state it asked for shows, and no list was a lie. */
    ghost predicate Rules()
      reads this
    {
      && Single(states) && (doing.Some? ==> !Reached(states, doing.value))
      && forall i :: 0 <= i < |looks| ==> Truthful(looks[i])
    }

    predicate MayHold()
      reads this
    {
      !Idle(states) || (doing.Some? && doing.value.load)
    }

    constructor (states: Presets)
      requires Single(states)
      ensures Rules() && this.states == states && doing == None && looks == [] && posts == []
    {
      this.states, doing, looks, posts := states, None, [], [];
    }

    /** Time passes: only a request under way changes anything. */
    method Drift()
      requires Rules()
      modifies this`states, this`doing
      ensures Rules()
      ensures old(doing).None? ==> states == old(states) && doing.None?
      ensures doing.Some? ==> doing == old(doing)
    {
      var next: Presets := *;
      if doing.Some? && Single(next) {
        states := next;
        if Reached(states, doing.value) {
          doing := None;
        }
      }
    }

    /** GET /models: no answer, or a list. A list the adapter accepts is the truth. */
    method Get(standard: string) returns (cards: Option<seq<Card>>)
      requires Rules()
      modifies this`states, this`doing, this`looks
      ensures Rules()
      ensures old(doing).None? ==> states == old(states) && doing.None?
      ensures doing.Some? ==> doing == old(doing)
      ensures looks == old(looks) + [Look(cards, states)] && Truthful(Look(cards, states))
    {
      Drift();
      cards := *;
      if cards.Some? && Distinct(cards.value) && !Lists(cards.value, states) {
        cards := None;
      }
      looks := looks + [Look(cards, states)];
    }

    /** POST /models/load or /models/unload. A worker is only started when there is none. */
    method Post(change: Change) returns (accepted: bool)
      requires Rules() && doing.None?
      requires change.load ==> Idle(states)
      modifies this`states, this`doing, this`posts
      ensures Rules()
      ensures posts == old(posts) + [Posted(change, accepted, |looks|)]
      ensures doing.Some? ==> doing == Some(change)
    {
      var arrives: bool := *;
      if arrives && !Reached(states, change) {
        doing := Some(change);
      }
      Drift();
      accepted := *;
      posts := posts + [Posted(change, accepted, |looks|)];
    }
  }

  /** Two accepted readings of one truth agree. */
  lemma ListsUnique(cards: seq<Card>, a: Presets, b: Presets)
    requires Distinct(cards) && Lists(cards, a) && Lists(cards, b)
    ensures a == b
  {
    forall m | m in a
      ensures m in b && a[m] == b[m]
    {
      var i :| 0 <= i < |cards| && cards[i].Entry? && cards[i].id == m;
    }
    forall m | m in b
      ensures m in a
    {
      var i :| 0 <= i < |cards| && cards[i].Entry? && cards[i].id == m;
    }
  }

  // ---------------------------------------------------------------- the adapter

  /** A look that an adapter with this default preset takes: well-formed, without repeats, with the
      preset in it and at most one worker. */
  predicate Accepted(look: Look, standard: string) {
    && look.reply.Some? && Distinct(look.reply.value)
    && Named(look.reply.value, standard) && !TwoBusy(look.reply.value)
  }

  /** The look shows that the change is done. */
  predicate Shows(look: Look, standard: string, change: Change) {
    Accepted(look, standard) && Reached(look.states, change)
  }

  /** The look gives a reason to look again: the model is there, not yet as asked, and has not failed. */
  predicate Pending(look: Look, standard: string, change: Change) {
    && Accepted(look, standard) && change.model in look.states
    && var preset := look.states[change.model];
       if change.load then !preset.value.Loaded? && !preset.failed else !preset.value.Unloaded?
  }

  /** The looks from at up to upto are polls: all but the last give a reason to look again, the last one
      gives none unless it was the last that fits, and the change is confirmed exactly if it shows. */
  predicate Polled(looks: seq<Look>, at: nat, upto: nat, standard: string, change: Change, polls: nat, ok: bool) {
    && at <= upto <= |looks| && upto <= at + polls
    && (forall i :: at <= i < upto - 1 ==> Pending(looks[i], standard, change))
    && (ok <==> at < upto && Shows(looks[upto - 1], standard, change))
    && (upto < at + polls ==> at < upto && !Pending(looks[upto - 1], standard, change))
  }

  /** An accepted request is followed by polls; any other one by nothing, and it is not confirmed. */
  predicate Confirmed(p: Posted, looks: seq<Look>, upto: nat, standard: string, polls: nat, ok: bool) {
    if p.accepted then Polled(looks, p.at, upto, standard, p.change, polls, ok) else !ok && upto == p.at
  }

  lemma ConfirmedLater(p: Posted, looks: seq<Look>, later: seq<Look>, upto: nat, standard: string, polls: nat, ok: bool)
    requires Confirmed(p, looks, upto, standard, polls, ok) && looks <= later
    ensures Confirmed(p, later, upto, standard, polls, ok)
  {
  }

  datatype Call = Observe | Snapshot | Release(target: string) | Acquire(wanted: Option<string>)

  datatype Observed = Raised | Nothing | Ready(model: string)

  class PrismBackend {
    const model: string
    const router: Router
    var uncertain: bool

    constructor (model: string, router: Router)
      requires router.Rules() && router.doing.None?
      ensures this.model == model && this.router == router && !uncertain && Sound()
    {
      this.model, this.router, uncertain := model, router, false;
    }

    /** Nothing that was requested can still take effect, unless the latch is set. */
    ghost predicate Sound()
      reads this, router
    {
      router.Rules() && (!uncertain ==> router.doing.None?)
    }

    method States() returns (states: Option<Presets>)
      requires router.Rules()
      modifies router`states, router`doing, router`looks
      ensures router.Rules()
      ensures old(router.doing).None? ==>
                router.states == old(router.states) && router.doing.None?
      ensures router.doing.Some? ==> router.doing == old(router.doing)
      ensures |router.looks| == |old(router.looks)| + 1 && old(router.looks) <= router.looks
      ensures router.looks[|old(router.looks)|].states == router.states
      ensures states.Some? <==> Accepted(router.looks[|old(router.looks)|], model)
      ensures states.Some? ==> states.value == router.states && model in states.value
    {
      var cards := router.Get(model);
      if cards.None? {
        return None;
      }
      states := ReadList(cards.value, model);
      if states.Some? {
        ListsUnique(cards.value, states.value, router.states);
      }
    }

    /** The first preset whose worker is not unloaded; there is at most one. */
    function Active(states: Presets): (active: Option<string>)
      requires Single(states)
      ensures active.None? <==> Idle(states)
      ensures active.Some? ==>
                Busy(states, active.value) && forall m :: Busy(states, m) <==> m == active.value
    {
      if Idle(states) then None
      else
        var m :| m in states && Busy(states, m);
        Some(m)
    }

    /** Polls until the change shows, or cannot come any more, or the time is up. */
    method Wait(change: Change, polls: nat) returns (ok: bool)
      requires router.Rules()
      requires router.doing.Some? ==> router.doing.value == change
      modifies router`states, router`doing, router`looks
      ensures router.Rules()
      ensures old(router.doing).None? ==>
                router.states == old(router.states) && router.doing.None?
      ensures router.doing.Some? ==> router.doing == old(router.doing)
      ensures ok ==> Reached(router.states, change) && router.doing.None?
      ensures old(router.looks) <= router.looks
      ensures Polled(router.looks, |old(router.looks)|, |router.looks|, model, change, polls, ok)
    {
      var left := polls;
      while left > 0
        invariant router.Rules()
        invariant old(router.doing).None? ==>
                    router.states == old(router.states) && router.doing.None?
        invariant router.doing.Some? ==> router.doing == old(router.doing)
        invariant old(router.looks) <= router.looks
        invariant 0 <= left <= polls && |router.looks| == |old(router.looks)| + polls - left
        invariant forall i :: |old(router.looks)| <= i < |router.looks| ==> Pending(router.looks[i], model, change)
      {
        var states := States();
        if states.None? || change.model !in states.value {
          return false;
        }
        var preset := states.value[change.model];
        if change.load && preset.value.Loaded? {
          return true;
        }
        if !change.load && preset.value.Unloaded? {
          return Active(states.value).None?;
        }
        if change.load && preset.failed {
          return false;
        }
        left := left - 1;
      }
      return false;
    }

    /** A lifecycle request counts only when it is confirmed; otherwise the latch stays set. It is confirmed
        exactly if the router accepted it and the polls that follow show what it asked for. */
    method ChangeWorker(change: Change, polls: nat) returns (ok: bool)
      requires Sound()
      requires change.load && !uncertain ==> Idle(router.states)
      modifies this, router
      ensures Sound()
      ensures ok <==> !uncertain
      ensures ok ==> Reached(router.states, change)
      ensures old(uncertain) ==>
                uncertain && router.posts == old(router.posts) && router.looks == old(router.looks)
      ensures old(router.looks) <= router.looks
      ensures !old(uncertain) ==>
                && |router.posts| == |old(router.posts)| + 1 && old(router.posts) <= router.posts
                && var p := router.posts[|old(router.posts)|];
                   && p.change == change && p.at == |old(router.looks)|
                   && Confirmed(p, router.looks, |router.looks|, model, polls, ok)
    {
      if uncertain {
        return false;
      }
      uncertain := true;
      var accepted := router.Post(change);
      if !accepted {
        return false;
      }
      ok := Wait(change, polls);
      if ok {
        uncertain := false;
      }
    }

    /** One look decides: nothing if it shows no worker, the model of the worker if that is ready, and
        otherwise no answer. */
    method ObserveReady() returns (seen: Observed)
      requires Sound()
      modifies router`states, router`doing, router`looks
      ensures Sound()
      ensures AbsenceConfirms(seen.Nothing?, router.MayHold())
      ensures uncertain ==> seen == Raised && router.looks == old(router.looks)
      ensures !uncertain ==>
                && |router.looks| == |old(router.looks)| + 1 && old(router.looks) <= router.looks
                && var look := router.looks[|old(router.looks)|];
                   && look.states == router.states
                   && (seen.Nothing? <==> Accepted(look, model) && Idle(look.states))
                   && (seen.Ready? ==> Shows(look, model, Change(seen.model, true)))
                   && (seen.Raised? ==> forall m :: !Shows(look, model, Change(m, true)))
    {
      if uncertain {
        return Raised;
      }
      var states := States();
      if states.None? {
        return Raised;
      }
      var active := Active(states.value);
      if active.None? {
        return Nothing;
      }
      if states.value[active.value].value.Loaded? {
        return Ready(active.value);
      }
      assert forall m :: Reached(states.value, Change(m, true)) ==> Busy(states.value, m);
      return Raised;
    }

    /** The model to wait for: the one whose worker a look shows, and without a worker the default. */
    ghost predicate Chosen(look: Look, chosen: string) {
      if Idle(look.states) then chosen == model else Busy(look.states, chosen)
    }

    /** Waits for the worker that is active, or for the default preset's. */
    method SnapshotReady(polls: nat) returns (seen: Observed)
      requires Sound()
      modifies router`states, router`doing, router`looks
      ensures Sound()
      ensures uncertain ==> seen == Raised && router.looks == old(router.looks)
      ensures seen != Nothing
      ensures seen.Ready? ==> Reached(router.states, Change(seen.model, true))
      ensures !uncertain ==>
                && |old(router.looks)| < |router.looks| && old(router.looks) <= router.looks
                && var n := |old(router.looks)|;
                   if !Accepted(router.looks[n], model) then seen == Raised && |router.looks| == n + 1
                   else exists chosen :: Chosen(router.looks[n], chosen)
                          && Polled(router.looks, n + 1, |router.looks|, model, Change(chosen, true), polls, seen == Ready(chosen))
    {
      if uncertain {
        return Raised;
      }
      var states := States();
      if states.None? {
        return Raised;
      }
      var active := Active(states.value);
      var chosen := if active.Some? then active.value else model;
      assert Chosen(router.looks[|old(router.looks)|], chosen);
      var ok := Wait(Change(chosen, true), polls);
      return if ok then Ready(chosen) else Raised;
    }

    /** Returns only with no worker left, and never unloads another model than its target. The first look
        decides: without a worker it returns at once, with the target's worker it asks for the unload and
        returns exactly if that is confirmed, and in every other case it raises and sends nothing. */
    method ReleaseGpu(target: string, polls: nat) returns (ok: bool)
      requires Sound()
      modifies this, router
      ensures Sound()
      ensures ReleaseConfirms(ok, router.MayHold())
      ensures ok ==> !uncertain && target in router.states
      ensures old(router.looks) <= router.looks && old(router.posts) <= router.posts
      ensures target == "" || old(uncertain) ==>
                !ok && uncertain == old(uncertain)
                && router.looks == old(router.looks) && router.posts == old(router.posts)
      ensures target != "" && !old(uncertain) ==>
                && |old(router.looks)| < |router.looks|
                && var n, look := |old(router.looks)|, router.looks[|old(router.looks)|];
                   if Accepted(look, model) && Busy(look.states, target) then
                     && |router.posts| == |old(router.posts)| + 1
                     && var p := router.posts[|old(router.posts)|];
                        && p.change == Change(target, false) && p.at == n + 1
                        && Confirmed(p, router.looks, |router.looks|, model, polls, ok) && (ok <==> !uncertain)
                   else
                     && (ok <==> Accepted(look, model) && target in look.states && Idle(look.states))
                     && !uncertain && |router.looks| == n + 1 && router.posts == old(router.posts)
    {
      if target == "" || uncertain {
        return false;
      }
      var states := States();
      if states.None? || target !in states.value {
        return false;
      }
      var active := Active(states.value);
      if active.None? {
        return true;
      }
      if active.value != target {
        return false;
      }
      ok := ChangeWorker(Change(target, false), polls);
    }

    /** Another model's worker is ready and in the way of wanted. */
    predicate InTheWay(look: Look, wanted: string, other: string) {
      Accepted(look, model) && wanted in look.states && other != wanted
      && Reached(look.states, Change(other, true))
    }

    /** Succeeds only with exactly the target's worker loaded. The first look decides: with the target's
        worker ready nothing is sent; with no worker the load is; with another worker ready that is unloaded
        first, and the load is sent exactly if the unload is confirmed; otherwise nothing is sent. */
    method AcquireGpu(target: Option<string>, polls: nat) returns (result: Option<string>)
      requires Sound()
      modifies this, router
      ensures Sound()
      ensures result.Some? ==>
                !uncertain && result.value == (if target.Some? then target.value else model)
                && Reached(router.states, Change(result.value, true))
                && forall m :: Busy(router.states, m) <==> m == result.value
      ensures old(router.looks) <= router.looks && old(router.posts) <= router.posts
      ensures target == Some("") || old(uncertain) ==>
                result.None? && uncertain == old(uncertain)
                && router.looks == old(router.looks) && router.posts == old(router.posts)
      ensures target != Some("") && !old(uncertain) ==>
                && |old(router.looks)| < |router.looks|
                && var n, k, look := |old(router.looks)|, |old(router.posts)|, router.looks[|old(router.looks)|];
                   var wanted := if target.Some? then target.value else model;
                   if router.posts == old(router.posts) then
                     && !uncertain && |router.looks| == n + 1
                     && (result.Some? <==> Shows(look, model, Change(wanted, true)))
                     && !(Accepted(look, model) && wanted in look.states && Idle(look.states))
                     && forall other :: !InTheWay(look, wanted, other)
                   else
                     && Accepted(look, model) && wanted in look.states && (result.Some? <==> !uncertain)
                     && var change := router.posts[k].change;
                        && (if change.load then Idle(look.states) else InTheWay(look, wanted, change.model))
                        && Brought(n + 1, old(router.posts), if change.load then None else Some(change.model),
                                   wanted, polls, result.Some?)
    {
      var wanted := if target.Some? then target.value else model;
      if (target.Some? && target.value == "") || uncertain {
        return None;
      }
      var states := States();
      if states.None? || wanted !in states.value {
        return None;
      }
      var active := Active(states.value);
      assert forall m :: Reached(states.value, Change(m, true)) ==> Busy(states.value, m);
      if active.Some? {
        if !states.value[active.value].value.Loaded? {
          return None;
        }
        if active.value == wanted {
          return Some(wanted);
        }
        assert InTheWay(router.looks[|old(router.looks)|], wanted, active.value);
      }
      var loaded := Bring(active, wanted, polls);
      return if loaded then Some(wanted) else None;
    }

    /** Unloads the worker that is active, if one is, and then loads the wanted one. */
    method Bring(active: Option<string>, wanted: string, polls: nat) returns (ok: bool)
      requires Sound() && !uncertain && (active.None? ==> Idle(router.states))
      modifies this, router
      ensures Sound() && (ok <==> !uncertain)
      ensures ok ==> Reached(router.states, Change(wanted, true)) && forall m :: Busy(router.states, m) <==> m == wanted
      ensures old(router.looks) <= router.looks
      ensures Brought(|old(router.looks)|, old(router.posts), active, wanted, polls, ok)
    {
      ghost var first := |router.posts|;
      if active.Some? {
        ok := ChangeWorker(Change(active.value, false), polls);
        if !ok {
          return;
        }
      }
      ghost var looks, posts := router.looks, router.posts;
      ok := ChangeWorker(Change(wanted, true), polls);
      if first < |posts| {
        ConfirmedLater(posts[first], looks, router.looks, |looks|, model, polls, true);
      }
      if ok {
        assert Busy(router.states, wanted);
      }
    }

    /** The unload of the active worker comes first, and the load exactly if that is confirmed; with no
        worker the load comes alone. */
    ghost predicate Brought(at: nat, posts: seq<Posted>, active: Option<string>, wanted: string, polls: nat,
                            ok: bool)
      reads router
    {
      var k, load := |posts|, Change(wanted, true);
      && k < |router.posts| && posts <= router.posts && router.posts[k].at == at
      && match active
         case None =>
           && |router.posts| == k + 1 && router.posts[k].change == load
           && Confirmed(router.posts[k], router.looks, |router.looks|, model, polls, ok)
         case Some(other) =>
           && router.posts[k].change == Change(other, false)
           && if |router.posts| == k + 1 then
                Confirmed(router.posts[k], router.looks, |router.looks|, model, polls, false) && !ok
              else
                && |router.posts| == k + 2 && router.posts[k + 1].change == load
                && Confirmed(router.posts[k], router.looks, router.posts[k + 1].at, model, polls, true)
                && Confirmed(router.posts[k + 1], router.looks, |router.looks|, model, polls, ok)
    }

    /** Any calls at all: once the latch is set every one of them raises, nothing is requested from
        the router again, and the latch stays set. */
    method Serve(calls: seq<Call>, polls: nat) returns (raised: seq<bool>)
      requires Sound()
      modifies this, router
      ensures Sound()
      ensures |raised| == |calls|
      ensures old(uncertain) ==>
                uncertain && router.posts == old(router.posts) && router.looks == old(router.looks)
      ensures old(uncertain) ==> forall i :: 0 <= i < |raised| ==> raised[i]
    {
      raised := [];
      while |raised| < |calls|
        invariant Sound()
        invariant |raised| <= |calls|
        invariant old(uncertain) ==>
                    uncertain && router.posts == old(router.posts) && router.looks == old(router.looks)
        invariant old(uncertain) ==> forall i :: 0 <= i < |raised| ==> raised[i]
      {
        var failed: bool;
        match calls[|raised|] {
          case Observe =>
            var seen := ObserveReady();
            failed := seen.Raised?;
          case Snapshot =>
            var seen := SnapshotReady(polls);
            failed := seen.Raised?;
          case Release(target) =>
            var ok := ReleaseGpu(target, polls);
            failed := !ok;
          case Acquire(target) =>
            var result := AcquireGpu(target, polls);
            failed := result.None?;
        }
        raised := raised + [failed];
      }
    }
  }
}
