/** TabbyAPI's explicit load and unload lifecycle over a server that may keep loading after the
    connection to it is lost. */
module Tabby {
  import opened Basics
  import opened TabbyStream

  type Settings = map<string, int>

  /** A restore point: a model and the settings the server reported for it. */
  datatype Card = Card(model: string, parameters: Settings)

  /** Every saved setting is reported again with the same value. */
  predicate Matches(current: Card, wanted: Card) {
    && current.model == wanted.model
    && forall key :: key in wanted.parameters ==>
         key in current.parameters && current.parameters[key] == wanted.parameters[key]
  }

  /** Some of the settings. */
  function Restricted(settings: Settings, keys: set<string>): Settings {
    map k | k in settings && k in keys :: settings[k]
  }

  /** The comparison accepts exactly the cards of the same model that report every saved setting
      unchanged; settings that were not saved may differ. */
  lemma MatchesIsExact(current: Card, wanted: Card)
    ensures Matches(current, wanted) <==>
            current.model == wanted.model
            && Restricted(current.parameters, wanted.parameters.Keys) == wanted.parameters
  {
    var restricted := Restricted(current.parameters, wanted.parameters.Keys);
    if current.model == wanted.model && restricted == wanted.parameters {
      forall key | key in wanted.parameters
        ensures key in current.parameters && current.parameters[key] == wanted.parameters[key]
      {
        assert key in restricted;
      }
    }
  }

  /** What GET /v1/model was understood to say. */
  datatype Reply = Failed | Unloaded | Loaded(card: Card)

  /** What a reply says is published. */
  function Current(reply: Reply): Option<Card> {
    if reply.Loaded? then Some(reply.card) else None
  }

  // ---------------------------------------------------------------- the latch

  /** What the adapter remembers of a load or unload it could not confirm. */
  datatype Latch = Latch(uncertain: bool, pending: Option<Card>, loadFailed: bool)

  const CLEAR := Latch(false, None, false)

  /** A load may still be running, or may have left memory allocated. */
  predicate RemembersLoad(l: Latch) {
    l.uncertain && l.pending.Some?
  }

  predicate Consistent(l: Latch) {
    && (l.loadFailed ==> RemembersLoad(l))
    && (!l.uncertain ==> l.pending.None?)
  }

  /** Whether an observation settles an unconfirmed load or unload. */
  predicate Confirms(current: Option<Card>, l: Latch, retry: bool) {
    match current
    case None => l.pending.None? || (retry && l.loadFailed)
    case Some(card) => l.pending.Some? && Matches(card, l.pending.value)
  }

  /** The observation raises exactly when it leaves an uncertain latch unsettled. */
  predicate Accepts(current: Option<Card>, l: Latch, retry: bool) {
    l.uncertain ==> Confirms(current, l, retry)
  }

  function Settle(current: Option<Card>, l: Latch, retry: bool): Latch {
    if l.uncertain && Confirms(current, l, retry) then CLEAR else l
  }

  /** What an observation returns, given the server's reply: an unsettled latch raises. */
  function Taken(reply: Reply, l: Latch, retry: bool): Reply {
    if !reply.Failed? && Accepts(Current(reply), l, retry) then reply else Failed
  }

  /** The latch after the first section of an acquisition that saw current, up to its next await:
      either a load is about to be posted, or the acquisition is over. */
  function Opened(current: Option<Card>, l: Latch, target: Option<Card>, configured: Option<string>): Latch {
    if !Accepts(current, l, true) then l
    else if current.Some? then Settle(current, l, true)
    else if target.Some? then Latch(true, target, false)
    else if configured.Some? then Latch(true, Some(Card(configured.value, map[])), false)
    else Settle(current, l, true)
  }

  /** A latch that remembers a load survives an acquisition that sees no model, whoever asks,
      unless the load is known to have failed and there is nothing to load instead: no target and no
      configured model. */
  lemma AcquisitionRemembersExactly(l: Latch, target: Option<Card>, configured: Option<string>)
    requires Consistent(l) && RemembersLoad(l)
    ensures RemembersLoad(Opened(None, l, target, configured)) <==>
            target.Some? || configured.Some? || !l.loadFailed
  {
    if !l.loadFailed {
      assert !Accepts(None, l, true);
    }
  }

  /** Only an acquisition may retry: a passive observation or a release that sees no model never
      forgets a load. */
  lemma OnlyAcquisitionRetries(l: Latch)
    requires Consistent(l) && RemembersLoad(l)
    ensures !Accepts(None, l, false) && Settle(None, l, false) == l
    ensures Accepts(None, l, true) <==> l.loadFailed
  {
  }

  // ---------------------------------------------------------------- the server

  /** One reply of the server, and what it published at that moment. */
  datatype Answer = Answer(reply: Reply, published: Option<Card>)

  /** What came back from one load: whether an event stream was answered, its lines, whether it came to
      its end; at is the number of replies to GET before it. */
  datatype Stream = Stream(at: nat, accepted: bool, lines: seq<Line>, ended: bool)

  predicate Truthful(a: Answer) {
    && (a.reply.Unloaded? ==> a.published.None?)
    && (a.reply.Loaded? ==> a.published == Some(a.reply.card))
  }

  /** The GPU side of TabbyAPI: the published model, whether a load task runs detached, and whether a
      failed load may still hold allocations. A calm server never fails to answer and is left alone
      natively; it answers a load with one and the same stream. */
  class Server {
    const calm: bool
    const stream: seq<Line>
    var published: Option<Card>
    var loading: bool
    var residue: bool
    ghost var answers: seq<Answer>
    ghost var loads: seq<Card>
    ghost var streams: seq<Stream>
    ghost var unloads: seq<bool>   // and whether each was answered

    predicate MayHold()
      reads this
    {
      published.Some? || loading || residue
    }

    /** No model is published while a load runs, a published model has replaced whatever a failed load
        left behind, and no reply was a lie. */
    ghost predicate Rules()
      reads this
    {
      && (published.Some? ==> !loading && !residue)
      && forall i :: 0 <= i < |answers| ==> Truthful(answers[i])
    }

    constructor (published: Option<Card>, calm: bool, stream: seq<Line>)
      ensures Rules() && this.published == published && !loading && !residue
      ensures answers == [] && loads == [] && unloads == []
      ensures this.calm == calm && this.stream == stream
    {
      this.calm, this.stream := calm, stream;
      this.published, loading, residue := published, false, false;
      answers, loads, streams, unloads := [], [], [], [];
    }

    /** Time passes: a detached load may end with or without a model, and a model may be selected or
        unloaded natively. */
    method Drift()
      requires Rules()
      modifies this`published, this`loading, this`residue
      ensures Rules()
      ensures loading ==> old(loading)
      ensures residue ==> old(residue) || old(loading)
      ensures calm ==> published == old(published) && loading == old(loading) && residue == old(residue)
    {
      var happens: bool := *;
      if happens && !calm {
        var card: Option<Card> := *;
        residue := card.None? && (residue || loading);
        published, loading := card, false;
      }
    }

    /** GET /v1/model tells the truth or fails. */
    method Get() returns (reply: Reply)
      requires Rules()
      modifies this`published, this`loading, this`residue, this`answers
      ensures Rules()
      ensures answers == old(answers) + [Answer(reply, published)] && Truthful(Answer(reply, published))
      ensures loading ==> old(loading)
      ensures residue ==> old(residue) || old(loading)
      ensures calm ==> published == old(published) && loading == old(loading) && residue == old(residue)
      ensures calm ==> !reply.Failed?
    {
      Drift();
      var fails: bool := *;
      reply := if fails && !calm then Failed
               else if published.Some? then Loaded(published.value) else Unloaded;
      answers := answers + [Answer(reply, published)];
    }

    /** POST /v1/model/unload, answered or not. */
    method PostUnload() returns (ok: bool)
      requires Rules()
      modifies this`published, this`loading, this`residue, this`unloads
      ensures Rules() && unloads == old(unloads) + [ok]
      ensures loading ==> old(loading)
      ensures residue ==> old(residue) || old(loading)
      ensures calm ==> ok && published.None? && loading == old(loading) && residue == old(residue)
    {
      Drift();
      var reaches: bool := *;
      if reaches || calm {
        published := None;
      }
      ok := *;
      ok := ok || calm;
      unloads := unloads + [ok];
    }

    /** POST /v1/model/load. Two loads must never be live at once. Returns whether the server
        answered with an event stream, and what arrived of it. */
    method PostLoad(card: Card) returns (accepted: bool, lines: seq<Line>, ended: bool)
      requires Rules()
      requires !loading && published.None?
      modifies this`published, this`loading, this`residue, this`loads, this`streams
      ensures Rules()
      ensures loads == old(loads) + [card]
      ensures streams == old(streams) + [Stream(|answers|, accepted, lines, ended)]
      ensures calm ==> accepted && lines == stream && ended && loading && published.None?
    {
      loads := loads + [card];
      var starts: bool := *;
      loading := starts || calm;
      Drift();
      accepted, lines, ended := *, *, *;
      if calm {
        accepted, lines, ended := true, stream, true;
      }
      streams := streams + [Stream(|answers|, accepted, lines, ended)];
    }

    /** A clean end of the stream after an error means that the load stopped. */
    method Stopped()
      requires Rules()
      modifies this`loading, this`residue
      ensures Rules() && !loading
      ensures residue == (old(residue) || old(loading))
    {
      residue := residue || loading;
      loading := false;
    }
  }

  // ---------------------------------------------------------------- the adapter

  /** A stream that proves a load failed. */
  predicate FailsCleanly(lines: seq<Line>, parse: seq<string> -> Event) {
    CleanEnd(lines, true) && Orderly(Events(lines, parse)) && Reports(Events(lines, parse))
  }

  /** A stream that proves a load completed. */
  predicate Completes(s: Stream, parse: seq<string> -> Event) {
    && s.accepted && CleanEnd(s.lines, s.ended) && Orderly(Events(s.lines, parse))
    && !Reports(Events(s.lines, parse)) && Finishes(Events(s.lines, parse))
  }

  /** The replies from position at on are polls: all but the last say that nothing is loaded yet, and the
      model is there exactly if the last one publishes it as wanted; otherwise polling ended with that
      reply, or with the last poll. */
  predicate Polled(answers: seq<Answer>, at: nat, wanted: Card, polls: nat, result: Option<Card>) {
    && at <= |answers| <= at + polls
    && (forall i :: at <= i < |answers| - 1 ==> answers[i].reply.Unloaded?)
    && match result
       case Some(card) => at < |answers| && answers[|answers| - 1].reply == Loaded(card) && Matches(card, wanted)
       case None =>
         if |answers| == at || answers[|answers| - 1].reply.Unloaded? then |answers| == at + polls
         else answers[|answers| - 1].reply.Loaded? ==> !Matches(answers[|answers| - 1].reply.card, wanted)
  }

  /** After a load whose stream did not prove that it completed nothing more is asked; after one that did,
      its model is awaited. */
  predicate Awaited(answers: seq<Answer>, stream: Stream, wanted: Card, polls: nat, parse: seq<string> -> Event,
                    result: Option<Card>) {
    if Completes(stream, parse) then Polled(answers, stream.at, wanted, polls, result)
    else result.None? && |answers| == stream.at
  }

  class TabbyApiBackend {
    const model: Option<string>
    const maxSeqLen: int
    const server: Server
    const parse: seq<string> -> Event

    var uncertain: bool
    var pendingLoad: Option<Card>
    var loadFailed: bool

    ghost function Now(): Latch
      reads this
    {
      Latch(uncertain, pendingLoad, loadFailed)
    }

    /** A load that may still be running is remembered, and is not taken for a failed one. */
    ghost predicate Sound()
      reads this, server
    {
      && server.Rules()
      && Consistent(Now())
      && (server.loading ==> RemembersLoad(Now()) && !loadFailed)
    }

    /** So is memory that a failed load may retain. */
    ghost predicate Guarded()
      reads this, server
    {
      server.residue ==> RemembersLoad(Now())
    }

    constructor (model: Option<string>, maxSeqLen: int, server: Server, parse: seq<string> -> Event)
      requires server.Rules() && !server.loading && !server.residue
      ensures Sound() && Guarded() && Now() == CLEAR
      ensures this.model == model && this.maxSeqLen == maxSeqLen
      ensures this.server == server && this.parse == parse
    {
      this.model, this.maxSeqLen, this.server, this.parse := model, maxSeqLen, server, parse;
      uncertain, pendingLoad, loadFailed := false, None, false;
    }

    /** An observation that also settles the latch, or raises and leaves it alone. */
    method ObserveConfirmed(retry: bool) returns (reply: Reply)
      requires Sound()
      modifies this`uncertain, this`pendingLoad, this`loadFailed
      modifies server`published, server`loading, server`residue, server`answers
      ensures Sound()
      ensures |server.answers| == |old(server.answers)| + 1 && old(server.answers) <= server.answers
      ensures var got := server.answers[|old(server.answers)|];
              got.published == server.published && Truthful(got) && reply == Taken(got.reply, old(Now()), retry)
      ensures Now() == if reply.Failed? then old(Now()) else Settle(Current(reply), old(Now()), retry)
      ensures reply.Unloaded? ==> !server.loading
      ensures server.residue ==> old(server.residue) || old(server.loading)
      ensures server.calm ==>
                server.published == old(server.published)
                && server.loading == old(server.loading) && server.residue == old(server.residue)
                && !server.answers[|old(server.answers)|].reply.Failed?
    {
      reply := server.Get();
      if reply.Failed? || !uncertain {
        return;
      }
      if !Confirms(Current(reply), Latch(uncertain, pendingLoad, loadFailed), retry) {
        return Failed;
      }
      uncertain, pendingLoad, loadFailed := false, None, false;
    }

    /** observe_ready: reporting nothing means that nothing is held. */
    method ObserveReady() returns (reply: Reply)
      requires Sound() && Guarded()
      modifies this`uncertain, this`pendingLoad, this`loadFailed
      modifies server`published, server`loading, server`residue, server`answers
      ensures Sound() && Guarded()
      ensures AbsenceConfirms(reply.Unloaded?, server.MayHold())
      ensures reply.Loaded? ==> server.published == Some(reply.card)
    {
      reply := ObserveConfirmed(false);
    }

    /** Returns only with nothing loaded or loading. saved is the restore point after the call: the
        card that the server published at the first, accepted observation of the call, if it
        published one, and otherwise the target. A loaded model is unloaded exactly once. */
    method ReleaseGpu(target: Card) returns (ok: bool, saved: Card)
      requires Sound()
      modifies this`uncertain, this`pendingLoad, this`loadFailed
      modifies server`published, server`loading, server`residue, server`answers, server`unloads
      ensures Sound()
      ensures old(Guarded()) ==> Guarded() && ReleaseConfirms(ok, server.MayHold())
      ensures ok ==> server.published.None? && !server.loading && Now() == CLEAR
      ensures |server.answers| > |old(server.answers)| && old(server.answers) <= server.answers
      ensures var n, got := |server.answers|, server.answers[|old(server.answers)|];
              match Taken(got.reply, old(Now()), false)
              case Loaded(card) =>
                && got.published == Some(card) && saved == card
                && |server.unloads| == |old(server.unloads)| + 1
                && server.unloads == old(server.unloads) + [server.unloads[|old(server.unloads)|]]
                && (ok <==> server.unloads[|old(server.unloads)|] && n == |old(server.answers)| + 2
                            && server.answers[n - 1].reply.Unloaded?)
                && (server.unloads[|old(server.unloads)|] <==> n == |old(server.answers)| + 2)
                && n <= |old(server.answers)| + 2 && (ok || Now().uncertain)
              case Unloaded =>
                got.published.None? && ok && saved == target && server.unloads == old(server.unloads)
                && n == |old(server.answers)| + 1
              case Failed =>
                !ok && saved == target && server.unloads == old(server.unloads) && Now() == old(Now())
                && n == |old(server.answers)| + 1
      ensures server.calm && old(server.published).None? && Accepts(None, old(Now()), false) ==>
                ok && server.residue == old(server.residue)
      ensures server.calm && old(server.published).Some? && Accepts(old(server.published), old(Now()), false) ==>
                ok && server.unloads == old(server.unloads) + [true]
    {
      saved := target;
      var reply := ObserveConfirmed(false);
      if reply.Failed? {
        return false, saved;
      }
      if reply.Unloaded? {
        return true, saved;
      }
      saved := reply.card;
      uncertain, pendingLoad := true, None;
      var answered := server.PostUnload();
      if !answered {
        return false, saved;
      }
      reply := server.Get();
      if !reply.Unloaded? {
        return false, saved;
      }
      uncertain := false;
      return true, saved;
    }

    /** Posts a load and reads its stream. Only a stream that proves the load stopped marks it as
        failed. */
    method Load(restore: Card) returns (verdict: Verdict)
      requires Sound() && RemembersLoad(Now()) && !loadFailed
      requires !server.loading && server.published.None?
      modifies this`loadFailed
      modifies server`published, server`loading, server`residue, server`loads, server`streams
      ensures Sound() && RemembersLoad(Now())
      ensures loadFailed <==> verdict.LoadFailed?
      ensures server.loads == old(server.loads) + [restore]
      ensures |server.streams| == |old(server.streams)| + 1 && old(server.streams) <= server.streams
      ensures var got := server.streams[|old(server.streams)|];
              && got.at == |server.answers|
              && (verdict.Completed? <==> Completes(got, parse))
              && (verdict.LoadFailed? <==> got.accepted && got.ended && FailsCleanly(got.lines, parse))
              && (verdict.LoadFailed? ==> verdict.vram == ReportsVram(Events(got.lines, parse)))
      ensures server.calm && FailsCleanly(server.stream, parse) ==>
                verdict.LoadFailed? && server.residue && server.published.None?
    {
      var accepted, lines, ended := server.PostLoad(restore);
      if !accepted {
        return Unconfirmed;
      }
      verdict := ReadLoad(lines, ended, parse);
      if verdict.LoadFailed? {
        server.Stopped();
        loadFailed := true;
      }
    }

    /** Loads, and polls until the model is published. The load stays remembered until then. */
    method LoadAndAwait(restore: Card, wanted: Card, polls: nat) returns (result: Option<Card>)
      requires Sound() && !server.loading && server.published.None?
      modifies this`uncertain, this`pendingLoad, this`loadFailed
      modifies server`published, server`loading, server`residue, server`answers, server`loads, server`streams
      ensures Sound() && old(server.answers) <= server.answers
      ensures server.loads == old(server.loads) + [restore]
      ensures |server.streams| == |old(server.streams)| + 1 && old(server.streams) <= server.streams
      ensures server.streams[|old(server.streams)|].at == |old(server.answers)|
      ensures Awaited(server.answers, server.streams[|old(server.streams)|], wanted, polls, parse, result)
      ensures result.None? ==> RemembersLoad(Now())
      ensures result.Some? ==> server.published == result && Now() == CLEAR && Matches(result.value, wanted)
      ensures server.calm && FailsCleanly(server.stream, parse) ==>
                result.None? && loadFailed && server.residue && server.published.None?
    {
      uncertain, pendingLoad, loadFailed := true, Some(wanted), false;
      var verdict := Load(restore);
      if !verdict.Completed? {
        return None;
      }
      result := AwaitModel(wanted, polls);
    }

    /** What the first observation of an acquisition returned. */
    ghost function First(answers: seq<Answer>, n: nat, l: Latch): Reply
      requires n < |answers|
    {
      Taken(answers[n].reply, l, true)
    }

    /** Restores target, or keeps what is loaded, or loads the configured model. polls bounds the
        observations that fit into the acquisition timeout. Memory that a failed load left behind is
        forgotten exactly when the model is seen unloaded and there is nothing to load instead. */
    method AcquireGpu(target: Option<Card>, polls: nat) returns (result: Option<Card>)
      requires Sound()
      modifies this`uncertain, this`pendingLoad, this`loadFailed
      modifies server`published, server`loading, server`residue
      modifies server`answers, server`loads, server`streams, server`unloads
      ensures Sound()
      ensures |server.answers| > |old(server.answers)| && old(server.answers) <= server.answers
      ensures var first := First(server.answers, |old(server.answers)|, old(Now()));
              old(Guarded()) ==>
                (Guarded() <==> !(server.residue && first.Unloaded? && target.None? && model.None?))
      ensures old(Guarded()) && (target.Some? || model.Some? || !old(loadFailed)) ==> Guarded()
      ensures result.Some? ==> server.published == result && Now() == CLEAR
      ensures result.Some? && target.Some? ==> Matches(result.value, target.value)
      ensures var first := First(server.answers, |old(server.answers)|, old(Now()));
              match first
              case Failed =>
                result.None? && server.loads == old(server.loads) && server.unloads == old(server.unloads)
                && Now() == old(Now())
              case Loaded(card) =>
                if target.None? || Matches(card, target.value) then
                  result == Some(card) && server.loads == old(server.loads) && server.unloads == old(server.unloads)
                else
                  Switched(old(server.answers), old(server.loads), old(server.unloads), target.value, result)
              case Unloaded =>
                server.unloads == old(server.unloads)
                && (if target.None? && model.None? then
                      result.None? && server.loads == old(server.loads)
                      && Now() == Opened(None, old(Now()), target, model)
                    else server.loads == old(server.loads) + [Asked(target)])
      ensures server.loads != old(server.loads) ==>
                && |server.streams| == |old(server.streams)| + 1 && old(server.streams) <= server.streams
                && |old(server.answers)| < server.streams[|old(server.streams)|].at
                && Awaited(server.answers, server.streams[|old(server.streams)|], Expected(target), polls, parse, result)
                && (result.None? ==> RemembersLoad(Now()))
      ensures server.calm && old(server.published).None? ==>
                var first := First(server.answers, |old(server.answers)|, old(Now()));
                && (first.Unloaded? <==> Accepts(None, old(Now()), true))
                && (server.loads == old(server.loads) ==> server.residue == old(server.residue)
                                                          && server.published.None?)
                && (server.loads != old(server.loads) && FailsCleanly(server.stream, parse) ==>
                      result.None? && loadFailed && server.residue && server.published.None?)
      ensures server.calm && target.Some? && old(server.published).Some?
              && Accepts(old(server.published), old(Now()), true)
              && !Matches(old(server.published).value, target.value) ==>
                server.loads == old(server.loads) + [target.value]
                && server.unloads == old(server.unloads) + [true]
    {
      var reply := ObserveConfirmed(true);
      if reply.Failed? {
        return None;
      }
      if target.None? && reply.Loaded? {
        return Some(reply.card);
      }
      if target.None? && model.None? {
        return None;
      }
      var wanted := Expected(target);
      if reply.Loaded? {
        if Matches(reply.card, wanted) {
          return Some(reply.card);
        }
        var ok, _ := ReleaseGpu(reply.card);
        if !ok {
          return None;
        }
      }
      result := LoadAndAwait(Asked(target), wanted, polls);
    }

    /** What is posted as a load: the restore point, or the configured model with its context. */
    function Asked(target: Option<Card>): Card
      requires target.Some? || model.Some?
    {
      if target.Some? then target.value else Card(model.value, map["max_seq_len" := maxSeqLen])
    }

    /** What must then be published: every setting of a restore point, none of a first load. */
    function Expected(target: Option<Card>): Card
      requires target.Some? || model.Some?
    {
      if target.Some? then target.value else Card(model.value, map[])
    }

    /** The model that was seen is not the target: the release's own look decides. A model still there is
        unloaded once, and the target is loaded exactly if that was answered and nothing is left; if
        nothing is there already it is loaded at once. */
    ghost predicate Switched(answers: seq<Answer>, loads: seq<Card>, unloads: seq<bool>, target: Card,
                             result: Option<Card>)
      reads server
    {
      var n := |answers| + 1;
      n < |server.answers|
      && match server.answers[n].reply
         case Failed => result.None? && server.loads == loads && server.unloads == unloads
         case Unloaded => server.loads == loads + [target] && server.unloads == unloads
         case Loaded(_) =>
           && |server.unloads| == |unloads| + 1 && server.unloads == unloads + [server.unloads[|unloads|]]
           && if server.unloads[|unloads|] && n + 1 < |server.answers| && server.answers[n + 1].reply.Unloaded?
              then server.loads == loads + [target]
              else result.None? && server.loads == loads
    }

    /** Polls until the loaded model is published. */
    method AwaitModel(wanted: Card, polls: nat) returns (result: Option<Card>)
      requires Sound() && RemembersLoad(Now()) && !loadFailed
      modifies this`uncertain, this`pendingLoad
      modifies server`published, server`loading, server`residue, server`answers
      ensures Sound() && old(server.answers) <= server.answers
      ensures result.None? ==> Now() == old(Now())
      ensures result.Some? ==> server.published == result && Now() == CLEAR && Matches(result.value, wanted)
      ensures Polled(server.answers, |old(server.answers)|, wanted, polls, result)
    {
      var left := polls;
      while left > 0
        invariant Sound() && Now() == old(Now())
        invariant old(server.answers) <= server.answers
        invariant 0 <= left <= polls && |server.answers| == |old(server.answers)| + polls - left
        invariant forall i :: |old(server.answers)| <= i < |server.answers| ==> server.answers[i].reply.Unloaded?
      {
        var reply := server.Get();
        assert |server.answers| == |old(server.answers)| + polls - left + 1;
        if reply.Failed? {
          return None;
        }
        if reply.Loaded? {
          if !Matches(reply.card, wanted) {
            return None;
          }
          uncertain, pendingLoad := false, None;
          return Some(reply.card);
        }
        left := left - 1;
      }
      return None;
    }
  }

  // ---------------------------------------------------------------- over several calls

  /** Released and restored: if the server published a model when the release first asked, and the
      acquisition succeeds, then that model is published again with every setting it had then. */
  method RestoreRoundTrip(backend: TabbyApiBackend, target: Card, polls: nat)
    returns (released: bool, restored: Option<Card>)
    requires backend.Sound() && backend.Guarded()
    modifies backend`uncertain, backend`pendingLoad, backend`loadFailed
    modifies backend.server`published, backend.server`loading, backend.server`residue
    modifies backend.server`answers, backend.server`loads, backend.server`streams, backend.server`unloads
    ensures backend.Sound() && backend.Guarded()
    ensures |backend.server.answers| > |old(backend.server.answers)|
    ensures restored.Some? ==>
              var before := backend.server.answers[|old(backend.server.answers)|].published;
              && released && backend.server.published == restored
              && (before.Some? ==> Restores(restored.value, before.value))
              && (before.None? ==> Restores(restored.value, target))
  {
    var saved;
    released, saved := backend.ReleaseGpu(target);
    restored := None;
    if released {
      restored := backend.AcquireGpu(Some(saved), polls);
    }
  }

  /** The same model, and each of the settings. */
  predicate Restores(now: Card, before: Card) {
    && now.model == before.model
    && forall key :: key in before.parameters ==>
         key in now.parameters && now.parameters[key] == before.parameters[key]
  }

  /** The one gap, whatever the failed load was: a calm server holds what a completely failed load left,
      the broker has no configured model, and an acquisition without a target comes. It forgets the
      failure, and the next release returns although the memory is still held. */
  method ForgottenFailure(backend: TabbyApiBackend, target: Card, polls: nat) returns (released: bool)
    requires backend.Sound() && backend.Guarded() && backend.loadFailed
    requires backend.server.calm && backend.server.residue && backend.model.None?
    modifies backend`uncertain, backend`pendingLoad, backend`loadFailed
    modifies backend.server`published, backend.server`loading, backend.server`residue
    modifies backend.server`answers, backend.server`loads, backend.server`streams, backend.server`unloads
    ensures backend.server.loads == old(backend.server.loads)
    ensures !backend.Guarded() && released && backend.server.MayHold()
  {
    var result := backend.AcquireGpu(None, polls);
    var saved;
    released, saved := backend.ReleaseGpu(target);
  }

  /** Such a run from the start: a restore whose load reports an error, then the two calls above. */
  method ForgottenFailureRun() returns (backend: TabbyApiBackend, released: bool)
    ensures fresh(backend) && fresh(backend.server)
    ensures backend.server.loads == [Card("m", map[])]
    ensures released && backend.server.MayHold()
  {
    var parse := (data: seq<string>) => GoodError(false);
    var stream := [Data("error"), Blank];
    var server := new Server(None, true, stream);
    backend := new TabbyApiBackend(None, 1, server, parse);
    OneError(parse);
    var first := backend.AcquireGpu(Some(Card("m", map[])), 0);
    released := ForgottenFailure(backend, Card("m", map[]), 0);
  }

  lemma OneError(parse: seq<string> -> Event)
    requires forall data :: parse(data) == GoodError(false)
    ensures FailsCleanly([Data("error"), Blank], parse)
  {
    var lines := [Data("error"), Blank];
    assert Front(lines) == [Data("error")] && Front(Front(lines)) == [];
    assert Tail(Front(lines)) == ["error"];
    assert Blocks(lines) == Blocks(Front(lines)) + [["error"]];
    assert Events(lines, parse)[0] == GoodError(false);
  }
}
