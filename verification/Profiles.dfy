/** Model profiles: defaults that fill in what a caller left open, by the thinking mode the caller
    asked for. */
module Profiles {
  import opened Basics
  import opened Json

  datatype Engine = Prism | Tabby | Strata

  datatype Mode = Thinking | NonThinking

  datatype Profile = Profile(defaults: Fields, thinking: Fields, nonThinking: Fields)

  const PARAMETERS: set<string> := {
    "temperature", "top_p", "top_k", "min_p", "repetition_penalty",
    "presence_penalty", "frequency_penalty", "reasoning_budget_tokens"}

  const REPETITION_ALIASES: seq<string> := ["repetition_penalty", "repeat_penalty", "rep_pen"]

  const BUDGET_ALIASES: seq<string> := [
    "reasoning_budget_tokens", "reasoning_budget", "thinking_budget",
    "thinking_token_budget", "thinking_budget_tokens"]

  predicate Supported(profile: Profile) {
    profile.defaults.Keys + profile.thinking.Keys + profile.nonThinking.Keys <= PARAMETERS
  }

  // ---------------------------------------------------------------- the thinking mode

  /** What one control in the request says. Unclear ones rule every mode out. */
  datatype Signal = Says(mode: Mode) | Unclear

  function EnabledSignal(v: Value): Signal {
    if v.Bool? then Says(if v.b then Thinking else NonThinking) else Unclear
  }

  function EffortSignal(engine: Engine, v: Value, fold: string -> string): Signal {
    if !v.Str? then Unclear
    else
      var effort := if engine.Prism? then v.s else fold(v.s);
      if effort == "none" || (!engine.Prism? && effort == "off") then Says(NonThinking)
      else if effort in {"low", "medium", "xhigh"} || (!engine.Prism? && effort == "high")
      then Says(Thinking)
      else Unclear
  }

  function EffortField(key: string): string {
    if key == "reasoning" then "effort" else "reasoning_effort"
  }

  function EnabledField(key: string): string {
    if key == "reasoning" then "enabled" else "enable_thinking"
  }

  function NestedEffort(engine: Engine, key: string, v: Value, fold: string -> string): Signal {
    if engine.Prism? && (key == "reasoning" || v == Str("none")) then Unclear
    else EffortSignal(engine, v, fold)
  }

  /** A Strata engine only obeys an explicit false. */
  function NestedEnabled(engine: Engine, key: string, v: Value): set<Signal> {
    if key == "reasoning" && !engine.Tabby? then {Unclear}
    else if engine.Strata? && v == Bool(true) then {}
    else {EnabledSignal(v)}
  }

  function ObjectSignals(engine: Engine, key: string, fields: Fields, fold: string -> string): set<Signal> {
    (if EffortField(key) in fields then {NestedEffort(engine, key, fields[EffortField(key)], fold)} else {})
    + if EnabledField(key) in fields then NestedEnabled(engine, key, fields[EnabledField(key)]) else {}
  }

  /** For TabbyAPI template_vars replaces chat_template_kwargs as a whole. */
  predicate Skipped(engine: Engine, p: Fields, key: string) {
    key !in p || (engine.Tabby? && key == "chat_template_kwargs" && "template_vars" in p)
  }

  function NestedSignals(engine: Engine, p: Fields, key: string, fold: string -> string): set<Signal> {
    if Skipped(engine, p, key) then {}
    else if !p[key].Obj? || key == "thinking" || (key == "template_vars" && !engine.Tabby?) then {Unclear}
    else ObjectSignals(engine, key, p[key].fields, fold)
  }

  const NESTED: seq<string> := ["reasoning", "chat_template_kwargs", "template_vars", "thinking"]

  function TopSignals(engine: Engine, p: Fields, fold: string -> string): set<Signal> {
    (if "reasoning_effort" in p then {EffortSignal(engine, p["reasoning_effort"], fold)} else {})
    + if "enable_thinking" in p
      then {if engine.Tabby? then EnabledSignal(p["enable_thinking"]) else Unclear} else {}
  }

  /** Everything the request says about thinking, wherever it says it. */
  function Signals(engine: Engine, p: Fields, fold: string -> string): set<Signal> {
    TopSignals(engine, p, fold) + FirstNested(engine, p, |NESTED|, fold)
  }

  function FirstNested(engine: Engine, p: Fields, n: nat, fold: string -> string): set<Signal>
    requires n <= |NESTED|
  {
    if n == 0 then {} else FirstNested(engine, p, n - 1, fold) + NestedSignals(engine, p, NESTED[n - 1], fold)
  }

  /** A mode is recognised when something is said, and all of it is the same. */
  function Recognised(signals: set<Signal>): Option<Mode> {
    if signals == {Says(Thinking)} then Some(Thinking)
    else if signals == {Says(NonThinking)} then Some(NonThinking)
    else None
  }

  datatype Control = Effort(v: Value) | EnabledFlag(v: Value)

  function ControlSignal(engine: Engine, c: Control, fold: string -> string): Signal {
    match c
    case Effort(v) => EffortSignal(engine, v, fold)
    case EnabledFlag(v) => EnabledSignal(v)
  }

  function Said(engine: Engine, controls: seq<Control>, fold: string -> string): set<Signal> {
    set i | 0 <= i < |controls| :: ControlSignal(engine, controls[i], fold)
  }

  lemma SaidOneMore(engine: Engine, controls: seq<Control>, c: Control, fold: string -> string)
    ensures Said(engine, controls + [c], fold) == Said(engine, controls, fold) + {ControlSignal(engine, c, fold)}
  {
    var longer := controls + [c];
    assert longer[|controls|] == c;
    forall s | s in Said(engine, controls, fold)
      ensures s in Said(engine, longer, fold)
    {
      var i :| 0 <= i < |controls| && ControlSignal(engine, controls[i], fold) == s;
      assert longer[i] == controls[i];
    }
  }

  /** The controls of one nested object; none at all when one of them is beyond reading. */
  method ReadObject(engine: Engine, key: string, fields: Fields, fold: string -> string, before: seq<Control>)
    returns (controls: Option<seq<Control>>)
    requires key != "thinking" && (key == "template_vars" ==> engine.Tabby?)
    ensures controls.None? ==> Unclear in ObjectSignals(engine, key, fields, fold)
    ensures controls.Some? ==>
              Said(engine, controls.value, fold)
              == Said(engine, before, fold) + ObjectSignals(engine, key, fields, fold)
  {
    var found := before;
    var todo := fields.Keys;
    ghost var effort, enabled := EffortField(key), EnabledField(key);
    while todo != {}
      invariant todo <= fields.Keys
      invariant Said(engine, found, fold)
                == Said(engine, before, fold)
                   + (if effort in fields && effort !in todo then {NestedEffort(engine, key, fields[effort], fold)} else {})
                   + (if enabled in fields && enabled !in todo then NestedEnabled(engine, key, fields[enabled]) else {})
      decreases todo
    {
      var name :| name in todo;
      todo := todo - {name};
      var value := fields[name];
      if name == EffortField(key) {
        if engine.Prism? && (key == "reasoning" || value == Str("none")) {
          return None;
        }
        SaidOneMore(engine, found, Effort(value), fold);
        found := found + [Effort(value)];
      } else if name == EnabledField(key) {
        if key == "reasoning" && !engine.Tabby? {
          return None;
        }
        if engine.Strata? && value == Bool(true) {
          continue;
        }
        SaidOneMore(engine, found, EnabledFlag(value), fold);
        found := found + [EnabledFlag(value)];
      }
    }
    return Some(found);
  }

  /** Recognises the mode that every control agrees on. */
  method RecogniseMode(p: Fields, engine: Engine, fold: string -> string) returns (mode: Option<Mode>)
    ensures mode == Recognised(Signals(engine, p, fold))
  {
    var top := ReadTop(p, engine, fold);
    if top.None? {
      return None;
    }
    var all := ReadNested(p, engine, fold, top.value);
    if all.None? {
      return None;
    }
    mode := Agreement(engine, all.value, fold);
  }

  method ReadTop(p: Fields, engine: Engine, fold: string -> string) returns (controls: Option<seq<Control>>)
    ensures controls.None? ==> Unclear in TopSignals(engine, p, fold)
    ensures controls.Some? ==> Said(engine, controls.value, fold) == TopSignals(engine, p, fold)
  {
    var found: seq<Control> := [];
    if "reasoning_effort" in p {
      SaidOneMore(engine, found, Effort(p["reasoning_effort"]), fold);
      found := found + [Effort(p["reasoning_effort"])];
    }
    if "enable_thinking" in p {
      if !engine.Tabby? {
        return None;
      }
      SaidOneMore(engine, found, EnabledFlag(p["enable_thinking"]), fold);
      found := found + [EnabledFlag(p["enable_thinking"])];
    }
    return Some(found);
  }

  method ReadNested(p: Fields, engine: Engine, fold: string -> string, before: seq<Control>)
    returns (controls: Option<seq<Control>>)
    ensures controls.None? ==> Unclear in FirstNested(engine, p, |NESTED|, fold)
    ensures controls.Some? ==>
              Said(engine, controls.value, fold)
              == Said(engine, before, fold) + FirstNested(engine, p, |NESTED|, fold)
  {
    var found := before;
    var i := 0;
    while i < |NESTED|
      invariant 0 <= i <= |NESTED|
      invariant Said(engine, found, fold) == Said(engine, before, fold) + FirstNested(engine, p, i, fold)
    {
      var more := ReadOne(p, engine, fold, NESTED[i], found);
      if more.None? {
        NestedCount(engine, p, i + 1, |NESTED|, fold);
        return None;
      }
      found := more.value;
      i := i + 1;
    }
    return Some(found);
  }

  method ReadOne(p: Fields, engine: Engine, fold: string -> string, key: string, before: seq<Control>)
    returns (controls: Option<seq<Control>>)
    ensures controls.None? ==> Unclear in NestedSignals(engine, p, key, fold)
    ensures controls.Some? ==>
              Said(engine, controls.value, fold)
              == Said(engine, before, fold) + NestedSignals(engine, p, key, fold)
  {
    if Skipped(engine, p, key) {
      return Some(before);
    }
    if !p[key].Obj? || key == "thinking" || (key == "template_vars" && !engine.Tabby?) {
      return None;
    }
    controls := ReadObject(engine, key, p[key].fields, fold, before);
  }

  lemma {:induction false} NestedCount(engine: Engine, p: Fields, i: nat, n: nat, fold: string -> string)
    requires 0 < i <= n <= |NESTED| && Unclear in NestedSignals(engine, p, NESTED[i - 1], fold)
    ensures Unclear in FirstNested(engine, p, n, fold)
  {
    if i < n {
      NestedCount(engine, p, i, n - 1, fold);
    }
  }

  method Agreement(engine: Engine, controls: seq<Control>, fold: string -> string) returns (mode: Option<Mode>)
    ensures mode == Recognised(Said(engine, controls, fold))
  {
    var modes: set<Mode> := {};
    var i := 0;
    while i < |controls|
      invariant 0 <= i <= |controls|
      invariant forall m :: m in modes <==> Says(m) in Said(engine, controls[..i], fold)
      invariant Unclear !in Said(engine, controls[..i], fold)
    {
      var signal := ControlSignal(engine, controls[i], fold);
      assert controls[..i + 1] == controls[..i] + [controls[i]];
      SaidOneMore(engine, controls[..i], controls[i], fold);
      if signal.Unclear? {
        assert Unclear in Said(engine, controls, fold);
        return None;
      }
      modes := modes + {signal.mode};
      i := i + 1;
    }
    assert controls[..|controls|] == controls;
    ghost var said := Said(engine, controls, fold);
    assert forall s :: s in said ==> s == Says(Thinking) || s == Says(NonThinking);
    if modes == {Thinking} {
      assert said == {Says(Thinking)};
      return Some(Thinking);
    }
    if modes == {NonThinking} {
      assert said == {Says(NonThinking)};
      return Some(NonThinking);
    }
    return None;
  }

  // ---------------------------------------------------------------- the profile

  predicate HasThinkingControl(p: Fields) {
    || Any(p, BUDGET_ALIASES)
    || Any(p, ["reasoning_effort", "enable_thinking", "reasoning", "thinking"])
    || NestedControl(p, "chat_template_kwargs")
    || NestedControl(p, "template_vars")
  }

  predicate NestedControl(p: Fields, key: string) {
    key in p
    && (!p[key].Obj? || Any(p[key].fields, ["enable_thinking", "reasoning_effort"] + BUDGET_ALIASES))
  }

  function Wire(engine: Engine, key: string): string {
    if key == "repetition_penalty" && engine.Prism? then "repeat_penalty" else key
  }

  function Aliases(engine: Engine, key: string): seq<string> {
    if key == "repetition_penalty" then REPETITION_ALIASES else [Wire(engine, key)]
  }

  /** The caller left this parameter open, under every name it has. */
  predicate Open(engine: Engine, p: Fields, key: string) {
    && !(key == "reasoning_budget_tokens" && HasThinkingControl(p))
    && !Any(p, Aliases(engine, key))
  }

  function Defaults(profile: Profile, mode: Option<Mode>): Fields {
    profile.defaults
    + match mode
      case None => map[]
      case Some(Thinking) => profile.thinking
      case Some(NonThinking) => profile.nonThinking
  }

  function KeyOf(engine: Engine, wire: string): string {
    if engine.Prism? && wire == "repeat_penalty" then "repetition_penalty" else wire
  }

  /** The open parameters, under the names the engine knows them by. */
  function Filled(engine: Engine, p: Fields, defaults: Fields): Fields {
    map w | w in (set k | k in defaults && Open(engine, p, k) :: Wire(engine, k)) && KeyOf(engine, w) in defaults ::
      defaults[KeyOf(engine, w)]
  }

  function RepetitionWire(engine: Engine): string {
    Wire(engine, "repetition_penalty")
  }

  function OtherNames(engine: Engine): seq<string> {
    if engine.Tabby? then ["rep_pen", "repeat_penalty"] else REPETITION_ALIASES
  }

  /** A caller's repetition penalty under another name, repeated under the engine's. */
  function Translated(engine: Engine, p: Fields): Fields {
    if RepetitionWire(engine) !in p && Any(p, OtherNames(engine))
    then map[RepetitionWire(engine) := First(p, OtherNames(engine))]
    else map[]
  }

  function AppliedWith(engine: Engine, p: Fields, defaults: Fields): Fields {
    p + Filled(engine, p, defaults) + Translated(engine, p)
  }

  function Applied(engine: Engine, p: Fields, profile: Profile, fold: string -> string): Fields {
    AppliedWith(engine, p, Defaults(profile, Recognised(Signals(engine, p, fold))))
  }

  lemma DefaultsSupported(profile: Profile, mode: Option<Mode>)
    requires Supported(profile)
    ensures Defaults(profile, mode).Keys <= PARAMETERS
  {
  }

  method Apply(p: Fields, engine: Engine, profile: Profile, fold: string -> string) returns (result: Fields)
    requires Supported(profile)
    ensures result == Applied(engine, p, profile, fold)
  {
    var mode := RecogniseMode(p, engine, fold);
    DefaultsSupported(profile, mode);
    result := ApplyDefaults(p, engine, Defaults(profile, mode));
  }

  method ApplyDefaults(p: Fields, engine: Engine, defaults: Fields) returns (result: Fields)
    requires defaults.Keys <= PARAMETERS
    ensures result == AppliedWith(engine, p, defaults)
  {
    result := Fill(p, engine, defaults);
    result := Translate(p, engine, result);
  }

  method Translate(p: Fields, engine: Engine, filled: Fields) returns (result: Fields)
    ensures result == filled + Translated(engine, p)
  {
    result := filled;
    var wire := RepetitionWire(engine);
    if wire !in p && Any(p, OtherNames(engine)) {
      result := result[wire := First(p, OtherNames(engine))];
      assert result == filled + map[wire := First(p, OtherNames(engine))];
    } else {
      assert result == filled + map[];
    }
  }

  /** Fills the open parameters one by one, in any order. */
  method Fill(p: Fields, engine: Engine, defaults: Fields) returns (result: Fields)
    requires defaults.Keys <= PARAMETERS
    ensures result == p + Filled(engine, p, defaults)
  {
    result := p;
    ghost var added: Fields := map[];
    var todo := defaults.Keys;
    while todo != {}
      invariant todo <= defaults.Keys
      invariant result == p + added
      invariant Subset(added, Filled(engine, p, defaults))
      invariant AllAdded(engine, p, defaults.Keys - todo, added)
      decreases todo
    {
      var key :| key in todo;
      result, added := FillOne(p, engine, defaults, key, result, added, defaults.Keys - todo);
      assert defaults.Keys - (todo - {key}) == (defaults.Keys - todo) + {key};
      todo := todo - {key};
    }
    assert defaults.Keys - {} == defaults.Keys;
    AllFilled(engine, p, defaults, added);
  }

  predicate AllAdded(engine: Engine, p: Fields, keys: set<string>, added: Fields) {
    forall k :: k in keys && Open(engine, p, k) ==> Wire(engine, k) in added
  }

  method FillOne(p: Fields, engine: Engine, defaults: Fields, key: string, result: Fields, ghost added: Fields,
                 ghost keys: set<string>)
    returns (result': Fields, ghost added': Fields)
    requires defaults.Keys <= PARAMETERS && key in defaults
    requires result == p + added && Subset(added, Filled(engine, p, defaults))
    requires AllAdded(engine, p, keys, added)
    ensures result' == p + added' && Subset(added', Filled(engine, p, defaults))
    ensures AllAdded(engine, p, keys + {key}, added')
  {
    result', added' := result, added;
    if Open(engine, p, key) {
      FilledAt(engine, p, defaults, key);
      GrowSubset(added, Filled(engine, p, defaults), Wire(engine, key), defaults[key]);
      AddedKey(engine, p, keys, added, key, defaults[key]);
      result' := result[Wire(engine, key) := defaults[key]];
      added' := added[Wire(engine, key) := defaults[key]];
      AddLast(p, added, Wire(engine, key), defaults[key]);
    }
  }

  lemma AddLast(p: Fields, added: Fields, wire: string, v: Value)
    ensures (p + added)[wire := v] == p + added[wire := v]
  {
  }

  lemma GrowSubset(part: Fields, whole: Fields, wire: string, v: Value)
    requires Subset(part, whole) && wire in whole && whole[wire] == v
    ensures Subset(part[wire := v], whole)
  {
  }

  lemma AddedKey(engine: Engine, p: Fields, keys: set<string>, added: Fields, key: string, v: Value)
    requires AllAdded(engine, p, keys, added)
    ensures AllAdded(engine, p, keys + {key}, added[Wire(engine, key) := v])
  {
  }

  predicate Subset(part: Fields, whole: Fields) {
    forall f :: f in part ==> f in whole && part[f] == whole[f]
  }

  lemma AllFilled(engine: Engine, p: Fields, defaults: Fields, added: Fields)
    requires Subset(added, Filled(engine, p, defaults))
    requires AllAdded(engine, p, defaults.Keys, added)
    ensures added == Filled(engine, p, defaults)
  {
    forall f | f in Filled(engine, p, defaults)
      ensures f in added
    {
      var k := FilledFrom(engine, p, defaults, f);
    }
  }

  lemma FilledAt(engine: Engine, p: Fields, defaults: Fields, key: string)
    requires defaults.Keys <= PARAMETERS && key in defaults && Open(engine, p, key)
    ensures var wire, full := Wire(engine, key), Filled(engine, p, defaults);
            wire in full && full[wire] == defaults[key]
  {
    assert KeyOf(engine, Wire(engine, key)) == key;
  }

  lemma FilledFrom(engine: Engine, p: Fields, defaults: Fields, wire: string) returns (key: string)
    requires wire in Filled(engine, p, defaults)
    ensures key in defaults && Open(engine, p, key) && Wire(engine, key) == wire
  {
    key :| key in defaults && Open(engine, p, key) && Wire(engine, key) == wire;
  }

  lemma OpenIsNew(engine: Engine, p: Fields, key: string)
    requires Open(engine, p, key)
    ensures Wire(engine, key) !in p
  {
    var names := Aliases(engine, key);
    assert names[0] == Wire(engine, key) || names[1] == Wire(engine, key);
  }

  lemma FilledIsNew(engine: Engine, p: Fields, defaults: Fields)
    ensures Filled(engine, p, defaults).Keys !! p.Keys
  {
    forall w | w in Filled(engine, p, defaults)
      ensures w !in p
    {
      var k := FilledFrom(engine, p, defaults, w);
      OpenIsNew(engine, p, k);
    }
  }

  // ---------------------------------------------------------------- laws

  /** Whatever the caller sent is sent on as it was. */
  lemma CallerWins(engine: Engine, p: Fields, profile: Profile, fold: string -> string, key: string)
    requires key in p
    ensures key in Applied(engine, p, profile, fold) && Applied(engine, p, profile, fold)[key] == p[key]
  {
    FilledIsNew(engine, p, Defaults(profile, Recognised(Signals(engine, p, fold))));
  }

  /** No budget is filled in for a caller who controls thinking in any way. */
  lemma ControlsKeepTheirBudget(engine: Engine, p: Fields, profile: Profile, fold: string -> string)
    requires !Leaves(p)
    ensures "reasoning_budget_tokens" in Applied(engine, p, profile, fold) <==> "reasoning_budget_tokens" in p
  {
    ControlsExactly(p);
    var defaults := Defaults(profile, Recognised(Signals(engine, p, fold)));
    if "reasoning_budget_tokens" in Filled(engine, p, defaults) {
      var k := FilledFrom(engine, p, defaults, "reasoning_budget_tokens");
    }
  }

  /** A conflict, or one unclear control, selects no mode: only the plain defaults are filled in. */
  lemma UnclearSelectsNothing(engine: Engine, p: Fields, profile: Profile, fold: string -> string)
    requires var said := Signals(engine, p, fold);
             Unclear in said || (Says(Thinking) in said && Says(NonThinking) in said)
    ensures Applied(engine, p, profile, fold) == AppliedWith(engine, p, profile.defaults)
  {
    NotRecognised(Signals(engine, p, fold));
    assert profile.defaults + map[] == profile.defaults;
  }

  lemma NotRecognised(said: set<Signal>)
    requires Unclear in said || (Says(Thinking) in said && Says(NonThinking) in said)
    ensures Recognised(said) == None
  {
    assert Says(Thinking) in said ==> said != {Says(NonThinking)};
    assert Says(NonThinking) in said ==> said != {Says(Thinking)};
    assert Unclear in said ==> said != {Says(Thinking)} && said != {Says(NonThinking)};
  }

  /** What is filled in says nothing about thinking. */
  lemma SameSignals(engine: Engine, p: Fields, q: Fields, fold: string -> string)
    requires forall k :: k in p ==> k in q && q[k] == p[k]
    requires forall k :: k in q && k !in p ==> k in PARAMETERS || k == "repeat_penalty"
    ensures Signals(engine, q, fold) == Signals(engine, p, fold)
  {
    forall i | 0 <= i < |NESTED|
      ensures NestedSignals(engine, q, NESTED[i], fold) == NestedSignals(engine, p, NESTED[i], fold)
    {
    }
    SameNested(engine, p, q, |NESTED|, fold);
  }

  lemma {:induction false} SameNested(engine: Engine, p: Fields, q: Fields, n: nat, fold: string -> string)
    requires n <= |NESTED|
    requires forall i :: 0 <= i < |NESTED| ==>
               NestedSignals(engine, q, NESTED[i], fold) == NestedSignals(engine, p, NESTED[i], fold)
    ensures FirstNested(engine, q, n, fold) == FirstNested(engine, p, n, fold)
  {
    if n > 0 {
      SameNested(engine, p, q, n - 1, fold);
    }
  }

  lemma AnyGrows(p: Fields, q: Fields, keys: seq<string>)
    requires p.Keys <= q.Keys
    ensures Any(p, keys) ==> Any(q, keys)
  {
  }

  lemma OnlyParametersAdded(engine: Engine, p: Fields, defaults: Fields, f: string)
    requires defaults.Keys <= PARAMETERS
    requires f in AppliedWith(engine, p, defaults) && f !in p
    ensures f in PARAMETERS || f == "repeat_penalty"
  {
    if f in Filled(engine, p, defaults) {
      var k := FilledFrom(engine, p, defaults, f);
    }
  }

  /** After one pass no parameter of the profile is open any more. */
  lemma NothingLeftOpen(engine: Engine, p: Fields, defaults: Fields, key: string)
    requires defaults.Keys <= PARAMETERS && key in defaults
    ensures !Open(engine, AppliedWith(engine, p, defaults), key)
  {
    var q := AppliedWith(engine, p, defaults);
    if Open(engine, p, key) {
      var names := Aliases(engine, key);
      assert KeyOf(engine, Wire(engine, key)) == key;
      assert Wire(engine, key) in Filled(engine, p, defaults);
      assert names[0] == Wire(engine, key) || names[1] == Wire(engine, key);
      assert Any(q, names);
    } else if Any(p, Aliases(engine, key)) {
      AnyGrows(p, q, Aliases(engine, key));
    } else {
      ControlsStay(engine, p, defaults);
    }
  }

  lemma ControlsStay(engine: Engine, p: Fields, defaults: Fields)
    requires HasThinkingControl(p)
    ensures HasThinkingControl(AppliedWith(engine, p, defaults))
  {
    var q := AppliedWith(engine, p, defaults);
    FilledIsNew(engine, p, defaults);
    AnyGrows(p, q, BUDGET_ALIASES);
    AnyGrows(p, q, ["reasoning_effort", "enable_thinking", "reasoning", "thinking"]);
  }

  /** A request that a profile has filled in is left alone by it. */
  lemma AppliedOnce(engine: Engine, p: Fields, profile: Profile, fold: string -> string)
    requires Supported(profile)
    ensures var q := Applied(engine, p, profile, fold); Applied(engine, q, profile, fold) == q
  {
    var defaults := Defaults(profile, Recognised(Signals(engine, p, fold)));
    DefaultsSupported(profile, Recognised(Signals(engine, p, fold)));
    SignalsStay(engine, p, defaults, fold);
    FilledOnce(engine, p, defaults);
  }

  lemma SignalsStay(engine: Engine, p: Fields, defaults: Fields, fold: string -> string)
    requires defaults.Keys <= PARAMETERS
    ensures Signals(engine, AppliedWith(engine, p, defaults), fold) == Signals(engine, p, fold)
  {
    var q := AppliedWith(engine, p, defaults);
    FilledIsNew(engine, p, defaults);
    forall f | f in q && f !in p
      ensures f in PARAMETERS || f == "repeat_penalty"
    {
      OnlyParametersAdded(engine, p, defaults, f);
    }
    SameSignals(engine, p, q, fold);
  }

  lemma FilledOnce(engine: Engine, p: Fields, defaults: Fields)
    requires defaults.Keys <= PARAMETERS
    ensures var q := AppliedWith(engine, p, defaults); AppliedWith(engine, q, defaults) == q
  {
    var q := AppliedWith(engine, p, defaults);
    forall k | k in defaults
      ensures !Open(engine, q, k)
    {
      NothingLeftOpen(engine, p, defaults, k);
    }
    NothingFilled(engine, q, defaults);
    TranslatedOnce(engine, p, defaults);
    NothingAdded(engine, q, defaults);
  }

  lemma NothingFilled(engine: Engine, q: Fields, defaults: Fields)
    requires forall k :: k in defaults ==> !Open(engine, q, k)
    ensures Filled(engine, q, defaults) == map[]
  {
  }

  lemma NothingAdded(engine: Engine, q: Fields, defaults: Fields)
    requires Filled(engine, q, defaults) == map[] && Translated(engine, q) == map[]
    ensures AppliedWith(engine, q, defaults) == q
  {
    assert q + map[] == q;
  }

  lemma TranslatedOnce(engine: Engine, p: Fields, defaults: Fields)
    requires defaults.Keys <= PARAMETERS
    ensures Translated(engine, AppliedWith(engine, p, defaults)) == map[]
  {
    var q := AppliedWith(engine, p, defaults);
    if RepetitionWire(engine) !in q && Any(q, OtherNames(engine)) {
      var names := OtherNames(engine);
      var i :| 0 <= i < |names| && names[i] in q;
      NewNames(engine, p, defaults, names[i], i);
      assert false;
    }
  }

  /** Another name for the repetition penalty is only ever the caller's. */
  lemma NewNames(engine: Engine, p: Fields, defaults: Fields, name: string, i: nat)
    requires defaults.Keys <= PARAMETERS
    requires i < |OtherNames(engine)| && OtherNames(engine)[i] == name
    requires name in AppliedWith(engine, p, defaults)
    ensures RepetitionWire(engine) in AppliedWith(engine, p, defaults)
  {
    if name in p {
      assert Any(p, OtherNames(engine));
    } else if name in Filled(engine, p, defaults) {
      var k := FilledFrom(engine, p, defaults, name);
      assert i < |REPETITION_ALIASES|;
      RepetitionKey(engine, k, name);
    }
  }

  lemma RepetitionKey(engine: Engine, key: string, name: string)
    requires key in PARAMETERS && Wire(engine, key) == name
    requires name == "repetition_penalty" || name == "repeat_penalty" || name == "rep_pen"
    ensures key == "repetition_penalty"
  {
  }

  // ---------------------------------------------------------------- what a caller gets

  const CONTROLS: set<string> := {
    "reasoning_effort", "enable_thinking", "reasoning", "chat_template_kwargs", "template_vars", "thinking"}

  /** The only thing that the request says about thinking is said by this field. */
  predicate SaysOnly(p: Fields, key: string) {
    key in p && forall k :: k in CONTROLS && k != key ==> k !in p
  }

  lemma NothingNested(engine: Engine, p: Fields, fold: string -> string)
    requires forall i :: 0 <= i < |NESTED| ==> NESTED[i] !in p
    ensures FirstNested(engine, p, |NESTED|, fold) == {}
  {
    NoneNested(engine, p, |NESTED|, fold);
  }

  lemma {:induction false} NoneNested(engine: Engine, p: Fields, n: nat, fold: string -> string)
    requires n <= |NESTED| && forall i :: 0 <= i < |NESTED| ==> NESTED[i] !in p
    ensures FirstNested(engine, p, n, fold) == {}
  {
    if n > 0 {
      NoneNested(engine, p, n - 1, fold);
    }
  }

  /** A request that says nothing about thinking runs in no mode. */
  lemma NothingSaid(engine: Engine, p: Fields, fold: string -> string)
    requires forall k :: k in CONTROLS ==> k !in p
    ensures Recognised(Signals(engine, p, fold)).None?
  {
    NothingNested(engine, p, fold);
    assert Signals(engine, p, fold) == {};
  }

  /** An effort alone, by its name: Prism takes it as it is and knows fewer names. */
  lemma EffortAlone(engine: Engine, p: Fields, effort: string, fold: string -> string)
    requires SaysOnly(p, "reasoning_effort") && p["reasoning_effort"] == Str(effort)
    ensures var mode := Recognised(Signals(engine, p, fold));
            && (engine.Prism? ==>
                  && (mode == Some(Thinking) <==> effort in {"low", "medium", "xhigh"})
                  && (mode == Some(NonThinking) <==> effort == "none"))
            && (!engine.Prism? ==>
                  && (mode == Some(Thinking) <==> fold(effort) in {"low", "medium", "high", "xhigh"})
                  && (mode == Some(NonThinking) <==> fold(effort) in {"none", "off"}))
  {
    NothingNested(engine, p, fold);
    var signal := EffortSignal(engine, Str(effort), fold);
    assert Signals(engine, p, fold) == {signal};
    OneSignal(signal);
  }

  /** A switch alone: only TabbyAPI has one at the top, and only a boolean counts. */
  lemma SwitchAlone(engine: Engine, p: Fields, fold: string -> string)
    requires SaysOnly(p, "enable_thinking")
    ensures var mode := Recognised(Signals(engine, p, fold));
            && (mode == Some(Thinking) <==> engine.Tabby? && p["enable_thinking"] == Bool(true))
            && (mode == Some(NonThinking) <==> engine.Tabby? && p["enable_thinking"] == Bool(false))
  {
    NothingNested(engine, p, fold);
    var signal := if engine.Tabby? then EnabledSignal(p["enable_thinking"]) else Unclear;
    assert Signals(engine, p, fold) == {signal};
    OneSignal(signal);
  }

  lemma OneSignal(signal: Signal)
    ensures Recognised({signal}) == match signal case Says(mode) => Some(mode) case Unclear => None
  {
    var only := {signal};
    if only == {Says(Thinking)} {
      assert Says(Thinking) in only;
    }
    if only == {Says(NonThinking)} {
      assert Says(NonThinking) in only;
    }
    match signal {
      case Says(mode) => assert mode == Thinking || mode == NonThinking;
      case Unclear => assert Recognised(only).None?;
    }
  }

  /** The default for a parameter: the mode's, where the mode has one, else the plain one. */
  lemma ModeBeforePlain(profile: Profile, mode: Option<Mode>, key: string)
    ensures var defaults := Defaults(profile, mode);
            && (mode == Some(Thinking) && key in profile.thinking ==>
                  key in defaults && defaults[key] == profile.thinking[key])
            && (mode == Some(NonThinking) && key in profile.nonThinking ==>
                  key in defaults && defaults[key] == profile.nonThinking[key])
            && ((mode == Some(Thinking) ==> key !in profile.thinking)
                && (mode == Some(NonThinking) ==> key !in profile.nonThinking) ==>
                  (key in defaults <==> key in profile.defaults)
                  && (key in defaults ==> defaults[key] == profile.defaults[key]))
  {
  }

  /** Where the engine listens: TabbyAPI does not hear chat_template_kwargs beside template_vars. */
  predicate Heard(engine: Engine, p: Fields, key: string) {
    key in CONTROLS && key in p && !(engine.Tabby? && key == "chat_template_kwargs" && "template_vars" in p)
  }

  /** What a request says is what its controls say one by one: nothing is lost and nothing is added. */
  lemma ControlsAdd(engine: Engine, p: Fields, fold: string -> string, signal: Signal)
    ensures signal in Signals(engine, p, fold)
            <==> exists key :: Heard(engine, p, key) && signal in Signals(engine, map[key := p[key]], fold)
  {
    forall key | Heard(engine, p, key)
      ensures Signals(engine, map[key := p[key]], fold) <= Signals(engine, p, fold)
    {
      HeardCounts(engine, p, key, fold);
    }
    if signal in Signals(engine, p, fold) {
      var key := Speaker(engine, p, fold, signal);
      Alone(engine, p, key, fold);
      assert Heard(engine, p, key);
    }
  }

  lemma HeardCounts(engine: Engine, p: Fields, key: string, fold: string -> string)
    requires Heard(engine, p, key)
    ensures Signals(engine, map[key := p[key]], fold) <= Signals(engine, p, fold)
  {
    Alone(engine, p, key, fold);
    FourNested(engine, p, fold);
    if key !in NESTED {
      assert NESTED[0] == "reasoning" && NESTED[1] == "chat_template_kwargs";
      assert NESTED[2] == "template_vars" && NESTED[3] == "thinking";
      assert TopSignal(engine, key, p[key], fold) <= TopSignals(engine, p, fold);
    }
  }

  /** A field at the top that says this. */
  lemma Speaker(engine: Engine, p: Fields, fold: string -> string, signal: Signal) returns (key: string)
    requires signal in Signals(engine, p, fold)
    ensures Heard(engine, p, key)
    ensures signal in if key in NESTED then NestedSignals(engine, p, key, fold) else TopSignal(engine, key, p[key], fold)
  {
    FourNested(engine, p, fold);
    if signal in TopSignals(engine, p, fold) {
      key := if "reasoning_effort" in p && signal in TopSignal(engine, "reasoning_effort", p["reasoning_effort"], fold)
             then "reasoning_effort" else "enable_thinking";
    } else {
      key := if signal in NestedSignals(engine, p, "reasoning", fold) then "reasoning"
             else if signal in NestedSignals(engine, p, "chat_template_kwargs", fold) then "chat_template_kwargs"
             else if signal in NestedSignals(engine, p, "template_vars", fold) then "template_vars" else "thinking";
      assert NESTED[0] == "reasoning" && NESTED[1] == "chat_template_kwargs";
      assert NESTED[2] == "template_vars" && NESTED[3] == "thinking";
    }
  }

  function TopSignal(engine: Engine, key: string, v: Value, fold: string -> string): set<Signal> {
    if key == "reasoning_effort" then {EffortSignal(engine, v, fold)}
    else {if engine.Tabby? then EnabledSignal(v) else Unclear}
  }

  lemma Alone(engine: Engine, p: Fields, key: string, fold: string -> string)
    requires Heard(engine, p, key)
    ensures Signals(engine, map[key := p[key]], fold)
            == if key in NESTED then NestedSignals(engine, p, key, fold) else TopSignal(engine, key, p[key], fold)
  {
    var q: Fields := map[key := p[key]];
    FourNested(engine, q, fold);
    assert forall other :: other in CONTROLS && other != key ==> other !in q;
    if key in NESTED {
      assert key !in {"reasoning_effort", "enable_thinking"};
      assert TopSignals(engine, q, fold) == {};
      assert NestedSignals(engine, q, key, fold) == NestedSignals(engine, p, key, fold);
    } else {
      assert key in {"reasoning_effort", "enable_thinking"} by {
        assert NESTED[0] == "reasoning" && NESTED[1] == "chat_template_kwargs";
        assert NESTED[2] == "template_vars" && NESTED[3] == "thinking";
      }
      assert TopSignals(engine, q, fold) == TopSignal(engine, key, p[key], fold);
    }
  }

  lemma FourNested(engine: Engine, p: Fields, fold: string -> string)
    ensures FirstNested(engine, p, |NESTED|, fold)
            == NestedSignals(engine, p, "reasoning", fold) + NestedSignals(engine, p, "chat_template_kwargs", fold)
               + NestedSignals(engine, p, "template_vars", fold) + NestedSignals(engine, p, "thinking", fold)
  {
    assert FirstNested(engine, p, 4, fold)
        == FirstNested(engine, p, 3, fold) + NestedSignals(engine, p, NESTED[3], fold);
    assert FirstNested(engine, p, 3, fold)
        == FirstNested(engine, p, 2, fold) + NestedSignals(engine, p, NESTED[2], fold);
    assert FirstNested(engine, p, 2, fold)
        == FirstNested(engine, p, 1, fold) + NestedSignals(engine, p, NESTED[1], fold);
    assert FirstNested(engine, p, 1, fold)
        == FirstNested(engine, p, 0, fold) + NestedSignals(engine, p, NESTED[0], fold);
  }

  /** The same for the fields of one object that the engine reads. */
  lemma FieldsAdd(engine: Engine, key: string, fields: Fields, fold: string -> string, signal: Signal)
    requires key in {"reasoning", "chat_template_kwargs"} || (key == "template_vars" && engine.Tabby?)
    ensures signal in Signals(engine, map[key := Obj(fields)], fold)
            <==> exists name :: name in fields
                   && signal in Signals(engine, map[key := Obj(map[name := fields[name]])], fold)
  {
    ObjectAlone(engine, key, fields, fold);
    forall name | name in fields
      ensures Signals(engine, map[key := Obj(map[name := fields[name]])], fold)
              == ObjectSignals(engine, key, map[name := fields[name]], fold)
    {
      ObjectAlone(engine, key, map[name := fields[name]], fold);
    }
    if signal in ObjectSignals(engine, key, fields, fold) {
      var name := if EffortField(key) in fields
                     && signal == NestedEffort(engine, key, fields[EffortField(key)], fold)
                  then EffortField(key) else EnabledField(key);
      assert signal in ObjectSignals(engine, key, map[name := fields[name]], fold);
    }
  }

  lemma ObjectAlone(engine: Engine, key: string, fields: Fields, fold: string -> string)
    requires key in {"reasoning", "chat_template_kwargs"} || (key == "template_vars" && engine.Tabby?)
    ensures Signals(engine, map[key := Obj(fields)], fold) == ObjectSignals(engine, key, fields, fold)
  {
    var p: Fields := map[key := Obj(fields)];
    FourNested(engine, p, fold);
    assert forall other :: other in CONTROLS && other != key ==> other !in p;
    assert TopSignals(engine, p, fold) == {};
    assert Signals(engine, p, fold) == NestedSignals(engine, p, key, fold);
  }

  /** A switch inside an object, alone: Strata only obeys an explicit false, reasoning and template_vars are
      TabbyAPI's own, and thinking is understood by none. */
  lemma NestedSwitchAlone(engine: Engine, p: Fields, key: string, fold: string -> string)
    requires key in {"reasoning", "chat_template_kwargs", "template_vars", "thinking"} && SaysOnly(p, key)
    requires p[key].Obj? && "effort" !in p[key].fields && "reasoning_effort" !in p[key].fields
    requires (if key == "reasoning" then "enabled" else "enable_thinking") in p[key].fields
    ensures var v := p[key].fields[if key == "reasoning" then "enabled" else "enable_thinking"];
            var mode := Recognised(Signals(engine, p, fold));
            && (mode == Some(Thinking) <==>
                  v == Bool(true) && key != "thinking" && (engine.Tabby? || (engine.Prism? && key == "chat_template_kwargs")))
            && (mode == Some(NonThinking) <==>
                  v == Bool(false) && key != "thinking" && (engine.Tabby? || key == "chat_template_kwargs"))
  {
    FourNested(engine, p, fold);
    assert Signals(engine, p, fold) == NestedSignals(engine, p, key, fold);
    var signal := if key == "thinking" || (key != "chat_template_kwargs" && !engine.Tabby?) then Unclear
                  else EnabledSignal(p[key].fields[EnabledField(key)]);
    if engine.Strata? && key == "chat_template_kwargs" && p[key].fields[EnabledField(key)] == Bool(true) {
      assert Signals(engine, p, fold) == {};
    } else {
      assert Signals(engine, p, fold) == {signal};
      OneSignal(signal);
    }
  }

  /** An effort inside an object, alone: Prism does not hear reasoning, nor none anywhere but at the top. */
  lemma NestedEffortAlone(engine: Engine, p: Fields, key: string, effort: string, fold: string -> string)
    requires key in {"reasoning", "chat_template_kwargs", "template_vars"} && SaysOnly(p, key)
    requires p[key].Obj? && "enabled" !in p[key].fields && "enable_thinking" !in p[key].fields
    requires var name := if key == "reasoning" then "effort" else "reasoning_effort";
             name in p[key].fields && p[key].fields[name] == Str(effort)
    ensures var mode := Recognised(Signals(engine, p, fold));
            && (engine.Prism? ==>
                  && (mode == Some(Thinking) <==> key == "chat_template_kwargs" && effort in {"low", "medium", "xhigh"})
                  && mode != Some(NonThinking))
            && (!engine.Prism? ==>
                  && (mode == Some(Thinking) <==>
                        (key == "template_vars" ==> engine.Tabby?) && fold(effort) in {"low", "medium", "high", "xhigh"})
                  && (mode == Some(NonThinking) <==>
                        (key == "template_vars" ==> engine.Tabby?) && fold(effort) in {"none", "off"}))
  {
    FourNested(engine, p, fold);
    assert Signals(engine, p, fold) == NestedSignals(engine, p, key, fold);
    var signal := if key == "template_vars" && !engine.Tabby? then Unclear
                  else NestedEffort(engine, key, Str(effort), fold);
    assert Signals(engine, p, fold) == {signal};
    OneSignal(signal);
  }

  /** The request leaves thinking to the profile: no budget under any name, no control, and in the objects
      for the template no field about thinking. */
  predicate Leaves(p: Fields) {
    && (forall k :: k in BUDGETS + {"reasoning_effort", "enable_thinking", "reasoning", "thinking"} ==> k !in p)
    && forall k :: k in {"chat_template_kwargs", "template_vars"} && k in p ==>
         p[k].Obj? && forall f :: f in BUDGETS + {"reasoning_effort", "enable_thinking"} ==> f !in p[k].fields
  }

  const BUDGETS: set<string> := {
    "reasoning_budget_tokens", "reasoning_budget", "thinking_budget",
    "thinking_token_budget", "thinking_budget_tokens"}

  lemma ControlsExactly(p: Fields)
    ensures HasThinkingControl(p) <==> !Leaves(p)
  {
    AnyBudget(p);
    AnyOf(p, ["reasoning_effort", "enable_thinking", "reasoning", "thinking"]);
    NestedExactly(p, "chat_template_kwargs");
    NestedExactly(p, "template_vars");
  }

  lemma AnyOf(p: Fields, keys: seq<string>)
    ensures Any(p, keys) <==> exists k :: k in keys && k in p
  {
  }

  lemma AnyBudget(p: Fields)
    ensures Any(p, BUDGET_ALIASES) <==> exists k :: k in BUDGETS && k in p
  {
    AnyOf(p, BUDGET_ALIASES);
    assert forall k :: k in BUDGET_ALIASES <==> k in BUDGETS;
  }

  lemma NestedExactly(p: Fields, key: string)
    ensures NestedControl(p, key) <==>
              key in p && (!p[key].Obj? || exists f :: f in BUDGETS + {"reasoning_effort", "enable_thinking"} && f in p[key].fields)
  {
    var names := ["enable_thinking", "reasoning_effort"] + BUDGET_ALIASES;
    if key in p && p[key].Obj? {
      AnyOf(p[key].fields, names);
      assert forall k :: k in names <==> k in BUDGETS + {"reasoning_effort", "enable_thinking"};
    }
  }

  /** The name under which the engine knows a parameter. */
  function NameFor(engine: Engine, key: string): string {
    if engine.Prism? && key == "repetition_penalty" then "repeat_penalty" else key
  }

  /** A parameter that the caller gives under none of its names, and that is no budget beside a control of
      thinking, is sent with the default of the caller's mode. */
  lemma OpenParameterFilled(engine: Engine, p: Fields, profile: Profile, fold: string -> string, key: string)
    requires Supported(profile) && NameFor(engine, key) !in p
    requires key == "repetition_penalty" ==> forall name :: name in REPETITION_ALIASES ==> name !in p
    requires key == "reasoning_budget_tokens" ==> Leaves(p)
    ensures var defaults := Defaults(profile, Recognised(Signals(engine, p, fold)));
            key in defaults ==>
              NameFor(engine, key) in Applied(engine, p, profile, fold)
              && Applied(engine, p, profile, fold)[NameFor(engine, key)] == defaults[key]
  {
    var mode := Recognised(Signals(engine, p, fold));
    var defaults := Defaults(profile, mode);
    DefaultsSupported(profile, mode);
    if key in defaults {
      if key == "reasoning_budget_tokens" {
        ControlsExactly(p);
      }
      NotGiven(engine, p, key);
      FilledAt(engine, p, defaults, key);
      NotTranslated(engine, p, key);
      MiddleWins(p, Filled(engine, p, defaults), Translated(engine, p), NameFor(engine, key));
    }
  }

  lemma NotTranslated(engine: Engine, p: Fields, key: string)
    requires key in PARAMETERS && (key == "repetition_penalty" ==> !Any(p, OtherNames(engine)))
    ensures NameFor(engine, key) !in Translated(engine, p)
  {
  }

  lemma MiddleWins(p: Fields, filled: Fields, translated: Fields, name: string)
    requires name in filled && name !in translated
    ensures name in p + filled + translated && (p + filled + translated)[name] == filled[name]
  {
  }

  lemma NotGiven(engine: Engine, p: Fields, key: string)
    requires NameFor(engine, key) !in p
    requires key == "repetition_penalty" ==> forall name :: name in REPETITION_ALIASES ==> name !in p
    requires key == "reasoning_budget_tokens" ==> !HasThinkingControl(p)
    ensures Open(engine, p, key) && Wire(engine, key) == NameFor(engine, key)
    ensures key == "repetition_penalty" ==> !Any(p, OtherNames(engine))
  {
    assert forall i :: 0 <= i < |REPETITION_ALIASES| ==> REPETITION_ALIASES[i] in REPETITION_ALIASES;
    var names := OtherNames(engine);
    assert forall i :: 0 <= i < |names| ==> names[i] in REPETITION_ALIASES;
  }

  /** A repetition penalty under a name that the engine does not read is repeated under the one it does. */
  lemma PenaltyTranslated(engine: Engine, p: Fields, profile: Profile, fold: string -> string)
    ensures var q := Applied(engine, p, profile, fold);
            && (engine.Prism? && "repeat_penalty" !in p && "repetition_penalty" in p ==>
                  "repeat_penalty" in q && q["repeat_penalty"] == p["repetition_penalty"])
            && (engine.Prism? && "repeat_penalty" !in p && "repetition_penalty" !in p && "rep_pen" in p ==>
                  "repeat_penalty" in q && q["repeat_penalty"] == p["rep_pen"])
            && (engine.Tabby? && "repetition_penalty" !in p && "rep_pen" in p ==>
                  "repetition_penalty" in q && q["repetition_penalty"] == p["rep_pen"])
            && (!engine.Prism? && "repetition_penalty" !in p && "repeat_penalty" in p
                && (engine.Tabby? ==> "rep_pen" !in p) ==>
                  "repetition_penalty" in q && q["repetition_penalty"] == p["repeat_penalty"])
  {
    TranslatedName(engine, p);
  }

  lemma TranslatedName(engine: Engine, p: Fields)
    ensures engine.Prism? && "repeat_penalty" !in p && "repetition_penalty" in p ==>
              Translated(engine, p) == map["repeat_penalty" := p["repetition_penalty"]]
    ensures engine.Prism? && "repeat_penalty" !in p && "repetition_penalty" !in p && "rep_pen" in p ==>
              Translated(engine, p) == map["repeat_penalty" := p["rep_pen"]]
    ensures engine.Tabby? && "repetition_penalty" !in p && "rep_pen" in p ==>
              Translated(engine, p) == map["repetition_penalty" := p["rep_pen"]]
    ensures !engine.Prism? && "repetition_penalty" !in p && "repeat_penalty" in p
            && (engine.Tabby? ==> "rep_pen" !in p) ==>
              Translated(engine, p) == map["repetition_penalty" := p["repeat_penalty"]]
  {
    var names := OtherNames(engine);
    if engine.Tabby? {
      TwoNames(p, "rep_pen", "repeat_penalty");
    } else {
      ThreeNames(p, "repetition_penalty", "repeat_penalty", "rep_pen");
    }
  }
}
