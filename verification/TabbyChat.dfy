/** Translating thinking controls for TabbyAPI's chat endpoint. */
module TabbyChat {
  import opened Basics
  import opened Json

  const BUDGET: string := "reasoning_budget_tokens"
  const COMPATIBLE: string := "thinking_budget_tokens"
  const ENABLE: string := "enable_thinking"
  const BUDGET_KEYS: seq<string> := [BUDGET, "reasoning_budget", "thinking_budget", "thinking_token_budget"]
  const OUTPUT_KEYS: seq<string> := ["max_tokens", "max_completion_tokens", "max_length"]

  /** How text is read: as an integer, and stripped and in lower case. */
  datatype Reader = Reader(number: string -> Option<int>, fold: string -> string)

  function Divisor(effort: Option<string>): Option<int> {
    if effort == Some("minimal") then Some(10)
    else if effort == Some("low") then Some(4)
    else if effort == Some("medium") then Some(2)
    else None
  }

  function Integer(v: Value, reader: Reader): Option<int> {
    match v
    case Bool(b) => Some(if b then 1 else 0)
    case Int(i) => Some(i)
    case Real(r) => if r == r.Floor as real then Some(r.Floor) else None
    case Str(s) => reader.number(s)
    case _ => None
  }

  predicate FallsBack(v: Value, reader: Reader) {
    v.Null? || (Integer(v, reader).Some? && Integer(v, reader).value < 0)
  }

  // ---------------------------------------------------------------- what the request says

  function Template(p: Fields): Value {
    First(p, ["template_vars", "chat_template_kwargs"])
  }

  predicate Readable(p: Fields) {
    (Get(p, "reasoning").Null? || Get(p, "reasoning").Obj?) && (Template(p).Null? || Template(p).Obj?)
  }

  function Part(v: Value): Fields {
    if v.Obj? then v.fields else map[]
  }

  function Effort(p: Fields, reader: Reader): Option<string> {
    var nested := Get(Part(Get(p, "reasoning")), "effort");
    var top := if Get(p, "reasoning_effort").Null? then nested else p["reasoning_effort"];
    var template := Part(Template(p));
    var effort := if "reasoning_effort" in template then template["reasoning_effort"] else top;
    if effort.Str? then Some(reader.fold(effort.s)) else None
  }

  function Enabled(p: Fields): Value {
    var nested := Get(Part(Get(p, "reasoning")), "enabled");
    var top := if Get(p, ENABLE).Null? then nested else p[ENABLE];
    var template := Part(Template(p));
    if ENABLE in template then template[ENABLE] else top
  }

  /** A native budget that TabbyAPI itself would not ignore. */
  predicate NativeWins(p: Fields, reader: Reader) {
    !FallsBack(First(p, BUDGET_KEYS), reader) || !FallsBack(Get(Part(Get(p, "reasoning")), "max_tokens"), reader)
  }

  predicate SwitchesOff(p: Fields, reader: Reader) {
    && (Effort(p, reader) == Some("none") || Effort(p, reader) == Some("off"))
    && Enabled(p).Null? && ENABLE !in Part(Template(p))
  }

  predicate MovesBudget(p: Fields, reader: Reader) {
    !NativeWins(p, reader) && COMPATIBLE in p
  }

  /** The budget that follows from the effort, if there is no budget of any kind. */
  function Derived(p: Fields, reader: Reader): Option<int> {
    var limit := Integer(First(p, OUTPUT_KEYS), reader);
    if !NativeWins(p, reader) && COMPATIBLE !in p && !Any(p, BUDGET_KEYS)
       && "max_tokens" !in Part(Get(p, "reasoning")) && Enabled(p) != Bool(false)
       && Divisor(Effort(p, reader)).Some? && limit.Some? && limit.value > 0
    then Some(limit.value / Divisor(Effort(p, reader)).value) else None
  }

  function Switched(p: Fields, reader: Reader): Fields {
    if SwitchesOff(p, reader) then p[ENABLE := Bool(false)] else p
  }

  function Adapted(p: Fields, reader: Reader): Fields {
    if !Readable(p) then p
    else if MovesBudget(p, reader) then (Switched(p, reader) - {COMPATIBLE})[BUDGET := p[COMPATIBLE]]
    else if Derived(p, reader).Some? then Switched(p, reader)[BUDGET := Int(Derived(p, reader).value)]
    else Switched(p, reader)
  }

  predicate Changes(p: Fields, reader: Reader) {
    Readable(p) && (SwitchesOff(p, reader) || MovesBudget(p, reader) || Derived(p, reader).Some?)
  }

  // ---------------------------------------------------------------- the rewriter

  /** Edits the parsed request in place. changed tells whether the bytes must be written again. */
  method Edit(request: Fields, reader: Reader) returns (payload: Fields, changed: bool)
    ensures payload == Adapted(request, reader)
    ensures changed == Changes(request, reader)
  {
    payload, changed := request, false;
    var reasoning := Get(payload, "reasoning");
    var template := First(payload, ["template_vars", "chat_template_kwargs"]);
    if !(reasoning.Null? || reasoning.Obj?) || !(template.Null? || template.Obj?) {
      return;
    }
    var nested, values := Part(reasoning), Part(template);
    var level, enabled := ReadControls(payload, nested, values, reader);
    if (level == Some("none") || level == Some("off")) && enabled.Null? && ENABLE !in values {
      payload := payload[ENABLE := Bool(false)];
      changed := true;
    }
    payload, changed := EditBudget(request, payload, changed, nested, level, enabled, reader);
  }

  /** What the request asks for: its own fields before the nested ones, the template's before all. */
  method ReadControls(payload: Fields, nested: Fields, values: Fields, reader: Reader)
    returns (level: Option<string>, enabled: Value)
    requires nested == Part(Get(payload, "reasoning")) && values == Part(Template(payload))
    ensures level == Effort(payload, reader) && enabled == Enabled(payload)
  {
    var effort := Get(nested, "effort");
    enabled := Get(nested, "enabled");
    if !Get(payload, "reasoning_effort").Null? {
      effort := payload["reasoning_effort"];
    }
    if !Get(payload, ENABLE).Null? {
      enabled := payload[ENABLE];
    }
    if "reasoning_effort" in values {
      effort := values["reasoning_effort"];
    }
    if ENABLE in values {
      enabled := values[ENABLE];
    }
    level := if effort.Str? then Some(reader.fold(effort.s)) else None;
  }

  method EditBudget(ghost request: Fields, switched: Fields, switchedOff: bool, nested: Fields,
                    level: Option<string>, enabled: Value, reader: Reader)
    returns (payload: Fields, changed: bool)
    requires Readable(request) && switched == Switched(request, reader)
    requires switchedOff == SwitchesOff(request, reader)
    requires nested == Part(Get(request, "reasoning"))
    requires level == Effort(request, reader) && enabled == Enabled(request)
    ensures payload == Adapted(request, reader) && changed == Changes(request, reader)
  {
    payload, changed := switched, switchedOff;
    BudgetsUntouched(request, payload);
    var native := First(payload, BUDGET_KEYS);
    var nativeWins := !FallsBack(native, reader) || !FallsBack(Get(nested, "max_tokens"), reader);
    if !nativeWins && COMPATIBLE in payload {
      var budget := payload[COMPATIBLE];
      payload := (payload - {COMPATIBLE})[BUDGET := budget];
      changed := true;
    } else if !nativeWins && !Any(payload, BUDGET_KEYS) && "max_tokens" !in nested
              && enabled != Bool(false) && Divisor(level).Some? {
      var limit := Integer(First(payload, OUTPUT_KEYS), reader);
      if limit.Some? && limit.value > 0 {
        payload := payload[BUDGET := Int(limit.value / Divisor(level).value)];
        changed := true;
      }
    }
  }

  lemma BudgetsUntouched(p: Fields, q: Fields)
    requires q == p || q == p[ENABLE := Bool(false)]
    ensures First(q, BUDGET_KEYS) == First(p, BUDGET_KEYS) && First(q, OUTPUT_KEYS) == First(p, OUTPUT_KEYS)
    ensures Any(q, BUDGET_KEYS) == Any(p, BUDGET_KEYS)
  {
    FirstSame(q, p, BUDGET_KEYS);
    FirstSame(q, p, OUTPUT_KEYS);
  }

  /** From bytes to bytes: what does not parse, is no object or needs no change stays byte for byte. */
  method AdaptChatRequest<Body>(body: Body, loads: Body -> Option<Value>, dumps: Value -> Body, reader: Reader)
    returns (result: Body)
    ensures var parsed := loads(body);
            result == if parsed.Some? && parsed.value.Obj? && Changes(parsed.value.fields, reader)
                      then dumps(Obj(Adapted(parsed.value.fields, reader)))
                      else body
  {
    var parsed := loads(body);
    if parsed.None? || !parsed.value.Obj? {
      return body;
    }
    var payload, changed := Edit(parsed.value.fields, reader);
    return if changed then dumps(Obj(payload)) else body;
  }

  // ---------------------------------------------------------------- laws

  const TOUCHED: set<string> := {ENABLE, BUDGET, COMPATIBLE}

  /** Only three fields can change: the output limits and everything else stay. */
  lemma OthersStay(p: Fields, reader: Reader, key: string)
    requires key !in TOUCHED
    ensures key in Adapted(p, reader) <==> key in p
    ensures key in p ==> Adapted(p, reader)[key] == p[key]
  {
  }

  /** Everything that the rewriter reads, in a request it has already rewritten. */
  lemma SameReading(p: Fields, reader: Reader)
    requires Readable(p)
    ensures var q := Adapted(p, reader);
            && Readable(q) && Effort(q, reader) == Effort(p, reader)
            && Template(q) == Template(p) && Get(q, "reasoning") == Get(p, "reasoning")
            && Enabled(q) == if SwitchesOff(p, reader) then Bool(false) else Enabled(p)
  {
    var q := Adapted(p, reader);
    FirstSame(q, p, ["template_vars", "chat_template_kwargs"]);
  }

  /** A rewritten request is left alone. */
  lemma AdaptedOnce(p: Fields, reader: Reader)
    ensures !Changes(Adapted(p, reader), reader)
    ensures Adapted(Adapted(p, reader), reader) == Adapted(p, reader)
  {
    if Readable(p) {
      var q := Adapted(p, reader);
      SameReading(p, reader);
      assert !SwitchesOff(q, reader);
      if MovesBudget(p, reader) || Derived(p, reader).Some? {
        assert BUDGET_KEYS[0] in q;
        assert COMPATIBLE !in q;
      } else {
        BudgetsUntouched(p, q);
      }
    }
  }

  /** On bytes: rewriting twice is rewriting once, for any codec that reads back what it writes. */
  method AdaptTwice<Body>(body: Body, loads: Body -> Option<Value>, dumps: Value -> Body, reader: Reader)
    returns (once: Body, twice: Body)
    requires forall fields :: loads(dumps(Obj(fields))) == Some(Obj(fields))
    ensures twice == once
    ensures loads(body).Some? && loads(body).value.Obj? ==>
              loads(once) == Some(Obj(Adapted(loads(body).value.fields, reader)))
  {
    once := AdaptChatRequest(body, loads, dumps, reader);
    twice := AdaptChatRequest(once, loads, dumps, reader);
    if loads(body).Some? && loads(body).value.Obj? {
      AdaptedOnce(loads(body).value.fields, reader);
    }
  }

  /** A budget is derived only where no budget of any name is given, from the first output limit, and it
      is that share of it, rounded down. */
  lemma DerivedBudget(p: Fields, reader: Reader)
    requires Derived(p, reader).Some?
    ensures var budget, limit := Derived(p, reader).value, Integer(First(p, OUTPUT_KEYS), reader).value;
            var share := Divisor(Effort(p, reader)).value;
            && share in {2, 4, 10}
            && 0 <= share * budget <= limit < share * (budget + 1)
            && budget < limit
            && (forall i :: 0 <= i < |BUDGET_KEYS| ==> BUDGET_KEYS[i] !in p)
            && COMPATIBLE !in p && "max_tokens" !in Part(Get(p, "reasoning"))
    ensures Readable(p) ==> Get(Adapted(p, reader), BUDGET) == Int(Derived(p, reader).value)
  {
  }

  /** A native budget that TabbyAPI honours is never overridden. */
  lemma NativeBudgetWins(p: Fields, reader: Reader, i: nat)
    requires i < |BUDGET_KEYS| && BUDGET_KEYS[i] in p
    requires First(p, BUDGET_KEYS) == p[BUDGET_KEYS[i]] && !FallsBack(p[BUDGET_KEYS[i]], reader)
    ensures var q := Adapted(p, reader);
            First(q, BUDGET_KEYS) == First(p, BUDGET_KEYS)
            && (COMPATIBLE in p ==> COMPATIBLE in q && q[COMPATIBLE] == p[COMPATIBLE])
  {
    BudgetsUntouched(p, Switched(p, reader));
  }

  /** The client's budget under the compatible name takes the place of one that TabbyAPI would ignore,
      and then it is the one that counts. */
  lemma CompatibleBudgetCounts(p: Fields, reader: Reader)
    requires Readable(p) && COMPATIBLE in p && !NativeWins(p, reader)
    ensures First(Adapted(p, reader), BUDGET_KEYS) == p[COMPATIBLE]
    ensures COMPATIBLE !in Adapted(p, reader)
  {
  }

  /** Where the request gives no budget of any kind, a budget is set exactly if thinking is not switched off,
      the effort is one of three and there is an output limit; it is a tenth, a quarter or a half of it. */
  lemma EffortSetsBudget(p: Fields, reader: Reader)
    requires Readable(p) && COMPATIBLE !in p && "max_tokens" !in Part(Get(p, "reasoning"))
    requires forall i :: 0 <= i < |BUDGET_KEYS| ==> BUDGET_KEYS[i] !in p
    ensures var q, limit := Adapted(p, reader), Integer(First(p, OUTPUT_KEYS), reader);
            && (BUDGET in q <==>
                  Enabled(p) != Bool(false) && limit.Some? && limit.value > 0
                  && Effort(p, reader) in {Some("minimal"), Some("low"), Some("medium")})
            && (BUDGET in q && Effort(p, reader) == Some("minimal") ==> q[BUDGET] == Int(limit.value / 10))
            && (BUDGET in q && Effort(p, reader) == Some("low") ==> q[BUDGET] == Int(limit.value / 4))
            && (BUDGET in q && Effort(p, reader) == Some("medium") ==> q[BUDGET] == Int(limit.value / 2))
  {
    assert BUDGET_KEYS[0] !in p;
    NoBudgetGiven(p);
  }

  /** The limit may be a number or a text that reads as one; the first of three names counts. */
  lemma LimitFrom(p: Fields, reader: Reader, n: int)
    requires Readable(p) && COMPATIBLE !in p && "max_tokens" !in Part(Get(p, "reasoning"))
    requires forall i :: 0 <= i < |BUDGET_KEYS| ==> BUDGET_KEYS[i] !in p
    requires var limit := if "max_tokens" in p then p["max_tokens"] else
                          if "max_completion_tokens" in p then p["max_completion_tokens"] else Get(p, "max_length");
             limit == Int(n) || limit == Real(n as real) || (limit.Str? && reader.number(limit.s) == Some(n))
    requires n > 0 && Enabled(p) != Bool(false) && Effort(p, reader) == Some("low")
    ensures BUDGET in Adapted(p, reader) && Adapted(p, reader)[BUDGET] == Int(n / 4)
  {
    ThreeNames(p, "max_tokens", "max_completion_tokens", "max_length");
    assert Integer(First(p, OUTPUT_KEYS), reader) == Some(n);
    EffortSetsBudget(p, reader);
  }

  /** Budgets that TabbyAPI ignores: none, or a negative one however it is written. */
  predicate Ignored(v: Value, reader: Reader) {
    match v
    case Null => true
    case Int(i) => i < 0
    case Real(r) => r == r.Floor as real && r < 0.0
    case Str(s) => reader.number(s).Some? && reader.number(s).value < 0
    case _ => false
  }

  /** The compatible budget is moved to the native name exactly if both native places are ignored; it then
      counts, and otherwise nothing about budgets changes. */
  lemma CompatibleExactly(p: Fields, reader: Reader)
    requires Readable(p) && COMPATIBLE in p
    ensures var q := Adapted(p, reader);
            var ignored := Ignored(First(p, BUDGET_KEYS), reader)
                           && Ignored(Get(Part(Get(p, "reasoning")), "max_tokens"), reader);
            && (COMPATIBLE in q <==> !ignored)
            && (ignored ==> BUDGET in q && q[BUDGET] == p[COMPATIBLE])
            && (!ignored ==> q[COMPATIBLE] == p[COMPATIBLE] && Get(q, BUDGET) == Get(p, BUDGET))
  {
    assert forall v: Value :: FallsBack(v, reader) <==> Ignored(v, reader);
  }

  lemma NoBudgetGiven(p: Fields)
    requires forall i :: 0 <= i < |BUDGET_KEYS| ==> BUDGET_KEYS[i] !in p
    ensures First(p, BUDGET_KEYS) == Null
  {
    AllMissing(p, BUDGET_KEYS);
  }

  lemma {:induction false} AllMissing(p: Fields, keys: seq<string>)
    requires forall i :: 0 <= i < |keys| ==> keys[i] !in p
    ensures First(p, keys) == Null
  {
    if keys != [] {
      AllMissing(p, keys[1..]);
    }
  }

  /** Thinking is switched off for an effort of none or off exactly if nothing else says anything about it:
      not the request, not its reasoning object, not the template's variables. */
  lemma OffExactly(p: Fields, reader: Reader)
    requires Readable(p)
    ensures var q := Adapted(p, reader);
            (Get(q, ENABLE) != Get(p, ENABLE) <==>
               && Effort(p, reader) in {Some("none"), Some("off")}
               && Get(p, ENABLE).Null? && Get(Part(Get(p, "reasoning")), "enabled").Null?
               && ENABLE !in Part(Template(p)))
            && (Get(q, ENABLE) != Get(p, ENABLE) ==> q[ENABLE] == Bool(false))
  {
  }

  /** The template's variables are one object or the other, never both. */
  lemma TemplateFrom(p: Fields)
    ensures "template_vars" in p ==> Template(p) == p["template_vars"]
    ensures "template_vars" !in p ==> Template(p) == Get(p, "chat_template_kwargs")
  {
    TwoNames(p, "template_vars", "chat_template_kwargs");
  }

  /** Who decides the switch: the same three, in the same order. */
  lemma SwitchFrom(p: Fields, v: Value)
    ensures var template, nested := Part(Template(p)), Part(Get(p, "reasoning"));
            && (ENABLE in template && template[ENABLE] == v ==> Enabled(p) == v)
            && (ENABLE !in template && !v.Null? && Get(p, ENABLE) == v ==> Enabled(p) == v)
            && (ENABLE !in template && Get(p, ENABLE).Null? && Get(nested, "enabled") == v ==> Enabled(p) == v)
  {
  }

  /** Who decides the effort: the template's variables, else the request's own field, else its reasoning
      object; a null says nothing in the latter two. */
  lemma EffortFrom(p: Fields, reader: Reader, text: string)
    ensures var template, nested := Part(Template(p)), Part(Get(p, "reasoning"));
            && ("reasoning_effort" in template && template["reasoning_effort"] == Str(text) ==>
                  Effort(p, reader) == Some(reader.fold(text)))
            && ("reasoning_effort" !in template && Get(p, "reasoning_effort") == Str(text) ==>
                  Effort(p, reader) == Some(reader.fold(text)))
            && ("reasoning_effort" !in template && Get(p, "reasoning_effort").Null?
                && Get(nested, "effort") == Str(text) ==>
                  Effort(p, reader) == Some(reader.fold(text)))
            && ("reasoning_effort" !in template && Get(p, "reasoning_effort").Null? && Get(nested, "effort").Null? ==>
                  Effort(p, reader).None?)
  {
  }
}
