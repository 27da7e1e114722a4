/** Operator-owned workflow contracts: what a manifest must say before the broker accepts it, how a
    caller's parameters are completed, and how a request is written into the graph. */
module Workflows {
  import opened Basics
  import opened Graphs

  const MAX_SEED := 9007199254740991
  const MAX_LENGTH := 65536

  // ---------------------------------------------------------------- the manifest

  datatype Kind = TString | TInteger | TNumber | TBoolean

  datatype Spec = Spec(
    kind: Kind,
    required: bool,
    private: bool,
    randomDefault: bool,
    minimum: Option<Val>,
    maximum: Option<Val>,
    minLength: Option<int>,
    maxLength: Option<int>,
    multipleOf: Option<int>,
    choices: Option<set<Val>>,
    standard: Option<Val>,
    target: Option<Address>)

  datatype Loras = Loras(node: string, names: seq<string>)

  datatype Output = Output(node: string, helto: bool)

  datatype References = References(generator: string, loader: string, slots: seq<string>, minItems: int)

  datatype Mode = Mode(puts: map<string, Inputs>, drops: map<string, set<string>>)

  datatype Modes = Modes(standard: string, definitions: map<string, Mode>)

  datatype Workflow = Workflow(
    graph: Graph,
    parameters: map<string, Spec>,
    outputs: seq<Output>,
    loras: Option<Loras>,
    references: Option<References>,
    modes: Option<Modes>)

  // ---------------------------------------------------------------- values

  predicate Numeric(v: Val) {
    v.Int? || v.Real?
  }

  function Amount(v: Val): real
    requires Numeric(v)
  {
    if v.Int? then v.i as real else v.r
  }

  predicate TypeFits(kind: Kind, v: Val) {
    match kind
    case TString => v.Str?
    case TInteger => v.Int?
    case TNumber => v.Int? || v.Real? || v.NonFinite?
    case TBoolean => v.Bool?
  }

  predicate InRange(spec: Spec, v: Val)
    requires Numeric(v)
  {
    && (spec.minimum.Some? && Numeric(spec.minimum.value) ==> Amount(spec.minimum.value) <= Amount(v))
    && (spec.maximum.Some? && Numeric(spec.maximum.value) ==> Amount(v) <= Amount(spec.maximum.value))
    && (spec.multipleOf.Some? && spec.multipleOf.value > 0 && v.Int? ==> v.i % spec.multipleOf.value == 0)
  }

  predicate LengthFits(spec: Spec, s: string) {
    && (if spec.minLength.Some? then spec.minLength.value else 0) <= |s|
    && |s| <= (if spec.maxLength.Some? then spec.maxLength.value else MAX_LENGTH)
  }

  predicate CheckValue(spec: Spec, v: Val) {
    && TypeFits(spec.kind, v)
    && !v.NonFinite?
    && (Numeric(v) ==> InRange(spec, v))
    && (v.Str? ==> LengthFits(spec, v.s))
    && (spec.choices.Some? ==> v in spec.choices.value)
  }

  // ---------------------------------------------------------------- what a manifest must say

  predicate NotBlank(s: string) {
    exists i :: 0 <= i < |s| && s[i] !in " \t\r\n"
  }

  predicate Distinct<T(==)>(s: seq<T>) {
    forall i, j :: 0 <= i < j < |s| ==> s[i] != s[j]
  }

  predicate LoraName(name: string) {
    "lora_" <= name && |name| > 5 && forall i :: 5 <= i < |name| ==> '0' <= name[i] <= '9'
  }

  predicate RowOk(cell: Option<Cell>) {
    cell.Some? && cell.value.Row? && NotBlank(cell.value.lora) && cell.value.lora != "None"
  }

  predicate LorasOk(g: Graph, l: Loras) {
    && l.names != [] && Distinct(l.names)
    && HasInputs(g, l.node) && g[l.node].kind == "AIOLoraConfiguration"
    && forall i :: 0 <= i < |l.names| ==>
         LoraName(l.names[i]) && RowOk(CellAt(g, Address(l.node, l.names[i])))
  }

  function Cells(node: string, names: seq<string>): set<Address> {
    set i | 0 <= i < |names| :: Address(node, names[i])
  }

  function Controlled(w: Workflow): set<Address> {
    if w.loras.Some? then Cells(w.loras.value.node, w.loras.value.names) else {}
  }

  predicate Finite(bound: Option<Val>) {
    bound.Some? ==> Numeric(bound.value)
  }

  predicate ConstraintsOk(spec: Spec) {
    && Finite(spec.minimum) && Finite(spec.maximum)
    && (spec.minLength.Some? ==> spec.minLength.value >= 0 && spec.kind.TString?)
    && (spec.maxLength.Some? ==> spec.maxLength.value >= 0 && spec.kind.TString?)
    && (spec.minimum.Some? || spec.maximum.Some? ==> spec.kind.TNumber? || spec.kind.TInteger?)
    && (spec.multipleOf.Some? ==> spec.kind.TInteger? && spec.multipleOf.value > 0)
    && (spec.minimum.Some? && spec.maximum.Some? ==>
          Amount(spec.minimum.value) <= Amount(spec.maximum.value))
    && (spec.minLength.Some? && spec.maxLength.Some? ==>
          spec.minLength.value <= spec.maxLength.value)
    && (spec.choices.Some? ==>
          spec.choices.value != {} && forall v :: v in spec.choices.value ==> CheckValue(spec, v))
  }

  predicate RandomOk(name: string, spec: Spec) {
    && name == "seed" && spec.kind.TInteger? && spec.standard.None?
    && !spec.required && !spec.private
    && spec.minimum.Some? && spec.minimum.value.Int?
    && spec.maximum.Some? && spec.maximum.value.Int?
    && 0 <= spec.minimum.value.i <= spec.maximum.value.i <= MAX_SEED
    && spec.choices.None? && spec.multipleOf.None?
  }

  predicate SpecOk(name: string, spec: Spec, g: Graph) {
    && name != ""
    && ConstraintsOk(spec)
    && (spec.standard.Some? ==> CheckValue(spec, spec.standard.value) && !spec.private)
    && (spec.randomDefault ==> RandomOk(name, spec))
    && (spec.required || spec.standard.Some? || spec.randomDefault)
    && spec.target.Some?
    && CellAt(g, spec.target.value).Some?
  }

  function Targets(parameters: map<string, Spec>): set<Address> {
    set n | n in parameters && parameters[n].target.Some? :: parameters[n].target.value
  }

  predicate TargetsApart(parameters: map<string, Spec>) {
    forall a, b :: a in parameters && b in parameters && a != b && parameters[a].target.Some? ==>
      parameters[a].target != parameters[b].target
  }

  function Mapped(w: Workflow): set<Address> {
    Controlled(w) + Targets(w.parameters)
  }

  predicate Flag(inputs: Inputs, name: string) {
    name in inputs && inputs[name].Plain? && inputs[name].v.Bool?
  }

  predicate FlagIs(inputs: Inputs, name: string, value: bool) {
    name in inputs && inputs[name] == Plain(Bool(value))
  }

  predicate Text(inputs: Inputs, name: string) {
    name in inputs && inputs[name].Plain? && inputs[name].v.Str?
  }

  /** The boolean controls of a Helto output, and a text for its destination. */
  predicate HeltoOk(inputs: Inputs) {
    && Flag(inputs, "reference_only") && Flag(inputs, "privacy_mode")
    && Flag(inputs, "use_alternative_folder") && Flag(inputs, "use_date_folder")
    && FlagIs(inputs, "save_image", true) && FlagIs(inputs, "pause_mode", false)
    && Text(inputs, if FlagIs(inputs, "use_alternative_folder", true) then "alternative_folder" else "folder")
    && ("subfolder" in inputs ==> Text(inputs, "subfolder"))
  }

  predicate OnNode(cells: set<Address>, node: string) {
    exists a :: a in cells && a.node == node
  }

  predicate OutputOk(o: Output, g: Graph, mapped: set<Address>) {
    && o.node in g && (g[o.node].Node? || g[o.node].isObject)
    && (o.helto ==>
          HasInputs(g, o.node) && g[o.node].kind == "HeltoSaveImageAdvanced"
          && !OnNode(mapped, o.node) && HeltoOk(g[o.node].inputs))
  }

  predicate OutputsApart(outputs: seq<Output>) {
    forall i, j :: 0 <= i < j < |outputs| ==> outputs[i].node != outputs[j].node
  }

  predicate ReferencesOk(r: References, g: Graph, mapped: set<Address>) {
    && 1 <= |r.slots| <= 10
    && (forall i :: 0 <= i < |r.slots| ==> r.slots[i] != "")
    && Distinct(r.slots) && r.generator != r.loader
    && 0 <= r.minItems <= |r.slots|
    && HasInputs(g, r.generator) && HasInputs(g, r.loader)
    && g[r.loader].kind == "HeltoLoadImageFromRoot"
    && Text(g[r.loader].inputs, "root") && Text(g[r.loader].inputs, "subfolder")
    && Text(g[r.loader].inputs, "filename")
    && !OnNode(mapped, r.loader)
    && mapped !! Cells(r.generator, r.slots)
  }

  /** A mode file that reading accepts. */
  predicate ModesReadable(m: Modes) {
    && m.standard in m.definitions
    && forall name :: name in m.definitions ==> ModeReadable(m.definitions[name])
  }

  predicate ModeReadable(mode: Mode) {
    forall node :: node in mode.drops && node in mode.puts ==>
      mode.drops[node] !! mode.puts[node].Keys
  }

  function Slots(w: Workflow): set<Address> {
    if w.references.Some? then Cells(w.references.value.generator, w.references.value.slots) else {}
  }

  predicate Protected(w: Workflow, node: string) {
    || (exists i :: 0 <= i < |w.outputs| && w.outputs[i].node == node)
    || (w.references.Some? && w.references.value.loader == node)
  }

  /** Every node a mode patches can be patched, and no cell it patches belongs to another writer. */
  predicate ModeFits(w: Workflow, mode: Mode) {
    && (forall node :: node in mode.puts.Keys + mode.drops.Keys ==>
          HasInputs(w.graph, node) && !Protected(w, node))
    && (forall node, i :: node in mode.puts && i in mode.puts[node] ==>
          Address(node, i) !in Mapped(w) + Slots(w))
    && (forall node, i :: node in mode.drops && i in mode.drops[node] ==>
          Address(node, i) !in Mapped(w) + Slots(w))
  }

  predicate ModesFit(w: Workflow) {
    w.modes.Some? ==>
      && "mode" !in w.parameters
      && ModesReadable(w.modes.value)
      && forall name :: name in w.modes.value.definitions ==>
           ModeFits(w, w.modes.value.definitions[name])
  }

  predicate ParametersOk(w: Workflow) {
    && (forall n :: n in w.parameters ==> SpecOk(n, w.parameters[n], w.graph))
    && TargetsApart(w.parameters)
    && Controlled(w) !! Targets(w.parameters)
  }

  /** What load accepts. */
  predicate Loadable(w: Workflow) {
    && w.outputs != []
    && (w.loras.Some? ==> "nsfw" !in w.parameters && LorasOk(w.graph, w.loras.value))
    && ParametersOk(w)
    && OutputsApart(w.outputs)
    && (forall i :: 0 <= i < |w.outputs| ==> OutputOk(w.outputs[i], w.graph, Mapped(w)))
    && (w.references.Some? ==> ReferencesOk(w.references.value, w.graph, Mapped(w)))
    && ModesFit(w)
  }

  // ---------------------------------------------------------------- load

  method LoadLoras(g: Graph, l: Loras) returns (ok: bool, controlled: set<Address>)
    ensures ok <==> LorasOk(g, l)
    ensures ok ==> controlled == Cells(l.node, l.names)
  {
    controlled := {};
    if l.names == [] || !Distinct(l.names)
       || exists i :: 0 <= i < |l.names| && !LoraName(l.names[i]) {
      return false, {};
    }
    if !HasInputs(g, l.node) || g[l.node].kind != "AIOLoraConfiguration" {
      return false, {};
    }
    var i := 0;
    while i < |l.names|
      invariant 0 <= i <= |l.names|
      invariant forall k :: 0 <= k < i ==> RowOk(CellAt(g, Address(l.node, l.names[k])))
      invariant controlled == set k | 0 <= k < i :: Address(l.node, l.names[k])
    {
      var cell := Address(l.node, l.names[i]);
      if !RowOk(CellAt(g, cell)) {
        return false, {};
      }
      controlled := controlled + {cell};
      i := i + 1;
    }
    return true, controlled;
  }

  function TargetsBut(parameters: map<string, Spec>, todo: set<string>): set<Address> {
    set n | n in parameters && n !in todo && parameters[n].target.Some? :: parameters[n].target.value
  }

  lemma OneTargetMore(parameters: map<string, Spec>, controlled: set<Address>, todo: set<string>, name: string)
    requires name in parameters && name in todo && parameters[name].target.Some?
    requires SoundBut(parameters, controlled, todo)
    requires parameters[name].target.value !in controlled + TargetsBut(parameters, todo)
    ensures TargetsBut(parameters, todo - {name}) == TargetsBut(parameters, todo) + {parameters[name].target.value}
    ensures SoundBut(parameters, controlled, todo - {name})
  {
  }

  lemma TakenCell(parameters: map<string, Spec>, controlled: set<Address>, todo: set<string>, name: string)
    requires name in parameters && name in todo && parameters[name].target.Some?
    requires parameters[name].target.value in controlled + TargetsBut(parameters, todo)
    ensures !(TargetsApart(parameters) && controlled !! Targets(parameters))
  {
    var cell := parameters[name].target.value;
    assert cell in Targets(parameters);
    if cell !in controlled {
      var n :| n in parameters && n !in todo && parameters[n].target == Some(cell);
      assert n != name;
    }
  }

  /** The parameters in any order: mapped grows by one cell each. */
  method LoadParameters(g: Graph, parameters: map<string, Spec>, controlled: set<Address>)
    returns (ok: bool, mapped: set<Address>)
    ensures ok <==>
            && (forall n :: n in parameters ==> SpecOk(n, parameters[n], g))
            && TargetsApart(parameters)
            && controlled !! Targets(parameters)
    ensures ok ==> mapped == controlled + Targets(parameters)
  {
    mapped := controlled;
    var todo := parameters.Keys;
    while todo != {}
      invariant todo <= parameters.Keys
      invariant forall n :: n in parameters && n !in todo ==> SpecOk(n, parameters[n], g)
      invariant SoundBut(parameters, controlled, todo)
      invariant mapped == controlled + TargetsBut(parameters, todo)
      decreases todo
    {
      var name :| name in todo;
      var spec := parameters[name];
      if !SpecOk(name, spec, g) {
        return false, {};
      }
      var cell := spec.target.value;
      if cell in controlled || cell in mapped {
        TakenCell(parameters, controlled, todo, name);
        return false, {};
      }
      OneTargetMore(parameters, controlled, todo, name);
      mapped := mapped + {cell};
      todo := todo - {name};
    }
    AllTargets(parameters, controlled);
    return true, mapped;
  }

  /** The parameters looked at so far have cells of their own. */
  predicate SoundBut(parameters: map<string, Spec>, controlled: set<Address>, todo: set<string>) {
    && (forall n :: n in parameters && n !in todo ==>
          parameters[n].target.Some? && parameters[n].target.value !in controlled)
    && (forall a, b :: a in parameters && b in parameters && a !in todo && b !in todo && a != b ==>
          parameters[a].target != parameters[b].target)
  }

  lemma AllTargets(parameters: map<string, Spec>, controlled: set<Address>)
    requires SoundBut(parameters, controlled, {})
    ensures TargetsApart(parameters) && controlled !! Targets(parameters)
    ensures TargetsBut(parameters, {}) == Targets(parameters)
  {
  }

  method LoadOutputs(g: Graph, outputs: seq<Output>, mapped: set<Address>) returns (ok: bool)
    ensures ok <==>
            && OutputsApart(outputs)
            && forall i :: 0 <= i < |outputs| ==> OutputOk(outputs[i], g, mapped)
  {
    var seen: set<string> := {};
    var i := 0;
    while i < |outputs|
      invariant 0 <= i <= |outputs|
      invariant seen == set k | 0 <= k < i :: outputs[k].node
      invariant forall k, l :: 0 <= k < l < i ==> outputs[k].node != outputs[l].node
      invariant forall k :: 0 <= k < i ==> OutputOk(outputs[k], g, mapped)
    {
      if outputs[i].node in seen || !OutputOk(outputs[i], g, mapped) {
        return false;
      }
      seen := seen + {outputs[i].node};
      i := i + 1;
    }
    return true;
  }

  /** Accepts exactly the workflows whose static checks hold. */
  method Load(w: Workflow) returns (ok: bool)
    ensures ok <==> Loadable(w)
  {
    if w.outputs == [] {
      return false;
    }
    var controlled: set<Address> := {};
    if w.loras.Some? {
      if "nsfw" in w.parameters {
        return false;
      }
      ok, controlled := LoadLoras(w.graph, w.loras.value);
      if !ok {
        return;
      }
    }
    var mapped;
    ok, mapped := LoadParameters(w.graph, w.parameters, controlled);
    if !ok {
      return;
    }
    ok := LoadOutputs(w.graph, w.outputs, mapped);
    if !ok {
      return;
    }
    if w.references.Some? && !ReferencesOk(w.references.value, w.graph, mapped) {
      return false;
    }
    return ModesFit(w);
  }

  // ---------------------------------------------------------------- normalize

  function ModeSpec(m: Modes): Spec {
    Spec(TString, false, false, false, None, None, None, None, None,
         Some(set name | name in m.definitions :: Str(name)), Some(Str(m.standard)), None)
  }

  const SWITCH := Spec(TBoolean, false, false, false, None, None, None, None, None, None,
                       Some(Bool(false)), None)

  /** The manifest's parameters and the two that the broker adds. */
  function Parameters(w: Workflow): map<string, Spec> {
    w.parameters
    + (if w.modes.Some? then map["mode" := ModeSpec(w.modes.value)] else map[])
    + (if w.loras.Some? then map["nsfw" := SWITCH] else map[])
  }

  type Values = map<string, Val>

  /** An omitted parameter can be left out. */
  predicate Optional(spec: Spec) {
    !spec.required
    && (spec.randomDefault || (spec.standard.Some? && CheckValue(spec, spec.standard.value)))
  }

  predicate Answers(spec: Spec, p: Values, name: string) {
    if name in p then CheckValue(spec, p[name]) else Optional(spec)
  }

  predicate Fits(specs: map<string, Spec>, p: Values) {
    && p.Keys <= specs.Keys
    && forall n :: n in specs ==> Answers(specs[n], p, n)
  }

  predicate Accepts(w: Workflow, p: Values) {
    Fits(Parameters(w), p)
  }

  predicate Kept(specs: map<string, Spec>, p: Values, name: string) {
    name in specs && (name in p || !specs[name].randomDefault)
  }

  predicate HasStandard(spec: Spec) {
    spec.required || spec.randomDefault || spec.standard.Some?
  }

  /** The value that stands for a parameter. */
  function Chosen(spec: Spec, p: Values, name: string): Val {
    if name in p then p[name] else if spec.standard.Some? then spec.standard.value else OtherVal
  }

  /** The caller's values, and the default of every other parameter but a random one. */
  function Completed(specs: map<string, Spec>, p: Values): Values {
    map n | n in specs && Kept(specs, p, n) :: Chosen(specs[n], p, n)
  }

  lemma StandardsGiven(w: Workflow)
    requires Loadable(w)
    ensures forall n :: n in Parameters(w) ==> HasStandard(Parameters(w)[n])
  {
    forall n | n in Parameters(w)
      ensures HasStandard(Parameters(w)[n])
    {
      if n in w.parameters && Parameters(w)[n] == w.parameters[n] {
        assert SpecOk(n, w.parameters[n], w.graph);
      }
    }
  }

  method Normalize(w: Workflow, p: Values) returns (r: Option<Values>)
    requires Loadable(w)
    ensures r.Some? <==> Accepts(w, p)
    ensures r.Some? ==> r.value == Completed(Parameters(w), p)
    ensures r.Some? ==>
              && (forall n :: n in r.value <==>
                    n in Parameters(w) && (n in p || !Parameters(w)[n].randomDefault))
              && (forall n :: n in r.value && n in p ==> r.value[n] == p[n])
              && (forall n :: n in r.value && n !in p ==> Parameters(w)[n].standard == Some(r.value[n]))
  {
    StandardsGiven(w);
    r := Complete(Parameters(w), p);
  }

  method Complete(specs: map<string, Spec>, p: Values) returns (r: Option<Values>)
    requires forall n :: n in specs ==> HasStandard(specs[n])
    ensures r.Some? <==> Fits(specs, p)
    ensures r.Some? ==> r.value == Completed(specs, p)
  {
    if !(p.Keys <= specs.Keys) {
      return None;
    }
    var result: Values := map[];
    var todo := specs.Keys;
    while todo != {}
      invariant todo <= specs.Keys
      invariant forall n :: n in specs && n !in todo ==> Answers(specs[n], p, n)
      invariant forall n :: n in result <==> n !in todo && Kept(specs, p, n)
      invariant forall n :: n in result ==> result[n] == Chosen(specs[n], p, n)
      decreases todo
    {
      var name :| name in todo;
      todo := todo - {name};
      var spec := specs[name];
      var value: Val;
      if name in p {
        value := p[name];
      } else if spec.required {
        return None;
      } else if spec.randomDefault {
        continue;
      } else {
        value := spec.standard.value;
      }
      if !CheckValue(spec, value) {
        return None;
      }
      result := result[name := value];
    }
    assert result == Completed(specs, p);
    return Some(result);
  }

  predicate Random(w: Workflow) {
    "seed" in w.parameters && w.parameters["seed"].randomDefault
  }

  /** Draws a seed in the declared range unless the caller gave one; below is the random number
      source, returning something under its bound. */
  method ResolveSeed(w: Workflow, values: Values, below: nat) returns (resolved: Values)
    requires Loadable(w) && Accepts(w, values)
    ensures Random(w) ==> "seed" in resolved
    ensures if Random(w) && "seed" !in values then resolved == values["seed" := resolved["seed"]]
            else resolved == values
    ensures Accepts(w, resolved)
  {
    if !Random(w) || "seed" in values {
      return values;
    }
    var spec := w.parameters["seed"];
    assert SpecOk("seed", spec, w.graph) && Answers(spec, values, "seed");
    var low, high := spec.minimum.value.i, spec.maximum.value.i;
    var seed := low + below % (high - low + 1);
    resolved := values["seed" := Int(seed)];
    assert Parameters(w)["seed"] == spec;
    assert CheckValue(spec, Int(seed));
  }
}
