/** How a request is written into a copy of the graph: five writers, one after the other. */
module WorkflowBuild {
  import opened Basics
  import opened Graphs
  import opened Workflows

  // ---------------------------------------------------------------- what each writer owns

  function PutCells(puts: map<string, Inputs>): set<Address> {
    set n, i | n in puts && i in puts[n] :: Address(n, i)
  }

  function PutPatch(puts: map<string, Inputs>): Patch {
    map a | a in PutCells(puts) :: Some(puts[a.node][a.input])
  }

  function DropCells(drops: map<string, set<string>>): set<Address> {
    set n, i | n in drops && i in drops[n] :: Address(n, i)
  }

  function DropPatch(drops: map<string, set<string>>): Patch {
    map a | a in DropCells(drops) :: None
  }

  function ModePatch(mode: Mode): Patch {
    PutPatch(mode.puts) + DropPatch(mode.drops)
  }

  function Switched(cell: Cell, on: bool): Cell {
    if cell.Row? then cell.(on := on) else cell
  }

  function LoraPatch(g: Graph, l: Loras, on: bool): Patch {
    map a | a in Cells(l.node, l.names) && CellAt(g, a).Some? :: Some(Switched(CellAt(g, a).value, on))
  }

  function SlotAt(r: References, a: Address): (k: nat)
    requires a in Cells(r.generator, r.slots)
    ensures k < |r.slots| && a == Address(r.generator, r.slots[k])
  {
    IndexOf(r.slots, a.input)
  }

  function IndexOf(s: seq<string>, x: string): (k: nat)
    requires x in s
    ensures k < |s| && s[k] == x
  {
    if s[0] == x then 0 else 1 + IndexOf(s[1..], x)
  }

  /** The first slots are linked, the others emptied. */
  function SlotPatch(r: References, ids: seq<string>): Patch {
    map a | a in Cells(r.generator, r.slots) ::
      if SlotAt(r, a) < |ids| then Some(Link(ids[SlotAt(r, a)])) else None
  }

  ghost function Holder(parameters: map<string, Spec>, a: Address): (name: string)
    requires a in Targets(parameters)
    ensures name in parameters && parameters[name].target == Some(a)
  {
    var name :| name in parameters && parameters[name].target == Some(a);
    name
  }

  function WrittenCells(parameters: map<string, Spec>, values: Values): set<Address> {
    set n | n in values && n in parameters && parameters[n].target.Some? :: parameters[n].target.value
  }

  ghost function ParameterPatch(parameters: map<string, Spec>, values: Values): Patch {
    map a | a in WrittenCells(parameters, values) ::
      var n := Holder(parameters, a);
      if n in values then Some(Plain(values[n])) else None
  }

  function OutputControl(o: Output): Address {
    Address(o.node, "reference_only")
  }

  function HeltoCells(outputs: seq<Output>): set<Address> {
    set i | 0 <= i < |outputs| && outputs[i].helto :: OutputControl(outputs[i])
  }

  function OutputPatch(outputs: seq<Output>): Patch {
    map a | a in HeltoCells(outputs) :: Some(Plain(Bool(true)))
  }

  type Reference = map<string, string>

  function Texts(reference: Reference): Inputs {
    map k | k in reference :: Plain(Str(reference[k]))
  }

  /** A copy of the loader for one reference image. */
  function Loaded(loader: Node, reference: Reference): Node {
    if loader.Node? then loader.(inputs := loader.inputs + Texts(reference)) else loader
  }

  function Planted(loader: Node, ids: seq<string>, references: seq<Reference>): Graph
    requires |ids| == |references|
  {
    map id | id in ids :: Loaded(loader, references[IndexOf(ids, id)])
  }

  // ---------------------------------------------------------------- the writers

  method PutAll(g: Graph, puts: map<string, Inputs>) returns (h: Graph)
    requires forall n :: n in puts ==> HasInputs(g, n)
    ensures h == Apply(g, PutPatch(puts))
  {
    h := g;
    ghost var p: Patch := map[];
    ApplyNothing(g);
    var todo := puts.Keys;
    while todo != {}
      invariant todo <= puts.Keys
      invariant h == Apply(g, p)
      invariant forall a :: a in p <==> a in PutCells(puts) && a.node !in todo
      invariant forall a :: a in p ==> p[a] == PutPatch(puts)[a]
      decreases todo
    {
      var node :| node in todo;
      todo := todo - {node};
      ghost var q := NodePatch(node, puts[node]);
      UpdateIsPatch(h, node, puts[node]);
      ApplyTwice(g, p, q);
      h := h[node := h[node].(inputs := h[node].inputs + puts[node])];
      p := p + q;
    }
    assert p == PutPatch(puts);
  }

  function NodePatch(node: string, cells: Inputs): Patch {
    map a | a in (set i | i in cells :: Address(node, i)) :: Some(cells[a.input])
  }

  lemma UpdateIsPatch(g: Graph, node: string, cells: Inputs)
    requires HasInputs(g, node)
    ensures g[node := g[node].(inputs := g[node].inputs + cells)] == Apply(g, NodePatch(node, cells))
  {
    var h := g[node := g[node].(inputs := g[node].inputs + cells)];
    var p := NodePatch(node, cells);
    forall a: Address | HasInputs(g, a.node)
      ensures CellAt(h, a) == CellAt(Apply(g, p), a)
    {
      PatchedCell(g, p, a);
    }
    SameGraph(h, Apply(g, p));
  }

  /** Part of a patch: some of its cells. */
  predicate Part(p: Patch, full: Patch) {
    forall a :: a in p ==> a in full && p[a] == full[a]
  }

  lemma WholePart(p: Patch, full: Patch)
    requires Part(p, full) && full.Keys <= p.Keys
    ensures p == full
  {
  }

  /** One more cell of a patch is set in the graph. */
  method SetNext(g: Graph, ghost p: Patch, h: Graph, a: Address, c: Cell, ghost full: Patch)
    returns (h': Graph, ghost p': Patch)
    requires HasInputs(g, a.node)
    requires h == Apply(g, p) && Part(p, full)
    requires a in full && full[a] == Some(c)
    ensures h' == Apply(g, p') && Part(p', full)
    ensures p'.Keys == p.Keys + {a}
  {
    SetStep(g, p, h, a, c);
    h', p' := SetCell(h, a, c), p[a := Some(c)];
  }

  method DropAll(g: Graph, drops: map<string, set<string>>) returns (h: Graph)
    requires forall n :: n in drops ==> HasInputs(g, n)
    ensures h == Apply(g, DropPatch(drops))
  {
    h := g;
    ghost var p: Patch := map[];
    ApplyNothing(g);
    var todo := drops.Keys;
    while todo != {}
      invariant todo <= drops.Keys
      invariant h == Apply(g, p) && Part(p, DropPatch(drops))
      invariant forall n, i :: n in drops && i in drops[n] && n !in todo ==> Address(n, i) in p
      decreases todo
    {
      var node :| node in todo;
      todo := todo - {node};
      h, p := DropNode(g, p, h, node, drops[node], drops);
    }
    WholePart(p, DropPatch(drops));
  }

  method DropNode(g: Graph, ghost p: Patch, h: Graph, node: string, names: set<string>,
                  ghost drops: map<string, set<string>>)
    returns (h': Graph, ghost p': Patch)
    requires HasInputs(g, node) && node in drops && names == drops[node]
    requires h == Apply(g, p) && Part(p, DropPatch(drops))
    ensures h' == Apply(g, p') && Part(p', DropPatch(drops))
    ensures p.Keys <= p'.Keys
    ensures forall i :: i in names ==> Address(node, i) in p'
  {
    h', p' := h, p;
    var fields := names;
    while fields != {}
      invariant fields <= names
      invariant h' == Apply(g, p') && Part(p', DropPatch(drops))
      invariant p.Keys <= p'.Keys
      invariant forall i :: i in names && i !in fields ==> Address(node, i) in p'
      decreases fields
    {
      var field :| field in fields;
      fields := fields - {field};
      var cell := Address(node, field);
      assert cell in DropCells(drops);
      PopStep(g, p', h', cell);
      h' := PopCell(h', cell);
      p' := p'[cell := None];
    }
  }

  method WriteLoras(g: Graph, l: Loras, on: bool) returns (h: Graph)
    requires HasInputs(g, l.node)
    requires Distinct(l.names)
    requires forall i :: 0 <= i < |l.names| ==> RowOk(CellAt(g, Address(l.node, l.names[i])))
    ensures h == Apply(g, LoraPatch(g, l, on))
  {
    h := g;
    ghost var p: Patch := map[];
    ghost var full := LoraPatch(g, l, on);
    ApplyNothing(g);
    var i := 0;
    while i < |l.names|
      invariant 0 <= i <= |l.names|
      invariant h == Apply(g, p)
      invariant Part(p, full)
      invariant forall k :: 0 <= k < i ==> Address(l.node, l.names[k]) in p
      invariant forall k :: i <= k < |l.names| ==> Address(l.node, l.names[k]) !in p
    {
      var cell := Address(l.node, l.names[i]);
      PatchedCell(g, p, cell);
      LoraCell(g, l, on, i);
      var row := CellAt(h, cell).value;
      h, p := SetNext(g, p, h, cell, row.(on := on), full);
      i := i + 1;
    }
    AllLoras(g, l, on, p);
  }

  lemma LoraCell(g: Graph, l: Loras, on: bool, i: nat)
    requires i < |l.names| && RowOk(CellAt(g, Address(l.node, l.names[i])))
    ensures var cell, full := Address(l.node, l.names[i]), LoraPatch(g, l, on);
            cell in full && full[cell] == Some(CellAt(g, cell).value.(on := on))
  {
    assert Address(l.node, l.names[i]) in Cells(l.node, l.names);
  }

  lemma AllLoras(g: Graph, l: Loras, on: bool, p: Patch)
    requires Part(p, LoraPatch(g, l, on))
    requires forall k :: 0 <= k < |l.names| ==> Address(l.node, l.names[k]) in p
    ensures p == LoraPatch(g, l, on)
  {
    WholePart(p, LoraPatch(g, l, on));
  }

  lemma AllOutputs(outputs: seq<Output>, p: Patch)
    requires Part(p, OutputPatch(outputs))
    requires forall k :: 0 <= k < |outputs| && outputs[k].helto ==> OutputControl(outputs[k]) in p
    ensures p == OutputPatch(outputs)
  {
    WholePart(p, OutputPatch(outputs));
  }

  lemma OutputCell(outputs: seq<Output>, i: nat)
    requires i < |outputs| && outputs[i].helto
    ensures var cell, full := OutputControl(outputs[i]), OutputPatch(outputs);
            cell in full && full[cell] == Some(Plain(Bool(true)))
  {
    assert OutputControl(outputs[i]) in HeltoCells(outputs);
  }

  method WriteOutputs(g: Graph, outputs: seq<Output>) returns (h: Graph)
    requires forall i :: 0 <= i < |outputs| && outputs[i].helto ==> HasInputs(g, outputs[i].node)
    ensures h == Apply(g, OutputPatch(outputs))
  {
    h := g;
    ghost var p: Patch := map[];
    ApplyNothing(g);
    var i := 0;
    while i < |outputs|
      invariant 0 <= i <= |outputs|
      invariant h == Apply(g, p)
      invariant Part(p, OutputPatch(outputs))
      invariant forall k :: 0 <= k < i && outputs[k].helto ==> OutputControl(outputs[k]) in p
    {
      h, p := MarkOutput(g, p, h, outputs, i);
      i := i + 1;
    }
    AllOutputs(outputs, p);
  }

  method MarkOutput(g: Graph, ghost p: Patch, h: Graph, outputs: seq<Output>, i: nat)
    returns (h': Graph, ghost p': Patch)
    requires i < |outputs| && (outputs[i].helto ==> HasInputs(g, outputs[i].node))
    requires h == Apply(g, p) && Part(p, OutputPatch(outputs))
    ensures h' == Apply(g, p') && Part(p', OutputPatch(outputs))
    ensures p.Keys <= p'.Keys && (outputs[i].helto ==> OutputControl(outputs[i]) in p')
  {
    h', p' := h, p;
    if outputs[i].helto {
      OutputCell(outputs, i);
      h', p' := SetNext(g, p, h, OutputControl(outputs[i]), Plain(Bool(true)), OutputPatch(outputs));
    }
  }

  /** The caller's values in any order; a name without a target stops the request. */
  method WriteParameters(g: Graph, parameters: map<string, Spec>, skip: set<string>, values: Values)
    returns (ok: bool, h: Graph)
    requires TargetsApart(parameters)
    requires forall n :: n in parameters ==>
               parameters[n].target.Some? && HasInputs(g, parameters[n].target.value.node)
    requires skip !! parameters.Keys
    ensures ok <==> values.Keys <= parameters.Keys + skip
    ensures ok ==> h == Apply(g, ParameterPatch(parameters, values))
  {
    h := g;
    ghost var p: Patch := map[];
    ghost var full := ParameterPatch(parameters, values);
    ApplyNothing(g);
    var todo := values.Keys;
    while todo != {}
      invariant todo <= values.Keys
      invariant values.Keys - todo <= parameters.Keys + skip
      invariant h == Apply(g, p) && Part(p, full)
      invariant forall n :: n in values && n !in todo && n in parameters ==> parameters[n].target.value in p
      decreases todo
    {
      var name :| name in todo;
      todo := todo - {name};
      if name in skip {
        continue;
      }
      if name !in parameters {
        return false, g;
      }
      var cell := parameters[name].target.value;
      ParameterCell(parameters, values, name);
      h, p := SetNext(g, p, h, cell, Plain(values[name]), full);
    }
    WholePart(p, full);
    ok := true;
  }

  lemma ParameterCell(parameters: map<string, Spec>, values: Values, name: string)
    requires TargetsApart(parameters)
    requires name in parameters && name in values && parameters[name].target.Some?
    ensures var cell := parameters[name].target.value;
            var full := ParameterPatch(parameters, values);
            cell in full && full[cell] == Some(Plain(values[name]))
  {
    var cell := parameters[name].target.value;
    assert cell in WrittenCells(parameters, values);
    assert Holder(parameters, cell) == name;
  }

  /** The search for a node id ends, with an id that is new. */
  method FindId(index: nat, taken: set<string>) returns (id: string)
    ensures id == FreshId("mcp_reference_" + Decimal(index + 1), taken)
  {
    id := "mcp_reference_" + Decimal(index + 1);
    ghost var start := id;
    while id in taken
      invariant FreshId(id, taken) == FreshId(start, taken)
      decreases |Longer(taken, |id|)|
    {
      LongerShrinks(taken, id);
      id := id + "_";
    }
  }

  lemma UntouchedNode(g: Graph, p: Patch, node: string)
    requires node in g && forall a :: a in p ==> a.node != node
    ensures Apply(g, p)[node] == g[node]
  {
    assert Touched(p, node) == {};
    if g[node].Node? {
      assert PatchInputs(g[node].inputs, node, p) == g[node].inputs;
    }
  }

  lemma SlotIndex(r: References, i: nat)
    requires i < |r.slots| && Distinct(r.slots)
    ensures Address(r.generator, r.slots[i]) in Cells(r.generator, r.slots)
    ensures SlotAt(r, Address(r.generator, r.slots[i])) == i
  {
    assert Address(r.generator, r.slots[i]) in Cells(r.generator, r.slots);
    var k := SlotAt(r, Address(r.generator, r.slots[i]));
    assert r.slots[k] == r.slots[i];
  }

  lemma SlotPatchGrows(r: References, ids: seq<string>, id: string)
    requires Distinct(r.slots) && |ids| < |r.slots|
    ensures SlotPatch(r, ids + [id])
            == SlotPatch(r, ids)[Address(r.generator, r.slots[|ids|]) := Some(Link(id))]
  {
    SlotIndex(r, |ids|);
    var cell := Address(r.generator, r.slots[|ids|]);
    forall a | a in Cells(r.generator, r.slots)
      ensures SlotPatch(r, ids + [id])[a] == SlotPatch(r, ids)[cell := Some(Link(id))][a]
    {
      if a != cell {
        assert SlotAt(r, a) != |ids|;
      }
    }
  }

  lemma PlantedGrows(loader: Node, ids: seq<string>, references: seq<Reference>, id: string, reference: Reference)
    requires |ids| == |references| && id !in ids
    ensures Planted(loader, ids + [id], references + [reference])
            == Planted(loader, ids, references)[id := Loaded(loader, reference)]
  {
    forall x | x in ids + [id]
      ensures IndexOf(ids + [id], x) == if x == id then |ids| else IndexOf(ids, x)
    {
      IndexLast(ids, id, x);
    }
  }

  lemma {:induction false} IndexLast(ids: seq<string>, id: string, x: string)
    requires id !in ids && x in ids + [id]
    ensures x == id ==> IndexOf(ids + [id], x) == |ids|
    ensures x != id ==> x in ids && IndexOf(ids + [id], x) == IndexOf(ids, x)
  {
    if ids != [] {
      assert (ids + [id])[1..] == ids[1..] + [id];
      if x != ids[0] {
        IndexLast(ids[1..], id, x);
      }
    }
  }

  method ClearSlots(g: Graph, r: References) returns (h: Graph)
    requires HasInputs(g, r.generator) && Distinct(r.slots)
    ensures h == Apply(g, SlotPatch(r, []))
  {
    h := g;
    ghost var p: Patch := map[];
    ApplyNothing(g);
    var i := 0;
    while i < |r.slots|
      invariant 0 <= i <= |r.slots|
      invariant h == Apply(g, p)
      invariant forall a :: a in p ==> a in Cells(r.generator, r.slots) && p[a] == None
      invariant forall k :: 0 <= k < i ==> Address(r.generator, r.slots[k]) in p
    {
      var cell := Address(r.generator, r.slots[i]);
      SlotIndex(r, i);
      PopStep(g, p, h, cell);
      h := PopCell(h, cell);
      p := p[cell := None];
      i := i + 1;
    }
    assert p == SlotPatch(r, []);
  }

  /** Slot i gets a link to a new node, a copy of the loader for reference i. */
  method WriteReferences(g: Graph, r: References, references: seq<Reference>) returns (h: Graph)
    requires HasInputs(g, r.generator) && HasInputs(g, r.loader) && r.generator != r.loader
    requires Distinct(r.slots) && |references| <= |r.slots|
    ensures var ids := ReferenceIds(g.Keys, |references|);
            h == Apply(g, SlotPatch(r, ids)) + Planted(g[r.loader], ids, references)
  {
    h := ClearSlots(g, r);
    ghost var ids: seq<string> := [];
    var i := 0;
    while i < |references|
      invariant 0 <= i <= |references|
      invariant ids == ReferenceIds(g.Keys, i)
      invariant h == Apply(g, SlotPatch(r, ids)) + Planted(g[r.loader], ids, references[..i])
    {
      h, ids := PlantOne(g, r, h, ids, references, i);
      i := i + 1;
    }
    assert references[..|references|] == references;
  }

  method PlantOne(g: Graph, r: References, h: Graph, ghost ids: seq<string>, references: seq<Reference>, i: nat)
    returns (h': Graph, ghost ids': seq<string>)
    requires HasInputs(g, r.generator) && HasInputs(g, r.loader) && r.generator != r.loader
    requires Distinct(r.slots) && i < |references| <= |r.slots|
    requires ids == ReferenceIds(g.Keys, i)
    requires h == Apply(g, SlotPatch(r, ids)) + Planted(g[r.loader], ids, references[..i])
    ensures ids' == ReferenceIds(g.Keys, i + 1)
    ensures h' == Apply(g, SlotPatch(r, ids')) + Planted(g[r.loader], ids', references[..i + 1])
  {
    ghost var patched, planted := Apply(g, SlotPatch(r, ids)), Planted(g[r.loader], ids, references[..i]);
    assert h.Keys == g.Keys + set id | id in ids;
    var id := FindId(i, h.Keys);
    LoaderUntouched(g, r, ids, planted);
    var loader := h[r.loader];
    var copy := Loaded(loader, references[i]);
    var cell := Address(r.generator, r.slots[i]);
    h' := LinkNew(h, id, copy, cell, patched, planted);
    ids' := ids + [id];
    PlantedNext(loader, ids, references, i, id);
    SlotPatchNext(g, r, ids, id);
  }

  lemma PlantedNext(loader: Node, ids: seq<string>, references: seq<Reference>, i: nat, id: string)
    requires |ids| == i < |references| && id !in ids
    ensures Planted(loader, ids + [id], references[..i + 1])
            == Planted(loader, ids, references[..i])[id := Loaded(loader, references[i])]
  {
    assert references[..i + 1] == references[..i] + [references[i]];
    PlantedGrows(loader, ids, references[..i], id, references[i]);
  }

  lemma SlotPatchNext(g: Graph, r: References, ids: seq<string>, id: string)
    requires Distinct(r.slots) && |ids| < |r.slots| && HasInputs(g, r.generator)
    ensures var cell, patched := Address(r.generator, r.slots[|ids|]), Apply(g, SlotPatch(r, ids));
            HasInputs(patched, r.generator)
            && SetCell(patched, cell, Link(id)) == Apply(g, SlotPatch(r, ids + [id]))
  {
    SlotPatchGrows(r, ids, id);
    SetStep(g, SlotPatch(r, ids), Apply(g, SlotPatch(r, ids)),
            Address(r.generator, r.slots[|ids|]), Link(id));
  }

  lemma LoaderUntouched(g: Graph, r: References, ids: seq<string>, planted: Graph)
    requires r.loader in g && r.loader !in planted && r.generator != r.loader
    ensures (Apply(g, SlotPatch(r, ids)) + planted)[r.loader] == g[r.loader]
  {
    UntouchedNode(g, SlotPatch(r, ids), r.loader);
  }

  /** Adds the new node and links it from the generator. */
  method LinkNew(h: Graph, id: string, copy: Node, cell: Address, ghost patched: Graph, ghost planted: Graph)
    returns (h': Graph)
    requires h == patched + planted && id !in h && cell.node !in planted
    requires HasInputs(patched, cell.node)
    ensures h' == SetCell(patched, cell, Link(id)) + planted[id := copy]
  {
    h' := SetCell(h[id := copy], cell, Link(id));
  }

  // ---------------------------------------------------------------- build

  datatype Outcome = Refused | Fault | Written(graph: Graph)

  function ModeName(w: Workflow, values: Values): Val
    requires w.modes.Some?
  {
    if "mode" in values then values["mode"] else Str(w.modes.value.standard)
  }

  function SwitchValue(values: Values): Val {
    if "nsfw" in values then values["nsfw"] else Bool(false)
  }

  function MinCount(w: Workflow): int {
    if w.references.Some? then w.references.value.minItems else 0
  }

  function MaxCount(w: Workflow): int {
    if w.references.Some? then |w.references.value.slots| else 0
  }

  predicate KnownMode(w: Workflow, values: Values) {
    w.modes.Some? ==>
      ModeName(w, values).Str? && ModeName(w, values).s in w.modes.value.definitions
  }

  /** The requests that build turns down: no seed, an unknown mode, a switch that is no boolean, or a
      wrong number of references. */
  predicate Refuses(w: Workflow, values: Values, count: nat) {
    || (Random(w) && "seed" !in values)
    || !KnownMode(w, values)
    || (w.loras.Some? && !SwitchValue(values).Bool?)
    || !(MinCount(w) <= count <= MaxCount(w))
  }

  function ModeWrites(w: Workflow, values: Values): Patch {
    if w.modes.Some? && KnownMode(w, values) then ModePatch(w.modes.value.definitions[ModeName(w, values).s]) else map[]
  }

  function LoraWrites(w: Workflow, values: Values): Patch {
    if w.loras.Some? && SwitchValue(values).Bool? then LoraPatch(w.graph, w.loras.value, SwitchValue(values).b) else map[]
  }

  function Ids(w: Workflow, count: nat): seq<string> {
    ReferenceIds(w.graph.Keys, count)
  }

  function SlotWrites(w: Workflow, count: nat): Patch {
    if w.references.Some? then SlotPatch(w.references.value, Ids(w, count)) else map[]
  }

  function NewNodes(w: Workflow, references: seq<Reference>): Graph {
    if w.references.Some? && w.references.value.loader in w.graph
    then Planted(w.graph[w.references.value.loader], Ids(w, |references|), references)
    else map[]
  }

  /** All five writers, in the order of the code. */
  ghost function Writes(w: Workflow, values: Values, count: nat): Patch {
    ModeWrites(w, values) + LoraWrites(w, values) + SlotWrites(w, count)
    + ParameterPatch(w.parameters, values) + OutputPatch(w.outputs)
  }

  lemma ModeCells(w: Workflow, values: Values)
    requires Loadable(w) && KnownMode(w, values)
    ensures forall a :: a in ModeWrites(w, values) ==>
              HasInputs(w.graph, a.node) && !Protected(w, a.node) && a !in Mapped(w) + Slots(w)
  {
    if w.modes.Some? {
      var mode := w.modes.value.definitions[ModeName(w, values).s];
      assert ModeFits(w, mode);
    }
  }

  lemma LorasStay(w: Workflow, values: Values)
    requires Loadable(w) && KnownMode(w, values) && w.loras.Some?
    ensures var g, l := Apply(w.graph, ModeWrites(w, values)), w.loras.value;
            && (forall i :: 0 <= i < |l.names| ==> RowOk(CellAt(g, Address(l.node, l.names[i]))))
            && forall on :: LoraPatch(g, l, on) == LoraPatch(w.graph, l, on)
  {
    var p, l := ModeWrites(w, values), w.loras.value;
    ModeCells(w, values);
    forall a | a in Cells(l.node, l.names)
      ensures CellAt(Apply(w.graph, p), a) == CellAt(w.graph, a)
    {
      PatchedCell(w.graph, p, a);
    }
    forall i | 0 <= i < |l.names|
      ensures RowOk(CellAt(Apply(w.graph, p), Address(l.node, l.names[i])))
    {
      assert Address(l.node, l.names[i]) in Cells(l.node, l.names);
    }
  }

  /** Neither the modes nor the switches touch the loader that is copied. */
  lemma LoaderStays(w: Workflow, values: Values)
    requires Loadable(w) && KnownMode(w, values) && w.references.Some?
    requires w.loras.Some? ==> SwitchValue(values).Bool?
    ensures var loader := w.references.value.loader;
            loader in w.graph
            && Apply(w.graph, ModeWrites(w, values) + LoraWrites(w, values))[loader] == w.graph[loader]
  {
    var loader := w.references.value.loader;
    var p := ModeWrites(w, values) + LoraWrites(w, values);
    ModeCells(w, values);
    forall a | a in p
      ensures a.node != loader
    {
      if a in LoraWrites(w, values) {
        assert a in Mapped(w);
      }
    }
    UntouchedNode(w.graph, p, loader);
  }

  /** Writes the request, or says why not. A fault is a name that the manifest does not know. */
  method Build(w: Workflow, values: Values, references: seq<Reference>) returns (r: Outcome)
    requires Loadable(w)
    ensures r == if Refuses(w, values, |references|) then Refused
                 else if !(values.Keys <= Parameters(w).Keys) then Fault
                 else Written(Apply(w.graph, Writes(w, values, |references|)) + NewNodes(w, references))
  {
    if Random(w) && "seed" !in values {
      return Refused;
    }
    if w.modes.Some? && !KnownMode(w, values) {
      return Refused;
    }
    var graph := StageMode(w, values);
    if w.loras.Some? && !SwitchValue(values).Bool? {
      return Refused;
    }
    graph := StageLoras(w, values, graph);
    if !(MinCount(w) <= |references| <= MaxCount(w)) {
      return Refused;
    }
    graph := StageReferences(w, values, references, graph);
    r := StageValues(w, values, references, graph);
  }

  method StageMode(w: Workflow, values: Values) returns (graph: Graph)
    requires Loadable(w) && KnownMode(w, values)
    ensures graph == Apply(w.graph, ModeWrites(w, values))
  {
    if w.modes.None? {
      ApplyNothing(w.graph);
      return w.graph;
    }
    var mode := w.modes.value.definitions[ModeName(w, values).s];
    assert ModeFits(w, mode);
    assert forall n :: n in mode.puts || n in mode.drops ==> n in mode.puts.Keys + mode.drops.Keys;
    graph := ApplyMode(w.graph, mode);
  }

  method ApplyMode(g: Graph, mode: Mode) returns (h: Graph)
    requires forall n :: n in mode.puts ==> HasInputs(g, n)
    requires forall n :: n in mode.drops ==> HasInputs(g, n)
    ensures h == Apply(g, ModePatch(mode))
  {
    h := PutAll(g, mode.puts);
    h := DropAll(h, mode.drops);
    ApplyTwice(g, PutPatch(mode.puts), DropPatch(mode.drops));
  }

  method StageLoras(w: Workflow, values: Values, g: Graph) returns (graph: Graph)
    requires Loadable(w) && KnownMode(w, values)
    requires w.loras.Some? ==> SwitchValue(values).Bool?
    requires g == Apply(w.graph, ModeWrites(w, values))
    ensures graph == Apply(w.graph, ModeWrites(w, values) + LoraWrites(w, values))
  {
    if w.loras.None? {
      assert ModeWrites(w, values) + map[] == ModeWrites(w, values);
      return g;
    }
    LorasStay(w, values);
    graph := WriteLoras(g, w.loras.value, SwitchValue(values).b);
    ApplyTwice(w.graph, ModeWrites(w, values), LoraWrites(w, values));
  }

  method StageReferences(w: Workflow, values: Values, references: seq<Reference>, g: Graph)
    returns (graph: Graph)
    requires Loadable(w) && !Refuses(w, values, |references|)
    requires g == Apply(w.graph, ModeWrites(w, values) + LoraWrites(w, values))
    ensures graph == Apply(w.graph, ModeWrites(w, values) + LoraWrites(w, values) + SlotWrites(w, |references|))
                     + NewNodes(w, references)
  {
    ghost var p := ModeWrites(w, values) + LoraWrites(w, values);
    if w.references.None? {
      assert p + map[] == p;
      assert g + map[] == g;
      return g;
    }
    LoaderStays(w, values);
    graph := AddReferences(w.graph, p, w.references.value, references, g);
  }

  method AddReferences(ghost base: Graph, ghost p: Patch, r: References, references: seq<Reference>, g: Graph)
    returns (graph: Graph)
    requires g == Apply(base, p) && HasInputs(base, r.generator) && HasInputs(base, r.loader)
    requires r.generator != r.loader && g[r.loader] == base[r.loader]
    requires Distinct(r.slots) && |references| <= |r.slots|
    ensures var ids := ReferenceIds(base.Keys, |references|);
            graph == Apply(base, p + SlotPatch(r, ids)) + Planted(base[r.loader], ids, references)
  {
    assert g.Keys == base.Keys;
    graph := WriteReferences(g, r, references);
    ApplyTwice(base, p, SlotPatch(r, ReferenceIds(base.Keys, |references|)));
  }

  method StageValues(w: Workflow, values: Values, references: seq<Reference>, g: Graph) returns (r: Outcome)
    requires Loadable(w) && !Refuses(w, values, |references|)
    requires g == Apply(w.graph, ModeWrites(w, values) + LoraWrites(w, values) + SlotWrites(w, |references|))
                  + NewNodes(w, references)
    ensures r == if !(values.Keys <= Parameters(w).Keys) then Fault
                 else Written(Apply(w.graph, Writes(w, values, |references|)) + NewNodes(w, references))
  {
    var skip := Reserved(w);
    NamesSplit(w);
    TargetNodes(w);
    OutputNodes(w);
    NewNodesAreNew(w, references);
    r := WriteValues(w.graph, w.parameters, w.outputs, skip, values, g,
                     ModeWrites(w, values) + LoraWrites(w, values) + SlotWrites(w, |references|),
                     NewNodes(w, references));
  }

  /** The names that the broker itself adds. */
  function Reserved(w: Workflow): set<string> {
    (if w.modes.Some? then {"mode"} else {}) + (if w.loras.Some? then {"nsfw"} else {})
  }

  lemma NamesSplit(w: Workflow)
    requires Loadable(w)
    ensures Parameters(w).Keys == w.parameters.Keys + Reserved(w)
    ensures Reserved(w) !! w.parameters.Keys
  {
  }

  lemma NewNodesAreNew(w: Workflow, references: seq<Reference>)
    requires Loadable(w)
    ensures w.graph.Keys !! NewNodes(w, references).Keys
  {
  }

  method WriteValues(base: Graph, parameters: map<string, Spec>, outputs: seq<Output>, skip: set<string>,
                     values: Values, g: Graph, ghost p: Patch, ghost added: Graph)
    returns (r: Outcome)
    requires TargetsApart(parameters) && skip !! parameters.Keys
    requires forall n :: n in parameters ==>
               parameters[n].target.Some? && HasInputs(base, parameters[n].target.value.node)
    requires forall i :: 0 <= i < |outputs| && outputs[i].helto ==> HasInputs(base, outputs[i].node)
    requires g == Apply(base, p) + added && base.Keys !! added.Keys
    ensures r == if !(values.Keys <= parameters.Keys + skip) then Fault
                 else Written(Apply(base, p + ParameterPatch(parameters, values) + OutputPatch(outputs)) + added)
  {
    var ok, graph := WriteParameters(g, parameters, skip, values);
    if !ok {
      return Fault;
    }
    ghost var q, o := ParameterPatch(parameters, values), OutputPatch(outputs);
    ParametersBesideNew(base, parameters, values, p, added);
    graph := WriteOutputs(graph, outputs);
    OutputsBesideNew(base, outputs, p + q, added);
    return Written(graph);
  }

  lemma ParametersBesideNew(base: Graph, parameters: map<string, Spec>, values: Values, p: Patch, added: Graph)
    requires TargetsApart(parameters) && base.Keys !! added.Keys
    requires forall n :: n in parameters ==>
               parameters[n].target.Some? && HasInputs(base, parameters[n].target.value.node)
    ensures var q := ParameterPatch(parameters, values);
            Apply(Apply(base, p) + added, q) == Apply(base, p + q) + added
  {
    var q := ParameterPatch(parameters, values);
    assert forall a :: a in q ==> a.node in base;
    ApplyBesideNew(Apply(base, p), added, q);
    ApplyTwice(base, p, q);
  }

  lemma OutputsBesideNew(base: Graph, outputs: seq<Output>, p: Patch, added: Graph)
    requires base.Keys !! added.Keys
    requires forall i :: 0 <= i < |outputs| && outputs[i].helto ==> HasInputs(base, outputs[i].node)
    ensures Apply(Apply(base, p) + added, OutputPatch(outputs)) == Apply(base, p + OutputPatch(outputs)) + added
  {
    var o := OutputPatch(outputs);
    assert forall a :: a in o ==> a.node in base;
    ApplyBesideNew(Apply(base, p), added, o);
    ApplyTwice(base, p, o);
  }

  lemma TargetNodes(w: Workflow)
    requires Loadable(w)
    ensures forall n :: n in w.parameters ==>
              w.parameters[n].target.Some? && HasInputs(w.graph, w.parameters[n].target.value.node)
  {
    forall n | n in w.parameters
      ensures w.parameters[n].target.Some? && HasInputs(w.graph, w.parameters[n].target.value.node)
    {
      assert SpecOk(n, w.parameters[n], w.graph);
    }
  }

  lemma OutputNodes(w: Workflow)
    requires Loadable(w)
    ensures forall i :: 0 <= i < |w.outputs| && w.outputs[i].helto ==> HasInputs(w.graph, w.outputs[i].node)
  {
    forall i | 0 <= i < |w.outputs| && w.outputs[i].helto
      ensures HasInputs(w.graph, w.outputs[i].node)
    {
      assert OutputOk(w.outputs[i], w.graph, Mapped(w));
    }
  }
}
