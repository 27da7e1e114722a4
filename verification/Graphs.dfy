/** API workflow graphs as the broker edits them: cells addressed by node and input, patches of
    cells, and node ids that are not taken yet. */
module Graphs {
  import opened Basics

  /** A parameter value, by its Python type. */
  datatype Val = Str(s: string) | Int(i: int) | Real(r: real) | NonFinite | Bool(b: bool) | OtherVal

  /** The content of an input. A row is one switchable LoRA; rest is what the broker never reads. */
  datatype Cell = Plain(v: Val) | Link(node: string) | Row(on: bool, lora: string, rest: nat) | OtherCell(id: nat)

  type Inputs = map<string, Cell>

  /** A node is opaque when it is no object, or an object without an inputs object. */
  datatype Node = Opaque(isObject: bool, id: nat) | Node(kind: string, inputs: Inputs)

  type Graph = map<string, Node>

  datatype Address = Address(node: string, input: string)

  /** What writers do: set some cells, remove others. */
  type Patch = map<Address, Option<Cell>>

  predicate HasInputs(g: Graph, node: string) {
    node in g && g[node].Node?
  }

  function Touched(p: Patch, node: string): set<string> {
    set a | a in p && a.node == node :: a.input
  }

  predicate Removed(p: Patch, node: string, input: string) {
    Address(node, input) in p && p[Address(node, input)].None?
  }

  function PatchInputs(inputs: Inputs, node: string, p: Patch): Inputs {
    map i | i in inputs.Keys + Touched(p, node) && !Removed(p, node, i) ::
      if Address(node, i) in p then p[Address(node, i)].value else inputs[i]
  }

  function PatchNode(n: Node, node: string, p: Patch): Node {
    if n.Opaque? then n else n.(inputs := PatchInputs(n.inputs, node, p))
  }

  function Apply(g: Graph, p: Patch): Graph {
    map n | n in g :: PatchNode(g[n], n, p)
  }

  function CellAt(g: Graph, a: Address): Option<Cell> {
    if HasInputs(g, a.node) && a.input in g[a.node].inputs then Some(g[a.node].inputs[a.input]) else None
  }

  /** A patched cell holds what the patch says, any other cell what it held. */
  lemma PatchedCell(g: Graph, p: Patch, a: Address)
    requires HasInputs(g, a.node)
    ensures CellAt(Apply(g, p), a) == if a in p then p[a] else CellAt(g, a)
  {
    if a in p {
      assert a.input in Touched(p, a.node);
    }
  }

  lemma SameNode(a: Node, b: Node)
    requires a.Node? && b.Node? && a.kind == b.kind
    requires forall i :: i in a.inputs <==> i in b.inputs
    requires forall i :: i in a.inputs && i in b.inputs ==> a.inputs[i] == b.inputs[i]
    ensures a == b
  {
    assert a.inputs == b.inputs;
  }

  /** Graphs with the same nodes and the same cells are the same. */
  lemma SameGraph(g: Graph, h: Graph)
    requires g.Keys == h.Keys
    requires forall n :: n in g ==> g[n].Node? == h[n].Node?
    requires forall n :: n in g && g[n].Opaque? ==> g[n] == h[n]
    requires forall n :: n in g && g[n].Node? ==> g[n].kind == h[n].kind
    requires forall a: Address :: HasInputs(g, a.node) ==> CellAt(g, a) == CellAt(h, a)
    ensures g == h
  {
    forall n | n in g
      ensures g[n] == h[n]
    {
      if g[n].Node? {
        forall i: string
          ensures i in g[n].inputs <==> i in h[n].inputs
          ensures i in g[n].inputs && i in h[n].inputs ==> g[n].inputs[i] == h[n].inputs[i]
        {
          assert CellAt(g, Address(n, i)) == CellAt(h, Address(n, i));
        }
        SameNode(g[n], h[n]);
      }
    }
  }

  /** Two patches one after the other are one patch, the later winning where they meet. */
  lemma ApplyTwice(g: Graph, p: Patch, q: Patch)
    ensures Apply(Apply(g, p), q) == Apply(g, p + q)
  {
    var gp := Apply(g, p);
    forall a: Address | HasInputs(g, a.node)
      ensures CellAt(Apply(gp, q), a) == CellAt(Apply(g, p + q), a)
    {
      PatchedCell(g, p, a);
      PatchedCell(gp, q, a);
      PatchedCell(g, p + q, a);
    }
    SameGraph(Apply(gp, q), Apply(g, p + q));
  }

  lemma ApplyNothing(g: Graph)
    ensures Apply(g, map[]) == g
  {
    forall a: Address | HasInputs(g, a.node)
      ensures CellAt(Apply(g, map[]), a) == CellAt(g, a)
    {
      PatchedCell(g, map[], a);
    }
    SameGraph(Apply(g, map[]), g);
  }

  predicate Apart(p: Patch, q: Patch) {
    p.Keys !! q.Keys
  }

  /** Setting one cell in place. */
  function SetCell(g: Graph, a: Address, c: Cell): Graph
    requires HasInputs(g, a.node)
  {
    g[a.node := g[a.node].(inputs := g[a.node].inputs[a.input := c])]
  }

  /** Removing one cell in place, if it is there. */
  function PopCell(g: Graph, a: Address): Graph
    requires HasInputs(g, a.node)
  {
    g[a.node := g[a.node].(inputs := g[a.node].inputs - {a.input})]
  }

  lemma SetIsPatch(g: Graph, a: Address, c: Cell)
    requires HasInputs(g, a.node)
    ensures SetCell(g, a, c) == Apply(g, map[a := Some(c)])
  {
    var h := SetCell(g, a, c);
    forall b: Address | HasInputs(g, b.node)
      ensures CellAt(h, b) == CellAt(Apply(g, map[a := Some(c)]), b)
    {
      PatchedCell(g, map[a := Some(c)], b);
    }
    SameGraph(h, Apply(g, map[a := Some(c)]));
  }

  lemma PopIsPatch(g: Graph, a: Address)
    requires HasInputs(g, a.node)
    ensures PopCell(g, a) == Apply(g, map[a := None])
  {
    var h := PopCell(g, a);
    forall b: Address | HasInputs(g, b.node)
      ensures CellAt(h, b) == CellAt(Apply(g, map[a := None]), b)
    {
      PatchedCell(g, map[a := None], b);
    }
    SameGraph(h, Apply(g, map[a := None]));
  }

  lemma AddToPatch(p: Patch, a: Address, c: Option<Cell>)
    ensures p + map[a := c] == p[a := c]
  {
  }

  /** In a graph patched so far, setting one more cell is one more entry in the patch. */
  lemma SetStep(g: Graph, p: Patch, h: Graph, a: Address, c: Cell)
    requires h == Apply(g, p) && HasInputs(g, a.node)
    ensures HasInputs(h, a.node) && SetCell(h, a, c) == Apply(g, p[a := Some(c)])
  {
    SetIsPatch(h, a, c);
    ApplyTwice(g, p, map[a := Some(c)]);
    AddToPatch(p, a, Some(c));
  }

  lemma PopStep(g: Graph, p: Patch, h: Graph, a: Address)
    requires h == Apply(g, p) && HasInputs(g, a.node)
    ensures HasInputs(h, a.node) && PopCell(h, a) == Apply(g, p[a := None])
  {
    PopIsPatch(h, a);
    ApplyTwice(g, p, map[a := None]);
    AddToPatch(p, a, None);
  }

  /** Nodes added under ids that are not taken do not meet a patch of the others. */
  lemma ApplyBesideNew(g: Graph, added: Graph, p: Patch)
    requires g.Keys !! added.Keys
    requires forall a :: a in p ==> a.node !in added
    ensures Apply(g + added, p) == Apply(g, p) + added
  {
    forall n | n in added
      ensures PatchNode(added[n], n, p) == added[n]
    {
      assert Touched(p, n) == {};
      if added[n].Node? {
        assert PatchInputs(added[n].inputs, n, p) == added[n].inputs;
      }
    }
  }

  // ---------------------------------------------------------------- fresh node ids

  function Longer(taken: set<string>, n: nat): set<string> {
    set k | k in taken && |k| >= n
  }

  lemma LongerShrinks(taken: set<string>, id: string)
    requires id in taken
    ensures |Longer(taken, |id| + 1)| < |Longer(taken, |id|)|
  {
    var longer, all := Longer(taken, |id| + 1), Longer(taken, |id|);
    assert id in all && id !in longer;
    Smaller(longer, all);
  }

  lemma {:induction false} Smaller(a: set<string>, b: set<string>)
    requires a < b
    ensures |a| < |b|
  {
    var x :| x in b && x !in a;
    Subset(a, b - {x});
  }

  lemma {:induction false} Subset(a: set<string>, b: set<string>)
    requires a <= b
    ensures |a| <= |b|
    decreases a
  {
    if a != {} {
      var x :| x in a;
      Subset(a - {x}, b - {x});
    }
  }

  /** The id itself, or the id with as few underscores behind it as make it new. */
  function FreshId(id: string, taken: set<string>): (r: string)
    ensures r !in taken && id <= r
    ensures forall k :: |id| <= k < |r| ==> r[k] == '_' && r[..k] in taken
    decreases |Longer(taken, |id|)|
  {
    if id !in taken then id
    else
      LongerShrinks(taken, id);
      var r := FreshId(id + "_", taken);
      assert r[..|id|] == id;
      r
  }

  function Decimal(n: nat): string {
    if n < 10 then ["0123456789"[n]] else Decimal(n / 10) + ["0123456789"[n % 10]]
  }

  /** The ids of the first n reference nodes. */
  function ReferenceIds(taken: set<string>, n: nat): (ids: seq<string>)
    ensures |ids| == n
    ensures forall i :: 0 <= i < n ==> ids[i] !in taken
    ensures forall i, j :: 0 <= i < j < n ==> ids[i] != ids[j]
  {
    if n == 0 then []
    else
      var before := ReferenceIds(taken, n - 1);
      before + [FreshId("mcp_reference_" + Decimal(n), taken + set id | id in before)]
  }
}
