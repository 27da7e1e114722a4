/** What the load-time checks buy: requests that pass validation are always written, each writer keeps
    to its own cells, and nothing else in the graph changes. */
module WorkflowTheorems {
  import opened Basics
  import opened Graphs
  import opened Workflows
  import opened WorkflowBuild

  // ---------------------------------------------------------------- normalize

  /** The default mode is a name that a string parameter may hold. */
  predicate ShortDefaultMode(w: Workflow) {
    w.modes.Some? ==> |w.modes.value.standard| <= MAX_LENGTH
  }

  lemma OwnSpec(w: Workflow, n: string)
    requires Loadable(w) && n in w.parameters
    ensures Parameters(w)[n] == w.parameters[n] && SpecOk(n, w.parameters[n], w.graph)
  {
  }

  /** In a loaded workflow no optional parameter can fail by being omitted, unless a mode file names its
      default mode by more characters than a string parameter may have. */
  lemma OmittedNeverFailsExactly(w: Workflow)
    requires Loadable(w)
    ensures (forall n :: n in Parameters(w) && !Parameters(w)[n].required ==> Optional(Parameters(w)[n]))
            <==> ShortDefaultMode(w)
  {
    AddedSpecs(w);
    if w.modes.Some? {
      ModeOptional(w.modes.value);
    }
    forall n | n in Parameters(w) && !Parameters(w)[n].required
      ensures Optional(Parameters(w)[n]) || (n == "mode" && w.modes.Some?)
    {
      if n in w.parameters {
        OwnSpec(w, n);
      }
    }
  }

  lemma ModeOptional(m: Modes)
    requires ModesReadable(m)
    ensures Optional(ModeSpec(m)) <==> |m.standard| <= MAX_LENGTH
  {
    assert Str(m.standard) in ModeSpec(m).choices.value;
  }

  const LONG: string := seq(MAX_LENGTH + 1, i => 'm')

  /** Such a workflow loads, and refuses the empty request that it should complete. */
  lemma LongDefaultMode()
    ensures var w := Workflow(map["o" := Opaque(true, 0)], map[], [Output("o", false)], None, None,
                              Some(Modes(LONG, map[LONG := Mode(map[], map[])])));
            Loadable(w) && !Accepts(w, map[])
  {
    var w := Workflow(map["o" := Opaque(true, 0)], map[], [Output("o", false)], None, None,
                      Some(Modes(LONG, map[LONG := Mode(map[], map[])])));
    assert ModeFits(w, Mode(map[], map[]));
    OmittedNeverFailsExactly(w);
    assert "mode" in Parameters(w) && !Answers(Parameters(w)["mode"], map[], "mode");
  }

  /** Completing a completed request changes nothing. */
  lemma NormalizeTwice(w: Workflow, p: Values)
    requires Loadable(w) && Accepts(w, p)
    ensures var full := Completed(Parameters(w), p);
            Accepts(w, full) && Completed(Parameters(w), full) == full
  {
    FitsTwice(Parameters(w), p);
  }

  lemma FitsTwice(specs: map<string, Spec>, p: Values)
    requires Fits(specs, p)
    ensures Fits(specs, Completed(specs, p)) && Completed(specs, Completed(specs, p)) == Completed(specs, p)
  {
    forall n | n in specs
      ensures Answers(specs[n], Completed(specs, p), n)
    {
      assert Answers(specs[n], p, n);
    }
  }

  /** Spelling a default out is the same as leaving it out. */
  lemma ExplicitDefault(w: Workflow, p: Values, n: string)
    requires Loadable(w) && Accepts(w, p)
    requires n in Parameters(w) && n !in p && Parameters(w)[n].standard.Some?
    ensures var spelled := p[n := Parameters(w)[n].standard.value];
            Accepts(w, spelled) && Completed(Parameters(w), spelled) == Completed(Parameters(w), p)
  {
    if n in w.parameters {
      OwnSpec(w, n);
    }
    SpelledOut(Parameters(w), p, n);
  }

  lemma SpelledOut(specs: map<string, Spec>, p: Values, n: string)
    requires Fits(specs, p) && n in specs && n !in p
    requires specs[n].standard.Some? && !specs[n].randomDefault
    ensures var spelled := p[n := specs[n].standard.value];
            Fits(specs, spelled) && Completed(specs, spelled) == Completed(specs, p)
  {
    var spelled := p[n := specs[n].standard.value];
    forall m | m in specs
      ensures Answers(specs[m], spelled, m)
    {
      assert Answers(specs[m], p, m);
    }
  }

  // ---------------------------------------------------------------- build

  /** An accepted request with its seed and an allowed number of references is never turned down. */
  lemma StaticChecksSuffice(w: Workflow, values: Values, count: nat)
    requires Loadable(w) && Accepts(w, values)
    requires Random(w) ==> "seed" in values
    requires MinCount(w) <= count <= MaxCount(w)
    ensures !Refuses(w, values, count) && values.Keys <= Parameters(w).Keys
  {
    AddedSpecs(w);
    AddedAnswers(Parameters(w), w.modes, values);
  }

  lemma AddedSpecs(w: Workflow)
    ensures w.modes.Some? ==> Kept(Parameters(w), map[], "mode") && Parameters(w)["mode"] == ModeSpec(w.modes.value)
    ensures w.loras.Some? ==> "nsfw" in Parameters(w) && Parameters(w)["nsfw"] == SWITCH
  {
  }

  /** The two parameters that the broker adds, in a loaded workflow: a mode is one of the mode file's names,
      by default its default one; a switch is a boolean, off by default. */
  lemma AddedParameters(w: Workflow, v: Val)
    requires Loadable(w)
    ensures w.modes.Some? ==>
              "mode" in Parameters(w) && Parameters(w)["mode"].standard == Some(Str(w.modes.value.standard))
              && !Parameters(w)["mode"].required && !Parameters(w)["mode"].randomDefault
              && (CheckValue(Parameters(w)["mode"], v) <==>
                    v.Str? && v.s in w.modes.value.definitions && |v.s| <= MAX_LENGTH)
    ensures w.loras.Some? ==>
              "nsfw" in Parameters(w) && Parameters(w)["nsfw"].standard == Some(Bool(false))
              && !Parameters(w)["nsfw"].required && !Parameters(w)["nsfw"].randomDefault
              && (CheckValue(Parameters(w)["nsfw"], v) <==> v.Bool?)
  {
    AddedSpecs(w);
    if w.modes.Some? {
      var names := ModeSpec(w.modes.value).choices.value;
      assert v.Str? ==> (v in names <==> v.s in w.modes.value.definitions);
    }
  }

  lemma AddedAnswers(specs: map<string, Spec>, modes: Option<Modes>, values: Values)
    requires Fits(specs, values)
    ensures modes.Some? && "mode" in specs && specs["mode"] == ModeSpec(modes.value) && "mode" in values ==>
              values["mode"].Str? && values["mode"].s in modes.value.definitions
    ensures "nsfw" in specs && specs["nsfw"] == SWITCH && "nsfw" in values ==> values["nsfw"].Bool?
  {
    if "mode" in specs {
      assert Answers(specs["mode"], values, "mode");
    }
    if "nsfw" in specs {
      assert Answers(specs["nsfw"], values, "nsfw");
    }
  }

  /** A whole request: completed, seeded and written. Only validation turns it down. */
  method Compile(w: Workflow, p: Values, below: nat, references: seq<Reference>)
    returns (written: bool, ghost values: Values, graph: Graph)
    requires Loadable(w)
    ensures written <==> Accepts(w, p) && MinCount(w) <= |references| <= MaxCount(w)
    ensures written ==>
              Accepts(w, values) && !Refuses(w, values, |references|)
              && (forall n :: n in p ==> n in values && values[n] == p[n])
              && graph == Apply(w.graph, Writes(w, values, |references|)) + NewNodes(w, references)
  {
    graph, written, values := w.graph, false, map[];
    var normal := Normalize(w, p);
    if normal.None? {
      return;
    }
    NormalizeTwice(w, p);
    var resolved := ResolveSeed(w, normal.value, below);
    values := resolved;
    if !(MinCount(w) <= |references| <= MaxCount(w)) {
      return;
    }
    StaticChecksSuffice(w, resolved, |references|);
    var outcome := Build(w, resolved, references);
    written, graph := true, outcome.graph;
  }

  // ---------------------------------------------------------------- separate writers

  /** A reference slot that is also the flag a Helto output is given. */
  predicate Shadowed(w: Workflow) {
    exists a :: a in Slots(w) && a in HeltoCells(w.outputs)
  }

  ghost function Writers(w: Workflow, values: Values, count: nat): seq<Patch> {
    [ModeWrites(w, values), LoraWrites(w, values), SlotWrites(w, count),
     ParameterPatch(w.parameters, values), OutputPatch(w.outputs)]
  }

  predicate AllApart(ps: seq<Patch>) {
    forall i, j :: 0 <= i < j < |ps| ==> Apart(ps[i], ps[j])
  }

  lemma HeltoCellsFree(w: Workflow, values: Values)
    requires Loadable(w)
    ensures HeltoCells(w.outputs) !! Mapped(w)
    ensures Apart(ModeWrites(w, values), OutputPatch(w.outputs))
  {
    forall i | 0 <= i < |w.outputs| && w.outputs[i].helto
      ensures OutputControl(w.outputs[i]) !in Mapped(w)
      ensures Protected(w, w.outputs[i].node)
    {
      assert OutputOk(w.outputs[i], w.graph, Mapped(w));
    }
    if w.modes.Some? && KnownMode(w, values) {
      ModeCells(w, values);
    }
  }

  /** The five writers touch disjoint cells, for every request, exactly when no reference slot is the
      flag of a Helto output; load does not check that one. */
  lemma WritersApartExactly(w: Workflow, values: Values, count: nat)
    requires Loadable(w)
    ensures AllApart(Writers(w, values, count)) <==> !Shadowed(w)
  {
    WriterCells(w, values, count);
    HeltoCellsFree(w, values);
    ModesFree(w, values);
    FiveApart(ModeWrites(w, values), LoraWrites(w, values), SlotWrites(w, count),
              ParameterPatch(w.parameters, values), OutputPatch(w.outputs),
              Controlled(w), Targets(w.parameters));
  }

  lemma ModesFree(w: Workflow, values: Values)
    requires Loadable(w)
    ensures ModeWrites(w, values).Keys !! Mapped(w) + Slots(w)
  {
    if KnownMode(w, values) {
      ModeCells(w, values);
    }
  }

  lemma FiveApart(m: Patch, l: Patch, s: Patch, p: Patch, o: Patch, controlled: set<Address>, targets: set<Address>)
    requires l.Keys <= controlled && p.Keys <= targets && controlled !! targets
    requires m.Keys !! controlled + targets + s.Keys && m.Keys !! o.Keys
    requires s.Keys !! controlled + targets && o.Keys !! controlled + targets
    ensures AllApart([m, l, s, p, o]) <==> !exists a :: a in s && a in o
  {
    var ps := [m, l, s, p, o];
    if AllApart(ps) {
      assert Apart(ps[2], ps[4]);
    }
  }

  lemma WriterCells(w: Workflow, values: Values, count: nat)
    requires Loadable(w)
    ensures LoraWrites(w, values).Keys <= Controlled(w)
    ensures SlotWrites(w, count).Keys == Slots(w)
    ensures ParameterPatch(w.parameters, values).Keys <= Targets(w.parameters)
    ensures OutputPatch(w.outputs).Keys == HeltoCells(w.outputs)
    ensures Mapped(w) !! Slots(w) && Controlled(w) !! Targets(w.parameters)
  {
  }

  function Merge(ps: seq<Patch>): Patch {
    if ps == [] then map[] else Merge(ps[..|ps| - 1]) + ps[|ps| - 1]
  }

  function Sequence(g: Graph, ps: seq<Patch>): Graph
    decreases |ps|
  {
    if ps == [] then g else Apply(Sequence(g, ps[..|ps| - 1]), ps[|ps| - 1])
  }

  lemma {:induction false} SequenceMerges(g: Graph, ps: seq<Patch>)
    ensures Sequence(g, ps) == Apply(g, Merge(ps))
    decreases |ps|
  {
    if ps == [] {
      ApplyNothing(g);
    } else {
      SequenceMerges(g, ps[..|ps| - 1]);
      ApplyTwice(g, Merge(ps[..|ps| - 1]), ps[|ps| - 1]);
    }
  }

  predicate Agree(ps: seq<Patch>) {
    forall p, q, a :: p in ps && q in ps && a in p && a in q ==> p[a] == q[a]
  }

  lemma {:induction false} MergedCell(ps: seq<Patch>, p: Patch, a: Address)
    requires Agree(ps) && p in ps && a in p
    ensures a in Merge(ps) && Merge(ps)[a] == p[a]
    decreases |ps|
  {
    var front, last := ps[..|ps| - 1], ps[|ps| - 1];
    assert ps == front + [last];
    if a !in last {
      MergedCell(front, p, a);
    }
  }

  lemma {:induction false} MergedFrom(ps: seq<Patch>, a: Address) returns (p: Patch)
    requires a in Merge(ps)
    ensures p in ps && a in p
    decreases |ps|
  {
    var front, last := ps[..|ps| - 1], ps[|ps| - 1];
    if a in last {
      p := last;
    } else {
      p := MergedFrom(front, a);
    }
  }

  lemma MergeAnyOrder(ps: seq<Patch>, qs: seq<Patch>)
    requires Agree(ps) && multiset(ps) == multiset(qs)
    ensures Merge(ps) == Merge(qs)
  {
    assert forall p :: p in ps <==> p in multiset(ps);
    assert forall p :: p in qs <==> p in multiset(qs);
    forall a: Address
      ensures a in Merge(ps) ==> a in Merge(qs) && Merge(qs)[a] == Merge(ps)[a]
      ensures a in Merge(qs) ==> a in Merge(ps)
    {
      if a in Merge(ps) {
        var p := MergedFrom(ps, a);
        MergedCell(ps, p, a);
        MergedCell(qs, p, a);
      }
      if a in Merge(qs) {
        var q := MergedFrom(qs, a);
        MergedCell(ps, q, a);
      }
    }
  }

  lemma ApartAgree(ps: seq<Patch>)
    requires AllApart(ps)
    ensures Agree(ps)
  {
    forall p, q, a | p in ps && q in ps && a in p && a in q
      ensures p[a] == q[a]
    {
      var i :| 0 <= i < |ps| && ps[i] == p;
      var j :| 0 <= j < |ps| && ps[j] == q;
      assert i == j;
    }
  }

  lemma WritesAreMerged(w: Workflow, values: Values, count: nat)
    ensures Writes(w, values, count) == Merge(Writers(w, values, count))
  {
    var ps := Writers(w, values, count);
    assert ps[..4][..3] == ps[..3] && ps[..3][..2] == ps[..2] && ps[..2][..1] == ps[..1];
    assert ps[..1][..0] == [];
    assert Merge(ps[..1]) == ps[0];
    assert Merge(ps[..2]) == ps[0] + ps[1];
    assert Merge(ps[..3]) == ps[0] + ps[1] + ps[2];
    assert Merge(ps[..4]) == ps[0] + ps[1] + ps[2] + ps[3];
  }

  /** The order of the writers does not matter. */
  lemma WritersInAnyOrder(w: Workflow, values: Values, count: nat, order: seq<Patch>)
    requires Loadable(w) && !Shadowed(w)
    requires multiset(order) == multiset(Writers(w, values, count))
    ensures Sequence(w.graph, order) == Apply(w.graph, Writes(w, values, count))
  {
    var ps := Writers(w, values, count);
    WritersApartExactly(w, values, count);
    ApartAgree(ps);
    MergeAnyOrder(ps, order);
    SequenceMerges(w.graph, order);
    WritesAreMerged(w, values, count);
  }

  // ---------------------------------------------------------------- what a built graph holds

  function Result(w: Workflow, references: seq<Reference>, writes: Patch): Graph {
    Apply(w.graph, writes) + NewNodes(w, references)
  }

  lemma ResultCell(w: Workflow, references: seq<Reference>, writes: Patch, a: Address)
    requires Loadable(w) && HasInputs(w.graph, a.node)
    ensures CellAt(Result(w, references, writes), a)
            == if a in writes then writes[a] else CellAt(w.graph, a)
  {
    NewNodesAreNew(w, references);
    PatchedCell(w.graph, writes, a);
  }

  /** The cells that the manifest and the chosen mode hand to the broker. */
  function Owned(w: Workflow, values: Values): set<Address> {
    ModeWrites(w, values).Keys + Mapped(w) + Slots(w) + HeltoCells(w.outputs)
  }

  /** Cells that nobody owns, opaque nodes, node kinds: all unchanged. The only new nodes are the
      references, under ids that the graph does not have. */
  lemma NothingElseChanges(w: Workflow, values: Values, references: seq<Reference>)
    requires Loadable(w) && !Refuses(w, values, |references|)
    ensures var g := Result(w, references, Writes(w, values, |references|));
            && (forall a: Address :: HasInputs(w.graph, a.node) && a !in Owned(w, values) ==>
                  CellAt(g, a) == CellAt(w.graph, a))
            && (forall n :: n in w.graph && w.graph[n].Opaque? ==> n in g && g[n] == w.graph[n])
            && (forall n :: n in w.graph && w.graph[n].Node? ==>
                  HasInputs(g, n) && g[n].kind == w.graph[n].kind)
            && (forall n :: n in g && n !in w.graph ==> n in Ids(w, |references|))
  {
    NewNodesAreNew(w, references);
    forall a: Address | HasInputs(w.graph, a.node) && a !in Owned(w, values)
      ensures CellAt(Result(w, references, Writes(w, values, |references|)), a) == CellAt(w.graph, a)
    {
      UnownedStays(w, values, references, a);
    }
  }

  lemma UnownedStays(w: Workflow, values: Values, references: seq<Reference>, a: Address)
    requires Loadable(w) && HasInputs(w.graph, a.node) && a !in Owned(w, values)
    ensures CellAt(Result(w, references, Writes(w, values, |references|)), a) == CellAt(w.graph, a)
  {
    WriterCells(w, values, |references|);
    ResultCell(w, references, Writes(w, values, |references|), a);
  }

  /** What slot i should hold. */
  function SlotCell(w: Workflow, count: nat, i: nat): Option<Cell>
    requires w.references.Some?
  {
    if i < count then Some(Link(Ids(w, count)[i])) else None
  }

  /** Reference i sits behind slot i through a node of its own, and the other slots are empty, exactly
      when no slot is the flag of a Helto output. */
  lemma ReferencesSitExactly(w: Workflow, values: Values, references: seq<Reference>)
    requires Loadable(w) && !Refuses(w, values, |references|) && w.references.Some?
    ensures var r := w.references.value;
            var g := Result(w, references, Writes(w, values, |references|));
            (forall i :: 0 <= i < |r.slots| ==>
               CellAt(g, Address(r.generator, r.slots[i])) == SlotCell(w, |references|, i))
            <==> !Shadowed(w)
  {
    var r := w.references.value;
    forall i | 0 <= i < |r.slots|
      ensures CellAt(Result(w, references, Writes(w, values, |references|)), Address(r.generator, r.slots[i]))
              == SlotCell(w, |references|, i)
              <==> Address(r.generator, r.slots[i]) !in HeltoCells(w.outputs)
    {
      SlotResult(w, values, references, i);
    }
    SomeSlotShadowed(w);
  }

  lemma SomeSlotShadowed(w: Workflow)
    requires w.references.Some?
    ensures var r := w.references.value;
            Shadowed(w) <==> exists i :: 0 <= i < |r.slots| && Address(r.generator, r.slots[i]) in HeltoCells(w.outputs)
  {
    var r := w.references.value;
    if Shadowed(w) {
      var a :| a in Slots(w) && a in HeltoCells(w.outputs);
      assert a == Address(r.generator, r.slots[SlotAt(r, a)]);
    }
    forall i | 0 <= i < |r.slots|
      ensures Address(r.generator, r.slots[i]) in Slots(w)
    {
    }
  }

  lemma SlotResult(w: Workflow, values: Values, references: seq<Reference>, i: nat)
    requires Loadable(w) && !Refuses(w, values, |references|)
    requires w.references.Some? && i < |w.references.value.slots|
    ensures var a := Address(w.references.value.generator, w.references.value.slots[i]);
            CellAt(Result(w, references, Writes(w, values, |references|)), a)
            == if a in HeltoCells(w.outputs) then Some(Plain(Bool(true)))
               else SlotCell(w, |references|, i)
  {
    var r := w.references.value;
    var a := Address(r.generator, r.slots[i]);
    SlotIndex(r, i);
    WriterCells(w, values, |references|);
    ModesFree(w, values);
    ResultCell(w, references, Writes(w, values, |references|), a);
  }

  /** A node that is new, of the loader's kind, holds the texts of the reference, and holds whatever else
      the loader has. */
  ghost predicate Shows(w: Workflow, g: Graph, reference: Reference, id: string)
    requires w.references.Some? && HasInputs(w.graph, w.references.value.loader)
  {
    var loader := w.references.value.loader;
    && id !in w.graph && HasInputs(g, id) && g[id].kind == w.graph[loader].kind
    && (forall k :: k in reference ==> CellAt(g, Address(id, k)) == Some(Plain(Str(reference[k]))))
    && (forall k :: k !in reference ==> CellAt(g, Address(id, k)) == CellAt(w.graph, Address(loader, k)))
  }

  lemma ReferenceNode(w: Workflow, references: seq<Reference>, writes: Patch, i: nat)
    requires Loadable(w) && w.references.Some? && i < |references|
    ensures var id, g := Ids(w, |references|)[i], Result(w, references, writes);
            id !in w.graph && id in g && g[id] == Loaded(w.graph[w.references.value.loader], references[i])
  {
    var ids := Ids(w, |references|);
    assert ids[i] in ids;
    assert IndexOf(ids, ids[i]) == i;
  }

  lemma LoadedShows(w: Workflow, g: Graph, reference: Reference, id: string)
    requires w.references.Some? && HasInputs(w.graph, w.references.value.loader)
    requires id !in w.graph && id in g && g[id] == Loaded(w.graph[w.references.value.loader], reference)
    ensures Shows(w, g, reference, id)
  {
  }

  /** The cells of the node of reference i. */
  lemma ReferenceCells(w: Workflow, references: seq<Reference>, writes: Patch, i: nat)
    requires Loadable(w) && w.references.Some? && i < |references|
    ensures Shows(w, Result(w, references, writes), references[i], Ids(w, |references|)[i])
  {
    ReferenceNode(w, references, writes, i);
    LoadedShows(w, Result(w, references, writes), references[i], Ids(w, |references|)[i]);
  }

  /** Every reference of a request, in a workflow without a shadowed slot: slot i links a node that shows
      reference i, no two slots link the same node, and the slots behind the last reference are empty. */
  lemma ReferencesArrive(w: Workflow, values: Values, references: seq<Reference>, i: nat)
    requires Loadable(w) && !Refuses(w, values, |references|) && w.references.Some? && !Shadowed(w)
    requires i < |w.references.value.slots|
    ensures var r := w.references.value;
            var g := Result(w, references, Writes(w, values, |references|));
            var slot := CellAt(g, Address(r.generator, r.slots[i]));
            if i < |references| then
              && slot.Some? && slot.value.Link? && Shows(w, g, references[i], slot.value.node)
              && (forall j :: 0 <= j < |r.slots| && j != i ==> CellAt(g, Address(r.generator, r.slots[j])) != slot)
            else slot.None?
  {
    SlotCells(w, values, references);
    if i < |references| {
      ReferenceCells(w, references, Writes(w, values, |references|), i);
    }
  }

  lemma SlotCells(w: Workflow, values: Values, references: seq<Reference>)
    requires Loadable(w) && !Refuses(w, values, |references|) && w.references.Some? && !Shadowed(w)
    ensures var r := w.references.value;
            var g := Result(w, references, Writes(w, values, |references|));
            forall j :: 0 <= j < |r.slots| ==>
              CellAt(g, Address(r.generator, r.slots[j])) == SlotCell(w, |references|, j)
  {
    ReferencesSitExactly(w, values, references);
  }

  /** The name of the mode that a request runs in. */
  function Running(w: Workflow, values: Values): Val
    requires w.modes.Some?
  {
    if "mode" in values then values["mode"] else Str(w.modes.value.standard)
  }

  /** Every value lands in its cell; every switchable LoRA is on exactly if the request says so, and off
      if it says nothing, and stays the same LoRA; every Helto output is marked. */
  lemma ValuesLand(w: Workflow, values: Values, references: seq<Reference>)
    requires Loadable(w) && !Refuses(w, values, |references|)
    ensures var g := Result(w, references, Writes(w, values, |references|));
            && (forall n :: n in values && n in w.parameters ==>
                  CellAt(g, w.parameters[n].target.value) == Some(Plain(values[n])))
            && (forall a :: a in Controlled(w) ==>
                  var was, now := CellAt(w.graph, a), CellAt(g, a);
                  && was.Some? && was.value.Row? && now.Some? && now.value.Row?
                  && now.value.lora == was.value.lora && now.value.rest == was.value.rest
                  && (now.value.on <==> "nsfw" in values && values["nsfw"] == Bool(true)))
            && (forall a :: a in HeltoCells(w.outputs) ==> CellAt(g, a) == Some(Plain(Bool(true))))
  {
    var writes := Writes(w, values, |references|);
    WriterCells(w, values, |references|);
    HeltoCellsFree(w, values);
    forall n | n in values && n in w.parameters
      ensures CellAt(Result(w, references, writes), w.parameters[n].target.value) == Some(Plain(values[n]))
    {
      OwnSpec(w, n);
      ParameterCell(w.parameters, values, n);
      ResultCell(w, references, writes, w.parameters[n].target.value);
    }
    forall a | a in Controlled(w)
      ensures RowOk(CellAt(w.graph, a))
      ensures CellAt(Result(w, references, writes), a)
              == Some(CellAt(w.graph, a).value.(on := "nsfw" in values && values["nsfw"] == Bool(true)))
    {
      SwitchLands(w, values, references, a);
    }
    OutputNodes(w);
    forall a | a in HeltoCells(w.outputs)
      ensures CellAt(Result(w, references, writes), a) == Some(Plain(Bool(true)))
    {
      ResultCell(w, references, writes, a);
    }
  }

  lemma SwitchLands(w: Workflow, values: Values, references: seq<Reference>, a: Address)
    requires Loadable(w) && !Refuses(w, values, |references|) && a in Controlled(w)
    ensures RowOk(CellAt(w.graph, a))
    ensures CellAt(Result(w, references, Writes(w, values, |references|)), a)
            == Some(CellAt(w.graph, a).value.(on := "nsfw" in values && values["nsfw"] == Bool(true)))
  {
    WriterCells(w, values, |references|);
    HeltoCellsFree(w, values);
    ResultCell(w, references, Writes(w, values, |references|), a);
  }

  /** What the mode of the request sets is set, and what it removes is gone, whatever the others write; a
      request that names no mode runs in the default one. */
  lemma ModeLands(w: Workflow, values: Values, references: seq<Reference>, node: string, input: string)
    requires Loadable(w) && !Refuses(w, values, |references|) && w.modes.Some?
    ensures Running(w, values).Str? && Running(w, values).s in w.modes.value.definitions
    ensures var g := Result(w, references, Writes(w, values, |references|));
            var mode := w.modes.value.definitions[Running(w, values).s];
            && (node in mode.puts && input in mode.puts[node] ==>
                  CellAt(g, Address(node, input)) == Some(mode.puts[node][input]))
            && (node in mode.drops && input in mode.drops[node] ==> CellAt(g, Address(node, input)).None?)
  {
    var a := Address(node, input);
    ModeWritesCell(w, values, a);
    if a in ModeWrites(w, values) {
      ModeCellStays(w, values, references, a);
    }
  }

  lemma ModeWritesCell(w: Workflow, values: Values, a: Address)
    requires Loadable(w) && KnownMode(w, values) && w.modes.Some?
    ensures Running(w, values).Str? && Running(w, values).s in w.modes.value.definitions
    ensures var mode := w.modes.value.definitions[Running(w, values).s];
            var writes := ModeWrites(w, values);
            && (a.node in mode.puts && a.input in mode.puts[a.node] ==>
                  a in writes && writes[a] == Some(mode.puts[a.node][a.input]))
            && (a.node in mode.drops && a.input in mode.drops[a.node] ==> a in writes && writes[a].None?)
  {
    var mode := w.modes.value.definitions[Running(w, values).s];
    assert ModeReadable(mode);
    PatchCell(mode, a);
  }

  lemma PatchCell(mode: Mode, a: Address)
    requires ModeReadable(mode)
    ensures var writes := ModePatch(mode);
            && (a.node in mode.puts && a.input in mode.puts[a.node] ==>
                  a in writes && writes[a] == Some(mode.puts[a.node][a.input]))
            && (a.node in mode.drops && a.input in mode.drops[a.node] ==> a in writes && writes[a].None?)
  {
    if a.node in mode.puts && a.input in mode.puts[a.node] {
      assert a in PutCells(mode.puts);
      assert a !in DropCells(mode.drops);
    }
    if a.node in mode.drops && a.input in mode.drops[a.node] {
      assert a in DropCells(mode.drops);
    }
  }

  lemma ModeCellStays(w: Workflow, values: Values, references: seq<Reference>, a: Address)
    requires Loadable(w) && !Refuses(w, values, |references|) && a in ModeWrites(w, values)
    ensures CellAt(Result(w, references, Writes(w, values, |references|)), a) == ModeWrites(w, values)[a]
  {
    WriterCells(w, values, |references|);
    HeltoCellsFree(w, values);
    ModesFree(w, values);
    ModeCells(w, values);
    ResultCell(w, references, Writes(w, values, |references|), a);
  }

  const HELTO: Inputs := map[
    "reference_only" := Plain(Bool(false)), "privacy_mode" := Plain(Bool(false)),
    "save_image" := Plain(Bool(true)), "pause_mode" := Plain(Bool(false)),
    "use_alternative_folder" := Plain(Bool(false)), "use_date_folder" := Plain(Bool(false)),
    "folder" := Plain(Str("/out"))]

  const LOADER: Inputs := map[
    "root" := Plain(Str("r")), "subfolder" := Plain(Str("")), "filename" := Plain(Str("f"))]

  const SHADOWED := Workflow(
    map["out" := Node("HeltoSaveImageAdvanced", HELTO), "load" := Node("HeltoLoadImageFromRoot", LOADER)],
    map[], [Output("out", true)], None, Some(References("out", "load", ["reference_only"], 0)), None)

  /** Such a workflow loads, and its one reference is lost: the slot holds the flag instead. */
  lemma ShadowedReferenceIsLost(reference: Reference)
    ensures Loadable(SHADOWED) && !Refuses(SHADOWED, map[], 1)
    ensures var g := Result(SHADOWED, [reference], Writes(SHADOWED, map[], 1));
            CellAt(g, Address("out", "reference_only")) == Some(Plain(Bool(true)))
  {
    var w := SHADOWED;
    assert OutputOk(w.outputs[0], w.graph, {});
    assert Mapped(w) == {};
    assert ReferencesOk(w.references.value, w.graph, {});
    SlotResult(w, map[], [reference], 0);
    assert OutputControl(w.outputs[0]) in HeltoCells(w.outputs);
  }

  // ---------------------------------------------------------------- outputs keep saving

  /** What a Helto output was checked for at load: its switches and the text of its destination. */
  function Checked(inputs: Inputs): set<string> {
    {"privacy_mode", "save_image", "pause_mode", "use_alternative_folder", "use_date_folder"}
    + {if FlagIs(inputs, "use_alternative_folder", true) then "alternative_folder" else "folder"}
    + if "subfolder" in inputs then {"subfolder"} else {}
  }

  predicate HeltoInput(w: Workflow, i: int, k: string) {
    && 0 <= i < |w.outputs| && w.outputs[i].helto && HasInputs(w.graph, w.outputs[i].node)
    && k in Checked(w.graph[w.outputs[i].node].inputs)
  }

  /** Every Helto output still saves, unpaused and to the destination that was checked, exactly when no
      reference slot is one of its checked inputs; load does not check that either. */
  lemma OutputsStayExactly(w: Workflow, values: Values, references: seq<Reference>)
    requires Loadable(w) && !Refuses(w, values, |references|)
    ensures var g := Result(w, references, Writes(w, values, |references|));
            (forall i, k :: HeltoInput(w, i, k) ==>
               CellAt(g, Address(w.outputs[i].node, k)) == CellAt(w.graph, Address(w.outputs[i].node, k)))
            <==> (forall i, k :: HeltoInput(w, i, k) ==> Address(w.outputs[i].node, k) !in Slots(w))
  {
    forall i, k | HeltoInput(w, i, k)
      ensures CellAt(Result(w, references, Writes(w, values, |references|)), Address(w.outputs[i].node, k))
              == CellAt(w.graph, Address(w.outputs[i].node, k))
              <==> Address(w.outputs[i].node, k) !in Slots(w)
    {
      OutputInput(w, values, references, i, k);
    }
  }

  lemma OutputInput(w: Workflow, values: Values, references: seq<Reference>, i: nat, k: string)
    requires Loadable(w) && !Refuses(w, values, |references|) && HeltoInput(w, i, k)
    ensures CellAt(Result(w, references, Writes(w, values, |references|)), Address(w.outputs[i].node, k))
            == CellAt(w.graph, Address(w.outputs[i].node, k))
            <==> Address(w.outputs[i].node, k) !in Slots(w)
  {
    var a := Address(w.outputs[i].node, k);
    NotWritten(w, values, i, k);
    if a in Slots(w) {
      var r := w.references.value;
      var j :| 0 <= j < |r.slots| && Address(r.generator, r.slots[j]) == a;
      SlotResult(w, values, references, j);
    } else {
      UnownedStays(w, values, references, a);
    }
  }

  lemma NotWritten(w: Workflow, values: Values, i: nat, k: string)
    requires Loadable(w) && KnownMode(w, values) && HeltoInput(w, i, k)
    ensures var a := Address(w.outputs[i].node, k);
            && a !in HeltoCells(w.outputs) && a !in Mapped(w) && a !in ModeWrites(w, values)
            && CellAt(w.graph, a).Some? && CellAt(w.graph, a).value.Plain?
  {
    var a := Address(w.outputs[i].node, k);
    assert OutputOk(w.outputs[i], w.graph, Mapped(w));
    assert Protected(w, w.outputs[i].node);
    if w.modes.Some? {
      ModeCells(w, values);
    }
  }

  const UNSAVED := SHADOWED.(references := Some(References("out", "load", ["save_image"], 0)))

  /** Such a workflow loads, and whatever the request, its output is no longer told to save. */
  lemma SavingIsLost(references: seq<Reference>)
    requires |references| <= 1
    ensures Loadable(UNSAVED) && !Refuses(UNSAVED, map[], |references|)
    ensures var g := Result(UNSAVED, references, Writes(UNSAVED, map[], |references|));
            CellAt(g, Address("out", "save_image")) != Some(Plain(Bool(true)))
  {
    var w := UNSAVED;
    assert OutputOk(w.outputs[0], w.graph, {});
    assert Mapped(w) == {};
    assert ReferencesOk(w.references.value, w.graph, {});
    assert HeltoInput(w, 0, "save_image");
    assert Address("out", w.references.value.slots[0]) in Slots(w);
    OutputInput(w, map[], references, 0, "save_image");
  }

  // ---------------------------------------------------------------- what a parameter takes

  /** What a sound parameter accepts, kind by kind: no value of another kind, and within its bounds every
      value of its own that is one of its choices. */
  lemma AcceptsExactly(name: string, spec: Spec, g: Graph, v: Val)
    requires SpecOk(name, spec, g)
    ensures var chosen := spec.choices.Some? ==> v in spec.choices.value;
            CheckValue(spec, v) <==>
              chosen && match v
                        case Bool(_) => spec.kind.TBoolean?
                        case Str(text) =>
                          && spec.kind.TString?
                          && (spec.minLength.Some? ==> spec.minLength.value <= |text|)
                          && |text| <= (if spec.maxLength.Some? then spec.maxLength.value else 65536)
                        case Int(n) =>
                          && (spec.kind.TInteger? || spec.kind.TNumber?) && Between(spec, n as real)
                          && (spec.multipleOf.Some? ==> n % spec.multipleOf.value == 0)
                        case Real(x) => spec.kind.TNumber? && Between(spec, x)
                        case _ => false
  {
  }

  predicate Between(spec: Spec, x: real) {
    && (match spec.minimum case None => true case Some(Int(m)) => m as real <= x case Some(Real(m)) => m <= x
                           case _ => false)
    && (match spec.maximum case None => true case Some(Int(m)) => x <= m as real case Some(Real(m)) => x <= m
                           case _ => false)
  }
}
