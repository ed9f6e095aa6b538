/**
 Whole runs of the forest: any interleaving of additions and prunings against the forest that is
 never pruned, and against the set of blocks that were added.
 */
module ForestRuns {
  import opened Types
  import opened Forests

  datatype Op = Add(v: Block) | Prune(level: nat)

  /** PruneUpToLevel refuses to move down. */
  function Apply(f: Forest, op: Op): Forest {
    match op
    case Add(v) => AddVertex(f, v)
    case Prune(level) => if level < f.lowest then f else Restrict(f, level)
  }

  function Run(ops: seq<Op>): Forest {
    if ops == [] then EMPTY_FOREST else Apply(Run(ops[..|ops| - 1]), ops[|ops| - 1])
  }

  /** The simple forest: additions only. */
  function AppendOnly(vs: seq<Block>): Forest {
    if vs == [] then EMPTY_FOREST else AddVertex(AppendOnly(vs[..|vs| - 1]), vs[|vs| - 1])
  }

  function Additions(ops: seq<Op>): seq<Block> {
    if ops == [] then []
    else Additions(ops[..|ops| - 1]) + if ops[|ops| - 1].Add? then [ops[|ops| - 1].v] else []
  }

  /** The highest level pruned to. */
  function PrunedTo(ops: seq<Op>): nat {
    if ops == [] then 0 else
    var before := PrunedTo(ops[..|ops| - 1]);
    match ops[|ops| - 1]
    case Add(_) => before
    case Prune(level) => if level < before then before else level
  }

  ghost predicate AllFit(lev: Id -> nat, vs: seq<Block>) {
    forall i :: 0 <= i < |vs| ==> Fits(lev, vs[i])
  }

  // Restriction commutes with each write.

  lemma RestrictCreateBelow(f: Forest, id: Id, level: nat, low: nat)
    requires id !in f.vertices && level < low
    ensures Restrict(Create(f, id, level), low) == Restrict(f, low)
  {
    var g := Create(f, id, level);
    assert Restrict(g, low).vertices == Restrict(f, low).vertices;
    assert Restrict(g, low).levels == Restrict(f, low).levels;
  }

  lemma RestrictCreateKept(f: Forest, id: Id, level: nat, low: nat)
    requires id !in f.vertices && level >= low
    ensures Restrict(Create(f, id, level), low) == Create(Restrict(f, low), id, level)
  {
    var g, h := Create(f, id, level), Restrict(f, low);
    assert h.AtLevel(level) == f.AtLevel(level);
    assert Restrict(g, low).vertices == Create(h, id, level).vertices;
    assert Restrict(g, low).levels == Create(h, id, level).levels;
  }

  lemma RestrictCreate(f: Forest, lev: Id -> nat, id: Id, low: nat)
    requires Levels(f, lev)
    ensures Restrict(Create(f, id, lev(id)), low) ==
            if lev(id) < low then Restrict(f, low) else Create(Restrict(f, low), id, lev(id))
  {
    if id !in f.vertices {
      if lev(id) < low {
        RestrictCreateBelow(f, id, lev(id), low);
      } else {
        RestrictCreateKept(f, id, lev(id), low);
      }
    }
  }

  lemma RestrictFill(f: Forest, id: Id, v: Block, low: nat)
    requires id in f.vertices
    ensures Restrict(Fill(f, id, v), low) ==
            if f.vertices[id].level < low then Restrict(f, low) else Fill(Restrict(f, low), id, v)
  {
    if f.vertices[id].level < low {
      assert Restrict(Fill(f, id, v), low).vertices == Restrict(f, low).vertices;
    } else {
      assert Restrict(Fill(f, id, v), low).vertices == Fill(Restrict(f, low), id, v).vertices;
    }
  }

  lemma RestrictLink(f: Forest, parent: Id, child: Id, low: nat)
    requires parent in f.vertices
    ensures Restrict(Link(f, parent, child), low) ==
            if f.vertices[parent].level < low then Restrict(f, low) else Link(Restrict(f, low), parent, child)
  {
    if f.vertices[parent].level < low {
      assert Restrict(Link(f, parent, child), low).vertices == Restrict(f, low).vertices;
    } else {
      assert Restrict(Link(f, parent, child), low).vertices == Link(Restrict(f, low), parent, child).vertices;
    }
  }

  lemma RestrictRegister(f: Forest, lev: Id -> nat, v: Block, low: nat)
    requires Levels(f, lev) && Fits(lev, v) && low >= f.lowest
    requires f.GetVertex(v.id) == Some(v)
    ensures Restrict(RegisterWithParent(f, v.id), low) ==
            if v.view < low then Restrict(f, low) else RegisterWithParent(Restrict(f, low), v.id)
  {
    assert f.vertices[v.id].level == v.view;
    if v.view > f.lowest && v.ParentLevel() >= f.lowest {
      RestrictCreate(f, lev, v.prevId, low);
      RestrictLink(Create(f, v.prevId, v.ParentLevel()), v.prevId, v.id, low);
    }
  }

  /** Pruning after an addition is the addition after pruning. */
  lemma RestrictAdd(f: Forest, lev: Id -> nat, v: Block, low: nat)
    requires Levels(f, lev) && Fits(lev, v) && low >= f.lowest
    ensures Restrict(AddVertex(f, v), low) == AddVertex(Restrict(f, low), v)
  {
    hide RegisterWithParent;
    if v.view >= f.lowest {
      var g := Create(f, v.id, v.view);
      RestrictCreate(f, lev, v.id, low);
      if !g.Full(v.id) {
        var h := Fill(g, v.id, v);
        RestrictFill(g, v.id, v, low);
        RestrictRegister(h, lev, v, low);
      }
    }
  }

  /** Additions only append: whatever comes first at a level or among the children of an id stays first. */
  lemma AddAppends(f: Forest, v: Block, l: nat, id: Id)
    ensures f.AtLevel(l) <= AddVertex(f, v).AtLevel(l)
    ensures ChildrenOf(f, id) <= ChildrenOf(AddVertex(f, v), id)
  {
  }

  lemma RestrictTwice(f: Forest, low: nat, level: nat)
    requires low <= level
    ensures Restrict(Restrict(f, low), level) == Restrict(f, level)
  {
    assert Restrict(Restrict(f, low), level).vertices == Restrict(f, level).vertices;
    assert Restrict(Restrict(f, low), level).levels == Restrict(f, level).levels;
  }

  lemma EmptyGood(lev: Id -> nat)
    ensures Good(EMPTY_FOREST, lev) && EMPTY_FOREST.lowest == 0
  {
  }

  lemma {:induction false} AppendOnlyGood(lev: Id -> nat, vs: seq<Block>)
    requires AllFit(lev, vs)
    ensures Good(AppendOnly(vs), lev) && AppendOnly(vs).lowest == 0
  {
    hide AddVertex, Good, Fits;
    if vs == [] {
      EmptyGood(lev);
    } else {
      AppendOnlyGood(lev, vs[..|vs| - 1]);
      AddGood(AppendOnly(vs[..|vs| - 1]), lev, vs[|vs| - 1]);
    }
  }

  /** Any interleaving of additions and prunings leaves the append-only forest of the same additions,
      cut off below the highest pruned level: same containers, same lists, same first-added vertices. */
  lemma {:induction false} PrunedIsRestrictedAppendOnly(lev: Id -> nat, ops: seq<Op>)
    requires AllFit(lev, Additions(ops))
    ensures Run(ops) == Restrict(AppendOnly(Additions(ops)), PrunedTo(ops))
  {
    if ops == [] {
      assert Restrict(EMPTY_FOREST, 0) == EMPTY_FOREST;
    } else {
      var before, op := ops[..|ops| - 1], ops[|ops| - 1];
      var vs, low := Additions(before), PrunedTo(before);
      match op {
        case Add(v) =>
          assert Additions(ops) == vs + [v] && (vs + [v])[..|vs|] == vs;
          assert Additions(ops)[|vs|] == v;
          assert AllFit(lev, vs);
          PrunedIsRestrictedAppendOnly(lev, before);
          AppendOnlyGood(lev, vs);
          RestrictAdd(AppendOnly(vs), lev, v, low);
        case Prune(level) =>
          assert Additions(ops) == vs;
          PrunedIsRestrictedAppendOnly(lev, before);
          if level >= low {
            RestrictTwice(AppendOnly(vs), low, level);
          }
      }
    }
  }

  /** Index agreement in every reachable forest. */
  lemma ReachableGood(lev: Id -> nat, ops: seq<Op>)
    requires AllFit(lev, Additions(ops))
    ensures Good(Run(ops), lev) && Run(ops).lowest == PrunedTo(ops)
  {
    PrunedIsRestrictedAppendOnly(lev, ops);
    AppendOnlyGood(lev, Additions(ops));
    RestrictGood(AppendOnly(Additions(ops)), lev, PrunedTo(ops));
  }

  // What the append-only forest means, in terms of the additions alone.

  /** The first addition under an id. */
  function First(vs: seq<Block>, id: Id): Option<Block> {
    if vs == [] then None else
    var before := First(vs[..|vs| - 1], id);
    if before.None? && vs[|vs| - 1].id == id then Some(vs[|vs| - 1]) else before
  }

  lemma {:induction false} FirstInSeq(vs: seq<Block>, id: Id)
    ensures First(vs, id).Some? ==> First(vs, id).value in vs && First(vs, id).value.id == id
    ensures First(vs, id).None? <==> forall v :: v in vs ==> v.id != id
  {
    if vs != [] {
      FirstInSeq(vs[..|vs| - 1], id);
      assert vs == vs[..|vs| - 1] + [vs[|vs| - 1]];
    }
  }

  lemma {:induction false} AppendOnlyStores(lev: Id -> nat, vs: seq<Block>, id: Id)
    requires AllFit(lev, vs)
    ensures AppendOnly(vs).GetVertex(id) == First(vs, id)
  {
    if vs != [] {
      var before, v := vs[..|vs| - 1], vs[|vs| - 1];
      AppendOnlyStores(lev, before, id);
      AppendOnlyStores(lev, before, v.id);
      AppendOnlyGood(lev, before);
      if !AppendOnly(before).Full(v.id) {
        AddVertexAdds(AppendOnly(before), lev, v);
      }
    }
  }

  /** A reachable forest holds, for each id, the first addition under it if its level is still kept. */
  lemma RunStores(lev: Id -> nat, ops: seq<Op>, id: Id)
    requires AllFit(lev, Additions(ops))
    ensures Run(ops).GetVertex(id) ==
            if lev(id) >= PrunedTo(ops) then First(Additions(ops), id) else None
  {
    PrunedIsRestrictedAppendOnly(lev, ops);
    AppendOnlyGood(lev, Additions(ops));
    AppendOnlyStores(lev, Additions(ops), id);
  }

  /** Some stored block above level 0 names `id` as its parent. */
  ghost predicate Referenced(f: Forest, id: Id) {
    exists c :: IsChild(f, id, c)
  }

  /** An id is known exactly when it is stored, or referenced at a level that is kept. */
  lemma KnownIds(f: Forest, lev: Id -> nat, id: Id)
    requires Good(f, lev)
    ensures id in f.vertices <==> f.Full(id) || (Referenced(f, id) && lev(id) >= f.lowest)
  {
    if id in f.vertices && !f.Full(id) {
      assert ChildListOk(f, id);
      assert f.vertices[id].children[0] in f.vertices[id].children;
      assert IsChild(f, id, f.vertices[id].children[0]);
    }
  }

  /** The same full vertices, placeholders, child sets and level sets; only list order may differ. */
  ghost predicate Equivalent(f: Forest, g: Forest) {
    f.lowest == g.lowest && SameContainers(f, g) && SameLevelLists(f, g)
  }

  ghost predicate SameContainers(f: Forest, g: Forest) {
    && (forall id :: id in f.vertices <==> id in g.vertices)
    && (forall id :: id in f.vertices ==> SameContainer(f.vertices[id], g.vertices[id]))
  }

  ghost predicate SameContainer(c: Container, d: Container) {
    c.vertex == d.vertex && c.level == d.level && Shuffled(c.children, d.children)
  }

  ghost predicate SameLevelLists(f: Forest, g: Forest) {
    && (forall l :: l in f.levels <==> l in g.levels)
    && (forall l :: l in f.levels ==> Shuffled(f.levels[l], g.levels[l]))
  }

  /** Distinct lists of the same elements. */
  ghost predicate Shuffled(s: seq<Id>, t: seq<Id>) {
    Distinct(s) && Distinct(t) && forall x :: x in s <==> x in t
  }

  /** The two forests store the same blocks. */
  ghost predicate SameStore(f: Forest, g: Forest) {
    forall id :: f.GetVertex(id) == g.GetVertex(id)
  }

  lemma SameChildRelation(f: Forest, g: Forest, id: Id, c: Id)
    requires SameStore(f, g) && IsChild(f, id, c)
    ensures IsChild(g, id, c)
  {
    assert f.GetVertex(c) == g.GetVertex(c);
  }

  lemma SameKnown(f: Forest, g: Forest, lev: Id -> nat, id: Id)
    requires Good(f, lev) && Good(g, lev) && f.lowest == g.lowest && SameStore(f, g)
    requires id in f.vertices
    ensures id in g.vertices && f.vertices[id].vertex == g.vertices[id].vertex
    ensures f.vertices[id].level == g.vertices[id].level
  {
    assert f.GetVertex(id) == g.GetVertex(id);
    KnownIds(f, lev, id);
    KnownIds(g, lev, id);
    if Referenced(f, id) {
      var c :| IsChild(f, id, c);
      SameChildRelation(f, g, id, c);
    }
  }

  lemma SameChildren(f: Forest, g: Forest, id: Id)
    requires ChildIndex(f) && ChildIndex(g) && SameStore(f, g)
    requires id in f.vertices && id in g.vertices
    ensures Shuffled(f.vertices[id].children, g.vertices[id].children)
  {
    assert ChildListOk(f, id) && ChildListOk(g, id);
    forall c ensures c in f.vertices[id].children <==> c in g.vertices[id].children {
      if IsChild(f, id, c) { SameChildRelation(f, g, id, c); }
      if IsChild(g, id, c) { SameChildRelation(g, f, id, c); }
    }
  }

  lemma SameStoreContainers(f: Forest, g: Forest, lev: Id -> nat)
    requires Good(f, lev) && Good(g, lev) && f.lowest == g.lowest && SameStore(f, g)
    ensures SameContainers(f, g)
  {
    forall id ensures id in f.vertices <==> id in g.vertices {
      if id in f.vertices { SameKnown(f, g, lev, id); }
      if id in g.vertices { SameKnown(g, f, lev, id); }
    }
    forall id | id in f.vertices ensures SameContainer(f.vertices[id], g.vertices[id]) {
      SameKnown(f, g, lev, id);
      SameChildren(f, g, id);
    }
  }

  lemma SameStoreEquivalent(f: Forest, g: Forest, lev: Id -> nat)
    requires Good(f, lev) && Good(g, lev) && f.lowest == g.lowest && SameStore(f, g)
    ensures Equivalent(f, g)
  {
    SameStoreContainers(f, g, lev);
    SameLevels(f, g, lev);
    SameLevels(g, f, lev);
  }

  lemma SameLevels(f: Forest, g: Forest, lev: Id -> nat)
    requires LevelIndex(f) && LevelIndex(g) && Levels(f, lev) && Levels(g, lev)
    requires forall id :: id in f.vertices <==> id in g.vertices
    ensures forall l :: l in f.levels ==> l in g.levels && forall x :: x in f.levels[l] ==> x in g.levels[l]
  {
    forall l | l in f.levels ensures l in g.levels && forall x :: x in f.levels[l] ==> x in g.levels[l] {
      forall x | x in f.levels[l] ensures l in g.levels && x in g.levels[l] {
        assert x in f.vertices && lev(x) == l;
        assert x in g.AtLevel(g.vertices[x].level);
      }
      assert f.levels[l][0] in f.levels[l];
    }
  }

  /** Distinct blocks have distinct ids. */
  ghost predicate IdsAreUnique(vs: seq<Block>) {
    forall v, w :: v in vs && w in vs && v.id == w.id ==> v == w
  }

  /** Order independence: the set of additions and the final pruning level decide the forest, whatever
      the order, the repetitions and the moments of pruning, children before parents included. */
  lemma OrderIndependence(lev: Id -> nat, ops: seq<Op>, ops': seq<Op>)
    requires AllFit(lev, Additions(ops)) && AllFit(lev, Additions(ops'))
    requires IdsAreUnique(Additions(ops))
    requires forall v :: v in Additions(ops) <==> v in Additions(ops')
    requires PrunedTo(ops) == PrunedTo(ops')
    ensures Equivalent(Run(ops), Run(ops'))
  {
    ReachableGood(lev, ops);
    ReachableGood(lev, ops');
    forall id ensures Run(ops).GetVertex(id) == Run(ops').GetVertex(id) {
      RunStores(lev, ops, id);
      RunStores(lev, ops', id);
      FirstInSeq(Additions(ops), id);
      FirstInSeq(Additions(ops'), id);
    }
    SameStoreEquivalent(Run(ops), Run(ops'), lev);
  }

  /** Adding again under a known id changes nothing, even with another block and after pruning. */
  lemma ReAddIsNoOp(lev: Id -> nat, ops: seq<Op>, v: Block)
    requires AllFit(lev, Additions(ops)) && Fits(lev, v)
    requires exists w :: w in Additions(ops) && w.id == v.id
    ensures AddVertex(Run(ops), v) == Run(ops)
  {
    ReachableGood(lev, ops);
    RunStores(lev, ops, v.id);
    FirstInSeq(Additions(ops), v.id);
  }
}
