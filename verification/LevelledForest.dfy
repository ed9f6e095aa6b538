/** The forest as the source holds it: shared, mutable containers reached from two maps. */
module LevelledForests {
  import opened Types
  import opened Forests
  import opened Commits

  class VertexContainer {
    const id: Id
    const level: nat
    var children: seq<VertexContainer>
    var vertex: Option<Block>

    constructor (id: Id, level: nat)
      ensures this.id == id && this.level == level && children == [] && vertex == None
    {
      this.id, this.level, this.children, this.vertex := id, level, [], None;
    }

    ghost function Snapshot(): Container
      reads this
    {
      Container(level, Ids(children), vertex)
    }
  }

  function Ids(cs: seq<VertexContainer>): (ids: seq<Id>)
    ensures |ids| == |cs| && forall i :: 0 <= i < |cs| ==> ids[i] == cs[i].id
  {
    seq(|cs|, i requires 0 <= i < |cs| => cs[i].id)
  }

  ghost function Snapshots(m: map<Id, VertexContainer>): map<Id, Container>
    reads m.Values
  {
    map id | id in m :: m[id].Snapshot()
  }

  ghost function IdLists(m: map<nat, seq<VertexContainer>>): map<nat, seq<Id>> {
    map l | l in m :: Ids(m[l])
  }

  /** The container is the one its id is indexed under. */
  ghost predicate IsKnown(m: map<Id, VertexContainer>, c: VertexContainer) {
    c.id in m && m[c.id] == c
  }

  /** The index keeps every container it had. */
  ghost predicate Extends(m: map<Id, VertexContainer>, before: map<Id, VertexContainer>) {
    forall id :: id in before ==> id in m && m[id] == before[id]
  }

  lemma ExtendsIsTransitive(m: map<Id, VertexContainer>, between: map<Id, VertexContainer>, before: map<Id, VertexContainer>)
    requires Extends(m, between) && Extends(between, before)
    ensures Extends(m, before)
  {
  }

  /** Every pointer in a level list or a child list leads to an indexed container. */
  ghost predicate AllKnown(m: map<Id, VertexContainer>, ls: map<nat, seq<VertexContainer>>)
    reads m.Values
  {
    && (forall id :: id in m ==> m[id].id == id)
    && (forall l, i :: l in ls && 0 <= i < |ls[l]| ==> IsKnown(m, ls[l][i]))
    && (forall id, i :: id in m && 0 <= i < |m[id].children| ==> IsKnown(m, m[id].children[i]))
  }

  lemma AllKnownAdds(m: map<Id, VertexContainer>, ls: map<nat, seq<VertexContainer>>, c: VertexContainer)
    requires AllKnown(m, ls) && c.id !in m && c.children == []
    ensures AllKnown(m[c.id := c], ls[c.level := (if c.level in ls then ls[c.level] else []) + [c]])
  {
    var m', ls' := m[c.id := c], ls[c.level := (if c.level in ls then ls[c.level] else []) + [c]];
    forall l, i | l in ls' && 0 <= i < |ls'[l]| ensures IsKnown(m', ls'[l][i]) {
      if l in ls && i < |ls[l]| { assert IsKnown(m, ls[l][i]); }
    }
    forall id, i | id in m' && 0 <= i < |m'[id].children| ensures IsKnown(m', m'[id].children[i]) {
      if id != c.id { assert IsKnown(m, m[id].children[i]); }
    }
  }

  lemma ListAdds(ls: map<nat, seq<VertexContainer>>, c: VertexContainer)
    ensures var vtcs := if c.level in ls then ls[c.level] else [];
      Ids(vtcs + [c]) == (if c.level in IdLists(ls) then IdLists(ls)[c.level] else []) + [c.id]
  {
  }

  lemma SnapshotsUpdate(m: map<Id, VertexContainer>, id: Id, c: VertexContainer)
    ensures Snapshots(m[id := c]) == Snapshots(m)[id := c.Snapshot()] && (id in Snapshots(m) <==> id in m)
  {
  }

  lemma IdListsUpdate(m: map<nat, seq<VertexContainer>>, l: nat, cs: seq<VertexContainer>)
    ensures IdLists(m[l := cs]) == IdLists(m)[l := Ids(cs)]
  {
  }

  /** The index without the containers below a level. */
  ghost function KeptFrom(m: map<Id, VertexContainer>, l: nat): map<Id, VertexContainer> {
    map id | id in m && m[id].level >= l :: m[id]
  }

  ghost function ListsFrom(m: map<nat, seq<VertexContainer>>, l: nat): map<nat, seq<VertexContainer>> {
    map k | k in m && k >= l :: m[k]
  }

  lemma AllKept(m: map<Id, VertexContainer>, ls: map<nat, seq<VertexContainer>>, f: Forest)
    requires LevelIndex(f) && Snapshots(m) == f.vertices && IdLists(ls) == f.levels
    ensures KeptFrom(m, f.lowest) == m && ListsFrom(ls, f.lowest) == ls
  {
    forall id | id in m ensures m[id].level >= f.lowest {
      assert f.vertices[id] == m[id].Snapshot();
    }
    forall l | l in ls ensures l >= f.lowest {
      assert l in f.levels && f.vertices[f.levels[l][0]].level == l;
    }
  }

  lemma KeptExtends(m: map<Id, VertexContainer>, l: nat)
    ensures Extends(m, KeptFrom(m, l))
  {
  }

  lemma KeptSnapshots(m: map<Id, VertexContainer>, f: Forest, low: nat)
    requires Snapshots(m) == f.vertices
    ensures Snapshots(KeptFrom(m, low)) == Restrict(f, low).vertices
  {
    forall id | id in m ensures f.vertices[id] == m[id].Snapshot() {}
  }

  lemma KeptLists(ls: map<nat, seq<VertexContainer>>, f: Forest, low: nat)
    requires IdLists(ls) == f.levels
    ensures IdLists(ListsFrom(ls, low)) == Restrict(f, low).levels
  {
  }

  lemma KeptListed(m: map<Id, VertexContainer>, ls: map<nat, seq<VertexContainer>>, f: Forest, low: nat, l: nat, i: nat)
    requires LevelIndex(f) && Snapshots(m) == f.vertices && IdLists(ls) == f.levels && AllKnown(m, ls)
    requires l in ls && l >= low && i < |ls[l]|
    ensures IsKnown(KeptFrom(m, low), ls[l][i])
  {
    assert f.levels[l][i] == ls[l][i].id;
    assert f.vertices[f.levels[l][i]] == m[ls[l][i].id].Snapshot();
  }

  lemma KeptChild(m: map<Id, VertexContainer>, ls: map<nat, seq<VertexContainer>>, f: Forest, lev: Id -> nat,
                  low: nat, id: Id, i: nat)
    requires Levels(f, lev) && ChildIndex(f) && Snapshots(m) == f.vertices && AllKnown(m, ls)
    requires id in m && m[id].level >= low && i < |m[id].children|
    ensures IsKnown(KeptFrom(m, low), m[id].children[i])
  {
    var c := m[id].children[i].id;
    assert f.vertices[id] == m[id].Snapshot() && f.vertices[c] == m[c].Snapshot();
    assert f.vertices[id].children[i] == c;
    assert ChildListOk(f, id) && IsChild(f, id, c);
  }

  /** Cutting the indexes off below a level leaves no pointer dangling. */
  lemma KeptIsKnown(m: map<Id, VertexContainer>, ls: map<nat, seq<VertexContainer>>, f: Forest, lev: Id -> nat, low: nat)
    requires Good(f, lev) && Snapshots(m) == f.vertices && IdLists(ls) == f.levels && AllKnown(m, ls)
    ensures AllKnown(KeptFrom(m, low), ListsFrom(ls, low))
  {
    forall l, i | l in ListsFrom(ls, low) && 0 <= i < |ls[l]| ensures IsKnown(KeptFrom(m, low), ls[l][i]) {
      KeptListed(m, ls, f, low, l, i);
    }
    forall id, i | id in KeptFrom(m, low) && 0 <= i < |m[id].children|
      ensures IsKnown(KeptFrom(m, low), m[id].children[i])
    {
      KeptChild(m, ls, f, lev, low, id, i);
    }
  }

  /** What one level lists, and the blocks it holds. */
  lemma ListedAt(m: map<Id, VertexContainer>, ls: map<nat, seq<VertexContainer>>, f: Forest, l: nat, cs: seq<VertexContainer>)
    requires Snapshots(m) == f.vertices && IdLists(ls) == f.levels && AllKnown(m, ls)
    requires cs == if l in ls then ls[l] else []
    ensures Ids(cs) == f.AtLevel(l) && Vertices(cs) == BlocksOf(f, f.AtLevel(l))
  {
    forall i | 0 <= i < |cs| ensures f.GetVertex(cs[i].id) == cs[i].vertex {
      assert IsKnown(m, cs[i]);
      assert f.vertices[cs[i].id] == m[cs[i].id].Snapshot();
    }
    VerticesAreBlocks(cs, f);
  }

  lemma KeptStep(m: map<Id, VertexContainer>, l: nat, f: Forest)
    requires LevelIndex(f) && Snapshots(m) == f.vertices
    ensures KeptFrom(m, l) - Elements(f.AtLevel(l)) == KeptFrom(m, l + 1)
  {
    forall id | id in m ensures id in Elements(f.AtLevel(l)) <==> m[id].level == l {
      assert f.vertices[id] == m[id].Snapshot();
    }
  }

  lemma {:induction false} VerticesAreBlocks(cs: seq<VertexContainer>, f: Forest)
    requires forall i :: 0 <= i < |cs| ==> f.GetVertex(cs[i].id) == cs[i].vertex
    ensures Vertices(cs) == BlocksOf(f, Ids(cs))
  {
    if cs != [] {
      VerticesAreBlocks(cs[..|cs| - 1], f);
      assert Ids(cs)[..|cs| - 1] == Ids(cs[..|cs| - 1]);
    }
  }

  /** The blocks held by the full containers of a list, in order. */
  function Vertices(cs: seq<VertexContainer>): seq<Block>
    reads cs
  {
    if cs == [] then []
    else Vertices(cs[..|cs| - 1]) + if cs[|cs| - 1].vertex.Some? then [cs[|cs| - 1].vertex.value] else []
  }

  lemma VerticesStep(cs: seq<VertexContainer>, i: nat)
    requires i < |cs|
    ensures Vertices(cs[..i + 1]) == Vertices(cs[..i]) + if cs[i].vertex.Some? then [cs[i].vertex.value] else []
  {
    assert cs[..i + 1][..i] == cs[..i];
  }

  lemma NothingPruned(cs: seq<VertexContainer>)
    ensures Vertices(cs[..0]) == [] && Elements(Ids(cs[..0])) == {}
  {
  }

  lemma ElementsStep(cs: seq<VertexContainer>, i: nat)
    requires i < |cs|
    ensures Elements(Ids(cs[..i + 1])) == Elements(Ids(cs[..i])) + {cs[i].id}
  {
    assert Ids(cs[..i + 1]) == Ids(cs[..i]) + [cs[i].id];
  }

  /** Iterates over a container list with one block of look-ahead, skipping empty containers. */
  class VertexIterator {
    const data: seq<VertexContainer>
    var idx: nat
    var next: Option<Block>

    /** The look-ahead is the last block passed, and is missing only at the end. */
    ghost predicate Valid()
      reads this, data
    {
      && idx <= |data|
      && (next.Some? ==> idx > 0 && data[idx - 1].vertex == next)
      && (next.None? ==> idx == |data|)
    }

    /** The blocks handed out so far: those passed, except the look-ahead. */
    ghost predicate Yielded(blocks: seq<Block>)
      reads this, data
    {
      idx <= |data| && Vertices(data[..idx]) == blocks + if next.Some? then [next.value] else []
    }

    constructor (data: seq<VertexContainer>)
      ensures this.data == data && Valid() && Yielded([])
    {
      this.data, this.idx, this.next := data, 0, None;
      new;
      PreLoad();
    }

    method PreLoad()
      requires idx <= |data|
      modifies this
      ensures Valid()
      ensures Vertices(data[..idx]) == Vertices(data[..old(idx)]) + if next.Some? then [next.value] else []
      ensures next.Some? ==> idx > old(idx)
    {
      var i, found := idx, None;
      while i < |data| && found.None?
        invariant idx == old(idx) <= i <= |data| && (found.Some? ==> i > idx && data[i - 1].vertex == found)
        invariant Vertices(data[..i]) == Vertices(data[..idx]) + if found.Some? then [found.value] else []
      {
        VerticesStep(data, i);
        found := data[i].vertex;
        i := i + 1;
      }
      idx, next := i, found;
    }

    method NextVertex() returns (res: Option<Block>)
      requires Valid()
      modifies this
      ensures Valid() && res == old(next)
      ensures res.Some? ==> forall before :: old(Yielded(before)) ==> Yielded(before + [res.value])
      ensures next.Some? ==> idx > old(idx)
    {
      res := next;
      PreLoad();
    }

    method HasNext() returns (more: bool)
      requires Valid()
      ensures more <==> next.Some?
      ensures !more ==> forall before :: Yielded(before) ==> before == Vertices(data)
    {
      more := next.Some?;
      assert data[..|data|] == data;
    }
  }

  /** A step of the walk on forest values. */
  lemma WalkSteps(f: Forest, l: nat, p: Block)
    requires Descending(f) && FirstFull(f, l) && l >= f.lowest && l > 1 && WalkNext(f, l) == Some(p)
    ensures p.view < l && (WalkDefined(f, l) <==> WalkDefined(f, p.view))
    ensures WalkDefined(f, l) ==> CommittedLevels(f, l) == {p.view} + CommittedLevels(f, p.view)
  {
  }

  /** Where the walk ends: past the lowest level or at a last parent it marks nothing more, at a placeholder it fails. */
  lemma WalkStops(f: Forest, l: nat)
    requires Descending(f)
    ensures l < f.lowest || l <= 1 ==> WalkDefined(f, l) && CommittedLevels(f, l) == {}
    ensures l >= f.lowest && l > 1 && !FirstFull(f, l) ==> !WalkDefined(f, l)
    ensures l >= f.lowest && l > 1 && FirstFull(f, l) && WalkNext(f, l).None? ==> WalkDefined(f, l) && CommittedLevels(f, l) == {}
  {
  }

  /** Pruning is refused, dereferences nil, or is done. */
  datatype PruneResult = TooLow | Dereferences | Pruned(forked: seq<Block>, pruned: nat)

  class LevelledForest {
    /** The level every id is known to have (hypothesis L). */
    ghost const lev: Id -> nat
    var vertices: map<Id, VertexContainer>
    var verticesAtLevel: map<nat, seq<VertexContainer>>
    var lowestLevel: nat

    ghost predicate Known(c: VertexContainer)
      reads this
    {
      IsKnown(vertices, c)
    }

    ghost predicate Coherent()
      reads this, vertices.Values
    {
      AllKnown(vertices, verticesAtLevel)
    }

    ghost function Abs(): Forest
      reads this, vertices.Values
    {
      Forest(Snapshots(vertices), IdLists(verticesAtLevel), lowestLevel)
    }

    ghost predicate Valid()
      reads this, vertices.Values
    {
      Coherent() && Good(Abs(), lev)
    }

    constructor (ghost lev: Id -> nat)
      ensures this.lev == lev && Valid() && Abs() == EMPTY_FOREST && vertices == map[]
    {
      this.lev := lev;
      vertices, verticesAtLevel, lowestLevel := map[], map[], 0;
    }

    /** Indexes a new, empty container under its id and at its level. */
    method Store(container: VertexContainer)
      requires Coherent() && container.id !in vertices && container.children == [] && container.vertex == None
      modifies this
      ensures Coherent() && Abs() == Create(old(Abs()), container.id, container.level)
      ensures vertices == old(vertices)[container.id := container]
    {
      hide Snapshots, IdLists, AllKnown;
      var vtcs := if container.level in verticesAtLevel then verticesAtLevel[container.level] else [];
      AllKnownAdds(vertices, verticesAtLevel, container);
      ListAdds(verticesAtLevel, container);
      assert Ids(container.children) == [];
      SnapshotsUpdate(vertices, container.id, container);
      IdListsUpdate(verticesAtLevel, container.level, vtcs + [container]);
      vertices := vertices[container.id := container];
      verticesAtLevel := verticesAtLevel[container.level := vtcs + [container]];
    }

    method GetOrCreateVertexContainer(id: Id, level: nat) returns (container: VertexContainer)
      requires Coherent()
      modifies this
      ensures Coherent() && Abs() == Create(old(Abs()), id, level) && Known(container) && container.id == id
      ensures vertices == old(vertices)[id := container]
      ensures if id in old(vertices) then container == old(vertices)[id] else fresh(container)
    {
      if id in vertices {
        container := vertices[id];
        assert vertices == vertices[id := container];
      } else {
        container := new VertexContainer(id, level);
        Store(container);
      }
    }

    method RegisterWithParent(container: VertexContainer)
      requires Coherent() && Known(container) && container.vertex.Some?
      modifies this, vertices.Values
      ensures Coherent() && Abs() == Forests.RegisterWithParent(old(Abs()), container.id)
      ensures Extends(vertices, old(vertices)) && forall id :: id in vertices && id !in old(vertices) ==> fresh(vertices[id])
    {
      if container.level <= lowestLevel {
        return;
      }
      var v := container.vertex.value;
      if v.ParentLevel() < lowestLevel {
        return;
      }
      var parent := GetOrCreateVertexContainer(v.prevId, v.ParentLevel());
      assert v.prevId in old(vertices) ==> parent in old(vertices.Values);
      LinkChild(parent, container);
    }

    method LinkChild(parent: VertexContainer, child: VertexContainer)
      requires Coherent() && Known(parent) && Known(child)
      modifies parent
      ensures Coherent() && Abs() == Link(old(Abs()), parent.id, child.id)
    {
      ghost var g, kids := Abs(), parent.children;
      parent.children := parent.children + [child];
      assert Ids(kids + [child]) == Ids(kids) + [child.id];
      assert Abs().vertices == Link(g, parent.id, child.id).vertices;
    }

    method FillContainer(container: VertexContainer, vertex: Block)
      requires Coherent() && Known(container)
      modifies container
      ensures Coherent() && Abs() == Fill(old(Abs()), container.id, vertex) && container.vertex == Some(vertex)
    {
      ghost var g := Abs();
      container.vertex := Some(vertex);
      assert Abs().vertices == Fill(g, container.id, vertex).vertices;
    }

    method AddVertexContainer(vertex: Block)
      requires Coherent()
      modifies this, vertices.Values
      ensures Coherent() && Abs() == Forests.AddVertex(old(Abs()), vertex)
      ensures Extends(vertices, old(vertices)) && forall id :: id in vertices && id !in old(vertices) ==> fresh(vertices[id])
    {
      if vertex.view < lowestLevel {
        return;
      }
      var container := GetOrCreateVertexContainer(vertex.id, vertex.view);
      assert vertex.id in old(vertices) ==> container in old(vertices.Values);
      ghost var m := vertices;
      assert Extends(m, old(vertices));
      if container.vertex.Some? {
        return;
      }
      StoreVertex(container, vertex);
      ExtendsIsTransitive(vertices, m, old(vertices));
    }

    /** Puts the vertex into its empty container and registers it with its parent. */
    method StoreVertex(container: VertexContainer, vertex: Block)
      requires Coherent() && Known(container)
      modifies this, vertices.Values
      ensures Coherent() && Abs() == Forests.RegisterWithParent(Fill(old(Abs()), container.id, vertex), container.id)
      ensures Extends(vertices, old(vertices)) && forall id :: id in vertices && id !in old(vertices) ==> fresh(vertices[id])
    {
      hide Abs, Coherent, Forests.RegisterWithParent, Fill;
      FillContainer(container, vertex);
      RegisterWithParent(container);
    }

    lemma AddCases(vertex: Block)
      requires Valid() && Fits(lev, vertex)
      ensures vertex.view < lowestLevel || Abs().Full(vertex.id) ==> Forests.AddVertex(Abs(), vertex) == Abs()
      ensures vertex.view >= lowestLevel && !Abs().Full(vertex.id) ==> Added(Abs(), vertex, Forests.AddVertex(Abs(), vertex))
    {
      if vertex.view >= lowestLevel && !Abs().Full(vertex.id) {
        hide Added;
        AddVertexAdds(Abs(), lev, vertex);
      }
    }

    /** Adds the vertex as the value-level operation does, keeping the indexes in agreement. */
    method AddVertex(vertex: Block)
      requires Valid() && Fits(lev, vertex)
      modifies this, vertices.Values
      ensures Valid() && Abs() == Forests.AddVertex(old(Abs()), vertex)
      ensures vertex.view < old(lowestLevel) || old(Abs()).Full(vertex.id) ==> Abs() == old(Abs())
      ensures vertex.view >= old(lowestLevel) && !old(Abs()).Full(vertex.id) ==> Added(old(Abs()), vertex, Abs())
      ensures Extends(vertices, old(vertices)) && forall id :: id in vertices && id !in old(vertices) ==> fresh(vertices[id])
    {
      hide Added;
      AddCases(vertex);
      AddGood(Abs(), lev, vertex);
      AddVertexContainer(vertex);
    }

    method GetVertex(id: Id) returns (v: Option<Block>)
      ensures v == Abs().GetVertex(id)
    {
      v := if id in vertices then vertices[id].vertex else None;
    }

    /** An iterator over the children of a known id; None where the source dereferences nil. */
    method GetChildren(id: Id) returns (it: Option<VertexIterator>)
      requires Coherent()
      ensures it.Some? <==> id in vertices
      ensures it.Some? ==> fresh(it.value) && it.value.Valid() && it.value.Yielded([]) && it.value.data == vertices[id].children
    {
      if id !in vertices {
        return None;
      }
      var children := new VertexIterator(vertices[id].children);
      it := Some(children);
    }

    /** What the walk reads at a level: the block of the first container, if there is one. */
    lemma WalkReads(f: Forest, l: nat)
      requires f == Abs() && Valid()
      ensures FirstFull(f, l) <==> l in verticesAtLevel && |verticesAtLevel[l]| > 0 && verticesAtLevel[l][0].vertex.Some?
      ensures FirstFull(f, l) ==> verticesAtLevel[l][0].vertex == Some(FirstAt(f, l))
    {
      if l in verticesAtLevel && |verticesAtLevel[l]| > 0 {
        assert f.levels[l][0] == verticesAtLevel[l][0].id;
        assert Known(verticesAtLevel[l][0]);
        assert f.vertices[f.levels[l][0]] == verticesAtLevel[l][0].Snapshot();
      }
    }

    /** The levels the prune walk marks, one stored parent a turn; None where it dereferences nil. */
    method FindCommittedLevels(level: nat) returns (result: Option<set<nat>>)
      requires Valid() && Descending(Abs())
      ensures result == if WalkDefined(Abs(), level) then Some(CommittedLevels(Abs(), level)) else None
    {
      hide WalkDefined, CommittedLevels, FirstFull, Descending;
      ghost var f := Abs();
      var marked: set<nat> := {};
      var l: nat := level;
      while l >= lowestLevel && l > 1
        invariant WalkDefined(f, l) <==> WalkDefined(f, level)
        invariant WalkDefined(f, l) ==> marked + CommittedLevels(f, l) == CommittedLevels(f, level)
        decreases l
      {
        WalkReads(f, l);
        WalkStops(f, l);
        hide Abs, Valid;
        if l !in verticesAtLevel || |verticesAtLevel[l]| == 0 || verticesAtLevel[l][0].vertex.None? {
          return None;
        }
        var vertex := verticesAtLevel[l][0].vertex.value;
        var parent := GetVertex(vertex.prevId);
        assert parent == Parent(f, FirstAt(f, l));
        if parent.None? || parent.value.view < lowestLevel {
          assert WalkNext(f, l) == None;
          return Some(marked);
        }
        WalkSteps(f, l, parent.value);
        marked := marked + {parent.value.view};
        l := parent.value.view;
      }
      WalkStops(f, l);
      result := Some(marked);
    }

    /** The containers listed at a level; a missing key reads as a nil slice. */
    function ListAt(l: nat): seq<VertexContainer>
      reads this
    {
      if l in verticesAtLevel then verticesAtLevel[l] else []
    }

    /** Prunes one level: returns its blocks if they are forked, and the number of its containers. */
    method PruneLevel(l: nat, committed: bool) returns (forked: seq<Block>, pruned: nat)
      modifies this`vertices, this`verticesAtLevel
      ensures vertices == old(vertices) - Elements(Ids(old(ListAt(l))))
      ensures verticesAtLevel == old(verticesAtLevel) - {l}
      ensures forked == if !committed && l > 1 then Vertices(old(ListAt(l))) else []
      ensures pruned == |old(ListAt(l))|
    {
      hide Vertices, Elements, Ids;
      var list := ListAt(l);
      NothingPruned(list);
      forked, pruned := [], 0;
      while pruned < |list|
        invariant pruned <= |list|
        invariant forked == if !committed && l > 1 then Vertices(list[..pruned]) else []
        invariant vertices == old(vertices) - Elements(Ids(list[..pruned]))
        invariant verticesAtLevel == old(verticesAtLevel)
      {
        var v := list[pruned];
        VerticesStep(list, pruned);
        ElementsStep(list, pruned);
        if !committed && l > 1 {
          if v.vertex.Some? {
            forked := forked + [v.vertex.value];
          }
        }
        pruned := pruned + 1;
        vertices := vertices - {v.id};
      }
      assert list[..|list|] == list;
      verticesAtLevel := verticesAtLevel - {l};
    }

    /** One turn of the pruning loop, seen on the forest value. */
    method PruneNext(l: nat, committed: bool, ghost vs: map<Id, VertexContainer>,
                     ghost ls: map<nat, seq<VertexContainer>>, ghost f: Forest)
      returns (forked: seq<Block>, pruned: nat)
      requires vertices == KeptFrom(vs, l) && verticesAtLevel == ListsFrom(ls, l)
      requires LevelIndex(f) && Snapshots(vs) == f.vertices && IdLists(ls) == f.levels && AllKnown(vs, ls)
      modifies this`vertices, this`verticesAtLevel
      ensures vertices == KeptFrom(vs, l + 1) && verticesAtLevel == ListsFrom(ls, l + 1)
      ensures forked == if !committed && l > 1 then BlocksOf(f, f.AtLevel(l)) else []
      ensures pruned == |f.AtLevel(l)|
    {
      ListedAt(vs, ls, f, l, ListAt(l));
      KeptStep(vs, l, f);
      forked, pruned := PruneLevel(l, committed);
    }

    /** Empties the levels below `level`, collecting what each of them reports. */
    method PruneLevels(level: nat, marked: set<nat>, ghost f: Forest) returns (forked: seq<Block>, pruned: nat)
      requires lowestLevel <= level && f == Abs() && LevelIndex(f) && Levels(f, lev) && Coherent()
      modifies this`vertices, this`verticesAtLevel
      ensures vertices == KeptFrom(old(vertices), level)
      ensures verticesAtLevel == ListsFrom(old(verticesAtLevel), level)
      ensures forked == Forked(f, marked, lowestLevel, level) && ForkedBetween(f, marked, lowestLevel, level, forked)
      ensures pruned == PrunedNo(f, lowestLevel, level)
    {
      hide ForkedBetween, KeptFrom, ListsFrom, Levels, LevelIndex, AllKnown, Snapshots, IdLists, BlocksOf;
      AllKept(vertices, verticesAtLevel, f);
      ghost var vs, ls := vertices, verticesAtLevel;
      forked, pruned := [], 0;
      var l: nat := lowestLevel;
      while l < level
        invariant lowestLevel <= l <= level
        invariant vertices == KeptFrom(vs, l)
        invariant verticesAtLevel == ListsFrom(ls, l)
        invariant forked == Forked(f, marked, lowestLevel, l)
        invariant pruned == PrunedNo(f, lowestLevel, l)
      {
        var more, count := PruneNext(l, l in marked, vs, ls, f);
        forked, pruned := forked + more, pruned + count;
        l := l + 1;
      }
      ForkedIs(f, lev, marked, lowestLevel, level);
    }

    /** Cuts the forest off below `level`. */
    method CutBelow(level: nat, marked: set<nat>) returns (forked: seq<Block>, pruned: nat)
      requires lowestLevel <= level && Valid()
      modifies this
      ensures Coherent() && Abs() == Restrict(old(Abs()), level)
      ensures forked == Forked(old(Abs()), marked, old(lowestLevel), level)
      ensures ForkedBetween(old(Abs()), marked, old(lowestLevel), level, forked)
      ensures pruned == PrunedNo(old(Abs()), old(lowestLevel), level)
      ensures Extends(old(vertices), vertices)
    {
      hide LevelIndex, Levels, ChildIndex, ParentIndex, AllKnown, KeptFrom, ListsFrom, Extends, Forked, PrunedNo, ForkedBetween;
      ghost var f, vs, ls := Abs(), vertices, verticesAtLevel;
      forked, pruned := PruneLevels(level, marked, f);
      lowestLevel := level;
      KeptSnapshots(vs, f, level);
      KeptLists(ls, f, level);
      KeptIsKnown(vs, ls, f, lev, level);
      KeptExtends(vs, level);
    }

    /** Prunes up to, not including, `level`, unless it lies below the last pruned level or the walk dereferences
        nil. Returns the forked blocks and the number of containers pruned. */
    method PruneUpToLevel(level: nat) returns (result: PruneResult)
      requires Valid() && Descending(Abs())
      modifies this
      ensures Valid() && Extends(old(vertices), vertices)
      ensures result.TooLow? <==> level < old(lowestLevel)
      ensures result.Dereferences? <==> level >= old(lowestLevel) && !old(WalkDefined(Abs(), level))
      ensures !result.Pruned? ==> Abs() == old(Abs())
      ensures result.Pruned? ==>
        && Abs() == Restrict(old(Abs()), level)
        && result.forked == Forked(old(Abs()), CommittedLevels(old(Abs()), level), old(lowestLevel), level)
        && ForkedBetween(old(Abs()), CommittedLevels(old(Abs()), level), old(lowestLevel), level, result.forked)
        && result.pruned == PrunedNo(old(Abs()), old(lowestLevel), level) && |old(Abs()).vertices| == |Abs().vertices| + result.pruned
    {
      if level < lowestLevel {
        return TooLow;
      }
      var marked := FindCommittedLevels(level);
      if marked.None? {
        return Dereferences;
      }
      hide Forked, PrunedNo, ForkedBetween, CommittedLevels;
      RestrictGood(Abs(), lev, level);
      PruneConserves(Abs(), level);
      var forked, pruned := CutBelow(level, marked.value);
      result := Pruned(forked, pruned);
    }
  }
}
