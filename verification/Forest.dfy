/**
 The levelled forest as a value: full and empty containers indexed by id and by level, with
 child lists, as the operations of LevelledForest leave them.
 */
module Forests {
  import opened Types

  datatype Container = Container(level: nat, children: seq<Id>, vertex: Option<Block>)

  datatype Forest = Forest(vertices: map<Id, Container>, levels: map<nat, seq<Id>>, lowest: nat)
  {
    /** The containers listed at a level; a missing key reads as a nil slice. */
    function AtLevel(l: nat): seq<Id> {
      if l in levels then levels[l] else []
    }

    predicate Full(id: Id) {
      id in vertices && vertices[id].vertex.Some?
    }

    function GetVertex(id: Id): Option<Block> {
      if id in vertices then vertices[id].vertex else None
    }

    /** The block itself is stored under its id. */
    predicate Has(b: Block) {
      GetVertex(b.id) == Some(b)
    }
  }

  const EMPTY_FOREST := Forest(map[], map[], 0)

  // The three writes every addition is made of.

  function Create(f: Forest, id: Id, level: nat): Forest {
    if id in f.vertices then f
    else f.(vertices := f.vertices[id := Container(level, [], None)],
            levels := f.levels[level := f.AtLevel(level) + [id]])
  }

  function Fill(f: Forest, id: Id, v: Block): Forest
    requires id in f.vertices
  {
    f.(vertices := f.vertices[id := f.vertices[id].(vertex := Some(v))])
  }

  function Link(f: Forest, parent: Id, child: Id): Forest
    requires parent in f.vertices
  {
    var p := f.vertices[parent];
    f.(vertices := f.vertices[parent := p.(children := p.children + [child])])
  }

  function RegisterWithParent(f: Forest, id: Id): Forest
    requires f.Full(id)
  {
    var v := f.vertices[id].vertex.value;
    if f.vertices[id].level <= f.lowest || v.ParentLevel() < f.lowest then f
    else Link(Create(f, v.prevId, v.ParentLevel()), v.prevId, id)
  }

  function AddVertex(f: Forest, v: Block): Forest {
    if v.view < f.lowest then f else
    var g := Create(f, v.id, v.view);
    if g.Full(v.id) then g else
    RegisterWithParent(Fill(g, v.id, v), v.id)
  }

  /** What pruning leaves: everything at `low` and above. */
  function Restrict(f: Forest, low: nat): Forest {
    Forest(map id | id in f.vertices && f.vertices[id].level >= low :: f.vertices[id],
           map l | l in f.levels && l >= low :: f.levels[l],
           low)
  }

  // Hypothesis L: one level per id, known in advance to `lev`.

  /** The vertex and its parent reference carry their own levels, and the parent is strictly lower.
      A vertex at level 0 (a root) has no parent to agree with. */
  ghost predicate Fits(lev: Id -> nat, v: Block) {
    v.view == lev(v.id) && (v.view > 0 ==> v.ParentLevel() == lev(v.prevId) < v.view)
  }

  // Index agreement.

  /** The level lists and the id index name the same containers, each once, none below `lowest`. */
  ghost predicate LevelIndex(f: Forest) {
    && (forall id :: id in f.vertices ==>
          f.vertices[id].level >= f.lowest && id in f.AtLevel(f.vertices[id].level))
    && (forall l :: l in f.levels ==> f.levels[l] != [] && Distinct(f.levels[l]))
    && (forall l, i :: l in f.levels && 0 <= i < |f.levels[l]| ==>
          f.levels[l][i] in f.vertices && f.vertices[f.levels[l][i]].level == l)
  }

  ghost predicate Levels(f: Forest, lev: Id -> nat) {
    && (forall id :: id in f.vertices ==> f.vertices[id].level == lev(id))
    && (forall id :: f.Full(id) ==> f.vertices[id].vertex.value.id == id && Fits(lev, f.vertices[id].vertex.value))
  }

  /** The child relation the stored blocks themselves define. */
  ghost predicate IsChild(f: Forest, parent: Id, child: Id) {
    f.Full(child) && f.vertices[child].vertex.value.view > 0 && f.vertices[child].vertex.value.prevId == parent
  }

  /** A stored block above `lowest` has a container for its parent while the parent's level is kept. */
  ghost predicate ParentIndex(f: Forest) {
    forall id, c :: IsChild(f, id, c) && f.vertices[c].vertex.value.ParentLevel() >= f.lowest ==> id in f.vertices
  }

  /** Each child list holds the stored blocks naming that parent, each once; a placeholder has a child. */
  ghost predicate ChildIndex(f: Forest) {
    forall id :: id in f.vertices ==> ChildListOk(f, id)
  }

  ghost predicate ChildListOk(f: Forest, id: Id)
    requires id in f.vertices
  {
    && Distinct(f.vertices[id].children)
    && (forall c :: c in f.vertices[id].children <==> IsChild(f, id, c))
    && (f.vertices[id].vertex.None? ==> f.vertices[id].children != [])
  }

  ghost predicate Good(f: Forest, lev: Id -> nat) {
    LevelIndex(f) && Levels(f, lev) && ParentIndex(f) && ChildIndex(f)
  }

  lemma GoodIndexes(f: Forest, lev: Id -> nat)
    requires Good(f, lev)
    ensures LevelIndex(f) && Levels(f, lev)
  {
  }

  // Preservation by each write.

  lemma CreateLevelIndex(f: Forest, id: Id, level: nat)
    requires LevelIndex(f) && level >= f.lowest
    ensures LevelIndex(Create(f, id, level))
  {
    if id !in f.vertices {
      var g := Create(f, id, level);
      assert g.levels[level] == f.AtLevel(level) + [id];
      forall x | x in g.vertices
        ensures g.vertices[x].level >= g.lowest && x in g.AtLevel(g.vertices[x].level)
      {
        if x == id {
          assert g.levels[level][|f.AtLevel(level)|] == id;
        } else if f.vertices[x].level == level {
          assert x in f.AtLevel(level);
        }
      }
    }
  }

  lemma FillLevelIndex(f: Forest, id: Id, v: Block)
    requires LevelIndex(f) && id in f.vertices
    ensures LevelIndex(Fill(f, id, v))
  {
  }

  lemma LinkLevelIndex(f: Forest, parent: Id, child: Id)
    requires LevelIndex(f) && parent in f.vertices
    ensures LevelIndex(Link(f, parent, child))
  {
  }

  lemma RegisterLevelIndex(f: Forest, id: Id)
    requires LevelIndex(f) && f.Full(id)
    ensures LevelIndex(RegisterWithParent(f, id))
  {
    var v := f.vertices[id].vertex.value;
    if v.ParentLevel() >= f.lowest {
      CreateLevelIndex(f, v.prevId, v.ParentLevel());
      LinkLevelIndex(Create(f, v.prevId, v.ParentLevel()), v.prevId, id);
    }
  }

  lemma AddLevelIndex(f: Forest, v: Block)
    requires LevelIndex(f)
    ensures LevelIndex(AddVertex(f, v))
  {
    if v.view >= f.lowest {
      var g := Create(f, v.id, v.view);
      CreateLevelIndex(f, v.id, v.view);
      if !g.Full(v.id) {
        FillLevelIndex(g, v.id, v);
        RegisterLevelIndex(Fill(g, v.id, v), v.id);
      }
    }
  }

  /** Whether an addition also writes its parent's container. */
  predicate Links(f: Forest, v: Block) {
    v.view > f.lowest && v.ParentLevel() >= f.lowest
  }

  function ChildrenOf(f: Forest, id: Id): seq<Id> {
    if id in f.vertices then f.vertices[id].children else []
  }

  /** What a vertex new to the forest changes, container by container. */
  ghost predicate Added(f: Forest, v: Block, r: Forest) {
    && r.lowest == f.lowest
    && (forall x :: x in r.vertices <==> x in f.vertices || x == v.id || (Links(f, v) && x == v.prevId))
    && (forall x :: x in r.vertices && x != v.id ==> r.vertices[x].vertex == f.GetVertex(x))
    && r.vertices[v.id].vertex == Some(v)
    && (forall x :: x in r.vertices ==> r.vertices[x].children == AddedChildren(f, v, x))
  }

  function AddedChildren(f: Forest, v: Block, x: Id): seq<Id> {
    ChildrenOf(f, x) + if Links(f, v) && x == v.prevId then [v.id] else []
  }

  lemma AddVertexAdds(f: Forest, lev: Id -> nat, v: Block)
    requires Levels(f, lev) && Fits(lev, v) && v.view >= f.lowest && !f.Full(v.id)
    ensures Added(f, v, AddVertex(f, v))
  {
    var h := Fill(Create(f, v.id, v.view), v.id, v);
    assert h.vertices[v.id].level == v.view;
    assert AddVertex(f, v) == RegisterWithParent(h, v.id);
    FillAdds(f, v);
    RegisterAdds(f, v, h);
  }

  /** The forest before `v` is linked to its parent. */
  ghost predicate Filled(f: Forest, v: Block, h: Forest) {
    && h.lowest == f.lowest
    && (forall x :: x in h.vertices <==> x in f.vertices || x == v.id)
    && (forall x :: x in h.vertices && x != v.id ==> h.vertices[x] == f.vertices[x])
    && h.vertices[v.id] == Container(v.view, ChildrenOf(f, v.id), Some(v))
  }

  lemma FillAdds(f: Forest, v: Block)
    requires v.id in f.vertices ==> f.vertices[v.id].level == v.view
    ensures Filled(f, v, Fill(Create(f, v.id, v.view), v.id, v))
  {
  }

  lemma RegisterAdds(f: Forest, v: Block, h: Forest)
    requires Filled(f, v, h) && (v.view > 0 ==> v.ParentLevel() < v.view)
    ensures Added(f, v, RegisterWithParent(h, v.id))
  {
  }

  lemma AddLevels(f: Forest, lev: Id -> nat, v: Block)
    requires Levels(f, lev) && Fits(lev, v)
    ensures Levels(AddVertex(f, v), lev) && AddVertex(f, v).lowest == f.lowest
  {
    if v.view >= f.lowest && !f.Full(v.id) {
      var h := Fill(Create(f, v.id, v.view), v.id, v);
      assert Levels(h, lev);
      assert AddVertex(f, v) == RegisterWithParent(h, v.id);
      RegisterLevels(h, lev, v);
    }
  }

  lemma RegisterLevels(f: Forest, lev: Id -> nat, v: Block)
    requires Levels(f, lev) && f.Has(v)
    ensures Levels(RegisterWithParent(f, v.id), lev) && RegisterWithParent(f, v.id).lowest == f.lowest
  {
  }

  lemma AddedParentIndex(f: Forest, v: Block, r: Forest)
    requires ParentIndex(f) && !f.Full(v.id) && (v.view > 0 ==> v.ParentLevel() < v.view)
    requires Added(f, v, r)
    ensures ParentIndex(r)
  {
    forall id, c | IsChild(r, id, c) && r.vertices[c].vertex.value.ParentLevel() >= r.lowest
      ensures id in r.vertices
    {
      if c != v.id {
        assert IsChild(f, id, c);
      }
    }
  }

  lemma AddedChildList(f: Forest, v: Block, r: Forest, id: Id)
    requires Added(f, v, r) && !f.Full(v.id) && id in r.vertices
    requires v.view > 0 && v.prevId == id ==> Links(f, v)
    requires if id in f.vertices then ChildListOk(f, id) else forall c :: !IsChild(f, id, c)
    ensures ChildListOk(r, id)
  {
    var kids := ChildrenOf(f, id);
    assert r.vertices[id].children == AddedChildren(f, v, id);
    assert !IsChild(f, id, v.id);
    assert v.id !in kids && Distinct(kids);
    forall c ensures c in r.vertices[id].children <==> IsChild(r, id, c) {
      if c != v.id {
        assert IsChild(r, id, c) <==> IsChild(f, id, c);
        assert c in r.vertices[id].children <==> c in kids;
      }
    }
  }

  lemma AddedChildIndex(f: Forest, lev: Id -> nat, v: Block, r: Forest)
    requires Good(f, lev) && Fits(lev, v) && v.view >= f.lowest && !f.Full(v.id)
    requires Added(f, v, r)
    ensures ChildIndex(r)
  {
    forall id | id in r.vertices ensures ChildListOk(r, id) {
      assert lev(id) >= f.lowest;
      if id in f.vertices {
        assert ChildListOk(f, id);
      }
      AddedChildList(f, v, r, id);
    }
  }

  /** Adding a vertex that fits keeps the two indexes and the child lists in agreement. */
  lemma AddGood(f: Forest, lev: Id -> nat, v: Block)
    requires Good(f, lev) && Fits(lev, v)
    ensures Good(AddVertex(f, v), lev) && AddVertex(f, v).lowest == f.lowest
  {
    AddLevelIndex(f, v);
    AddLevels(f, lev, v);
    if v.view >= f.lowest && !f.Full(v.id) {
      AddVertexAdds(f, lev, v);
      AddedParentIndex(f, v, AddVertex(f, v));
      AddedChildIndex(f, lev, v, AddVertex(f, v));
    }
  }

  lemma RestrictLevelIndex(f: Forest, low: nat)
    requires LevelIndex(f)
    ensures LevelIndex(Restrict(f, low))
  {
    var r := Restrict(f, low);
    forall id | id in r.vertices ensures id in r.AtLevel(r.vertices[id].level) {
      assert id in f.AtLevel(f.vertices[id].level);
    }
  }

  /** `r` holds the containers of `f` at `low` and above. */
  ghost predicate Above(f: Forest, low: nat, r: Forest) {
    && r.lowest == low
    && (forall x :: x in r.vertices <==> x in f.vertices && f.vertices[x].level >= low)
    && (forall x :: x in r.vertices ==> r.vertices[x] == f.vertices[x])
  }

  lemma AboveChild(f: Forest, lev: Id -> nat, low: nat, r: Forest, id: Id, c: Id)
    requires Levels(f, lev) && Above(f, low, r)
    ensures IsChild(r, id, c) ==> IsChild(f, id, c)
    ensures IsChild(f, id, c) && lev(id) >= low ==> IsChild(r, id, c)
  {
  }

  lemma AboveLevels(f: Forest, lev: Id -> nat, low: nat, r: Forest)
    requires Levels(f, lev) && Above(f, low, r)
    ensures Levels(r, lev)
  {
    forall id | r.Full(id)
      ensures r.vertices[id].vertex.value.id == id && Fits(lev, r.vertices[id].vertex.value)
    {
      assert f.Full(id);
    }
  }

  lemma AboveParents(f: Forest, lev: Id -> nat, low: nat, r: Forest)
    requires Levels(f, lev) && ParentIndex(f) && low >= f.lowest && Above(f, low, r)
    ensures ParentIndex(r)
  {
    forall id, c | IsChild(r, id, c) && r.vertices[c].vertex.value.ParentLevel() >= low ensures id in r.vertices {
      AboveChild(f, lev, low, r, id, c);
      ParentLevelIs(f, lev, id, c);
      assert id in f.vertices && f.vertices[id].level == lev(id);
    }
  }

  lemma ParentLevelIs(f: Forest, lev: Id -> nat, id: Id, c: Id)
    requires Levels(f, lev) && IsChild(f, id, c)
    ensures f.vertices[c].vertex.value.ParentLevel() == lev(id)
  {
  }

  lemma AboveChildList(f: Forest, lev: Id -> nat, low: nat, r: Forest, id: Id)
    requires Levels(f, lev) && Above(f, low, r) && id in r.vertices && ChildListOk(f, id)
    ensures ChildListOk(r, id)
  {
    assert lev(id) >= low;
    forall c ensures IsChild(r, id, c) <==> IsChild(f, id, c) { AboveChild(f, lev, low, r, id, c); }
    hide IsChild, Levels;
  }

  lemma RestrictIndexes(f: Forest, lev: Id -> nat, low: nat, r: Forest)
    requires Good(f, lev) && low >= f.lowest && Above(f, low, r)
    ensures Levels(r, lev) && ParentIndex(r) && ChildIndex(r)
  {
    hide LevelIndex, Levels, ParentIndex, ChildListOk;
    AboveLevels(f, lev, low, r);
    AboveParents(f, lev, low, r);
    forall id | id in r.vertices ensures ChildListOk(r, id) {
      AboveChildList(f, lev, low, r, id);
    }
  }

  /** Pruning from below keeps them in agreement too. */
  lemma RestrictGood(f: Forest, lev: Id -> nat, low: nat)
    requires Good(f, lev) && low >= f.lowest
    ensures Good(Restrict(f, low), lev)
  {
    RestrictLevelIndex(f, low);
    RestrictIndexes(f, lev, low, Restrict(f, low));
  }
}
