/** What lookups in a reachable forest promise: children, and the validity check for new vertices. */
module ForestQueries {
  import opened Types
  import opened Forests
  import opened Commits
  import opened ForestRuns

  /** The children of a known id are the stored blocks naming it as parent, each once, all at higher levels. */
  lemma ChildrenMeaning(f: Forest, lev: Id -> nat, id: Id)
    requires Good(f, lev) && id in f.vertices
    ensures var kids := BlocksOf(f, f.vertices[id].children);
      && Distinct(kids)
      && (forall x :: x in kids <==> f.Has(x) && x.view > 0 && x.prevId == id)
      && (forall x :: x in kids ==> x.view > f.vertices[id].level)
  {
    var ids := f.vertices[id].children;
    assert ChildListOk(f, id);
    BlocksAreDistinct(f, lev, ids);
    forall x ensures x in BlocksOf(f, ids) <==> f.Has(x) && x.view > 0 && x.prevId == id {
      BlocksOfMeaning(f, ids, x);
      if f.Has(x) && x.view > 0 && x.prevId == id { assert IsChild(f, id, x.id); }
    }
  }

  /** The validity check AddVertex asks of its caller. */
  predicate VerifyVertex(f: Forest, v: Block) {
    v.view < f.lowest ||
    match f.GetVertex(v.id)
    case Some(stored) =>
      v.view == stored.view && (v.view <= f.lowest || (v.prevId == stored.prevId && v.ParentLevel() == stored.ParentLevel()))
    case None =>
      v.view == f.lowest ||
      (v.ParentLevel() < v.view && match f.GetVertex(v.prevId)
         case None => true
         case Some(p) => p.view == v.ParentLevel())
  }

  /** A vertex that agrees with the levels passes the check in every reachable forest. */
  lemma FittingVertexPasses(lev: Id -> nat, ops: seq<Op>, v: Block)
    requires AllFit(lev, Additions(ops)) && Fits(lev, v)
    requires Run(ops).GetVertex(v.id).Some? ==> Run(ops).GetVertex(v.id).value == v
    ensures VerifyVertex(Run(ops), v)
  {
    ReachableGood(lev, ops);
    var f := Run(ops);
    hide Run;
    assert f.Full(v.prevId) ==> f.vertices[v.prevId].vertex.value.view == lev(v.prevId);
  }

  /** Every stored block sits at its own level. */
  ghost predicate AtOwnLevels(f: Forest) {
    forall id :: f.Full(id) ==> f.vertices[id].level == f.vertices[id].vertex.value.view
  }

  // Which new vertices keep the indexes in agreement.

  /** Nothing in the forest gives the id another level: neither its container nor a stored block naming it as
      parent, whose reference outlives the container once its level is pruned. */
  ghost predicate Agrees(f: Forest, id: Id, level: nat) {
    && (id in f.vertices ==> f.vertices[id].level == level)
    && (forall c :: IsChild(f, id, c) ==> f.vertices[c].vertex.value.ParentLevel() == level)
  }

  /** The vertex and its parent reference meet no other level. */
  ghost predicate SitsWell(f: Forest, v: Block) {
    && Agrees(f, v.id, v.view)
    && (v.view > 0 ==> v.prevId != v.id && v.ParentLevel() < v.view && Agrees(f, v.prevId, v.ParentLevel()))
  }

  /** The level assignment with the two levels a vertex brings along. */
  function Raised(lev: Id -> nat, v: Block): Id -> nat {
    (x: Id) => if x == v.id then v.view else if v.view > 0 && x == v.prevId then v.ParentLevel() else lev(x)
  }

  lemma RaisedLevels(f: Forest, lev: Id -> nat, v: Block)
    requires Levels(f, lev) && !f.Full(v.id) && SitsWell(f, v)
    ensures Levels(f, Raised(lev, v)) && Fits(Raised(lev, v), v)
  {
    var lev' := Raised(lev, v);
    forall id | f.Full(id)
      ensures f.vertices[id].vertex.value.id == id && Fits(lev', f.vertices[id].vertex.value)
    {
      var c := f.vertices[id].vertex.value;
      if c.view > 0 { assert IsChild(f, c.prevId, id); }
    }
  }

  /** The containers known before keep their levels, and the blocks stored before stay. */
  lemma AddKeepsLevels(f: Forest, v: Block, x: Id)
    requires v.view >= f.lowest && !f.Full(v.id) && x in f.vertices
    ensures x in AddVertex(f, v).vertices && AddVertex(f, v).vertices[x].level == f.vertices[x].level
    ensures f.Full(x) ==> AddVertex(f, v).vertices[x].vertex == f.vertices[x].vertex
  {
  }

  lemma AgreesAfterAll(f: Forest, v: Block, lev': Id -> nat, id: Id)
    requires v.view >= f.lowest && !f.Full(v.id) && Levels(AddVertex(f, v), lev')
    ensures Agrees(f, id, lev'(id))
  {
    hide AddVertex;
    var r := AddVertex(f, v);
    if id in f.vertices { AddKeepsLevels(f, v, id); }
    forall c | IsChild(f, id, c) ensures f.vertices[c].vertex.value.ParentLevel() == lev'(id) {
      AddKeepsLevels(f, v, c);
      assert r.Full(c);
    }
  }

  lemma StoresNew(f: Forest, v: Block)
    requires v.view >= f.lowest && !f.Full(v.id)
    ensures AddVertex(f, v).GetVertex(v.id) == Some(v)
  {
  }

  /** Exactly when a new vertex keeps index agreement: some level assignment makes the forest good again if and
      only if nothing in the forest gives the vertex or its parent another level. */
  lemma KeepsAgreementExactly(f: Forest, lev: Id -> nat, v: Block)
    requires Good(f, lev) && v.view >= f.lowest && !f.Full(v.id)
    ensures (exists lev' :: Good(AddVertex(f, v), lev')) <==> SitsWell(f, v)
  {
    hide AddVertex, LevelIndex, ParentIndex, ChildIndex, Levels, Agrees;
    if SitsWell(f, v) {
      RaisedLevels(f, lev, v);
      AddGood(f, Raised(lev, v), v);
    }
    if lev' :| Good(AddVertex(f, v), lev') {
      StoresNew(f, v);
      FitsWhereStored(AddVertex(f, v), lev', v);
      AgreesAfterAll(f, v, lev', v.id);
      AgreesAfterAll(f, v, lev', v.prevId);
    }
  }

  lemma FitsWhereStored(f: Forest, lev: Id -> nat, v: Block)
    requires Levels(f, lev) && f.Has(v)
    ensures Fits(lev, v)
  {
    assert f.Full(v.id);
  }

  /** What sits well also passes the check; the converse fails, as the three forests below show. */
  lemma SittingWellPasses(f: Forest, lev: Id -> nat, v: Block)
    requires Good(f, lev) && !f.Full(v.id) && SitsWell(f, v)
    ensures VerifyVertex(f, v)
  {
    hide LevelIndex, ParentIndex, ChildIndex;
    assert f.Full(v.prevId) ==> f.vertices[v.prevId].vertex.value.view == f.vertices[v.prevId].level;
  }

  /** What the check does not look at: containers without a vertex and references to ids not stored. */
  ghost predicate UnseenAgree(f: Forest, v: Block) {
    && Agrees(f, v.id, v.view) && v.prevId != v.id
    && (f.GetVertex(v.prevId).None? ==> Agrees(f, v.prevId, v.ParentLevel()))
  }

  /** Above the lowest level the check and what it does not look at together are exactly what agreement takes. */
  lemma CheckIsExactUpToUnseen(f: Forest, lev: Id -> nat, v: Block)
    requires Good(f, lev) && v.view > f.lowest && !f.Full(v.id)
    ensures SitsWell(f, v) <==> VerifyVertex(f, v) && UnseenAgree(f, v)
  {
    hide LevelIndex, ParentIndex, ChildIndex;
    if f.GetVertex(v.prevId).Some? {
      StoredLevel(f, lev, v.prevId);
    }
  }

  lemma StoredLevel(f: Forest, lev: Id -> nat, id: Id)
    requires Levels(f, lev) && f.GetVertex(id).Some?
    ensures f.GetVertex(id).value.view == lev(id) && Agrees(f, id, lev(id))
  {
    assert f.Full(id);
  }

  /** For an id already stored the check demands the stored level and, above the lowest level, the stored parent. */
  lemma CheckOfKnown(f: Forest, v: Block)
    requires v.view >= f.lowest && f.Full(v.id)
    ensures var w := f.vertices[v.id].vertex.value;
      VerifyVertex(f, v) <==> v.view == w.view && (v.view > f.lowest ==> v.prevId == w.prevId && v.ParentLevel() == w.ParentLevel())
  {
  }

  /** The check is not enough: a vertex that passes it keeps the blocks at their own levels if and only if no
      placeholder for it sits at another level. */
  lemma PassingVertexKeepsLevels(f: Forest, lev: Id -> nat, v: Block)
    requires Good(f, lev) && VerifyVertex(f, v) && v.view >= f.lowest && !f.Full(v.id)
    ensures AtOwnLevels(AddVertex(f, v)) <==> (v.id in f.vertices ==> f.vertices[v.id].level == v.view)
  {
    hide LevelIndex, ParentIndex, ChildIndex;
    var h := Fill(Create(f, v.id, v.view), v.id, v);
    assert AddVertex(f, v) == RegisterWithParent(h, v.id);
    FilledLevels(f, lev, v);
    RegisterKeepsLevels(h, v.id);
  }

  lemma FilledLevels(f: Forest, lev: Id -> nat, v: Block)
    requires Levels(f, lev) && !f.Full(v.id)
    ensures AtOwnLevels(Fill(Create(f, v.id, v.view), v.id, v)) <==> (v.id in f.vertices ==> f.vertices[v.id].level == v.view)
  {
    var h := Fill(Create(f, v.id, v.view), v.id, v);
    assert h.Full(v.id);
    forall id | h.Full(id) && id != v.id ensures h.vertices[id].level == h.vertices[id].vertex.value.view {
      assert f.Full(id);
    }
  }

  lemma RegisterKeepsLevels(f: Forest, id: Id)
    requires f.Full(id)
    ensures AtOwnLevels(RegisterWithParent(f, id)) <==> AtOwnLevels(f)
  {
    var r := RegisterWithParent(f, id);
    assert forall x :: r.Full(x) <==> f.Full(x);
    assert forall x :: f.Full(x) ==> r.vertices[x].level == f.vertices[x].level && r.vertices[x].vertex == f.vertices[x].vertex;
  }

  // A reachable forest: the child of view 5 puts its parent, id 1, at level 3.

  const CHILD := Block(2, 5, 1, Some(QC(3, 1, 0, [], [])), 0)
  const WITH_CHILD := Forest(map[2 := Container(5, [], Some(CHILD)), 1 := Container(3, [2], None)], map[5 := [2], 3 := [1]], 0)
  const CHILD_PRUNED := Forest(map[2 := Container(5, [], Some(CHILD))], map[5 := [2]], 4)

  lemma ChildRuns()
    ensures Run([Add(CHILD)]) == WITH_CHILD && Run([Add(CHILD), Prune(4)]) == CHILD_PRUNED
  {
    assert [Add(CHILD)][..0] == [] && Run([]) == EMPTY_FOREST;
    var none: seq<Id> := [];
    assert none + [2] == [2] && none + [1] == [1];
    var f := AddVertex(EMPTY_FOREST, CHILD);
    assert f.vertices == WITH_CHILD.vertices && f.levels == WITH_CHILD.levels;
    assert [Add(CHILD), Prune(4)][..1] == [Add(CHILD)];
    assert Restrict(WITH_CHILD, 4).vertices == CHILD_PRUNED.vertices;
    assert Restrict(WITH_CHILD, 4).levels == CHILD_PRUNED.levels;
  }

  /** The parent's placeholder sits at another level: a block of view 6 naming id 1 at level 4 passes. */
  lemma CheckMissesParentPlaceholder()
    ensures var v := Block(7, 6, 1, Some(QC(4, 1, 0, [], [])), 0);
      VerifyVertex(Run([Add(CHILD)]), v) && forall lev' :: !Good(AddVertex(Run([Add(CHILD)]), v), lev')
  {
    var v := Block(7, 6, 1, Some(QC(4, 1, 0, [], [])), 0);
    ChildRuns();
    assert VerifyVertex(WITH_CHILD, v) && !Agrees(WITH_CHILD, 1, 4);
    ChildIsGood();
    KeepsAgreementExactly(WITH_CHILD, ChildLevels(), v);
  }

  function ChildLevels(): Id -> nat {
    (x: Id) => if x == 2 then 5 else if x == 1 then 3 else 0
  }

  lemma ChildIsGood()
    ensures Good(WITH_CHILD, ChildLevels()) && Good(CHILD_PRUNED, ChildLevels())
  {
    ChildRuns();
    var ops := [Add(CHILD), Prune(4)];
    assert ops[..1] == [Add(CHILD)] && [Add(CHILD)][..0] == [];
    assert Additions([]) == [];
    assert Additions([Add(CHILD)]) == [CHILD] && Additions(ops) == [CHILD];
    ReachableGood(ChildLevels(), [Add(CHILD)]);
    ReachableGood(ChildLevels(), ops);
  }

  /** A reference has outlived its pruned container: id 1 then passes at view 4, is stored without children, and
      the stored child naming it is lost to lookups. */
  lemma CheckMissesPrunedReference()
    ensures var v := Block(1, 4, 0, Some(QC(0, 0, 0, [], [])), 0);
      var f := Run([Add(CHILD), Prune(4)]);
      var r := AddVertex(f, v);
      && VerifyVertex(f, v) && (forall lev' :: !Good(r, lev'))
      && r.Has(v) && r.Has(CHILD) && CHILD.prevId == v.id && r.vertices[v.id].children == []
  {
    var v := Block(1, 4, 0, Some(QC(0, 0, 0, [], [])), 0);
    ChildRuns();
    ChildIsGood();
    assert IsChild(CHILD_PRUNED, 1, 2);
    assert VerifyVertex(CHILD_PRUNED, v) && !Agrees(CHILD_PRUNED, 1, 4);
    KeepsAgreementExactly(CHILD_PRUNED, ChildLevels(), v);
    var r := AddVertex(CHILD_PRUNED, v);
    assert r.vertices == map[2 := Container(5, [], Some(CHILD)), 1 := Container(4, [], Some(v))];
  }

  /** The vertex's own placeholder sits at another level: a block of view 4 with id 1 still passes. */
  lemma CheckMissesPlaceholder()
    ensures var v := Block(1, 4, 0, Some(QC(0, 0, 0, [], [])), 0);
      VerifyVertex(Run([Add(CHILD)]), v) && !AtOwnLevels(AddVertex(Run([Add(CHILD)]), v))
  {
    var v := Block(1, 4, 0, Some(QC(0, 0, 0, [], [])), 0);
    ChildRuns();
    var r := AddVertex(WITH_CHILD, v);
    assert r.Full(1) && r.vertices[1].level == 3 && r.vertices[1].vertex == Some(v);
  }
}
