/**
 What a commit computes from the forest: the commit loop's walk down the parent ids, the prune
 walk down the levels, the forked blocks and the pruned containers.
 */
module Commits {
  import opened Types
  import opened Forests

  /** A stored block above level 0 has a strictly higher view than its stored parent. */
  ghost predicate Descending(f: Forest) {
    forall id :: f.Full(id) ==> StepsDown(f, id, f.vertices[id].vertex.value)
  }

  ghost predicate StepsDown(f: Forest, id: Id, b: Block) {
    b.id == id && (b.view > 0 && f.GetVertex(b.prevId).Some? ==>
      f.GetVertex(b.prevId).value.id == b.prevId && f.GetVertex(b.prevId).value.view < b.view)
  }

  lemma GoodDescends(f: Forest, lev: Id -> nat)
    requires Levels(f, lev)
    ensures Descending(f)
  {
  }

  /** The block the commit loop moves to next. */
  function Parent(f: Forest, b: Block): Option<Block> {
    f.GetVertex(b.prevId)
  }

  /** The commit loop: the block and its stored ancestors above `lowest`, newest first. */
  function CommittedPath(f: Forest, b: Block): seq<Block>
    requires Descending(f) && f.Has(b)
    decreases b.view
  {
    if b.view <= f.lowest then []
    else match Parent(f, b)
      case None => [b]
      case Some(p) => [b] + CommittedPath(f, p)
  }

  /** The first container listed at a level holds a block: what the prune walk dereferences. In a good
      forest that block is of this level. */
  predicate FirstFull(f: Forest, l: nat) {
    l in f.levels && f.levels[l] != [] && f.Full(f.levels[l][0]) && f.vertices[f.levels[l][0]].vertex.value.view == l
  }

  function FirstAt(f: Forest, l: nat): Block
    requires FirstFull(f, l)
  {
    f.vertices[f.levels[l][0]].vertex.value
  }

  /** The parent the prune walk marks from level `l`, if any. */
  function WalkNext(f: Forest, l: nat): Option<Block>
    requires FirstFull(f, l)
  {
    match Parent(f, FirstAt(f, l))
    case None => None
    case Some(p) => if p.view < f.lowest then None else Some(p)
  }

  /** The prune walk from level `l` meets no empty level and no placeholder. */
  predicate WalkDefined(f: Forest, l: nat)
    requires Descending(f)
    decreases l
  {
    if l < f.lowest || l <= 1 then true
    else FirstFull(f, l) && match WalkNext(f, l)
      case None => true
      case Some(p) => WalkDefined(f, p.view)
  }

  /** The levels the prune walk marks as committed. */
  function CommittedLevels(f: Forest, l: nat): set<nat>
    requires Descending(f) && WalkDefined(f, l)
    decreases l
  {
    if l < f.lowest || l <= 1 then {}
    else match WalkNext(f, l)
      case None => {}
      case Some(p) => {p.view} + CommittedLevels(f, p.view)
  }

  /** The stored blocks among the containers of one level, in list order. */
  function BlocksOf(f: Forest, ids: seq<Id>): seq<Block> {
    if ids == [] then []
    else BlocksOf(f, ids[..|ids| - 1]) + if f.Full(ids[|ids| - 1]) then [f.vertices[ids[|ids| - 1]].vertex.value] else []
  }

  /** Forked blocks at the levels `from` up to, not including, `level`. */
  function Forked(f: Forest, marked: set<nat>, from: nat, level: nat): seq<Block>
    requires from <= level
    decreases level - from
  {
    if from == level then []
    else Forked(f, marked, from, level - 1) +
         if level - 1 !in marked && level - 1 > 1 then BlocksOf(f, f.AtLevel(level - 1)) else []
  }

  /** How many containers those levels list. */
  function PrunedNo(f: Forest, from: nat, level: nat): nat
    requires from <= level
    decreases level - from
  {
    if from == level then 0 else PrunedNo(f, from, level - 1) + |f.AtLevel(level - 1)|
  }

  // Meaning of the pieces.

  /** `x` is `b` or is reached from it through stored parents. */
  ghost predicate StoredAncestor(f: Forest, b: Block, x: Block)
    requires Descending(f) && f.Has(b)
    decreases b.view
  {
    b == x || (b.view > 0 && Parent(f, b).Some? && StoredAncestor(f, Parent(f, b).value, x))
  }

  lemma {:induction false} AncestorIsLower(f: Forest, b: Block, x: Block)
    requires Descending(f) && f.Has(b) && StoredAncestor(f, b, x)
    ensures x == b || x.view < b.view
    ensures f.Has(x)
    decreases b.view
  {
    if b != x {
      AncestorIsLower(f, Parent(f, b).value, x);
    }
  }

  /** Strictly falling views. */
  ghost predicate Falling(s: seq<Block>) {
    forall i, j :: 0 <= i < j < |s| ==> s[j].view < s[i].view
  }

  /** Each block names the next one as its parent. */
  ghost predicate Linked(s: seq<Block>) {
    forall i :: 0 <= i < |s| - 1 ==> s[i].prevId == s[i + 1].id
  }

  /** The commit loop returns the stored ancestors above the old lowest level, newest first, parent-linked. */
  lemma {:induction false} CommittedPathMeaning(f: Forest, b: Block)
    requires Descending(f) && f.Has(b)
    ensures forall x :: x in CommittedPath(f, b) <==> StoredAncestor(f, b, x) && x.view > f.lowest
    ensures Falling(CommittedPath(f, b)) && Linked(CommittedPath(f, b))
    ensures b.view > f.lowest ==> |CommittedPath(f, b)| > 0 && CommittedPath(f, b)[0] == b
    decreases b.view
  {
    if b.view <= f.lowest {
      forall x | StoredAncestor(f, b, x) ensures x.view <= f.lowest { AncestorIsLower(f, b, x); }
    } else if Parent(f, b).Some? {
      var p := Parent(f, b).value;
      CommittedPathMeaning(f, p);
      var rest := CommittedPath(f, p);
      assert CommittedPath(f, b) == [b] + rest;
      forall i | 0 <= i < |rest| ensures rest[i].view < b.view {
        assert rest[i] in rest;
        AncestorIsLower(f, p, rest[i]);
      }
      assert rest != [] ==> rest[0] == p;
    }
  }

  lemma {:induction false} BlocksOfMeaning(f: Forest, ids: seq<Id>, x: Block)
    ensures x in BlocksOf(f, ids) <==> exists id :: id in ids && f.GetVertex(id) == Some(x)
  {
    if ids != [] {
      var before, last := ids[..|ids| - 1], ids[|ids| - 1];
      BlocksOfMeaning(f, before, x);
      assert ids == before + [last];
      if x in BlocksOf(f, ids) && x !in BlocksOf(f, before) {
        assert last in ids && f.GetVertex(last) == Some(x);
      }
      if id :| id in ids && f.GetVertex(id) == Some(x) {
        assert id in before || id == last;
      }
    }
  }

  lemma ListedAtOwnLevel(f: Forest, lev: Id -> nat, x: Block)
    requires LevelIndex(f) && Levels(f, lev) && f.Has(x)
    ensures x.id in f.AtLevel(x.view)
  {
    assert f.Full(x.id);
  }

  lemma StoredAtLevel(f: Forest, lev: Id -> nat, l: nat, id: Id, x: Block)
    requires LevelIndex(f) && Levels(f, lev) && id in f.AtLevel(l) && f.GetVertex(id) == Some(x)
    ensures x.id == id && x.view == l
  {
    assert f.Full(id);
  }

  /** In a good forest, the stored blocks of one level. */
  lemma LevelBlocks(f: Forest, lev: Id -> nat, l: nat, x: Block)
    requires LevelIndex(f) && Levels(f, lev)
    ensures x in BlocksOf(f, f.AtLevel(l)) <==> f.Has(x) && x.view == l
  {
    hide LevelIndex, Levels;
    BlocksOfMeaning(f, f.AtLevel(l), x);
    if f.Has(x) && x.view == l {
      ListedAtOwnLevel(f, lev, x);
    }
    if x in BlocksOf(f, f.AtLevel(l)) {
      var id :| id in f.AtLevel(l) && f.GetVertex(id) == Some(x);
      StoredAtLevel(f, lev, l, id, x);
    }
  }

  /** A stored block is forked exactly when its level is pruned, above 1 and unmarked. */
  lemma {:induction false} ForkedMeaning(f: Forest, lev: Id -> nat, marked: set<nat>, from: nat, level: nat, x: Block)
    requires LevelIndex(f) && Levels(f, lev) && from <= level
    ensures x in Forked(f, marked, from, level) <==>
            f.Has(x) && from <= x.view < level && x.view !in marked && x.view > 1
    decreases level - from
  {
    hide LevelIndex, Levels, BlocksOf;
    if from < level {
      ForkedMeaning(f, lev, marked, from, level - 1, x);
      LevelBlocks(f, lev, level - 1, x);
    }
  }

  lemma {:induction false} BlocksAreDistinct(f: Forest, lev: Id -> nat, ids: seq<Id>)
    requires Levels(f, lev) && Distinct(ids)
    ensures Distinct(BlocksOf(f, ids))
  {
    if ids != [] {
      var before, last := ids[..|ids| - 1], ids[|ids| - 1];
      BlocksAreDistinct(f, lev, before);
      if f.Full(last) {
        var b := f.vertices[last].vertex.value;
        BlocksOfMeaning(f, before, b);
        hide Levels;
        assert b !in BlocksOf(f, before) by { NotAmong(f, lev, before, last); }
      }
    }
  }

  lemma NotAmong(f: Forest, lev: Id -> nat, ids: seq<Id>, id: Id)
    requires Levels(f, lev) && f.Full(id) && id !in ids
    ensures f.vertices[id].vertex.value !in BlocksOf(f, ids)
  {
    BlocksOfMeaning(f, ids, f.vertices[id].vertex.value);
  }

  /** Every forked block is reported once. */
  lemma {:induction false} ForkedOnce(f: Forest, lev: Id -> nat, marked: set<nat>, from: nat, level: nat)
    requires LevelIndex(f) && Levels(f, lev) && from <= level
    ensures Distinct(Forked(f, marked, from, level))
    decreases level - from
  {
    hide LevelIndex, Levels, BlocksOf, Distinct;
    if from == level {
      EmptyIsDistinct();
    } else {
      var before, here := Forked(f, marked, from, level - 1), BlocksOf(f, f.AtLevel(level - 1));
      ForkedOnce(f, lev, marked, from, level - 1);
      LevelIsDistinct(f, lev, level - 1);
      forall x | x in before ensures x !in here {
        ForkedMeaning(f, lev, marked, from, level - 1, x);
        LevelBlocks(f, lev, level - 1, x);
      }
      DistinctJoin(before, here);
      assert before + [] == before;
    }
  }

  /** Exactly the blocks above level 1 of the levels in the range that are not marked, each once. */
  ghost predicate ForkedBetween(f: Forest, marked: set<nat>, from: nat, level: nat, forked: seq<Block>) {
    Distinct(forked) && forall x :: x in forked <==> f.Has(x) && from <= x.view < level && x.view > 1 && x.view !in marked
  }

  lemma ForkedIs(f: Forest, lev: Id -> nat, marked: set<nat>, from: nat, level: nat)
    requires LevelIndex(f) && Levels(f, lev) && from <= level
    ensures ForkedBetween(f, marked, from, level, Forked(f, marked, from, level))
  {
    hide LevelIndex, Levels, Forked, Distinct;
    ForkedOnce(f, lev, marked, from, level);
    forall x ensures x in Forked(f, marked, from, level) <==> f.Has(x) && from <= x.view < level && x.view > 1 && x.view !in marked {
      ForkedMeaning(f, lev, marked, from, level, x);
    }
  }

  lemma EmptyIsDistinct()
    ensures Distinct<Block>([])
  {
  }

  lemma DistinctJoin(s: seq<Block>, t: seq<Block>)
    requires Distinct(s) && Distinct(t) && forall x :: x in s ==> x !in t
    ensures Distinct(s + t)
  {
    var u := s + t;
    forall i, j | 0 <= i < j < |u| ensures u[i] != u[j] {
      if i < |s| <= j { assert u[i] in s && u[j] in t; }
    }
  }

  lemma LevelIsDistinct(f: Forest, lev: Id -> nat, l: nat)
    requires LevelIndex(f) && Levels(f, lev)
    ensures Distinct(BlocksOf(f, f.AtLevel(l)))
  {
    BlocksAreDistinct(f, lev, f.AtLevel(l));
  }

  /** Hypothesis U: at most one container per level. */
  ghost predicate OnePerLevel(f: Forest) {
    forall l :: l in f.levels ==> |f.levels[l]| <= 1
  }

  lemma OnlyAtLevel(f: Forest, lev: Id -> nat, b: Block)
    requires LevelIndex(f) && Levels(f, lev) && OnePerLevel(f) && f.Has(b)
    ensures FirstFull(f, b.view) && FirstAt(f, b.view) == b
    ensures forall x :: f.Has(x) && x.view == b.view ==> x == b
  {
    hide LevelIndex, Levels;
    ListedAtOwnLevel(f, lev, b);
    assert f.levels[b.view] == [b.id];
    forall x | f.Has(x) && x.view == b.view ensures x == b {
      ListedAtOwnLevel(f, lev, x);
    }
  }

  /** Under U the prune walk marks exactly the levels, kept and below the block, of its stored ancestors. */
  lemma {:induction false} WalkMarksAncestors(f: Forest, lev: Id -> nat, b: Block)
    requires LevelIndex(f) && Levels(f, lev) && OnePerLevel(f) && f.Has(b)
    ensures Descending(f) && WalkDefined(f, b.view)
    ensures forall x :: f.Has(x) && f.lowest <= x.view < b.view && x.view > 1 ==>
              (x.view in CommittedLevels(f, b.view) <==> StoredAncestor(f, b, x))
    ensures forall l :: l in CommittedLevels(f, b.view) ==> l < b.view
    decreases b.view
  {
    GoodDescends(f, lev);
    OnlyAtLevel(f, lev, b);
    if b.view > 1 {
      match Parent(f, b) {
        case None =>
        case Some(p) =>
          if p.view >= f.lowest {
            WalkMarksAncestors(f, lev, p);
            OnlyAtLevel(f, lev, p);
            forall x | f.Has(x) && f.lowest <= x.view < b.view && x.view > 1
              ensures x.view in CommittedLevels(f, b.view) <==> StoredAncestor(f, b, x)
            {
              if StoredAncestor(f, p, x) { AncestorIsLower(f, p, x); }
            }
          }
      }
    }
  }

  /** Weaker than U: a level above 1 that lists a stored block does not start with a placeholder. */
  ghost predicate Fronted(f: Forest) {
    forall l :: l in f.levels && l > 1 && HoldsBlock(f, f.levels[l]) ==> f.levels[l] != [] && f.Full(f.levels[l][0])
  }

  ghost predicate HoldsBlock(f: Forest, ids: seq<Id>) {
    exists id :: id in ids && f.Full(id)
  }

  lemma UniqueIsFronted(f: Forest)
    requires OnePerLevel(f)
    ensures Fronted(f)
  {
  }

  /** The prune walk from a stored block then never dereferences an empty container. */
  lemma {:induction false} FrontedWalks(f: Forest, lev: Id -> nat, b: Block)
    requires LevelIndex(f) && Levels(f, lev) && Fronted(f) && f.Has(b)
    ensures Descending(f) && WalkDefined(f, b.view)
    decreases b.view
  {
    GoodDescends(f, lev);
    if b.view > 1 {
      assert b.id in f.AtLevel(b.view) && f.Full(b.id);
      assert HoldsBlock(f, f.levels[b.view]);
      var first := f.levels[b.view][0];
      assert f.Full(first) && f.vertices[first].vertex.value.view == b.view;
      match WalkNext(f, b.view) {
        case None =>
        case Some(p) =>
          assert f.Full(p.id);
          FrontedWalks(f, lev, p);
      }
    }
  }

  /** The lists a commit of `b` returns. */
  function CommitForked(f: Forest, b: Block): seq<Block>
    requires Descending(f) && b.view >= f.lowest && WalkDefined(f, b.view)
  {
    Forked(f, CommittedLevels(f, b.view), f.lowest, b.view)
  }

  /** Commit/fork split. Under U, a stored block from the old lowest level to the committed view and above
      view 1 is committed exactly when it is an ancestor above the old lowest level, and forked exactly when it
      is below the committed view and no ancestor. At the old lowest level that leaves the block reported as
      forked precisely when the stored chain does not reach it. */
  lemma CommitForkSplit(f: Forest, lev: Id -> nat, b: Block, x: Block)
    requires LevelIndex(f) && Levels(f, lev) && OnePerLevel(f) && f.Has(b)
    requires f.Has(x) && f.lowest <= x.view <= b.view && x.view > 1
    ensures Descending(f) && WalkDefined(f, b.view)
    ensures x in CommittedPath(f, b) <==> StoredAncestor(f, b, x) && x.view > f.lowest
    ensures x in CommitForked(f, b) <==> !StoredAncestor(f, b, x)
    ensures x.view > f.lowest ==> (x in CommittedPath(f, b)) != (x in CommitForked(f, b))
  {
    WalkMarksAncestors(f, lev, b);
    CommittedPathMeaning(f, b);
    ForkedMeaning(f, lev, CommittedLevels(f, b.view), f.lowest, b.view, x);
    OnlyAtLevel(f, lev, b);
  }

  // Counting what is pruned.

  ghost function Elements(s: seq<Id>): set<Id> {
    set x | x in s
  }

  ghost function IdsBetween(f: Forest, from: nat, level: nat): set<Id> {
    set id | id in f.vertices && from <= f.vertices[id].level < level
  }

  lemma {:induction false} DistinctCount(s: seq<Id>)
    requires Distinct(s)
    ensures |Elements(s)| == |s|
  {
    if s != [] {
      var before, last := s[..|s| - 1], s[|s| - 1];
      DistinctCount(before);
      assert s == before + [last];
      assert Elements(s) == Elements(before) + {last} && last !in Elements(before);
    }
  }

  lemma LevelIsElements(f: Forest, l: nat)
    requires LevelIndex(f)
    ensures IdsBetween(f, l, l + 1) == Elements(f.AtLevel(l)) && Distinct(f.AtLevel(l))
  {
  }

  lemma BetweenSplits(f: Forest, from: nat, level: nat)
    requires from < level
    ensures |IdsBetween(f, from, level)| == |IdsBetween(f, from, level - 1)| + |IdsBetween(f, level - 1, level)|
  {
    assert IdsBetween(f, from, level) == IdsBetween(f, from, level - 1) + IdsBetween(f, level - 1, level);
    assert IdsBetween(f, from, level - 1) !! IdsBetween(f, level - 1, level);
  }

  lemma {:induction false} PrunedCount(f: Forest, from: nat, level: nat)
    requires LevelIndex(f) && from <= level
    ensures PrunedNo(f, from, level) == |IdsBetween(f, from, level)|
    decreases level - from
  {
    hide LevelIndex;
    if from == level {
      assert IdsBetween(f, from, level) == {};
    } else {
      PrunedCount(f, from, level - 1);
      LevelIsElements(f, level - 1);
      DistinctCount(f.AtLevel(level - 1));
      BetweenSplits(f, from, level);
    }
  }

  /** Pruning removes exactly as many containers as it reports. */
  lemma PruneConserves(f: Forest, level: nat)
    requires LevelIndex(f) && f.lowest <= level
    ensures |f.vertices| == |Restrict(f, level).vertices| + PrunedNo(f, f.lowest, level)
  {
    PrunedCount(f, f.lowest, level);
    var gone, kept := IdsBetween(f, f.lowest, level), Restrict(f, level).vertices.Keys;
    assert f.vertices.Keys == kept + gone && kept !! gone;
    assert |f.vertices.Keys| == |kept| + |gone|;
    assert |f.vertices| == |f.vertices.Keys|;
    assert |Restrict(f, level).vertices| == |kept|;
  }
}
