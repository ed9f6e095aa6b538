/** The block chain as a value: forest, votes and counters, and what a commit makes of them. */
module Chains {
  import opened Types
  import opened Forests
  import opened Commits
  import opened Collectors

  datatype ChainState = ChainState(
    forest: Forest,
    votes: Tally<Id, Vote>,
    highestCommitted: nat,
    committedNo: nat,
    intervals: int,
    prunedNo: nat)

  const EMPTY_CHAIN := ChainState(EMPTY_FOREST, map[], 0, 0, 0, 0)

  function AddBlock(s: ChainState, b: Block): ChainState {
    s.(forest := AddVertex(s.forest, b))
  }

  /** The parent of a stored block, if both are stored. */
  function GetParentBlock(f: Forest, id: Id): Option<Block> {
    match f.GetVertex(id)
    case None => None
    case Some(b) => f.GetVertex(b.prevId)
  }

  function IdsOf(blocks: seq<Block>): set<Id> {
    set b | b in blocks :: b.id
  }

  /** The sum of the block intervals a batch adds. */
  function Intervals(blocks: seq<Block>, view: View): int {
    if blocks == [] then 0 else Intervals(blocks[..|blocks| - 1], view) + (view - blocks[|blocks| - 1].view)
  }

  /** What CommitBlock can come to: the block is unknown, the pruning level is refused, the prune walk
      dereferences an empty container, or the commit is done. */
  datatype Outcome =
    | NotFound
    | Refused
    | Panics
    | Done(state: ChainState, committed: seq<Block>, forked: seq<Block>)

  function CommitBlock(s: ChainState, id: Id, view: View): Outcome
    requires Descending(s.forest)
  {
    var f := s.forest;
    match f.GetVertex(id)
    case None => NotFound
    case Some(b) =>
      assert f.Full(id);
      if b.view < f.lowest then Refused
      else if !WalkDefined(f, b.view) then Panics
      else
        Done(AfterCommit(s, b, view), CommittedPath(f, b), CommitForked(f, b))
  }

  /** The chain once a stored block is committed: its path is counted and loses its votes, the forest is pruned. */
  function AfterCommit(s: ChainState, b: Block, view: View): ChainState
    requires Descending(s.forest) && s.forest.Has(b) && b.view >= s.forest.lowest
  {
    var f, path := s.forest, CommittedPath(s.forest, b);
    ChainState(Restrict(f, b.view), s.votes - IdsOf(path), b.view, s.committedNo + |path|,
               s.intervals + Intervals(path, view), s.prunedNo + PrunedNo(f, f.lowest, b.view))
  }

  /** A commit deletes the votes of exactly the blocks it delivers. */
  lemma CommitDropsVotes(s: ChainState, id: Id, view: View, x: Id)
    requires Descending(s.forest) && CommitBlock(s, id, view).Done?
    ensures var r := CommitBlock(s, id, view);
      && (x in r.state.votes <==> x in s.votes && forall b :: b in r.committed ==> b.id != x)
      && (x in r.state.votes ==> r.state.votes[x] == s.votes[x])
  {
    hide CommittedPath, Restrict, PrunedNo, WalkDefined, CommitForked;
  }

  function ViewSum(blocks: seq<Block>): nat {
    if blocks == [] then 0 else blocks[0].view + ViewSum(blocks[1..])
  }

  /** The block intervals counted are the distances from the views delivered to the current one. */
  lemma CommitCountsIntervals(s: ChainState, id: Id, view: View)
    requires Descending(s.forest) && CommitBlock(s, id, view).Done?
    ensures var r := CommitBlock(s, id, view);
      r.state.intervals == s.intervals + |r.committed| * view - ViewSum(r.committed)
  {
    hide CommittedPath, Restrict, PrunedNo, WalkDefined, CommitForked;
    IntervalSum(CommitBlock(s, id, view).committed, view);
  }

  lemma {:induction false} IntervalSum(blocks: seq<Block>, view: View)
    ensures Intervals(blocks, view) == |blocks| * view - ViewSum(blocks)
  {
    if blocks != [] {
      var before, last := blocks[..|blocks| - 1], blocks[|blocks| - 1];
      IntervalSum(before, view);
      assert blocks == before + [last];
      ViewSumAppends(before, last);
      assert |blocks| * view == |before| * view + view;
    }
  }

  lemma {:induction false} ViewSumAppends(blocks: seq<Block>, b: Block)
    ensures ViewSum(blocks + [b]) == ViewSum(blocks) + b.view
  {
    if blocks != [] {
      ViewSumAppends(blocks[1..], b);
      assert (blocks + [b])[1..] == blocks[1..] + [b];
    }
  }

  /** The error branch for the pruning level is unreachable. */
  lemma NeverRefused(s: ChainState, lev: Id -> nat, id: Id, view: View)
    requires LevelIndex(s.forest) && Levels(s.forest, lev)
    ensures Descending(s.forest) && CommitBlock(s, id, view) != Refused
  {
    GoodDescends(s.forest, lev);
  }

  lemma CommitKeepsGood(s: ChainState, lev: Id -> nat, id: Id, view: View)
    requires Good(s.forest, lev) && Descending(s.forest) && CommitBlock(s, id, view).Done?
    ensures Good(CommitBlock(s, id, view).state.forest, lev)
    ensures CommitBlock(s, id, view).state.forest.lowest >= s.forest.lowest
  {
    hide Good;
    RestrictGood(s.forest, lev, s.forest.GetVertex(id).value.view);
  }

  /** The block reached at the old lowest level is the parent of the last block of the batch. */
  lemma {:induction false} PathReaches(f: Forest, b: Block, x: Block)
    requires Descending(f) && f.Has(b) && StoredAncestor(f, b, x) && x.view == f.lowest < b.view
    ensures var path := CommittedPath(f, b); |path| > 0 && path[|path| - 1].prevId == x.id
    decreases b.view
  {
    var p := Parent(f, b).value;
    if p.view > f.lowest {
      PathReaches(f, p, x);
    } else {
      AncestorIsLower(f, p, x);
    }
  }

  /** A commit of g: the batch is the parent-linked chain of its stored ancestors above the old lowest level, newest first;
      the forked blocks are stored blocks below it, each once, and with unique levels exactly those that are no ancestors;
      what is stored from g's view on stays, the rest goes; and the votes of the batch are deleted. */
  ghost predicate Finalizes(c: ChainState, c': ChainState, g: Block, batch: seq<Block>, forked: seq<Block>)
    requires Descending(c.forest) && c.forest.Has(g)
  {
    && Linked(batch) && Falling(batch) && (forall x :: x in batch <==> StoredAncestor(c.forest, g, x) && x.view > c.forest.lowest)
    && Distinct(forked) && (forall x :: x in forked ==> c.forest.Has(x) && c.forest.lowest <= x.view < g.view && x.view > 1)
    && (OnePerLevel(c.forest) ==> SplitsOff(c.forest, g, forked))
    && c'.forest.lowest == g.view && c'.highestCommitted == g.view && c'.committedNo == c.committedNo + |batch|
    && (forall id :: c'.forest.GetVertex(id) ==
          if c.forest.GetVertex(id).Some? && c.forest.GetVertex(id).value.view >= g.view then c.forest.GetVertex(id) else None)
    && (forall id :: id in c'.votes <==> id in c.votes && forall b :: b in batch ==> b.id != id)
  }

  ghost predicate SplitsOff(f: Forest, g: Block, forked: seq<Block>)
    requires Descending(f) && f.Has(g)
  {
    forall x :: f.Has(x) && f.lowest <= x.view <= g.view && x.view > 1 ==> (x in forked <==> !StoredAncestor(f, g, x))
  }

  lemma RestrictGets(f: Forest, lev: Id -> nat, low: nat, id: Id)
    requires Levels(f, lev)
    ensures Restrict(f, low).GetVertex(id) ==
      if f.GetVertex(id).Some? && f.GetVertex(id).value.view >= low then f.GetVertex(id) else None
  {
    if f.GetVertex(id).Some? { assert f.Full(id); }
  }

  /** A completed commit finalizes its block. */
  lemma CommitFinalizes(s: ChainState, lev: Id -> nat, g: Block, view: View)
    requires LevelIndex(s.forest) && Levels(s.forest, lev) && Descending(s.forest) && s.forest.Has(g)
    requires CommitBlock(s, g.id, view).Done?
    ensures var r := CommitBlock(s, g.id, view); Finalizes(s, r.state, g, r.committed, r.forked)
  {
    hide LevelIndex, Levels, Descending, WalkDefined, CommittedPath, CommittedLevels, Forked, Restrict, StoredAncestor, PrunedNo;
    hide Linked, Falling, Distinct, OnePerLevel;
    var f, r := s.forest, CommitBlock(s, g.id, view);
    CommittedPathMeaning(f, g);
    ForkedOnce(f, lev, CommittedLevels(f, g.view), f.lowest, g.view);
    forall x ensures x in r.forked ==> f.Has(x) && f.lowest <= x.view < g.view && x.view > 1 {
      ForkedMeaning(f, lev, CommittedLevels(f, g.view), f.lowest, g.view, x);
    }
    if OnePerLevel(f) {
      forall x | f.Has(x) && f.lowest <= x.view <= g.view && x.view > 1 ensures x in r.forked <==> !StoredAncestor(f, g, x) {
        CommitForkSplit(f, lev, g, x);
      }
    }
    forall id ensures r.state.forest.GetVertex(id) ==
      if f.GetVertex(id).Some? && f.GetVertex(id).value.view >= g.view then f.GetVertex(id) else None
    {
      RestrictGets(f, lev, g.view, id);
    }
    forall id ensures id in r.state.votes <==> id in s.votes && forall b :: b in r.committed ==> b.id != id {
      CommitDropsVotes(s, g.id, view, id);
    }
    RestrictLowest(f, g.view);
  }

  lemma RestrictLowest(f: Forest, low: nat)
    ensures Restrict(f, low).lowest == low
  {
  }
}
