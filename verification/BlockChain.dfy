/** The block chain as the source holds it: the forest, the vote quorum and the counters. */
module BlockChains {
  import opened Types
  import opened Forests
  import opened Commits
  import opened Chains
  import opened Collectors
  import opened Quorums
  import opened LevelledForests

  lemma IntervalsStep(blocks: seq<Block>, b: Block, view: View)
    ensures Intervals(blocks + [b], view) == Intervals(blocks, view) + (view - b.view)
    ensures IdsOf(blocks + [b]) == IdsOf(blocks) + {b.id}
  {
    assert (blocks + [b])[..|blocks|] == blocks;
    assert forall x :: x in blocks + [b] <==> x in blocks || x == b;
  }

  lemma DropStep(votes: Tally<Id, Vote>, ids: set<Id>, id: Id)
    ensures (if id in votes - ids then (votes - ids) - {id} else votes - ids) == votes - (ids + {id})
  {
  }

  /** The value-level commit, case by case. */
  lemma CommitCases(s: ChainState, id: Id, view: View)
    requires Descending(s.forest)
    ensures s.forest.GetVertex(id).None? ==> CommitBlock(s, id, view) == NotFound
    ensures s.forest.GetVertex(id).Some? ==>
      var b := s.forest.GetVertex(id).value;
      && s.forest.Has(b)
      && (CommitBlock(s, id, view) == Refused <==> b.view < s.forest.lowest)
      && (CommitBlock(s, id, view) == Panics <==> b.view >= s.forest.lowest && !WalkDefined(s.forest, b.view))
      && (b.view >= s.forest.lowest && WalkDefined(s.forest, b.view) ==>
            CommitBlock(s, id, view) == Done(AfterCommit(s, b, view), CommittedPath(s.forest, b), CommitForked(s.forest, b)))
  {
  }

  lemma DroppedFiled(votes: Tally<Id, Vote>, ids: set<Id>)
    requires Filed(votes)
    ensures Filed(votes - ids)
  {
  }

  lemma EmptyBatch<M>(votes: Tally<Id, M>, view: View)
    ensures Intervals([], view) == 0 && votes - IdsOf([]) == votes
  {
  }

  lemma PathEnds(f: Forest, b: Block)
    requires Descending(f) && f.Has(b)
    ensures b.view <= f.lowest ==> CommittedPath(f, b) == []
  {
  }

  /** Where the commit loop stands: what is collected, and what is left to collect if it goes on at `block`. */
  ghost predicate Walking(f: Forest, b: Block, view: View, before: Tally<Id, Vote>, block: Block, more: bool,
                          committed: seq<Block>, votes: Tally<Id, Vote>, total: int)
    requires Descending(f) && f.Has(b)
  {
    && f.Has(block)
    && committed + (if more then CommittedPath(f, block) else []) == CommittedPath(f, b)
    && votes == before - IdsOf(committed)
    && total == Intervals(committed, view)
  }

  lemma WalkStarts(f: Forest, b: Block, view: View, before: Tally<Id, Vote>)
    requires Descending(f) && f.Has(b)
    ensures Walking(f, b, view, before, b, true, [], before, 0)
  {
    EmptyBatch(before, view);
  }

  lemma WalkTurns(f: Forest, b: Block, view: View, before: Tally<Id, Vote>, block: Block, committed: seq<Block>,
                  votes: Tally<Id, Vote>, total: int)
    requires Descending(f) && f.Has(b) && Walking(f, b, view, before, block, true, committed, votes, total)
    requires block.view > f.lowest
    ensures var c, v, t := committed + [block], (if block.id in votes then votes - {block.id} else votes), total + (view - block.view);
      && (Parent(f, block).None? ==> Walking(f, b, view, before, block, false, c, v, t))
      && (Parent(f, block).Some? ==>
            Parent(f, block).value.view < block.view && Walking(f, b, view, before, Parent(f, block).value, true, c, v, t))
  {
    PathStep(f, block, committed);
    IntervalsStep(committed, block, view);
    DropStep(before, IdsOf(committed), block.id);
    hide CommittedPath, Intervals, IdsOf, Descending;
  }

  lemma WalkEnds(f: Forest, b: Block, view: View, before: Tally<Id, Vote>, block: Block, more: bool,
                 committed: seq<Block>, votes: Tally<Id, Vote>, total: int)
    requires Descending(f) && f.Has(b) && Walking(f, b, view, before, block, more, committed, votes, total)
    requires more ==> block.view <= f.lowest
    ensures committed == CommittedPath(f, b) && votes == before - IdsOf(committed) && total == Intervals(committed, view)
  {
    PathEnds(f, block);
  }

  /** What one turn of the commit loop leaves to do. */
  lemma PathStep(f: Forest, b: Block, committed: seq<Block>)
    requires Descending(f) && f.Has(b) && b.view > f.lowest
    ensures Parent(f, b).None? ==> committed + CommittedPath(f, b) == committed + [b]
    ensures Parent(f, b).Some? ==>
      var p := Parent(f, b).value;
      f.Has(p) && p.view < b.view && committed + CommittedPath(f, b) == committed + [b] + CommittedPath(f, p)
  {
  }

  /** The block is unknown, the prune walk dereferences nil, or the commit is done. */
  datatype CommitResult = Unknown | Dereferenced | Committed(committed: seq<Block>, forked: seq<Block>)

  class BlockChain {
    const forrest: LevelledForest
    const quorum: Quorum
    var highestCommitted: nat
    var committedBlockNo: nat
    var totalBlockIntervals: int
    var prunedBlockNo: nat

    ghost predicate Valid()
      reads this, forrest, quorum, forrest.vertices.Values
    {
      forrest.Valid() && Filed(quorum.votes)
    }

    ghost function Abs(): ChainState
      reads this, forrest, quorum, forrest.vertices.Values
    {
      ChainState(forrest.Abs(), quorum.votes, highestCommitted, committedBlockNo, totalBlockIntervals, prunedBlockNo)
    }

    constructor (byzNo: nat, ghost lev: Id -> nat)
      ensures Valid() && Abs() == EMPTY_CHAIN && forrest.lev == lev && quorum.byzNo == byzNo
      ensures fresh(forrest) && fresh(quorum)
    {
      forrest := new LevelledForest(lev);
      quorum := new Quorum(byzNo);
      highestCommitted, committedBlockNo, totalBlockIntervals, prunedBlockNo := 0, 0, 0, 0;
    }

    method AddBlock(block: Block)
      requires Valid() && Fits(forrest.lev, block)
      modifies forrest, forrest.vertices.Values
      ensures Valid() && Abs() == Chains.AddBlock(old(Abs()), block)
      ensures Extends(forrest.vertices, old(forrest.vertices))
      ensures forall id :: id in forrest.vertices && id !in old(forrest.vertices) ==> fresh(forrest.vertices[id])
    {
      forrest.AddVertex(block);
    }

    method AddVote(vote: Vote) returns (qc: Option<QC>)
      requires Valid()
      modifies quorum
      ensures Valid()
      ensures Abs() == old(Abs()).(votes := Collect(old(quorum.votes), quorum.byzNo * 2 + 1, vote.blockId, vote.voter, vote))
      ensures qc.Some? <==> Reports(old(quorum.votes), quorum.byzNo * 2 + 1, vote.blockId, vote.voter, vote)
      ensures qc.Some? ==> qc.value.view == vote.view && qc.value.blockId == vote.blockId &&
                           Certifies(qc.value, quorum.votes[vote.blockId])
    {
      hide Good, LevelledForest.Valid, LevelledForest.Abs;
      qc := quorum.Add(vote);
    }

    method GetParentBlock(id: Id) returns (parent: Option<Block>)
      ensures parent == Chains.GetParentBlock(forrest.Abs(), id)
    {
      var v := forrest.GetVertex(id);
      if v.None? {
        return None;
      }
      parent := forrest.GetVertex(v.value.prevId);
    }

    /** The commit loop: collects the block and its stored ancestors above the lowest level, drops their votes
        and counts them. */
    method CollectCommitted(b: Block, view: View) returns (committed: seq<Block>)
      requires Descending(forrest.Abs()) && forrest.Abs().Has(b)
      modifies this`committedBlockNo, this`totalBlockIntervals, quorum
      ensures committed == CommittedPath(forrest.Abs(), b)
      ensures quorum.votes == old(quorum.votes) - IdsOf(committed)
      ensures committedBlockNo == old(committedBlockNo) + |committed|
      ensures totalBlockIntervals == old(totalBlockIntervals) + Intervals(committed, view)
      ensures forrest.Abs() == old(forrest.Abs())
    {
      hide CommittedPath, IdsOf, Intervals, LevelledForest.Abs, Descending;
      var votes, total;
      committed, votes, total := WalkCommitted(b, view);
      quorum.votes := votes;
      committedBlockNo := committedBlockNo + |committed|;
      totalBlockIntervals := totalBlockIntervals + total;
    }

    /** The walk itself: the blocks, the votes left and the intervals to add. */
    method WalkCommitted(b: Block, view: View) returns (committed: seq<Block>, votes: Tally<Id, Vote>, total: int)
      requires Descending(forrest.Abs()) && forrest.Abs().Has(b)
      ensures committed == CommittedPath(forrest.Abs(), b)
      ensures votes == quorum.votes - IdsOf(committed)
      ensures total == Intervals(committed, view)
    {
      ghost var f := forrest.Abs();
      WalkStarts(f, b, view, quorum.votes);
      LowestOf();
      hide LevelledForest.Abs, Walking, CommittedPath, Intervals, IdsOf, Descending;
      committed, votes, total := [], quorum.votes, 0;
      var block, more := b, true;
      while more && block.view > forrest.lowestLevel
        invariant Walking(f, b, view, quorum.votes, block, more, committed, votes, total)
        decreases more, block.view
      {
        WalkTurns(f, b, view, quorum.votes, block, committed, votes, total);
        committed := committed + [block];
        votes := if block.id in votes then votes - {block.id} else votes;
        total := total + (view - block.view);
        var parent := forrest.GetVertex(block.prevId);
        if parent.None? {
          more := false;
        } else {
          block := parent.value;
        }
      }
      WalkEnds(f, b, view, quorum.votes, block, more, committed, votes, total);
    }

    lemma LowestOf()
      ensures forrest.Abs().lowest == forrest.lowestLevel
    {
    }

    /** Commits a block known to be stored: the loop, then the pruning; false if the prune walk dereferences nil. */
    method CommitVertex(b: Block, view: View) returns (done: bool, committed: seq<Block>, forked: seq<Block>)
      requires Valid() && Descending(forrest.Abs()) && forrest.Abs().Has(b) && forrest.lowestLevel <= b.view
      modifies this, forrest, quorum
      ensures Valid() && Extends(old(forrest.vertices), forrest.vertices)
      ensures done <==> old(WalkDefined(forrest.Abs(), b.view))
      ensures committed == CommittedPath(old(forrest.Abs()), b) && quorum.votes == old(quorum.votes) - IdsOf(committed)
      ensures highestCommitted == b.view && committedBlockNo == old(committedBlockNo) + |committed|
      ensures totalBlockIntervals == old(totalBlockIntervals) + Intervals(committed, view)
      ensures !done ==> forrest.Abs() == old(forrest.Abs()) && prunedBlockNo == old(prunedBlockNo)
      ensures done ==> forked == CommitForked(old(forrest.Abs()), b) && Abs() == AfterCommit(old(Abs()), b, view)
    {
      LowestOf();
      hide LevelledForest.Abs, LevelledForest.Valid, Good, Descending, WalkDefined, CommittedPath, Restrict, IdsOf, Intervals;
      highestCommitted := b.view;
      committed := CollectCommitted(b, view);
      DroppedFiled(old(quorum.votes), IdsOf(committed));
      var result := forrest.PruneUpToLevel(b.view);
      done, forked := result.Pruned?, [];
      if done {
        prunedBlockNo := prunedBlockNo + result.pruned;
        forked := result.forked;
      }
    }

    /** Commits a stored block: what the value-level commit computes. Where that panics the forest is untouched. */
    method CommitBlock(id: Id, view: View) returns (result: CommitResult)
      requires Valid() && Descending(forrest.Abs())
      modifies this, forrest, quorum
      ensures Valid() && Extends(old(forrest.vertices), forrest.vertices)
      ensures match Chains.CommitBlock(old(Abs()), id, view)
        case NotFound => result == Unknown && Abs() == old(Abs())
        case Panics => result == Dereferenced && forrest.Abs() == old(forrest.Abs())
        case Done(state, committed, forked) => result == Committed(committed, forked) && Abs() == state
        case Refused => false
      ensures result.Committed? ==>
        var f := old(forrest.Abs());
        f.GetVertex(id).Some? && f.Has(f.GetVertex(id).value) &&
        Finalizes(old(Abs()), Abs(), f.GetVertex(id).value, result.committed, result.forked)
    {
      Splits(id, view);
      hide LevelledForest.Abs, Valid, Abs, Descending, WalkDefined, Chains.CommitBlock, CommittedPath, CommitForked, AfterCommit, Finalizes;
      var vertex := forrest.GetVertex(id);
      if vertex.None? {
        return Unknown;
      }
      var done, committed, forked := CommitVertex(vertex.value, view);
      result := if done then Committed(committed, forked) else Dereferenced;
    }

    /** The value-level commit, case by case; the pruning level is never refused. */
    lemma Splits(id: Id, view: View)
      requires Valid() && Descending(forrest.Abs())
      ensures Abs().forest == forrest.Abs() && Chains.CommitBlock(Abs(), id, view) != Refused
      ensures forrest.Abs().GetVertex(id).None? ==> Chains.CommitBlock(Abs(), id, view) == NotFound
      ensures forrest.Abs().GetVertex(id).Some? ==>
        var f := forrest.Abs();
        var b := f.GetVertex(id).value;
        && f.Has(b) && forrest.lowestLevel <= b.view
        && (Chains.CommitBlock(Abs(), id, view) == Panics <==> !WalkDefined(f, b.view))
        && (WalkDefined(f, b.view) ==>
              && Chains.CommitBlock(Abs(), id, view) == Done(AfterCommit(Abs(), b, view), CommittedPath(f, b), CommitForked(f, b))
              && Finalizes(Abs(), AfterCommit(Abs(), b, view), b, CommittedPath(f, b), CommitForked(f, b)))
    {
      hide Finalizes;
      GoodIndexes(forrest.Abs(), forrest.lev);
      NeverRefused(Abs(), forrest.lev, id, view);
      if Chains.CommitBlock(Abs(), id, view).Done? {
        CommitFinalizes(Abs(), forrest.lev, forrest.Abs().GetVertex(id).value, view);
      }
      hide LevelledForest.Valid, Good, LevelIndex, Levels, Descending, WalkDefined, Chains.CommitBlock;
      hide CommittedPath, CommitForked, AfterCommit;
      CommitCases(Abs(), id, view);
    }

    /** The stored blocks among the children of a known id, in registration order; None where the source
        dereferences nil. */
    method GetChildrenBlocks(id: Id) returns (result: Option<seq<Block>>)
      requires Valid()
      ensures result == if id in forrest.vertices then Some(BlocksOf(forrest.Abs(), forrest.Abs().vertices[id].children)) else None
    {
      hide Good;
      var children := forrest.GetChildren(id);
      if children.None? {
        return None;
      }
      var blocks := Drain(children.value, id);
      result := Some(blocks);
    }

    /** Takes everything a new iterator over the children of an id has to give. */
    method Drain(it: VertexIterator, ghost id: Id) returns (blocks: seq<Block>)
      requires Valid() && id in forrest.vertices && it.data == forrest.vertices[id].children && it.Valid() && it.Yielded([])
      modifies it
      ensures blocks == BlocksOf(forrest.Abs(), forrest.Abs().vertices[id].children)
    {
      hide Good;
      blocks := [];
      ghost var cs, f := forrest.vertices[id].children, forrest.Abs();
      var more := it.HasNext();
      while more
        invariant it.data == cs && it.Valid() && it.Yielded(blocks) && (more <==> it.next.Some?)
        invariant !more ==> blocks == Vertices(cs)
        decreases |cs| - it.idx, more
      {
        var v := it.NextVertex();
        blocks := blocks + [v.value];
        more := it.HasNext();
      }
      forall i | 0 <= i < |cs| ensures f.GetVertex(cs[i].id) == cs[i].vertex {
        assert forrest.Known(cs[i]);
      }
      VerticesAreBlocks(cs, f);
    }
  }
}
