/** Whole runs of additions and commits: what is delivered, what is forked and what is counted. */
module ChainRuns {
  import opened Types
  import opened Forests
  import opened Commits
  import opened Chains

  datatype Op = Add(b: Block) | Commit(id: Id, view: View)

  /** A run's chain, the blocks delivered so far (oldest first), the forked blocks reported so far, and the
      number of containers ever created. */
  datatype Trace = Trace(chain: ChainState, log: seq<Block>, forked: seq<Block>, created: nat)

  function Reverse(s: seq<Block>): (r: seq<Block>)
    ensures |r| == |s| && forall i :: 0 <= i < |s| ==> r[i] == s[|s| - 1 - i]
  {
    seq(|s|, i requires 0 <= i < |s| => s[|s| - 1 - i])
  }

  function Apply(t: Trace, op: Op): Trace
    requires Descending(t.chain.forest)
  {
    match op
    case Add(b) =>
      var next := AddBlock(t.chain, b);
      t.(chain := next, created := t.created + |next.forest.vertices.Keys - t.chain.forest.vertices.Keys|)
    case Commit(id, view) =>
      match CommitBlock(t.chain, id, view)
      case Done(next, committed, forked) => t.(chain := next, log := t.log + Reverse(committed), forked := t.forked + forked)
      case _ => t
  }

  ghost predicate OpsFit(lev: Id -> nat, ops: seq<Op>) {
    forall i :: 0 <= i < |ops| && ops[i].Add? ==> Fits(lev, ops[i].b)
  }

  lemma ApplyGood(t: Trace, lev: Id -> nat, op: Op)
    requires Good(t.chain.forest, lev) && Descending(t.chain.forest) && (op.Add? ==> Fits(lev, op.b))
    ensures Good(Apply(t, op).chain.forest, lev)
  {
    hide Good, Fits, AddVertex, CommitBlock, Descending;
    match op
    case Add(b) => AddGood(t.chain.forest, lev, b);
    case Commit(id, view) =>
      if CommitBlock(t.chain, id, view).Done? { CommitKeepsGood(t.chain, lev, id, view); }
  }

  /** The trace of a run. */
  ghost function Run(lev: Id -> nat, ops: seq<Op>): (t: Trace)
    requires OpsFit(lev, ops)
    ensures Good(t.chain.forest, lev)
  {
    if ops == [] then Trace(EMPTY_CHAIN, [], [], 0)
    else
      var t := Run(lev, ops[..|ops| - 1]);
      GoodDescends(t.chain.forest, lev);
      ApplyGood(t, lev, ops[|ops| - 1]);
      Apply(t, ops[|ops| - 1])
  }

  // Delivery.

  /** Strictly rising views. */
  ghost predicate Rising(s: seq<Block>) {
    forall i, j :: 0 <= i < j < |s| ==> s[i].view < s[j].view
  }

  /** Views rise strictly up to the lowest level, which is the view of the last block delivered. */
  ghost predicate RisesTo(log: seq<Block>, lowest: nat) {
    Rising(log) && if log == [] then lowest == 0 else lowest == log[|log| - 1].view
  }

  ghost predicate Delivers(t: Trace) {
    RisesTo(t.log, t.chain.forest.lowest)
  }

  lemma BatchRises(f: Forest, b: Block)
    requires Descending(f) && f.Has(b)
    ensures var batch := Reverse(CommittedPath(f, b));
      && Rising(batch) && (forall x :: x in batch ==> x.view > f.lowest)
      && (if b.view > f.lowest then batch != [] && batch[|batch| - 1] == b else batch == [])
  {
    CommittedPathMeaning(f, b);
    var path := CommittedPath(f, b);
    var batch := Reverse(path);
    forall x | x in batch ensures x in path { var i :| 0 <= i < |batch| && batch[i] == x; }
  }

  lemma RisingAppend(log: seq<Block>, batch: seq<Block>, low: nat)
    requires Rising(log) && Rising(batch) && (forall x :: x in batch ==> x.view > low)
    requires log != [] ==> log[|log| - 1].view == low
    ensures Rising(log + batch)
  {
    var s := log + batch;
    forall i, j | 0 <= i < j < |s| ensures s[i].view < s[j].view {
      if j >= |log| { assert s[j] in batch; }
      if i < |log| - 1 { assert log[i].view < log[|log| - 1].view; }
    }
  }

  lemma ApplyDelivers(t: Trace, op: Op)
    requires Descending(t.chain.forest) && Delivers(t)
    requires op.Add? ==> AddVertex(t.chain.forest, op.b).lowest == t.chain.forest.lowest
    ensures Delivers(Apply(t, op))
  {
    match op
    case Add(b) =>
    case Commit(id, view) =>
      if CommitBlock(t.chain, id, view).Done? {
        var f := t.chain.forest;
        var b := f.GetVertex(id).value;
        var batch := Reverse(CommittedPath(f, b));
        BatchRises(f, b);
        hide CommittedPath, WalkDefined;
        RisingAppend(t.log, batch, f.lowest);
      }
  }

  /** Delivery: for any order and repetition of commits, every block delivered has a larger view than all
      those delivered before, so none is delivered twice, and the lowest level is the last view delivered. */
  lemma {:induction false} DeliveryRises(lev: Id -> nat, ops: seq<Op>)
    requires OpsFit(lev, ops)
    ensures Delivers(Run(lev, ops))
  {
    if ops != [] {
      var before, op := ops[..|ops| - 1], ops[|ops| - 1];
      var t := Run(lev, before);
      DeliveryRises(lev, before);
      GoodDescends(t.chain.forest, lev);
      if op.Add? { AddGood(t.chain.forest, lev, op.b); }
      ApplyDelivers(t, op);
    }
  }

  /** The committed block descends, through stored blocks, from the last one delivered. */
  ghost predicate Joins(t: Trace, op: Op)
    requires Descending(t.chain.forest)
  {
    op.Commit? && t.chain.forest.GetVertex(op.id).Some? && t.log != [] ==>
      StoredAncestor(t.chain.forest, t.chain.forest.GetVertex(op.id).value, t.log[|t.log| - 1])
  }

  /** Every commit of the run joins. */
  ghost predicate AllJoin(lev: Id -> nat, ops: seq<Op>)
    requires OpsFit(lev, ops)
  {
    ops == [] || (
      var t := Run(lev, ops[..|ops| - 1]);
      GoodDescends(t.chain.forest, lev);
      AllJoin(lev, ops[..|ops| - 1]) && Joins(t, ops[|ops| - 1]))
  }

  /** Each block names the one before it as its parent. */
  ghost predicate ParentLinked(s: seq<Block>) {
    forall i :: 0 < i < |s| ==> s[i].prevId == s[i - 1].id
  }

  lemma LinkedEmpty()
    ensures ParentLinked([])
  {
  }

  lemma ReverseLinks(path: seq<Block>)
    requires Linked(path)
    ensures ParentLinked(Reverse(path))
  {
    var s := Reverse(path);
    forall i | 0 < i < |s| ensures s[i].prevId == s[i - 1].id {
      var k := |path| - 1 - i;
      assert s[i] == path[k] && s[i - 1] == path[k + 1];
    }
  }

  lemma LinkedAppend(log: seq<Block>, batch: seq<Block>)
    requires ParentLinked(log) && ParentLinked(batch)
    requires log != [] && batch != [] ==> batch[0].prevId == log[|log| - 1].id
    ensures ParentLinked(log + batch)
  {
  }

  lemma BatchLinks(f: Forest, b: Block, log: seq<Block>)
    requires Descending(f) && f.Has(b) && ParentLinked(log)
    requires log != [] ==> StoredAncestor(f, b, log[|log| - 1]) && log[|log| - 1].view == f.lowest
    ensures ParentLinked(log + Reverse(CommittedPath(f, b)))
  {
    hide ParentLinked, Linked, Falling, StoredAncestor;
    CommittedPathMeaning(f, b);
    var path := CommittedPath(f, b);
    ReverseLinks(path);
    if log != [] && path != [] { PathReaches(f, b, log[|log| - 1]); }
    LinkedAppend(log, Reverse(path));
  }

  lemma ApplyLinks(t: Trace, op: Op)
    requires Descending(t.chain.forest) && Delivers(t) && ParentLinked(t.log) && Joins(t, op)
    ensures ParentLinked(Apply(t, op).log)
  {
    hide ParentLinked, WalkDefined, CommittedPath, StoredAncestor;
    if op.Commit? && CommitBlock(t.chain, op.id, op.view).Done? {
      BatchLinks(t.chain.forest, t.chain.forest.GetVertex(op.id).value, t.log);
    }
  }

  /** One chain: if every committed block descends from the last one delivered, everything delivered over the
      run is a single parent-linked chain. */
  lemma {:induction false} DeliveryIsOneChain(lev: Id -> nat, ops: seq<Op>)
    requires OpsFit(lev, ops) && AllJoin(lev, ops)
    ensures ParentLinked(Run(lev, ops).log)
  {
    hide Good, ParentLinked, Apply, Joins, Delivers, Descending;
    if ops == [] {
      LinkedEmpty();
    } else {
      var before := ops[..|ops| - 1];
      var t := Run(lev, before);
      DeliveryIsOneChain(lev, before);
      DeliveryRises(lev, before);
      GoodIndexes(t.chain.forest, lev);
      GoodDescends(t.chain.forest, lev);
      ApplyLinks(t, ops[|ops| - 1]);
    }
  }

  /** Every commit of the run meets at most one container per level. */
  ghost predicate AllUnique(lev: Id -> nat, ops: seq<Op>)
    requires OpsFit(lev, ops)
  {
    ops == [] || (AllUnique(lev, ops[..|ops| - 1]) &&
                  (ops[|ops| - 1].Commit? ==> OnePerLevel(Run(lev, ops[..|ops| - 1]).chain.forest)))
  }

  /** No reported fork was ever delivered. */
  ghost predicate ForksApart(t: Trace) {
    forall x :: x in t.forked ==> x !in t.log
  }

  /** Reported forks lie below the lowest level, and the last block delivered is stored. */
  ghost predicate Settled(t: Trace) {
    && (forall x :: x in t.forked ==> x.view < t.chain.forest.lowest)
    && (t.log != [] ==> t.chain.forest.Has(t.log[|t.log| - 1]))
  }

  /** A commit that is done joins, unless the last block delivered has view 1 or less, which is never reported. */
  ghost predicate Harmless(t: Trace, op: Op)
    requires Descending(t.chain.forest)
  {
    op.Commit? && CommitBlock(t.chain, op.id, op.view).Done? ==>
      Joins(t, op) || (t.log != [] && t.log[|t.log| - 1].view <= 1)
  }

  ghost predicate AllHarmless(lev: Id -> nat, ops: seq<Op>)
    requires OpsFit(lev, ops)
  {
    ops == [] || (
      var t := Run(lev, ops[..|ops| - 1]);
      GoodDescends(t.chain.forest, lev);
      AllHarmless(lev, ops[..|ops| - 1]) && Harmless(t, ops[|ops| - 1]))
  }

  lemma LogIsBelow(t: Trace, x: Block)
    requires Delivers(t)
    ensures x in t.log ==> x.view <= t.chain.forest.lowest && (x.view == t.chain.forest.lowest ==> x == t.log[|t.log| - 1])
  {
    if x in t.log {
      var i :| 0 <= i < |t.log| && t.log[i] == x;
      assert i < |t.log| - 1 ==> t.log[i].view < t.log[|t.log| - 1].view;
    }
  }

  lemma InReverse(s: seq<Block>, x: Block)
    ensures x in Reverse(s) <==> x in s
  {
    if x in s {
      var i :| 0 <= i < |s| && s[i] == x;
      assert Reverse(s)[|s| - 1 - i] == x;
    }
  }

  /** What one commit adds, for a block it reports: below the target, not in its batch, and delivered before exactly
      if it is the last one delivered. */
  lemma NewFork(t: Trace, lev: Id -> nat, b: Block, x: Block)
    requires LevelIndex(t.chain.forest) && Levels(t.chain.forest, lev) && Descending(t.chain.forest)
    requires OnePerLevel(t.chain.forest) && Delivers(t) && Settled(t)
    requires t.chain.forest.Has(b) && b.view >= t.chain.forest.lowest && WalkDefined(t.chain.forest, b.view)
    requires x in CommitForked(t.chain.forest, b)
    ensures x.view < b.view && x.view > 1 && x !in CommittedPath(t.chain.forest, b)
    ensures !StoredAncestor(t.chain.forest, b, x)
    ensures x in t.log ==> x == t.log[|t.log| - 1]
  {
    hide WalkDefined, CommittedLevels, CommittedPath, LevelIndex, Levels, OnePerLevel, Delivers, Settled;
    var f := t.chain.forest;
    LogIsBelow(t, x);
    ForkedMeaning(f, lev, CommittedLevels(f, b.view), f.lowest, b.view, x);
    CommitForkSplit(f, lev, b, x);
  }

  /** The last block delivered is reported by a commit exactly if it is above view 1 and no ancestor of the target. */
  lemma LastIsForked(t: Trace, lev: Id -> nat, b: Block)
    requires LevelIndex(t.chain.forest) && Levels(t.chain.forest, lev) && Descending(t.chain.forest)
    requires OnePerLevel(t.chain.forest) && Delivers(t) && Settled(t) && t.log != []
    requires t.chain.forest.Has(b) && b.view >= t.chain.forest.lowest && WalkDefined(t.chain.forest, b.view)
    ensures var x := t.log[|t.log| - 1];
      x in CommitForked(t.chain.forest, b) <==> x.view > 1 && !StoredAncestor(t.chain.forest, b, x)
  {
    hide WalkDefined, CommittedLevels, CommittedPath, LevelIndex, Levels, OnePerLevel;
    var f, x := t.chain.forest, t.log[|t.log| - 1];
    if x.view > 1 {
      CommitForkSplit(f, lev, b, x);
    } else {
      ForkedMeaning(f, lev, CommittedLevels(f, b.view), f.lowest, b.view, x);
    }
  }

  /** What a commit that is done makes of a trace. */
  lemma CommitTrace(t: Trace, lev: Id -> nat, op: Op)
    requires LevelIndex(t.chain.forest) && Levels(t.chain.forest, lev) && Descending(t.chain.forest)
    requires op.Commit? && CommitBlock(t.chain, op.id, op.view).Done?
    ensures var f, t' := t.chain.forest, Apply(t, op);
      && f.GetVertex(op.id).Some?
      && var b := f.GetVertex(op.id).value;
      && f.Has(b) && b.view >= f.lowest && WalkDefined(f, b.view)
      && t'.log == t.log + Reverse(CommittedPath(f, b)) && t'.forked == t.forked + CommitForked(f, b)
      && t'.chain.forest == Restrict(f, b.view)
  {
  }

  lemma CommitSettles(t: Trace, lev: Id -> nat, op: Op)
    requires LevelIndex(t.chain.forest) && Levels(t.chain.forest, lev) && Descending(t.chain.forest)
    requires Delivers(t) && Settled(t) && op.Commit? && CommitBlock(t.chain, op.id, op.view).Done?
    ensures Settled(Apply(t, op))
  {
    hide CommittedPath, CommittedLevels, WalkDefined, LevelIndex, Levels, Descending, Restrict, Forked, Rising, Apply, CommitBlock, Reverse;
    CommitTrace(t, lev, op);
    var f := t.chain.forest;
    var b := f.GetVertex(op.id).value;
    BatchRises(f, b);
    RestrictHas(f, lev, b.view, b);
    if t.log != [] && b.view == f.lowest { RestrictHas(f, lev, b.view, t.log[|t.log| - 1]); }
    ForksAreLower(f, lev, b);
    SettledNext(t, Apply(t, op), Reverse(CommittedPath(f, b)), CommitForked(f, b), b);
  }

  lemma ForksAreLower(f: Forest, lev: Id -> nat, b: Block)
    requires LevelIndex(f) && Levels(f, lev) && Descending(f) && f.Has(b) && b.view >= f.lowest && WalkDefined(f, b.view)
    ensures forall x :: x in CommitForked(f, b) ==> x.view < b.view
  {
    forall x | x in CommitForked(f, b) ensures x.view < b.view {
      ForkedMeaning(f, lev, CommittedLevels(f, b.view), f.lowest, b.view, x);
    }
  }

  lemma SettledNext(t: Trace, t': Trace, batch: seq<Block>, forked: seq<Block>, b: Block)
    requires Settled(t) && b.view >= t.chain.forest.lowest && t'.log == t.log + batch && t'.forked == t.forked + forked
    requires forall x :: x in forked ==> x.view < b.view
    requires if b.view > t.chain.forest.lowest then batch != [] && batch[|batch| - 1] == b else batch == []
    requires t'.chain.forest.lowest == b.view && t'.chain.forest.Has(b)
    requires t.log != [] && b.view == t.chain.forest.lowest ==> t'.chain.forest.Has(t.log[|t.log| - 1])
    ensures Settled(t')
  {
  }

  lemma RestrictHas(f: Forest, lev: Id -> nat, low: nat, x: Block)
    requires Levels(f, lev) && f.Has(x) && x.view >= low
    ensures Restrict(f, low).Has(x) && Restrict(f, low).lowest == low
  {
    assert f.Full(x.id);
  }

  lemma AddSettles(t: Trace, lev: Id -> nat, op: Op)
    requires Levels(t.chain.forest, lev) && Descending(t.chain.forest) && Settled(t) && op.Add? && Fits(lev, op.b)
    ensures Settled(Apply(t, op))
  {
    AddLevels(t.chain.forest, lev, op.b);
    if op.b.view >= t.chain.forest.lowest && !t.chain.forest.Full(op.b.id) { AddVertexAdds(t.chain.forest, lev, op.b); }
    hide AddVertex;
  }

  lemma {:induction false} RunSettles(lev: Id -> nat, ops: seq<Op>)
    requires OpsFit(lev, ops)
    ensures Settled(Run(lev, ops))
  {
    hide Good, Settled, Apply, Descending, Fits;
    if ops == [] {
      EmptySettles();
    } else {
      var before, op := ops[..|ops| - 1], ops[|ops| - 1];
      var t := Run(lev, before);
      RunSettles(lev, before);
      DeliveryRises(lev, before);
      GoodIndexes(t.chain.forest, lev);
      GoodDescends(t.chain.forest, lev);
      if op.Add? {
        AddSettles(t, lev, op);
      } else if CommitBlock(t.chain, op.id, op.view).Done? {
        CommitSettles(t, lev, op);
      } else {
        Unchanged(t, op);
      }
    }
  }

  lemma EmptySettles()
    ensures Settled(Trace(EMPTY_CHAIN, [], [], 0))
  {
  }

  lemma Unchanged(t: Trace, op: Op)
    requires Descending(t.chain.forest) && op.Commit? && !CommitBlock(t.chain, op.id, op.view).Done?
    ensures Apply(t, op) == t
  {
  }

  /** One commit keeps forks and deliveries apart exactly if it is harmless; once mixed they stay mixed. */
  lemma CommitForksApart(t: Trace, lev: Id -> nat, op: Op)
    requires LevelIndex(t.chain.forest) && Levels(t.chain.forest, lev) && Descending(t.chain.forest)
    requires OnePerLevel(t.chain.forest) && Delivers(t) && Settled(t)
    requires op.Commit? && CommitBlock(t.chain, op.id, op.view).Done?
    ensures ForksApart(Apply(t, op)) <==> ForksApart(t) && Harmless(t, op)
  {
    hide LevelIndex, Levels, OnePerLevel, CommittedPath, CommitForked, WalkDefined, StoredAncestor;
    CommitTrace(t, lev, op);
    hide Apply, CommitBlock;
    var f, t' := t.chain.forest, Apply(t, op);
    var b := f.GetVertex(op.id).value;
    var path := CommittedPath(f, b);
    BatchRises(f, b);
    forall x ensures x in Reverse(path) <==> x in path { InReverse(path, x); }
    if t.log != [] { LastIsForked(t, lev, b); }
    if ForksApart(t) && Harmless(t, op) {
      forall x | x in t'.forked ensures x !in t'.log {
        if x in t.forked {
          assert x in Reverse(path) ==> x.view > f.lowest;
        } else {
          NewFork(t, lev, b, x);
        }
      }
    }
    if ForksApart(t') {
      forall x | x in t.forked ensures x !in t.log { assert x in t'.forked; }
      if t.log != [] {
        assert t.log[|t.log| - 1] in t.log && t.log[|t.log| - 1] in t'.log;
      }
    }
  }

  /** Over whole runs with unique levels: no block is both delivered and reported as forked if and only if every
      commit joins the last block delivered, or that one has view 1 or less. */
  lemma {:induction false} ForkedIsNeverDelivered(lev: Id -> nat, ops: seq<Op>)
    requires OpsFit(lev, ops) && AllUnique(lev, ops)
    ensures ForksApart(Run(lev, ops)) <==> AllHarmless(lev, ops)
  {
    hide Good, Apply, Descending, Fits, Settled, Delivers, CommitBlock, Joins;
    if ops != [] {
      var before, op := ops[..|ops| - 1], ops[|ops| - 1];
      var t := Run(lev, before);
      ForkedIsNeverDelivered(lev, before);
      RunSettles(lev, before);
      DeliveryRises(lev, before);
      GoodIndexes(t.chain.forest, lev);
      GoodDescends(t.chain.forest, lev);
      if op.Add? {
        AddAddsNoForks(t, op);
      } else if CommitBlock(t.chain, op.id, op.view).Done? {
        CommitForksApart(t, lev, op);
      } else {
        Unchanged(t, op);
      }
    }
  }

  lemma AddAddsNoForks(t: Trace, op: Op)
    requires Descending(t.chain.forest) && op.Add?
    ensures Apply(t, op).forked == t.forked && Apply(t, op).log == t.log
  {
  }

  /** In particular, joining commits keep them apart. */
  lemma {:induction false} JoiningIsHarmless(lev: Id -> nat, ops: seq<Op>)
    requires OpsFit(lev, ops) && AllJoin(lev, ops)
    ensures AllHarmless(lev, ops)
  {
    hide Good, Apply, CommitBlock, Joins, Descending;
    if ops != [] {
      JoiningIsHarmless(lev, ops[..|ops| - 1]);
      var t := Run(lev, ops[..|ops| - 1]);
      GoodIndexes(t.chain.forest, lev);
      GoodDescends(t.chain.forest, lev);
    }
  }

  lemma CommitForksOnce(t: Trace, lev: Id -> nat, op: Op)
    requires LevelIndex(t.chain.forest) && Levels(t.chain.forest, lev) && Descending(t.chain.forest) && Settled(t) && Distinct(t.forked)
    requires op.Commit? && CommitBlock(t.chain, op.id, op.view).Done?
    ensures Distinct(Apply(t, op).forked)
  {
    hide LevelIndex, Levels, Descending, WalkDefined, CommittedLevels, CommittedPath, Forked, Distinct, Apply, CommitBlock, Restrict;
    CommitTrace(t, lev, op);
    var f := t.chain.forest;
    var b := f.GetVertex(op.id).value;
    ForkedOnce(f, lev, CommittedLevels(f, b.view), f.lowest, b.view);
    forall x | x in t.forked ensures x !in CommitForked(f, b) {
      ForkedMeaning(f, lev, CommittedLevels(f, b.view), f.lowest, b.view, x);
    }
    DistinctJoin(t.forked, CommitForked(f, b));
  }

  /** Over any run no block is reported as forked twice. */
  lemma {:induction false} ForkedOnceInAll(lev: Id -> nat, ops: seq<Op>)
    requires OpsFit(lev, ops)
    ensures Distinct(Run(lev, ops).forked)
  {
    hide Good, Apply, Descending, Fits, Settled, Distinct;
    if ops == [] {
      EmptyIsDistinct();
    } else {
      var before, op := ops[..|ops| - 1], ops[|ops| - 1];
      var t := Run(lev, before);
      ForkedOnceInAll(lev, before);
      RunSettles(lev, before);
      GoodIndexes(t.chain.forest, lev);
      GoodDescends(t.chain.forest, lev);
      if op.Add? {
        AddAddsNoForks(t, op);
      } else if CommitBlock(t.chain, op.id, op.view).Done? {
        CommitForksOnce(t, lev, op);
      } else {
        Unchanged(t, op);
      }
    }
  }

  // Conservation.

  /** Containers ever created are live or pruned, every block counted as committed was delivered, and the highest
      committed view is the lowest level kept. */
  ghost predicate Conserves(t: Trace) {
    && t.created == |t.chain.forest.vertices| + t.chain.prunedNo && t.chain.committedNo == |t.log|
    && t.chain.highestCommitted == t.chain.forest.lowest
  }

  lemma AddKeepsIds(f: Forest, b: Block)
    ensures forall id :: id in f.vertices ==> id in AddVertex(f, b).vertices
  {
  }

  lemma AddCounts(f: Forest, b: Block)
    ensures |AddVertex(f, b).vertices| == |f.vertices| + |AddVertex(f, b).vertices.Keys - f.vertices.Keys|
  {
    AddKeepsIds(f, b);
    hide AddVertex;
    var g := AddVertex(f, b);
    assert g.vertices.Keys == f.vertices.Keys + (g.vertices.Keys - f.vertices.Keys);
    assert |g.vertices| == |g.vertices.Keys| && |f.vertices| == |f.vertices.Keys|;
  }

  lemma ApplyConserves(t: Trace, op: Op)
    requires Conserves(t) && LevelIndex(t.chain.forest) && Descending(t.chain.forest)
    requires op.Add? ==> AddVertex(t.chain.forest, op.b).lowest == t.chain.forest.lowest
    ensures Conserves(Apply(t, op))
  {
    hide AddVertex, LevelIndex, CommittedPath, PrunedNo, WalkDefined, Descending, CommitForked;
    if op.Add? {
      AddCounts(t.chain.forest, op.b);
    } else if CommitBlock(t.chain, op.id, op.view).Done? {
      PruneConserves(t.chain.forest, t.chain.forest.GetVertex(op.id).value.view);
    }
  }

  lemma {:induction false} Conservation(lev: Id -> nat, ops: seq<Op>)
    requires OpsFit(lev, ops)
    ensures Conserves(Run(lev, ops))
  {
    hide Good, Apply;
    if ops != [] {
      var t := Run(lev, ops[..|ops| - 1]);
      if ops[|ops| - 1].Add? { AddGood(t.chain.forest, lev, ops[|ops| - 1].b); }
      Conservation(lev, ops[..|ops| - 1]);
      GoodIndexes(t.chain.forest, lev);
      GoodDescends(t.chain.forest, lev);
      ApplyConserves(t, ops[|ops| - 1]);
    }
  }

  // Where the hypotheses are needed.

  lemma AddToEmpty(b: Block)
    requires b.view > 0 && b.ParentLevel() < b.view && b.prevId != b.id
    ensures AddVertex(EMPTY_FOREST, b) == Forest(
      map[b.id := Container(b.view, [], Some(b)), b.prevId := Container(b.ParentLevel(), [b.id], None)],
      map[b.view := [b.id], b.ParentLevel() := [b.prevId]], 0)
  {
    var r := AddVertex(EMPTY_FOREST, b);
    var none: seq<Id> := [];
    assert none + [b.id] == [b.id] && none + [b.prevId] == [b.prevId];
    assert r.vertices == map[b.id := Container(b.view, [], Some(b)), b.prevId := Container(b.ParentLevel(), [b.id], None)];
    assert r.levels == map[b.view := [b.id], b.ParentLevel() := [b.prevId]];
  }

  /** A stored block of view 2 on the initial certificate, and one of view 5 whose parent of view 4 is unknown. */
  const FIRST := Block(1, 2, 0, Some(QC(0, 0, 0, [], [])), 0)
  const ORPHAN := Block(3, 5, 2, Some(QC(4, 2, 0, [], [])), 0)

  // The forest after adding FIRST, after committing it, and after adding ORPHAN.
  const WITH_FIRST := Forest(map[1 := Container(2, [], Some(FIRST)), 0 := Container(0, [1], None)], map[2 := [1], 0 := [0]], 0)
  const FIRST_COMMITTED := Forest(map[1 := Container(2, [], Some(FIRST))], map[2 := [1]], 2)
  const WITH_ORPHAN := Forest(
    map[1 := Container(2, [], Some(FIRST)), 3 := Container(5, [], Some(ORPHAN)), 2 := Container(4, [3], None)],
    map[2 := [1], 5 := [3], 4 := [2]], 2)

  lemma FirstCommits(t: Trace)
    requires t.chain.forest == WITH_FIRST
    ensures Descending(t.chain.forest) && OnePerLevel(t.chain.forest)
    ensures Apply(t, Commit(1, 0)).chain.forest == FIRST_COMMITTED && FIRST in Apply(t, Commit(1, 0)).log
  {
    FirstLevels();
    FirstWalk();
    FirstPruned();
    hide Descending, OnePerLevel, WalkDefined, CommittedLevels, Forked, CommittedPath, Restrict, PrunedNo;
    assert WITH_FIRST.GetVertex(1) == Some(FIRST);
    assert Reverse([FIRST])[0] == FIRST;
  }

  lemma FirstLevels()
    ensures Descending(WITH_FIRST) && OnePerLevel(WITH_FIRST)
  {
  }

  lemma FirstWalk()
    requires Descending(WITH_FIRST)
    ensures WITH_FIRST.Has(FIRST) && WalkDefined(WITH_FIRST, 2) && CommittedPath(WITH_FIRST, FIRST) == [FIRST]
  {
    hide Descending;
    assert FirstFull(WITH_FIRST, 2) && WalkNext(WITH_FIRST, 2) == None;
  }

  lemma FirstPruned()
    ensures Restrict(WITH_FIRST, 2) == FIRST_COMMITTED
  {
    assert Restrict(WITH_FIRST, 2).vertices == FIRST_COMMITTED.vertices;
    assert Restrict(WITH_FIRST, 2).levels == FIRST_COMMITTED.levels;
  }

  lemma OrphanIsAdded(t: Trace)
    requires t.chain.forest == FIRST_COMMITTED
    ensures Descending(t.chain.forest) && Apply(t, Add(ORPHAN)).chain.forest == WITH_ORPHAN
    ensures Apply(t, Add(ORPHAN)).log == t.log
  {
    OrphanFilled();
    OrphanRegistered();
    hide Create, Fill, RegisterWithParent;
  }

  // The forest with ORPHAN stored but not yet registered with its parent.
  const ORPHAN_FILLED := Forest(
    map[1 := Container(2, [], Some(FIRST)), 3 := Container(5, [], Some(ORPHAN))], map[2 := [1], 5 := [3]], 2)

  lemma OrphanFilled()
    ensures var g := Create(FIRST_COMMITTED, 3, 5); !g.Full(3) && 3 in g.vertices && Fill(g, 3, ORPHAN) == ORPHAN_FILLED
  {
    var none: seq<Id> := [];
    assert none + [3] == [3];
    var g := Create(FIRST_COMMITTED, 3, 5);
    assert g.levels == ORPHAN_FILLED.levels;
    assert Fill(g, 3, ORPHAN).vertices == ORPHAN_FILLED.vertices;
  }

  lemma OrphanRegistered()
    ensures ORPHAN_FILLED.Full(3) && RegisterWithParent(ORPHAN_FILLED, 3) == WITH_ORPHAN
  {
    var none: seq<Id> := [];
    assert none + [3] == [3] && none + [2] == [2];
    var r := RegisterWithParent(ORPHAN_FILLED, 3);
    assert r.vertices == WITH_ORPHAN.vertices;
    assert r.levels == WITH_ORPHAN.levels;
  }

  lemma OrphanForksFirst(t: Trace)
    requires t.chain.forest == WITH_ORPHAN && FIRST in t.log
    ensures Descending(t.chain.forest) && OnePerLevel(t.chain.forest)
    ensures var t' := Apply(t, Commit(3, 0)); FIRST in t'.log && FIRST in t'.forked
  {
    OrphanLevels();
    OrphanWalk();
    OrphanForks();
    hide Descending, OnePerLevel, WalkDefined, CommittedLevels, Forked, CommittedPath, Restrict, PrunedNo;
    assert WITH_ORPHAN.GetVertex(3) == Some(ORPHAN);
  }

  lemma OrphanLevels()
    ensures Descending(WITH_ORPHAN) && OnePerLevel(WITH_ORPHAN)
  {
  }

  lemma OrphanWalk()
    requires Descending(WITH_ORPHAN)
    ensures WalkDefined(WITH_ORPHAN, 5) && CommittedLevels(WITH_ORPHAN, 5) == {}
  {
    hide Descending;
    assert FirstFull(WITH_ORPHAN, 5) && WalkNext(WITH_ORPHAN, 5) == None;
  }

  lemma OrphanForks()
    ensures FIRST in Forked(WITH_ORPHAN, {}, 2, 5)
  {
    var f := WITH_ORPHAN;
    assert BlocksOf(f, [1]) == [FIRST] by { assert [1][..0] == []; }
    assert f.AtLevel(2) == [1];
    hide BlocksOf;
    assert Forked(f, {}, 2, 2) == [];
    assert Forked(f, {}, 2, 3) == [FIRST];
    assert FIRST in Forked(f, {}, 2, 4);
  }

  lemma RunExtends(lev: Id -> nat, ops: seq<Op>, op: Op)
    requires OpsFit(lev, ops) && (op.Add? ==> Fits(lev, op.b))
    ensures OpsFit(lev, ops + [op])
    ensures Descending(Run(lev, ops).chain.forest) && Run(lev, ops + [op]) == Apply(Run(lev, ops), op)
    ensures AllUnique(lev, ops) && (op.Commit? ==> OnePerLevel(Run(lev, ops).chain.forest)) ==> AllUnique(lev, ops + [op])
  {
    assert (ops + [op])[..|ops|] == ops;
    GoodDescends(Run(lev, ops).chain.forest, lev);
  }

  /** Without joining commits a delivered block can be reported as forked later on, even with unique levels. */
  lemma DeliveredThenForked() returns (lev: Id -> nat, ops: seq<Op>, x: Block)
    ensures OpsFit(lev, ops) && AllUnique(lev, ops)
    ensures x in Run(lev, ops).log && x in Run(lev, ops).forked
  {
    lev, x := (id: Id) => if id == 1 then 2 else if id == 2 then 4 else if id == 3 then 5 else 0, FIRST;
    assert Fits(lev, FIRST) && Fits(lev, ORPHAN);
    hide Run, AllUnique, Apply, Descending, OnePerLevel, OpsFit, Fits;
    hide WITH_FIRST, FIRST_COMMITTED, WITH_ORPHAN, FIRST, ORPHAN;
    var start := DeliverFirst(lev);
    OrphanIsAdded(Run(lev, start));
    RunExtends(lev, start, Add(ORPHAN));
    var added := start + [Add(ORPHAN)];
    OrphanForksFirst(Run(lev, added));
    RunExtends(lev, added, Commit(3, 0));
    ops := added + [Commit(3, 0)];
  }

  lemma DeliverFirst(lev: Id -> nat) returns (ops: seq<Op>)
    requires Fits(lev, FIRST)
    ensures OpsFit(lev, ops) && AllUnique(lev, ops)
    ensures Run(lev, ops).chain.forest == FIRST_COMMITTED && FIRST in Run(lev, ops).log
  {
    StartsEmpty(lev);
    hide Run, AllUnique, Apply, Descending, OnePerLevel, OpsFit, Fits;
    hide WITH_FIRST, FIRST_COMMITTED, FIRST;
    AddsFirst(Run(lev, []));
    RunExtends(lev, [], Add(FIRST));
    var added := [] + [Add(FIRST)];
    FirstCommits(Run(lev, added));
    RunExtends(lev, added, Commit(1, 0));
    ops := added + [Commit(1, 0)];
  }

  lemma StartsEmpty(lev: Id -> nat)
    ensures OpsFit(lev, []) && Run(lev, []) == Trace(EMPTY_CHAIN, [], [], 0) && AllUnique(lev, [])
  {
  }

  lemma AddsFirst(t: Trace)
    requires t.chain == EMPTY_CHAIN
    ensures Descending(t.chain.forest) && Apply(t, Add(FIRST)).chain.forest == WITH_FIRST
  {
    AddToEmpty(FIRST);
  }

  /** Without unique levels a commit can dereference a placeholder: here id 8 was put at level 3 by its child
      before the block to commit arrived there. */
  lemma PlaceholderPanics()
    ensures var child := Block(9, 5, 8, Some(QC(3, 8, 0, [], [])), 0);
      var b := Block(1, 3, 0, Some(QC(0, 0, 0, [], [])), 0);
      var f := AddVertex(AddVertex(EMPTY_FOREST, child), b);
      Descending(f) && CommitBlock(EMPTY_CHAIN.(forest := f), 1, 0) == Panics
  {
    var child := Block(9, 5, 8, Some(QC(3, 8, 0, [], [])), 0);
    var b := Block(1, 3, 0, Some(QC(0, 0, 0, [], [])), 0);
    var f0 := AddVertex(EMPTY_FOREST, child);
    AddToEmpty(child);
    assert f0.vertices == map[9 := Container(5, [], Some(child)), 8 := Container(3, [9], None)];
    assert f0.levels == map[5 := [9], 3 := [8]];
    var f := AddVertex(f0, b);
    assert f.levels[3] == [8, 1] && !f.Full(8) && f.GetVertex(1) == Some(b);
    assert !FirstFull(f, 3);
  }
}
