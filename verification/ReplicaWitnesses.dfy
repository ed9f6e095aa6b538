/** Replicas that show where the handlers fall short of what one would expect of them. */
module ReplicaWitnesses {
  import opened Types
  import opened Forests
  import opened Chains
  import opened Commits
  import opened Collectors
  import opened QuorumSets
  import opened Pacemakers
  import opened Rules
  import opened Turns
  import opened ReplicaInvariants
  import opened Replicas

  /** The initial certificate, and the levels of two blocks of view 1 and one of view 2. */
  const INITIAL := QC(0, ZERO_ID, 0, [], [])
  const FIRST := Block(1, 1, ZERO_ID, Some(INITIAL), 9)
  const RIVAL := Block(3, 1, ZERO_ID, Some(INITIAL), 9)
  const SECOND := Block(2, 2, 1, Some(QC(1, 1, 9, [], [])), 9)

  function Level(id: Id): nat {
    if id == 1 || id == 3 then 1 else if id == 2 then 2 else 0
  }

  lemma EarlyAreOk()
    ensures BlockOk(Level, FIRST) && BlockOk(Level, RIVAL) && BlockOk(Level, SECOND)
  {
  }

  /** A certificate of view 1 or 0 takes no replica down. */
  lemma EarlyIsSafe(r: HotStuff, block: Block)
    requires block.qc.Some? && block.qc.value.view < 3
    ensures forall core, curView :: !r.Crashes(core, block, curView)
  {
    hide CommitRule, NextPreferred, CommitBlock;
  }

  /** A new replica that never leads. */
  method NewFollower() returns (r: HotStuff)
    ensures fresh(r) && r.Valid() && !r.crashed && r.State() == Core(EMPTY_CHAIN, 0, INITIAL)
    ensures r.self == 0 && (forall v :: r.leaderOf(v) == 9) && r.lev == Level && r.pm.curView == 0
    ensures r.bufferedBlocks == map[] && r.receivedBlock == map[] && r.bufferedQCs == map[] && r.receivedVMO == map[]
  {
    r := new HotStuff(0, 4, 1, v => 9, qc => true, vote => true, Level);
  }

  /** A follower that has queued SECOND while in view 1. */
  method QueuedSecond() returns (r: HotStuff)
    ensures fresh(r) && r.Valid() && !r.crashed && r.bc.forest == EMPTY_FOREST && r.pm.curView == 1
    ensures r.self == 0 && (forall v :: r.leaderOf(v) == 9) && r.lev == Level && 2 in r.seenBlocks
    ensures r.bufferedBlocks == map[1 := SECOND] && r.receivedBlock == map[] && r.bufferedQCs == map[] && r.receivedVMO == map[]
  {
    hide HotStuff.Valid, Advances, BlockOk, HotStuff.Processed, HotStuff.PassedBy, Digested, Stuck, Judged, HotStuff.Crashes, Level;
    EarlyAreOk();
    r := NewFollower();
    var fate := r.ProcessBlock(SECOND, 2);
    assert fate == Queued;
  }

  /** A block that arrives early is lost: the block of view 2 is queued while the replica is in view 1; processing the
      block of view 1 then deletes it, and it is in no buffer, not received and not stored. */
  method LosesSuccessor() returns (r: HotStuff, b: Block)
    ensures r.Valid() && !r.crashed && b.view in r.seenBlocks && r.pm.curView < b.view
    ensures forall k :: k in r.bufferedBlocks ==> r.bufferedBlocks[k] != b
    ensures forall k :: k in r.receivedBlock ==> r.receivedBlock[k] != b
    ensures !r.bc.forest.Full(b.id)
  {
    hide HotStuff.Valid, Advances, BlockOk, Digested, Stuck, HotStuff.QueuedOnly, Kept, HotStuff.VotedIn, Judged, HotStuff.Crashes;
    hide HotStuff.TurnOf, VotingRule, Level;
    EarlyAreOk();
    r := QueuedSecond();
    b := SECOND;
    EarlyIsSafe(r, FIRST);
    ghost var s := r.Now();
    var fate := r.ProcessBlock(FIRST, 2);
    AdvancesSees(s, r.Now(), r.lev);
  }

  /** A follower in view 1 that has voted for FIRST. */
  method VotedFirst() returns (r: HotStuff)
    ensures fresh(r) && r.Valid() && !r.crashed && r.pm.curView == 1 && r.Held(1)
    ensures r.self == 0 && (forall v :: r.leaderOf(v) == 9) && r.lev == Level
    ensures RIVAL.id !in r.bufferedQCs && r.receivedVMO == map[] && Cast(r.ballots, r.OwnVote(FIRST))
  {
    hide HotStuff.Valid, Advances, BlockOk, Cast, Digested, Stuck, HotStuff.QueuedOnly, Kept, StoresOnly, Judged, HotStuff.Crashes;
    hide HotStuff.TurnOf, VotingRule, Level;
    EarlyAreOk();
    r := NewFollower();
    EarlyIsSafe(r, FIRST);
    var fate := r.ProcessBlock(FIRST, 1);
  }

  /** The voting rule has no memory: a replica votes for two different blocks of one view. */
  method VotesTwice() returns (r: HotStuff, v: Vote, v': Vote)
    ensures r.Valid() && !r.crashed && Cast(r.ballots, v) && Cast(r.ballots, v')
    ensures v.voter == v'.voter == r.self && v.view == v'.view && v.blockId != v'.blockId
  {
    hide HotStuff.Valid, Advances, BlockOk, Cast, Digested, Stuck, HotStuff.QueuedOnly, Kept, StoresOnly, Judged, HotStuff.Crashes;
    hide HotStuff.TurnOf, VotingRule, Level;
    EarlyAreOk();
    r := VotedFirst();
    v, v' := r.OwnVote(FIRST), r.OwnVote(RIVAL);
    EarlyIsSafe(r, RIVAL);
    ghost var s := r.Now();
    var fate := r.ProcessBlock(RIVAL, 1);
    AdvancesRemembers(s, r.Now(), r.lev, 0, v, BroadcastBlock(FIRST));
  }

  // A replica that goes down.

  /** A child of view 5 puts its parent, id 8, at level 3; three blocks of views 3, 4 and 5 follow, and one that carries the
      certificate of the last. */
  const ORPHAN := Block(9, 5, 8, Some(QC(3, 8, 9, [], [])), 9)
  const BOTTOM := Block(1, 3, ZERO_ID, Some(INITIAL), 9)
  const MIDDLE := Block(2, 4, 1, Some(QC(3, 1, 9, [], [])), 9)
  const TOP := Block(3, 5, 2, Some(QC(4, 2, 9, [], [])), 9)
  const LAST := Block(4, 6, 3, Some(QC(5, 3, 9, [], [])), 9)

  function Depth(id: Id): nat {
    if id == 9 || id == 3 then 5 else if id == 8 || id == 1 then 3 else if id == 2 then 4 else if id == 4 then 6 else 0
  }

  lemma BlocksAreOk()
    ensures BlockOk(Depth, ORPHAN) && BlockOk(Depth, BOTTOM) && BlockOk(Depth, MIDDLE) && BlockOk(Depth, TOP) && BlockOk(Depth, LAST)
  {
  }

  /** The first container listed at a level stays the first. */
  lemma AddKeepsFirst(f: Forest, b: Block, l: nat)
    requires l in f.levels && f.levels[l] != []
    ensures var r := AddVertex(f, b); l in r.levels && r.levels[l] != [] && r.levels[l][0] == f.levels[l][0]
  {
  }

  lemma AddStores(f: Forest, b: Block)
    requires Levels(f, Depth) && Fits(Depth, b) && f.lowest == 0
    ensures Levels(AddVertex(f, b), Depth) && AddVertex(f, b).lowest == 0
    ensures forall x :: AddVertex(f, b).GetVertex(x) == if f.GetVertex(x).None? && x == b.id then Some(b) else f.GetVertex(x)
  {
    AddLevels(f, Depth, b);
    if !f.Full(b.id) { AddVertexAdds(f, Depth, b); }
  }

  /** The stored blocks, and the placeholder that comes first at level 3. */
  ghost predicate Holds(f: Forest, blocks: seq<Block>) {
    && Levels(f, Depth) && f.lowest == 0 && 3 in f.levels && f.levels[3] != [] && f.levels[3][0] == 8
    && (forall x :: x in blocks ==> f.GetVertex(x.id) == Some(x))
    && (forall id :: f.Full(id) ==> exists x :: x in blocks && x.id == id)
  }

  lemma OrphanFirst()
    ensures Holds(AddVertex(EMPTY_FOREST, ORPHAN), [ORPHAN])
  {
    var f := AddVertex(EMPTY_FOREST, ORPHAN);
    AddStores(EMPTY_FOREST, ORPHAN);
    var none: seq<Id> := [];
    assert none + [8] == [8];
    assert f.levels[3] == [8];
    assert ORPHAN in [ORPHAN];
  }

  lemma HoldsMore(f: Forest, blocks: seq<Block>, b: Block)
    requires Holds(f, blocks) && Fits(Depth, b) && f.GetVertex(b.id).None?
    ensures Holds(AddVertex(f, b), blocks + [b])
  {
    AddStores(f, b);
    AddKeepsFirst(f, b, 3);
    var r := AddVertex(f, b);
    hide AddVertex, Levels, Fits;
    forall id | r.Full(id) ensures exists x :: x in blocks + [b] && x.id == id {
      assert r.GetVertex(id).Some?;
      if f.GetVertex(id).Some? {
        assert f.Full(id);
        var x :| x in blocks && x.id == id;
        assert x in blocks + [b];
      } else {
        assert b in blocks + [b];
      }
    }
  }

  lemma NotStored(f: Forest, blocks: seq<Block>, id: Id)
    requires Holds(f, blocks) && forall x :: x in blocks ==> x.id != id
    ensures f.GetVertex(id).None?
  {
    assert f.Full(id) ==> exists x :: x in blocks && x.id == id;
  }

  /** Gives a replica with nothing else on its hands a block whose certificate commits nothing: it stores the block. */
  method Feed(r: HotStuff, block: Block)
    requires r.Valid() && !r.crashed && BlockOk(r.lev, block) && r.Rightful(block) && r.Alone(block) && r.bufferedBlocks == map[]
    requires r.pm.curView >= 1 && r.Held(10) && block.view <= 10
    requires block.qc.value.view < 3 || CommitRule(r.bc.forest, block.qc.value).None?
    modifies r
    ensures r.Valid() && !r.crashed && r.bc.forest == AddVertex(old(r.bc.forest), block)
    ensures r.pm == old(r.pm) && r.receivedVMO == old(r.receivedVMO) && r.bufferedBlocks == map[] && r.Held(10)
    ensures forall id :: id in r.bufferedQCs ==> id in old(r.bufferedQCs) || id == block.prevId
  {
    NoCrash(r, block, r.pm.curView);
    TraceIs(r);
    hide HotStuff.Valid, HotStuff.Alone, HotStuff.Held, HotStuff.Crashes, BlockOk, Traced, CommitRule, AddVertex;
    ghost var trace, p, learn := r.trace, r.Done(), if r.Carries(block) then [LearnQC(block.qc.value, r.pm.curView)] else [];
    var fate := Give(r, block);
    TraceIs(r);
    TurnStores(r.self, r.byzNo, r.lev, trace, p, block, learn, r.VotesOf(block, fate), r.Done());
  }

  /** Exactly the steps of the block's turn are taken. */
  method Give(r: HotStuff, block: Block) returns (fate: Fate)
    requires r.Valid() && !r.crashed && BlockOk(r.lev, block) && r.Alone(block) && r.bufferedBlocks == map[]
    requires r.pm.curView >= 1 && r.Held(10) && block.view <= 10 && !r.Crashes(r.State(), block, r.pm.curView)
    modifies r
    ensures r.Valid() && !r.crashed && r.trace == old(r.trace) + r.TurnOf(block, fate, r.pm.curView)
    ensures r.pm == old(r.pm) && r.receivedVMO == old(r.receivedVMO) && r.bufferedBlocks == map[] && r.Held(10)
    ensures forall id :: id in r.bufferedQCs ==> id in old(r.bufferedQCs) || id == block.prevId
  {
    hide HotStuff.Valid, HotStuff.Crashes, HotStuff.Processed, HotStuff.QueuedOnly, HotStuff.Left, HotStuff.TurnOf, HotStuff.Held;
    hide Advances, BlockOk, Digested, Stuck, Judged, StoresOnly, VotingRule;
    fate := r.ProcessBlock(block, 10);
  }

  /** A block whose certificate takes the replica down. */
  method Topple(r: HotStuff, block: Block)
    requires r.Valid() && !r.crashed && BlockOk(r.lev, block) && r.Alone(block)
    requires r.pm.curView >= 1 && r.Held(10) && block.view <= 10 && r.Crashes(r.State(), block, r.pm.curView)
    modifies r
    ensures r.crashed && Stuck(r.bc.forest, r.lev)
  {
    hide HotStuff.Valid, HotStuff.Crashes, HotStuff.Processed, HotStuff.PassedBy, HotStuff.QueuedOnly, HotStuff.Left, HotStuff.Held;
    hide Advances, BlockOk, Digested, Stuck, Judged;
    var _ := r.ProcessBlock(block, 10);
  }

  lemma TraceIs(r: HotStuff)
    requires r.Valid()
    ensures Traced(r.self, r.byzNo, r.lev, r.trace, r.Done())
  {
    hide Traced;
  }

  lemma NoCrash(r: HotStuff, block: Block, curView: View)
    requires r.Valid() && block.qc.Some? && (block.qc.value.view < 3 || CommitRule(r.bc.forest, block.qc.value).None?)
    ensures !r.Crashes(r.State(), block, curView)
  {
    hide CommitRule, NextPreferred, CommitBlock, Good, Traced;
  }

  /** A follower whose clock one timeout message has moved to view 11. */
  method TimedOut() returns (r: HotStuff)
    ensures fresh(r) && r.Valid() && !r.crashed && r.bc.forest == EMPTY_FOREST && r.pm.curView == 11 && r.Held(10)
    ensures r.self == 0 && (forall v :: r.leaderOf(v) == 9) && (forall qc :: r.verifyQC(qc)) && r.lev == Depth
    ensures r.bufferedBlocks == map[] && r.receivedVMO == map[] && forall id :: id in r.bufferedQCs ==> id == ZERO_ID
  {
    hide HotStuff.Valid, Advances, Digested, Stuck, AfterTmo, Traced;
    r := new HotStuff(0, 1, 1, v => 9, qc => true, vote => true, Depth);
    var tmo := TMO(10, 9, INITIAL);
    ClockMoves(tmo);
    TraceIs(r);
    AdvancesReflexive(r.Now(), r.lev);
    ghost var trace, p := r.trace, r.Done();
    r.ProcessRemoteTmo(tmo, r.Now());
    TraceIs(r);
    LearnsNothing(r.self, r.byzNo, r.lev, trace, p, LearnQC(INITIAL, 0), r.Done());
  }

  lemma ClockMoves(tmo: TMO)
    requires tmo.view == 10
    ensures AfterTmo(Clock(1, 0, [], map[], map[]), tmo).curView == 11
  {
    RecordKeys(map[], 10, tmo.nodeId, tmo);
  }

  lemma LearnsNothing(self: NodeId, byzNo: nat, lev: Id -> nat, trace: seq<Turns.Step>, p: Progress, step: Turns.Step, p': Progress)
    requires Traced(self, byzNo, lev, trace, p) && Traced(self, byzNo, lev, trace + [step], p') && step.LearnQC? && step.qc.view < 3
    ensures p'.core.chain.forest == p.core.chain.forest
  {
    hide Traced;
    assert [step] + [] == [step];
    var next := Peel(self, byzNo, lev, trace, p, step, [], p');
    assert trace + [step] + [] == trace + [step];
    SameTrace(self, byzNo, lev, trace + [step], next, p');
  }

  /** The certificate for TOP commits BOTTOM, and the prune walk from level 3 starts at the placeholder. */
  lemma LastStrands(f: Forest, blocks: seq<Block>)
    requires Holds(f, blocks) && blocks == [ORPHAN, BOTTOM, MIDDLE, TOP] && Descending(f)
    ensures CommitRule(f, LAST.qc.value) == Some(BOTTOM) && NextPreferred(f, 0, LAST.qc.value).Some? && !WalkDefined(f, 3)
  {
    assert BOTTOM in blocks && MIDDLE in blocks && TOP in blocks;
    NotStored(f, blocks, 8);
    hide Descending;
    assert !FirstFull(f, 3);
  }

  /** A replica that is down: five blocks, all in order, make its prune walk dereference a placeholder. */
  method GoesDown() returns (r: HotStuff)
    ensures r.crashed && Stuck(r.bc.forest, r.lev)
  {
    hide HotStuff.Valid, HotStuff.Crashes, HotStuff.Held, Holds, BlockOk, Stuck;
    BlocksAreOk();
    r := StoresFour();
    Strands4(r);
    Topple(r, LAST);
  }

  lemma Strands4(r: HotStuff)
    requires r.Valid() && r.lev == Depth && r.self == 0 && (forall qc :: r.verifyQC(qc)) && Holds(r.bc.forest, [ORPHAN, BOTTOM, MIDDLE, TOP])
    ensures r.Crashes(r.State(), LAST, r.pm.curView)
  {
    hide Good, Traced, Holds, CommitRule, NextPreferred, WalkDefined, Rules.ProcessCertificate, Rootless, Ordered;
    var core := r.State().(highQC := HigherQC(r.highQC, LAST.qc.value));
    RaisedHighQC(r.State(), r.lev, LAST.qc.value);
    LastStrands(r.bc.forest, [ORPHAN, BOTTOM, MIDDLE, TOP]);
    PreferredAnyway(r.bc.forest, r.preferredView, LAST.qc.value);
    CrashCondition(core, r.lev, LAST.qc.value, r.pm.curView);
  }

  lemma PreferredAnyway(f: Forest, lock: View, qc: QC)
    requires NextPreferred(f, 0, qc).Some?
    ensures NextPreferred(f, lock, qc).Some?
  {
  }

  /** A follower that stores ORPHAN, BOTTOM, MIDDLE and TOP, in this order. */
  method StoresFour() returns (r: HotStuff)
    ensures fresh(r) && r.Valid() && !r.crashed && r.self == 0 && (forall v :: r.leaderOf(v) == 9) && (forall qc :: r.verifyQC(qc))
    ensures r.lev == Depth && r.pm.curView == 11 && r.Held(10) && Holds(r.bc.forest, [ORPHAN, BOTTOM, MIDDLE, TOP])
    ensures r.bufferedBlocks == map[] && r.receivedVMO == map[] && LAST.id !in r.bufferedQCs
  {
    BlocksAreOk();
    CommitNothing();
    hide HotStuff.Valid, Holds, BlockOk, CommitRule, AddVertex;
    r := TimedOut();
    Feed(r, ORPHAN);
    Feed(r, BOTTOM);
    Feed(r, MIDDLE);
    Feed(r, TOP);
  }

  /** What is stored on the way, and that none of the certificates carried commits. */
  lemma CommitNothing()
    ensures var f0 := EMPTY_FOREST;
      var f1 := AddVertex(f0, ORPHAN);
      var f2 := AddVertex(f1, BOTTOM);
      var f3 := AddVertex(f2, MIDDLE);
      && CommitRule(f0, ORPHAN.qc.value).None? && CommitRule(f2, MIDDLE.qc.value).None? && CommitRule(f3, TOP.qc.value).None?
      && Holds(AddVertex(f3, TOP), [ORPHAN, BOTTOM, MIDDLE, TOP])
  {
    BlocksAreOk();
    OrphanFirst();
    var f1 := AddVertex(EMPTY_FOREST, ORPHAN);
    var f2, f3 := AddVertex(f1, BOTTOM), AddVertex(AddVertex(f1, BOTTOM), MIDDLE);
    hide AddVertex, Holds;
    NotStored(f1, [ORPHAN], 1);
    HoldsMore(f1, [ORPHAN], BOTTOM);
    assert [ORPHAN] + [BOTTOM] == [ORPHAN, BOTTOM];
    NotStored(f2, [ORPHAN, BOTTOM], 2);
    NotStored(f2, [ORPHAN, BOTTOM], ZERO_ID);
    StoredAs(f2, [ORPHAN, BOTTOM], BOTTOM);
    HoldsMore(f2, [ORPHAN, BOTTOM], MIDDLE);
    assert [ORPHAN, BOTTOM] + [MIDDLE] == [ORPHAN, BOTTOM, MIDDLE];
    NotStored(f3, [ORPHAN, BOTTOM, MIDDLE], 3);
    NotStored(f3, [ORPHAN, BOTTOM, MIDDLE], ZERO_ID);
    StoredAs(f3, [ORPHAN, BOTTOM, MIDDLE], BOTTOM);
    StoredAs(f3, [ORPHAN, BOTTOM, MIDDLE], MIDDLE);
    HoldsMore(f3, [ORPHAN, BOTTOM, MIDDLE], TOP);
    assert [ORPHAN, BOTTOM, MIDDLE] + [TOP] == [ORPHAN, BOTTOM, MIDDLE, TOP];
  }

  lemma StoredAs(f: Forest, blocks: seq<Block>, b: Block)
    requires Holds(f, blocks) && b in blocks
    ensures f.GetVertex(b.id) == Some(b)
  {
  }
}
