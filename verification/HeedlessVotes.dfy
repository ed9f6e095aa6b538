/**
 Why a vote has to heed the certificate its block carries. The source votes on when that certificate could only be
 buffered because an ancestor is missing; here such a vote makes two honest replicas deliver conflicting blocks.
 */
module HeedlessVotes {
  import opened Types
  import opened Forests
  import opened Commits
  import opened Chains
  import opened QuorumSets
  import opened Rules
  import opened Turns
  import opened Systems
  import P = Protocol
  import A = Agreement

  // The blocks: 3, 4, 5 in consecutive views on 1, and 6, 7, 8 in consecutive views on 1 as well. Ids are views.

  function Prev(id: Id): (p: Id)
    ensures id > 0 ==> p < id
  {
    if id == 3 || id == 6 then 1 else if id == 4 then 3 else if id == 5 then 4 else if id == 7 then 6 else if id == 8 then 7 else 0
  }

  function Cert(id: Id): QC {
    QC(id, id, 0, [], [])
  }

  function B(id: Id): Block {
    Block(id, id, Prev(id), Some(Cert(Prev(id))), 0)
  }

  function Lev(id: Id): nat {
    id
  }

  function Tree(id: Id): P.Chain {
    if id == 0 then P.Genesis else P.Node(Tree(Prev(id)), id, id)
  }

  lemma TreeIsIdeal()
    ensures Ideal(Tree, Lev)
  {
    forall id ensures Tree(id).View() == Lev(id) && (Tree(id).Node? ==> P.Rising(Tree(id))) {
      assert id > 0 ==> Tree(Prev(id)).View() == Prev(id);
    }
  }

  /** One of four replicas is faulty, votes are remembered, certificates need not be heeded. */
  const CONFIG := P.Config(4, 1, {3}, true, false)

  /** A replica that has committed nothing, stores exactly these blocks, and has this lock and last vote. */
  ghost predicate Holds(p: Progress, ids: set<Id>, lock: View, last: View) {
    && CoreOk(p.core, Lev) && p.core.chain.forest.lowest == 0
    && (forall id :: p.core.chain.forest.GetVertex(id) == if id in ids then Some(B(id)) else None)
    && p.core.preferredView == lock && LastVoted(p.ballots) == last
  }

  lemma BlockIsOk(id: Id)
    requires id > 0
    ensures BlockOk(Lev, B(id)) && Fits(Lev, B(id)) && Genuine(Tree, B(id)) && QCOk(Lev, Cert(id))
  {
  }

  lemma StartHolds()
    ensures Holds(START, {}, 0, 0)
  {
    StartIsOk(Lev);
  }

  lemma HoldsDescends(p: Progress, ids: set<Id>, lock: View, last: View)
    requires Holds(p, ids, lock, last)
    ensures Descending(p.core.chain.forest) && CoreOk(p.core, Lev)
  {
  }

  lemma LastOf(p: Progress, ids: set<Id>, lock: View, last: View)
    requires Holds(p, ids, lock, last)
    ensures LastVoted(p.ballots) == last
  {
  }

  // Elementary steps.

  lemma PutHolds(r: nat, p: Progress, ids: set<Id>, lock: View, last: View, id: Id)
    requires Holds(p, ids, lock, last) && id > 0 && Descending(p.core.chain.forest)
    ensures Perform(r, 1, p, PutBlock(B(id))).Some? && Holds(Perform(r, 1, p, PutBlock(B(id))).value, ids + {id}, lock, last)
  {
    hide CoreOk, AddVertex, BlockOk, Fits, Descending, Genuine;
    BlockIsOk(id);
    PerformKeeps(r, 1, Lev, p, PutBlock(B(id)));
    LevelsOf(p.core, Lev);
    AddLevels(p.core.chain.forest, Lev, B(id));
    StoredAfter(p.core.chain.forest, B(id));
  }

  lemma StoredAfter(f: Forest, b: Block)
    requires Levels(f, Lev) && Fits(Lev, b) && f.lowest == 0
    ensures forall x ::
      AddVertex(f, b).GetVertex(x) == if f.GetVertex(x).Some? then f.GetVertex(x) else if x == b.id then Some(b) else None
  {
    if !f.Full(b.id) { AddVertexAdds(f, Lev, b); }
  }

  lemma VoteHolds(r: nat, p: Progress, ids: set<Id>, lock: View, last: View, id: Id)
    requires Holds(p, ids, lock, last) && id > 0 && Descending(p.core.chain.forest)
    requires id in ids && (id > 2 ==> Prev(id) in ids && Prev(id) >= lock)
    ensures Perform(r, 1, p, VoteFor(B(id))).Some? && Holds(Perform(r, 1, p, VoteFor(B(id))).value, ids, lock, id)
  {
    hide CoreOk, Descending;
    var f := p.core.chain.forest;
    assert f.GetVertex(id) == Some(B(id)) && (id > 2 ==> f.GetVertex(Prev(id)) == Some(B(Prev(id))));
    var ballots := p.ballots + [BallotFor(r, p.core, B(id))];
    assert LastVoted(ballots) == id;
  }

  /** What a certificate does to the lock: nothing if the block or its parent is missing. */
  function LockAfter(ids: set<Id>, lock: View, id: Id): View {
    if id > 2 && id in ids && Prev(id) in ids && Prev(id) > lock then Prev(id) else lock
  }

  /** The certificate ends three consecutive views of stored blocks. */
  predicate Fires(ids: set<Id>, id: Id) {
    id >= 3 && id in ids && Prev(id) in ids && Prev(Prev(id)) in ids && Prev(Prev(id)) + 1 == Prev(id) && Prev(id) + 1 == id
  }

  lemma RulesOf(p: Progress, ids: set<Id>, lock: View, last: View, id: Id)
    requires Holds(p, ids, lock, last) && 0 !in ids
    ensures var f := p.core.chain.forest;
      && (NextPreferred(f, lock, Cert(id)).Some? ==> NextPreferred(f, lock, Cert(id)).value == LockAfter(ids, lock, id))
      && (NextPreferred(f, lock, Cert(id)).None? ==> lock == LockAfter(ids, lock, id))
      && (id >= 3 ==> (CommitRule(f, Cert(id)).Some? <==> Fires(ids, id)))
      && (Fires(ids, id) ==> NextPreferred(f, lock, Cert(id)).Some? && CommitRule(f, Cert(id)) == Some(B(Prev(Prev(id)))))
  {
    hide CoreOk;
    var f := p.core.chain.forest;
    assert f.GetVertex(id) == if id in ids then Some(B(id)) else None;
    assert f.GetVertex(Prev(id)) == if Prev(id) in ids then Some(B(Prev(id))) else None;
    assert f.GetVertex(Prev(Prev(id))) == if Prev(Prev(id)) in ids then Some(B(Prev(Prev(id)))) else None;
  }

  lemma LearnHolds(r: nat, p: Progress, ids: set<Id>, lock: View, last: View, id: Id)
    requires Holds(p, ids, lock, last) && 0 !in ids && Descending(p.core.chain.forest) && !Fires(ids, id)
    ensures Perform(r, 1, p, LearnQC(Cert(id), 0)).Some?
    ensures Holds(Perform(r, 1, p, LearnQC(Cert(id), 0)).value, ids, LockAfter(ids, lock, id), last)
  {
    hide CoreOk, Descending, CommitRule, NextPreferred;
    RulesOf(p, ids, lock, last, id);
    PerformKeeps2(r, p, id);
  }

  lemma PerformKeeps2(r: nat, p: Progress, id: Id)
    requires CoreOk(p.core, Lev) && Descending(p.core.chain.forest) && Perform(r, 1, p, LearnQC(Cert(id), 0)).Some?
    ensures CoreOk(Perform(r, 1, p, LearnQC(Cert(id), 0)).value.core, Lev)
  {
    hide CoreOk, ProcessCertificate, Descending;
    PerformKeeps(r, 1, Lev, p, LearnQC(Cert(id), 0));
  }

  /** With ids as levels no level lists two ids, so a commit goes through and delivers its block. */
  lemma LearnDelivers(r: nat, p: Progress, ids: set<Id>, lock: View, last: View, id: Id)
    requires Holds(p, ids, lock, last) && 0 !in ids && Descending(p.core.chain.forest) && Fires(ids, id)
    ensures var next := Perform(r, 1, p, LearnQC(Cert(id), 0)); next.Some? && Delivered(next.value, B(Prev(Prev(id))))
  {
    hide CoreOk, Descending, CommitRule, NextPreferred, CommitBlock, WalkDefined;
    var f, g := p.core.chain.forest, B(Prev(Prev(id)));
    RulesOf(p, ids, lock, last, id);
    assert f.GetVertex(g.id) == Some(g);
    LevelsOf(p.core, Lev);
    LevelsAreIds(f);
    WalkMarksAncestors(f, Lev, g);
    CommitsNow(p.core.chain, g);
    CommittedPathMeaning(f, g);
    var next := Perform(r, 1, p, LearnQC(Cert(id), 0)).value;
    assert next.committed == Sent(p.committed, CommittedPath(f, g));
    assert g in next.committed[|next.committed| - 1];
  }

  lemma CommitsNow(s: ChainState, g: Block)
    requires Descending(s.forest) && s.forest.Has(g) && WalkDefined(s.forest, g.view) && s.forest.lowest == 0
    ensures CommitBlock(s, g.id, 0).Done? && CommitBlock(s, g.id, 0).committed == CommittedPath(s.forest, g)
  {
  }

  lemma OneValue(s: seq<Id>, x: Id)
    requires Distinct(s) && forall i :: 0 <= i < |s| ==> s[i] == x
    ensures |s| <= 1
  {
    DistinctCount(s);
    SubsetSize(Elements(s), {x});
  }

  lemma LevelsAreIds(f: Forest)
    requires LevelIndex(f) && Levels(f, Lev)
    ensures OnePerLevel(f)
  {
    forall l | l in f.levels ensures |f.levels[l]| <= 1 {
      forall i | 0 <= i < |f.levels[l]| ensures f.levels[l][i] == l {}
      OneValue(f.levels[l], l);
    }
  }

  // Acts of the system.

  /** A run and the state it ends in. */
  ghost predicate Ends(acts: seq<Act>, sys: System) {
    Systems.Run(CONFIG, Lev, Tree, acts) == Some(sys)
  }

  ghost predicate At(sys: System, r: nat, ids: set<Id>, lock: View, last: View) {
    r in sys.replicas && Holds(sys.replicas[r], ids, lock, last)
  }

  lemma ActEnds(acts: seq<Act>, sys: System, act: Act)
    requires Ends(acts, sys) && Allowed(CONFIG, Lev, Tree, sys, act)
    ensures Ends(acts + [act], Next(CONFIG, Lev, Tree, sys, act))
  {
    hide Allowed, Next;
    assert (acts + [act])[..|acts|] == acts;
  }

  /** Replica r learns the certificate a block carries, stores the block and votes for it. */
  lemma Turn(acts: seq<Act>, sys: System, r: nat, ids: set<Id>, lock: View, last: View, id: Id)
    returns (acts': seq<Act>, sys': System)
    requires Ends(acts, sys) && r < 3 && At(sys, r, ids, lock, last) && 0 !in ids && id > last
    requires Certifiable(CONFIG, Lev, sys, Prev(id)) && !Fires(ids, Prev(id))
    requires id > 2 ==> Prev(id) in ids && Prev(id) >= LockAfter(ids, lock, Prev(id))
    ensures Ends(acts', sys') && At(sys', r, ids + {id}, LockAfter(ids, lock, Prev(id)), id)
    ensures sys'.votes == sys.votes[id := VotersOf(sys, id) + {r}]
    ensures sys'.replicas.Keys == sys.replicas.Keys && forall x :: x in sys.replicas && x != r ==> sys'.replicas[x] == sys.replicas[x]
  {
    hide Ends, Holds, BlockOk, Genuine, Descending, CoreOk, Perform, LockAfter, Fires;
    var learned, stored;
    acts', learned := Learns(acts, sys, r, ids, lock, last, Prev(id));
    acts', stored := Stores(acts', learned, r, ids, LockAfter(ids, lock, Prev(id)), last, id);
    acts', sys' := Votes(acts', stored, r, ids + {id}, LockAfter(ids, lock, Prev(id)), last, id);
  }

  lemma Learns(acts: seq<Act>, sys: System, r: nat, ids: set<Id>, lock: View, last: View, id: Id)
    returns (acts': seq<Act>, sys': System)
    requires Ends(acts, sys) && r < 3 && At(sys, r, ids, lock, last) && 0 !in ids
    requires Certifiable(CONFIG, Lev, sys, id) && !Fires(ids, id)
    ensures Ends(acts', sys') && At(sys', r, ids, LockAfter(ids, lock, id), last) && sys'.votes == sys.votes
    ensures sys'.replicas.Keys == sys.replicas.Keys && forall x :: x in sys.replicas && x != r ==> sys'.replicas[x] == sys.replicas[x]
  {
    hide Ends, Holds, Descending, CoreOk, Perform, LockAfter, Fires;
    var act := Local(r, LearnQC(Cert(id), 0));
    HoldsDescends(sys.replicas[r], ids, lock, last);
    LearnHolds(r, sys.replicas[r], ids, lock, last, id);
    acts' := acts + [act];
    sys' := Next(CONFIG, Lev, Tree, sys, act);
    ActEnds(acts, sys, act);
  }

  lemma Stores(acts: seq<Act>, sys: System, r: nat, ids: set<Id>, lock: View, last: View, id: Id)
    returns (acts': seq<Act>, sys': System)
    requires Ends(acts, sys) && r < 3 && At(sys, r, ids, lock, last) && id > 0
    ensures Ends(acts', sys') && At(sys', r, ids + {id}, lock, last) && sys'.votes == sys.votes
    ensures sys'.replicas.Keys == sys.replicas.Keys && forall x :: x in sys.replicas && x != r ==> sys'.replicas[x] == sys.replicas[x]
  {
    hide Ends, Holds, Descending, CoreOk, Perform, BlockOk, Genuine;
    var act := Local(r, PutBlock(B(id)));
    BlockIsOk(id);
    HoldsDescends(sys.replicas[r], ids, lock, last);
    PutHolds(r, sys.replicas[r], ids, lock, last, id);
    acts' := acts + [act];
    sys' := Next(CONFIG, Lev, Tree, sys, act);
    ActEnds(acts, sys, act);
  }

  lemma Votes(acts: seq<Act>, sys: System, r: nat, ids: set<Id>, lock: View, last: View, id: Id)
    returns (acts': seq<Act>, sys': System)
    requires Ends(acts, sys) && r < 3 && At(sys, r, ids, lock, last) && id > last && id in ids
    requires Certifiable(CONFIG, Lev, sys, Prev(id)) && (id > 2 ==> Prev(id) in ids && Prev(id) >= lock)
    ensures Ends(acts', sys') && At(sys', r, ids, lock, id) && sys'.votes == sys.votes[id := VotersOf(sys, id) + {r}]
    ensures sys'.replicas.Keys == sys.replicas.Keys && forall x :: x in sys.replicas && x != r ==> sys'.replicas[x] == sys.replicas[x]
  {
    hide Ends, Holds, Descending, CoreOk, Perform, BlockOk, Genuine, LastVoted, Certifiable;
    var act := Local(r, VoteFor(B(id)));
    BlockIsOk(id);
    LastOf(sys.replicas[r], ids, lock, last);
    HoldsDescends(sys.replicas[r], ids, lock, last);
    VoteHolds(r, sys.replicas[r], ids, lock, last, id);
    acts' := acts + [act];
    sys' := Next(CONFIG, Lev, Tree, sys, act);
    ActEnds(acts, sys, act);
  }

  lemma Forges(acts: seq<Act>, sys: System, id: Id) returns (acts': seq<Act>, sys': System)
    requires Ends(acts, sys)
    ensures Ends(acts', sys') && sys'.replicas == sys.replicas && sys'.votes == sys.votes[id := VotersOf(sys, id) + {3}]
  {
    hide Ends;
    acts' := acts + [Forge(3, id)];
    sys' := Next(CONFIG, Lev, Tree, sys, Forge(3, id));
    ActEnds(acts, sys, Forge(3, id));
  }

  // The run.

  /** What a replica stores, its lock and its last vote. */
  datatype Place = Place(ids: set<Id>, lock: View, last: View)

  function Moved(p: Place, id: Id): Place {
    Place(p.ids + {id}, LockAfter(p.ids, p.lock, Prev(id)), id)
  }

  /** Where the three honest replicas are, and which blocks are certified. */
  ghost predicate Stage(acts: seq<Act>, sys: System, places: seq<Place>, certified: set<Id>) {
    && |places| == 3 && Ends(acts, sys)
    && (forall r :: 0 <= r < 3 ==> At(sys, r, places[r].ids, places[r].lock, places[r].last))
    && (forall id :: id in certified ==> |VotersOf(sys, id)| >= 3)
  }

  lemma StageAt(acts: seq<Act>, sys: System, places: seq<Place>, certified: set<Id>, r: nat)
    requires Stage(acts, sys, places, certified) && r < 3
    ensures At(sys, r, places[r].ids, places[r].lock, places[r].last)
  {
  }

  predicate MayVote(p: Place, certified: set<Id>, id: Id) {
    && 0 !in p.ids && id > p.last && !Fires(p.ids, Prev(id)) && (Prev(id) == 0 || Prev(id) in certified)
    && (id > 2 ==> Prev(id) in p.ids && Prev(id) >= LockAfter(p.ids, p.lock, Prev(id)))
  }

  /** Nobody's votes are lost. */
  ghost predicate Keeps(sys: System, sys': System) {
    forall id :: VotersOf(sys, id) <= VotersOf(sys', id)
  }

  lemma KeepsCertified(sys: System, sys': System, id: Id)
    requires Keeps(sys, sys') && |VotersOf(sys, id)| >= 3
    ensures |VotersOf(sys', id)| >= 3
  {
    SubsetSize(VotersOf(sys, id), VotersOf(sys', id));
  }

  lemma StageTurn(acts: seq<Act>, sys: System, places: seq<Place>, certified: set<Id>, r: nat, id: Id)
    returns (acts': seq<Act>, sys': System)
    requires Stage(acts, sys, places, certified) && r < 3 && MayVote(places[r], certified, id)
    ensures Stage(acts', sys', places[r := Moved(places[r], id)], certified) && Keeps(sys, sys') && r in VotersOf(sys', id)
  {
    hide Ends, Holds, LockAfter, Fires;
    var p := places[r];
    acts', sys' := Turn(acts, sys, r, p.ids, p.lock, p.last, id);
    forall x ensures VotersOf(sys, x) <= VotersOf(sys', x) {}
    forall x | x in certified ensures |VotersOf(sys', x)| >= 3 { KeepsCertified(sys, sys', x); }
  }

  lemma StageForge(acts: seq<Act>, sys: System, places: seq<Place>, certified: set<Id>, id: Id)
    returns (acts': seq<Act>, sys': System)
    requires Stage(acts, sys, places, certified)
    ensures Stage(acts', sys', places, certified) && Keeps(sys, sys') && 3 in VotersOf(sys', id)
  {
    hide Ends, Holds;
    acts', sys' := Forges(acts, sys, id);
    forall x ensures VotersOf(sys, x) <= VotersOf(sys', x) {}
    forall x | x in certified ensures |VotersOf(sys', x)| >= 3 { KeepsCertified(sys, sys', x); }
  }

  lemma ThreeVoters(sys: System, r: nat, r': nat, r'': nat, id: Id)
    requires r in VotersOf(sys, id) && r' in VotersOf(sys, id) && r'' in VotersOf(sys, id) && r != r' && r != r'' && r' != r''
    ensures |VotersOf(sys, id)| >= 3
  {
    SubsetSize({r, r', r''}, VotersOf(sys, id));
  }

  lemma StageGrows(acts: seq<Act>, sys: System, places: seq<Place>, certified: set<Id>, id: Id)
    requires Stage(acts, sys, places, certified) && |VotersOf(sys, id)| >= 3
    ensures Stage(acts, sys, places, certified + {id})
  {
    hide Ends, Holds, VotersOf;
  }

  /** Two honest replicas and the faulty one certify a block. */
  lemma Round(acts: seq<Act>, sys: System, places: seq<Place>, certified: set<Id>, r: nat, r': nat, id: Id)
    returns (acts': seq<Act>, sys': System)
    requires Stage(acts, sys, places, certified) && r < r' < 3 && MayVote(places[r], certified, id) && MayVote(places[r'], certified, id)
    ensures Stage(acts', sys', places[r := Moved(places[r], id)][r' := Moved(places[r'], id)], certified + {id})
  {
    assert |places| == 3;
    hide Stage, MayVote, Moved, VotersOf;
    var sys1, sys2;
    acts', sys1 := StageTurn(acts, sys, places, certified, r, id);
    var places1 := places[r := Moved(places[r], id)];
    acts', sys2 := StageTurn(acts', sys1, places1, certified, r', id);
    var places2 := places1[r' := Moved(places[r'], id)];
    acts', sys' := StageForge(acts', sys2, places2, certified, id);
    ThreeVoters(sys', r, r', 3, id);
    StageGrows(acts', sys', places2, certified, id);
  }

  // Where the replicas pass through.

  const BLANK := Place({}, 0, 0)
  const AT_1 := Place({1}, 0, 1)
  const AT_3 := Place({1, 3}, 0, 3)
  const AT_4 := Place({1, 3, 4}, 1, 4)
  const AT_5 := Place({1, 3, 4, 5}, 3, 5)
  const AT_6 := Place({1, 3, 4, 6}, 1, 6)
  const AT_7 := Place({1, 3, 4, 6, 7}, 1, 7)
  const AT_8 := Place({1, 3, 4, 6, 7, 8}, 6, 8)

  /** Replica 2, which never receives block 3. */
  const GAP_4 := Place({1, 4}, 0, 1)
  const GAP_5 := Place({1, 4, 5}, 0, 5)
  const GAP_6 := Place({1, 4, 5, 6}, 0, 6)
  const GAP_7 := Place({1, 4, 5, 6, 7}, 1, 7)
  const GAP_8 := Place({1, 4, 5, 6, 7, 8}, 6, 8)

  lemma LeftMoves()
    ensures Moved(BLANK, 1) == AT_1 && Moved(AT_1, 3) == AT_3 && Moved(AT_3, 4) == AT_4 && Moved(AT_4, 5) == AT_5
    ensures MayVote(BLANK, {}, 1) && MayVote(AT_1, {1}, 3) && MayVote(AT_3, {1, 3}, 4) && MayVote(AT_4, {1, 3, 4}, 5)
    ensures Moved(GAP_4, 5) == GAP_5 && MayVote(GAP_4, {1, 3, 4}, 5)
  {
  }

  lemma RightMoves()
    ensures Moved(AT_4, 6) == AT_6 && Moved(AT_6, 7) == AT_7 && Moved(AT_7, 8) == AT_8
    ensures Moved(GAP_5, 6) == GAP_6 && Moved(GAP_6, 7) == GAP_7 && Moved(GAP_7, 8) == GAP_8
    ensures MayVote(AT_4, {1, 3, 4, 5}, 6) && MayVote(AT_6, {1, 3, 4, 5, 6}, 7) && MayVote(AT_7, {1, 3, 4, 5, 6, 7}, 8)
    ensures MayVote(GAP_5, {1, 3, 4, 5}, 6) && MayVote(GAP_6, {1, 3, 4, 5, 6}, 7) && MayVote(GAP_7, {1, 3, 4, 5, 6, 7}, 8)
  {
  }

  lemma Beginning()
    ensures Stage([], Systems.Init(CONFIG), [BLANK, BLANK, BLANK], {})
  {
    StartHolds();
    hide Holds, START;
    var sys := Systems.Init(CONFIG);
    forall r | 0 <= r < 3 ensures At(sys, r, {}, 0, 0) {}
  }

  lemma Opening() returns (acts: seq<Act>, sys: System)
    ensures Stage(acts, sys, [AT_1, AT_1, AT_1], {1})
  {
    LeftMoves();
    hide Moved, MayVote, Stage, BLANK, AT_1, VotersOf;
    Beginning();
    acts, sys := [], Systems.Init(CONFIG);
    var sys1, sys2;
    acts, sys1 := StageTurn(acts, sys, [BLANK, BLANK, BLANK], {}, 0, 1);
    assert [BLANK, BLANK, BLANK][0 := AT_1] == [AT_1, BLANK, BLANK];
    acts, sys2 := StageTurn(acts, sys1, [AT_1, BLANK, BLANK], {}, 1, 1);
    assert [AT_1, BLANK, BLANK][1 := AT_1] == [AT_1, AT_1, BLANK];
    acts, sys := StageTurn(acts, sys2, [AT_1, AT_1, BLANK], {}, 2, 1);
    assert [AT_1, AT_1, BLANK][2 := AT_1] == [AT_1, AT_1, AT_1];
    ThreeVoters(sys, 0, 1, 2, 1);
    StageGrows(acts, sys, [AT_1, AT_1, AT_1], {}, 1);
    assert {} + {1} == {1};
  }

  /** Replicas 0 and 1 and the faulty one certify blocks 3 and 4. */
  lemma LeftBranch() returns (acts: seq<Act>, sys: System)
    ensures Stage(acts, sys, [AT_4, AT_4, AT_1], {1, 3, 4})
  {
    LeftMoves();
    hide Stage, Moved, MayVote, AT_1, AT_3, AT_4;
    acts, sys := Opening();
    acts, sys := Round(acts, sys, [AT_1, AT_1, AT_1], {1}, 0, 1, 3);
    assert [AT_1, AT_1, AT_1][0 := AT_3][1 := AT_3] == [AT_3, AT_3, AT_1] && {1} + {3} == {1, 3};
    acts, sys := Round(acts, sys, [AT_3, AT_3, AT_1], {1, 3}, 0, 1, 4);
    assert [AT_3, AT_3, AT_1][0 := AT_4][1 := AT_4] == [AT_4, AT_4, AT_1] && {1, 3} + {4} == {1, 3, 4};
  }

  /** Replica 2 stores block 4 without its parent. */
  lemma StoresGap(acts: seq<Act>, sys: System) returns (acts': seq<Act>, sys': System)
    requires Stage(acts, sys, [AT_4, AT_4, AT_1], {1, 3, 4})
    ensures Stage(acts', sys', [AT_4, AT_4, GAP_4], {1, 3, 4})
  {
    hide Ends, Holds;
    var places, places' := [AT_4, AT_4, AT_1], [AT_4, AT_4, GAP_4];
    forall r | 0 <= r < 3 ensures At(sys, r, places[r].ids, places[r].lock, places[r].last) {
      StageAt(acts, sys, places, {1, 3, 4}, r);
    }
    assert places[2] == AT_1;
    acts', sys' := Stores(acts, sys, 2, {1}, 0, 1, 4);
    assert {1} + {4} == {1, 4};
    forall id ensures VotersOf(sys', id) == VotersOf(sys, id) {}
    forall r | 0 <= r < 3 ensures At(sys', r, places'[r].ids, places'[r].lock, places'[r].last) {
      assert r < 2 ==> At(sys, r, places[r].ids, places[r].lock, places[r].last) && places'[r] == places[r];
    }
  }

  /** It cannot lock on the certificate of block 4, and votes for block 5 all the same. */
  lemma HeedlessVote() returns (acts: seq<Act>, sys: System)
    ensures Stage(acts, sys, [AT_5, AT_4, GAP_5], {1, 3, 4, 5})
  {
    LeftMoves();
    hide Stage, Moved, MayVote, AT_1, AT_4, AT_5, GAP_4, GAP_5;
    acts, sys := LeftBranch();
    acts, sys := StoresGap(acts, sys);
    acts, sys := Round(acts, sys, [AT_4, AT_4, GAP_4], {1, 3, 4}, 0, 2, 5);
    assert [AT_4, AT_4, GAP_4][0 := AT_5][2 := GAP_5] == [AT_5, AT_4, GAP_5] && {1, 3, 4} + {5} == {1, 3, 4, 5};
  }

  /** Then both three-chains get certified: 3, 4, 5 and 6, 7, 8. */
  lemma BothBranches() returns (acts: seq<Act>, sys: System)
    ensures Stage(acts, sys, [AT_5, AT_8, GAP_8], {1, 3, 4, 5, 6, 7, 8})
  {
    RightMoves();
    hide Stage, Moved, MayVote, AT_4, AT_5, AT_6, AT_7, AT_8, GAP_5, GAP_6, GAP_7, GAP_8;
    acts, sys := HeedlessVote();
    acts, sys := Round(acts, sys, [AT_5, AT_4, GAP_5], {1, 3, 4, 5}, 1, 2, 6);
    assert [AT_5, AT_4, GAP_5][1 := AT_6][2 := GAP_6] == [AT_5, AT_6, GAP_6] && {1, 3, 4, 5} + {6} == {1, 3, 4, 5, 6};
    acts, sys := Round(acts, sys, [AT_5, AT_6, GAP_6], {1, 3, 4, 5, 6}, 1, 2, 7);
    assert [AT_5, AT_6, GAP_6][1 := AT_7][2 := GAP_7] == [AT_5, AT_7, GAP_7] && {1, 3, 4, 5, 6} + {7} == {1, 3, 4, 5, 6, 7};
    acts, sys := Round(acts, sys, [AT_5, AT_7, GAP_7], {1, 3, 4, 5, 6, 7}, 1, 2, 8);
    assert [AT_5, AT_7, GAP_7][1 := AT_8][2 := GAP_8] == [AT_5, AT_8, GAP_8] && {1, 3, 4, 5, 6, 7} + {8} == {1, 3, 4, 5, 6, 7, 8};
  }

  lemma Delivers(acts: seq<Act>, sys: System, r: nat, p: Place, id: Id) returns (acts': seq<Act>, sys': System)
    requires Ends(acts, sys) && r < 3 && At(sys, r, p.ids, p.lock, p.last) && 0 !in p.ids
    requires |VotersOf(sys, id)| >= 3 && Fires(p.ids, id)
    ensures Ends(acts', sys') && sys'.votes == sys.votes && r in sys'.replicas && Delivered(sys'.replicas[r], B(Prev(Prev(id))))
    ensures forall x :: x in sys.replicas && x != r ==> x in sys'.replicas && sys'.replicas[x] == sys.replicas[x]
  {
    hide Ends, Holds, Descending, CoreOk, Perform, Fires, Delivered, VotersOf;
    var act := Local(r, LearnQC(Cert(id), 0));
    HoldsDescends(sys.replicas[r], p.ids, p.lock, p.last);
    LearnDelivers(r, sys.replicas[r], p.ids, p.lock, p.last, id);
    acts' := acts + [act];
    sys' := Next(CONFIG, Lev, Tree, sys, act);
    ActEnds(acts, sys, act);
  }

  /** Replica 0 commits the one, replica 1 the other. */
  lemma BothDeliver() returns (acts: seq<Act>, sys: System)
    ensures Ends(acts, sys) && 0 in sys.replicas && 1 in sys.replicas
    ensures Delivered(sys.replicas[0], B(3)) && Delivered(sys.replicas[1], B(6))
  {
    var s0, s1;
    acts, s0 := BothBranches();
    hide Ends, Holds, Delivered, B;
    StageAt(acts, s0, [AT_5, AT_8, GAP_8], {1, 3, 4, 5, 6, 7, 8}, 0);
    StageAt(acts, s0, [AT_5, AT_8, GAP_8], {1, 3, 4, 5, 6, 7, 8}, 1);
    acts, s1 := Delivers(acts, s0, 0, AT_5, 5);
    assert VotersOf(s1, 8) == VotersOf(s0, 8);
    acts, sys := Delivers(acts, s1, 1, AT_8, 8);
  }

  /** Heeding is needed: with everything else in place, and one of four replicas faulty, a run in which a single vote is
      cast on a certificate that was only buffered makes two honest replicas deliver blocks on different branches. */
  lemma DisagreementWithoutHeed() returns (acts: seq<Act>, sys: System, x: Block, y: Block)
    ensures Ideal(Tree, Lev) && P.ValidConfig(CONFIG.(heeds := true)) && Systems.Run(CONFIG, Lev, Tree, acts) == Some(sys)
    ensures 0 in sys.replicas && 1 in sys.replicas && Delivered(sys.replicas[0], x) && Delivered(sys.replicas[1], y)
    ensures !A.Descends(Tree(x.id), Tree(y.id)) && !A.Descends(Tree(y.id), Tree(x.id))
  {
    TreeIsIdeal();
    BranchesDiffer();
    acts, sys := BothDeliver();
    hide Ideal, Delivered, A.Descends, Tree, Systems.Run;
    x, y := B(3), B(6);
  }

  lemma BranchesDiffer()
    ensures !A.Descends(Tree(3), Tree(6)) && !A.Descends(Tree(6), Tree(3))
  {
    assert Tree(3) == P.Node(Tree(1), 3, 3) && Tree(6) == P.Node(Tree(1), 6, 6) && Tree(1) == P.Node(P.Genesis, 1, 1);
    assert !A.Descends(P.Genesis, Tree(3)) && !A.Descends(P.Genesis, Tree(6));
    assert !A.Descends(Tree(1), Tree(3)) && !A.Descends(Tree(1), Tree(6));
  }
}
