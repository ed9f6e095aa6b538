/**
 Replicas that take the steps of the handlers on their own forests, and faulty voters, as one system; it simulates the
 protocol steps, so what its replicas deliver lies on one branch.
 */
module Systems {
  import opened Types
  import opened Forests
  import opened Commits
  import opened Chains
  import opened QuorumSets
  import opened Rules
  import opened Turns
  import opened Bridge
  import opened ReplicaInvariants
  import P = Protocol
  import A = Agreement

  /** Who voted for which block, and how far each replica is. */
  datatype System = System(votes: map<Id, set<nat>>, replicas: map<nat, Progress>)

  datatype Act = Forge(r: nat, id: Id) | Local(r: nat, step: Turns.Step)

  /** Hashes are ideal: an id stands for a chain of rising views, whose last one is its level. */
  ghost predicate Ideal(tree: Id -> P.Chain, lev: Id -> nat) {
    && lev(ZERO_ID) == 0
    && (forall id :: tree(id).View() == lev(id))
    && (forall id :: tree(id).Node? ==> P.Rising(tree(id)))
  }

  /** The block is what its id stands for. */
  ghost predicate Genuine(tree: Id -> P.Chain, b: Block) {
    tree(b.id) == P.Node(tree(b.prevId), b.view, b.id)
  }

  function VotersOf(sys: System, id: Id): set<nat> {
    if id in sys.votes then sys.votes[id] else {}
  }

  /** A certificate for the id exists: the initial one, or one of enough voters. */
  ghost predicate Certifiable(c: P.Config, lev: Id -> nat, sys: System, id: Id) {
    lev(id) == 0 || |VotersOf(sys, id)| >= 2 * c.byzNo + 1
  }

  function LastVoted(ballots: seq<Ballot>): View {
    if ballots == [] then 0 else ballots[|ballots| - 1].vote.view
  }

  /** The lock is at or above the level of the parent of the block that the carried certificate certifies, or that
      certificate is too early to lock on. */
  ghost predicate Heeds(tree: Id -> P.Chain, core: Core, b: Block) {
    P.LockAfter(core.preferredView, tree(b.prevId)) == core.preferredView
  }

  /** When an act can happen. Certificates are genuine, blocks are what their ids stand for, and an honest replica votes
      in rising views, under a lock that heeds the certificate carried. The rules themselves are those of the handlers. */
  ghost predicate Allowed(c: P.Config, lev: Id -> nat, tree: Id -> P.Chain, sys: System, act: Act) {
    match act
    case Forge(r, _) => r in c.faulty
    case Local(r, step) =>
      && r < c.n && r !in c.faulty && r in sys.replicas && StepOk(lev, step)
      && Descending(sys.replicas[r].core.chain.forest) && Perform(r, c.byzNo, sys.replicas[r], step).Some?
      && match step
         case LearnQC(qc, _) => Certifiable(c, lev, sys, qc.blockId)
         case PutBlock(b) => Genuine(tree, b)
         case VoteFor(b) =>
           && Genuine(tree, b) && Certifiable(c, lev, sys, b.prevId)
           && (c.heeds ==> Heeds(tree, sys.replicas[r].core, b)) && (c.remembers ==> b.view > LastVoted(sys.replicas[r].ballots))
         case _ => true
  }

  function Vote(sys: System, r: nat, id: Id): System {
    sys.(votes := sys.votes[id := VotersOf(sys, id) + {r}])
  }

  ghost function Next(c: P.Config, lev: Id -> nat, tree: Id -> P.Chain, sys: System, act: Act): System
    requires Allowed(c, lev, tree, sys, act)
  {
    match act
    case Forge(r, id) => Vote(sys, r, id)
    case Local(r, step) =>
      var moved := sys.(replicas := sys.replicas[r := Perform(r, c.byzNo, sys.replicas[r], step).value]);
      if step.VoteFor? then Vote(moved, r, step.block.id) else moved
  }

  function Init(c: P.Config): System {
    System(map[], map r | r in Range(0, c.n) :: START)
  }

  /** The state a run ends in; None if one of its acts was not allowed. */
  ghost function Run(c: P.Config, lev: Id -> nat, tree: Id -> P.Chain, acts: seq<Act>): Option<System> {
    if acts == [] then Some(Init(c)) else
    match Run(c, lev, tree, acts[..|acts| - 1])
    case None => None
    case Some(sys) =>
      if Allowed(c, lev, tree, sys, acts[|acts| - 1]) then Some(Next(c, lev, tree, sys, acts[|acts| - 1])) else None
  }

  // Simulation.

  /** Some committed block of the protocol is the chain or descends from it. */
  ghost predicate Covered(l: P.Local, chain: P.Chain) {
    exists g :: g in l.committed && A.Descends(g, chain)
  }

  ghost predicate Delivered(p: Progress, x: Block) {
    exists i :: 0 <= i < |p.committed| && x in p.committed[i]
  }

  /** A replica's progress as the protocol sees it. */
  ghost predicate Matches(lev: Id -> nat, tree: Id -> P.Chain, p: Progress, l: P.Local) {
    && CoreOk(p.core, lev) && Represents(p.core.chain.forest, tree)
    && l.preferredView == p.core.preferredView && l.lastVotedView == LastVoted(p.ballots)
    && (forall x :: Delivered(p, x) ==> Covered(l, tree(x.id)))
  }

  ghost predicate Simulates(c: P.Config, lev: Id -> nat, tree: Id -> P.Chain, sys: System, s: P.State) {
    && A.Reachable(c, s)
    && (forall id :: VotersOf(sys, id) <= P.Voters(s, tree(id)))
    && (forall r :: r in sys.replicas ==> r in s.locals && Matches(lev, tree, sys.replicas[r], s.locals[r]))
  }

  lemma CertifiedToo(c: P.Config, lev: Id -> nat, tree: Id -> P.Chain, sys: System, s: P.State, id: Id)
    requires Ideal(tree, lev) && Simulates(c, lev, tree, sys, s) && Certifiable(c, lev, sys, id)
    ensures tree(id).Genesis? || P.Certified(c, s, tree(id))
  {
    hide A.Reachable, Matches;
    if tree(id).Node? {
      assert P.Rising(tree(id)) && tree(id).View() == lev(id);
      SubsetSize(VotersOf(sys, id), P.Voters(s, tree(id)));
    }
  }

  lemma VotersStay(tree: Id -> P.Chain, sys: System, s: P.State, r: nat, id: Id)
    requires forall x :: VotersOf(sys, x) <= P.Voters(s, tree(x))
    ensures forall x :: VotersOf(Vote(sys, r, id), x) <= P.Voters(P.AddVote(s, r, tree(id)), tree(x))
  {
  }

  lemma ForgeSimulates(c: P.Config, lev: Id -> nat, tree: Id -> P.Chain, sys: System, s: P.State, act: Act) returns (s': P.State)
    requires Simulates(c, lev, tree, sys, s) && act.Forge? && Allowed(c, lev, tree, sys, act)
    ensures Simulates(c, lev, tree, Next(c, lev, tree, sys, act), s')
  {
    hide A.Reachable, Matches;
    var step := P.FaultyVote(act.r, tree(act.id));
    A.StepReachable(c, s, step);
    s' := P.Take(c, s, step);
    VotersStay(tree, sys, s, act.r, act.id);
  }

  /** Replacing one replica by one that matches its new local state, with the votes as they are. */
  lemma MoveSimulates(c: P.Config, lev: Id -> nat, tree: Id -> P.Chain, sys: System, s: P.State, r: nat, p: Progress, s': P.State)
    requires Simulates(c, lev, tree, sys, s) && A.Reachable(c, s') && s'.votes == s.votes
    requires forall x :: x in s.locals && x != r ==> x in s'.locals && s'.locals[x] == s.locals[x]
    requires r in s'.locals && Matches(lev, tree, p, s'.locals[r])
    ensures Simulates(c, lev, tree, sys.(replicas := sys.replicas[r := p]), s')
  {
    hide A.Reachable, Matches;
    assert forall x :: P.Voters(s', x) == P.Voters(s, x);
  }

  lemma AddRepresents(f: Forest, lev: Id -> nat, tree: Id -> P.Chain, b: Block)
    requires Levels(f, lev) && Fits(lev, b) && Represents(f, tree) && Genuine(tree, b)
    ensures Represents(AddVertex(f, b), tree)
  {
    if b.view >= f.lowest && !f.Full(b.id) {
      AddVertexAdds(f, lev, b);
      var r := AddVertex(f, b);
      hide AddVertex;
      forall id | r.Full(id)
        ensures tree(id) == P.Node(tree(r.vertices[id].vertex.value.prevId), r.vertices[id].vertex.value.view, id)
      {
        if id != b.id { assert f.Full(id); }
      }
    }
  }

  lemma LevelsOf(c: Core, lev: Id -> nat)
    requires CoreOk(c, lev)
    ensures LevelIndex(c.chain.forest) && Levels(c.chain.forest, lev) && Descending(c.chain.forest) && Rootless(c.chain.forest)
  {
  }

  lemma PutFits(lev: Id -> nat, step: Turns.Step)
    requires StepOk(lev, step) && (step.PutBlock? || step.VoteFor?)
    ensures BlockOk(lev, step.block) && step.block.qc.Some? && Fits(lev, step.block)
    ensures QCOk(lev, step.block.qc.value) && step.block.prevId == step.block.qc.value.blockId && step.block.view == lev(step.block.id)
  {
  }

  /** Steps without a counterpart in the protocol leave a replica matched. */
  lemma QuietMatches(c: P.Config, lev: Id -> nat, tree: Id -> P.Chain, p: Progress, l: P.Local, r: nat, step: Turns.Step)
    requires Matches(lev, tree, p, l) && StepOk(lev, step) && (step.NoteQC? || step.CountVote? || step.PutBlock?)
    requires step.PutBlock? ==> Genuine(tree, step.block)
    requires Descending(p.core.chain.forest) && Perform(r, c.byzNo, p, step).Some?
    ensures Matches(lev, tree, Perform(r, c.byzNo, p, step).value, l)
  {
    hide CoreOk, Covered, AddVertex, Represents, StepOk, Descending, Levels, LevelIndex, Rootless, Fits, BlockOk;
    PerformKeeps(r, c.byzNo, lev, p, step);
    var p' := Perform(r, c.byzNo, p, step).value;
    forall x | Delivered(p', x) ensures Covered(l, tree(x.id)) { assert Delivered(p, x); }
    if step.PutBlock? {
      LevelsOf(p.core, lev);
      PutFits(lev, step);
      AddRepresents(p.core.chain.forest, lev, tree, step.block);
    }
  }

  /** The blocks a commit delivers are the committed one and ancestors of it. */
  lemma {:induction false} PathDescends(f: Forest, tree: Id -> P.Chain, b: Block, x: Block)
    requires Descending(f) && f.Has(b) && Represents(f, tree) && x in CommittedPath(f, b)
    ensures A.Descends(tree(b.id), tree(x.id))
    decreases b.view
  {
    assert f.Full(b.id);
    if x != b { PathDescends(f, tree, Parent(f, b).value, x); }
  }

  /** What a certificate makes a replica deliver is covered by the protocol's commit. */
  lemma LearnCovers(lev: Id -> nat, tree: Id -> P.Chain, core: Core, qc: QC, curView: View, x: Block)
    requires CoreOk(core, lev) && Represents(core.chain.forest, tree) && QCOk(lev, qc)
    requires ProcessCertificate(core, qc, curView).Applied? && x in ProcessCertificate(core, qc, curView).committed
    ensures P.ThreeChain(tree(qc.blockId)) && A.Descends(tree(qc.blockId).parent.parent, tree(x.id))
  {
    hide CoreOk, CommitBlock, Descending, Levels, LevelIndex, Rootless, Represents;
    var f := core.chain.forest;
    LevelsOf(core, lev);
    var g := CommitRule(f, qc).value;
    CommitRuleMatches(f, lev, tree, qc);
    CommitShape(core.chain, g.id, curView);
    NextPreferredIsOrdered(core, lev, qc) by { OrderedIs(core, lev); }
    PathDescends(f, tree, g, x);
  }

  lemma OrderedIs(c: Core, lev: Id -> nat)
    requires CoreOk(c, lev)
    ensures Ordered(c.chain.forest.lowest, c.preferredView, c.highQC.view)
  {
  }

  lemma CoveredMore(l: P.Local, l': P.Local, chain: P.Chain)
    requires Covered(l, chain) && l.committed <= l'.committed
    ensures Covered(l', chain)
  {
    var g :| g in l.committed && A.Descends(g, chain);
    assert g in l'.committed;
  }

  lemma DeliveredSplits(p: Progress, p': Progress, batch: seq<Block>, x: Block)
    requires p'.committed == Sent(p.committed, batch)
    ensures Delivered(p', x) ==> Delivered(p, x) || x in batch
  {
    if Delivered(p', x) {
      var i :| 0 <= i < |p'.committed| && x in p'.committed[i];
      if i < |p.committed| { assert x in p.committed[i]; }
    }
  }

  /** The protocol's view of a replica after a certificate. */
  function Processed(l: P.Local, b: P.Chain): P.Local {
    l.(preferredView := P.LockAfter(l.preferredView, b),
       committed := if P.ThreeChain(b) then l.committed + {b.parent.parent} else l.committed)
  }

  lemma LearnMatches(lev: Id -> nat, tree: Id -> P.Chain, p: Progress, l: P.Local, qc: QC, curView: View)
    requires Ideal(tree, lev) && Matches(lev, tree, p, l) && QCOk(lev, qc) && Descending(p.core.chain.forest)
    requires ProcessCertificate(p.core, qc, curView).Applied?
    ensures var r := ProcessCertificate(p.core, qc, curView);
      Matches(lev, tree, p.(core := r.core, committed := Sent(p.committed, r.committed)), Processed(l, tree(qc.blockId)))
  {
    hide CoreOk, Represents, ProcessCertificate, Descending, Covered, Delivered, P.LockAfter;
    var r, b, l' := ProcessCertificate(p.core, qc, curView), tree(qc.blockId), Processed(l, tree(qc.blockId));
    assert tree(qc.blockId).View() == lev(qc.blockId);
    CertificateKeepsOrder(p.core, lev, qc, curView);
    CertificateIsProtocolStep(p.core, lev, tree, qc, curView);
    var p' := p.(core := r.core, committed := Sent(p.committed, r.committed));
    forall x | Delivered(p', x) ensures Covered(l', tree(x.id)) {
      DeliveredSplits(p, p', r.committed, x);
      if Delivered(p, x) {
        CoveredMore(l, l', tree(x.id));
      } else {
        LearnCovers(lev, tree, p.core, qc, curView, x);
        CoversBy(l', b.parent.parent, tree(x.id));
      }
    }
  }

  lemma CoversBy(l: P.Local, g: P.Chain, chain: P.Chain)
    requires g in l.committed && A.Descends(g, chain)
    ensures Covered(l, chain)
  {
  }

  lemma LearnSimulates(c: P.Config, lev: Id -> nat, tree: Id -> P.Chain, sys: System, s: P.State, act: Act) returns (s': P.State)
    requires Ideal(tree, lev) && Simulates(c, lev, tree, sys, s) && act.Local? && act.step.LearnQC? && Allowed(c, lev, tree, sys, act)
    ensures Simulates(c, lev, tree, Next(c, lev, tree, sys, act), s')
  {
    hide A.Reachable, Matches, ProcessCertificate, Descending, Certifiable, VotersOf;
    var r, p, qc := act.r, sys.replicas[act.r], act.step.qc;
    var b := tree(qc.blockId);
    s' := s;
    CertifiedToo(c, lev, tree, sys, s, qc.blockId);
    if ProcessCertificate(p.core, qc, act.step.curView).Applied? {
      LearnMatches(lev, tree, p, s.locals[r], qc, act.step.curView);
      if b.Node? {
        A.StepReachable(c, s, P.ProcessQC(r, b));
        s' := P.Take(c, s, P.ProcessQC(r, b));
        assert s'.locals[r] == Processed(s.locals[r], b);
      } else {
        assert Processed(s.locals[r], b) == s.locals[r];
      }
    }
    MoveSimulates(c, lev, tree, sys, s, r, Perform(r, c.byzNo, p, act.step).value, s');
  }

  /** What the local rule approves, the protocol allows. */
  lemma ApprovedIsAllowed(lev: Id -> nat, tree: Id -> P.Chain, core: Core, b: Block)
    requires CoreOk(core, lev) && Represents(core.chain.forest, tree) && Genuine(tree, b) && b.view == lev(b.id)
    requires VotingRule(core.chain.forest, core.preferredView, b) == Approve
    ensures P.VoteAllowed(core.preferredView, tree(b.id))
  {
    hide CoreOk, Represents, Levels, Rootless, LevelIndex, Descending;
    LevelsOf(core, lev);
    var f := core.chain.forest;
    if b.view > 2 {
      StoredParent(f, lev, b.id);
      StoredNode(f, tree, b.id);
      StoredNode(f, tree, f.GetVertex(b.id).value.prevId);
    }
  }

  /** Handlers heed a certificate they could digest: if the certified block and its parent were stored, the lock is high
      enough afterwards. */
  lemma DigestedIsHeeded(lev: Id -> nat, tree: Id -> P.Chain, f: Forest, core: Core, b: Block)
    requires Levels(f, lev) && Rootless(f) && Represents(f, tree) && BlockOk(lev, b) && b.qc.Some?
    requires tree(b.prevId).View() == lev(b.prevId)
    requires Digested(f, core, b.qc.value) && NextPreferred(f, 0, b.qc.value).Some?
    ensures Heeds(tree, core, b)
  {
    hide Levels, Rootless, Represents;
    LockMatches(f, lev, tree, 0, b.qc.value);
  }

  /** Exactly when a vote is heedless after its certificate was digested by the forest it is judged by: the block that
      the lock should be on is above the lock, and then it is not stored. */
  lemma HeedlessExactly(lev: Id -> nat, tree: Id -> P.Chain, core: Core, b: Block)
    requires CoreOk(core, lev) && Represents(core.chain.forest, tree) && BlockOk(lev, b) && b.qc.Some? && b.view > 2
    requires Ideal(tree, lev) && Digested(core.chain.forest, core, b.qc.value)
    requires VotingRule(core.chain.forest, core.preferredView, b) == Approve && core.chain.forest.Has(b)
    ensures !Heeds(tree, core, b) <==> lev(b.prevId) > 2 && tree(b.prevId).parent.Node? && tree(b.prevId).parent.view > core.preferredView
    ensures !Heeds(tree, core, b) ==> !core.chain.forest.Full(core.chain.forest.GetVertex(b.prevId).value.prevId)
  {
    hide CoreOk, Represents, Levels, Rootless, LevelIndex, Descending;
    var f := core.chain.forest;
    LevelsOf(core, lev);
    StoredParent(f, lev, b.id);
    StoredNode(f, tree, b.prevId);
    assert tree(b.prevId).View() == lev(b.prevId) && P.Rising(tree(b.prevId));
    if NextPreferred(f, 0, b.qc.value).Some? { DigestedIsHeeded(lev, tree, f, core, b); }
  }

  lemma VoteIsEnabled(c: P.Config, lev: Id -> nat, tree: Id -> P.Chain, sys: System, s: P.State, act: Act)
    requires Ideal(tree, lev) && Simulates(c, lev, tree, sys, s) && act.Local? && act.step.VoteFor? && Allowed(c, lev, tree, sys, act)
    ensures P.Enabled(c, s, P.HonestVote(act.r, tree(act.step.block.id)))
    ensures tree(act.step.block.id).Node?
    ensures P.LockFor(c, s.locals[act.r].preferredView, tree(act.step.block.id)) == s.locals[act.r].preferredView
  {
    hide A.Reachable, CoreOk, Represents, Descending, VotingRule, Covered, Levels, LevelIndex, Rootless, StepOk;
    hide P.LockAfter, P.VoteAllowed;
    var b, p := act.step.block, sys.replicas[act.r];
    PutFits(lev, act.step);
    CertifiedToo(c, lev, tree, sys, s, b.prevId);
    LevelsOf(p.core, lev);
    assert tree(b.prevId).View() == lev(b.prevId) && P.Rising(tree(b.id));
    ApprovedIsAllowed(lev, tree, p.core, b);
  }

  lemma VoteMatches(lev: Id -> nat, tree: Id -> P.Chain, p: Progress, l: P.Local, r: nat, b: Block)
    requires Matches(lev, tree, p, l)
    ensures Matches(lev, tree, p.(ballots := p.ballots + [BallotFor(r, p.core, b)]), l.(lastVotedView := b.view))
  {
    hide CoreOk, Represents;
    var p', l' := p.(ballots := p.ballots + [BallotFor(r, p.core, b)]), l.(lastVotedView := b.view);
    forall x | Delivered(p', x) ensures Covered(l', tree(x.id)) {
      assert Delivered(p, x);
      CoveredMore(l, l', tree(x.id));
    }
  }

  lemma VoteSimulates(c: P.Config, lev: Id -> nat, tree: Id -> P.Chain, sys: System, s: P.State, act: Act) returns (s': P.State)
    requires Ideal(tree, lev) && Simulates(c, lev, tree, sys, s) && act.Local? && act.step.VoteFor? && Allowed(c, lev, tree, sys, act)
    ensures Simulates(c, lev, tree, Next(c, lev, tree, sys, act), s')
  {
    hide A.Reachable, Matches, Descending, Certifiable, VotersOf, VotingRule, StepOk, P.Enabled, P.LockAfter, P.LockFor;
    var r, b, p := act.r, act.step.block, sys.replicas[act.r];
    VoteIsEnabled(c, lev, tree, sys, s, act);
    var step := P.HonestVote(r, tree(b.id));
    A.StepReachable(c, s, step);
    s' := P.Take(c, s, step);
    VoteMatches(lev, tree, p, s.locals[r], r, b);
    assert s'.locals[r] == s.locals[r].(lastVotedView := b.view);
    VotersStay(tree, sys, s, r, b.id);
    VotedSimulates(c, lev, tree, sys, s, r, b, s');
  }

  lemma VotedSimulates(c: P.Config, lev: Id -> nat, tree: Id -> P.Chain, sys: System, s: P.State, r: nat, b: Block, s': P.State)
    requires Simulates(c, lev, tree, sys, s) && A.Reachable(c, s') && r in sys.replicas && s'.votes == P.AddVote(s, r, tree(b.id)).votes
    requires forall x :: x in s.locals && x != r ==> x in s'.locals && s'.locals[x] == s.locals[x]
    requires var p := sys.replicas[r];
      r in s'.locals && Matches(lev, tree, p.(ballots := p.ballots + [BallotFor(r, p.core, b)]), s'.locals[r])
    ensures var p := sys.replicas[r];
      Simulates(c, lev, tree, Vote(sys.(replicas := sys.replicas[r := p.(ballots := p.ballots + [BallotFor(r, p.core, b)])]), r, b.id), s')
  {
    hide A.Reachable, Matches;
    VotersStay(tree, sys, s, r, b.id);
    var p := sys.replicas[r];
    var sys' := Vote(sys.(replicas := sys.replicas[r := p.(ballots := p.ballots + [BallotFor(r, p.core, b)])]), r, b.id);
    assert sys'.votes == Vote(sys, r, b.id).votes;
    forall x ensures VotersOf(sys', x) <= P.Voters(s', tree(x)) {
      assert VotersOf(sys', x) == VotersOf(Vote(sys, r, b.id), x);
    }
  }

  /** Every act of the system is a step of the protocol or none at all. */
  lemma ActSimulates(c: P.Config, lev: Id -> nat, tree: Id -> P.Chain, sys: System, s: P.State, act: Act) returns (s': P.State)
    requires Ideal(tree, lev) && Simulates(c, lev, tree, sys, s) && Allowed(c, lev, tree, sys, act)
    ensures Simulates(c, lev, tree, Next(c, lev, tree, sys, act), s')
  {
    if act.Forge? {
      s' := ForgeSimulates(c, lev, tree, sys, s, act);
    } else if act.step.LearnQC? {
      s' := LearnSimulates(c, lev, tree, sys, s, act);
    } else if act.step.VoteFor? {
      s' := VoteSimulates(c, lev, tree, sys, s, act);
    } else {
      hide A.Reachable, Matches, Descending, Perform, StepOk, VotersOf;
      s' := s;
      QuietMatches(c, lev, tree, sys.replicas[act.r], s.locals[act.r], act.r, act.step);
      MoveSimulates(c, lev, tree, sys, s, act.r, Perform(act.r, c.byzNo, sys.replicas[act.r], act.step).value, s);
    }
  }

  lemma InitSimulates(c: P.Config, lev: Id -> nat, tree: Id -> P.Chain)
    requires Ideal(tree, lev)
    ensures Simulates(c, lev, tree, Init(c), P.Init(c))
  {
    assert P.Run(c, []) == Some(P.Init(c));
    assert A.Reachable(c, P.Init(c));
    StartMatches(lev, tree);
    hide Matches, A.Reachable;
  }

  lemma StartMatches(lev: Id -> nat, tree: Id -> P.Chain)
    requires Ideal(tree, lev)
    ensures Matches(lev, tree, START, P.Local(0, 0, {}))
  {
    StartIsOk(lev);
  }

  /** Simulation: every run of the system is matched by a run of the protocol. */
  lemma {:induction false} RunSimulates(c: P.Config, lev: Id -> nat, tree: Id -> P.Chain, acts: seq<Act>) returns (s: P.State)
    requires Ideal(tree, lev) && Run(c, lev, tree, acts).Some?
    ensures Simulates(c, lev, tree, Run(c, lev, tree, acts).value, s)
  {
    hide Simulates, Allowed, Next, Ideal;
    if acts == [] {
      InitSimulates(c, lev, tree);
      s := P.Init(c);
    } else {
      var before := RunSimulates(c, lev, tree, acts[..|acts| - 1]);
      s := ActSimulates(c, lev, tree, Run(c, lev, tree, acts[..|acts| - 1]).value, before, acts[|acts| - 1]);
    }
  }

  // Agreement of what is delivered.

  lemma {:induction false} DescendsOn(a: P.Chain, b: P.Chain, d: P.Chain)
    requires A.Descends(a, b) && A.Descends(b, d)
    ensures A.Descends(a, d)
  {
    if a != b { DescendsOn(a.parent, b, d); }
  }

  lemma {:induction false} OneBranch(a: P.Chain, b: P.Chain, d: P.Chain)
    requires A.Descends(a, b) && A.Descends(a, d)
    ensures A.Descends(b, d) || A.Descends(d, b)
  {
    if a != b && a != d { OneBranch(a.parent, b, d); }
  }

  /** In every run of the system, any two blocks delivered by honest replicas lie on one branch. */
  lemma ReplicasAgree(c: P.Config, lev: Id -> nat, tree: Id -> P.Chain, acts: seq<Act>, r: nat, x: Block, r': nat, y: Block)
    requires P.ValidConfig(c) && Ideal(tree, lev) && Run(c, lev, tree, acts).Some?
    requires r in Run(c, lev, tree, acts).value.replicas && Delivered(Run(c, lev, tree, acts).value.replicas[r], x)
    requires r' in Run(c, lev, tree, acts).value.replicas && Delivered(Run(c, lev, tree, acts).value.replicas[r'], y)
    ensures A.Descends(tree(x.id), tree(y.id)) || A.Descends(tree(y.id), tree(x.id))
  {
    hide Run, Ideal, CoreOk, Represents, VotersOf;
    var s := RunSimulates(c, lev, tree, acts);
    var sys := Run(c, lev, tree, acts).value;
    assert Matches(lev, tree, sys.replicas[r], s.locals[r]) && Matches(lev, tree, sys.replicas[r'], s.locals[r']);
    var g :| g in s.locals[r].committed && A.Descends(g, tree(x.id));
    var g' :| g' in s.locals[r'].committed && A.Descends(g', tree(y.id));
    var steps :| P.Run(c, steps) == Some(s);
    A.Agreement(c, steps, r, g, r', g');
    if A.Descends(g, g') {
      DescendsOn(g, g', tree(y.id));
      OneBranch(g, tree(x.id), tree(y.id));
    } else {
      DescendsOn(g', g, tree(x.id));
      OneBranch(g', tree(x.id), tree(y.id));
    }
  }

  // The replicas of the system are the replicas of the handlers.

  /** The steps one replica took. */
  function StepsOf(acts: seq<Act>, r: nat): seq<Turns.Step> {
    if acts == [] then [] else
    var act := acts[|acts| - 1];
    StepsOf(acts[..|acts| - 1], r) + if act.Local? && act.r == r then [act.step] else []
  }

  /** How far a replica is in the system is what its steps lead to. */
  lemma {:induction false} SystemReplays(c: P.Config, lev: Id -> nat, tree: Id -> P.Chain, acts: seq<Act>, r: nat)
    requires lev(ZERO_ID) == 0 && Run(c, lev, tree, acts).Some? && r in Run(c, lev, tree, acts).value.replicas
    ensures Traced(r, c.byzNo, lev, StepsOf(acts, r), Run(c, lev, tree, acts).value.replicas[r])
  {
    hide Traced, Perform, StepOk, Descending;
    if acts == [] {
      TraceStarts(r, c.byzNo, lev);
    } else {
      var before, act := acts[..|acts| - 1], acts[|acts| - 1];
      SystemReplays(c, lev, tree, before, r);
      assert StepsOf(acts, r) == StepsOf(before, r) + if act.Local? && act.r == r then [act.step] else [];
      if act.Local? && act.r == r {
        TraceGrows(r, c.byzNo, lev, StepsOf(before, r), Run(c, lev, tree, before).value.replicas[r], act.step);
      } else {
        assert StepsOf(acts, r) == StepsOf(before, r);
      }
    }
  }
}
