/** What a replica holds and what its handlers keep: buffers, grounds for view changes, deliveries and ballots. */
module ReplicaInvariants {
  import opened Types
  import opened Forests
  import opened Commits
  import opened Chains
  import opened Collectors
  import opened Quorums
  import opened QuorumSets
  import opened Pacemakers
  import opened Rules
  import opened ChainRuns
  import opened Turns

  datatype Message =
    | VoteTo(to: NodeId, vote: Vote)
    | VmoTo(to: NodeId, vmo: VMO)
    | BroadcastVmo(vmo: VMO)
    | BroadcastTmo(tmo: TMO)
    | BroadcastBlock(block: Block)

  /** What a replica reacts to. A new view carries the id its proposal would get. */
  datatype Arrival =
    | NewView(view: View, id: Id)
    | BlockArrives(block: Block)
    | VoteArrives(vote: Vote)
    | TmoArrives(tmo: TMO)
    | VmoArrives(vmo: VMO)
    | TimerExpires

  /** What became of a block: kept for a later view, refused with an error, not voted for, or voted for. */
  datatype Fate = Queued | Failed | Rejected | Voted

  /** Above view 2 the parent was stored, not below the lock and strictly above the last committed view. */
  ghost predicate BallotsOk(ballots: seq<Ballot>) {
    forall i :: 0 <= i < |ballots| && ballots[i].vote.view > 2 ==>
      && ballots[i].parent.Some?
      && ballots[i].parent.value >= ballots[i].preferredView
      && ballots[i].parent.value > ballots[i].committedView
  }

  /** The block is stored, or its level has been pruned. */
  ghost predicate Kept(f: Forest, lev: Id -> nat, id: Id) {
    f.Full(id) || lev(id) < f.lowest
  }

  /** No stored block changes, and none goes except by pruning its level. */
  ghost predicate Retains(f: Forest, f': Forest, lev: Id -> nat) {
    forall id :: f.GetVertex(id).Some? && lev(id) >= f'.lowest ==> f'.GetVertex(id) == f.GetVertex(id)
  }

  /** Nothing is newly stored, except possibly this block. */
  ghost predicate StoresOnly(f: Forest, f': Forest, id: Id) {
    forall x :: f'.Full(x) ==> f.Full(x) || x == id
  }

  // What the buffers hold.

  /** Key k holds a block of view k+1. */
  ghost predicate BlocksOk(buffer: map<int, Block>, lev: Id -> nat) {
    forall k :: k in buffer ==> buffer[k].view == k + 1 && BlockOk(lev, buffer[k])
  }

  ghost predicate VmosOk(buffer: map<int, VMO>) {
    forall k :: k in buffer ==> buffer[k].view == k + 1
  }

  ghost predicate QCsOk(buffer: map<Id, QC>, lev: Id -> nat) {
    forall id :: id in buffer ==> QCOk(lev, buffer[id])
  }

  /** Every received block and VMO was seen. */
  ghost predicate Seen(blocks: map<int, Block>, vmos: map<int, VMO>, seenBlocks: set<View>, seenVmos: set<View>) {
    && (forall k :: k in blocks ==> blocks[k].view in seenBlocks)
    && (forall k :: k in vmos ==> vmos[k].view in seenVmos)
  }

  // Why a view was entered.

  /** Grounds for leaving view v: the start, a timeout quorum, a view-change quorum at the leader of v+1, or a
      VMO together with a block of view v. */
  ghost predicate Backed(p: Clock, v: View, leads: bool, seenBlocks: set<View>, seenVmos: set<View>) {
    || v == 0
    || Count(p.timeouts, v) >= PacemakerThreshold(p.n)
    || (leads && Count(p.viewChanges, v) >= PacemakerThreshold(p.n))
    || (v in seenBlocks && v in seenVmos)
  }

  ghost predicate AllBacked(p: Clock, self: NodeId, leaderOf: View -> NodeId, seenBlocks: set<View>, seenVmos: set<View>) {
    forall i :: 0 <= i < |p.events| ==>
      p.events[i] > 0 && Backed(p, p.events[i] - 1, leaderOf(p.events[i]) == self, seenBlocks, seenVmos)
  }

  lemma FiledVoters(votes: Tally<Id, Vote>, id: Id)
    requires Filed(votes)
    ensures id in votes ==> forall n :: n in votes[id] ==> votes[id][n].voter == n
  {
  }

  lemma ReportsKnows<K, M>(t: Tally<K, M>, threshold: nat, k: K, node: NodeId, m: M)
    ensures Reports(t, threshold, k, node, m) ==> k in Collect(t, threshold, k, node, m)
  {
  }

  lemma CountGrows<M>(t: Tally<View, M>, threshold: nat, k: View, node: NodeId, m: M, v: View)
    ensures Count(Collect(t, threshold, k, node, m), v) >= Count(t, v)
  {
    if k == v {
      RecordKeys(t, k, node, m);
      if k in t {
        SubsetSize(t[k].Keys, t[k].Keys + {node});
        assert |t[k]| == |t[k].Keys|;
      }
    }
  }

  lemma MoreIsBacked(p: Clock, p': Clock, self: NodeId, leaderOf: View -> NodeId,
                     blocks: set<View>, vmos: set<View>, blocks': set<View>, vmos': set<View>)
    requires AllBacked(p, self, leaderOf, blocks, vmos)
    requires p'.events == p.events && p'.n == p.n && blocks <= blocks' && vmos <= vmos'
    requires forall v :: Count(p'.timeouts, v) >= Count(p.timeouts, v)
    requires forall v :: Count(p'.viewChanges, v) >= Count(p.viewChanges, v)
    ensures AllBacked(p', self, leaderOf, blocks', vmos')
  {
  }

  lemma AdvanceBacked(p: Clock, view: View, self: NodeId, leaderOf: View -> NodeId, blocks: set<View>, vmos: set<View>)
    requires AllBacked(p, self, leaderOf, blocks, vmos) && Backed(p, view, leaderOf(view + 1) == self, blocks, vmos)
    ensures AllBacked(Advance(p, view), self, leaderOf, blocks, vmos)
  {
  }

  // Deliveries, batch by batch.

  /** Everything delivered, oldest first; each batch was sent newest first. */
  function Log(batches: seq<seq<Block>>): seq<Block> {
    if batches == [] then [] else Log(batches[..|batches| - 1]) + Reverse(batches[|batches| - 1])
  }

  ghost predicate DeliveryOk(batches: seq<seq<Block>>, lowest: nat) {
    RisesTo(Log(batches), lowest)
  }

  lemma BatchDelivered(batches: seq<seq<Block>>, f: Forest, b: Block)
    requires DeliveryOk(batches, f.lowest) && Descending(f) && f.Has(b) && b.view >= f.lowest
    ensures DeliveryOk(batches + [CommittedPath(f, b)], b.view)
  {
    var path := CommittedPath(f, b);
    assert (batches + [path])[..|batches|] == batches;
    assert Log(batches + [path]) == Log(batches) + Reverse(path);
    BatchRises(f, b);
    hide CommittedPath;
    RisingAppend(Log(batches), Reverse(path), f.lowest);
  }

  lemma CommitDelivers(batches: seq<seq<Block>>, s: ChainState, id: Id, view: View)
    requires Descending(s.forest) && DeliveryOk(batches, s.forest.lowest) && CommitBlock(s, id, view).Done?
    ensures DeliveryOk(Sent(batches, CommitBlock(s, id, view).committed), CommitBlock(s, id, view).state.forest.lowest)
    ensures Filed(s.votes) ==> Filed(CommitBlock(s, id, view).state.votes)
  {
    CommitShape(s, id, view);
    hide CommitBlock;
    var b := s.forest.GetVertex(id).value;
    BatchDelivered(batches, s.forest, b);
    BatchRises(s.forest, b);
  }

  lemma CertificateDelivers(batches: seq<seq<Block>>, c: Core, qc: QC, curView: View)
    requires Descending(c.chain.forest) && DeliveryOk(batches, c.chain.forest.lowest)
    requires ProcessCertificate(c, qc, curView).Applied?
    ensures var r := ProcessCertificate(c, qc, curView);
      && DeliveryOk(Sent(batches, r.committed), r.core.chain.forest.lowest)
      && (Filed(c.chain.votes) ==> Filed(r.core.chain.votes))
  {
    hide DeliveryOk, CommitBlock, Filed;
    if CommitRule(c.chain.forest, qc).Some? {
      var g := CommitRule(c.chain.forest, qc).value;
      if CommitBlock(c.chain, g.id, curView).Done? {
        CommitDelivers(batches, c.chain, g.id, curView);
      }
    }
  }

  lemma CommitRetains(s: ChainState, lev: Id -> nat, id: Id, view: View)
    requires Levels(s.forest, lev) && Descending(s.forest) && CommitBlock(s, id, view).Done?
    ensures Retains(s.forest, CommitBlock(s, id, view).state.forest, lev)
  {
    CommitShape(s, id, view);
    hide CommitBlock;
  }

  lemma CertificateStoresNothing(c: Core, qc: QC, curView: View, id: Id)
    requires Descending(c.chain.forest) && ProcessCertificate(c, qc, curView).Applied?
    ensures StoresOnly(c.chain.forest, ProcessCertificate(c, qc, curView).core.chain.forest, id)
  {
    hide CommitBlock, CommitRule, Descending;
    if CommitRule(c.chain.forest, qc).Some? {
      var g := CommitRule(c.chain.forest, qc).value;
      if CommitBlock(c.chain, g.id, curView).Done? { CommitShape(c.chain, g.id, curView); }
    }
  }

  lemma StoresOnlyItself(f: Forest, id: Id)
    ensures StoresOnly(f, f, id)
  {
  }

  lemma StoresOnlyTwice(f: Forest, mid: Forest, f': Forest, id: Id)
    ensures StoresOnly(f, mid, id) && StoresOnly(mid, f', id) ==> StoresOnly(f, f', id)
  {
  }

  lemma AddStoresOnly(f: Forest, b: Block)
    ensures StoresOnly(f, AddVertex(f, b), b.id)
  {
  }

  lemma RetainsItself(f: Forest, lev: Id -> nat)
    ensures Retains(f, f, lev)
  {
  }

  lemma CertificateRetains(c: Core, lev: Id -> nat, qc: QC, curView: View)
    requires CoreOk(c, lev) && ProcessCertificate(c, qc, curView).Applied?
    ensures Retains(c.chain.forest, ProcessCertificate(c, qc, curView).core.chain.forest, lev)
  {
    hide Good, Levels, LevelIndex, CommitBlock, CommitRule, Rootless, Ordered, Descending, Retains;
    GoodIndexes(c.chain.forest, lev);
    RetainsItself(c.chain.forest, lev);
    if CommitRule(c.chain.forest, qc).Some? {
      var g := CommitRule(c.chain.forest, qc).value;
      if CommitBlock(c.chain, g.id, curView).Done? { CommitRetains(c.chain, lev, g.id, curView); }
    }
  }

  lemma ApprovedMeans(f: Forest, preferredView: View, b: Block)
    requires VotingRule(f, preferredView, b) == Approve && b.view > 2
    ensures GetParentBlock(f, b.id).Some? && GetParentBlock(f, b.id).value.view >= preferredView
  {
  }

  lemma BallotIsOk(c: Core, lev: Id -> nat, self: NodeId, b: Block, ballots: seq<Ballot>)
    requires CoreOk(c, lev) && BallotsOk(ballots) && VotingRule(c.chain.forest, c.preferredView, b) == Approve
    ensures BallotsOk(ballots + [BallotFor(self, c, b)])
    ensures Cast(ballots + [BallotFor(self, c, b)], Vote(b.view, self, b.id, 0))
  {
    hide CoreOk, VotingRule;
    if b.view > 2 {
      ApprovedParentIsAboveCommitted(c, lev, b);
      ApprovedMeans(c.chain.forest, c.preferredView, b);
    }
    assert (ballots + [BallotFor(self, c, b)])[|ballots|].vote == Vote(b.view, self, b.id, 0);
  }

  lemma AddRetains(f: Forest, lev: Id -> nat, b: Block)
    requires Levels(f, lev) && Fits(lev, b)
    ensures Retains(f, AddVertex(f, b), lev) && Kept(AddVertex(f, b), lev, b.id)
  {
    if b.view >= f.lowest && !f.Full(b.id) {
      AddVertexAdds(f, lev, b);
      var r := AddVertex(f, b);
      hide AddVertex;
      forall x | f.Full(x) ensures r.GetVertex(x) == f.GetVertex(x) {}
    }
  }

  /** The parts of a replica's state that only advance. */
  datatype Snap = Snap(pm: Clock, core: Core, buffered: map<int, Block>, seenBlocks: set<View>, seenVmos: set<View>,
                       sent: seq<Message>, ballots: seq<Ballot>, committed: seq<seq<Block>>, forked: seq<Block>,
                       received: map<int, Block>, vmos: map<int, VMO>, trace: seq<Turns.Step>)

  /** Clock, lock, highest certificate and last committed view only rise, no block is buffered for a view already
      reached, received blocks and VMOs go only when their view is left, stored blocks go only by pruning, and
      everything sent, announced, delivered or voted for stays so. */
  ghost predicate Advances(s: Snap, s': Snap, lev: Id -> nat) {
    && s.pm.curView <= s'.pm.curView && s.pm.events <= s'.pm.events
    && CoreAdvances(s.core, s'.core, lev)
    && (forall k :: k in s'.buffered && k + 1 <= s.pm.curView ==> k in s.buffered)
    && s.seenBlocks <= s'.seenBlocks && s.seenVmos <= s'.seenVmos
    && s.sent <= s'.sent && s.ballots <= s'.ballots && s.committed <= s'.committed && s.forked <= s'.forked
    && s.trace <= s'.trace
    && (forall k :: k in s.received ==> k in s'.received || s'.pm.curView > k + 1)
    && (forall k :: k in s.vmos ==> k in s'.vmos || s'.pm.curView > k + 1)
  }

  ghost predicate CoreAdvances(c: Core, c': Core, lev: Id -> nat) {
    && c.preferredView <= c'.preferredView && c.highQC.view <= c'.highQC.view
    && c.chain.forest.lowest <= c'.chain.forest.lowest
    && Retains(c.chain.forest, c'.chain.forest, lev)
  }

  lemma AdvancesReflexive(s: Snap, lev: Id -> nat)
    ensures Advances(s, s, lev)
  {
  }

  lemma AdvancesTransitive(s: Snap, mid: Snap, s': Snap, lev: Id -> nat)
    requires Advances(s, mid, lev) && Advances(mid, s', lev)
    ensures Advances(s, s', lev)
  {
    RetainsIsTransitive(s.core.chain.forest, mid.core.chain.forest, s'.core.chain.forest, lev);
    hide Retains;
  }

  lemma LearningAdvances(s: Snap, lev: Id -> nat, qc: QC)
    requires CoreOk(s.core, lev) && QCOk(lev, qc)
    ensures match ProcessCertificate(s.core, qc, s.pm.curView)
      case Crashes => true
      case Buffered => Advances(s, s.(trace := s.trace + [LearnQC(qc, s.pm.curView)]), lev)
      case Applied(core, committed, forked) =>
        Advances(s, s.(core := core, committed := Sent(s.committed, committed), forked := s.forked + forked,
                       trace := s.trace + [LearnQC(qc, s.pm.curView)]), lev)
  {
    hide ProcessCertificate, Good, Rootless, Ordered, Descending, Retains;
    RetainsItself(s.core.chain.forest, lev);
    if ProcessCertificate(s.core, qc, s.pm.curView).Applied? {
      CertificateKeepsOrder(s.core, lev, qc, s.pm.curView);
      CertificateRetains(s.core, lev, qc, s.pm.curView);
    }
  }

  lemma AdvancesVoting(s: Snap, s': Snap, lev: Id -> nat, ballot: Ballot, step: Turns.Step)
    requires Advances(s, s', lev)
    ensures Advances(s, s'.(ballots := s'.ballots + [ballot], trace := s'.trace + [step]), lev)
  {
    hide Retains;
  }

  lemma RetainsIsTransitive(f: Forest, mid: Forest, f': Forest, lev: Id -> nat)
    requires Retains(f, mid, lev) && Retains(mid, f', lev) && mid.lowest <= f'.lowest
    ensures Retains(f, f', lev)
  {
  }

  // What a certificate calls for.

  /** Judged by the blocks stored in `f`, everything the certificate calls for has happened: the lock has reached
      the view of the certified block's parent, and a block that its three-chain commits is committed. */
  ghost predicate Digested(f: Forest, c: Core, qc: QC) {
    && (NextPreferred(f, 0, qc).Some? ==> c.preferredView >= NextPreferred(f, 0, qc).value)
    && (qc.view >= 3 && CommitRule(f, qc).Some? ==> c.chain.forest.lowest >= CommitRule(f, qc).value.view)
  }

  /** The certificate has had its effect on the core, and the batch and the forked blocks it calls for have gone out. */
  ghost predicate TakesEffect(s: Snap, s': Snap, qc: QC)
    requires Descending(s.core.chain.forest)
  {
    exists batch, forked :: Effect(s.core, s'.core, batch, forked, qc) && s'.forked == s.forked + forked &&
      s'.committed == if batch == [] then s.committed else s.committed + [batch]
  }

  /** Applied or kept: what an accepted certificate comes to unless the replica goes down. */
  ghost predicate Certified(s: Snap, s': Snap, waiting: map<Id, QC>, waiting': map<Id, QC>, qc: QC)
    requires Descending(s.core.chain.forest)
  {
    if Applies(s.core.chain.forest, qc) then TakesEffect(s, s', qc) && waiting' == waiting
    else s'.core == s.core && s'.committed == s.committed && s'.forked == s.forked && waiting' == waiting[qc.blockId := qc]
  }

  lemma CertifiedBy(s: Snap, s': Snap, lev: Id -> nat, qc: QC)
    requires CoreOk(s.core, lev) && QCOk(lev, qc) && ProcessCertificate(s.core, qc, s.pm.curView).Applied?
    requires var r := ProcessCertificate(s.core, qc, s.pm.curView);
      s'.core == r.core && s'.committed == Sent(s.committed, r.committed) && s'.forked == s.forked + r.forked
    ensures Applies(s.core.chain.forest, qc) && TakesEffect(s, s', qc)
  {
    hide Effect, Applies, CoreOk, ProcessCertificate;
    CertificateMeaning(s.core, lev, qc, s.pm.curView);
  }

  lemma CertifiedTraced(s: Snap, s': Snap, waiting: map<Id, QC>, waiting': map<Id, QC>, qc: QC, trace: seq<Turns.Step>)
    requires Descending(s.core.chain.forest) && Certified(s, s', waiting, waiting', qc)
    ensures Certified(s, s'.(trace := trace), waiting, waiting', qc)
  {
    hide Effect, Applies, Descending;
  }

  lemma CertificateIsDigested(c: Core, lev: Id -> nat, qc: QC, curView: View)
    requires CoreOk(c, lev) && QCOk(lev, qc)
    ensures ProcessCertificate(c, qc, curView).Buffered? ==> Digested(c.chain.forest, c, qc)
    ensures ProcessCertificate(c, qc, curView).Applied? ==> Digested(c.chain.forest, ProcessCertificate(c, qc, curView).core, qc)
  {
    hide Good, Rootless, Ordered, CommitBlock;
    GoodIndexes(c.chain.forest, lev);
    hide Levels, LevelIndex;
    if NextPreferred(c.chain.forest, c.preferredView, qc).Some? && qc.view >= 3 && CommitRule(c.chain.forest, qc).Some? {
      var g := CommitRule(c.chain.forest, qc).value;
      NextPreferredIsOrdered(c, lev, qc);
      CommitEnds(c.chain, lev, g, curView);
    }
  }

  /** Only a certificate's block and view matter. */
  lemma SameDigest(f: Forest, c: Core, qc: QC, qc': QC)
    requires Digested(f, c, qc) && qc.view == qc'.view && qc.blockId == qc'.blockId
    ensures Digested(f, c, qc')
  {
  }

  lemma DigestedLater(f: Forest, c: Core, c': Core, lev: Id -> nat, qc: QC)
    requires Digested(f, c, qc) && CoreAdvances(c, c', lev)
    ensures Digested(f, c', qc)
  {
    hide Retains;
  }

  /** A block that the later forest no longer stores lies below its lowest level, hence below the lock. */
  lemma DigestedEarlier(c0: Core, c1: Core, c2: Core, lev: Id -> nat, qc: QC)
    requires CoreOk(c0, lev) && CoreOk(c2, lev) && QCOk(lev, qc)
    requires CoreAdvances(c0, c1, lev) && CoreAdvances(c1, c2, lev) && Digested(c1.chain.forest, c2, qc)
    ensures Digested(c0.chain.forest, c2, qc)
  {
    hide Good, Descending, Levels, LevelIndex, Rootless, Retains;
    GoodIndexes(c0.chain.forest, lev);
    StoredParent(c0.chain.forest, lev, qc.blockId);
    if GetParentBlock(c0.chain.forest, qc.blockId).Some? {
      var p := GetParentBlock(c0.chain.forest, qc.blockId).value;
      StoredParent(c0.chain.forest, lev, p.id);
      if p.view >= c1.chain.forest.lowest {
        SameParent(c0.chain.forest, c1.chain.forest, lev, qc.blockId);
        if GetParentBlock(c0.chain.forest, p.id).Some? { SameParent(c0.chain.forest, c1.chain.forest, lev, p.id); }
      }
    }
  }

  /** The parent read from a later forest, unless its level has been pruned. */
  lemma SameParent(f: Forest, f': Forest, lev: Id -> nat, id: Id)
    requires Levels(f, lev) && Rootless(f) && Retains(f, f', lev) && GetParentBlock(f, id).Some?
    ensures GetParentBlock(f, id).value.view >= f'.lowest ==>
      f'.GetVertex(id) == f.GetVertex(id) && GetParentBlock(f', id) == GetParentBlock(f, id)
  {
    StoredParent(f, lev, id);
  }

  /** What the termination measure needs: a view reached stays reached and is not buffered anew. */
  lemma AdvancesMeasure(s: Snap, s': Snap, lev: Id -> nat, v: View)
    requires Advances(s, s', lev) && v <= s.pm.curView
    ensures v <= s'.pm.curView && (v - 1 in s'.buffered ==> v - 1 in s.buffered)
  {
  }

  /** What was received for a view is still there, or the view has been left. */
  lemma AdvancesHolds(s: Snap, s': Snap, lev: Id -> nat, v: View)
    requires Advances(s, s', lev)
    ensures v - 1 in s.received ==> v - 1 in s'.received || s'.pm.curView > v
    ensures v - 1 in s.vmos ==> v - 1 in s'.vmos || s'.pm.curView > v
  {
  }

  // What the voting rule said.

  function FateOf(verdict: Verdict): Fate {
    match verdict
    case Approve => Voted
    case Reject => Rejected
    case CannotDecide => Failed
  }

  /** Somewhere on the way, with the block stored, the voting rule decided its fate. */
  ghost predicate Judged(s: Snap, s': Snap, lev: Id -> nat, block: Block, fate: Fate) {
    exists at :: Decides(s, at, s', lev, block, fate)
  }

  ghost predicate Decides(s: Snap, at: Snap, s': Snap, lev: Id -> nat, block: Block, fate: Fate) {
    && Advances(s, at, lev) && Advances(at, s', lev) && Kept(at.core.chain.forest, lev, block.id)
    && fate == FateOf(VotingRule(at.core.chain.forest, at.core.preferredView, block))
  }

  lemma JudgedAt(s: Snap, at: Snap, s': Snap, lev: Id -> nat, block: Block, fate: Fate)
    requires Decides(s, at, s', lev, block, fate)
    ensures Judged(s, s', lev, block, fate)
  {
  }

  lemma JudgedEarlier(s: Snap, mid: Snap, s': Snap, lev: Id -> nat, block: Block, fate: Fate)
    requires Advances(s, mid, lev) && Judged(mid, s', lev, block, fate)
    ensures Judged(s, s', lev, block, fate)
  {
    hide Advances, Kept, VotingRule;
    var at :| Decides(mid, at, s', lev, block, fate);
    AdvancesTransitive(s, mid, at, lev);
    JudgedAt(s, at, s', lev, block, fate);
  }

  lemma JudgedLater(s: Snap, mid: Snap, s': Snap, lev: Id -> nat, block: Block, fate: Fate)
    requires Judged(s, mid, lev, block, fate) && Advances(mid, s', lev)
    ensures Judged(s, s', lev, block, fate)
  {
    hide Advances, Kept, VotingRule;
    var at :| Decides(s, at, mid, lev, block, fate);
    AdvancesTransitive(at, mid, s', lev);
    JudgedAt(s, at, s', lev, block, fate);
  }

  lemma AdvancesTrace(s: Snap, s': Snap, lev: Id -> nat)
    requires Advances(s, s', lev)
    ensures s.trace <= s'.trace
  {
  }

  lemma AdvancesClock(s: Snap, s': Snap, lev: Id -> nat)
    requires Advances(s, s', lev)
    ensures s.pm.curView <= s'.pm.curView
  {
  }

  lemma AdvancesSees(s: Snap, s': Snap, lev: Id -> nat)
    requires Advances(s, s', lev)
    ensures s.seenBlocks <= s'.seenBlocks && s.seenVmos <= s'.seenVmos
  {
  }

  lemma AdvancesDigests(f: Forest, s: Snap, s': Snap, lev: Id -> nat, qc: QC)
    requires Advances(s, s', lev) && Digested(f, s.core, qc)
    ensures Digested(f, s'.core, qc)
  {
    hide Digested, CoreAdvances;
    DigestedLater(f, s.core, s'.core, lev, qc);
  }

  lemma AdvancesDigestsFrom(s: Snap, mid: Snap, s': Snap, lev: Id -> nat, qc: QC)
    requires CoreOk(s.core, lev) && CoreOk(s'.core, lev) && QCOk(lev, qc)
    requires Advances(s, mid, lev) && Advances(mid, s', lev) && Digested(mid.core.chain.forest, s'.core, qc)
    ensures Digested(s.core.chain.forest, s'.core, qc)
  {
    hide Digested, CoreAdvances, CoreOk;
    DigestedEarlier(s.core, mid.core, s'.core, lev, qc);
  }

  ghost predicate Cast(ballots: seq<Ballot>, vote: Vote) {
    exists i :: 0 <= i < |ballots| && ballots[i].vote == vote
  }

  lemma AdvancesRemembers(s: Snap, s': Snap, lev: Id -> nat, id: Id, vote: Vote, m: Message)
    requires Advances(s, s', lev)
    ensures Kept(s.core.chain.forest, lev, id) ==> Kept(s'.core.chain.forest, lev, id)
    ensures Cast(s.ballots, vote) ==> Cast(s'.ballots, vote)
    ensures m in s.sent ==> m in s'.sent
    ensures s.core.highQC.view <= s'.core.highQC.view && s.seenVmos <= s'.seenVmos
  {
    if Cast(s.ballots, vote) {
      var i :| 0 <= i < |s.ballots| && s.ballots[i].vote == vote;
      assert s'.ballots[i].vote == vote;
    }
  }

  ghost function MaxView(m: map<int, Block>): (h: int)
    ensures forall k :: k in m ==> m[k].view <= h
    decreases |m|
  {
    if forall k :: k !in m then 0 else
    var k :| k in m;
    var rest := m - {k};
    assert m == rest[k := m[k]];
    var h := MaxView(rest);
    if m[k].view > h then m[k].view else h
  }
}
