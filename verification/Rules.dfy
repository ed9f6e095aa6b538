/** The replica's voting, locking and commit rules on its own block chain, and the order of views they keep. */
module Rules {
  import opened Types
  import opened Forests
  import opened Commits
  import opened Chains

  /** The part of a replica's state the rules read and write. */
  datatype Core = Core(chain: ChainState, preferredView: View, highQC: QC)

  datatype Verdict = Approve | Reject | CannotDecide

  function VotingRule(f: Forest, preferredView: View, b: Block): Verdict {
    if b.view <= 2 then Approve
    else match GetParentBlock(f, b.id)
      case None => CannotDecide
      case Some(p) => if p.view < preferredView then Reject else Approve
  }

  /** The grandparent a certificate commits, if it ends three consecutive views. */
  function CommitRule(f: Forest, qc: QC): Option<Block> {
    match GetParentBlock(f, qc.blockId)
    case None => None
    case Some(p) =>
      match GetParentBlock(f, p.id)
      case None => None
      case Some(g) => if g.view + 1 == p.view && p.view + 1 == qc.view then Some(g) else None
  }

  /** The lock after a certificate; None when its block or that block's parent is not stored. */
  function NextPreferred(f: Forest, preferredView: View, qc: QC): Option<View> {
    if qc.view <= 2 then Some(preferredView)
    else if f.GetVertex(qc.blockId).None? then None
    else match GetParentBlock(f, qc.blockId)
      case None => None
      case Some(p) => Some(if p.view > preferredView then p.view else preferredView)
  }

  function HigherQC(a: QC, b: QC): QC {
    if b.view > a.view then b else a
  }

  /** What processing a verified certificate comes to. */
  datatype CertOutcome = Buffered | Crashes | Applied(core: Core, committed: seq<Block>, forked: seq<Block>)

  function ProcessCertificate(c: Core, qc: QC, curView: View): CertOutcome
    requires Descending(c.chain.forest)
  {
    match NextPreferred(c.chain.forest, c.preferredView, qc)
    case None => Buffered
    case Some(preferred) =>
      var c' := Core(c.chain, preferred, HigherQC(c.highQC, qc));
      if qc.view < 3 then Applied(c', [], [])
      else match CommitRule(c.chain.forest, qc)
        case None => Applied(c', [], [])
        case Some(g) =>
          match CommitBlock(c.chain, g.id, curView)
          case Panics => Crashes
          case Done(chain, committed, forked) => Applied(c'.(chain := chain), committed, forked)
          case _ => Applied(c', [], [])
  }

  /** A certificate names its block's own view. */
  ghost predicate QCOk(lev: Id -> nat, qc: QC) {
    qc.view == lev(qc.blockId)
  }

  /** A block that carries a certificate carries its parent's, and lies above it. */
  ghost predicate BlockOk(lev: Id -> nat, b: Block) {
    b.qc.Some? ==> b.view > 0 && Fits(lev, b) && b.prevId == b.qc.value.blockId && QCOk(lev, b.qc.value)
  }

  /** The last committed view is below the lock, and the lock below the highest certificate. */
  ghost predicate Ordered(lowest: nat, preferredView: View, highView: View) {
    && (lowest == 0 || lowest < preferredView)
    && (preferredView < highView || (preferredView == 0 && highView == 0))
  }

  /** No block of view 0 is stored. */
  ghost predicate Rootless(f: Forest) {
    forall id :: f.Full(id) ==> f.vertices[id].vertex.value.view > 0
  }

  ghost predicate CoreOk(c: Core, lev: Id -> nat) {
    && Good(c.chain.forest, lev) && Descending(c.chain.forest) && Rootless(c.chain.forest)
    && QCOk(lev, c.highQC) && Ordered(c.chain.forest.lowest, c.preferredView, c.highQC.view)
  }

  lemma StoredParent(f: Forest, lev: Id -> nat, id: Id)
    requires Levels(f, lev) && Rootless(f)
    ensures f.GetVertex(id).Some? ==> f.GetVertex(id).value.id == id && f.GetVertex(id).value.view == lev(id)
    ensures GetParentBlock(f, id).Some? ==>
      var p := GetParentBlock(f, id).value;
      f.Has(p) && p.id == f.GetVertex(id).value.prevId && 0 < p.view < lev(id) && p.view == lev(p.id)
  {
    if f.GetVertex(id).Some? {
      assert f.Full(id);
      if GetParentBlock(f, id).Some? { assert f.Full(f.GetVertex(id).value.prevId); }
    }
  }

  lemma NextPreferredIsOrdered(c: Core, lev: Id -> nat, qc: QC)
    requires Levels(c.chain.forest, lev) && Rootless(c.chain.forest) && QCOk(lev, qc)
    requires Ordered(c.chain.forest.lowest, c.preferredView, c.highQC.view)
    requires NextPreferred(c.chain.forest, c.preferredView, qc).Some?
    ensures var preferred := NextPreferred(c.chain.forest, c.preferredView, qc).value;
      preferred >= c.preferredView && Ordered(c.chain.forest.lowest, preferred, HigherQC(c.highQC, qc).view)
    ensures qc.view >= 3 && CommitRule(c.chain.forest, qc).Some? ==>
      var g := CommitRule(c.chain.forest, qc).value;
      c.chain.forest.Has(g) && 0 < g.view < NextPreferred(c.chain.forest, c.preferredView, qc).value
  {
    StoredParent(c.chain.forest, lev, qc.blockId);
    if GetParentBlock(c.chain.forest, qc.blockId).Some? {
      StoredParent(c.chain.forest, lev, GetParentBlock(c.chain.forest, qc.blockId).value.id);
    }
  }

  lemma RestrictRootless(f: Forest, low: nat)
    requires Rootless(f)
    ensures Rootless(Restrict(f, low))
  {
    forall id | Restrict(f, low).Full(id) ensures Restrict(f, low).vertices[id].vertex.value.view > 0 {
      assert f.Full(id);
    }
  }

  /** What a completed commit leaves of the forest. */
  lemma CommitShape(s: ChainState, id: Id, view: View)
    requires Descending(s.forest) && CommitBlock(s, id, view).Done?
    ensures var b := s.forest.GetVertex(id).value;
      && s.forest.GetVertex(id).Some? && s.forest.Has(b) && b.view >= s.forest.lowest
      && CommitBlock(s, id, view).state.forest == Restrict(s.forest, b.view)
      && (forall k :: k in CommitBlock(s, id, view).state.votes ==> k in s.votes && CommitBlock(s, id, view).state.votes[k] == s.votes[k])
      && CommitBlock(s, id, view).committed == CommittedPath(s.forest, b)
  {
  }

  /** View order: every processed certificate keeps the last committed view below the lock and the lock below
      the highest certificate. */
  lemma CertificateKeepsOrder(c: Core, lev: Id -> nat, qc: QC, curView: View)
    requires CoreOk(c, lev) && QCOk(lev, qc) && ProcessCertificate(c, qc, curView).Applied?
    ensures var c' := ProcessCertificate(c, qc, curView).core;
      && CoreOk(c', lev) && c'.preferredView >= c.preferredView && c'.highQC.view >= c.highQC.view
      && c'.chain.forest.lowest >= c.chain.forest.lowest
  {
    hide Good, Levels, LevelIndex, Rootless, Descending, CommitBlock, Ordered;
    GoodIndexes(c.chain.forest, lev);
    NextPreferredIsOrdered(c, lev, qc);
    if qc.view >= 3 && CommitRule(c.chain.forest, qc).Some? {
      var g := CommitRule(c.chain.forest, qc).value;
      if CommitBlock(c.chain, g.id, curView).Done? {
        var preferred := NextPreferred(c.chain.forest, c.preferredView, qc).value;
        CommitShape(c.chain, g.id, curView);
        CommitKeepsGood(c.chain, lev, g.id, curView);
        GoodIndexes(CommitBlock(c.chain, g.id, curView).state.forest, lev);
        GoodDescends(CommitBlock(c.chain, g.id, curView).state.forest, lev);
        RestrictRootless(c.chain.forest, g.view);
        LowerIsOrdered(c.chain.forest.lowest, g.view, preferred, HigherQC(c.highQC, qc).view);
      }
    }
  }

  lemma LowerIsOrdered(lowest: nat, low: nat, preferredView: View, highView: View)
    requires Ordered(lowest, preferredView, highView) && low < preferredView
    ensures Ordered(low, preferredView, highView)
  {
  }

  lemma RaisedHighQC(c: Core, lev: Id -> nat, qc: QC)
    requires CoreOk(c, lev) && QCOk(lev, qc)
    ensures CoreOk(c.(highQC := HigherQC(c.highQC, qc)), lev)
  {
  }

  lemma AddRootless(f: Forest, lev: Id -> nat, b: Block)
    requires Levels(f, lev) && Rootless(f) && Fits(lev, b) && b.view > 0
    ensures Rootless(AddVertex(f, b))
  {
    if b.view >= f.lowest && !f.Full(b.id) {
      AddVertexAdds(f, lev, b);
      var r := AddVertex(f, b);
      forall id | r.Full(id) ensures r.vertices[id].vertex.value.view > 0 {
        if id != b.id { assert f.Full(id); }
      }
    }
  }

  lemma AddKeepsCore(c: Core, lev: Id -> nat, b: Block)
    requires CoreOk(c, lev) && Fits(lev, b) && b.view > 0
    ensures CoreOk(c.(chain := AddBlock(c.chain, b)), lev)
    ensures AddBlock(c.chain, b).forest.lowest == c.chain.forest.lowest
  {
    hide Good, Levels, LevelIndex, Rootless, Descending, AddVertex, Ordered, Fits;
    GoodIndexes(c.chain.forest, lev);
    AddGood(c.chain.forest, lev, b);
    AddRootless(c.chain.forest, lev, b);
    GoodIndexes(AddVertex(c.chain.forest, b), lev);
    GoodDescends(AddVertex(c.chain.forest, b), lev);
  }

  /** An approved block above view 2 has its parent stored strictly above the last committed view. */
  lemma ApprovedParentIsAboveCommitted(c: Core, lev: Id -> nat, b: Block)
    requires CoreOk(c, lev) && b.view > 2 && VotingRule(c.chain.forest, c.preferredView, b) == Approve
    ensures GetParentBlock(c.chain.forest, b.id).Some?
    ensures GetParentBlock(c.chain.forest, b.id).value.view > c.chain.forest.lowest
  {
    hide Good, Descending;
    GoodIndexes(c.chain.forest, lev);
    StoredParent(c.chain.forest, lev, b.id);
  }

  /** An honest proposal extends the block of the highest certificate. */
  function Proposal(c: Core, id: Id, view: View, self: NodeId): Block {
    Block(id, view, c.highQC.blockId, Some(c.highQC), self)
  }

  /** A proposal whose certified parent is stored passes the proposer's own voting rule once it is added. */
  lemma ProposalIsApproved(c: Core, lev: Id -> nat, id: Id, view: View, self: NodeId)
    requires CoreOk(c, lev) && lev(id) == view > c.highQC.view && c.chain.forest.GetVertex(id).None?
    requires view <= 2 || c.chain.forest.GetVertex(c.highQC.blockId).Some?
    ensures var b := Proposal(c, id, view, self);
      BlockOk(lev, b) && VotingRule(AddBlock(c.chain, b).forest, c.preferredView, b) == Approve
  {
    hide Good, Descending;
    if view <= 2 { return; }
    GoodIndexes(c.chain.forest, lev);
    var b, f := Proposal(c, id, view, self), c.chain.forest;
    StoredParent(f, lev, c.highQC.blockId);
    AddVertexAdds(f, lev, b);
    hide AddVertex;
    assert AddVertex(f, b).GetVertex(id) == Some(b);
    assert AddVertex(f, b).GetVertex(c.highQC.blockId) == f.GetVertex(c.highQC.blockId);
  }

  /** Processing a certificate crashes exactly when its commit rule fires and the prune walk from the committed view
      meets a placeholder; if no level that holds a block starts with one, in particular with one container per level,
      it never does. */
  lemma CrashCondition(c: Core, lev: Id -> nat, qc: QC, curView: View)
    requires CoreOk(c, lev) && QCOk(lev, qc)
    ensures ProcessCertificate(c, qc, curView).Crashes? <==>
      && NextPreferred(c.chain.forest, c.preferredView, qc).Some? && qc.view >= 3
      && CommitRule(c.chain.forest, qc).Some? && !WalkDefined(c.chain.forest, CommitRule(c.chain.forest, qc).value.view)
    ensures Fronted(c.chain.forest) || OnePerLevel(c.chain.forest) ==> !ProcessCertificate(c, qc, curView).Crashes?
  {
    hide Good, Levels, LevelIndex, Rootless, WalkDefined, OnePerLevel, Ordered, Fronted;
    GoodIndexes(c.chain.forest, lev);
    if OnePerLevel(c.chain.forest) { UniqueIsFronted(c.chain.forest); }
    if NextPreferred(c.chain.forest, c.preferredView, qc).Some? && qc.view >= 3 && CommitRule(c.chain.forest, qc).Some? {
      var g := CommitRule(c.chain.forest, qc).value;
      NextPreferredIsOrdered(c, lev, qc);
      NeverRefused(c.chain, lev, g.id, curView);
      if Fronted(c.chain.forest) { FrontedWalks(c.chain.forest, lev, g); }
    }
  }

  /** The forest of a replica that has crashed: some certificate commits a block from whose level the prune walk meets
      a placeholder. */
  ghost predicate Stuck(f: Forest, lev: Id -> nat) {
    Good(f, lev) && Descending(f) && Rootless(f) && exists qc :: Strands(f, lev, qc)
  }

  ghost predicate Strands(f: Forest, lev: Id -> nat, qc: QC)
    requires Descending(f)
  {
    QCOk(lev, qc) && CommitRule(f, qc).Some? && !WalkDefined(f, CommitRule(f, qc).value.view)
  }

  lemma CrashIsStuck(c: Core, lev: Id -> nat, qc: QC, curView: View)
    requires CoreOk(c, lev) && QCOk(lev, qc) && ProcessCertificate(c, qc, curView).Crashes?
    ensures Stuck(c.chain.forest, lev)
  {
    hide ProcessCertificate, Good, WalkDefined, Rootless, CommitRule;
    CrashCondition(c, lev, qc, curView);
    assert Strands(c.chain.forest, lev, qc);
  }

  /** No forest in which levels that hold blocks start with one is stuck; nor is one with unique levels. */
  lemma StuckIsUnfronted(f: Forest, lev: Id -> nat)
    requires Stuck(f, lev)
    ensures !Fronted(f) && !OnePerLevel(f)
  {
    hide WalkDefined, LevelIndex, Levels, ParentIndex, ChildIndex, Rootless, OnePerLevel, Fronted;
    var qc :| Strands(f, lev, qc);
    var p, g := GetParentBlock(f, qc.blockId).value, CommitRule(f, qc).value;
    StoredParent(f, lev, qc.blockId);
    StoredParent(f, lev, p.id);
    if OnePerLevel(f) { UniqueIsFronted(f); }
    if Fronted(f) { FrontedWalks(f, lev, g); }
  }

  // What the rules come to, said of the stored blocks alone.

  /** The block and its parent are stored. */
  predicate Anchored(f: Forest, id: Id) {
    f.GetVertex(id).Some? && f.GetVertex(f.GetVertex(id).value.prevId).Some?
  }

  /** A certificate is early, or its block and that block's parent are stored. */
  predicate Applies(f: Forest, qc: QC) {
    qc.view <= 2 || Anchored(f, qc.blockId)
  }

  /** The certificate ends a stored chain of three consecutive views, and g is its lowest block. */
  ghost predicate Targets(f: Forest, qc: QC, g: Block) {
    && qc.view >= 3 && Anchored(f, qc.blockId)
    && var p := f.GetVertex(f.GetVertex(qc.blockId).value.prevId).value;
    f.GetVertex(p.prevId) == Some(g) && g.view + 1 == p.view && p.view + 1 == qc.view
  }

  /** Lock and highest certificate after an applied certificate. */
  ghost predicate Raises(c: Core, c': Core, qc: QC) {
    && c'.highQC == (if qc.view > c.highQC.view then qc else c.highQC)
    && (qc.view <= 2 ==> c'.preferredView == c.preferredView)
    && (qc.view > 2 && Anchored(c.chain.forest, qc.blockId) ==>
          var parent := c.chain.forest.GetVertex(c.chain.forest.GetVertex(qc.blockId).value.prevId).value;
          c'.preferredView == if parent.view > c.preferredView then parent.view else c.preferredView)
  }

  /** Everything an applied certificate does. */
  ghost predicate Effect(c: Core, c': Core, batch: seq<Block>, forked: seq<Block>, qc: QC)
    requires Descending(c.chain.forest)
  {
    && Raises(c, c', qc)
    && ((forall g :: !Targets(c.chain.forest, qc, g)) ==> c'.chain == c.chain && batch == [] && forked == [])
    && (forall g :: Targets(c.chain.forest, qc, g) && c.chain.forest.Has(g) ==> Finalizes(c.chain, c'.chain, g, batch, forked))
  }

  lemma TargetIs(f: Forest, lev: Id -> nat, qc: QC, g: Block)
    requires Levels(f, lev)
    ensures qc.view >= 3 ==> (CommitRule(f, qc) == Some(g) <==> Targets(f, qc, g))
    ensures Targets(f, qc, g) ==> f.Has(g) && CommitRule(f, qc) == Some(g)
  {
    if f.GetVertex(qc.blockId).Some? {
      assert f.Full(qc.blockId);
      if Anchored(f, qc.blockId) {
        var p := f.GetVertex(f.GetVertex(qc.blockId).value.prevId).value;
        assert f.Full(f.GetVertex(qc.blockId).value.prevId);
        if f.GetVertex(p.prevId).Some? { assert f.Full(p.prevId); }
      }
    }
  }

  lemma RaisesNow(c: Core, qc: QC, curView: View)
    requires Descending(c.chain.forest)
    ensures ProcessCertificate(c, qc, curView).Buffered? <==> !Applies(c.chain.forest, qc)
    ensures ProcessCertificate(c, qc, curView).Applied? ==> Raises(c, ProcessCertificate(c, qc, curView).core, qc)
  {
    hide CommitBlock, CommitRule, Descending;
  }

  /** A verified certificate is buffered if and only if it is past view 2 and its block or that block's parent is missing; an
      applied one has exactly its effect. */
  lemma CertificateMeaning(c: Core, lev: Id -> nat, qc: QC, curView: View)
    requires CoreOk(c, lev) && QCOk(lev, qc)
    ensures ProcessCertificate(c, qc, curView).Buffered? <==> !Applies(c.chain.forest, qc)
    ensures var r := ProcessCertificate(c, qc, curView);
      r.Applied? ==> Effect(c, r.core, r.committed, r.forked, qc)
  {
    hide Good, Levels, LevelIndex, Rootless, Descending, Ordered, CommitBlock, CommitRule, NextPreferred;
    hide Targets, Finalizes, Raises, Applies, Anchored;
    RaisesNow(c, qc, curView);
    GoodIndexes(c.chain.forest, lev);
    var f, r := c.chain.forest, ProcessCertificate(c, qc, curView);
    if r.Applied? {
      EarlyTargetsNothing(f, qc);
      forall g ensures (qc.view >= 3 ==> (CommitRule(f, qc) == Some(g) <==> Targets(f, qc, g))) && (Targets(f, qc, g) ==> f.Has(g)) {
        TargetIs(f, lev, qc, g);
      }
      if qc.view >= 3 && CommitRule(f, qc).Some? {
        var g := CommitRule(f, qc).value;
        CommitEnds(c.chain, lev, g, curView);
        if CommitBlock(c.chain, g.id, curView).Done? { CommitFinalizes(c.chain, lev, g, curView); }
      }
    }
  }

  lemma EarlyTargetsNothing(f: Forest, qc: QC)
    ensures qc.view < 3 ==> forall g :: !Targets(f, qc, g)
  {
  }

  /** The commit of a stored block panics or is done. */
  lemma CommitEnds(s: ChainState, lev: Id -> nat, g: Block, view: View)
    requires LevelIndex(s.forest) && Levels(s.forest, lev) && s.forest.Has(g) && Descending(s.forest)
    ensures var r := CommitBlock(s, g.id, view); r == Panics || (r.Done? && r.state.forest.lowest == g.view)
  {
    NeverRefused(s, lev, g.id, view);
  }

  /** The voting rule, said of the stored blocks: past view 2 it approves exactly if the parent is stored at or above the lock,
      rejects exactly if it is stored below, and cannot decide exactly if block or parent is missing. */
  lemma VerdictMeaning(f: Forest, preferredView: View, b: Block)
    ensures b.view <= 2 ==> VotingRule(f, preferredView, b) == Approve
    ensures b.view > 2 ==>
      && (VotingRule(f, preferredView, b) == CannotDecide <==> !Anchored(f, b.id))
      && (Anchored(f, b.id) ==>
            var parent := f.GetVertex(f.GetVertex(b.id).value.prevId).value;
            && (VotingRule(f, preferredView, b) == Approve <==> parent.view >= preferredView)
            && (VotingRule(f, preferredView, b) == Reject <==> parent.view < preferredView))
  {
  }
}
