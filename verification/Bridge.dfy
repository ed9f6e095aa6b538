/** The rules a replica evaluates on its stored blocks are the rules of the protocol steps. */
module Bridge {
  import opened Types
  import opened Forests
  import opened Chains
  import opened Rules
  import P = Protocol

  /** Every stored block is stored under the chain its id stands for. */
  ghost predicate Represents(f: Forest, tree: Id -> P.Chain) {
    forall id :: f.Full(id) ==> tree(id) == P.Node(tree(f.vertices[id].vertex.value.prevId), f.vertices[id].vertex.value.view, id)
  }

  lemma StoredNode(f: Forest, tree: Id -> P.Chain, id: Id)
    requires Represents(f, tree) && f.GetVertex(id).Some?
    ensures tree(id) == P.Node(tree(f.GetVertex(id).value.prevId), f.GetVertex(id).value.view, id)
  {
    assert f.Full(id);
  }

  /** The local voting rule approves exactly what the protocol allows, whenever the parent is stored. */
  lemma VotingRuleMatches(f: Forest, lev: Id -> nat, tree: Id -> P.Chain, preferredView: View, b: Block)
    requires Levels(f, lev) && Rootless(f) && Represents(f, tree) && f.Has(b)
    requires GetParentBlock(f, b.id).Some?
    ensures tree(b.id).Node?
    ensures VotingRule(f, preferredView, b) == Approve <==> P.VoteAllowed(preferredView, tree(b.id))
    ensures P.Rising(tree(b.id))
  {
    StoredParent(f, lev, b.id);
    StoredNode(f, tree, b.id);
    StoredNode(f, tree, b.prevId);
  }

  /** The local lock update is the protocol's, whenever it does not fail. */
  lemma LockMatches(f: Forest, lev: Id -> nat, tree: Id -> P.Chain, preferredView: View, qc: QC)
    requires Levels(f, lev) && Rootless(f) && Represents(f, tree) && QCOk(lev, qc)
    requires tree(qc.blockId).View() == lev(qc.blockId)
    requires NextPreferred(f, preferredView, qc).Some?
    ensures NextPreferred(f, preferredView, qc).value == P.LockAfter(preferredView, tree(qc.blockId))
  {
    if qc.view > 2 {
      StoredParent(f, lev, qc.blockId);
      StoredNode(f, tree, qc.blockId);
      StoredNode(f, tree, GetParentBlock(f, qc.blockId).value.id);
    }
  }

  /** The local commit rule picks a block exactly when the certified chain ends in a protocol three-chain whose
      three blocks are stored, and it picks the grandparent. */
  lemma CommitRuleMatches(f: Forest, lev: Id -> nat, tree: Id -> P.Chain, qc: QC)
    requires Levels(f, lev) && Rootless(f) && Represents(f, tree) && QCOk(lev, qc) && qc.view >= 3
    requires GetParentBlock(f, qc.blockId).Some? && GetParentBlock(f, GetParentBlock(f, qc.blockId).value.id).Some?
    ensures CommitRule(f, qc).Some? <==> P.ThreeChain(tree(qc.blockId))
    ensures CommitRule(f, qc).Some? ==> tree(CommitRule(f, qc).value.id) == tree(qc.blockId).parent.parent
  {
    var p := GetParentBlock(f, qc.blockId).value;
    StoredParent(f, lev, qc.blockId);
    StoredParent(f, lev, p.id);
    StoredNode(f, tree, qc.blockId);
    StoredNode(f, tree, p.id);
    StoredNode(f, tree, GetParentBlock(f, p.id).value.id);
  }

  /** Processing a certificate takes the protocol's ProcessQC step: the same lock, and the last committed view
      moves only to the grandparent of a three-chain. */
  lemma CertificateIsProtocolStep(c: Core, lev: Id -> nat, tree: Id -> P.Chain, qc: QC, curView: View)
    requires CoreOk(c, lev) && Represents(c.chain.forest, tree) && QCOk(lev, qc)
    requires tree(qc.blockId).View() == lev(qc.blockId)
    requires ProcessCertificate(c, qc, curView).Applied?
    ensures var b, c' := tree(qc.blockId), ProcessCertificate(c, qc, curView).core;
      && c'.preferredView == P.LockAfter(c.preferredView, b)
      && (c'.chain.forest.lowest != c.chain.forest.lowest ==> P.ThreeChain(b) && c'.chain.forest.lowest == b.parent.parent.view)
      && Represents(c'.chain.forest, tree)
  {
    hide Good, Levels, Rootless, CommitBlock, Ordered, Represents;
    var f := c.chain.forest;
    GoodIndexes(f, lev);
    LockMatches(f, lev, tree, c.preferredView, qc);
    if qc.view >= 3 && CommitRule(f, qc).Some? {
      var g := CommitRule(f, qc).value;
      CommitRuleMatches(f, lev, tree, qc);
      StoredNode(f, tree, g.id) by {
        StoredParent(f, lev, qc.blockId);
        StoredParent(f, lev, GetParentBlock(f, qc.blockId).value.id);
      }
      NextPreferredIsOrdered(c, lev, qc);
      if CommitBlock(c.chain, g.id, curView).Done? {
        CommitShape(c.chain, g.id, curView);
        RestrictRepresents(f, tree, g.view);
      }
    }
  }

  lemma RestrictRepresents(f: Forest, tree: Id -> P.Chain, low: nat)
    requires Represents(f, tree)
    ensures Represents(Restrict(f, low), tree)
  {
    forall id | Restrict(f, low).Full(id) ensures f.Full(id) {}
  }
}
