/** Agreement of the replicas themselves: what two of them have put on their committed-block channels. */
module ReplicaAgreement {
  import opened Types
  import opened Turns
  import opened Systems
  import opened Replicas
  import P = Protocol
  import A = Agreement

  /** The replica takes part in a run: the steps of its handlers are its acts. */
  ghost predicate TakesPart(h: HotStuff, c: P.Config, tree: Id -> P.Chain, acts: seq<Act>)
    reads h
  {
    && h.Valid() && h.byzNo == c.byzNo && Systems.Run(c, h.lev, tree, acts).Some?
    && h.self in Systems.Run(c, h.lev, tree, acts).value.replicas && StepsOf(acts, h.self) == h.trace
  }

  lemma InSystem(h: HotStuff, c: P.Config, tree: Id -> P.Chain, acts: seq<Act>)
    requires TakesPart(h, c, tree, acts) && h.lev(ZERO_ID) == 0
    ensures Systems.Run(c, h.lev, tree, acts).value.replicas[h.self] == h.Done()
  {
    hide Systems.Run, Traced;
    SystemReplays(c, h.lev, tree, acts, h.self);
    SameTrace(h.self, h.byzNo, h.lev, h.trace, h.Done(), Systems.Run(c, h.lev, tree, acts).value.replicas[h.self]);
  }

  /** Any two blocks that two replicas taking part in one run have delivered lie on one branch. */
  lemma HandlersAgree(h: HotStuff, h': HotStuff, c: P.Config, tree: Id -> P.Chain, acts: seq<Act>, x: Block, y: Block)
    requires P.ValidConfig(c) && h.lev == h'.lev && Ideal(tree, h.lev)
    requires TakesPart(h, c, tree, acts) && TakesPart(h', c, tree, acts)
    requires Delivered(h.Done(), x) && Delivered(h'.Done(), y)
    ensures A.Descends(tree(x.id), tree(y.id)) || A.Descends(tree(y.id), tree(x.id))
  {
    hide Systems.Run, HotStuff.Valid, Delivered, A.Descends;
    InSystem(h, c, tree, acts);
    InSystem(h', c, tree, acts);
    ReplicasAgree(c, h.lev, tree, acts, h.self, x, h'.self, y);
  }
}
