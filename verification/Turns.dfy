/** The elementary steps a replica's handlers are made of, and what a sequence of them leads to. */
module Turns {
  import opened Types
  import opened Forests
  import opened Commits
  import opened Chains
  import opened Collectors
  import opened Rules

  /** A vote cast: the block, its stored parent's view, and the lock and the last committed view at that moment. */
  datatype Ballot = Ballot(vote: Vote, parent: Option<View>, preferredView: View, committedView: View)

  /** Taking note of a certificate, processing it, storing a block, counting a vote, voting for a block. */
  datatype Step =
    | NoteQC(qc: QC)
    | LearnQC(qc: QC, curView: View)
    | PutBlock(block: Block)
    | CountVote(vote: Vote)
    | VoteFor(block: Block)

  /** What the steps work on: the core, the batches delivered and the votes cast. */
  datatype Progress = Progress(core: Core, committed: seq<seq<Block>>, ballots: seq<Ballot>)

  const START := Progress(Core(EMPTY_CHAIN, 0, QC(0, ZERO_ID, 0, [], [])), [], [])

  /** The channel after one more commit; an empty batch sends nothing. */
  function Sent(batches: seq<seq<Block>>, batch: seq<Block>): seq<seq<Block>> {
    if batch == [] then batches else batches + [batch]
  }

  function BallotFor(self: NodeId, c: Core, b: Block): Ballot {
    var parent := GetParentBlock(c.chain.forest, b.id);
    Ballot(Vote(b.view, self, b.id, 0), if parent.Some? then Some(parent.value.view) else None,
           c.preferredView, c.chain.forest.lowest)
  }

  /** A step's effect; None if it crashes, or votes without approval. */
  function Perform(self: NodeId, byzNo: nat, p: Progress, step: Step): Option<Progress>
    requires Descending(p.core.chain.forest)
  {
    match step
    case NoteQC(qc) => Some(p.(core := p.core.(highQC := HigherQC(p.core.highQC, qc))))
    case LearnQC(qc, curView) => (
      match ProcessCertificate(p.core, qc, curView)
      case Crashes => None
      case Buffered => Some(p)
      case Applied(core, committed, _) => Some(p.(core := core, committed := Sent(p.committed, committed))))
    case PutBlock(b) => Some(p.(core := p.core.(chain := AddBlock(p.core.chain, b))))
    case CountVote(vote) =>
      Some(p.(core := p.core.(chain := p.core.chain.(
        votes := Collect(p.core.chain.votes, byzNo * 2 + 1, vote.blockId, vote.voter, vote)))))
    case VoteFor(b) =>
      if VotingRule(p.core.chain.forest, p.core.preferredView, b) == Approve
      then Some(p.(ballots := p.ballots + [BallotFor(self, p.core, b)])) else None
  }

  ghost predicate StepOk(lev: Id -> nat, step: Step) {
    match step
    case NoteQC(qc) => QCOk(lev, qc)
    case LearnQC(qc, _) => QCOk(lev, qc)
    case PutBlock(b) => BlockOk(lev, b) && b.qc.Some?
    case CountVote(_) => true
    case VoteFor(b) => BlockOk(lev, b) && b.qc.Some?
  }

  ghost predicate AllOk(lev: Id -> nat, trace: seq<Step>) {
    forall i :: 0 <= i < |trace| ==> StepOk(lev, trace[i])
  }

  /** Every step keeps the forest's indexes and the order of views. */
  lemma PerformKeeps(self: NodeId, byzNo: nat, lev: Id -> nat, p: Progress, step: Step)
    requires CoreOk(p.core, lev) && StepOk(lev, step) && Perform(self, byzNo, p, step).Some?
    ensures CoreOk(Perform(self, byzNo, p, step).value.core, lev)
  {
    hide Good, Levels, LevelIndex, Rootless, Ordered, ProcessCertificate, AddVertex, Fits, Descending;
    match step {
      case NoteQC(qc) => RaisedHighQC(p.core, lev, qc);
      case LearnQC(qc, curView) =>
        if ProcessCertificate(p.core, qc, curView).Applied? { CertificateKeepsOrder(p.core, lev, qc, curView); }
      case PutBlock(b) => AddKeepsCore(p.core, lev, b);
      case _ =>
    }
  }

  /** What a sequence of steps leads to. */
  ghost function Replay(self: NodeId, byzNo: nat, lev: Id -> nat, trace: seq<Step>): (p: Option<Progress>)
    requires lev(ZERO_ID) == 0 && AllOk(lev, trace)
    ensures p.Some? ==> CoreOk(p.value.core, lev)
  {
    if trace == [] then StartIsOk(lev); Some(START)
    else match Replay(self, byzNo, lev, trace[..|trace| - 1])
      case None => None
      case Some(p) =>
        CoreDescends(p.core, lev);
        var next := Perform(self, byzNo, p, trace[|trace| - 1]);
        if next.Some? then PerformKeeps(self, byzNo, lev, p, trace[|trace| - 1]); next else None
  }

  lemma StartIsOk(lev: Id -> nat)
    requires lev(ZERO_ID) == 0
    ensures CoreOk(START.core, lev)
  {
  }

  lemma CoreDescends(c: Core, lev: Id -> nat)
    requires CoreOk(c, lev)
    ensures Descending(c.chain.forest)
  {
  }

  /** The steps of the trace are in order and lead to this progress. */
  ghost predicate Traced(self: NodeId, byzNo: nat, lev: Id -> nat, trace: seq<Step>, p: Progress) {
    lev(ZERO_ID) == 0 && AllOk(lev, trace) && Replay(self, byzNo, lev, trace) == Some(p)
  }

  lemma TraceStarts(self: NodeId, byzNo: nat, lev: Id -> nat)
    requires lev(ZERO_ID) == 0
    ensures Traced(self, byzNo, lev, [], START)
  {
  }

  lemma TraceGrows(self: NodeId, byzNo: nat, lev: Id -> nat, trace: seq<Step>, p: Progress, step: Step)
    requires Traced(self, byzNo, lev, trace, p) && StepOk(lev, step) && Descending(p.core.chain.forest)
    requires Perform(self, byzNo, p, step).Some?
    ensures Traced(self, byzNo, lev, trace + [step], Perform(self, byzNo, p, step).value)
  {
    hide Perform, StepOk, CoreOk, Descending;
    assert (trace + [step])[..|trace|] == trace;
  }

  lemma Regroup(a: seq<Step>, b: seq<Step>, c: seq<Step>)
    ensures a + b + c == a + (b + c)
  {
  }

  /** Every prefix of a trace leads somewhere. */
  lemma {:induction false} PrefixTraced(self: NodeId, byzNo: nat, lev: Id -> nat, trace: seq<Step>, rest: seq<Step>, p': Progress)
    returns (p: Progress)
    requires Traced(self, byzNo, lev, trace + rest, p')
    ensures Traced(self, byzNo, lev, trace, p)
    decreases |rest|
  {
    if rest == [] {
      assert trace + rest == trace;
      p := p';
    } else {
      var before := rest[..|rest| - 1];
      assert (trace + rest)[..|trace + rest| - 1] == trace + before;
      hide CoreOk, Perform, StepOk;
      p := PrefixTraced(self, byzNo, lev, trace, before, Replay(self, byzNo, lev, trace + before).value);
    }
  }

  /** The first of several further steps, and what it leads to. */
  lemma Peel(self: NodeId, byzNo: nat, lev: Id -> nat, trace: seq<Step>, p: Progress, step: Step, rest: seq<Step>, p': Progress)
    returns (next: Progress)
    requires Traced(self, byzNo, lev, trace, p) && Traced(self, byzNo, lev, trace + ([step] + rest), p')
    ensures Descending(p.core.chain.forest) && Perform(self, byzNo, p, step) == Some(next)
    ensures Traced(self, byzNo, lev, trace + [step], next) && Traced(self, byzNo, lev, trace + [step] + rest, p')
  {
    Regroup(trace, [step], rest);
    next := PrefixTraced(self, byzNo, lev, trace + [step], rest, p');
    hide Perform, StepOk;
    assert (trace + [step])[..|trace|] == trace;
  }

  /** A block's turn in which the certificate commits nothing: afterwards exactly that block is added to the forest. */
  lemma TurnStores(self: NodeId, byzNo: nat, lev: Id -> nat, trace: seq<Step>, p: Progress, block: Block,
                   learn: seq<Step>, vote: seq<Step>, p': Progress)
    requires block.qc.Some? && |learn| <= 1 && |vote| <= 1
    requires forall step :: step in learn ==> step.LearnQC? && step.qc == block.qc.value
    requires forall step :: step in vote ==> step.VoteFor?
    requires learn == [] || block.qc.value.view < 3 || CommitRule(p.core.chain.forest, block.qc.value).None?
    requires Traced(self, byzNo, lev, trace, p)
    requires Traced(self, byzNo, lev, trace + (([NoteQC(block.qc.value)] + learn) + ([PutBlock(block)] + vote)), p')
    ensures p'.core.chain.forest == AddVertex(p.core.chain.forest, block)
    ensures learn == [] ==> p'.core.preferredView == p.core.preferredView
  {
    hide Traced, CommitRule, NextPreferred, Descending, AddVertex, VotingRule;
    var noted, learned, t := p, p, trace + [NoteQC(block.qc.value)];
    Regroup([NoteQC(block.qc.value)], learn, [PutBlock(block)] + vote);
    noted := Peel(self, byzNo, lev, trace, p, NoteQC(block.qc.value), learn + ([PutBlock(block)] + vote), p');
    learned := noted;
    if learn == [] {
      assert learn + ([PutBlock(block)] + vote) == [PutBlock(block)] + vote;
    } else {
      assert learn == [learn[0]] && learn[0] in learn;
      learned := Peel(self, byzNo, lev, t, noted, learn[0], [PutBlock(block)] + vote, p');
      t := t + [learn[0]];
    }
    var stored := Peel(self, byzNo, lev, t, learned, PutBlock(block), vote, p');
    VoteStores(self, byzNo, lev, t + [PutBlock(block)], stored, vote, p');
  }

  lemma VoteStores(self: NodeId, byzNo: nat, lev: Id -> nat, trace: seq<Step>, p: Progress, vote: seq<Step>, p': Progress)
    requires |vote| <= 1 && forall step :: step in vote ==> step.VoteFor?
    requires Traced(self, byzNo, lev, trace, p) && Traced(self, byzNo, lev, trace + vote, p')
    ensures p'.core == p.core
  {
    hide VotingRule, Traced;
    if vote == [] {
      assert trace + vote == trace;
      SameTrace(self, byzNo, lev, trace, p, p');
    } else {
      assert vote == [vote[0]] + [] && vote[0] in vote;
      var next := Peel(self, byzNo, lev, trace, p, vote[0], [], p');
      assert trace + [vote[0]] + [] == trace + [vote[0]];
      SameTrace(self, byzNo, lev, trace + [vote[0]], next, p');
    }
  }

  /** A trace leads to one progress only. */
  lemma SameTrace(self: NodeId, byzNo: nat, lev: Id -> nat, trace: seq<Step>, p: Progress, p': Progress)
    requires Traced(self, byzNo, lev, trace, p) && Traced(self, byzNo, lev, trace, p')
    ensures p == p'
  {
  }
}
