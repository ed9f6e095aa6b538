/** Safety of the protocol over every run: all finalized blocks remain in a single chain. */
module Agreement {
  import opened Types
  import opened QuorumSets
  import opened Protocol

  /** The lock a replica holds once it has voted for `b`. */
  function LockFrom(b: Chain): nat
    requires b.Node?
  {
    LockAfter(0, b.parent)
  }

  /** An honest vote was cast under the rules and is remembered by its caster. */
  ghost predicate VoteOk(c: Config, s: State, r: nat, b: Chain) {
    && Honest(c, s, r) && Rising(b)
    && (b.parent.Genesis? || Certified(c, s, b.parent))
    && (b.view > 2 ==> b.parent.Node?)
    && b.view <= s.locals[r].lastVotedView
    && LockFrom(b) <= s.locals[r].preferredView
  }

  /** Two votes of one honest replica: one block a view, and the later one respects the lock of the earlier. */
  ghost predicate PairOk(b: Chain, b': Chain) {
    b.Node? && b'.Node? ==>
      && (b.view == b'.view ==> b == b')
      && (b.view < b'.view && b'.view > 2 ==> b'.parent.Node? && b'.parent.view >= LockFrom(b))
  }

  ghost predicate VotesOk(c: Config, s: State) {
    && (forall b :: b in s.votes ==> Replicas(s.votes[b], c.n))
    && (forall b, r :: b in s.votes && r in s.votes[b] && r !in c.faulty ==> VoteOk(c, s, r, b))
  }

  ghost predicate PairsOk(c: Config, s: State) {
    forall b, b', r :: b in s.votes && b' in s.votes && r in s.votes[b] && r in s.votes[b'] && r !in c.faulty ==> PairOk(b, b')
  }

  /** The three-chain behind a committed block. */
  ghost predicate Backs(c: Config, s: State, b: Chain, g: Chain) {
    ThreeChain(b) && b.parent.parent == g && Certified(c, s, b)
  }

  ghost predicate CommitsOk(c: Config, s: State) {
    forall r, g :: r in s.locals && g in s.locals[r].committed ==> exists b :: Backs(c, s, b, g)
  }

  ghost predicate Inv(c: Config, s: State) {
    VotesOk(c, s) && PairsOk(c, s) && CommitsOk(c, s)
  }

  lemma VotersGrow(c: Config, s: State, r: nat, b: Chain, x: Chain)
    ensures Voters(s, x) <= Voters(AddVote(s, r, b), x)
    ensures Certified(c, s, x) ==> Certified(c, AddVote(s, r, b), x)
  {
    SubsetSize(Voters(s, x), Voters(AddVote(s, r, b), x));
  }

  lemma CertifiedStays(c: Config, s: State, step: Step, x: Chain)
    requires Enabled(c, s, step) && Certified(c, s, x)
    ensures Certified(c, Take(c, s, step), x)
  {
    if !step.ProcessQC? {
      VotersGrow(c, s, step.r, step.b, x);
      assert Take(c, s, step).votes == AddVote(s, step.r, step.b).votes;
    }
  }

  lemma VoteStaysOk(c: Config, s: State, step: Step, r: nat, b: Chain)
    requires c.remembers && c.heeds && Enabled(c, s, step) && VoteOk(c, s, r, b)
    ensures VoteOk(c, Take(c, s, step), r, b)
  {
    if b.parent.Node? { CertifiedStays(c, s, step, b.parent); }
  }

  lemma StepVotes(c: Config, s: State, step: Step)
    requires ValidConfig(c) && VotesOk(c, s) && Enabled(c, s, step)
    ensures VotesOk(c, Take(c, s, step))
  {
    var s' := Take(c, s, step);
    forall b, r | b in s'.votes && r in s'.votes[b] && r !in c.faulty ensures VoteOk(c, s', r, b) {
      if b in s.votes && r in s.votes[b] {
        VoteStaysOk(c, s, step, r, b);
      } else {
        assert step == HonestVote(r, b);
        if b.parent.Node? { CertifiedStays(c, s, step, b.parent); }
      }
    }
  }

  lemma StepPairs(c: Config, s: State, step: Step)
    requires c.remembers && c.heeds && VotesOk(c, s) && PairsOk(c, s) && Enabled(c, s, step)
    ensures PairsOk(c, Take(c, s, step))
  {
    var s' := Take(c, s, step);
    forall b, b', r | b in s'.votes && b' in s'.votes && r in s'.votes[b] && r in s'.votes[b'] && r !in c.faulty
      ensures PairOk(b, b')
    {
      var old1, old2 := r in Voters(s, b), r in Voters(s, b');
      if !old1 { assert step == HonestVote(r, b); }
      if !old2 { assert step == HonestVote(r, b'); }
      if old1 { assert VoteOk(c, s, r, b); }
      if old2 { assert VoteOk(c, s, r, b'); }
    }
  }

  lemma StepCommits(c: Config, s: State, step: Step)
    requires CommitsOk(c, s) && Enabled(c, s, step)
    ensures CommitsOk(c, Take(c, s, step))
  {
    var s' := Take(c, s, step);
    forall r, g | r in s'.locals && g in s'.locals[r].committed ensures exists b :: Backs(c, s', b, g) {
      if r in s.locals && g in s.locals[r].committed {
        var b :| Backs(c, s, b, g);
        CertifiedStays(c, s, step, b);
        assert Backs(c, s', b, g);
      } else {
        CertifiedStays(c, s, step, step.b);
        assert Backs(c, s', step.b, g);
      }
    }
  }

  lemma {:induction false} RunInv(c: Config, steps: seq<Step>)
    requires ValidConfig(c) && Run(c, steps).Some?
    ensures Inv(c, Run(c, steps).value)
  {
    if steps != [] {
      var before, step := steps[..|steps| - 1], steps[|steps| - 1];
      RunInv(c, before);
      StepVotes(c, Run(c, before).value, step);
      StepPairs(c, Run(c, before).value, step);
      StepCommits(c, Run(c, before).value, step);
    }
  }

  // Consequences of the invariant.

  /** An honest voter behind a certified block. */
  lemma HonestVoter(c: Config, s: State, b: Chain, b': Chain) returns (r: nat)
    requires ValidConfig(c) && Inv(c, s) && Certified(c, s, b) && Certified(c, s, b')
    ensures r in Voters(s, b) && r in Voters(s, b') && r !in c.faulty
    ensures VoteOk(c, s, r, b) && VoteOk(c, s, r, b') && PairOk(b, b')
  {
    r := CorrectReplicaInBoth(Voters(s, b), Voters(s, b'), c.faulty, c.n, c.byzNo);
  }

  /** One certified block per view. */
  lemma OneCertifiedPerView(c: Config, s: State, b: Chain, b': Chain)
    requires ValidConfig(c) && Inv(c, s) && Certified(c, s, b) && Certified(c, s, b') && b.view == b'.view
    ensures b == b'
  {
    var r := HonestVoter(c, s, b, b');
  }

  /** `b` is `g` or descends from it. */
  ghost predicate Descends(b: Chain, g: Chain) {
    b == g || (b.Node? && Descends(b.parent, g))
  }

  /** Every certified block at or above a committed view descends from the committed block. */
  lemma {:induction false} CertifiedDescends(c: Config, s: State, top: Chain, g: Chain, b: Chain)
    requires ValidConfig(c) && Inv(c, s) && Backs(c, s, top, g)
    requires Certified(c, s, b) && b.view >= g.view
    ensures Descends(b, g)
    decreases b.view
  {
    var p := top.parent;
    var r := HonestVoter(c, s, top, top);
    assert Certified(c, s, p);
    r := HonestVoter(c, s, p, p);
    assert Certified(c, s, g);
    if b.view == g.view {
      OneCertifiedPerView(c, s, b, g);
    } else if b.view == p.view {
      OneCertifiedPerView(c, s, b, p);
      assert Descends(p.parent, g);
    } else if b.view == top.view {
      OneCertifiedPerView(c, s, b, top);
      assert Descends(p.parent, g) && Descends(p, g);
    } else {
      r := HonestVoter(c, s, top, b);
      r := HonestVoter(c, s, b.parent, b.parent);
      assert b.parent.view >= g.view;
      CertifiedDescends(c, s, top, g, b.parent);
    }
  }

  /** Agreement: in every run, any two blocks committed by honest replicas lie on one branch. */
  lemma Agreement(c: Config, steps: seq<Step>, r: nat, g: Chain, r': nat, g': Chain)
    requires ValidConfig(c) && Run(c, steps).Some?
    requires r in Run(c, steps).value.locals && g in Run(c, steps).value.locals[r].committed
    requires r' in Run(c, steps).value.locals && g' in Run(c, steps).value.locals[r'].committed
    ensures Descends(g, g') || Descends(g', g)
  {
    var s := Run(c, steps).value;
    RunInv(c, steps);
    var top :| Backs(c, s, top, g);
    var top' :| Backs(c, s, top', g');
    CommittedIsCertified(c, s, top, g);
    CommittedIsCertified(c, s, top', g');
    if g.view <= g'.view {
      CertifiedDescends(c, s, top, g, g');
    } else {
      CertifiedDescends(c, s, top', g', g);
    }
  }

  lemma CommittedIsCertified(c: Config, s: State, top: Chain, g: Chain)
    requires ValidConfig(c) && Inv(c, s) && Backs(c, s, top, g)
    ensures Certified(c, s, g)
  {
    var r := HonestVoter(c, s, top, top);
    r := HonestVoter(c, s, top.parent, top.parent);
  }

  /** What a commit finalizes is certain: any later certificate at or above it extends it. */
  lemma CommitIsFinal(c: Config, steps: seq<Step>, r: nat, g: Chain, b: Chain)
    requires ValidConfig(c) && Run(c, steps).Some?
    requires r in Run(c, steps).value.locals && g in Run(c, steps).value.locals[r].committed
    requires Certified(c, Run(c, steps).value, b) && g.Node? && b.view >= g.view
    ensures Descends(b, g)
  {
    var s := Run(c, steps).value;
    RunInv(c, steps);
    var top :| Backs(c, s, top, g);
    CertifiedDescends(c, s, top, g, b);
  }

  // The bound on n is tight.

  ghost predicate Reachable(c: Config, s: State) {
    exists steps :: Run(c, steps) == Some(s)
  }

  lemma StepReachable(c: Config, s: State, step: Step)
    requires Reachable(c, s) && Enabled(c, s, step)
    ensures Reachable(c, Take(c, s, step))
  {
    var steps :| Run(c, steps) == Some(s);
    assert (steps + [step])[..|steps|] == steps;
    assert Run(c, steps + [step]) == Some(Take(c, s, step));
  }

  /** An early block: nothing locks on its parent's certificate. */
  ghost predicate Early(c: Config, s: State, b: Chain) {
    Rising(b) && b.parent.View() <= 2 && (b.view > 2 ==> b.parent.Node?) && (b.parent.Genesis? || Certified(c, s, b.parent))
  }

  /** Replicas lo..hi are unlocked and, if they remember, have voted in no view above `view`. */
  ghost predicate Free(c: Config, s: State, lo: nat, hi: nat, view: nat) {
    forall r :: r in Range(0, hi) && r >= lo ==>
      r in s.locals && s.locals[r].preferredView == 0 && (c.remembers ==> s.locals[r].lastVotedView <= view)
  }

  /** No vote is lost, and replicas outside lo..hi or faulty keep their local state. */
  ghost predicate Extends(c: Config, s: State, s': State, lo: nat, hi: nat) {
    && (forall x :: Voters(s, x) <= Voters(s', x))
    && (forall r :: r in s.locals ==> r in s'.locals && (r < lo || r >= hi || r in c.faulty ==> s'.locals[r] == s.locals[r]))
  }

  lemma ExtendsCertified(c: Config, s: State, s': State, lo: nat, hi: nat, b: Chain)
    requires Extends(c, s, s', lo, hi) && Certified(c, s, b)
    ensures Certified(c, s', b)
  {
    SubsetSize(Voters(s, b), Voters(s', b));
  }

  lemma OneVotes(c: Config, s: State, b: Chain, lo: nat, hi: nat, r: nat) returns (s': State)
    requires Reachable(c, s) && Early(c, s, b) && lo <= r < hi <= c.n
    requires Free(c, s, r, r + 1, b.view - 1)
    ensures Reachable(c, s') && Extends(c, s, s', lo, hi) && r in Voters(s', b) && Free(c, s', r, r + 1, b.view)
    ensures forall x :: x != r && x in s.locals ==> x in s'.locals && s'.locals[x] == s.locals[x]
  {
    hide Reachable, Run, Free, Early, Enabled, Extends;
    VoteIsEnabled(c, s, b, r);
    StepReachable(c, s, VoteStep(c, r, b));
    s' := Take(c, s, VoteStep(c, r, b));
    VoteIsTaken(c, s, b, lo, hi, r);
  }

  function VoteStep(c: Config, r: nat, b: Chain): Step {
    if r in c.faulty then FaultyVote(r, b) else HonestVote(r, b)
  }

  lemma VoteIsEnabled(c: Config, s: State, b: Chain, r: nat)
    requires Early(c, s, b) && r < c.n && Free(c, s, r, r + 1, b.view - 1)
    ensures Enabled(c, s, VoteStep(c, r, b))
  {
    hide Certified;
    assert r in Range(0, r + 1);
  }

  lemma VoteIsTaken(c: Config, s: State, b: Chain, lo: nat, hi: nat, r: nat)
    requires Early(c, s, b) && lo <= r < hi && Free(c, s, r, r + 1, b.view - 1) && Enabled(c, s, VoteStep(c, r, b))
    ensures var s' := Take(c, s, VoteStep(c, r, b));
      && Extends(c, s, s', lo, hi) && r in Voters(s', b) && Free(c, s', r, r + 1, b.view)
      && forall x :: x != r && x in s.locals ==> x in s'.locals && s'.locals[x] == s.locals[x]
  {
    hide Certified, Enabled, Take, Voters, Extends, Free, Range, Early;
    EarlyIsNode(c, s, b);
    FreeOne(c, s, r, b.view - 1);
    VotesAfter(c, s, b, r);
    LocalsAfter(c, s, b, r);
    var s' := Take(c, s, VoteStep(c, r, b));
    ExtendsBy(c, s, s', lo, hi, r);
    FreeAfter(c, s, s', b, r);
  }

  lemma EarlyIsNode(c: Config, s: State, b: Chain)
    requires Early(c, s, b)
    ensures b.Node? && b.view > 0
  {
  }

  lemma FreeOne(c: Config, s: State, r: nat, view: nat)
    requires Free(c, s, r, r + 1, view)
    ensures r in s.locals && s.locals[r].preferredView == 0
  {
    assert r in Range(0, r + 1);
  }

  lemma ExtendsBy(c: Config, s: State, s': State, lo: nat, hi: nat, r: nat)
    requires lo <= r < hi && forall x :: Voters(s, x) <= Voters(s', x)
    requires forall x :: x in s.locals ==> x in s'.locals && (x != r || r in c.faulty ==> s'.locals[x] == s.locals[x])
    ensures Extends(c, s, s', lo, hi)
  {
  }

  lemma FreeAfter(c: Config, s: State, s': State, b: Chain, r: nat)
    requires Early(c, s, b) && Free(c, s, r, r + 1, b.view - 1) && r in s.locals && r in s'.locals
    requires r in c.faulty ==> s'.locals[r] == s.locals[r]
    requires r !in c.faulty ==>
      s'.locals[r].lastVotedView == b.view && s'.locals[r].preferredView == LockFor(c, s.locals[r].preferredView, b)
    ensures Free(c, s', r, r + 1, b.view)
  {
    hide Certified, Extends;
    assert r in Range(0, r + 1);
  }

  lemma VotesAfter(c: Config, s: State, b: Chain, r: nat)
    requires Enabled(c, s, VoteStep(c, r, b))
    ensures var s' := Take(c, s, VoteStep(c, r, b)); r in Voters(s', b) && forall x :: Voters(s, x) <= Voters(s', x)
  {
    hide Enabled, Certified;
    assert Take(c, s, VoteStep(c, r, b)).votes == AddVote(s, r, b).votes;
  }

  lemma LocalsAfter(c: Config, s: State, b: Chain, r: nat)
    requires b.Node? && Enabled(c, s, VoteStep(c, r, b)) && r in s.locals
    ensures var s' := Take(c, s, VoteStep(c, r, b));
      && (forall x :: x in s.locals ==> x in s'.locals && (x != r || r in c.faulty ==> s'.locals[x] == s.locals[x]))
      && (r !in c.faulty ==>
            s'.locals[r].lastVotedView == b.view && s'.locals[r].preferredView == LockFor(c, s.locals[r].preferredView, b))
  {
    hide Certified;
  }

  /** Replicas lo..hi all vote for an early block. */
  lemma {:induction false} AllVote(c: Config, s: State, b: Chain, lo: nat, hi: nat) returns (s': State)
    requires Reachable(c, s) && Early(c, s, b) && lo <= hi <= c.n && Free(c, s, lo, hi, b.view - 1)
    ensures Reachable(c, s') && Extends(c, s, s', lo, hi) && Range(lo, hi) <= Voters(s', b) && Free(c, s', lo, hi, b.view)
    decreases hi - lo
  {
    hide Reachable, Range, Run;
    if lo == hi {
      s' := s;
    } else {
      var r := hi - 1;
      var mid := AllVote(c, s, b, lo, r);
      if b.parent.Node? { ExtendsCertified(c, s, mid, lo, r, b.parent); }
      s' := OneVotes(c, mid, b, lo, hi, r);
    }
  }

  /** Replicas lo..hi, enough for a certificate, vote for one early block and certify it. */
  lemma Certify(c: Config, s: State, b: Chain, lo: nat, hi: nat) returns (s': State)
    requires Reachable(c, s) && Early(c, s, b) && lo + 2 * c.byzNo + 1 <= hi <= c.n && Free(c, s, lo, hi, b.view - 1)
    ensures Reachable(c, s') && Extends(c, s, s', lo, hi) && Certified(c, s', b) && Free(c, s', lo, hi, b.view)
  {
    s' := AllVote(c, s, b, lo, hi);
    SubsetSize(Range(lo, hi), Voters(s', b));
  }

  lemma ExtendsIsTransitive(c: Config, s: State, mid: State, s': State, lo: nat, hi: nat)
    requires Extends(c, s, mid, lo, hi) && Extends(c, mid, s', lo, hi)
    ensures Extends(c, s, s', lo, hi)
  {
  }

  lemma ProcessExtends(c: Config, s: State, lo: nat, hi: nat, r: nat, b: Chain)
    requires Enabled(c, s, ProcessQC(r, b)) && lo <= r < hi
    ensures Extends(c, s, Take(c, s, ProcessQC(r, b)), lo, hi)
  {
  }

  lemma FreeIsHonest(c: Config, s: State, lo: nat, hi: nat, view: nat, r: nat)
    requires Free(c, s, lo, hi, view) && lo <= r < hi <= c.n && r !in c.faulty
    ensures Honest(c, s, r)
  {
    assert r in Range(0, hi);
  }

  /** Replicas lo..hi certify a three-chain of views 1, 2 and 3 on genesis. */
  lemma BuildEarly(c: Config, s: State, tag: nat, lo: nat, hi: nat) returns (s': State, top: Chain)
    requires Reachable(c, s) && lo + 2 * c.byzNo + 1 <= hi <= c.n && Free(c, s, lo, hi, 0)
    ensures top == Node(Node(Node(Genesis, 1, tag), 2, tag), 3, tag)
    ensures Reachable(c, s') && Extends(c, s, s', lo, hi) && Free(c, s', lo, hi, 3)
    ensures Certified(c, s', top) && Certified(c, s', top.parent.parent)
  {
    hide Reachable, Extends, Free, Run;
    var g := Node(Genesis, 1, tag);
    var p := Node(g, 2, tag);
    top := Node(p, 3, tag);
    var s1 := Certify(c, s, g, lo, hi);
    var s2 := Certify(c, s1, p, lo, hi);
    s' := Certify(c, s2, top, lo, hi);
    ExtendsCertified(c, s1, s2, lo, hi, g);
    ExtendsCertified(c, s2, s', lo, hi, g);
    ExtendsIsTransitive(c, s, s1, s2, lo, hi);
    ExtendsIsTransitive(c, s, s2, s', lo, hi);
  }

  /** They build it, and one of them commits. */
  lemma CommitEarly(c: Config, s: State, tag: nat, lo: nat, hi: nat, r: nat) returns (s': State, g: Chain)
    requires Reachable(c, s) && lo + 2 * c.byzNo + 1 <= hi <= c.n && Free(c, s, lo, hi, 0)
    requires lo <= r < hi && r !in c.faulty
    ensures g == Node(Genesis, 1, tag) && Reachable(c, s') && Extends(c, s, s', lo, hi)
    ensures Honest(c, s', r) && g in s'.locals[r].committed && Certified(c, s', g)
  {
    hide Reachable, Extends, Free, Run;
    var built, top := BuildEarly(c, s, tag, lo, hi);
    g := top.parent.parent;
    FreeIsHonest(c, built, lo, hi, 3, r);
    StepReachable(c, built, ProcessQC(r, top));
    s' := Take(c, built, ProcessQC(r, top));
    ProcessExtends(c, built, lo, hi, r, top);
    ExtendsIsTransitive(c, s, built, s', lo, hi);
  }

  /** Memory is needed: for every byzNo, within the bound and with no faulty replica at all, replicas that may vote
      twice in a view have a run in which one of them commits two different blocks of one view. */
  lemma DisagreementWithoutMemory(byzNo: nat) returns (c: Config, s: State, r: nat, g: Chain, g': Chain)
    ensures c == Config(3 * byzNo + 1, byzNo, {}, false, true) && Reachable(c, s) && Honest(c, s, r)
    ensures g in s.locals[r].committed && g' in s.locals[r].committed
    ensures g.Node? && g'.Node? && g.view == g'.view && !Descends(g, g') && !Descends(g', g)
  {
    hide Reachable, Run, Range, Init, Extends;
    c, r := Config(3 * byzNo + 1, byzNo, {}, false, true), 0;
    InitIsFree(c, 0, c.n);
    var s1, top := BuildEarly(c, Init(c), 0, 0, c.n);
    var s2, top' := BuildEarly(c, s1, 1, 0, c.n);
    ExtendsCertified(c, s1, s2, 0, c.n, top);
    FreeIsHonest(c, s2, 0, c.n, 3, r);
    StepReachable(c, s2, ProcessQC(r, top));
    var s3 := Take(c, s2, ProcessQC(r, top));
    StepReachable(c, s3, ProcessQC(r, top'));
    s := Take(c, s3, ProcessQC(r, top'));
    g, g' := top.parent.parent, top'.parent.parent;
  }

  lemma InitIsFree(c: Config, lo: nat, hi: nat)
    requires hi <= c.n
    ensures Reachable(c, Init(c)) && Free(c, Init(c), lo, hi, 0)
  {
    assert Run(c, []) == Some(Init(c));
  }

  lemma StillFree(c: Config, s: State, s': State, lo: nat, hi: nat, from: nat, to: nat)
    requires Extends(c, s, s', lo, hi) && Free(c, s, from, to, 0)
    requires forall r :: r in Range(0, hi) && r >= from ==> r in c.faulty
    ensures Free(c, s', from, to, 0)
  {
  }

  /** With n = 3*byzNo + 2 and byzNo faulty replicas some run certifies two different blocks in one view and
      makes two honest replicas commit blocks on different branches. */
  lemma DisagreementBeyondTheBound(byzNo: nat) returns (c: Config, s: State, r: nat, g: Chain, r': nat, g': Chain)
    ensures c.remembers && c.heeds && c.n == 3 * byzNo + 2 && c.byzNo == byzNo && |c.faulty| == byzNo && Replicas(c.faulty, c.n)
    ensures Reachable(c, s)
    ensures Honest(c, s, r) && g in s.locals[r].committed && Certified(c, s, g)
    ensures Honest(c, s, r') && g' in s.locals[r'].committed && Certified(c, s, g')
    ensures g.Node? && g'.Node? && g.view == g'.view && !Descends(g, g') && !Descends(g', g)
  {
    hide Reachable, Free, Run, Range, Init;
    var mid, end := 2 * byzNo + 1, 3 * byzNo + 2;
    c := Config(end, byzNo, Range(byzNo + 1, mid), true, true);
    r, r' := 0, 3 * byzNo + 1;
    InitIsFree(c, 0, mid);
    InitIsFree(c, byzNo + 1, end);
    s, g := CommitEarly(c, Init(c), 0, 0, mid, r);
    StillFree(c, Init(c), s, 0, mid, byzNo + 1, end);
    var s1 := s;
    s, g' := CommitEarly(c, s1, 1, byzNo + 1, end, r');
    ExtendsCertified(c, s1, s, byzNo + 1, end, g);
  }
}
