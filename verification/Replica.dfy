/**
 The HotStuff replica: lock, highest certificate and buffers, and the mutually recursive handlers for blocks,
 votes, view-change and timeout messages.
 */
module Replicas {
  import opened Types
  import opened Forests
  import opened Commits
  import opened Chains
  import opened Collectors
  import opened Quorums
  import opened QuorumSets
  import opened Pacemakers
  import opened Rules
  import opened Turns
  import opened ReplicaInvariants

  class HotStuff {
    const self: NodeId
    const byzNo: nat
    /** The elected leader of each view. */
    const leaderOf: View -> NodeId
    /** Signature checks of certificates and votes. */
    const verifyQC: QC -> bool
    const verifyVote: Vote -> bool
    /** The level of every id (hypothesis L). */
    ghost const lev: Id -> nat

    var preferredView: View
    var highQC: QC
    var bc: ChainState
    var pm: Clock
    var bufferedQCs: map<Id, QC>
    var bufferedBlocks: map<int, Block>
    var receivedVMO: map<int, VMO>
    var receivedBlock: map<int, Block>
    /** What went out on the committed-block channel, one entry a commit, and on the forked-block channel. */
    var committedBlocks: seq<seq<Block>>
    var forkedBlocks: seq<Block>
    var sent: seq<Message>
    /** A nil dereference has taken the replica down. */
    var crashed: bool
    ghost var seenBlocks: set<View>
    ghost var seenVmos: set<View>
    ghost var ballots: seq<Ballot>
    ghost var trace: seq<Turns.Step>

    function State(): Core
      reads this
    {
      Core(bc, preferredView, highQC)
    }

    /** What the steps of the trace have led to. */
    ghost function Done(): Progress
      reads this
    {
      Progress(State(), committedBlocks, ballots)
    }

    ghost predicate Valid()
      reads this
    {
      && CoreOk(State(), lev) && Filed(bc.votes)
      && BlocksOk(bufferedBlocks, lev) && BlocksOk(receivedBlock, lev) && VmosOk(receivedVMO) && QCsOk(bufferedQCs, lev)
      && Seen(receivedBlock, receivedVMO, seenBlocks, seenVmos)
      && EventsOk(pm.events, pm.curView) && AllBacked(pm, self, leaderOf, seenBlocks, seenVmos)
      && DeliveryOk(committedBlocks, bc.forest.lowest) && BallotsOk(ballots)
      && Traced(self, byzNo, lev, trace, Done())
    }

    /** `h` bounds the view of every block held. */
    ghost predicate Held(h: int)
      reads this
    {
      && (forall k :: k in bufferedBlocks ==> bufferedBlocks[k].view <= h)
      && (forall k :: k in receivedBlock ==> receivedBlock[k].view <= h)
    }

    /** The second component of the termination measure. */
    ghost function Waiting(v: int): nat
      reads this
    {
      if v - 1 in bufferedBlocks then 1 else 0
    }

    ghost function Now(): Snap
      reads this
    {
      Snap(pm, State(), bufferedBlocks, seenBlocks, seenVmos, sent, ballots, committedBlocks, forkedBlocks,
           receivedBlock, receivedVMO, trace)
    }

    /** The replica has advanced from an earlier state. */
    ghost predicate Since(s: Snap)
      reads this
    {
      Advances(s, Now(), lev)
    }

    constructor (self: NodeId, n: nat, byzNo: nat, leaderOf: View -> NodeId, verifyQC: QC -> bool, verifyVote: Vote -> bool,
                 ghost lev: Id -> nat)
      requires lev(ZERO_ID) == 0
      ensures Valid() && !crashed && State() == Core(EMPTY_CHAIN, 0, QC(0, ZERO_ID, 0, [], []))
      ensures pm == Clock(n, 0, [], map[], map[]) && bufferedBlocks == map[] && receivedBlock == map[]
      ensures bufferedQCs == map[] && receivedVMO == map[] && ballots == [] && trace == []
      ensures this.self == self && this.byzNo == byzNo && this.lev == lev && this.leaderOf == leaderOf
      ensures this.verifyQC == verifyQC && this.verifyVote == verifyVote
    {
      this.self, this.byzNo, this.leaderOf, this.verifyQC, this.verifyVote, this.lev :=
        self, byzNo, leaderOf, verifyQC, verifyVote, lev;
      preferredView, highQC, bc := 0, QC(0, ZERO_ID, 0, [], []), EMPTY_CHAIN;
      pm := Clock(n, 0, [], map[], map[]);
      bufferedQCs, bufferedBlocks, receivedVMO, receivedBlock := map[], map[], map[], map[];
      committedBlocks, forkedBlocks, sent, crashed := [], [], [], false;
      seenBlocks, seenVmos, ballots, trace := {}, {}, [], [];
      new;
      TraceStarts(self, byzNo, lev);
    }

    /** Moves the clock past a view that there are grounds to leave. */
    method AdvanceView(view: View)
      requires Valid() && Backed(pm, view, leaderOf(view + 1) == self, seenBlocks, seenVmos)
      modifies this`pm
      ensures Valid() && pm == Advance(old(pm), view) && pm.curView > view && pm.curView >= old(pm.curView)
    {
      hide CoreOk, Filed, BlocksOk, VmosOk, QCsOk, Seen, DeliveryOk, BallotsOk, Traced;
      AdvanceEvents(pm, view);
      AdvanceBacked(pm, view, self, leaderOf, seenBlocks, seenVmos);
      pm := Advance(pm, view);
    }

    method UpdateHighQC(qc: QC, ghost s: Snap)
      requires Valid() && Since(s) && QCOk(lev, qc)
      modifies this`highQC, this`trace
      ensures Valid() && Since(s) && highQC == HigherQC(old(highQC), qc) && trace == old(trace) + [NoteQC(qc)]
    {
      hide Good, Retains, EventsOk, DeliveryOk, AllBacked, Traced, Descending, Rootless, Ordered;
      RaisedHighQC(State(), lev, qc);
      TraceGrows(self, byzNo, lev, trace, Done(), NoteQC(qc));
      if qc.view > highQC.view {
        highQC := qc;
      }
      trace := trace + [NoteQC(qc)];
    }

    /** Raises the lock to the parent's view of the certified block; false if either block is missing. */
    method UpdatePreferredView(qc: QC) returns (ok: bool)
      modifies this`preferredView
      ensures ok <==> NextPreferred(bc.forest, old(preferredView), qc).Some?
      ensures ok ==> preferredView == NextPreferred(bc.forest, old(preferredView), qc).value
      ensures !ok ==> preferredView == old(preferredView)
      ensures ok <==> Applies(bc.forest, qc)
      ensures Raises(old(State()), State().(highQC := HigherQC(highQC, qc)), qc)
    {
      if qc.view <= 2 {
        return true;
      }
      if bc.forest.GetVertex(qc.blockId).None? {
        return false;
      }
      var grandParent := GetParentBlock(bc.forest, qc.blockId);
      if grandParent.None? {
        return false;
      }
      if grandParent.value.view > preferredView {
        preferredView := grandParent.value.view;
      }
      return true;
    }

    /** Locks, raises the highest certificate and commits, as the rules decide; a certificate whose block or
        parent is missing is buffered. */
    method ApplyCertificate(qc: QC)
      requires CoreOk(State(), lev) && QCOk(lev, qc) && !crashed
      modifies this`preferredView, this`highQC, this`bc, this`bufferedQCs, this`committedBlocks, this`forkedBlocks, this`crashed
      ensures !crashed ==> Certified(old(Now()), Now(), old(bufferedQCs), bufferedQCs, qc)
      ensures match Rules.ProcessCertificate(old(State()), qc, pm.curView)
        case Crashes => crashed && bc == old(bc)
        case Buffered => bufferedQCs == old(bufferedQCs)[qc.blockId := qc] && OnlyCore(old(Now()), old(State()), [], [])
        case Applied(core, committed, forked) => bufferedQCs == old(bufferedQCs) && OnlyCore(old(Now()), core, committed, forked)
    {
      hide CoreOk, Descending, CommitBlock, CommitRule, Applies, Raises, Effect, TakesEffect;
      Certifying(qc);
      var ok := UpdatePreferredView(qc);
      if !ok {
        bufferedQCs := bufferedQCs[qc.blockId := qc];
        return;
      }
      if qc.view > highQC.view {
        highQC := qc;
      }
      if qc.view >= 3 {
        CommitByRule(qc);
      }
      if !crashed { CertifiedBy(old(Now()), Now(), lev, qc); }
    }

    /** Commits and delivers what the commit rule gives. */
    method CommitByRule(qc: QC)
      requires Descending(bc.forest) && !crashed
      modifies this`bc, this`committedBlocks, this`forkedBlocks, this`crashed
      ensures match CommitRule(old(bc.forest), qc)
        case None => OnlyCore(old(Now()), old(State()), [], [])
        case Some(g) =>
          match CommitBlock(old(bc), g.id, pm.curView)
          case Panics => crashed && bc == old(bc)
          case Done(chain, committed, forked) => OnlyCore(old(Now()), old(State()).(chain := chain), committed, forked)
          case _ => OnlyCore(old(Now()), old(State()), [], [])
    {
      hide Descending, CommitBlock, CommitRule;
      var target := CommitRule(bc.forest, qc);
      if target.None? {
        return;
      }
      match CommitBlock(bc, target.value.id, pm.curView) {
        case Panics => crashed := true;
        case Done(chain, committed, forked) =>
          bc := chain;
          committedBlocks := Sent(committedBlocks, committed);
          forkedBlocks := forkedBlocks + forked;
        case _ =>
      }
    }

    lemma Certifying(qc: QC)
      requires CoreOk(State(), lev) && QCOk(lev, qc)
      ensures Descending(bc.forest)
      ensures Rules.ProcessCertificate(State(), qc, pm.curView).Buffered? <==> !Applies(bc.forest, qc)
    {
      hide Good, Rootless, Ordered, Applies, Rules.ProcessCertificate, Descending;
      CertificateMeaning(State(), lev, qc, pm.curView);
    }

    /** The core is now this one, and these blocks went out. */
    ghost predicate OnlyCore(s: Snap, core: Core, committed: seq<Block>, forked: seq<Block>)
      reads this
    {
      !crashed && State() == core && committedBlocks == Sent(s.committed, committed) && forkedBlocks == s.forked + forked
    }

    /** A certificate whose signatures do not verify changes nothing; any other is applied. */
    method ProcessCertificate(qc: QC)
      requires Valid() && QCOk(lev, qc) && !crashed
      modifies this`preferredView, this`highQC, this`bc, this`bufferedQCs, this`committedBlocks, this`forkedBlocks, this`crashed, this`trace
      ensures !crashed ==> Valid() && Since(old(Now()))
      ensures crashed ==> Stuck(bc.forest, lev) && qc.view >= 3
      ensures qc.leader != self && !verifyQC(qc) ==>
        trace == old(trace) && bufferedQCs == old(bufferedQCs) && OnlyCore(old(Now()), old(State()), [], [])
      ensures qc.leader == self || verifyQC(qc) ==>
        match Rules.ProcessCertificate(old(State()), qc, pm.curView)
        case Crashes => crashed && bc == old(bc)
        case Buffered => bufferedQCs == old(bufferedQCs)[qc.blockId := qc] && OnlyCore(old(Now()), old(State()), [], [])
        case Applied(core, committed, forked) => bufferedQCs == old(bufferedQCs) && OnlyCore(old(Now()), core, committed, forked)
      ensures !crashed && (qc.leader == self || verifyQC(qc)) ==>
        Digested(old(bc.forest), State(), qc) && trace == old(trace) + [LearnQC(qc, pm.curView)]
      ensures !crashed && (qc.leader == self || verifyQC(qc)) ==> Certified(old(Now()), Now(), old(bufferedQCs), bufferedQCs, qc)
    {
      hide TakesEffect, Applies, Digested, Rules.ProcessCertificate, CoreOk, Stuck, Traced, Advances;
      hide EventsOk, AllBacked, DeliveryOk, BlocksOk, VmosOk, Seen, Filed, BallotsOk;
      AdvancesReflexive(Now(), lev);
      if qc.leader != self && !verifyQC(qc) {
        return;
      }
      Learning(qc);
      ghost var core := State();
      ApplyCertificate(qc);
      assert Rules.ProcessCertificate(core, qc, pm.curView).Buffered? ==> forkedBlocks == old(forkedBlocks);
      if !crashed {
        CertifiedTraced(old(Now()), Now(), old(bufferedQCs), bufferedQCs, qc, trace + [LearnQC(qc, pm.curView)]);
        trace := trace + [LearnQC(qc, pm.curView)];
      }
    }

    /** What processing an accepted certificate keeps. */
    lemma Learning(qc: QC)
      requires Valid() && QCOk(lev, qc)
      ensures Descending(bc.forest)
      ensures match Rules.ProcessCertificate(State(), qc, pm.curView)
        case Crashes => Stuck(bc.forest, lev) && qc.view >= 3
        case Buffered =>
          && Digested(bc.forest, State(), qc) && Advances(Now(), Now().(trace := trace + [LearnQC(qc, pm.curView)]), lev)
          && Traced(self, byzNo, lev, trace + [LearnQC(qc, pm.curView)], Done())
        case Applied(core, committed, forked) =>
          && CoreOk(core, lev) && Filed(core.chain.votes) && DeliveryOk(Sent(committedBlocks, committed), core.chain.forest.lowest)
          && Digested(bc.forest, core, qc)
          && Advances(Now(), Now().(core := core, committed := Sent(committedBlocks, committed), forked := forkedBlocks + forked,
                                    trace := trace + [LearnQC(qc, pm.curView)]), lev)
          && Traced(self, byzNo, lev, trace + [LearnQC(qc, pm.curView)], Progress(core, Sent(committedBlocks, committed), ballots))
    {
      hide Digested, Rules.ProcessCertificate, Good, Rootless, Ordered, Descending, Retains, Stuck, Traced, Advances;
      hide EventsOk, AllBacked, DeliveryOk, BlocksOk, VmosOk, QCsOk, Seen, Filed, BallotsOk;
      ghost var core := State();
      CertificateIsDigested(core, lev, qc, pm.curView);
      if Rules.ProcessCertificate(core, qc, pm.curView).Crashes? {
        CrashIsStuck(core, lev, qc, pm.curView);
        CrashesLate(core, qc, pm.curView);
      } else {
        TraceGrows(self, byzNo, lev, trace, Done(), LearnQC(qc, pm.curView));
        LearningAdvances(Now(), lev, qc);
      }
      if Rules.ProcessCertificate(core, qc, pm.curView).Applied? {
        CertificateKeepsOrder(core, lev, qc, pm.curView);
        CertificateDelivers(committedBlocks, core, qc, pm.curView);
      }
    }

    lemma CrashesLate(core: Core, qc: QC, curView: View)
      requires Descending(core.chain.forest) && Rules.ProcessCertificate(core, qc, curView).Crashes?
      ensures qc.view >= 3
    {
    }

    // The mutually recursive handlers. `h` bounds the views of the blocks held; the measure is
    // (h - view handled, whether that view is still buffered, rank of the handler).

    method ProcessBlock(block: Block, ghost h: int) returns (fate: Fate)
      requires Valid() && !crashed && BlockOk(lev, block) && Held(h) && block.view <= h
      modifies this
      ensures crashed ==> Stuck(bc.forest, lev)
      ensures !crashed ==> Valid() && Held(h) && Since(old(Now()))
      ensures fate == Queued <==> block.view > Started(old(pm)).curView
      ensures fate == Queued ==> QueuedOnly(block)
      ensures !crashed && fate != Queued ==> Processed(block, fate) && Left(block.view)
      ensures !crashed && fate != Queued && block.view - 1 !in old(bufferedBlocks) ==> block.view - 1 !in bufferedBlocks
      ensures !crashed && fate != Queued && Carries(block) ==> Digested(old(bc.forest), State(), block.qc.value)
      ensures !crashed && fate != Queued && block.qc.Some? && block.proposer != self && verifyQC(block.qc.value) ==>
        Digested(old(bc.forest), State(), block.qc.value)
      ensures !crashed && fate != Queued && Rightful(block) ==> Judged(old(Now()), Now(), lev, block, fate)
      ensures old(Alone(block)) ==> (crashed <==> Crashes(old(State()), block, Started(old(pm)).curView))
      ensures old(Alone(block)) && !crashed ==> PassedBy(block, fate)
      decreases h - block.view, Waiting(block.view), 4, 3
    {
      hide Stuck, Valid, BlockOk, Advances, Processed, Digested, StoresOnly, Judged, Crashes, TurnOf, VotingRule;
      ghost var s := Now();
      AdvancesReflexive(s, lev);
      Enter(block.view, s);
      if block.view > pm.curView {
        BufferBlock(block, s);
        return Queued;
      }
      ghost var mid := Now();
      fate := ProcessReceived(block, h);
      if !crashed {
        AdvancesTransitive(s, mid, Now(), lev);
        AdvancesMeasure(mid, Now(), lev, block.view);
        if Rightful(block) { JudgedEarlier(s, mid, Now(), lev, block, fate); }
      }
    }

    /** A block whose view has been reached. */
    method ProcessReceived(block: Block, ghost h: int) returns (fate: Fate)
      requires Valid() && !crashed && BlockOk(lev, block) && Held(h) && block.view <= h && block.view <= pm.curView
      requires block.view in seenBlocks && pm.curView >= 1
      modifies this
      ensures crashed ==> Stuck(bc.forest, lev)
      ensures !crashed ==> Valid() && Held(h) && Since(old(Now())) && Processed(block, fate) && Left(block.view)
      ensures fate != Queued
      ensures !crashed && Carries(block) ==> Digested(old(bc.forest), State(), block.qc.value)
      ensures !crashed && fate != Queued && Rightful(block) ==> Judged(old(Now()), Now(), lev, block, fate)
      ensures old(Alone(block)) ==> (crashed <==> Crashes(old(State()), block, Started(old(pm)).curView))
      ensures old(Alone(block)) && !crashed ==> PassedBy(block, fate)
      decreases h - block.view, Waiting(block.view), 4, 2
    {
      hide Held, Stuck, Valid, BlockOk, Advances, Kept, VotedIn, Digested, StoresOnly, Judged, Crashes, VotingRule;
      hide TurnOf, NotesOf, VotesOf;
      ghost var s := Now();
      LeaveAndCertify(block, h);
      if crashed { return Failed; }
      if block.qc.None? {
        TurnIs(s.trace, block, Failed, pm.curView);
        return Failed;
      }
      Carried(block);
      AdvancesMeasure(s, Now(), lev, block.view);
      ghost var mid := Now();
      fate := StoreAndVote(block, h);
      if !crashed {
        AdvancesTransitive(s, mid, Now(), lev);
        AdvancesRemembers(mid, Now(), lev, block.id, OwnVote(block), OwnMessage(block));
        AdvancesHolds(mid, Now(), lev, block.view);
        AdvancesClock(mid, Now(), lev);
        StoresOnlyTwice(s.core.chain.forest, mid.core.chain.forest, bc.forest, block.id);
        TurnIs(s.trace, block, fate, s.pm.curView);
        if Rightful(block) { JudgedEarlier(s, mid, Now(), lev, block, fate); }
        if Carries(block) { AdvancesDigests(s.core.chain.forest, mid, Now(), lev, block.qc.value); }
      }
    }

    /** Records the block, leaves the view if its VMO is there, then processes the certificate the block carries. */
    method LeaveAndCertify(block: Block, ghost h: int)
      requires Valid() && !crashed && BlockOk(lev, block) && Held(h) && block.view <= h && block.view <= pm.curView
      requires block.view in seenBlocks
      modifies this
      ensures crashed ==> Stuck(bc.forest, lev)
      ensures !crashed ==> Valid() && Held(h) && Since(old(Now())) && Left(block.view)
      ensures !crashed && block.qc.Some? ==> highQC.view >= block.qc.value.view
      ensures !crashed && Carries(block) ==> Digested(old(bc.forest), State(), block.qc.value)
      ensures block.view - 1 !in old(receivedVMO) ==>
        && (crashed <==> Crashes(old(State()), block, old(pm.curView)))
        && (!crashed ==>
              && Aside(block) && bufferedBlocks == old(bufferedBlocks) && trace == old(trace) + NotesOf(block, old(pm.curView))
              && receivedBlock == old(receivedBlock)[block.view - 1 := block])
      decreases h - block.view, Waiting(block.view), 4, 1
    {
      hide Stuck, Valid, BlockOk, Advances, Digested, CoreOk, StoresOnly, Crashes;
      ghost var s := Now();
      AdvancesReflexive(s, lev);
      CoreIs();
      NoCertificate(State(), block, pm.curView);
      StoresOnlyItself(bc.forest, block.id);
      LeaveView(block, h);
      if crashed || block.qc.None? { return; }
      ghost var mid := Now();
      ProcessCarriedQC(block);
      if !crashed {
        CoreIs();
        Carried(block);
        AdvancesTransitive(s, mid, Now(), lev);
        if Carries(block) { AdvancesDigestsFrom(s, mid, Now(), lev, block.qc.value); }
      }
    }

    /** Records the block, and leaves the view if its VMO is there. */
    method LeaveView(block: Block, ghost h: int)
      requires Valid() && !crashed && BlockOk(lev, block) && Held(h) && block.view <= h && block.view <= pm.curView
      requires block.view in seenBlocks
      modifies this
      ensures crashed ==> Stuck(bc.forest, lev)
      ensures !crashed ==> Valid() && Held(h) && Since(old(Now())) && Left(block.view)
      ensures block.view - 1 !in old(receivedVMO) ==>
        && !crashed && bufferedQCs == old(bufferedQCs)
        && Now() == old(Now()).(received := old(receivedBlock)[block.view - 1 := block])
      decreases h - block.view, Waiting(block.view), 4, 0
    {
      hide Stuck, Valid, BlockOk, Advances;
      ghost var s := Now();
      AdvancesReflexive(s, lev);
      ReceiveBlock(block, s);
      ghost var mid := Now();
      var _ := ProcessVMOAndBlock(block.view, h);
      if !crashed {
        AdvancesTransitive(s, mid, Now(), lev);
        AdvancesHolds(mid, Now(), lev, block.view);
      }
    }

    /** Processes the certificate a block carries, unless it is the replica's own proposal. */
    method ProcessCarriedQC(block: Block)
      requires Valid() && !crashed && BlockOk(lev, block) && block.qc.Some?
      modifies this`preferredView, this`highQC, this`bc, this`bufferedQCs, this`committedBlocks, this`forkedBlocks, this`crashed, this`trace
      ensures crashed ==> Stuck(bc.forest, lev)
      ensures crashed <==> Crashes(old(State()), block, pm.curView)
      ensures !crashed ==> trace == old(trace) + NotesOf(block, pm.curView)
      ensures !crashed ==> Valid() && Since(old(Now())) && highQC.view >= block.qc.value.view
      ensures !crashed ==> StoresOnly(old(bc.forest), bc.forest, block.id)
      ensures !crashed ==> forall id :: id in bufferedQCs ==> id in old(bufferedQCs) || id == block.prevId
      ensures !crashed && Carries(block) ==> Digested(old(bc.forest), State(), block.qc.value)
    {
      hide Stuck, Valid, BlockOk, Advances, Digested;
      hide Rules.ProcessCertificate, StoresOnly;
      ghost var s := Now();
      AdvancesReflexive(s, lev);
      StoresOnlyItself(bc.forest, block.id);
      DescendsIs();
      Carried(block);
      UpdateHighQC(block.qc.value, s);
      if block.proposer != self {
        ghost var mid := Now();
        LearnsOnly(block);
        ProcessCertificate(block.qc.value);
        if !crashed {
          AdvancesTransitive(s, mid, Now(), lev);
          AdvancesRemembers(mid, Now(), lev, block.id, OwnVote(block), OwnMessage(block));
        }
      }
    }

    /** A certificate stores no block. */
    lemma LearnsOnly(block: Block)
      requires Valid() && block.qc.Some?
      ensures Descending(bc.forest)
      ensures Rules.ProcessCertificate(State(), block.qc.value, pm.curView).Applied? ==>
        StoresOnly(bc.forest, Rules.ProcessCertificate(State(), block.qc.value, pm.curView).core.chain.forest, block.id)
    {
      hide Rules.ProcessCertificate, Good, Rootless, Ordered, Traced;
      if Rules.ProcessCertificate(State(), block.qc.value, pm.curView).Applied? {
        CertificateStoresNothing(State(), block.qc.value, pm.curView, block.id);
      }
    }

    /** Stores a block from the right leader and goes on to vote. */
    method StoreAndVote(block: Block, ghost h: int) returns (fate: Fate)
      requires Valid() && !crashed && BlockOk(lev, block) && block.qc.Some?
      requires Held(h) && block.view <= h && block.view <= pm.curView
      modifies this
      ensures crashed ==> Stuck(bc.forest, lev)
      ensures !crashed ==> Valid() && Held(h) && Since(old(Now()))
      ensures leaderOf(block.view) != block.proposer ==> fate == Failed && !crashed && Now() == old(Now())
      ensures !crashed && leaderOf(block.view) == block.proposer ==> Kept(bc.forest, lev, block.id)
      ensures fate != Queued && (!crashed && fate == Voted ==> VotedFor(block))
      ensures !crashed && leaderOf(block.view) == block.proposer && block.view <= 2 ==> fate == Voted
      ensures !crashed && leaderOf(block.view) == block.proposer ==> Judged(old(Now()), Now(), lev, block, fate)
      ensures old(Undisturbed(block)) ==> !crashed && Aside(block) && Emptied(block, fate) && receivedBlock == old(receivedBlock)
      ensures old(Undisturbed(block)) && leaderOf(block.view) == block.proposer ==>
        && fate == FateOf(VotingRule(bc.forest, preferredView, block))
        && trace == old(trace) + ([PutBlock(block)] + VotesOf(block, fate))
      decreases h - block.view, Waiting(block.view), 4, 1
    {
      hide Stuck, Valid, BlockOk, Advances, Kept, VotedIn, StoresOnly, Judged, VotingRule;
      ghost var s := Now();
      AdvancesReflexive(s, lev);
      StoresOnlyItself(bc.forest, block.id);
      if leaderOf(block.view) != block.proposer {
        return Failed;
      }
      StoreBlock(block, s);
      AdvancesMeasure(s, Now(), lev, block.view);
      ghost var mid := Now();
      fate := VoteAndContinue(block, h);
      if !crashed {
        AdvancesTransitive(s, mid, Now(), lev);
        AdvancesRemembers(mid, Now(), lev, block.id, OwnVote(block), OwnMessage(block));
        Regroup(s.trace, [PutBlock(block)], VotesOf(block, fate));
        JudgedEarlier(s, mid, Now(), lev, block, fate);
      }
    }

    /** The end of block processing: process a certificate that waited for the block, then vote. */
    method VoteAndContinue(block: Block, ghost h: int) returns (fate: Fate)
      requires Valid() && !crashed && BlockOk(lev, block) && block.qc.Some?
      requires Held(h) && block.view <= h && block.view <= pm.curView
      modifies this
      ensures crashed ==> Stuck(bc.forest, lev)
      ensures !crashed ==> Valid() && Held(h) && Since(old(Now()))
      ensures fate != Queued && (!crashed && fate == Voted ==> VotedFor(block))
      ensures !crashed && block.id in old(bufferedQCs) && Accepts(old(bufferedQCs)[block.id]) ==>
        Digested(old(bc.forest), State(), old(bufferedQCs)[block.id])
      ensures !crashed && block.view <= 2 ==> fate == Voted
      ensures !crashed && Kept(old(bc.forest), lev, block.id) ==> Judged(old(Now()), Now(), lev, block, fate)
      ensures old(Undisturbed(block)) ==>
        && !crashed && Still() && Emptied(block, fate) && trace == old(trace) + VotesOf(block, fate)
        && fate == FateOf(VotingRule(bc.forest, preferredView, block))
      decreases h - block.view, Waiting(block.view), 4, 0
    {
      hide Held, Stuck, Valid, BlockOk, Advances, VotedIn, Digested, Judged, VotingRule, Kept;
      ghost var s := Now();
      ghost var qc := if block.id in bufferedQCs then Some(bufferedQCs[block.id]) else None;
      AdvancesReflexive(s, lev);
      if block.id in bufferedQCs {
        ProcessBufferedQC(block, h);
        if crashed { return Failed; }
      }
      AdvancesMeasure(s, Now(), lev, block.view);
      ghost var mid := Now();
      ghost var cast, next;
      fate, cast, next := VoteOn(block, h);
      if !crashed {
        AdvancesTransitive(s, mid, Now(), lev);
        AdvancesRemembers(s, mid, lev, block.id, OwnVote(block), OwnMessage(block));
        if Kept(s.core.chain.forest, lev, block.id) { JudgedAt(s, mid, Now(), lev, block, fate); }
        if qc.Some? && Accepts(qc.value) { AdvancesDigests(s.core.chain.forest, mid, Now(), lev, qc.value); }
      }
    }

    /** Votes if the rule approves, then takes up a buffered successor. `cast` is the state once the vote is cast, and
        `next` what became of the successor then in the buffer: it is processed if and only if the clock has passed the
        block's view by then, and otherwise dropped unprocessed. */
    method VoteOn(block: Block, ghost h: int) returns (fate: Fate, ghost cast: Snap, ghost next: Option<Fate>)
      requires Valid() && !crashed && BlockOk(lev, block) && block.qc.Some?
      requires Held(h) && block.view <= h && block.view <= pm.curView
      modifies this
      ensures crashed ==> Stuck(bc.forest, lev)
      ensures !crashed ==> Valid() && Held(h) && Since(old(Now()))
      ensures !crashed ==> match VotingRule(old(bc.forest), old(preferredView), block)
        case Approve => fate == Voted && VotedFor(block) && TakenUp(cast, block.view, next)
        case Reject => fate == Rejected && Now() == old(Now())
        case CannotDecide => fate == Failed && Now() == old(Now())
      ensures !crashed && block.view > 2 ==>
        && (fate == Failed <==> !Anchored(old(bc.forest), block.id))
        && (Anchored(old(bc.forest), block.id) ==>
              var parent := old(bc.forest).GetVertex(old(bc.forest).GetVertex(block.id).value.prevId).value;
              (fate == Voted <==> parent.view >= old(preferredView)) && (fate == Rejected <==> parent.view < old(preferredView)))
      ensures !crashed && fate == Voted ==> Advances(old(Now()), cast, lev) && Cast(cast.ballots, Vote(block.view, self, block.id, 0))
      ensures fate != Queued && (!crashed && block.view <= 2 ==> fate == Voted)
      ensures !crashed ==> fate == FateOf(VotingRule(old(bc.forest), old(preferredView), block))
      ensures leaderOf(block.view + 1) != self && (old(pm.curView) <= block.view || block.view !in old(bufferedBlocks)) ==>
        && !crashed && Still() && Emptied(block, fate) && trace == old(trace) + VotesOf(block, fate)
      decreases h - block.view, Waiting(block.view), 3, 3
    {
      hide Held, Stuck, Valid, BlockOk, Advances, VotingRule, ProcessedIn, Cast, Anchored;
      ghost var s := Now();
      AdvancesReflexive(s, lev);
      Carried(block);
      VerdictMeaning(bc.forest, preferredView, block);
      cast, next := s, None;
      var verdict := VotingRule(bc.forest, preferredView, block);
      if verdict == CannotDecide {
        return Failed, s, None;
      }
      if verdict == Reject {
        return Rejected, s, None;
      }
      CastVote(block, h);
      if crashed { return Failed, s, None; }
      cast := Now();
      AdvancesMeasure(s, cast, lev, block.view);
      var result := TakeUpSuccessor(block.view, h);
      next := result;
      if crashed { return Failed, cast, next; }
      AdvancesTransitive(s, cast, Now(), lev);
      AdvancesRemembers(cast, Now(), lev, block.id, OwnVote(block), OwnMessage(block));
      return Voted, cast, next;
    }

    /** Processes the block buffered for the next view, if any, and deletes it. */
    method TakeUpSuccessor(view: View, ghost h: int) returns (next: Option<Fate>)
      requires Valid() && !crashed && Held(h) && 1 <= view <= pm.curView
      modifies this
      ensures crashed ==> Stuck(bc.forest, lev) && old(pm.curView) > view && view in old(bufferedBlocks)
      ensures !crashed ==> Valid() && Held(h) && Since(old(Now())) && TakenUp(old(Now()), view, next) && view !in bufferedBlocks
      ensures old(pm.curView) <= view || view !in old(bufferedBlocks) ==> bufferedQCs == old(bufferedQCs)
      decreases h - view, Waiting(view), 3, 2
    {
      hide Stuck, Valid, Advances, Digested, Kept, Cast, Left;
      ghost var s := Now();
      AdvancesReflexive(s, lev);
      if view !in bufferedBlocks {
        return None;
      }
      BufferedIs(view);
      var fate := ProcessBlock(bufferedBlocks[view], h);
      next := Some(fate);
      if crashed { return; }
      DropBuffered(view, s);
      assert fate == Queued ==> bufferedBlocks == s.buffered - {view};
    }

    /** Processes the certificate that was waiting for a block, forgets it, and starts the view change if this
        replica leads the next view. */
    method ProcessBufferedQC(block: Block, ghost h: int)
      requires Valid() && !crashed && block.id in bufferedQCs && Held(h) && block.view <= h && block.view <= pm.curView
      modifies this
      ensures crashed ==> Stuck(bc.forest, lev)
      ensures !crashed ==> Valid() && Held(h) && Since(old(Now()))
      ensures !crashed && Accepts(old(bufferedQCs)[block.id]) ==> Digested(old(bc.forest), State(), old(bufferedQCs)[block.id])
      ensures !crashed && leaderOf(block.view + 1) == self ==> AnnouncedVmo(block.view)
      ensures !crashed ==> block.id !in bufferedQCs
      decreases h - block.view, Waiting(block.view), 3, 2
    {
      hide Stuck, Valid, BlockOk, Advances, Digested, AfterVmo;
      ghost var s, qc := Now(), bufferedQCs[block.id];
      DigestWaiting(block.id);
      if crashed { return; }
      if leaderOf(block.view + 1) == self {
        ghost var mid := Now();
        ProcessLocalVmo(block.view, h);
        if !crashed {
          AdvancesTransitive(s, mid, Now(), lev);
          if Accepts(qc) { AdvancesDigests(s.core.chain.forest, mid, Now(), lev, qc); }
        }
      }
    }

    /** Processes a buffered certificate and forgets it. */
    method DigestWaiting(id: Id)
      requires Valid() && !crashed && id in bufferedQCs
      modifies this`preferredView, this`highQC, this`bc, this`bufferedQCs, this`committedBlocks, this`forkedBlocks, this`crashed, this`trace
      ensures crashed ==> Stuck(bc.forest, lev)
      ensures !crashed ==> Valid() && Since(old(Now())) && id !in bufferedQCs
      ensures !crashed && Accepts(old(bufferedQCs)[id]) ==> Digested(old(bc.forest), State(), old(bufferedQCs)[id])
    {
      hide Stuck, Valid, Advances, Digested, Rules.ProcessCertificate;
      ghost var s := Now();
      BufferedQCIs(id);
      ProcessCertificate(bufferedQCs[id]);
      if !crashed { DropQC(id, s); }
    }

    /** Votes for an approved block: to the leader of the next view, or to itself. */
    method CastVote(block: Block, ghost h: int)
      requires Valid() && !crashed && BlockOk(lev, block) && block.qc.Some?
      requires Held(h) && block.view <= h && block.view <= pm.curView
      requires VotingRule(bc.forest, preferredView, block) == Approve
      modifies this
      ensures crashed ==> Stuck(bc.forest, lev)
      ensures !crashed ==> Valid() && Held(h) && Since(old(Now())) && Cast(ballots, Vote(block.view, self, block.id, 0))
      ensures leaderOf(block.view + 1) != self ==>
        && !crashed && bufferedQCs == old(bufferedQCs)
        && Now() == old(Now()).(ballots := old(ballots) + [BallotFor(self, old(State()), block)], trace := old(trace) + [VoteFor(block)],
                                sent := old(sent) + [VoteTo(leaderOf(block.view + 1), Vote(block.view, self, block.id, 0))])
      ensures !crashed && leaderOf(block.view + 1) == self ==>
        old(trace) + [VoteFor(block), CountVote(Vote(block.view, self, block.id, 0))] <= trace
      decreases h - block.view, Waiting(block.view), 3, 2
    {
      hide Stuck, Valid, BlockOk, Advances, VotingRule, Cast;
      hide VoteCounted, Built, Completes, AnnouncedCertificate, Digested, Collect;
      ghost var s := Now();
      AdvancesReflexive(s, lev);
      Carried(block);
      RecordBallot(block, s);
      if leaderOf(block.view + 1) == self {
        ghost var mid := Now();
        ProcessVote(OwnVote(block), h);
        if !crashed {
          assert mid.trace + [CountVote(OwnVote(block))] == old(trace) + [VoteFor(block), CountVote(OwnVote(block))];
          AdvancesTransitive(s, mid, Now(), lev);
          AdvancesRemembers(mid, Now(), lev, block.id, OwnVote(block), OwnMessage(block));
        }
      } else {
        Send(OwnMessage(block), s);
      }
    }

    method ProcessVote(vote: Vote, ghost h: int)
      requires Valid() && !crashed && vote.view == lev(vote.blockId) && Held(h)
      modifies this
      ensures crashed ==> Stuck(bc.forest, lev)
      ensures !crashed ==> Valid() && Held(h) && Since(old(Now()))
      ensures vote.voter != self && !verifyVote(vote) ==> !crashed && Now() == old(Now()) && bufferedQCs == old(bufferedQCs)
      ensures !crashed && (vote.voter == self || verifyVote(vote)) ==> old(trace) + [CountVote(vote)] <= trace
      ensures !Ignores(vote) && !Completes(old(bc.votes), vote) ==> VoteCounted(vote) && bufferedQCs == old(bufferedQCs)
      ensures !Ignores(vote) && Completes(old(bc.votes), vote) && old(bc.forest).GetVertex(vote.blockId).None? ==>
        && VoteCounted(vote) && vote.blockId in bufferedQCs && bufferedQCs == old(bufferedQCs)[vote.blockId := bufferedQCs[vote.blockId]]
        && Built(bufferedQCs[vote.blockId], vote, bc.votes)
      ensures !crashed && !Ignores(vote) && Completes(old(bc.votes), vote) && old(bc.forest).GetVertex(vote.blockId).Some? ==>
        AnnouncedCertificate(old(Now()), vote) && Digested(old(bc.forest), State(), QC(vote.view, vote.blockId, 0, [], []))
      decreases h - pm.curView, Waiting(pm.curView), 3, 1
    {
      hide Stuck, Valid, Advances, Certifies, Reports, Collect, Digested, NewHigh, AnnouncedCertificate;
      ghost var s := Now();
      AdvancesReflexive(s, lev);
      if vote.voter != self && !verifyVote(vote) {
        return;
      }
      var built := AddVote(vote, s);
      if built.None? {
        return;
      }
      var qc := built.value.(leader := self);
      CertifiesUnder(built.value, bc.votes[vote.blockId], self);
      if bc.forest.GetVertex(qc.blockId).None? {
        BufferQC(qc, s);
        return;
      }
      ghost var mid := Now();
      AnnounceCertificate(qc, h);
      if !crashed {
        AdvancesTransitive(s, mid, Now(), lev);
        AdvancesTrace(mid, Now(), lev);
        SameHigh(s.core, mid.core, qc);
        Announces(s, vote, qc);
        SameDigest(s.core.chain.forest, State(), qc, QC(vote.view, vote.blockId, 0, [], []));
      }
    }

    /** Processes a certificate of the replica's own and starts the view change. */
    method AnnounceCertificate(qc: QC, ghost h: int)
      requires Valid() && !crashed && QCOk(lev, qc) && qc.leader == self && Held(h)
      modifies this
      ensures crashed ==> Stuck(bc.forest, lev)
      ensures !crashed ==> Valid() && Held(h) && Since(old(Now())) && Digested(old(bc.forest), State(), qc)
      ensures !crashed ==> BroadcastVmo(VMO(old(pm.curView), self, NewHigh(old(State()), qc))) in sent
      decreases h - pm.curView, Waiting(pm.curView), 3, 0
    {
      hide Stuck, Valid, Advances, Digested, NewHigh, Rules.ProcessCertificate;
      ghost var s := Now();
      NewHighIs(qc);
      ProcessCertificate(qc);
      if crashed { return; }
      ghost var mid := Now();
      ProcessLocalVmo(pm.curView, h);
      if !crashed {
        AdvancesTransitive(s, mid, Now(), lev);
        AdvancesDigests(s.core.chain.forest, mid, Now(), lev, qc);
      }
    }

    method ProcessLocalVmo(view: View, ghost h: int)
      requires Valid() && !crashed && Held(h)
      modifies this
      ensures crashed ==> Stuck(bc.forest, lev)
      ensures !crashed ==> Valid() && Held(h) && Since(old(Now())) && BroadcastVmo(VMO(view, self, old(highQC))) in sent
      ensures leaderOf(view + 1) == self ==>
        && !crashed && State() == old(State()) && bufferedQCs == old(bufferedQCs)
        && pm == AfterVmo(old(pm), VMO(view, self, old(highQC)))
      ensures leaderOf(view + 1) != self && Started(old(pm)).curView < view ==>
        !crashed && pm == Started(old(pm)) && receivedVMO == old(receivedVMO)[view - 1 := VMO(view, self, old(highQC))]
      ensures !crashed && leaderOf(view + 1) != self ==> view - 1 in receivedVMO || pm.curView > view
      ensures !crashed && leaderOf(view + 1) != self && Started(old(pm)).curView >= view && view - 1 in old(receivedBlock) ==> pm.curView > view
      decreases h - view, Waiting(view), 2, 0
    {
      hide Stuck, Valid, Advances, AfterVmo;
      ghost var s := Now();
      AdvancesReflexive(s, lev);
      var vmo := VMO(view, self, highQC);
      Send(BroadcastVmo(vmo), s);
      ghost var mid := Now();
      ProcessRemoteVmo(vmo, h);
      if !crashed {
        AdvancesTransitive(s, mid, Now(), lev);
        AdvancesRemembers(mid, Now(), lev, 0, Vote(0, 0, 0, 0), BroadcastVmo(vmo));
      }
    }

    method ProcessRemoteVmo(vmo: VMO, ghost h: int)
      requires Valid() && !crashed && Held(h)
      modifies this
      ensures crashed ==> Stuck(bc.forest, lev)
      ensures !crashed ==> Valid() && Held(h) && Since(old(Now()))
      ensures leaderOf(vmo.view + 1) == self ==> CollectedOnly(vmo)
      ensures leaderOf(vmo.view + 1) != self && Started(old(pm)).curView < vmo.view ==> HeldBackOnly(vmo)
      ensures !crashed && leaderOf(vmo.view + 1) != self ==> vmo.view - 1 in receivedVMO || pm.curView > vmo.view
      ensures !crashed && leaderOf(vmo.view + 1) != self && Started(old(pm)).curView >= vmo.view && vmo.view - 1 in old(receivedBlock) ==>
        pm.curView > vmo.view
      ensures !crashed && leaderOf(vmo.view + 1) != self ==> TookUp(old(Now()), Now(), vmo.view)
      decreases h - vmo.view, Waiting(vmo.view), 1, 2
    {
      hide Stuck, Valid, Advances, AfterVmo, TookUp, Started;
      ghost var s := Now();
      AdvancesReflexive(s, lev);
      SeeVmo(vmo.view, s);
      if leaderOf(vmo.view + 1) == self {
        CollectVmo(vmo, s);
        return;
      }
      ghost var mid := Now();
      FollowVmo(vmo, h);
      if !crashed {
        AdvancesTransitive(s, mid, Now(), lev);
        TookUpEarlier(s, mid, Now(), vmo.view);
      }
    }

    /** A VMO at a replica that does not lead the next view: it is kept, and taken up once its view has been reached. */
    method FollowVmo(vmo: VMO, ghost h: int)
      requires Valid() && !crashed && Held(h) && vmo.view in seenVmos
      modifies this
      ensures crashed ==> Stuck(bc.forest, lev)
      ensures !crashed ==> Valid() && Held(h) && Since(old(Now()))
      ensures Started(old(pm)).curView < vmo.view ==> HeldBackOnly(vmo)
      ensures !crashed ==> vmo.view - 1 in receivedVMO || pm.curView > vmo.view
      ensures !crashed && Started(old(pm)).curView >= vmo.view && vmo.view - 1 in old(receivedBlock) ==> pm.curView > vmo.view
      ensures !crashed ==> TookUp(old(Now()), Now(), vmo.view)
      decreases h - vmo.view, Waiting(vmo.view), 1, 1
    {
      hide Stuck, Valid, Advances, TookUp, Started;
      ghost var s := Now();
      AdvancesReflexive(s, lev);
      KeepVmo(vmo, s);
      if pm.curView < vmo.view {
        NothingOverdue(s, Now(), vmo.view);
        return;
      }
      ghost var mid := Now();
      ProcessReachedVmo(vmo.view, h);
      if !crashed {
        AdvancesTransitive(s, mid, Now(), lev);
        AdvancesHolds(mid, Now(), lev, vmo.view);
        TookUpEarlier(s, mid, Now(), vmo.view);
      }
    }

    /** A VMO whose view has been reached: try to leave the view, then take up a VMO of the next one. */
    method ProcessReachedVmo(view: View, ghost h: int)
      requires Valid() && !crashed && Held(h)
      modifies this
      ensures crashed ==> Stuck(bc.forest, lev)
      ensures !crashed ==> Valid() && Held(h) && Since(old(Now()))
      ensures !crashed && view - 1 in old(receivedVMO) && view - 1 in old(receivedBlock) ==> pm.curView > view
      ensures !crashed && old(Paired(view) && Paired(view + 1)) && view - 1 !in old(bufferedBlocks) && leaderOf(view + 2) != self ==>
        pm.curView > view + 1
      ensures !crashed && view - 1 in old(receivedVMO) ==> TookUp(old(Now()), Now(), view)
      decreases h - view, Waiting(view), 1, 0
    {
      hide Held, Stuck, Valid, Advances, AfterVmo, TookUp;
      ghost var s := Now();
      var ok := ProcessVMOAndBlock(view, h);
      if crashed { return; }
      if ok && view in receivedVMO {
        ReceivedVmoIs(view);
        ghost var mid := Now();
        ProcessRemoteVmo(receivedVMO[view], h);
        if !crashed {
          AdvancesTransitive(s, mid, Now(), lev);
          AdvancesMeasure(mid, Now(), lev, view + 1);
          if view - 1 in s.vmos { TookUpLater(s, mid, Now(), view); }
        }
      }
    }

    /** Leaves a view for which both a VMO and a block have arrived, after taking up a buffered block of it. */
    method ProcessVMOAndBlock(view: View, ghost h: int) returns (ok: bool)
      requires Valid() && !crashed && Held(h)
      modifies this
      ensures crashed ==> Stuck(bc.forest, lev)
      ensures !crashed ==> Valid() && Held(h) && Since(old(Now()))
      ensures !crashed && ok ==> view <= h && pm.curView > view && view - 1 !in receivedVMO && view - 1 !in receivedBlock
      ensures !crashed && !ok && view - 1 in old(receivedVMO) ==> view - 1 !in receivedBlock
      ensures !crashed && view - 1 in old(receivedVMO) && view - 1 in old(receivedBlock) ==> pm.curView > view
      ensures view - 1 !in old(receivedVMO) ==> !ok && !crashed && Now() == old(Now()) && bufferedQCs == old(bufferedQCs)
      ensures view - 1 in old(receivedVMO) && view - 1 in old(receivedBlock) && view - 1 !in old(bufferedBlocks) ==>
        ok && !crashed && receivedVMO == old(receivedVMO) - {view - 1} && receivedBlock == old(receivedBlock) - {view - 1}
      ensures !crashed && ok && leaderOf(view + 1) != self ==>
        VmoTo(leaderOf(view + 1), old(receivedVMO)[view - 1].(nodeId := self)) in sent
      ensures !crashed && view - 1 in old(receivedVMO) ==> TookUp(old(Now()), Now(), view)
      decreases h - view, Waiting(view), 0, 1
    {
      hide Stuck, Valid, Advances, TookUp, ProcessedIn, Started;
      ghost var s := Now();
      AdvancesReflexive(s, lev);
      if view - 1 !in receivedVMO {
        return false;
      }
      ReceivedVmoIs(view - 1);
      var vmo := receivedVMO[view - 1];
      var _ := TakeUpBuffered(view, h);
      if crashed { return false; }
      ghost var mid := Now();
      AdvancesReflexive(mid, lev);
      AdvancesHolds(s, mid, lev, view);
      AdvancesSees(s, mid, lev);
      if view - 1 !in receivedBlock {
        return false;
      }
      ReceivedBlockIs(view - 1);
      ForwardAndLeave(view, vmo, mid);
      AdvancesTransitive(s, mid, Now(), lev);
      TookUpLater(s, mid, Now(), view);
      return true;
    }

    /** Takes the block buffered for a view out of the buffer and processes it. */
    method TakeUpBuffered(view: View, ghost h: int) returns (next: Option<Fate>)
      requires Valid() && !crashed && Held(h)
      modifies this
      ensures crashed ==> Stuck(bc.forest, lev)
      ensures !crashed ==> Valid() && Held(h) && Since(old(Now()))
      ensures view - 1 !in old(bufferedBlocks) ==> !crashed && Now() == old(Now()) && bufferedQCs == old(bufferedQCs)
      ensures next.Some? <==> view - 1 in old(bufferedBlocks)
      ensures next.Some? ==> (next.value == Queued <==> view > Started(old(pm)).curView)
      ensures next == Some(Queued) ==> !crashed && bufferedBlocks == old(bufferedBlocks) && bufferedQCs == old(bufferedQCs)
      ensures !crashed && next.Some? && next.value != Queued ==>
        && Processed(old(bufferedBlocks)[view - 1], next.value) && (view - 1 in receivedBlock || pm.curView > view)
        && view - 1 !in bufferedBlocks && (view - 1 in old(receivedVMO) ==> pm.curView > view)
      ensures !crashed && view - 1 in old(receivedVMO) ==> TookUp(old(Now()), Now(), view)
      decreases h - view, Waiting(view), 0, 0
    {
      hide Stuck, Valid, Advances, ProcessedIn, Judged, Crashes, Digested, Weighed;
      ghost var s := Now();
      AdvancesReflexive(s, lev);
      next := None;
      if view - 1 in bufferedBlocks {
        var block := bufferedBlocks[view - 1];
        BufferedIs(view - 1);
        DropBuffered(view - 1, s);
        ghost var mid := Now();
        var fate := ProcessBlock(block, h);
        next := Some(fate);
        if !crashed {
          AdvancesTransitive(s, mid, Now(), lev);
          if fate != Queued {
            WeighedAs(mid, Now(), block, fate);
            WeighedEarlier(s, mid, Now(), block);
          }
        }
        assert fate == Queued ==> bufferedBlocks == s.buffered;
      }
    }

    // What the handlers leave behind.

    /** A certificate of the replica's own, or one whose signatures verify. */
    predicate Accepts(qc: QC) {
      qc.leader == self || verifyQC(qc)
    }

    /** The block carries a certificate that the replica has to process. */
    predicate Carries(block: Block) {
      block.qc.Some? && block.proposer != self && Accepts(block.qc.value)
    }

    /** With its block now there, a view is left if its VMO had arrived; otherwise the block waits for it, unless
        the view is left in the meantime. */
    twostate predicate Left(view: View)
      reads this
    {
      (view - 1 in old(receivedVMO) ==> pm.curView > view) && (view - 1 in receivedBlock || pm.curView > view)
    }

    /** The block carries a certificate and comes from the leader of its view. */
    predicate Rightful(block: Block) {
      block.qc.Some? && leaderOf(block.view) == block.proposer
    }

    /** Processing the certificate carried takes the replica down. */
    ghost predicate Crashes(core: Core, block: Block, curView: View) {
      Carries(block) && Descending(core.chain.forest) &&
      Rules.ProcessCertificate(core.(highQC := HigherQC(core.highQC, block.qc.value)), block.qc.value, curView).Crashes?
    }

    lemma NoCertificate(core: Core, block: Block, curView: View)
      ensures block.qc.None? ==> !Crashes(core, block, curView)
    {
    }

    /** What a replica takes down of the certificate a block carries. */
    function NotesOf(block: Block, curView: View): seq<Turns.Step> {
      if block.qc.None? then [] else [NoteQC(block.qc.value)] + if Carries(block) then [LearnQC(block.qc.value, curView)] else []
    }

    function VotesOf(block: Block, fate: Fate): seq<Turns.Step> {
      if fate == Voted then [VoteFor(block)] else []
    }

    /** All the steps a block leads to when nothing else is waiting. */
    function TurnOf(block: Block, fate: Fate, curView: View): seq<Turns.Step> {
      NotesOf(block, curView) + if Rightful(block) then [PutBlock(block)] + VotesOf(block, fate) else []
    }

    lemma TurnIs(before: seq<Turns.Step>, block: Block, fate: Fate, curView: View)
      ensures before + TurnOf(block, fate, curView) ==
        if Rightful(block) then before + NotesOf(block, curView) + ([PutBlock(block)] + VotesOf(block, fate))
        else before + NotesOf(block, curView)
    {
      Regroup(before, NotesOf(block, curView), [PutBlock(block)] + VotesOf(block, fate));
      assert NotesOf(block, curView) + [] == NotesOf(block, curView);
    }

    /** No certificate waits for the block, another replica collects the votes for it, and the clock stands at its view
        or no successor is buffered. */
    predicate Undisturbed(block: Block)
      reads this
    {
      && block.id !in bufferedQCs && leaderOf(block.view + 1) != self && block.view <= Started(pm).curView
      && (Started(pm).curView == block.view || block.view !in bufferedBlocks)
    }

    /** Nor is there a VMO for its view. */
    predicate Alone(block: Block)
      reads this
    {
      Undisturbed(block) && block.view - 1 !in receivedVMO
    }

    /** Neither the clock nor the core nor what was received or certified has changed. */
    twostate predicate Still()
      reads this
    {
      && pm == old(pm) && State() == old(State()) && bufferedQCs == old(bufferedQCs)
      && receivedBlock == old(receivedBlock) && receivedVMO == old(receivedVMO)
    }

    /** The clock and the VMOs are as before, and apart from this block and its certificate nothing is new. */
    twostate predicate Aside(block: Block)
      reads this
    {
      && pm == old(pm) && receivedVMO == old(receivedVMO)
      && StoresOnly(old(bc.forest), bc.forest, block.id)
      && forall id :: id in bufferedQCs ==> id in old(bufferedQCs) || id == block.prevId
    }

    /** A vote empties the slot of the next view, and nothing else changes in the buffer. */
    twostate predicate Emptied(block: Block, fate: Fate)
      reads this
    {
      bufferedBlocks == if fate == Voted then old(bufferedBlocks) - {block.view} else old(bufferedBlocks)
    }

    /** Such a block is received, and exactly the steps of its turn are taken: it is stored, and voted for if and only if
        the voting rule approves. Its successor in the buffer is then lost: neither received nor stored. */
    twostate predicate PassedBy(block: Block, fate: Fate)
      reads this
    {
      && pm == Started(old(pm)) && receivedVMO == old(receivedVMO) && receivedBlock == old(receivedBlock)[block.view - 1 := block]
      && Emptied(block, fate) && StoresOnly(old(bc.forest), bc.forest, block.id)
      && trace == old(trace) + TurnOf(block, fate, pm.curView)
      && (Rightful(block) ==> fate == FateOf(VotingRule(bc.forest, preferredView, block)))
      && forall id :: id in bufferedQCs ==> id in old(bufferedQCs) || id == block.prevId
    }

    /** What became of the block buffered for the view after `view` since `s`: it was processed exactly if the clock had
        passed `view`; otherwise it is gone, and nothing else has changed. */
    ghost predicate TakenUp(s: Snap, view: View, next: Option<Fate>)
      reads this
    {
      && (next.Some? <==> view in s.buffered)
      && (next.None? ==> Now() == s)
      && (next.Some? ==> (next.value != Queued <==> s.pm.curView > view))
      && (next.Some? && next.value != Queued ==> Processed(s.buffered[view], next.value))
      && (next == Some(Queued) ==> Now() == s.(buffered := s.buffered - {view}, seenBlocks := s.seenBlocks + {view + 1}))
    }

    /** Both a VMO and a block of the view are there. */
    predicate Paired(view: View)
      reads this
    {
      view - 1 in receivedVMO && view - 1 in receivedBlock
    }

    /** A VMO of the replica's own was broadcast for a view. */
    ghost predicate AnnouncedVmo(view: View)
      reads this
    {
      exists qc :: BroadcastVmo(VMO(view, self, qc)) in sent
    }

    /** The certificate of a completed vote: it lists the voters collected. */
    ghost predicate Built(qc: QC, vote: Vote, votes: Tally<Id, Vote>) {
      && qc.view == vote.view && qc.blockId == vote.blockId && qc.leader == self
      && vote.blockId in votes && Certifies(qc, votes[vote.blockId])
    }

    /** The VMO that a completed vote leads to carries the highest certificate, the new one included if it was applied. */
    ghost predicate AnnouncedCertificate(s: Snap, vote: Vote)
      reads this
    {
      exists qc :: Announced(s, vote, qc)
    }

    ghost predicate Announced(s: Snap, vote: Vote, qc: QC)
      reads this
    {
      && Built(qc, vote, Collect(s.core.chain.votes, byzNo * 2 + 1, vote.blockId, vote.voter, vote))
      && BroadcastVmo(VMO(s.pm.curView, self, NewHigh(s.core, qc))) in sent
    }

    lemma Announces(s: Snap, vote: Vote, qc: QC)
      requires Announced(s, vote, qc)
      ensures AnnouncedCertificate(s, vote)
    {
    }

    lemma SameHigh(c: Core, c': Core, qc: QC)
      requires c'.chain.forest == c.chain.forest && c'.preferredView == c.preferredView && c'.highQC == c.highQC
      ensures NewHigh(c', qc) == NewHigh(c, qc)
    {
    }

    function NewHigh(core: Core, qc: QC): QC {
      if NextPreferred(core.chain.forest, core.preferredView, qc).Some? then HigherQC(core.highQC, qc) else core.highQC
    }

    lemma NewHighIs(qc: QC)
      requires Valid()
      ensures Descending(bc.forest)
      ensures match Rules.ProcessCertificate(State(), qc, pm.curView)
        case Crashes => true
        case Buffered => highQC == NewHigh(State(), qc)
        case Applied(core, _, _) => core.highQC == NewHigh(State(), qc)
    {
      hide Good, Rootless, Ordered, Traced, Descending, CommitBlock, CommitRule;
    }

    /** The clock once the first view has been entered. */
    function Started(p: Clock): Clock {
      if p.curView < 1 then Advance(p, 0) else p
    }

    function OwnVote(block: Block): Vote {
      Vote(block.view, self, block.id, 0)
    }

    function OwnMessage(block: Block): Message {
      VoteTo(leaderOf(block.view + 1), OwnVote(block))
    }

    /** A vote whose signature does not verify. */
    predicate Ignores(vote: Vote) {
      vote.voter != self && !verifyVote(vote)
    }

    /** The vote completes a certificate. */
    predicate Completes(votes: Tally<Id, Vote>, vote: Vote) {
      Reports(votes, byzNo * 2 + 1, vote.blockId, vote.voter, vote)
    }

    /** Only the vote was recorded, apart from the buffered certificates. */
    twostate predicate VoteCounted(vote: Vote)
      reads this
    {
      var collected := old(bc).(votes := Collect(old(bc.votes), byzNo * 2 + 1, vote.blockId, vote.voter, vote));
      !crashed && Now() == old(Now()).(core := old(State()).(chain := collected), trace := old(trace) + [CountVote(vote)])
    }

    /** Outside the clock and the named buffers nothing changed. */
    twostate predicate Quiet()
      reads this
    {
      && !crashed && State() == old(State()) && bufferedQCs == old(bufferedQCs) && receivedBlock == old(receivedBlock)
      && sent == old(sent) && ballots == old(ballots) && committedBlocks == old(committedBlocks) && forkedBlocks == old(forkedBlocks)
    }

    /** A block of a later view is only buffered. */
    twostate predicate QueuedOnly(block: Block)
      reads this
    {
      && !crashed && bufferedQCs == old(bufferedQCs)
      && Now() == old(Now()).(pm := Started(old(pm)), buffered := old(bufferedBlocks)[block.view - 1 := block],
                              seenBlocks := old(seenBlocks) + {block.view})
    }

    /** At the leader of the next view a VMO is only counted, and moves the clock when it completes a quorum. */
    twostate predicate CollectedOnly(vmo: VMO)
      reads this
    {
      && Quiet() && bufferedBlocks == old(bufferedBlocks) && receivedVMO == old(receivedVMO)
      && pm == AfterVmo(old(pm), vmo)
    }

    /** Elsewhere a VMO of a later view is only kept. */
    twostate predicate HeldBackOnly(vmo: VMO)
      reads this
    {
      Quiet() && bufferedBlocks == old(bufferedBlocks) && receivedVMO == old(receivedVMO)[vmo.view - 1 := vmo] && pm == Started(old(pm))
    }

    ghost predicate Processed(block: Block, fate: Fate)
      reads this
    {
      ProcessedIn(Now(), block, fate)
    }

    /** A block without certificate or from the wrong leader fails; a certificate carried is not above the highest
        one known; a block that passed the leader check is stored until pruned, and up to view 2 it is voted for. */
    ghost predicate ProcessedIn(s: Snap, block: Block, fate: Fate) {
      && (block.qc.None? || leaderOf(block.view) != block.proposer ==> fate == Failed)
      && (block.qc.Some? ==> s.core.highQC.view >= block.qc.value.view)
      && (block.qc.Some? && leaderOf(block.view) == block.proposer ==> Kept(s.core.chain.forest, lev, block.id))
      && (fate == Voted ==> VotedIn(s, block))
      && (block.qc.Some? && leaderOf(block.view) == block.proposer && block.view <= 2 ==> fate == Voted)
    }

    ghost predicate VotedFor(block: Block)
      reads this
    {
      VotedIn(Now(), block)
    }

    /** The vote was cast, and sent to the leader of the next view unless the replica collects it itself; the buffer slot
        of the next view is empty, whether or not the block in it could be processed. */
    ghost predicate VotedIn(s: Snap, block: Block) {
      && Cast(s.ballots, Vote(block.view, self, block.id, 0)) && block.view !in s.buffered
      && (leaderOf(block.view + 1) != self ==> VoteTo(leaderOf(block.view + 1), Vote(block.view, self, block.id, 0)) in s.sent)
    }

    /** Between the two states the block was processed, and a rightful one judged by the voting rule. */
    ghost predicate Weighed(s: Snap, s': Snap, block: Block) {
      exists fate :: fate != Queued && ProcessedIn(s', block, fate) && (Rightful(block) ==> Judged(s, s', lev, block, fate))
    }

    /** A block of a view that has been reached is still in the buffer. */
    ghost predicate Overdue(s: Snap, view: View) {
      view - 1 in s.buffered && view <= Started(s.pm).curView
    }

    /** An overdue block was processed, is out of the buffer, and its view has been left. */
    ghost predicate TookUp(s: Snap, s': Snap, view: View) {
      Overdue(s, view) ==>
        && s.buffered[view - 1].view == view && Weighed(s, s', s.buffered[view - 1])
        && view - 1 !in s'.buffered && s'.pm.curView > view
    }

    lemma WeighedAs(s: Snap, s': Snap, block: Block, fate: Fate)
      requires fate != Queued && ProcessedIn(s', block, fate) && (Rightful(block) ==> Judged(s, s', lev, block, fate))
      ensures Weighed(s, s', block)
    {
      hide ProcessedIn, Judged;
    }

    lemma WeighedEarlier(s: Snap, mid: Snap, s': Snap, block: Block)
      requires Advances(s, mid, lev) && Weighed(mid, s', block)
      ensures Weighed(s, s', block)
    {
      hide ProcessedIn, Judged, Advances;
      var fate :| fate != Queued && ProcessedIn(s', block, fate) && (Rightful(block) ==> Judged(mid, s', lev, block, fate));
      if Rightful(block) { JudgedEarlier(s, mid, s', lev, block, fate); }
      WeighedAs(s, s', block, fate);
    }

    lemma NothingOverdue(s: Snap, s': Snap, view: View)
      ensures Started(s.pm).curView < view ==> TookUp(s, s', view)
    {
    }

    lemma TookUpEarlier(s: Snap, mid: Snap, s': Snap, view: View)
      requires Advances(s, mid, lev) && TookUp(mid, s', view)
      requires mid.buffered == s.buffered && (mid.pm == s.pm || mid.pm == Started(s.pm))
      ensures TookUp(s, s', view)
    {
      hide Weighed, Advances;
      if Overdue(s, view) { WeighedEarlier(s, mid, s', s.buffered[view - 1]); }
    }

    lemma ProcessedLater(s: Snap, s': Snap, block: Block, fate: Fate)
      requires Advances(s, s', lev) && s.pm.curView > block.view && ProcessedIn(s, block, fate)
      ensures ProcessedIn(s', block, fate)
    {
      var vote := Vote(block.view, self, block.id, 0);
      AdvancesRemembers(s, s', lev, block.id, vote, VoteTo(leaderOf(block.view + 1), vote));
      AdvancesMeasure(s, s', lev, block.view + 1);
      hide Advances, Cast, Kept;
    }

    lemma TookUpLater(s: Snap, mid: Snap, s': Snap, view: View)
      requires TookUp(s, mid, view) && Advances(mid, s', lev)
      ensures TookUp(s, s', view)
    {
      hide ProcessedIn, Judged, Advances, Started;
      if Overdue(s, view) {
        var block := s.buffered[view - 1];
        var fate :| fate != Queued && ProcessedIn(mid, block, fate) && (Rightful(block) ==> Judged(s, mid, lev, block, fate));
        ProcessedLater(mid, s', block, fate);
        if Rightful(block) { JudgedLater(s, mid, s', lev, block, fate); }
        WeighedAs(s, s', block, fate);
        AdvancesMeasure(mid, s', lev, view);
        AdvancesClock(mid, s', lev);
      }
    }

    // Steps the handlers share. Each keeps whatever advance there was since an earlier state.

    lemma Carried(block: Block)
      requires BlockOk(lev, block) && block.qc.Some?
      ensures QCOk(lev, block.qc.value) && block.view == lev(block.id) && block.view > 0
      ensures block.qc.value.blockId == block.prevId && block.prevId != block.id
    {
    }

    lemma CoreIs()
      requires Valid()
      ensures CoreOk(State(), lev)
    {
      hide CoreOk;
    }

    lemma DescendsIs()
      requires Valid()
      ensures Descending(bc.forest)
    {
      hide Descending;
    }

    lemma BufferedIs(k: int)
      requires Valid() && k in bufferedBlocks
      ensures bufferedBlocks[k].view == k + 1 && BlockOk(lev, bufferedBlocks[k])
    {
    }

    lemma BufferedQCIs(id: Id)
      requires Valid() && id in bufferedQCs
      ensures QCOk(lev, bufferedQCs[id])
    {
    }

    lemma ReceivedBlockIs(k: int)
      requires Valid() && k in receivedBlock
      ensures receivedBlock[k].view == k + 1
    {
    }

    lemma ReceivedVmoIs(k: int)
      requires Valid() && k in receivedVMO
      ensures receivedVMO[k].view == k + 1 && receivedVMO[k].view in seenVmos
    {
    }

    /** Enters the first view unless a view has been entered. */
    method StartClock(ghost s: Snap)
      requires Valid() && Since(s)
      modifies this`pm
      ensures Valid() && Since(s) && pm == Started(old(pm)) && pm.curView >= 1
    {
      if pm.curView < 1 {
        AdvanceView(0);
        AdvancesTransitive(s, old(Now()), Now(), lev);
      }
    }

    /** Takes note of a block's view, with the clock started. */
    method Enter(view: View, ghost s: Snap)
      requires Valid() && Since(s)
      modifies this`pm, this`seenBlocks
      ensures Valid() && Since(s) && pm == Started(old(pm)) && pm.curView >= 1 && seenBlocks == old(seenBlocks) + {view}
    {
      hide Stuck, Valid, Advances;
      SeeBlock(view, s);
      StartClock(s);
    }

    method BufferBlock(block: Block, ghost s: Snap)
      requires Valid() && Since(s) && BlockOk(lev, block) && block.view > pm.curView
      modifies this`bufferedBlocks
      ensures Valid() && Since(s) && bufferedBlocks == old(bufferedBlocks)[block.view - 1 := block]
    {
      hide CoreOk, AllBacked, EventsOk, DeliveryOk, Traced;
      bufferedBlocks := bufferedBlocks[block.view - 1 := block];
    }

    method DropBuffered(k: int, ghost s: Snap)
      requires Valid() && Since(s)
      modifies this`bufferedBlocks
      ensures Valid() && Since(s) && bufferedBlocks == old(bufferedBlocks) - {k}
    {
      hide CoreOk, AllBacked, EventsOk, DeliveryOk, Traced;
      bufferedBlocks := bufferedBlocks - {k};
    }

    method ReceiveBlock(block: Block, ghost s: Snap)
      requires Valid() && Since(s) && BlockOk(lev, block) && block.view in seenBlocks
      modifies this`receivedBlock
      ensures Valid() && Since(s) && receivedBlock == old(receivedBlock)[block.view - 1 := block]
    {
      hide CoreOk, AllBacked, EventsOk, DeliveryOk, Traced;
      receivedBlock := receivedBlock[block.view - 1 := block];
    }

    method ReceiveVmo(vmo: VMO, ghost s: Snap)
      requires Valid() && Since(s) && vmo.view in seenVmos
      modifies this`receivedVMO
      ensures Valid() && Since(s) && receivedVMO == old(receivedVMO)[vmo.view - 1 := vmo]
    {
      hide CoreOk, AllBacked, EventsOk, DeliveryOk, Traced;
      receivedVMO := receivedVMO[vmo.view - 1 := vmo];
    }

    /** Keeps a VMO, with the clock started. */
    method KeepVmo(vmo: VMO, ghost s: Snap)
      requires Valid() && Since(s) && vmo.view in seenVmos
      modifies this`receivedVMO, this`pm
      ensures Valid() && Since(s) && receivedVMO == old(receivedVMO)[vmo.view - 1 := vmo] && pm == Started(old(pm))
    {
      hide Valid, Advances;
      ReceiveVmo(vmo, s);
      StartClock(s);
    }

    /** Consumes the VMO and the block of a view and leaves the view. */
    method TakeBoth(view: View, ghost s: Snap)
      requires Valid() && Since(s) && view - 1 in receivedBlock && view in seenVmos
      modifies this`receivedVMO, this`receivedBlock, this`pm
      ensures Valid() && Since(s) && receivedVMO == old(receivedVMO) - {view - 1} && receivedBlock == old(receivedBlock) - {view - 1}
      ensures pm == Advance(old(pm), view) && pm.curView > view
    {
      hide CoreOk, AllBacked, EventsOk, DeliveryOk, Traced;
      assert receivedBlock[view - 1].view == view;
      receivedVMO := receivedVMO - {view - 1};
      receivedBlock := receivedBlock - {view - 1};
      AdvanceView(view);
      AdvancesTransitive(s, old(Now()), Now(), lev);
    }

    /** Passes a VMO on to the leader of the next view and leaves the view. */
    method ForwardAndLeave(view: View, vmo: VMO, ghost s: Snap)
      requires Valid() && Since(s) && view - 1 in receivedBlock && view in seenVmos
      modifies this`sent, this`receivedVMO, this`receivedBlock, this`pm
      ensures Valid() && Since(s) && pm.curView > view
      ensures receivedVMO == old(receivedVMO) - {view - 1} && receivedBlock == old(receivedBlock) - {view - 1}
      ensures leaderOf(view + 1) != self ==> VmoTo(leaderOf(view + 1), vmo.(nodeId := self)) in sent
    {
      hide Valid, Advances;
      if leaderOf(view + 1) != self {
        Send(VmoTo(leaderOf(view + 1), vmo.(nodeId := self)), s);
      }
      TakeBoth(view, s);
    }

    method BufferQC(qc: QC, ghost s: Snap)
      requires Valid() && Since(s) && QCOk(lev, qc)
      modifies this`bufferedQCs
      ensures Valid() && Since(s) && bufferedQCs == old(bufferedQCs)[qc.blockId := qc]
    {
      hide CoreOk, AllBacked, EventsOk, DeliveryOk, Traced, Advances;
      bufferedQCs := bufferedQCs[qc.blockId := qc];
    }

    method DropQC(id: Id, ghost s: Snap)
      requires Valid() && Since(s)
      modifies this`bufferedQCs
      ensures Valid() && Since(s) && bufferedQCs == old(bufferedQCs) - {id}
    {
      hide CoreOk, AllBacked, EventsOk, DeliveryOk, Traced, Advances;
      bufferedQCs := bufferedQCs - {id};
    }

    method Send(m: Message, ghost s: Snap)
      requires Valid() && Since(s)
      modifies this`sent
      ensures Valid() && Since(s) && sent == old(sent) + [m]
    {
      hide CoreOk, AllBacked, EventsOk, DeliveryOk, Traced;
      sent := sent + [m];
    }

    ghost method RecordBallot(block: Block, s: Snap)
      requires Valid() && Since(s) && BlockOk(lev, block) && block.qc.Some? && VotingRule(bc.forest, preferredView, block) == Approve
      modifies this`ballots, this`trace
      ensures Valid() && Since(s) && Cast(ballots, OwnVote(block))
      ensures ballots == old(ballots) + [BallotFor(self, State(), block)] && trace == old(trace) + [VoteFor(block)]
    {
      hide CoreOk, AllBacked, EventsOk, DeliveryOk, Traced, BlocksOk, VmosOk, QCsOk, Seen, Filed, BallotsOk;
      hide VotingRule, BlockOk, Descending, Advances, Cast;
      DescendsIs();
      AdvancesVoting(s, Now(), lev, BallotFor(self, State(), block), VoteFor(block));
      BallotIsOk(State(), lev, self, block, ballots);
      TraceGrows(self, byzNo, lev, trace, Done(), VoteFor(block));
      ballots := ballots + [BallotFor(self, State(), block)];
      trace := trace + [VoteFor(block)];
    }

    method SeeBlock(view: View, ghost s: Snap)
      requires Valid() && Since(s)
      modifies this`seenBlocks
      ensures Valid() && Since(s) && seenBlocks == old(seenBlocks) + {view}
    {
      hide CoreOk, EventsOk, DeliveryOk, AllBacked, Traced;
      MoreIsBacked(pm, pm, self, leaderOf, seenBlocks, seenVmos, seenBlocks + {view}, seenVmos);
      seenBlocks := seenBlocks + {view};
    }

    method SeeVmo(view: View, ghost s: Snap)
      requires Valid() && Since(s)
      modifies this`seenVmos
      ensures Valid() && Since(s) && seenVmos == old(seenVmos) + {view}
    {
      hide CoreOk, EventsOk, DeliveryOk, AllBacked, Traced;
      MoreIsBacked(pm, pm, self, leaderOf, seenBlocks, seenVmos, seenBlocks, seenVmos + {view});
      seenVmos := seenVmos + {view};
    }

    method StoreBlock(block: Block, ghost s: Snap)
      requires Valid() && Since(s) && BlockOk(lev, block) && block.qc.Some?
      modifies this`bc, this`trace
      ensures Valid() && Since(s) && bc == AddBlock(old(bc), block) && Kept(bc.forest, lev, block.id)
      ensures StoresOnly(old(bc.forest), bc.forest, block.id) && trace == old(trace) + [PutBlock(block)]
    {
      hide Good, Retains, Kept, AddVertex, Fits, EventsOk, DeliveryOk, AllBacked, Traced, Descending, Rootless, Ordered, StoresOnly;
      TraceGrows(self, byzNo, lev, trace, Done(), PutBlock(block));
      AddStoresOnly(bc.forest, block);
      GoodIndexes(bc.forest, lev);
      AddKeepsCore(State(), lev, block);
      AddRetains(bc.forest, lev, block);
      bc := AddBlock(bc, block);
      trace := trace + [PutBlock(block)];
      AdvancesTransitive(s, old(Now()), Now(), lev);
    }

    /** What counting a vote keeps. */
    lemma CountVotes(vote: Vote, s: Snap)
      requires Valid() && Since(s)
      ensures var votes := Collect(bc.votes, byzNo * 2 + 1, vote.blockId, vote.voter, vote);
        var core := State().(chain := bc.(votes := votes));
        && Filed(votes) && CoreOk(core, lev) && Advances(s, Now().(core := core, trace := trace + [CountVote(vote)]), lev)
        && Traced(self, byzNo, lev, trace + [CountVote(vote)], Done().(core := core))
    {
      hide EventsOk, DeliveryOk, AllBacked, Traced, BlocksOk, VmosOk, QCsOk, Seen, BallotsOk;
      hide Descending, Good, Rootless, Ordered, Collect, Retains;
      CollectFiled(bc.votes, byzNo * 2 + 1, vote);
      TraceGrows(self, byzNo, lev, trace, Done(), CountVote(vote));
    }

    /** Adds a vote; a certificate comes out exactly when the block's collector reports. */
    method AddVote(vote: Vote, ghost s: Snap) returns (qc: Option<QC>)
      requires Valid() && Since(s)
      modifies this`bc, this`trace
      ensures Valid() && Since(s) && trace == old(trace) + [CountVote(vote)]
      ensures bc == old(bc).(votes := Collect(old(bc.votes), byzNo * 2 + 1, vote.blockId, vote.voter, vote))
      ensures qc.Some? <==> Reports(old(bc.votes), byzNo * 2 + 1, vote.blockId, vote.voter, vote)
      ensures qc.Some? ==> vote.blockId in bc.votes
      ensures qc.Some? ==> qc.value.view == vote.view && qc.value.blockId == vote.blockId && Certifies(qc.value, bc.votes[vote.blockId])
    {
      hide CoreOk, EventsOk, DeliveryOk, AllBacked, Traced, BlocksOk, VmosOk, QCsOk, Seen, Filed, BallotsOk;
      hide Advances, Reports, Collect, Descending;
      CountVotes(vote, s);
      ghost var all := Collect(bc.votes, byzNo * 2 + 1, vote.blockId, vote.voter, vote);
      FiledVoters(all, vote.blockId);
      ReportsKnows(bc.votes, byzNo * 2 + 1, vote.blockId, vote.voter, vote);
      var reports := Reports(bc.votes, byzNo * 2 + 1, vote.blockId, vote.voter, vote);
      bc := bc.(votes := Collect(bc.votes, byzNo * 2 + 1, vote.blockId, vote.voter, vote));
      trace := trace + [CountVote(vote)];
      if !reports {
        return None;
      }
      var sigs, signers := GetSigs(bc.votes[vote.blockId]);
      return Some(QC(vote.view, vote.blockId, 0, signers, sigs));
    }

    /** At the leader of the next view: collects the VMO, and leaves the view once a quorum is there. */
    method CollectVmo(vmo: VMO, ghost s: Snap)
      requires Valid() && Since(s) && leaderOf(vmo.view + 1) == self
      modifies this`pm
      ensures Valid() && Since(s)
      ensures pm == AfterVmo(old(pm), vmo)
      ensures Ticks(old(pm), pm, vmo.view, Count(old(pm.viewChanges), vmo.view), Count(pm.viewChanges, vmo.view))
    {
      hide Ticks, CoreOk, Filed, BlocksOk, VmosOk, QCsOk, Seen, DeliveryOk, EventsOk, Traced;
      forall v ensures Count(OnVmo(pm, vmo).viewChanges, v) >= Count(pm.viewChanges, v) {
        CountGrows(pm.viewChanges, PacemakerThreshold(pm.n), vmo.view, vmo.nodeId, vmo, v);
      }
      MoreIsBacked(pm, OnVmo(pm, vmo), self, leaderOf, seenBlocks, seenVmos, seenBlocks, seenVmos);
      var built := BuildsVC(pm, vmo);
      pm := OnVmo(pm, vmo);
      if built {
        AdvanceView(vmo.view);
      }
      AdvancesTransitive(s, old(Now()), Now(), lev);
      VmoMeaning(old(pm), vmo);
    }

    /** Counts a timeout message, and leaves the view once a quorum is there. */
    method CollectTmo(tmo: TMO, ghost s: Snap)
      requires Valid() && Since(s)
      modifies this`pm
      ensures Valid() && Since(s)
      ensures pm == AfterTmo(old(pm), tmo)
      ensures Ticks(old(pm), pm, tmo.view, Count(old(pm.timeouts), tmo.view), Count(pm.timeouts, tmo.view))
    {
      hide Ticks, CoreOk, Filed, BlocksOk, VmosOk, QCsOk, Seen, DeliveryOk, EventsOk, Traced;
      forall v ensures Count(OnTmo(pm, tmo).timeouts, v) >= Count(pm.timeouts, v) {
        CountGrows(pm.timeouts, PacemakerThreshold(pm.n), tmo.view, tmo.nodeId, tmo, v);
      }
      MoreIsBacked(pm, OnTmo(pm, tmo), self, leaderOf, seenBlocks, seenVmos, seenBlocks, seenVmos);
      var built := BuildsTC(pm, tmo);
      pm := OnTmo(pm, tmo);
      if built && tmo.view >= pm.curView {
        AdvanceView(tmo.view);
      }
      AdvancesTransitive(s, old(Now()), Now(), lev);
      TmoMeaning(old(pm), tmo);
    }

    method ProcessRemoteTmo(tmo: TMO, ghost s: Snap)
      requires Valid() && !crashed && Since(s) && QCOk(lev, tmo.highQC)
      modifies this`preferredView, this`highQC, this`bc, this`bufferedQCs, this`committedBlocks, this`forkedBlocks, this`crashed, this`trace, this`pm
      ensures crashed ==> Stuck(bc.forest, lev)
      ensures !crashed ==> Valid() && Since(s)
      ensures !crashed ==> pm == AfterTmo(old(pm), tmo)
      ensures !crashed && Accepts(tmo.highQC) ==> Digested(old(bc.forest), State(), tmo.highQC)
      ensures !crashed && Accepts(tmo.highQC) ==> trace == old(trace) + [LearnQC(tmo.highQC, old(pm.curView))]
      ensures tmo.highQC.view < 3 ==> !crashed
      ensures !crashed ==> forall id :: id in bufferedQCs ==> id in old(bufferedQCs) || id == tmo.highQC.blockId
    {
      hide Stuck, Valid, Advances, AfterTmo, Digested, Rules.ProcessCertificate;
      ghost var mid := Now();
      ProcessCertificate(tmo.highQC);
      if crashed { return; }
      AdvancesTransitive(s, mid, Now(), lev);
      CollectTmo(tmo, s);
    }

    method ProcessLocalTmo(view: View, ghost s: Snap)
      requires Valid() && !crashed && Since(s)
      modifies this`preferredView, this`highQC, this`bc, this`bufferedQCs, this`committedBlocks, this`forkedBlocks, this`crashed, this`trace, this`pm,
               this`sent
      ensures crashed ==> Stuck(bc.forest, lev)
      ensures !crashed ==> Valid() && Since(s)
      ensures sent == old(sent) + [BroadcastTmo(TMO(view, self, old(highQC)))]
      ensures !crashed ==> pm == AfterTmo(old(pm), TMO(view, self, old(highQC)))
    {
      HighQCIs();
      hide Stuck, Valid, Advances, AfterTmo, Digested;
      var tmo := TMO(view, self, highQC);
      Send(BroadcastTmo(tmo), s);
      ProcessRemoteTmo(tmo, s);
    }

    lemma HighQCIs()
      requires Valid()
      ensures QCOk(lev, highQC)
    {
    }

    /** An honest proposal: a block on top of the highest certificate. */
    method MakeProposal(view: View, id: Id) returns (block: Block)
      requires Valid()
      ensures block.proposer == self && block.view == view && block.id == id
      ensures block.qc == Some(highQC) && block.prevId == highQC.blockId
      ensures lev(id) == view > highQC.view ==> BlockOk(lev, block)
    {
      HighQCIs();
      block := Proposal(State(), id, view, self);
    }

    /** Broadcasts a proposal and processes it like any other block. The leader of the view that finds the certified parent
        stored, and nothing else waiting, votes for its own proposal. */
    method ProposeBlock(view: View, id: Id) returns (fate: Fate)
      requires Valid() && !crashed && lev(id) == view > highQC.view
      modifies this
      ensures crashed ==> Stuck(bc.forest, lev)
      ensures !crashed ==> Valid() && Since(old(Now())) && BroadcastBlock(Block(id, view, old(highQC).blockId, Some(old(highQC)), self)) in sent
      ensures fate == Queued <==> view > Started(old(pm)).curView
      ensures fate == Queued ==> bufferedBlocks == old(bufferedBlocks)[view - 1 := Block(id, view, old(highQC).blockId, Some(old(highQC)), self)]
      ensures !crashed && fate != Queued ==>
        Left(view) && Processed(Block(id, view, old(highQC).blockId, Some(old(highQC)), self), fate)
      ensures !crashed && fate != Queued ==> Weighed(old(Now()), Now(), Block(id, view, old(highQC).blockId, Some(old(highQC)), self))
      ensures leaderOf(view) == self && old(Clear(view, id)) ==> !crashed && fate == Voted
    {
      hide Stuck, Valid, Advances, Digested, ProcessedIn, Weighed;
      ghost var s := Now();
      AdvancesReflexive(s, lev);
      var block := MakeProposal(view, id);
      Send(BroadcastBlock(block), s);
      ghost var mid := Now();
      fate := ProcessOwn(block);
      if !crashed {
        AdvancesTransitive(s, mid, Now(), lev);
        AdvancesRemembers(mid, Now(), lev, 0, Vote(0, 0, 0, 0), BroadcastBlock(block));
        if fate != Queued { WeighedEarlier(s, mid, Now(), block); }
      }
    }

    /** Processes a proposal of the replica's own. */
    method ProcessOwn(block: Block) returns (fate: Fate)
      requires Valid() && !crashed && lev(block.id) == block.view > highQC.view
      requires block == Block(block.id, block.view, highQC.blockId, Some(highQC), self)
      modifies this
      ensures crashed ==> Stuck(bc.forest, lev)
      ensures !crashed ==> Valid() && Since(old(Now()))
      ensures fate == Queued <==> block.view > Started(old(pm)).curView
      ensures fate == Queued ==> QueuedOnly(block)
      ensures !crashed && fate != Queued ==> Left(block.view) && Processed(block, fate) && Weighed(old(Now()), Now(), block)
      ensures leaderOf(block.view) == self && old(Clear(block.view, block.id)) ==> !crashed && fate == Voted
    {
      hide Stuck, Valid, Advances, Digested, ProcessedIn, Judged, Weighed, Crashes, VotingRule, TurnOf, BlockOk, QueuedOnly, StoresOnly;
      ghost var s, before := Now(), Done();
      OwnIsOk(block);
      fate := ProcessBlock(block, Bound(block.view));
      if !crashed && fate != Queued {
        WeighedAs(s, Now(), block, fate);
        if leaderOf(block.view) == self && old(Clear(block.view, block.id)) { OwnIsApproved(s.trace, before, block, fate, pm.curView); }
      }
    }

    lemma OwnIsOk(block: Block)
      requires Valid() && lev(block.id) == block.view > highQC.view
      requires block == Block(block.id, block.view, highQC.blockId, Some(highQC), self)
      ensures BlockOk(lev, block) && !Crashes(State(), block, Started(pm).curView)
      ensures Traced(self, byzNo, lev, trace, Done()) && CoreOk(State(), lev)
    {
      hide Traced, Good;
    }

    /** Nothing but the proposal itself was stored, and the lock has not moved. */
    lemma OwnIsApproved(start: seq<Turns.Step>, before: Progress, block: Block, fate: Fate, curView: View)
      requires Valid() && CoreOk(before.core, lev) && Traced(self, byzNo, lev, start, before)
      requires trace == start + TurnOf(block, fate, curView) && leaderOf(block.view) == self
      requires lev(block.id) == block.view > before.core.highQC.view && before.core.chain.forest.GetVertex(block.id).None?
      requires block.view <= 2 || before.core.chain.forest.GetVertex(before.core.highQC.blockId).Some?
      requires block == Block(block.id, block.view, before.core.highQC.blockId, Some(before.core.highQC), self)
      ensures VotingRule(bc.forest, preferredView, block) == Approve
    {
      hide Traced, CoreOk, VotingRule, AddVertex;
      TurnStores(self, byzNo, lev, start, before, block, [], VotesOf(block, fate), Done());
      ProposalIsApproved(before.core, lev, block.id, block.view, self);
    }

    /** The view is reached, the certified parent is stored or the view early, the id is new, and nothing else waits. */
    predicate Clear(view: View, id: Id)
      reads this
    {
      && (view <= 2 || bc.forest.GetVertex(highQC.blockId).Some?) && bc.forest.GetVertex(id).None?
      && Alone(Block(id, view, highQC.blockId, Some(highQC), self))
    }

    /** A bound on the views of all blocks held and of the block given. */
    ghost function Bound(v: int): (h: int)
      reads this
      ensures Held(h) && v <= h
    {
      var a, b := MaxView(bufferedBlocks), MaxView(receivedBlock);
      if v >= a && v >= b then v else if a >= b then a else b
    }

    /** What the source expects of an event: blocks, votes and certificates name the views of the blocks they refer
        to, and a leader proposes above its highest certificate. */
    ghost predicate Expected(e: Arrival)
      reads this
    {
      match e
      case NewView(view, id) => leaderOf(view) == self ==> lev(id) == view > highQC.view
      case BlockArrives(block) => BlockOk(lev, block)
      case VoteArrives(vote) => vote.view == lev(vote.blockId)
      case TmoArrives(tmo) => QCOk(lev, tmo.highQC)
      case VmoArrives(_) => true
      case TimerExpires => true
    }

    /** A vote, timeout or view-change message of a view already left. */
    predicate Stale(e: Arrival)
      reads this
    {
      match e
      case VoteArrives(vote) => vote.view < pm.curView
      case TmoArrives(tmo) => tmo.view < pm.curView
      case VmoArrives(vmo) => vmo.view < pm.curView
      case _ => false
    }

    /** What a turn of the event loop is for. */
    twostate predicate Handled(e: Arrival)
      reads this
    {
      match e
      case NewView(view, id) =>
        leaderOf(view) == self ==>
          var block := Block(id, view, old(highQC).blockId, Some(old(highQC)), self);
          BroadcastBlock(block) in sent && (view <= Started(old(pm)).curView ==> Left(view) && Weighed(old(Now()), Now(), block))
      case BlockArrives(block) =>
        if block.view > Started(old(pm)).curView then QueuedOnly(block)
        else
          && Left(block.view) && (Carries(block) ==> Digested(old(bc.forest), State(), block.qc.value))
          && Weighed(old(Now()), Now(), block)
      case VoteArrives(vote) =>
        && (Ignores(vote) ==> Now() == old(Now()))
        && (!Ignores(vote) && !Completes(old(bc.votes), vote) ==> VoteCounted(vote))
        && (!Ignores(vote) && Completes(old(bc.votes), vote) && old(bc.forest).GetVertex(vote.blockId).Some? ==>
              AnnouncedCertificate(old(Now()), vote))
      case TmoArrives(tmo) =>
        && pm == AfterTmo(old(pm), tmo)
        && (Accepts(tmo.highQC) ==> Digested(old(bc.forest), State(), tmo.highQC))
      case VmoArrives(vmo) =>
        if leaderOf(vmo.view + 1) == self then CollectedOnly(vmo)
        else if Started(old(pm)).curView < vmo.view then HeldBackOnly(vmo)
        else TookUp(old(Now()), Now(), vmo.view) && (vmo.view - 1 in old(receivedBlock) ==> pm.curView > vmo.view)
      case TimerExpires => BroadcastTmo(TMO(old(pm.curView), self, old(highQC))) in sent
    }

    /** One turn of the replica's event loop. It always ends, keeps every invariant and only advances. */
    method Handle(e: Arrival)
      requires Valid() && !crashed && Expected(e)
      modifies this
      ensures crashed ==> Stuck(bc.forest, lev)
      ensures !crashed ==> Valid() && Since(old(Now()))
      ensures Fronted(bc.forest) || OnePerLevel(bc.forest) ==> !crashed && Valid()
      ensures !crashed ==> Handled(e)
    {
      hide Valid, Advances, Digested, ProcessedIn, Judged, Weighed, TookUp, AfterTmo, AfterVmo, Reports, Collect, Stuck, Fronted, OnePerLevel;
      ghost var s := Now();
      AdvancesReflexive(s, lev);
      match e {
        case NewView(view, id) =>
          if leaderOf(view) == self {
            var _ := ProposeBlock(view, id);
          }
        case BlockArrives(block) =>
          var fate := ProcessBlock(block, Bound(block.view));
          if !crashed && fate != Queued { WeighedAs(s, Now(), block, fate); }
        case VoteArrives(vote) =>
          ProcessVote(vote, Bound(vote.view));
        case TmoArrives(tmo) =>
          ProcessRemoteTmo(tmo, s);
        case VmoArrives(vmo) =>
          ProcessRemoteVmo(vmo, Bound(vmo.view));
        case TimerExpires =>
          ProcessLocalTmo(pm.curView, s);
      }
      if crashed { StuckIsUnfronted(bc.forest, lev); }
    }
  }

  /** The event loop around a replica: messages are screened on arrival and processed later. */
  class EventLoop {
    const replica: HotStuff
    var eventChan: seq<Arrival>

    constructor (replica: HotStuff)
      ensures this.replica == replica && eventChan == []
    {
      this.replica, this.eventChan := replica, [];
    }

    /** A vote, timeout or view-change message of a view already left is dropped; everything else is queued. */
    method Receive(e: Arrival)
      modifies this
      ensures eventChan == old(eventChan) || eventChan == old(eventChan) + [e]
      ensures e.VoteArrives? ==> (|eventChan| == |old(eventChan)| <==> e.vote.view < replica.pm.curView)
      ensures e.TmoArrives? ==> (|eventChan| == |old(eventChan)| <==> e.tmo.view < replica.pm.curView)
      ensures e.VmoArrives? ==> (|eventChan| == |old(eventChan)| <==> e.vmo.view < replica.pm.curView)
      ensures e.NewView? || e.BlockArrives? || e.TimerExpires? ==> eventChan == old(eventChan) + [e]
    {
      if !replica.Stale(e) {
        eventChan := eventChan + [e];
      }
    }

    /** Processes the oldest event, whether or not it has become stale in the queue. */
    method Turn()
      requires eventChan != [] && replica.Valid() && !replica.crashed && replica.Expected(eventChan[0])
      modifies this, replica
      ensures eventChan == old(eventChan)[1..]
      ensures replica.crashed ==> Stuck(replica.bc.forest, replica.lev)
      ensures !replica.crashed ==> replica.Valid() && replica.Since(old(replica.Now())) && replica.Handled(old(eventChan)[0])
    {
      hide HotStuff.Valid, Stuck, Advances, HotStuff.Handled;
      var e := eventChan[0];
      replica.Handle(e);
      eventChan := eventChan[1..];
    }
  }
}
