/**
 Chained HotStuff as global steps: n replicas, of which the faulty ones vote as they like and the
 honest ones follow the voting, locking and commit rules of the replica. Hashes are ideal, so a block is
 the tree of its ancestors; a certificate is a vote set of 2*byzNo+1 replicas.
 */
module Protocol {
  import opened Types
  import opened QuorumSets

  datatype Chain = Genesis | Node(parent: Chain, view: nat, tag: nat)
  {
    /** The initial certificate has view 0. */
    function View(): nat {
      if Genesis? then 0 else view
    }
  }

  /** `remembers` tells whether honest replicas refuse to vote below or again in a view they voted in, `heeds` whether
      they lock on the certificate a block carries before they vote for it. */
  datatype Config = Config(n: nat, byzNo: nat, faulty: set<nat>, remembers: bool, heeds: bool)

  datatype Local = Local(preferredView: nat, lastVotedView: nat, committed: set<Chain>)

  datatype State = State(votes: map<Chain, set<nat>>, locals: map<nat, Local>)

  ghost predicate ValidConfig(c: Config) {
    c.remembers && c.heeds && c.n <= 3 * c.byzNo + 1 && Replicas(c.faulty, c.n) && |c.faulty| <= c.byzNo
  }

  function Voters(s: State, b: Chain): set<nat> {
    if b in s.votes then s.votes[b] else {}
  }

  predicate Certified(c: Config, s: State, b: Chain) {
    b.Node? && |Voters(s, b)| >= 2 * c.byzNo + 1
  }

  // The replica's rules, on chains.

  /** The lock after processing a certificate for `b`: untouched up to view 2, then at least the parent's view. */
  function LockAfter(preferredView: nat, b: Chain): nat {
    if b.View() <= 2 || b.parent.Genesis? || b.parent.view <= preferredView then preferredView else b.parent.view
  }

  /** The lock under which a replica votes for `b`. */
  function LockFor(c: Config, preferredView: nat, b: Chain): nat
    requires b.Node?
  {
    if c.heeds then LockAfter(preferredView, b.parent) else preferredView
  }

  /** The voting rule: unconditional up to view 2; then the parent must be a stored block at or above the lock. */
  predicate VoteAllowed(preferredView: nat, b: Chain)
    requires b.Node?
  {
    b.view <= 2 || (b.parent.Node? && b.parent.view >= preferredView)
  }

  /** The commit rule: a certificate of view 3 or more ending three consecutive views. */
  predicate ThreeChain(b: Chain) {
    b.Node? && b.view >= 3 && b.parent.Node? && b.parent.parent.Node? &&
    b.parent.parent.view + 1 == b.parent.view && b.parent.view + 1 == b.view
  }

  /** Levels increase along the chain. */
  predicate Rising(b: Chain) {
    b.Node? && b.parent.View() < b.view
  }

  // Steps.

  datatype Step = FaultyVote(r: nat, b: Chain) | HonestVote(r: nat, b: Chain) | ProcessQC(r: nat, b: Chain)

  function AddVote(s: State, r: nat, b: Chain): State {
    s.(votes := s.votes[b := Voters(s, b) + {r}])
  }

  predicate Honest(c: Config, s: State, r: nat) {
    r < c.n && r !in c.faulty && r in s.locals
  }

  /** When a step can be taken. An honest replica that remembers votes for a block above every view it voted in; its
      certificate for its parent is genuine and, if it heeds, has been processed, under the voting rule. */
  predicate Enabled(c: Config, s: State, step: Step) {
    match step
    case FaultyVote(r, b) => r in c.faulty
    case HonestVote(r, b) =>
      && Honest(c, s, r) && Rising(b)
      && (b.parent.Genesis? || Certified(c, s, b.parent))
      && (c.remembers ==> b.view > s.locals[r].lastVotedView)
      && VoteAllowed(LockFor(c, s.locals[r].preferredView, b), b)
    case ProcessQC(r, b) => Honest(c, s, r) && Certified(c, s, b)
  }

  function Take(c: Config, s: State, step: Step): State
    requires Enabled(c, s, step)
  {
    match step
    case FaultyVote(r, b) => AddVote(s, r, b)
    case HonestVote(r, b) =>
      var l := s.locals[r];
      AddVote(s, r, b).(locals := s.locals[r :=
        l.(preferredView := LockFor(c, l.preferredView, b), lastVotedView := b.view)])
    case ProcessQC(r, b) =>
      var l := s.locals[r];
      s.(locals := s.locals[r := l.(
        preferredView := LockAfter(l.preferredView, b),
        committed := if ThreeChain(b) then l.committed + {b.parent.parent} else l.committed)])
  }

  function Init(c: Config): State {
    State(map[], map r | r in Range(0, c.n) :: Local(0, 0, {}))
  }

  /** The state a run ends in; None if one of its steps was not enabled. */
  function Run(c: Config, steps: seq<Step>): Option<State> {
    if steps == [] then Some(Init(c)) else
    match Run(c, steps[..|steps| - 1])
    case None => None
    case Some(s) => if Enabled(c, s, steps[|steps| - 1]) then Some(Take(c, s, steps[|steps| - 1])) else None
  }
}
