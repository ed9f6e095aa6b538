/**
 The threshold collector that the vote quorum, the timeout controller and the view-change controller
 share: messages are kept per key and sender until a key reaches the threshold, and from then on ignored.
 */
module Collectors {
  import opened Types

  type Tally<K(==), M> = map<K, map<NodeId, M>>

  function Count<K(==), M>(t: Tally<K, M>, k: K): nat {
    if k in t then |t[k]| else 0
  }

  function Record<K(==), M>(t: Tally<K, M>, k: K, node: NodeId, m: M): Tally<K, M> {
    t[k := (if k in t then t[k] else map[])[node := m]]
  }

  function Collect<K(==), M>(t: Tally<K, M>, threshold: nat, k: K, node: NodeId, m: M): Tally<K, M> {
    if Count(t, k) >= threshold then t else Record(t, k, node, m)
  }

  /** The call reports a certificate. */
  predicate Reports<K(==), M>(t: Tally<K, M>, threshold: nat, k: K, node: NodeId, m: M) {
    Count(t, k) < threshold && Count(Record(t, k, node, m), k) >= threshold
  }

  // Whole runs.

  /** A message for a key, or the deletion of everything kept for it. */
  datatype Event<K, M> = Message(k: K, node: NodeId, m: M) | Clear(k: K)

  function Run<K(==), M>(threshold: nat, events: seq<Event<K, M>>): Tally<K, M> {
    if events == [] then map[] else
    var t := Run(threshold, events[..|events| - 1]);
    match events[|events| - 1]
    case Message(k, node, m) => Collect(t, threshold, k, node, m)
    case Clear(k) => t - {k}
  }

  /** The distinct senders for a key since it was last cleared. */
  function Senders<K(==), M>(events: seq<Event<K, M>>, k: K): set<NodeId> {
    if events == [] then {} else
    var before := Senders(events[..|events| - 1], k);
    match events[|events| - 1]
    case Message(k', node, _) => if k' == k then before + {node} else before
    case Clear(k') => if k' == k then {} else before
  }

  /** The event at this place of the run makes the collector report. */
  ghost predicate ReportsAt<K, M>(threshold: nat, events: seq<Event<K, M>>, i: nat)
    requires i < |events|
  {
    events[i].Message? &&
    Reports(Run(threshold, events[..i]), threshold, events[i].k, events[i].node, events[i].m)
  }

  /** What is kept: every sender below the threshold, and exactly the threshold once it is reached. */
  ghost predicate Keeps<K, M>(t: Tally<K, M>, threshold: nat, k: K, senders: set<NodeId>) {
    && (|senders| < threshold ==> (if k in t then t[k].Keys else {}) == senders)
    && (|senders| >= threshold ==> k in t && |t[k]| == threshold && t[k].Keys <= senders)
  }

  lemma KeepsCount<K, M>(t: Tally<K, M>, threshold: nat, k: K, senders: set<NodeId>)
    requires Keeps(t, threshold, k, senders)
    ensures Count(t, k) == if |senders| < threshold then |senders| else threshold
  {
    if k in t { assert |t[k]| == |t[k].Keys|; }
  }

  lemma RecordKeys<K, M>(t: Tally<K, M>, k: K, node: NodeId, m: M)
    ensures Record(t, k, node, m)[k].Keys == (if k in t then t[k].Keys else {}) + {node}
    ensures Count(Record(t, k, node, m), k) == |(if k in t then t[k].Keys else {}) + {node}|
  {
    var kept := Record(t, k, node, m)[k];
    assert kept.Keys == (if k in t then t[k].Keys else {}) + {node};
    assert |kept| == |kept.Keys|;
  }

  lemma CollectKeeps<K, M>(t: Tally<K, M>, threshold: nat, senders: set<NodeId>, k: K, node: NodeId, m: M)
    requires threshold > 0 && Keeps(t, threshold, k, senders)
    ensures Keeps(Collect(t, threshold, k, node, m), threshold, k, senders + {node})
    ensures Reports(t, threshold, k, node, m) <==> |senders| < threshold <= |senders + {node}|
    ensures Reports(t, threshold, k, node, m) ==>
      Collect(t, threshold, k, node, m)[k].Keys == senders + {node} && |senders + {node}| == threshold
  {
    KeepsCount(t, threshold, k, senders);
    RecordKeys(t, k, node, m);
    if |senders| < threshold {
      assert |senders + {node}| <= |senders| + 1;
    } else {
      assert |senders| <= |senders + {node}| by { assert senders + {node} == senders + ({node} - senders); }
    }
  }

  lemma {:induction false} RunKeeps<K, M>(threshold: nat, events: seq<Event<K, M>>, k: K)
    requires threshold > 0
    ensures Keeps(Run(threshold, events), threshold, k, Senders(events, k))
  {
    if events != [] {
      var before, e := events[..|events| - 1], events[|events| - 1];
      RunKeeps(threshold, before, k);
      if e.Message? && e.k == k {
        CollectKeeps(Run(threshold, before), threshold, Senders(before, k), k, e.node, e.m);
      }
    }
  }

  /** First crossing: a message makes the collector report exactly when it brings the number of distinct
      senders for its key to the threshold, and the report then covers exactly those senders. */
  lemma FirstCrossing<K, M>(threshold: nat, events: seq<Event<K, M>>, i: nat)
    requires threshold > 0 && i < |events| && events[i].Message?
    ensures var k := events[i].k;
      && (ReportsAt(threshold, events, i) <==>
            |Senders(events[..i], k)| < threshold <= |Senders(events[..i + 1], k)|)
      && (ReportsAt(threshold, events, i) ==>
            var t := Run(threshold, events[..i + 1]);
            k in t && t[k].Keys == Senders(events[..i + 1], k) && |t[k]| == threshold)
  {
    var before, e := events[..i], events[i];
    assert events[..i + 1] == before + [e] && (before + [e])[..i] == before;
    RunKeeps(threshold, before, e.k);
    CollectKeeps(Run(threshold, before), threshold, Senders(before, e.k), e.k, e.node, e.m);
    RunKeeps(threshold, events[..i + 1], e.k);
  }

  lemma {:induction false} SendersGrow<K, M>(events: seq<Event<K, M>>, k: K, i: nat, j: nat)
    requires i <= j <= |events| && forall x :: i <= x < j ==> events[x] != Clear(k)
    ensures Senders(events[..i], k) <= Senders(events[..j], k)
    decreases j - i
  {
    if i < j {
      SendersGrow(events, k, i, j - 1);
      assert events[..j][..j - 1] == events[..j - 1];
    }
  }

  /** Never again: between two clearings of a key at most one message reports it. */
  lemma ReportsOnce<K, M>(threshold: nat, events: seq<Event<K, M>>, i: nat, j: nat)
    requires threshold > 0 && i < j < |events| && events[i].Message? && events[j].Message? && events[i].k == events[j].k
    requires forall x :: i < x < j ==> events[x] != Clear(events[i].k)
    requires ReportsAt(threshold, events, i)
    ensures !ReportsAt(threshold, events, j)
  {
    FirstCrossing(threshold, events, i);
    FirstCrossing(threshold, events, j);
    SendersGrow(events, events[i].k, i + 1, j);
    var s, s' := Senders(events[..i + 1], events[i].k), Senders(events[..j], events[i].k);
    assert s' == s + (s' - s);
  }

  /** The last message of a sender for a key since it was last cleared. */
  function Latest<K(==), M>(events: seq<Event<K, M>>, k: K, node: NodeId): Option<M> {
    if events == [] then None else
    match events[|events| - 1]
    case Message(k', n, m) => if k' == k && n == node then Some(m) else Latest(events[..|events| - 1], k, node)
    case Clear(k') => if k' == k then None else Latest(events[..|events| - 1], k, node)
  }

  /** What is kept of each sender is its last message, up to and including the message that reports. */
  lemma {:induction false} KeptIsLatest<K, M>(threshold: nat, events: seq<Event<K, M>>, k: K, node: NodeId)
    requires threshold > 0
    requires forall i :: 0 <= i < |events| ==> |Senders(events[..i], k)| < threshold
    ensures var t := Run(threshold, events);
      Latest(events, k, node) == if k in t && node in t[k] then Some(t[k][node]) else None
  {
    if events != [] {
      var before, e := events[..|events| - 1], events[|events| - 1];
      forall i | 0 <= i < |before| ensures |Senders(before[..i], k)| < threshold { assert before[..i] == events[..i]; }
      assert before != [] ==> before[..|before| - 1] == events[..|before| - 1];
      KeptIsLatest(threshold, before, k, node);
      RunKeeps(threshold, before, k);
      KeepsCount(Run(threshold, before), threshold, k, Senders(before, k));
    }
  }
}
