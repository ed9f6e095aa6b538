/** Vote aggregation: one certificate per block, from 2*ByzNo+1 distinct voters. */
module Quorums {
  import opened Types
  import opened Collectors

  /** Votes are filed under the block and the voter they name. */
  ghost predicate Filed(votes: Tally<Id, Vote>) {
    forall b, n :: b in votes && n in votes[b] ==> votes[b][n].voter == n && votes[b][n].blockId == b
  }

  lemma CollectFiled(votes: Tally<Id, Vote>, threshold: nat, vote: Vote)
    requires Filed(votes)
    ensures Filed(Collect(votes, threshold, vote.blockId, vote.voter, vote))
  {
  }

  /** The certificate lists each voter once, next to that voter's signature. */
  ghost predicate Certifies(qc: QC, votes: map<NodeId, Vote>) {
    && |qc.signers| == |qc.sigs| == |votes| && Distinct(qc.signers)
    && (forall n :: n in qc.signers <==> n in votes)
    && (forall i :: 0 <= i < |qc.signers| ==> qc.sigs[i] == votes[qc.signers[i]].signature)
  }

  /** Whoever is named as its leader. */
  lemma CertifiesUnder(qc: QC, votes: map<NodeId, Vote>, leader: NodeId)
    requires Certifies(qc, votes)
    ensures Certifies(qc.(leader := leader), votes)
  {
  }

  /** Signers and signatures in whatever order the map yields its entries. */
  method GetSigs(votes: map<NodeId, Vote>) returns (sigs: seq<Signature>, signers: seq<NodeId>)
    requires forall n :: n in votes ==> votes[n].voter == n
    ensures |signers| == |sigs| == |votes| && Distinct(signers)
    ensures forall n :: n in signers <==> n in votes
    ensures forall i :: 0 <= i < |signers| ==> signers[i] in votes && sigs[i] == votes[signers[i]].signature
  {
    sigs, signers := [], [];
    var rest := votes.Keys;
    while rest != {}
      invariant rest <= votes.Keys && |signers| == |sigs| == |votes| - |rest| && Distinct(signers)
      invariant forall n :: n in signers <==> n in votes && n !in rest
      invariant forall i :: 0 <= i < |signers| ==> signers[i] in votes && sigs[i] == votes[signers[i]].signature
      decreases |rest|
    {
      var n :| n in rest;
      sigs, signers := sigs + [votes[n].signature], signers + [votes[n].voter];
      rest := rest - {n};
    }
  }

  class Quorum {
    const byzNo: nat
    var votes: Tally<Id, Vote>

    constructor (byzNo: nat)
      ensures this.byzNo == byzNo && votes == map[]
    {
      this.byzNo, this.votes := byzNo, map[];
    }

    predicate SuperMajority(blockId: Id)
      reads this
    {
      Count(votes, blockId) >= byzNo * 2 + 1
    }

    /** Adds a vote to the block's collector; a certificate comes out exactly when the collector reports. */
    method Add(vote: Vote) returns (qc: Option<QC>)
      requires Filed(votes)
      modifies this
      ensures Filed(votes) && votes == Collect(old(votes), byzNo * 2 + 1, vote.blockId, vote.voter, vote)
      ensures qc.Some? <==> Reports(old(votes), byzNo * 2 + 1, vote.blockId, vote.voter, vote)
      ensures qc.Some? ==> qc.value.view == vote.view && qc.value.blockId == vote.blockId
      ensures qc.Some? ==> Certifies(qc.value, votes[vote.blockId])
    {
      CollectFiled(votes, byzNo * 2 + 1, vote);
      if SuperMajority(vote.blockId) {
        return None;
      }
      if vote.blockId !in votes {
        votes := votes[vote.blockId := map[]];
      }
      var voters: map<NodeId, Vote> := votes[vote.blockId][vote.voter := vote];
      votes := votes[vote.blockId := voters];
      assert votes == Record(old(votes), vote.blockId, vote.voter, vote);
      if SuperMajority(vote.blockId) {
        var sigs, signers := GetSigs(votes[vote.blockId]);
        return Some(QC(vote.view, vote.blockId, 0, signers, sigs));
      }
      return None;
    }
  }

  /** In every run of votes and deletions, a vote that completes a certificate leaves exactly 2*ByzNo+1 voters
      behind it, all of whom voted since the block's votes were last deleted. */
  lemma CertificateSize(byzNo: nat, events: seq<Event<Id, Vote>>, i: nat, qc: QC)
    requires i < |events| && ReportsAt(byzNo * 2 + 1, events, i)
    requires events[i].k in Run(byzNo * 2 + 1, events[..i + 1])
    requires Certifies(qc, Run(byzNo * 2 + 1, events[..i + 1])[events[i].k])
    ensures |qc.signers| == byzNo * 2 + 1
    ensures forall n :: n in qc.signers <==> n in Senders(events[..i + 1], events[i].k)
  {
    FirstCrossing(byzNo * 2 + 1, events, i);
    var voters := Run(byzNo * 2 + 1, events[..i + 1])[events[i].k];
    assert forall n :: n in voters <==> n in voters.Keys;
  }
}
