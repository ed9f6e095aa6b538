/** Identifiers, blocks and quorum certificates shared by every other module. */
module Types {

  /** Hashes are ideal: an identifier stands for the content it was computed from. */
  type Id = nat
  type NodeId = nat
  type View = nat
  type Signature = nat

  /** The zero identifier carried by the initial certificate. */
  const ZERO_ID: Id := 0

  datatype Option<+T> = None | Some(value: T)

  datatype Vote = Vote(view: View, voter: NodeId, blockId: Id, signature: Signature)

  datatype QC = QC(view: View, blockId: Id, leader: NodeId, signers: seq<NodeId>, sigs: seq<Signature>)

  /** A block. `qc` is None where the source would hold a nil pointer. */
  datatype Block = Block(id: Id, view: View, prevId: Id, qc: Option<QC>, proposer: NodeId)
  {
    /** The level half of `Parent()`: the view of the certificate the block carries. */
    function ParentLevel(): nat {
      if qc.Some? then qc.value.view else 0
    }
  }

  /** No element occurs twice. */
  ghost predicate Distinct<T>(s: seq<T>) {
    forall i, j :: 0 <= i < j < |s| ==> s[i] != s[j]
  }
}
