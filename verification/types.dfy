/** Record types, slot order, leader choice and thresholds shared by every other module. */
module Types {

  type NodeId = nat

  // A 32-byte SHA-256 value. The protocol only ever compares digests, and compares one of them with all zeros.
  type Digest = nat
  const ZERO_DIGEST: Digest := 0

  // How many sequence numbers to wait before checkpointing.
  const CHECKPOINT: nat := 100

  datatype Option<+T> = None | Some(value: T)

  datatype SlotId = SlotId(view: int, seqNo: int) {
    predicate Before(other: SlotId) {
      if view == other.view then seqNo < other.seqNo else view < other.view
    }

    predicate BeforeOrEqual(other: SlotId) {
      if view == other.view then seqNo <= other.seqNo else view <= other.view
    }
  }

  // A detached signature, reduced to what checking it can reveal.
  datatype Signature = Forged | By(signer: NodeId)

  datatype PrePrepare = PrePrepare(number: SlotId, digest: Digest)
  datatype SignedPrePrepare = SignedPrePrepare(message: PrePrepare, signature: Signature)
  datatype FullPrePrepare = FullPrePrepare(signed: SignedPrePrepare, request: string) {
    function Number(): SlotId { signed.message.number }
    function Digest(): Digest { signed.message.digest }
    predicate IsHeartbeat() { signed.message == HEARTBEAT }
  }

  // The empty pre-prepare a caught-up peer is sent as a sign of life.
  const HEARTBEAT := PrePrepare(SlotId(0, 0), ZERO_DIGEST)

  datatype Prepare = Prepare(number: SlotId, digest: Digest, node: NodeId)
  datatype SignedPrepare = SignedPrepare(message: Prepare, signature: Signature)

  datatype Commit = Commit(number: SlotId, digest: Digest, node: NodeId)
  datatype SignedCommit = SignedCommit(message: Commit, signature: Signature)

  type Snapshot = seq<bv8>
  datatype Checkpoint = Checkpoint(number: SlotId, snapshot: Snapshot, node: NodeId)
  datatype SignedCheckpoint = SignedCheckpoint(message: Checkpoint, signature: Signature)
  datatype CheckpointProof =
    CheckpointProof(number: SlotId, snapshot: Snapshot, proof: map<NodeId, SignedCheckpoint>)
  datatype CheckpointProofMessage = CheckpointProofMessage(proof: CheckpointProof, node: NodeId)
  datatype SignedCheckpointProof = SignedCheckpointProof(message: CheckpointProofMessage, signature: Signature)

  datatype PreparedProof = PreparedProof(
    number: SlotId, request: string, preprepare: SignedPrePrepare, digest: Digest,
    prepares: map<NodeId, SignedPrepare>)
  datatype ViewChange = ViewChange(
    view: int, checkpoint: SlotId, checkpointProof: map<NodeId, SignedCheckpoint>,
    proofs: map<SlotId, PreparedProof>, node: NodeId)
  datatype SignedViewChange = SignedViewChange(message: ViewChange, signature: Signature)

  datatype NewView = NewView(
    view: int, viewChanges: map<NodeId, SignedViewChange>,
    prePrepares: map<SlotId, FullPrePrepare>, node: NodeId)
  datatype SignedNewView = SignedNewView(message: NewView, signature: Signature)

  datatype Msg =
    | MClientRequest(request: string)
    | MPrePrepare(full: FullPrePrepare)
    | MPrepare(prepare: SignedPrepare)
    | MCommit(commit: SignedCommit)
    | MCheckpoint(checkpoint: SignedCheckpoint)
    | MCheckpointProof(proof: SignedCheckpointProof)
    | MViewChange(viewChange: SignedViewChange)
    | MNewView(newView: SignedNewView)

  /** The cluster: its node ids in configuration order, and the two hash functions as parameters. */
  datatype Config = Config(nodes: seq<NodeId>, hash32: nat -> nat, digest: string -> Digest) {

    // Ids are distinct; without that a host would be missing from its own cluster's peer tables.
    ghost predicate Valid() {
      && |nodes| >= 1
      && forall i, j :: 0 <= i < j < |nodes| ==> nodes[i] != nodes[j]
    }

    // The view number is cut to 32 bits before it is hashed.
    function LeaderFor(view: int): (leader: NodeId)
      requires |nodes| >= 1
      ensures leader in nodes
    {
      nodes[hash32(view % 0x1_0000_0000) % |nodes|]
    }

    function NumPeers(): int { |nodes| - 1 }

    // f in the protocol description.
    function Faults(): int { NumPeers() / 3 }
    function PreparedQuorum(): int { 2 * Faults() }
    function CheckpointQuorum(): int { 2 * Faults() + 1 }
    function JoinQuorum(): int { Faults() + 1 }
    function NewViewQuorum(): int { 2 * NumPeers() / 3 }

    predicate IsPeer(id: NodeId, other: NodeId) { other in nodes && other != id }

    // What checking a signature against the peers' keys yields: the signing peer, or nothing.
    function Signer(id: NodeId, signature: Signature): Option<NodeId> {
      if signature.By? && IsPeer(id, signature.signer) then Some(signature.signer) else None
    }
  }
}
