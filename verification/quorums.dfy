/** The arithmetic of the thresholds, for a cluster of any size, and the overlap of the sets they ask for. */
module Quorums {
  import opened Types

  function Ids(ids: seq<NodeId>): set<NodeId> { set id | id in ids }
  function Members(cfg: Config): set<NodeId> { Ids(cfg.nodes) }
  function Peers(cfg: Config, id: NodeId): set<NodeId> { set other | cfg.IsPeer(id, other) && other in cfg.nodes }

  lemma {:induction false} DistinctCardinality(ids: seq<NodeId>)
    requires forall i, j :: 0 <= i < j < |ids| ==> ids[i] != ids[j]
    ensures |Ids(ids)| == |ids|
  {
    if ids != [] {
      var front := ids[..|ids| - 1];
      DistinctCardinality(front);
      assert Ids(ids) == Ids(front) + {ids[|ids| - 1]};
    }
  }

  /** A member of a valid cluster has NumPeers peers, the length the source takes of its peer table. */
  lemma PeerCount(cfg: Config, id: NodeId)
    requires cfg.Valid() && id in cfg.nodes
    ensures |Members(cfg)| == |cfg.nodes| && |Peers(cfg, id)| == cfg.NumPeers()
  {
    DistinctCardinality(cfg.nodes);
    assert Peers(cfg, id) == Members(cfg) - {id};
  }

  /** The new-view threshold is the prepared threshold, or one more exactly when the peer count leaves 2 over 3. */
  lemma NewViewQuorumExact(cfg: Config)
    requires |cfg.nodes| >= 1
    ensures cfg.NewViewQuorum() ==
      cfg.PreparedQuorum() + if cfg.NumPeers() % 3 == 2 then 1 else 0
    ensures cfg.NumPeers() >= 1 ==> cfg.JoinQuorum() <= cfg.NewViewQuorum() || cfg.NumPeers() == 1
  {
  }

  lemma SubsetCardinality(a: set<NodeId>, b: set<NodeId>)
    requires a <= b
    ensures |a| <= |b|
  {
    assert b == a + (b - a);
  }

  /** Two sets of at least p and q members of the cluster share at least p + q - N. */
  lemma Overlap(cfg: Config, a: set<NodeId>, b: set<NodeId>)
    requires cfg.Valid() && a <= Members(cfg) && b <= Members(cfg)
    ensures |a * b| >= |a| + |b| - |cfg.nodes|
  {
    DistinctCardinality(cfg.nodes);
    SubsetCardinality(a + b, Members(cfg));
    assert |a + b| == |a| + |b| - |a * b|;
  }

  /** Checkpoint quorums overlap in 4f + 2 - N nodes at least, which is f + 1 exactly for N = 3f + 1. */
  lemma CheckpointQuorumsOverlap(cfg: Config, a: set<NodeId>, b: set<NodeId>)
    requires cfg.Valid() && a <= Members(cfg) && b <= Members(cfg)
    requires |a| >= cfg.CheckpointQuorum() && |b| >= cfg.CheckpointQuorum()
    ensures |a * b| >= 4 * cfg.Faults() + 2 - |cfg.nodes|
    ensures 4 * cfg.Faults() + 2 - |cfg.nodes| == cfg.Faults() + 1 <==> |cfg.nodes| == 3 * cfg.Faults() + 1
    ensures |cfg.nodes| == 3 * cfg.Faults() + 1 ==>
      forall faulty: set<NodeId> :: |faulty| <= cfg.Faults() ==> exists id :: id in a * b && id !in faulty
  {
    Overlap(cfg, a, b);
    forall faulty: set<NodeId> | |cfg.nodes| == 3 * cfg.Faults() + 1 && |faulty| <= cfg.Faults()
      ensures exists id :: id in a * b && id !in faulty
    {
      if a * b <= faulty { SubsetCardinality(a * b, faulty); }
    }
  }
}
