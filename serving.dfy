/**
 * A replica serving its elector's published state: the HTTP layer reads
 * `NODE_ID`, `ROLE`, `LEADER_EPOCH` and `LEADER_ID`, so a replica whose
 * environment carries its elector's `LeaderState` answers `/role` with that
 * state and lets writes through only while it is LEADER. The code that copies
 * the state into the environment is not part of this model; `EnvOf` states
 * what it would write.
 */
module Serving {
  import opened Wrappers
  import opened Decimal
  import opened Leader
  import Env
  import opened App
  import Cluster

  /** The environment that mirrors a published state. */
  function EnvOf(s: LeaderState): Env.Environment {
    var base := map["NODE_ID" := s.nodeId, "ROLE" := RoleName(s.role)];
    var withEpoch := if s.leaderEpoch.Some? then base["LEADER_EPOCH" := DecimalText(s.leaderEpoch.value)] else base;
    if s.leaderId.Some? then withEpoch["LEADER_ID" := s.leaderId.value] else withEpoch
  }

  /** `/role` reports the published state, and a write is accepted exactly when that state is LEADER. */
  lemma ServedStateMatches(s: LeaderState)
    ensures RoleHandler(EnvOf(s)) == RoleBody(s.nodeId, RoleName(s.role), s.leaderEpoch, s.leaderId)
    ensures PostLeases(EnvOf(s)).status == (if s.role == Leader then 204 else 409)
  {
    var env := EnvOf(s);
    assert "NODE_ID" in env && env["NODE_ID"] == s.nodeId;
    assert "ROLE" in env && env["ROLE"] == RoleName(s.role);
    UpperMatchesWord(RoleName(s.role), RoleName(s.role));
    GetRoleIsLeader(env);
    if s.role == Standby {
      assert GetRole(env)[0] == 'S';
    }
    if s.leaderEpoch.Some? {
      DecimalRoundTrip(s.leaderEpoch.value);
      assert env["LEADER_EPOCH"] == DecimalText(s.leaderEpoch.value);
    } else {
      assert "LEADER_EPOCH" !in env;
    }
    if s.leaderId.None? {
      assert "LEADER_ID" !in env;
    }
  }

  /** While no running replica has lost its session, at most one running replica answers a write with 204. */
  lemma AtMostOneAcceptsWrites(b: Backend, els: seq<Elector>, i: nat, j: nat)
    requires Cluster.ClusterInv(b, els) && Cluster.SessionsAlive(b, els)
    requires i < |els| && j < |els| && !els[i].stopped && !els[j].stopped
    requires PostLeases(EnvOf(els[i].state)).status == 204
    requires PostLeases(EnvOf(els[j].state)).status == 204
    ensures i == j
  {
    ServedStateMatches(els[i].state);
    ServedStateMatches(els[j].state);
    Cluster.AtMostOneLeader(b, els, i, j);
  }

  /**
   * Whatever sessions were lost, two running replicas that both accept a
   * write report different epochs on `/role`, and neither reports an epoch
   * beyond the stored one.
   */
  lemma WritersReportDistinctEpochs(b: Backend, els: seq<Elector>, i: nat, j: nat)
    requires Cluster.ClusterInv(b, els)
    requires i < |els| && j < |els| && i != j && !els[i].stopped && !els[j].stopped
    requires PostLeases(EnvOf(els[i].state)).status == 204
    requires PostLeases(EnvOf(els[j].state)).status == 204
    ensures RoleHandler(EnvOf(els[i].state)).leaderEpoch != RoleHandler(EnvOf(els[j].state)).leaderEpoch
    ensures RoleHandler(EnvOf(els[i].state)).leaderEpoch.Some?
    ensures RoleHandler(EnvOf(els[i].state)).leaderEpoch.value <= b.StoredEpoch()
  {
    ServedStateMatches(els[i].state);
    ServedStateMatches(els[j].state);
    Cluster.LeaderEpochsDistinct(b, els, i, j);
  }
}
