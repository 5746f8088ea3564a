/**
 * The two-replica takeover as a client of the model: two replicas start on an
 * empty store, one wins, the standby is refused writes, the leader is killed,
 * and the standby takes over with a larger epoch.
 */
module Scenarios {
  import opened Wrappers
  import opened Leader
  import opened App
  import opened Serving

  /** Two fresh replicas step in turn: the first becomes LEADER, the second stays STANDBY. */
  method FirstElection(store: Backend, first: Elector, second: Elector) returns (epoch: nat)
    requires store.Valid() && store.holder == None && store.grants == []
    requires first != second && first.session != second.session
    requires !first.haveLock && !first.stopped && !second.haveLock && !second.stopped
    modifies store, first`haveLock, first`myEpoch, first`state, second`haveLock, second`myEpoch, second`state
    ensures store.Valid() && store.holder == Some(first.session) && store.grants == [epoch] && epoch >= 1
    ensures first.state.role == Leader && second.state.role == Standby
    ensures !second.haveLock && !second.stopped && !first.stopped
  {
    first.Step(store, true);
    epoch := first.myEpoch.value;
    second.Step(store, true);
  }

  /** The leader dies; the standby's next iteration takes the lock with a larger epoch. */
  method Failover(store: Backend, leader: Elector, standby: Elector, epoch: nat) returns (epoch2: nat)
    requires store.Valid() && store.holder == Some(leader.session) && store.grants == [epoch]
    requires leader != standby && leader.session != standby.session
    requires !standby.haveLock && !standby.stopped
    modifies store, leader`haveLock, leader`stopped, standby`haveLock, standby`myEpoch, standby`state
    ensures standby.state.role == Leader && epoch2 > epoch
  {
    leader.Crash(store);
    standby.Step(store, true);
    epoch2 := standby.myEpoch.value;
  }

  method Takeover() returns (epoch1: nat, epoch2: nat, leaderWrite: nat, standbyWrite: nat, takeoverWrite: nat)
    ensures epoch1 >= 1 && epoch2 > epoch1
    ensures leaderWrite == 204 && standbyWrite == 409 && takeoverWrite == 204
  {
    var store := new Backend(None, None);
    store.EnsureSchema();
    var a := new Elector(map["NODE_ID" := "node-a"], 0);
    var b := new Elector(map["NODE_ID" := "node-b"], 1);
    epoch1 := FirstElection(store, a, b);
    ServedStateMatches(a.state);
    ServedStateMatches(b.state);
    leaderWrite := PostLeases(EnvOf(a.state)).status;
    standbyWrite := PostLeases(EnvOf(b.state)).status;
    epoch2 := Failover(store, a, b, epoch1);
    ServedStateMatches(b.state);
    takeoverWrite := PostLeases(EnvOf(b.state)).status;
  }

  /**
   * The session of a LEADER is ended by the server while its process runs.
   * As written, its next iteration takes the held branch and republishes
   * LEADER, and the other replica takes the freed lock with a newer epoch:
   * both replicas accept writes.
   */
  method SplitBrainAsWritten() returns (epochA: nat, epochC: nat, writeA: nat, writeC: nat)
    ensures 1 <= epochA < epochC
    ensures writeA == 204 && writeC == 204
  {
    var store := new Backend(None, None);
    store.EnsureSchema();
    var a := new Elector(map["NODE_ID" := "node-a"], 0);
    var c := new Elector(map["NODE_ID" := "node-c"], 1);
    a.Step(store, true);
    store.Release(a.session);
    a.Step(store, true);
    c.Step(store, true);
    epochA := a.state.leaderEpoch.value;
    epochC := c.state.leaderEpoch.value;
    ServedStateMatches(a.state);
    ServedStateMatches(c.state);
    writeA := PostLeases(EnvOf(a.state)).status;
    writeC := PostLeases(EnvOf(c.state)).status;
  }

  /**
   * The same session loss with the corrected held branch: the replica that
   * lost its session steps down to STANDBY, and only the new leader accepts
   * writes.
   */
  method SessionLossChecked() returns (epochA: nat, epochC: nat, writeA: nat, writeC: nat)
    ensures 1 <= epochA < epochC
    ensures writeA == 409 && writeC == 204
  {
    var store := new Backend(None, None);
    store.EnsureSchema();
    var a := new Elector(map["NODE_ID" := "node-a"], 0);
    var c := new Elector(map["NODE_ID" := "node-c"], 1);
    a.StepChecked(store, true);
    epochA := a.myEpoch.value;
    store.Release(a.session);
    a.StepChecked(store, true);
    c.StepChecked(store, true);
    epochC := c.state.leaderEpoch.value;
    ServedStateMatches(a.state);
    ServedStateMatches(c.state);
    writeA := PostLeases(EnvOf(a.state)).status;
    writeC := PostLeases(EnvOf(c.state)).status;
  }
}
