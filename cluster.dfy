/**
 * Several replicas electing through one store. Each replica's loop iterations,
 * its stop, its death and the loss of its database session are interleaved in
 * any order; the lock's exclusivity is the store's.
 *
 * A replica whose session is lost while its process runs keeps `have_lock`
 * and goes on publishing LEADER with its old epoch, while another replica can
 * take the freed lock and mint a newer one. So the invariant admits such
 * stale leaders. What holds regardless: LEADERs publish pairwise different
 * epochs, at most one of them the stored epoch, and the epoch history only
 * grows. While no running replica has lost its session, at most one running
 * replica publishes LEADER.
 */
module Cluster {
  import opened Wrappers
  import opened Leader
  import Env

  /** One event of an interleaving. Events naming an unknown or stopped replica do nothing. */
  datatype Event =
    | Tick(who: nat, readOk: bool)         // one loop iteration of replica `who`, as written
    | TickChecked(who: nat, readOk: bool)  // one loop iteration with the held branch corrected
    | Stop(who: nat)                       // `stop()`: the loop ends and runs its `finally` block
    | Kill(who: nat)                       // the process is killed; its connection closes
    | SessionLost(who: nat)                // the server ends `who`'s session; the process runs on
    | Start(env: Env.Environment)          // a new replica process starts with a fresh connection
    | Schema                               // some replica runs schema initialisation

  /** One replica agrees with the store. */
  ghost predicate Coherent(e: Elector, b: Backend)
    reads e, b
  {
    && (e.stopped ==> !e.haveLock)
    && (!e.stopped ==> (e.state.role == Leader <==> e.haveLock))
    && (e.haveLock ==>
          && e.myEpoch.Some? && e.myEpoch.value in b.grants
          && e.state == LeaderState(e.nodeId, Leader, e.myEpoch, Some(e.nodeId)))
    && (b.holder == Some(e.session) ==>
          && e.haveLock && b.grants != []
          && e.myEpoch == Some(b.grants[|b.grants| - 1]))
    && e.state.nodeId == e.nodeId
  }

  /**
   * The whole system's invariant: replica `i` owns connection `i`, every
   * replica agrees with the store, and replicas that believe they hold the
   * lock hold different epochs.
   */
  ghost predicate ClusterInv(b: Backend, els: seq<Elector>)
    reads b, els
  {
    && b.Valid()
    && (forall i :: 0 <= i < |els| ==> els[i].session == i)
    && (forall i :: 0 <= i < |els| ==> Coherent(els[i], b))
    && (b.holder.Some? ==> b.holder.value < |els|)
    && (forall i, j :: 0 <= i < j < |els| && els[i].haveLock && els[j].haveLock ==>
          els[i].myEpoch != els[j].myEpoch)
  }

  /** No running replica has lost the session that took its lock. */
  ghost predicate SessionsAlive(b: Backend, els: seq<Elector>)
    reads b, els
  {
    forall i :: 0 <= i < |els| && els[i].haveLock ==> b.holder == Some(els[i].session)
  }

  /** A replica that is running and publishes LEADER. */
  ghost predicate PublishesLeader(e: Elector)
    reads e
  {
    !e.stopped && e.state.role == Leader
  }

  /** While no running replica has lost its session, at most one running replica publishes LEADER. */
  lemma AtMostOneLeader(b: Backend, els: seq<Elector>, i: nat, j: nat)
    requires ClusterInv(b, els) && SessionsAlive(b, els)
    requires i < |els| && j < |els|
    requires PublishesLeader(els[i]) && PublishesLeader(els[j])
    ensures i == j
  {
    assert Coherent(els[i], b) && Coherent(els[j], b);
  }

  /**
   * Even after sessions are lost, two running LEADERs publish different
   * epochs, every published leader epoch was minted, and none exceeds the
   * stored epoch: the newest term is told apart from stale ones.
   */
  lemma LeaderEpochsDistinct(b: Backend, els: seq<Elector>, i: nat, j: nat)
    requires ClusterInv(b, els)
    requires i < |els| && j < |els| && i != j
    requires PublishesLeader(els[i]) && PublishesLeader(els[j])
    ensures els[i].state.leaderEpoch != els[j].state.leaderEpoch
    ensures els[i].state.leaderEpoch.Some? && els[i].state.leaderEpoch.value in b.grants
    ensures els[i].state.leaderEpoch.value <= b.StoredEpoch()
  {
    assert Coherent(els[i], b) && Coherent(els[j], b);
    if i < j {
      assert els[i].myEpoch != els[j].myEpoch;
    } else {
      assert els[j].myEpoch != els[i].myEpoch;
    }
    GrantsBelowStored(b);
  }

  /** Every minted epoch is at most the stored one. */
  lemma GrantsBelowStored(b: Backend)
    requires b.Valid()
    ensures forall k :: 0 <= k < |b.grants| ==> b.grants[k] <= b.StoredEpoch()
  {
    var g := b.grants;
    forall k | 0 <= k < |g| ensures g[k] <= b.StoredEpoch() {
      if k < |g| - 1 {
        assert g[k] < g[|g| - 1];
      }
    }
  }

  /** A running LEADER that still holds the lock publishes the stored epoch, the largest ever minted, and its own id. */
  lemma LeaderEpochIsCurrent(b: Backend, els: seq<Elector>, i: nat)
    requires ClusterInv(b, els)
    requires i < |els| && PublishesLeader(els[i]) && b.holder == Some(i)
    ensures els[i].state.leaderEpoch == Some(b.StoredEpoch())
    ensures els[i].state.leaderId == Some(els[i].nodeId)
    ensures forall k :: 0 <= k < |b.grants| ==> b.grants[k] <= b.StoredEpoch()
  {
    assert Coherent(els[i], b);
    GrantsBelowStored(b);
  }

  /** A fresh replica with the next connection joins without breaking the invariant. */
  lemma JoinPreservesInv(b: Backend, els: seq<Elector>, e: Elector)
    requires ClusterInv(b, els) && !(e in els)
    requires e.session == |els| && !e.haveLock && !e.stopped
    requires e.state.role == Standby && e.state.nodeId == e.nodeId
    ensures ClusterInv(b, els + [e])
    ensures SessionsAlive(b, els) ==> SessionsAlive(b, els + [e])
  {
    var els' := els + [e];
    forall i | 0 <= i < |els'| ensures els'[i].session == i && Coherent(els'[i], b) {
      if i < |els| {
        assert els'[i] == els[i];
      }
    }
  }

  /**
   * Replays an interleaving. The invariant holds throughout, earlier replicas
   * stay in place, and the epoch history only grows, so every epoch minted
   * during the run exceeds every epoch minted before it. Without session
   * losses, no running replica is left believing in a lock it lost.
   */
  method Interleave(b: Backend, electors: seq<Elector>, events: seq<Event>) returns (els: seq<Elector>)
    requires ClusterInv(b, electors)
    modifies b, electors
    ensures ClusterInv(b, els)
    ensures |els| >= |electors| && els[..|electors|] == electors
    ensures old(b.grants) <= b.grants
    ensures forall k, n :: 0 <= k < |old(b.grants)| <= n < |b.grants| ==> b.grants[k] < b.grants[n]
    ensures old(SessionsAlive(b, electors)) && (forall t :: 0 <= t < |events| ==> !events[t].SessionLost?) ==>
      SessionsAlive(b, els)
  {
    els := electors;
    ghost var alive := SessionsAlive(b, electors);
    var t := 0;
    while t < |events|
      invariant 0 <= t <= |events|
      invariant ClusterInv(b, els)
      invariant |els| >= |electors| && els[..|electors|] == electors
      invariant forall k :: 0 <= k < |els| ==> els[k] in electors || fresh(els[k])
      invariant old(b.grants) <= b.grants
      invariant alive && (forall u :: 0 <= u < t ==> !events[u].SessionLost?) ==> SessionsAlive(b, els)
    {
      els := Apply(b, els, events[t]);
      t := t + 1;
    }
    var g := b.grants;
    forall k, n | 0 <= k < |old(b.grants)| <= n < |g| ensures g[k] < g[n] {
      assert g[k] == old(b.grants)[k];
    }
  }

  /** Applies one event, keeping the invariant; only a session loss can leave a running replica without its lock. */
  method Apply(b: Backend, els: seq<Elector>, ev: Event) returns (els': seq<Elector>)
    requires ClusterInv(b, els)
    modifies b, els
    ensures ClusterInv(b, els')
    ensures |els'| >= |els| && els'[..|els|] == els
    ensures forall k :: |els| <= k < |els'| ==> fresh(els'[k])
    ensures old(b.grants) <= b.grants
    ensures old(SessionsAlive(b, els)) && !ev.SessionLost? ==> SessionsAlive(b, els')
  {
    els' := els;
    match ev {
      case Tick(who, readOk) =>
        if who < |els| && !els[who].stopped {
          TickReplica(b, els, who, readOk, false);
        }
      case TickChecked(who, readOk) =>
        if who < |els| && !els[who].stopped {
          TickReplica(b, els, who, readOk, true);
        }
      case Stop(who) =>
        if who < |els| && !els[who].stopped {
          StopReplica(b, els, who);
        }
      case Kill(who) =>
        if who < |els| && !els[who].stopped {
          KillReplica(b, els, who);
        }
      case SessionLost(who) =>
        if who < |els| {
          LoseSession(b, els, who);
        }
      case Start(env) =>
        var e := new Elector(env, |els|);
        JoinPreservesInv(b, els, e);
        els' := els + [e];
      case Schema =>
        b.EnsureSchema();
        assert forall i :: 0 <= i < |els| ==> Coherent(els[i], b);
    }
  }

  /**
   * One loop iteration of replica `who`, as written or with the corrected
   * held branch, keeping the invariant. The corrected iteration leaves the
   * replica publishing LEADER only if its session holds the lock.
   */
  method TickReplica(b: Backend, els: seq<Elector>, who: nat, readOk: bool, checked: bool)
    requires ClusterInv(b, els) && who < |els| && !els[who].stopped
    modifies b, els[who]
    ensures ClusterInv(b, els)
    ensures old(b.grants) <= b.grants
    ensures old(SessionsAlive(b, els)) ==> SessionsAlive(b, els)
    ensures checked && PublishesLeader(els[who]) ==> b.holder == Some(who)
  {
    var e := els[who];
    assert Coherent(e, b);
    if checked {
      e.StepChecked(b, readOk);
    } else {
      e.Step(b, readOk);
    }
    forall i | 0 <= i < |els| ensures Coherent(els[i], b) {
      if i != who {
        assert els[i].session != e.session;
      }
    }
    forall i, j | 0 <= i < j < |els| && els[i].haveLock && els[j].haveLock
      ensures els[i].myEpoch != els[j].myEpoch
    {
      if i == who || j == who {
        var other := if i == who then j else i;
        assert els[other].myEpoch.value in old(b.grants);
      }
    }
  }

  /** Replica `who` stops, keeping the invariant. */
  method StopReplica(b: Backend, els: seq<Elector>, who: nat)
    requires ClusterInv(b, els) && who < |els| && !els[who].stopped
    modifies b`holder, els[who]
    ensures ClusterInv(b, els)
    ensures b.grants == old(b.grants)
    ensures old(SessionsAlive(b, els)) ==> SessionsAlive(b, els)
  {
    var e := els[who];
    assert Coherent(e, b);
    e.Exit(b);
    forall i | 0 <= i < |els| ensures Coherent(els[i], b) {
      if i != who {
        assert els[i].session != e.session;
      }
    }
  }

  /** Replica `who` is killed, keeping the invariant. */
  method KillReplica(b: Backend, els: seq<Elector>, who: nat)
    requires ClusterInv(b, els) && who < |els| && !els[who].stopped
    modifies b`holder, els[who]
    ensures ClusterInv(b, els)
    ensures b.grants == old(b.grants)
    ensures old(SessionsAlive(b, els)) ==> SessionsAlive(b, els)
  {
    var e := els[who];
    assert Coherent(e, b);
    e.Crash(b);
    forall i | 0 <= i < |els| ensures Coherent(els[i], b) {
      if i != who {
        assert els[i].session != e.session;
      }
    }
  }

  /** The server ends replica `who`'s session: the lock is freed, the replica runs on unaware. */
  method LoseSession(b: Backend, els: seq<Elector>, who: nat)
    requires ClusterInv(b, els) && who < |els|
    modifies b`holder
    ensures ClusterInv(b, els)
    ensures b.grants == old(b.grants)
    ensures b.holder == if old(b.holder) == Some(who) then None else old(b.holder)
  {
    b.Release(who);
  }
}
