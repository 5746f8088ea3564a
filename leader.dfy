/**
 * The leader elector of one controller replica and the shared store it elects
 * through. The store holds one exclusive session-level lock and two text rows
 * of the `dspu_meta` table, `leader_epoch` and `leader_id`. One iteration of
 * the election loop is `Elector.Step`; the loop itself is `Elector.Run`, its
 * `finally` block `Elector.Exit`.
 */
module Leader {
  import opened Wrappers
  import opened Decimal
  import Env

  /** The connection (database session) that owns a lock; not the node id, which may repeat. */
  type SessionId = nat

  datatype Role = Leader | Standby

  /** The strings the elector publishes for each role. */
  function RoleName(r: Role): string {
    match r
    case Leader => "LEADER"
    case Standby => "STANDBY"
  }

  /** What `state()` returns: an immutable snapshot of the replica's view. */
  datatype LeaderState = LeaderState(
    nodeId: string,
    role: Role,
    leaderEpoch: Option<nat>,
    leaderId: Option<string>)

  /** The state every elector starts in. */
  function InitialState(nodeId: string): (s: LeaderState)
    ensures s.nodeId == nodeId && s.role == Standby
    ensures s.leaderEpoch == None && s.leaderId == None
  {
    LeaderState(nodeId, Standby, None, None)
  }

  /**
   * `int(row[0]) if row else 0` on the `leader_epoch` row: a missing row reads
   * as 0; `None` stands for text that `int` would reject.
   */
  function ReadEpoch(row: Option<string>): Option<nat> {
    match row
    case None => Some(0)
    case Some(v) => ParseDecimal(v)
  }

  /** Schema initialisation: insert `leader_epoch = '0'` only when the row is absent. */
  function SeedEpoch(row: Option<string>): Option<string> {
    if row.None? then Some("0") else row
  }

  /**
   * Seeding leaves an existing epoch row alone and always leaves a row;
   * seeding twice is seeding once; a seeded store reads as the same epoch.
   */
  lemma SeedEpochIdempotent(row: Option<string>)
    ensures SeedEpoch(row).Some?
    ensures row.Some? ==> SeedEpoch(row) == row
    ensures SeedEpoch(SeedEpoch(row)) == SeedEpoch(row)
    ensures ReadEpoch(SeedEpoch(row)) == ReadEpoch(row)
  {
    if row.None? {
      DecimalRoundTrip(0);
    }
  }

  /** An epoch written as `str(e)` reads back as `e`. */
  lemma ReadWrittenEpoch(e: nat)
    ensures ReadEpoch(Some(DecimalText(e))) == Some(e)
  {
    DecimalRoundTrip(e);
  }

  /**
   * What a refused elector publishes: the stored epoch (0 if the row is
   * missing) and the stored leader id, or epoch 0 and no leader id when
   * reading fails (`readOk` false, or epoch text that `int` rejects).
   */
  function StandbyView(nodeId: string, readOk: bool, epochRow: Option<string>, leaderIdRow: Option<string>): LeaderState
  {
    if readOk && ReadEpoch(epochRow).Some? then
      LeaderState(nodeId, Standby, ReadEpoch(epochRow), leaderIdRow)
    else
      LeaderState(nodeId, Standby, Some(0), None)
  }

  /** A refused elector publishes STANDBY, under its own id, with the stored rows when it can read them. */
  lemma StandbyViewReportsStore(nodeId: string, readOk: bool, epochRow: Option<string>, leaderIdRow: Option<string>)
    ensures var s := StandbyView(nodeId, readOk, epochRow, leaderIdRow);
      && s.nodeId == nodeId && s.role == Standby && s.leaderEpoch.Some?
      && (readOk && epochRow.None? ==> s.leaderEpoch == Some(0) && s.leaderId == leaderIdRow)
      && (forall e: nat :: readOk && epochRow == Some(DecimalText(e)) ==> s.leaderEpoch == Some(e) && s.leaderId == leaderIdRow)
      && (!readOk ==> s.leaderEpoch == Some(0) && s.leaderId == None)
  {
    forall e: nat | readOk && epochRow == Some(DecimalText(e)) {
      ReadWrittenEpoch(e);
    }
  }

  /** A standby's published epoch is not monotonic: a failed read reports 0 although epoch 2 is stored. */
  lemma StandbyEpochCanRegress()
    ensures StandbyView("node-b", true, Some("2"), Some("node-a")).leaderEpoch == Some(2)
    ensures StandbyView("node-b", false, Some("2"), Some("node-a")).leaderEpoch == Some(0)
  {
    assert "2" == DecimalText(2);
    ReadWrittenEpoch(2);
  }

  /** The shared store: the advisory lock on the leader key and the `dspu_meta` rows. */
  class Backend {
    /** The session holding the exclusive lock, if any. */
    var holder: Option<SessionId>
    /** The `leader_epoch` row, as text. */
    var epochRow: Option<string>
    /** The `leader_id` row. */
    var leaderIdRow: Option<string>
    /** Every epoch minted by an acquisition, in order. */
    ghost var grants: seq<nat>

    ghost predicate Valid()
      reads this
    {
      && ReadEpoch(epochRow).Some?
      && (forall i, j :: 0 <= i < j < |grants| ==> grants[i] < grants[j])
      && (forall i :: 0 <= i < |grants| ==> grants[i] >= 1)
      && (grants != [] ==> ReadEpoch(epochRow) == Some(grants[|grants| - 1]))
    }

    /** The epoch the store currently holds (0 if the row is missing). */
    function StoredEpoch(): nat
      reads this
      requires Valid()
    {
      ReadEpoch(epochRow).value
    }

    /** Whether `pg_try_advisory_lock` succeeds for session `s`. */
    predicate Free(s: SessionId)
      reads this
    {
      holder.None? || holder == Some(s)
    }

    /** A store with no lock holder and rows written by this code (or none). */
    constructor (epochRow: Option<string>, leaderIdRow: Option<string>)
      requires ReadEpoch(epochRow).Some?
      ensures Valid()
      ensures holder == None && this.epochRow == epochRow && this.leaderIdRow == leaderIdRow
      ensures grants == []
    {
      holder := None;
      this.epochRow := epochRow;
      this.leaderIdRow := leaderIdRow;
      grants := [];
    }

    /** `_ensure_schema_once`: seed the epoch row with 0 if it is absent. */
    method EnsureSchema()
      requires Valid()
      modifies this`epochRow
      ensures Valid()
      ensures epochRow == SeedEpoch(old(epochRow))
      ensures StoredEpoch() == old(StoredEpoch())
    {
      SeedEpochIdempotent(epochRow);
      if epochRow.None? {
        epochRow := Some("0");
      }
    }

    /** `pg_try_advisory_lock`: granted exactly when nobody else holds the lock. */
    method TryLock(s: SessionId) returns (got: bool)
      modifies this`holder
      ensures got == old(Free(s))
      ensures holder == if got then Some(s) else old(holder)
    {
      got := Free(s);
      if got {
        holder := Some(s);
      }
    }

    /** `pg_advisory_unlock`, or the session ending: the lock is freed if `s` held it. */
    method Release(s: SessionId)
      modifies this`holder
      ensures holder == if old(holder) == Some(s) then None else old(holder)
    {
      if holder == Some(s) {
        holder := None;
      }
    }

    /**
     * The acquisition transaction: read the epoch, write `stored + 1` and the
     * new leader's id. The new epoch exceeds every epoch minted before.
     */
    method BumpEpoch(id: string) returns (e: nat)
      requires Valid()
      modifies this`epochRow, this`leaderIdRow, this`grants
      ensures Valid()
      ensures e == old(StoredEpoch()) + 1 && e >= 1
      ensures forall k :: 0 <= k < |old(grants)| ==> old(grants)[k] < e
      ensures epochRow == Some(DecimalText(e)) && leaderIdRow == Some(id)
      ensures grants == old(grants) + [e]
    {
      var stored := ReadEpoch(epochRow).value;
      e := stored + 1;
      ReadWrittenEpoch(e);
      epochRow := Some(DecimalText(e));
      leaderIdRow := Some(id);
      grants := grants + [e];
    }
  }

  /** One replica's `LeaderElector`: its configuration, the loop's locals and the published state. */
  class Elector {
    const nodeId: string
    /** The connection `_run` opens; it owns the lock when the elector does. */
    const session: SessionId
    /** `have_lock` in `_run`. */
    var haveLock: bool
    /** `my_epoch` in `_run`. */
    var myEpoch: Option<nat>
    /** `self._state`. */
    var state: LeaderState
    /** Whether the loop has ended (stop requested, or the process was killed). */
    var stopped: bool

    /** `__init__`: the node id from `NODE_ID` (default `node-unknown`), published as STANDBY. */
    constructor (env: Env.Environment, session: SessionId)
      ensures nodeId == Env.NodeId(env) && this.session == session
      ensures state == InitialState(Env.NodeId(env))
      ensures !haveLock && myEpoch == None && !stopped
    {
      nodeId := Env.NodeId(env);
      this.session := session;
      haveLock := false;
      myEpoch := None;
      state := InitialState(Env.NodeId(env));
      stopped := false;
    }

    /** `_set_state`: replace the published state; the node id is always the elector's own. */
    method SetState(role: Role, leaderEpoch: Option<nat>, leaderId: Option<string>)
      modifies this`state
      ensures state.nodeId == nodeId
      ensures state.role == role && state.leaderEpoch == leaderEpoch && state.leaderId == leaderId
    {
      state := LeaderState(nodeId, role, leaderEpoch, leaderId);
    }

    /** The standby branch: read the rows best-effort and publish STANDBY. */
    method PublishStandby(b: Backend, readOk: bool)
      modifies this`state
      ensures state == StandbyView(nodeId, readOk, b.epochRow, b.leaderIdRow)
    {
      var view := StandbyView(nodeId, readOk, b.epochRow, b.leaderIdRow);
      SetState(Standby, view.leaderEpoch, view.leaderId);
    }

    /**
     * One iteration of the election loop. Without the lock it tries to take
     * it: on success it mints the next epoch, records itself as leader and
     * publishes LEADER; on refusal it publishes STANDBY with what it read.
     * With the lock it republishes LEADER with the same epoch and leaves the
     * store alone.
     */
    method Step(b: Backend, readOk: bool)
      requires b.Valid() && !stopped
      modifies this`haveLock, this`myEpoch, this`state, b
      ensures b.Valid() && !stopped
      ensures old(haveLock) ==>
        && haveLock && myEpoch == old(myEpoch) && unchanged(b)
        && state == LeaderState(nodeId, Leader, myEpoch, Some(nodeId))
      ensures !old(haveLock) && old(b.Free(session)) ==>
        && haveLock && b.holder == Some(session)
        && myEpoch == Some(old(b.StoredEpoch()) + 1)
        && b.grants == old(b.grants) + [myEpoch.value]
        && b.epochRow == Some(DecimalText(myEpoch.value)) && b.leaderIdRow == Some(nodeId)
        && state == LeaderState(nodeId, Leader, myEpoch, Some(nodeId))
      ensures !old(haveLock) && !old(b.Free(session)) ==>
        && !haveLock && myEpoch == old(myEpoch) && unchanged(b)
        && state == StandbyView(nodeId, readOk, b.epochRow, b.leaderIdRow)
    {
      if !haveLock {
        var got := b.TryLock(session);
        if got {
          var e := b.BumpEpoch(nodeId);
          myEpoch := Some(e);
          haveLock := true;
          SetState(Leader, myEpoch, Some(nodeId));
        } else {
          PublishStandby(b, readOk);
        }
      } else {
        SetState(Leader, myEpoch, Some(nodeId));
      }
    }

    /**
     * `Step` with the held branch corrected: before republishing LEADER the
     * elector checks that its session still holds the lock, and if the
     * session was lost (server restart, network drop, terminated backend) it
     * drops `have_lock` and publishes STANDBY instead. It then publishes
     * LEADER only on an iteration in which it holds the lock.
     */
    method StepChecked(b: Backend, readOk: bool)
      requires b.Valid() && !stopped
      modifies this`haveLock, this`myEpoch, this`state, b
      ensures b.Valid() && !stopped
      ensures state.role == Leader ==> haveLock && b.holder == Some(session)
      ensures old(haveLock) && old(b.holder) == Some(session) ==>
        && haveLock && myEpoch == old(myEpoch) && unchanged(b)
        && state == LeaderState(nodeId, Leader, myEpoch, Some(nodeId))
      ensures old(haveLock) && old(b.holder) != Some(session) ==>
        && !haveLock && myEpoch == None && unchanged(b)
        && state == StandbyView(nodeId, readOk, b.epochRow, b.leaderIdRow)
      ensures !old(haveLock) && old(b.Free(session)) ==>
        && haveLock && b.holder == Some(session)
        && myEpoch == Some(old(b.StoredEpoch()) + 1)
        && b.grants == old(b.grants) + [myEpoch.value]
        && b.epochRow == Some(DecimalText(myEpoch.value)) && b.leaderIdRow == Some(nodeId)
        && state == LeaderState(nodeId, Leader, myEpoch, Some(nodeId))
      ensures !old(haveLock) && !old(b.Free(session)) ==>
        && !haveLock && myEpoch == old(myEpoch) && unchanged(b)
        && state == StandbyView(nodeId, readOk, b.epochRow, b.leaderIdRow)
    {
      if haveLock && b.holder != Some(session) {
        haveLock := false;
        myEpoch := None;
        PublishStandby(b, readOk);
      } else {
        Step(b, readOk);
      }
    }

    /**
     * The loop's `finally` block: unlock if the lock is held, then close the
     * connection, which ends the session and frees any lock it still holds.
     * The last published state is left as it was.
     */
    method Exit(b: Backend)
      modifies this`haveLock, this`stopped, b`holder
      ensures stopped && !haveLock
      ensures b.holder == if old(b.holder) == Some(session) then None else old(b.holder)
    {
      if haveLock {
        b.Release(session);
      }
      b.Release(session);
      haveLock := false;
      stopped := true;
    }

    /** The process is killed: its connection closes and the store frees whatever lock it held. */
    method Crash(b: Backend)
      modifies this`haveLock, this`stopped, b`holder
      ensures stopped && !haveLock
      ensures b.holder == if old(b.holder) == Some(session) then None else old(b.holder)
    {
      b.Release(session);
      haveLock := false;
      stopped := true;
    }

    /**
     * `_run` with no other elector touching the store: one `Step` per entry
     * of `readOks` (whether that iteration's standby reads succeed), then
     * `Exit`. The lock is taken at most once, so the epoch is bumped at most
     * once, and it is released on the way out.
     */
    method Run(b: Backend, readOks: seq<bool>)
      requires b.Valid() && !stopped
      requires b.holder != Some(session)
      modifies this`haveLock, this`myEpoch, this`state, this`stopped, b
      ensures b.Valid() && stopped && !haveLock
      ensures b.holder == old(b.holder)
      ensures |readOks| > 0 && old(b.holder).None? ==>
        && b.grants == old(b.grants) + [old(b.StoredEpoch()) + 1]
        && state == LeaderState(nodeId, Leader, Some(old(b.StoredEpoch()) + 1), Some(nodeId))
      ensures |readOks| > 0 && old(b.holder).None? ==>
        b.epochRow == Some(DecimalText(old(b.StoredEpoch()) + 1)) && b.leaderIdRow == Some(nodeId)
      ensures !(|readOks| > 0 && old(b.holder).None?) ==> b.grants == old(b.grants)
      ensures !(|readOks| > 0 && old(b.holder).None?) ==>
        b.epochRow == old(b.epochRow) && b.leaderIdRow == old(b.leaderIdRow)
      ensures |readOks| > 0 && old(b.holder).Some? ==>
        state == StandbyView(nodeId, readOks[|readOks| - 1], b.epochRow, b.leaderIdRow)
      ensures |readOks| == 0 ==> state == old(state)
    {
      haveLock := false;
      myEpoch := None;
      ghost var e0 := b.StoredEpoch();
      var i := 0;
      while i < |readOks|
        invariant 0 <= i <= |readOks|
        invariant b.Valid() && !stopped
        invariant haveLock <==> b.holder == Some(session)
        invariant haveLock ==> old(b.holder).None? && i > 0
        invariant i > 0 && old(b.holder).None? ==> haveLock
        invariant haveLock ==>
          && myEpoch == Some(e0 + 1)
          && b.grants == old(b.grants) + [e0 + 1]
          && b.epochRow == Some(DecimalText(e0 + 1)) && b.leaderIdRow == Some(nodeId)
          && state == LeaderState(nodeId, Leader, myEpoch, Some(nodeId))
        invariant !haveLock ==> b.grants == old(b.grants) && b.holder == old(b.holder)
        invariant !haveLock ==> b.epochRow == old(b.epochRow) && b.leaderIdRow == old(b.leaderIdRow)
        invariant i > 0 && old(b.holder).Some? ==>
          state == StandbyView(nodeId, readOks[i - 1], b.epochRow, b.leaderIdRow)
        invariant i == 0 ==> state == old(state)
      {
        Step(b, readOks[i]);
        i := i + 1;
      }
      Exit(b);
    }
  }
}
