# Leader election and the leader-only write gate of the DSPU controller

This project models, in Dafny, the two pieces of the DSPU-HA controller that
decide which replica may write:

- **The leader elector** (`controller/src/controller/leader.py`). Each
  controller replica runs a loop against a shared Postgres database. It tries
  an exclusive session-level advisory lock. The replica that gets it reads the
  stored `leader_epoch`, writes `stored + 1` and its own `leader_id`, and
  publishes `LEADER` with that epoch. A replica that is refused publishes
  `STANDBY` with whatever it could read from the store. A replica that already
  holds the lock republishes `LEADER` with the same epoch. When the loop ends,
  it unlocks only if it holds the lock.
- **The write gate** (`controller/src/controller/app.py`). `GET /role`
  reports the node id, the role, the leader epoch and the leader id, all taken
  from the environment. `POST /v1/leases` answers 204 on a `LEADER` and
  otherwise a 409 whose body is the `NOT_LEADER` payload.

Files and modules:

- `wrappers.dfy` (`Wrappers`): `Option`, for Python's `None`.
- `decimal.dfy` (`Decimal`): decimal text over ASCII digits. `DecimalText` is
  `str(n)` and `ParseDecimal` is `int(s) if s and s.isdigit() else None`. The
  round-trip lemma is what lets a store that keeps the epoch as text carry a
  monotonic number.
- `env.dfy` (`Env`): the environment as a `map<string, string>`, with
  `os.getenv` and the shared `NODE_ID` lookup.
- `leader.dfy` (`Leader`): `LeaderState`; the store as class `Backend` (the
  lock holder, the `leader_epoch` and `leader_id` rows, and a ghost history
  of minted epochs); and the elector as class `Elector`. `Elector.Step` is one
  loop iteration, `Elector.Exit` is the `finally` block (unlock, then close), `Elector.Crash` is a
  killed process, and `Elector.Run` is the whole loop for a replica alone with
  the store.
- `cluster.dfy` (`Cluster`): any interleaving of iterations, stops, kills,
  lost database sessions, new replicas and schema runs over one store.
  `ClusterInv` is preserved. From it follow a strictly increasing epoch
  history and pairwise different epochs among the replicas that publish
  `LEADER`. A single published `LEADER` among running replicas follows as
  long as no running replica has lost its session (`SessionsAlive`).
- `app.dfy` (`App`): the HTTP layer as pure functions of the environment.
- `serving.dfy` (`Serving`): what `/role` and `/v1/leases` answer on a
  replica whose environment carries its elector's published state. The code
  that copies that state into the environment is not part of this model, so
  `EnvOf` states what such code would write. The lemmas hold under that
  hypothesis.
- `scenarios.dfy` (`Scenarios`): the two-replica takeover from the
  conformance tests, and the lost-session split brain with its correction,
  written as clients of the contracts.

Modelling decisions:

- The lock belongs to a database session, not to a node id. Two processes can
  share a `NODE_ID`, since the default is `node-unknown`. Sessions are
  numbers, and `ClusterInv` gives replica `i` session `i`.
- The store's rows are text, as in the `dspu_meta` table. Reading the epoch is
  `ReadEpoch`: a missing row reads as 0, and text that `int` rejects gives
  `None`. `Backend.Valid()` keeps the epoch row readable. Only this code writes
  the row, and it writes `'0'` or `str(n)`.
- I/O becomes parameters. `readOk` says whether a standby's two reads
  succeed. The lock's answer comes from the store's state: it is granted
  exactly when nobody else holds the lock.
- The server can end a session while the process keeps running (a restart,
  a dropped connection, `pg_terminate_backend`). That frees the session's
  lock without the replica noticing: its local `have_lock` stays true. This
  is the `SessionLost` event. `Elector.Step` is the loop body as written;
  `Elector.StepChecked` is the corrected body described under Findings, and
  the cluster may run either. The model lets a replica whose session was lost
  go on querying the store as if its connection were alive. In the source
  the connection is dead, and the next try-lock raises and ends the loop.
  The model therefore allows more behaviour than the source, so the safety
  lemmas still cover the source.
- After `Exit` the elector's last published state is left as it was, because
  the source's `finally` block does not call `_set_state`. The single-leader
  property is therefore stated over running replicas.

Where the design text and the code differ, the model follows the code:

- The `NOT_LEADER` body's `role` is `get_role()`. That can be any upper-cased
  configured value, such as `DRAINING`, not only `STANDBY`.
- There is no `DRAINING` state, no `STALE_EPOCH` rejection, no per-job epoch
  and no worker supervision in the code, so none is modelled.
- The HTTP layer reads role and epoch from the environment, not from the
  elector.

## Model

| member | source | states |
|---|---|---|
| `Decimal.ParseDecimal` | controller/src/controller/app.py:14 | a number is read exactly when the text is non-empty and all ASCII digits |
| `Decimal.DecimalText` | controller/src/controller/leader.py:119 | `str(n)` is non-empty, all digits, with no leading zero unless it is `"0"` |
| `Decimal.DecimalRoundTrip` | controller/src/controller/leader.py:115-119 | `int(str(n)) == n`: the epoch written as text reads back as the same number |
| `Decimal.LeadingZeroIgnored` | controller/src/controller/app.py:14 | a leading zero does not change the value read |
| `Decimal.ParseNotInjective` | controller/src/controller/app.py:14 | `"07"` and `"7"` both read as 7 |
| `Env.Getenv` | controller/src/controller/app.py:13 | `os.getenv(key)`: a value exactly when the key is set, and then the set value |
| `Env.GetenvOr` | controller/src/controller/app.py:10 | `os.getenv(key, default)`: the set value when the key is set, else the default (an empty value counts as set) |
| `Env.NodeId` | controller/src/controller/app.py:5-6 | the node id is `NODE_ID` when set, else `node-unknown` (the elector reads it the same way, leader.py:33) |
| `Leader.InitialState` | controller/src/controller/leader.py:42-47 | a fresh state is STANDBY under the node's own id, with no epoch and no leader id |
| `Leader.ReadEpoch` | controller/src/controller/leader.py:115 | no ensures of its own: `Leader.ReadWrittenEpoch` states that an epoch written as `str(e)` reads back as `e`, `Leader.SeedEpochIdempotent` that a missing row and the seeded `'0'` both read as 0 |
| `Leader.SeedEpoch` | controller/src/controller/leader.py:89-91 | no ensures of its own: `Leader.SeedEpochIdempotent` states its meaning |
| `Leader.SeedEpochIdempotent` | controller/src/controller/leader.py:89-91 | schema init always leaves an epoch row, never changes an existing one, is idempotent, and does not change the epoch a reader sees |
| `Leader.ReadWrittenEpoch` | controller/src/controller/leader.py:112-119 | an epoch written as `str(e)` is read back by `int` as `e` |
| `Leader.StandbyView` | controller/src/controller/leader.py:131-143 | no ensures of its own: `Leader.StandbyViewReportsStore` states what the standby try/except publishes |
| `Leader.StandbyViewReportsStore` | controller/src/controller/leader.py:129-143 | a refused replica publishes STANDBY under its own id with the stored epoch (0 if missing) and stored leader id, or epoch 0 and no leader id when the reads fail |
| `Leader.StandbyEpochCanRegress` | controller/src/controller/leader.py:140-143 | a standby's published epoch is not monotonic: with epoch 2 stored, a failed read publishes 0 |
| `Leader.Backend.constructor` | controller/src/controller/leader.py:83-86 | a store with no lock holder, the given rows and an empty epoch history |
| `Leader.Backend.EnsureSchema` | controller/src/controller/leader.py:77-91 | the epoch row is seeded with `'0'` only when absent; the stored epoch is unchanged; the store stays valid |
| `Leader.Backend.TryLock` | controller/src/controller/leader.py:105-107 | the lock is granted exactly when no other session holds it, and then this session holds it; otherwise the holder is unchanged |
| `Leader.Backend.Release` | controller/src/controller/leader.py:150-154 | the lock is freed if and only if this session held it |
| `Leader.Backend.BumpEpoch` | controller/src/controller/leader.py:111-125 | the new epoch is the stored epoch + 1 (1 when the row is missing); it exceeds every epoch minted before; it and the new leader id are written; the history grows by exactly this epoch |
| `Leader.Elector.constructor` | controller/src/controller/leader.py:31-47 | a new elector has the configured node id, publishes the initial STANDBY state, and holds no lock |
| `Leader.Elector.SetState` | controller/src/controller/leader.py:160-167 | only the published state changes; its node id is always the elector's own |
| `Leader.Elector.PublishStandby` | controller/src/controller/leader.py:129-143 | the standby branch publishes exactly `StandbyView` of the current rows |
| `Leader.Elector.Step` | controller/src/controller/leader.py:103-145 | held lock: republish LEADER with the same epoch and leave the store alone; granted: epoch = stored + 1, store rows hold it and this node's id, the lock is held, LEADER is published; refused: STANDBY with what was read, store unchanged |
| `Leader.Elector.StepChecked` | controller/src/controller/leader.py:103-145 | the corrected iteration publishes LEADER only while its session holds the lock; a replica that believes it holds the lock but whose session lost it publishes STANDBY with what it reads and forgets its epoch; otherwise as `Step` |
| `Leader.Elector.Exit` | controller/src/controller/leader.py:149-158 | the loop ends; the lock is unlocked if held and the connection is closed, so whatever lock this session holds is freed and any other session's lock is untouched |
| `Leader.Elector.Crash` | tests/conformance/test_takeover_v0.py:117-123 | a killed replica stops and its session's lock, if any, is freed |
| `Leader.Elector.Run` | controller/src/controller/leader.py:95-158 | the whole loop on a store nobody else touches: the epoch is bumped at most once (exactly once when the lock was free), LEADER is republished with that same epoch, the rows then hold `str(stored + 1)` and this node's id, and the lock is released on exit; when the lock was never taken the rows are untouched; with no iteration the published state is unchanged |
| `Cluster.AtMostOneLeader` | controller/src/controller/leader.py:104-143 | with an exclusive lock and no running replica having lost its session, at most one running replica publishes LEADER |
| `Cluster.LeaderEpochsDistinct` | controller/src/controller/leader.py:111-128 | even after sessions are lost, two running LEADERs publish different epochs, each of them minted and none above the stored epoch |
| `Cluster.GrantsBelowStored` | controller/src/controller/leader.py:112-119 | no epoch ever minted exceeds the stored epoch |
| `Cluster.LeaderEpochIsCurrent` | controller/src/controller/leader.py:112-128 | a running LEADER whose session holds the lock publishes the stored epoch, which is the largest ever minted, and its own id as leader id |
| `Cluster.JoinPreservesInv` | controller/src/controller/leader.py:42-47 | a fresh STANDBY replica with a new connection joins without breaking the invariant |
| `Cluster.TickReplica` | controller/src/controller/leader.py:103-145 | one iteration of any running replica, as written or corrected, keeps the invariant, only extends the epoch history, and loses no session; after a corrected iteration the replica publishes LEADER only while its session holds the lock |
| `Cluster.StopReplica` | controller/src/controller/leader.py:149-154 | stopping any running replica keeps the invariant |
| `Cluster.KillReplica` | tests/conformance/test_takeover_v0.py:117-123 | killing any running replica keeps the invariant |
| `Cluster.LoseSession` | controller/src/controller/leader.py:144-145 | the server ends a session: its lock, if held, is freed; the replica and the epoch history are untouched; the invariant holds |
| `Cluster.Apply` | controller/src/controller/leader.py:95-158 | one event keeps the invariant, keeps existing replicas in place, only extends the epoch history, and leaves every running replica's session holding its lock unless the event is a session loss |
| `Cluster.Interleave` | controller/src/controller/leader.py:95-158 | over any interleaving the invariant holds, the epoch history only grows, every epoch minted later exceeds every epoch minted earlier, and without session losses no running replica is left believing in a lock it lost |
| `App.Upper` | controller/src/controller/app.py:10 | upper-casing keeps the length and upper-cases each ASCII letter |
| `App.UpperMatchesWord` | controller/src/controller/app.py:10 | an upper-cased value equals an upper-case word exactly when it spells that word in any mix of cases |
| `App.GetRole` | controller/src/controller/app.py:8-10 | `STANDBY` when `ROLE` is unset; otherwise the configured value upper-cased, of the same length |
| `App.DrainingRolePassesThrough` | controller/src/controller/app.py:8-29 | `ROLE=draining` reads as `DRAINING`, neither LEADER nor STANDBY, and a write is refused with a 409 payload naming `DRAINING` |
| `App.GetRoleIsLeader` | controller/src/controller/app.py:8-10 | the role is LEADER exactly when `ROLE` is set and spells `leader` in any case |
| `App.LowerCaseLeaderCounts` | controller/src/controller/app.py:8-10 | `ROLE=leader` counts as LEADER; an unset role does not |
| `App.GetLeaderEpoch` | controller/src/controller/app.py:12-14 | a number is returned exactly when `LEADER_EPOCH` is set, non-empty and all digits |
| `App.GetLeaderEpochReadsDecimal` | controller/src/controller/app.py:12-14 | an epoch written as decimal text into `LEADER_EPOCH` is reported unchanged |
| `App.RoleHandler` | controller/src/controller/app.py:37-44 | no ensures of its own: `App.NotLeaderAgreesWithRole` ties it to the rejection payload and `Serving.ServedStateMatches` shows it reports a published state exactly |
| `App.NotLeaderPayload` | controller/src/controller/app.py:16-24 | no ensures of its own: `App.NotLeaderAgreesWithRole` states its fields |
| `App.NotLeaderAgreesWithRole` | controller/src/controller/app.py:16-24 | the rejection body says `NOT_LEADER` and reports the same node id, role, epoch and leader id as `/role`, plus `LEADER_URL` |
| `App.EnsureLeaderOr409` | controller/src/controller/app.py:26-29 | no response exactly when the role is LEADER; otherwise status 409 with the `NOT_LEADER` payload |
| `App.PostLeases` | controller/src/controller/app.py:46-53 | 204 with no body exactly when the role is LEADER; otherwise 409 with the `NOT_LEADER` payload |
| `App.UnsetRoleRejects` | controller/src/controller/app.py:46-53 | with `ROLE` unset a write gets 409 `NOT_LEADER` with role `STANDBY` |
| `Serving.ServedStateMatches` | controller/src/controller/app.py:37-53 | a replica serving its published state reports exactly that state on `/role` and accepts writes exactly when it is LEADER |
| `Serving.AtMostOneAcceptsWrites` | controller/src/controller/app.py:46-53 | while no running replica has lost its session, at most one running replica answers a write with 204 |
| `Serving.WritersReportDistinctEpochs` | controller/src/controller/app.py:37-53 | even after sessions are lost, two running replicas that both accept writes report different epochs on `/role`, none above the stored epoch |
| `Scenarios.FirstElection` | tests/conformance/test_ha_v0.py:66-87 | on an empty store the first replica to step becomes LEADER with epoch at least 1 and the other stays STANDBY |
| `Scenarios.Failover` | tests/conformance/test_takeover_v0.py:117-138 | after the leader is killed the standby's next iteration makes it LEADER with a larger epoch |
| `Scenarios.Takeover` | tests/conformance/test_takeover_v0.py:89-141 | epoch1 is at least 1, the leader accepts a write, the standby refuses one, and after the kill the new leader has a larger epoch and accepts writes |
| `Scenarios.SplitBrainAsWritten` | controller/src/controller/leader.py:144-145 | as written, after the leader's session is lost both replicas accept writes, under epochs 1 <= a < c |
| `Scenarios.SessionLossChecked` | controller/src/controller/leader.py:144-145 | with the corrected held branch, the replica that lost its session refuses writes and only the new leader, with the larger epoch, accepts them |

## Findings

| source | as written | input that shows it | evidently intended | confidence | as-written member | corrected member |
|---|---|---|---|---|---|---|
| controller/src/controller/leader.py:144-145 | a replica that once took the lock republishes LEADER on every later iteration without asking the database whether its session still holds the lock | replica A becomes LEADER with epoch 1; the server ends A's session, freeing the lock; A's next iteration republishes LEADER with epoch 1; replica C's try-lock then succeeds and it publishes LEADER with epoch 2; both answer writes with 204 | publish LEADER only while the session holds the lock, and step down to STANDBY once it does not | medium, not executed | `Scenarios.SplitBrainAsWritten` | `Leader.Elector.StepChecked` (with `Scenarios.SessionLossChecked` and `Cluster.TickReplica`) |

Even with the corrected step, a replica that has lost its session publishes
LEADER until its next iteration, so single leadership holds only under
`SessionsAlive`. What holds without it is `Cluster.LeaderEpochsDistinct`:
stale leaders always carry older epochs than the current one.

## Left out

- Postgres and psycopg: connections, SQL text, transactions and `ON CONFLICT` upserts are the `Backend`. Try-lock is assumed exclusive and the acquisition transaction atomic.
- Advisory-lock re-entrancy counts: a session that locks twice must unlock twice. The model keeps a single owner. The elector never tries the lock while it holds it.
- `LEADER_LOCK_KEY`: every replica is assumed to use the same key. Replicas with different keys would not exclude each other.
- `DATABASE_URL`: construction raises if it is missing. The connection it names is the `Backend`.
- A database error inside the acquisition transaction: it ends the loop. This path is not modelled.
- Threads, `_stop`, `_state_lock`, `join(timeout=2)`, and `start`/`stop` plumbing: the loop is a sequence of `Step` calls, and replicas are interleaved by `Cluster.Interleave`. `start` runs `EnsureSchema` and then the loop.
- Time: `time.sleep` polling, `LEADER_POLL_S`, and the retry deadline loop of `_ensure_schema_with_retry` with its float settings.
- `Leader.ReadEpoch` accepts only non-empty ASCII digit text. Python's `int` also accepts signs, surrounding whitespace and underscores. The store only ever holds `'0'` or `str(n)`.
- `Decimal.ParseDecimal` does not model Python's Unicode `str.isdigit`. That accepts characters such as superscript digits, which `int` then rejects.
- `App.Upper` changes ASCII letters only. Python's `str.upper` also maps other letters, some of them to two characters.
- FastAPI routing, `JSONResponse`/`Response` objects, JSON encoding, and `GET /healthz`.
- `Leader.Elector.Run`: it assumes no other replica touches the store during the run. Interleaved replicas are covered by `Cluster.Interleave`.
- `Cluster.AtMostOneLeader`: holds only under `SessionsAlive`, meaning no running replica has lost the session that took its lock. The source's held branch never re-checks the session, so after a session loss two running replicas publish LEADER (see Findings); `Cluster.LeaderEpochsDistinct` is what holds without the hypothesis.
- `Cluster.LeaderEpochIsCurrent`: requires that the replica's session still holds the lock. A replica whose session was lost publishes an older epoch.
- `Cluster.Interleave`: concludes `SessionsAlive` only for runs without `SessionLost` events.
- `Serving.AtMostOneAcceptsWrites`: holds only under `SessionsAlive`, for the same reason as `Cluster.AtMostOneLeader`; `Serving.WritersReportDistinctEpochs` holds without it.
- `Leader.Elector.PublishStandby`: the two reads are one atomic step in the model, as are the try-lock and the epoch bump in `Leader.Elector.Step`. In the source they are separate autocommit statements (leader.py:105-107, 132-139), and the reads can interleave with another replica's acquisition transaction (leader.py:111-125). A standby can then publish one term's epoch with the next term's leader id.
- `Leader.Elector.Step`: a failure of the try-lock query itself (leader.py:105-107) is outside any `try`. It ends the loop and freezes that replica's last published state. This path is not modelled.
