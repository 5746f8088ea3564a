/**
 * The controller's HTTP layer: role introspection and the leader-only write
 * gate. Every answer is a function of the environment, passed in as a map.
 */
module App {
  import opened Wrappers
  import opened Decimal
  import opened Env

  /** Python's `str.upper` on one character, ASCII letters only. */
  function UpperChar(c: char): char {
    if 'a' <= c <= 'z' then (c as int - 32) as char else c
  }

  /** Python's `str.upper`, ASCII letters only. */
  function Upper(s: string): (r: string)
    ensures |r| == |s|
    ensures forall i :: 0 <= i < |s| ==> r[i] == UpperChar(s[i])
  {
    if s == [] then [] else Upper(s[..|s| - 1]) + [UpperChar(s[|s| - 1])]
  }

  /** `a` spells the upper-case word `w` in any mix of cases. */
  ghost predicate SpellsIgnoringCase(a: string, w: string)
  {
    && |a| == |w|
    && forall i :: 0 <= i < |a| ==> a[i] == w[i] || ('A' <= w[i] <= 'Z' && a[i] as int == w[i] as int + 32)
  }

  /** For a word of upper-case letters, `Upper(a) == w` exactly when `a` spells `w` ignoring case. */
  lemma UpperMatchesWord(a: string, w: string)
    requires forall i :: 0 <= i < |w| ==> 'A' <= w[i] <= 'Z'
    ensures Upper(a) == w <==> SpellsIgnoringCase(a, w)
  {
    if SpellsIgnoringCase(a, w) {
      assert forall i :: 0 <= i < |a| ==> Upper(a)[i] == w[i];
    }
    if Upper(a) == w {
      forall i | 0 <= i < |a| ensures a[i] == w[i] || ('A' <= w[i] <= 'Z' && a[i] as int == w[i] as int + 32) {
        assert UpperChar(a[i]) == w[i];
      }
    }
  }

  const LeaderRole: string := "LEADER"
  const StandbyRole: string := "STANDBY"

  /**
   * `get_role`: `ROLE` upper-cased, `STANDBY` when unset. Any other value,
   * such as `draining`, passes through upper-cased rather than being
   * mapped to one of the two roles.
   */
  function GetRole(env: Environment): (r: string)
    ensures "ROLE" !in env ==> r == StandbyRole
    ensures "ROLE" in env ==> r == Upper(env["ROLE"]) && |r| == |env["ROLE"]|
  {
    Upper(GetenvOr(env, "ROLE", StandbyRole))
  }

  /** The role is LEADER exactly when `ROLE` is set and spells `leader` in any case. */
  lemma GetRoleIsLeader(env: Environment)
    ensures GetRole(env) == LeaderRole <==> "ROLE" in env && SpellsIgnoringCase(env["ROLE"], LeaderRole)
  {
    if "ROLE" in env {
      UpperMatchesWord(env["ROLE"], LeaderRole);
    } else {
      assert GetRole(env)[0] == 'S';
    }
  }

  /** A lower-case `leader` counts as LEADER; an unset role does not. */
  lemma LowerCaseLeaderCounts(env: Environment)
    ensures GetRole(env["ROLE" := "leader"]) == LeaderRole
    ensures "ROLE" !in env ==> GetRole(env) != LeaderRole
  {
    GetRoleIsLeader(env["ROLE" := "leader"]);
    GetRoleIsLeader(env);
  }

  /** `get_leader_epoch`: `LEADER_EPOCH` as a number when it is a non-empty string of digits, else none. */
  function GetLeaderEpoch(env: Environment): (r: Option<nat>)
    ensures r.Some? <==> "LEADER_EPOCH" in env && |env["LEADER_EPOCH"]| > 0 && AllDigits(env["LEADER_EPOCH"])
  {
    match Getenv(env, "LEADER_EPOCH")
    case None => None
    case Some(v) => ParseDecimal(v)
  }

  /** An epoch written into `LEADER_EPOCH` as decimal text is reported back unchanged. */
  lemma GetLeaderEpochReadsDecimal(env: Environment, n: nat)
    ensures GetLeaderEpoch(env["LEADER_EPOCH" := DecimalText(n)]) == Some(n)
  {
    DecimalRoundTrip(n);
  }

  /** The body of `GET /role`. */
  datatype RoleBody = RoleBody(
    nodeId: string,
    role: string,
    leaderEpoch: Option<nat>,
    leaderId: Option<string>)

  /** The body of a 409 rejection. */
  datatype NotLeaderBody = NotLeaderBody(
    error: string,
    leaderId: Option<string>,
    leaderUrl: Option<string>,
    leaderEpoch: Option<nat>,
    nodeId: string,
    role: string)

  /** An HTTP answer: a status and, for a rejection, its body. */
  datatype Response = Response(status: nat, body: Option<NotLeaderBody>)

  const NotLeaderError: string := "NOT_LEADER"

  /** The `GET /role` handler. */
  function RoleHandler(env: Environment): RoleBody {
    RoleBody(NodeId(env), GetRole(env), GetLeaderEpoch(env), Getenv(env, "LEADER_ID"))
  }

  /** `not_leader_payload`. */
  function NotLeaderPayload(env: Environment): NotLeaderBody {
    NotLeaderBody(
      NotLeaderError,
      Getenv(env, "LEADER_ID"),
      Getenv(env, "LEADER_URL"),
      GetLeaderEpoch(env),
      NodeId(env),
      GetRole(env))
  }

  /** The rejection says NOT_LEADER and reports the same node, role, epoch and leader as `/role`. */
  lemma NotLeaderAgreesWithRole(env: Environment)
    ensures var p := NotLeaderPayload(env); var v := RoleHandler(env);
      && p.error == NotLeaderError
      && p.nodeId == v.nodeId && p.role == v.role
      && p.leaderEpoch == v.leaderEpoch && p.leaderId == v.leaderId
      && p.leaderUrl == Getenv(env, "LEADER_URL")
  {
  }

  /** `ensure_leader_or_409`: no response on a leader, a 409 NOT_LEADER answer otherwise. */
  function EnsureLeaderOr409(env: Environment): (r: Option<Response>)
    ensures r.None? <==> GetRole(env) == LeaderRole
    ensures r.Some? ==> r.value.status == 409 && r.value.body == Some(NotLeaderPayload(env))
  {
    if GetRole(env) != LeaderRole then Some(Response(409, Some(NotLeaderPayload(env)))) else None
  }

  /** `POST /v1/leases`: 204 on a leader, the gate's 409 otherwise. */
  function PostLeases(env: Environment): (r: Response)
    ensures r.status == 204 <==> GetRole(env) == LeaderRole
    ensures r.status == 204 ==> r.body == None
    ensures r.status != 204 ==> r.status == 409 && r.body == Some(NotLeaderPayload(env))
  {
    match EnsureLeaderOr409(env)
    case Some(rejection) => rejection
    case None => Response(204, None)
  }

  /** On a replica whose `ROLE` is unset the write is refused, naming the replica as STANDBY. */
  lemma UnsetRoleRejects(env: Environment)
    requires "ROLE" !in env
    ensures PostLeases(env).status == 409
    ensures PostLeases(env).body.value.error == NotLeaderError
    ensures PostLeases(env).body.value.role == StandbyRole
  {
    GetRoleIsLeader(env);
  }

  /** A role other than the two passes through: `draining` reads as `DRAINING`, and writes are refused naming it. */
  lemma DrainingRolePassesThrough(env: Environment)
    ensures GetRole(env["ROLE" := "draining"]) == "DRAINING"
    ensures GetRole(env["ROLE" := "draining"]) != LeaderRole && GetRole(env["ROLE" := "draining"]) != StandbyRole
    ensures EnsureLeaderOr409(env["ROLE" := "draining"]) == Some(Response(409, Some(NotLeaderPayload(env["ROLE" := "draining"]))))
    ensures NotLeaderPayload(env["ROLE" := "draining"]).role == "DRAINING"
  {
    var e := env["ROLE" := "draining"];
    assert Upper("draining") == "DRAINING" by {
      assert forall i :: 0 <= i < 8 ==> Upper("draining")[i] == UpperChar("draining"[i]);
    }
    assert GetRole(e)[0] == 'D';
  }
}
