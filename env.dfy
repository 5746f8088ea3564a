/** The process environment, passed as a map instead of read ambiently. */
module Env {
  import opened Wrappers

  type Environment = map<string, string>

  const NodeIdDefault: string := "node-unknown"

  /** `os.getenv(key)`. */
  function Getenv(env: Environment, key: string): (r: Option<string>)
    ensures r.Some? <==> key in env
    ensures r.Some? ==> r.value == env[key]
  {
    if key in env then Some(env[key]) else None
  }

  /** `os.getenv(key, default)`. */
  function GetenvOr(env: Environment, key: string, default: string): (r: string)
    ensures key in env ==> r == env[key]
    ensures key !in env ==> r == default
  {
    Getenv(env, key).GetOr(default)
  }

  /** `os.getenv("NODE_ID", "node-unknown")`: `get_node_id`, and the elector's own id. */
  function NodeId(env: Environment): (id: string)
    ensures "NODE_ID" in env ==> id == env["NODE_ID"]
    ensures "NODE_ID" !in env ==> id == NodeIdDefault
  {
    GetenvOr(env, "NODE_ID", NodeIdDefault)
  }
}
