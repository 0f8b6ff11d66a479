/** The query parameters of MinerStatRemoteProtocol (minerstat/remote.py). */
module Remote {
  import opened Wrappers
  import opened Utils

  const TokenKey := "token"
  const WorkerKey := "worker"

  /** The caller's parameters as a map; a missing argument contributes no entries. */
  function Supplied(params: Option<map<string, string>>): (m: map<string, string>)
  {
    if params.Some? then params.value else map[]
  }

  /**
   * make_url_params: start from the token and worker entries taken from the
   * config, then overlay the caller's entries when there are any (a missing or
   * empty dict is falsy and leaves the defaults alone). Maps are values, so the
   * result is a new map and the caller's map is left as it was.
   */
  function MakeUrlParams(config: Config, params: Option<map<string, string>>): (r: map<string, string>)
    ensures r.Keys == {TokenKey, WorkerKey} + Supplied(params).Keys
    ensures forall k :: k in Supplied(params) ==> r[k] == Supplied(params)[k]
    ensures TokenKey !in Supplied(params) ==> r[TokenKey] == config.accesskey
    ensures WorkerKey !in Supplied(params) ==> r[WorkerKey] == config.worker
    ensures |Supplied(params)| == 0 ==> r == map[TokenKey := config.accesskey, WorkerKey := config.worker]
  {
    var newParams := map[TokenKey := config.accesskey, WorkerKey := config.worker];
    if params.Some? && |params.value| > 0 then newParams + params.value else newParams
  }

  /**
   * The parameters make_request hands to the HTTP client: the argument it was
   * given is overwritten by make_url_params() called without arguments, so
   * only the token and worker entries are ever sent.
   */
  function RequestParams(config: Config, params: Option<map<string, string>>): (r: map<string, string>)
    ensures r.Keys == {TokenKey, WorkerKey}
    ensures r[TokenKey] == config.accesskey && r[WorkerKey] == config.worker
    ensures r == MakeUrlParams(config, None)
  {
    MakeUrlParams(config, None)
  }
}
