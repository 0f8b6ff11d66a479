/** The agent's configuration, read-only for the lifetime of the rig and the remote client. */
module Utils {
  /** The fields of the global config that the rig and the remote client read. */
  datatype Config = Config(accesskey: string, worker: string, client: string, apiBase: string)
}
