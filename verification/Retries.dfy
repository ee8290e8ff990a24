/** What the retry loops of pkg/proxy/handler.go and pkg/proxy/listener.go share. */
module Retries {
  const MAX_RETRIES: nat := 3

  /** Statuses on which the gateway's WriteHeader panics; the sidecar writes any status. A backend can
      send those below 100: the transport asks a status line for three digits and no more. */
  predicate Unwritable(status: int) {
    status < 100 || status > 999
  }
}
