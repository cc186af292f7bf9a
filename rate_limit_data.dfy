/** The shape of the rate-limit response (`ResourceData`, `RateLimitResponse`). */
module RateLimitData {

  /** One resource's rate-limit window. The fields are taken as the server sends them:
      nothing forces `remaining == limit - used`, and `reset` is a Unix time in seconds. */
  datatype Quota = Quota(limit: int, used: int, remaining: int, reset: int)

  /** The whole response: the primary `rate` quota and the per-resource quotas, in the
      order the response lists them. */
  datatype Snapshot = Snapshot(rate: Quota, resources: seq<(string, Quota)>)
}
