/** What the response helper reads from its JavaScript host: the wall clock and
    the JSON serialiser. Both are foreign to the core, so they are passed in. */
module Runtime {
  import opened Json

  /** One call's view of the host: `Date.now()` in milliseconds, the string
      `new Date().toISOString()` yields, and `JSON.stringify`, which may throw
      (`None`). */
  datatype Host = Host(nowMs: int, isoNow: string, stringify: Envelope -> Option<string>)

  /** `Math.floor(ms / 1000)`: the whole number of seconds since the epoch. */
  function UnixSeconds(ms: int): (s: int)
    ensures s * 1000 <= ms < s * 1000 + 1000
  {
    ms / 1000
  }
}
