/** What both request caches of src/binance/client.js share: the time to live and the life of a request. */
module Coalescing {
  /** `Math.max(1_000, cacheMs)`. */
  function Ttl(cacheMs: int): int { if cacheMs < 1000 then 1000 else cacheMs }

  /** Stored and Failed requests are settled but not yet cleaned up. */
  datatype Phase = Running | Stored | Failed

  datatype Request = Request(key: string, phase: Phase)

  datatype Response = Response(key: string, at: int)

  predicate IsRunning(live: map<nat, Request>, r: nat) { r in live && live[r].phase.Running? }

  predicate IsSettled(live: map<nat, Request>, r: nat) { r in live && !live[r].phase.Running? }
}
