/** The coalescing cache for public futures requests in `requestToBase` of src/binance/client.js, as a
    protocol of steps that are atomic between awaits: a call, the `then` handler of a request, its
    rejection, and its `finally` handler. */
module FuturesCache {
  import opened Coalescing

  /** A payload is named by the request that fetched it. */
  datatype Entry = Cached(source: nat, at: int) | InFlight(request: nat)

  /** `entries` is the source's map; `live` holds the requests that are not cleaned up, `responses` what
      was received and when, and `next` an unused request number. */
  datatype State = State(
    entries: map<string, Entry>, live: map<nat, Request>, responses: map<nat, Response>, next: nat)

  datatype Outcome = Hit(source: nat) | Joined(request: nat) | Started(request: nat)

  function Answer(st: State, key: string, cacheMs: int, now: int): Outcome {
    if key in st.entries && st.entries[key].Cached? && now - st.entries[key].at <= Ttl(cacheMs) then
      Hit(st.entries[key].source)
    else if key in st.entries && st.entries[key].InFlight? then Joined(st.entries[key].request)
    else Started(st.next)
  }

  function Called(st: State, key: string, cacheMs: int, now: int): State {
    if Answer(st, key, cacheMs, now).Started? then
      st.(entries := st.entries[key := InFlight(st.next)],
          live := st.live[st.next := Request(key, Running)],
          next := st.next + 1)
    else st
  }

  function Succeeded(st: State, r: nat, now: int): State
    requires IsRunning(st.live, r)
  {
    var key := st.live[r].key;
    st.(entries := st.entries[key := Cached(r, now)],
        live := st.live[r := Request(key, Stored)],
        responses := st.responses[r := Response(key, now)])
  }

  function Rejected(st: State, r: nat): State
    requires IsRunning(st.live, r)
  {
    st.(live := st.live[r := Request(st.live[r].key, Failed)])
  }

  function CleanedUp(st: State, r: nat): State
    requires IsSettled(st.live, r)
  {
    var key := st.live[r].key;
    st.(entries := if key in st.entries && st.entries[key] == InFlight(r) then st.entries - {key} else st.entries,
        live := st.live - {r})
  }

  class Cache {
    var entries: map<string, Entry>
    var next: nat
    ghost var live: map<nat, Request>
    ghost var responses: map<nat, Response>

    constructor ()
      ensures View() == State(map[], map[], map[], 0)
    {
      entries, live, responses, next := map[], map[], map[], 0;
    }

    ghost function View(): State
      reads this
    {
      State(entries, live, responses, next)
    }

    method Call(key: string, cacheMs: int, now: int) returns (outcome: Outcome)
      modifies this
      ensures outcome == Answer(old(View()), key, cacheMs, now)
      ensures View() == Called(old(View()), key, cacheMs, now)
    {
      if key in entries {
        var cached := entries[key];
        if cached.Cached? && now - cached.at <= Ttl(cacheMs) {
          return Hit(cached.source);
        }
        if cached.InFlight? {
          return Joined(cached.request);
        }
      }
      outcome := Started(next);
      entries := entries[key := InFlight(next)];
      live := live[next := Request(key, Running)];
      next := next + 1;
    }

    method OnSuccess(key: string, r: nat, now: int)
      requires IsRunning(live, r) && live[r].key == key
      modifies this
      ensures View() == Succeeded(old(View()), r, now)
    {
      entries := entries[key := Cached(r, now)];
      live := live[r := Request(key, Stored)];
      responses := responses[r := Response(key, now)];
    }

    ghost method OnFailure(r: nat)
      requires IsRunning(live, r)
      modifies this
      ensures View() == Rejected(old(View()), r)
    {
      live := live[r := Request(live[r].key, Failed)];
    }

    method Finally(key: string, r: nat)
      requires IsSettled(live, r) && live[r].key == key
      modifies this
      ensures View() == CleanedUp(old(View()), r)
    {
      if key in entries && entries[key] == InFlight(r) {
        entries := entries - {key};
      }
      live := live - {r};
    }
  }

  // ---------------------------------------------------------------------------------------------
  // The invariant
  // ---------------------------------------------------------------------------------------------

  /** A request that has not delivered: it runs, or it failed and still awaits its clean-up. */
  predicate Outstanding(st: State, r: nat) { r in st.live && !st.live[r].phase.Stored? }

  ghost predicate Inv(st: State) {
    && (forall r :: r in st.live || r in st.responses ==> r < st.next)
    && (forall r :: IsRunning(st.live, r) ==> r !in st.responses)
    && (forall k :: k in st.entries && st.entries[k].InFlight? ==>
          Outstanding(st, st.entries[k].request) && st.live[st.entries[k].request].key == k)
    && (forall r :: Outstanding(st, r) ==>
          st.live[r].key in st.entries && st.entries[st.live[r].key] == InFlight(r))
    && (forall k :: k in st.entries && st.entries[k].Cached? ==>
          st.entries[k].source in st.responses
          && st.responses[st.entries[k].source] == Response(k, st.entries[k].at))
  }

  datatype Step =
    | DoCall(key: string, cacheMs: int, now: int)
    | DoSucceed(request: nat, now: int)
    | DoReject(request: nat)
    | DoCleanUp(request: nat)

  predicate Enabled(st: State, s: Step) {
    match s
    case DoCall(_, _, _) => true
    case DoSucceed(r, _) => IsRunning(st.live, r)
    case DoReject(r) => IsRunning(st.live, r)
    case DoCleanUp(r) => IsSettled(st.live, r)
  }

  /** A step that is not enabled does not happen. */
  function Next(st: State, s: Step): State {
    if !Enabled(st, s) then st
    else match s
    case DoCall(key, cacheMs, now) => Called(st, key, cacheMs, now)
    case DoSucceed(r, now) => Succeeded(st, r, now)
    case DoReject(r) => Rejected(st, r)
    case DoCleanUp(r) => CleanedUp(st, r)
  }

  function Run(st: State, steps: seq<Step>): State
    decreases steps
  {
    if steps == [] then st else Run(Next(st, steps[0]), steps[1..])
  }

  const EMPTY := State(map[], map[], map[], 0)

  lemma CallKeepsInv(st: State, key: string, cacheMs: int, now: int)
    requires Inv(st)
    ensures Inv(Called(st, key, cacheMs, now))
  {
    var st' := Called(st, key, cacheMs, now);
    if Answer(st, key, cacheMs, now).Started? {
      forall r | Outstanding(st', r)
        ensures st'.live[r].key in st'.entries && st'.entries[st'.live[r].key] == InFlight(r)
      {
        if r != st.next {
          assert Outstanding(st, r);
        }
      }
    }
  }

  lemma SucceedKeepsInv(st: State, r: nat, now: int)
    requires Inv(st) && IsRunning(st.live, r)
    ensures Inv(Succeeded(st, r, now))
  {
    assert Outstanding(st, r);
    var st' := Succeeded(st, r, now);
    forall q | Outstanding(st', q)
      ensures st'.live[q].key in st'.entries && st'.entries[st'.live[q].key] == InFlight(q)
    {
      assert q != r && Outstanding(st, q);
    }
    forall q | IsRunning(st'.live, q)
      ensures q !in st'.responses
    {
      assert IsRunning(st.live, q);
    }
  }

  lemma RejectKeepsInv(st: State, r: nat)
    requires Inv(st) && IsRunning(st.live, r)
    ensures Inv(Rejected(st, r))
  {
    assert Outstanding(st, r);
    var st' := Rejected(st, r);
    forall q | Outstanding(st', q)
      ensures st'.live[q].key in st'.entries && st'.entries[st'.live[q].key] == InFlight(q)
    {
      assert Outstanding(st, q);
    }
    forall q | IsRunning(st'.live, q)
      ensures q !in st'.responses
    {
      assert IsRunning(st.live, q);
    }
  }

  lemma CleanUpKeepsInv(st: State, r: nat)
    requires Inv(st) && IsSettled(st.live, r)
    ensures Inv(CleanedUp(st, r))
  {
    var st' := CleanedUp(st, r);
    forall q | Outstanding(st', q)
      ensures st'.live[q].key in st'.entries && st'.entries[st'.live[q].key] == InFlight(q)
    {
      assert q != r && Outstanding(st, q);
    }
    forall q | IsRunning(st'.live, q)
      ensures q !in st'.responses
    {
      assert IsRunning(st.live, q);
    }
  }

  /** Single flight over every interleaving: the invariant holds after any sequence of steps. */
  lemma {:induction false} RunKeepsInv(st: State, steps: seq<Step>)
    requires Inv(st)
    ensures Inv(Run(st, steps))
    decreases steps
  {
    if steps != [] {
      hide Inv, Called, Succeeded, Rejected, CleanedUp;
      if Enabled(st, steps[0]) {
        match steps[0]
        case DoCall(key, cacheMs, now) => CallKeepsInv(st, key, cacheMs, now);
        case DoSucceed(r, now) => SucceedKeepsInv(st, r, now);
        case DoReject(r) => RejectKeepsInv(st, r);
        case DoCleanUp(r) => CleanUpKeepsInv(st, r);
      }
      RunKeepsInv(Next(st, steps[0]), steps[1..]);
    }
  }

  /** At most one request per key is outstanding, in every reachable state. */
  lemma OneOutstandingPerKey(steps: seq<Step>, r: nat, q: nat)
    requires var st := Run(EMPTY, steps); Outstanding(st, r) && Outstanding(st, q) && st.live[r].key == st.live[q].key
    ensures r == q
  {
    hide Run;
    RunKeepsInv(EMPTY, steps);
  }

  /** A payload served from the cache was received for the same key, and no longer ago than the caller's
      time to live (never less than a second); a caller that joins joins an outstanding request. */
  lemma ServedIsFresh(steps: seq<Step>, key: string, cacheMs: int, now: int)
    ensures var st := Run(EMPTY, steps);
            match Answer(st, key, cacheMs, now)
            case Hit(source) =>
              source in st.responses && st.responses[source].key == key && now - st.responses[source].at <= Ttl(cacheMs)
            case Joined(r) => Outstanding(st, r) && st.live[r].key == key
            case Started(r) => forall q :: Outstanding(st, q) ==> st.live[q].key != key
  {
    hide Run;
    RunKeepsInv(EMPTY, steps);
  }

  /** When every request has been cleaned up, no in-flight entry remains. */
  lemma NothingInFlightWhenQuiet(steps: seq<Step>)
    requires Run(EMPTY, steps).live == map[]
    ensures forall k :: k in Run(EMPTY, steps).entries ==> Run(EMPTY, steps).entries[k].Cached?
  {
    hide Run;
    RunKeepsInv(EMPTY, steps);
  }
}
