/** The exchange-info cache of src/binance/client.js (`getExchangeInfo`): a payload cache beside a map of
    requests in flight, with forced refreshes that bypass both. Steps are atomic between awaits. */
module ExchangeInfoCache {
  import opened Coalescing

  datatype Payload = Payload(source: nat, at: int)

  datatype State = State(
    cache: map<string, Payload>, inFlight: map<string, nat>,
    live: map<nat, Request>, responses: map<nat, Response>, next: nat)

  datatype Outcome = Hit(source: nat) | Joined(request: nat) | Started(request: nat)

  function Answer(st: State, key: string, force: bool, cacheMs: int, now: int): Outcome {
    if !force && key in st.cache && now - st.cache[key].at <= Ttl(cacheMs) then Hit(st.cache[key].source)
    else if !force && key in st.inFlight then Joined(st.inFlight[key])
    else Started(st.next)
  }

  function Called(st: State, key: string, force: bool, cacheMs: int, now: int): State {
    if Answer(st, key, force, cacheMs, now).Started? then
      st.(inFlight := st.inFlight[key := st.next],
          live := st.live[st.next := Request(key, Running)],
          next := st.next + 1)
    else st
  }

  function Succeeded(st: State, r: nat, now: int): State
    requires IsRunning(st.live, r)
  {
    var key := st.live[r].key;
    st.(cache := st.cache[key := Payload(r, now)],
        live := st.live[r := Request(key, Stored)],
        responses := st.responses[r := Response(key, now)])
  }

  function Rejected(st: State, r: nat): State
    requires IsRunning(st.live, r)
  {
    st.(live := st.live[r := Request(st.live[r].key, Failed)])
  }

  function CleanedUp(st: State, r: nat): State
    requires IsSettled(st.live, r)
  {
    var key := st.live[r].key;
    st.(inFlight := if key in st.inFlight && st.inFlight[key] == r then st.inFlight - {key} else st.inFlight,
        live := st.live - {r})
  }

  class Cache {
    var payloads: map<string, Payload>
    var inFlight: map<string, nat>
    var next: nat
    ghost var live: map<nat, Request>
    ghost var responses: map<nat, Response>

    constructor ()
      ensures View() == EMPTY
    {
      payloads, inFlight, live, responses, next := map[], map[], map[], map[], 0;
    }

    ghost function View(): State
      reads this
    {
      State(payloads, inFlight, live, responses, next)
    }

    method Call(key: string, force: bool, cacheMs: int, now: int) returns (outcome: Outcome)
      modifies this
      ensures outcome == Answer(old(View()), key, force, cacheMs, now)
      ensures View() == Called(old(View()), key, force, cacheMs, now)
    {
      if !force && key in payloads && now - payloads[key].at <= Ttl(cacheMs) {
        return Hit(payloads[key].source);
      }
      if !force && key in inFlight {
        return Joined(inFlight[key]);
      }
      outcome := Started(next);
      inFlight := inFlight[key := next];
      live := live[next := Request(key, Running)];
      next := next + 1;
    }

    method OnSuccess(key: string, r: nat, now: int)
      requires IsRunning(live, r) && live[r].key == key
      modifies this
      ensures View() == Succeeded(old(View()), r, now)
    {
      payloads := payloads[key := Payload(r, now)];
      live := live[r := Request(key, Stored)];
      responses := responses[r := Response(key, now)];
    }

    ghost method OnFailure(r: nat)
      requires IsRunning(live, r)
      modifies this
      ensures View() == Rejected(old(View()), r)
    {
      live := live[r := Request(live[r].key, Failed)];
    }

    method Finally(key: string, r: nat)
      requires IsSettled(live, r) && live[r].key == key
      modifies this
      ensures View() == CleanedUp(old(View()), r)
    {
      if key in inFlight && inFlight[key] == r {
        inFlight := inFlight - {key};
      }
      live := live - {r};
    }
  }

  // ---------------------------------------------------------------------------------------------
  // The invariant
  // ---------------------------------------------------------------------------------------------

  ghost predicate Inv(st: State) {
    && (forall r :: r in st.live || r in st.responses ==> r < st.next)
    && (forall r :: IsRunning(st.live, r) ==> r !in st.responses)
    && (forall k :: k in st.inFlight ==> st.inFlight[k] in st.live && st.live[st.inFlight[k]].key == k)
    && (forall k :: k in st.cache ==>
          st.cache[k].source in st.responses && st.responses[st.cache[k].source] == Response(k, st.cache[k].at))
  }

  datatype Step =
    | DoCall(key: string, force: bool, cacheMs: int, now: int)
    | DoSucceed(request: nat, now: int)
    | DoReject(request: nat)
    | DoCleanUp(request: nat)

  predicate Enabled(st: State, s: Step) {
    match s
    case DoCall(_, _, _, _) => true
    case DoSucceed(r, _) => IsRunning(st.live, r)
    case DoReject(r) => IsRunning(st.live, r)
    case DoCleanUp(r) => IsSettled(st.live, r)
  }

  function Next(st: State, s: Step): State {
    if !Enabled(st, s) then st
    else match s
    case DoCall(key, force, cacheMs, now) => Called(st, key, force, cacheMs, now)
    case DoSucceed(r, now) => Succeeded(st, r, now)
    case DoReject(r) => Rejected(st, r)
    case DoCleanUp(r) => CleanedUp(st, r)
  }

  function Run(st: State, steps: seq<Step>): State
    decreases steps
  {
    if steps == [] then st else Run(Next(st, steps[0]), steps[1..])
  }

  const EMPTY := State(map[], map[], map[], map[], 0)

  lemma CallKeepsInv(st: State, key: string, force: bool, cacheMs: int, now: int)
    requires Inv(st)
    ensures Inv(Called(st, key, force, cacheMs, now))
  {
    var st' := Called(st, key, force, cacheMs, now);
    forall r | IsRunning(st'.live, r)
      ensures r !in st'.responses
    {
      assert r != st.next ==> IsRunning(st.live, r);
    }
  }

  lemma SettleKeepsInv(st: State, r: nat, now: int)
    requires Inv(st) && IsRunning(st.live, r)
    ensures Inv(Succeeded(st, r, now)) && Inv(Rejected(st, r))
  {
    forall q, st' | (st' == Succeeded(st, r, now) || st' == Rejected(st, r)) && IsRunning(st'.live, q)
      ensures q !in st'.responses
    {
      assert IsRunning(st.live, q);
    }
  }

  lemma CleanUpKeepsInv(st: State, r: nat)
    requires Inv(st) && IsSettled(st.live, r)
    ensures Inv(CleanedUp(st, r))
  {
    var st' := CleanedUp(st, r);
    forall q | IsRunning(st'.live, q)
      ensures q !in st'.responses
    {
      assert IsRunning(st.live, q);
    }
  }

  /** The invariant holds after any interleaving, forced refreshes and failures included. */
  lemma {:induction false} RunKeepsInv(st: State, steps: seq<Step>)
    requires Inv(st)
    ensures Inv(Run(st, steps))
    decreases steps
  {
    if steps != [] {
      hide Inv, Called, Succeeded, Rejected, CleanedUp;
      if Enabled(st, steps[0]) {
        match steps[0]
        case DoCall(key, force, cacheMs, now) => CallKeepsInv(st, key, force, cacheMs, now);
        case DoSucceed(r, now) => SettleKeepsInv(st, r, now);
        case DoReject(r) => SettleKeepsInv(st, r, 0);
        case DoCleanUp(r) => CleanUpKeepsInv(st, r);
      }
      RunKeepsInv(Next(st, steps[0]), steps[1..]);
    }
  }

  /** Every in-flight entry belongs to a request for its key that is not yet cleaned up; in particular
      none remains once all requests are. */
  lemma InFlightIsLive(steps: seq<Step>, key: string)
    requires key in Run(EMPTY, steps).inFlight
    ensures var st := Run(EMPTY, steps); st.inFlight[key] in st.live && st.live[st.inFlight[key]].key == key
    ensures Run(EMPTY, steps).live != map[]
  {
    hide Run;
    RunKeepsInv(EMPTY, steps);
  }

  lemma ServedIsFresh(steps: seq<Step>, key: string, force: bool, cacheMs: int, now: int)
    ensures var st := Run(EMPTY, steps);
            match Answer(st, key, force, cacheMs, now)
            case Hit(source) =>
              source in st.responses && st.responses[source].key == key && now - st.responses[source].at <= Ttl(cacheMs)
            case Joined(r) => r in st.live && st.live[r].key == key
            case Started(_) => true
  {
    hide Run;
    RunKeepsInv(EMPTY, steps);
  }

  /** A request for the key that is not yet cleaned up or, when only running ones count, not yet answered. */
  ghost predicate LiveFor(st: State, key: string, r: nat, running: bool) {
    r in st.live && st.live[r].key == key && (running ==> IsRunning(st.live, r))
  }

  ghost predicate AnyLive(st: State, key: string, running: bool) { exists r :: LiveFor(st, key, r, running) }

  ghost predicate Doubled(st: State, key: string, running: bool) {
    exists r, q :: r != q && LiveFor(st, key, r, running) && LiveFor(st, key, q, running)
  }

  /** A forced refresh leaves a key with two live (or running) requests exactly when one was already live
      (or running). */
  lemma ForcedCallDoublesIff(steps: seq<Step>, key: string, cacheMs: int, now: int, running: bool)
    ensures var st := Run(EMPTY, steps);
            Doubled(Called(st, key, true, cacheMs, now), key, running) <==> AnyLive(st, key, running)
  {
    hide Run;
    RunKeepsInv(EMPTY, steps);
    var st := Run(EMPTY, steps);
    var after := Called(st, key, true, cacheMs, now);
    assert LiveFor(after, key, st.next, running);
    if r: nat :| LiveFor(st, key, r, running) {
      assert r != st.next && LiveFor(after, key, r, running);
    }
    if r: nat, q: nat :| r != q && LiveFor(after, key, r, running) && LiveFor(after, key, q, running) {
      assert LiveFor(st, key, if r == st.next then q else r, running);
    }
  }

  // ---------------------------------------------------------------------------------------------
  // Single flight over runs
  // ---------------------------------------------------------------------------------------------

  ghost predicate DoubledAfter(steps: seq<Step>, i: nat, key: string, running: bool)
    requires i <= |steps|
  {
    Doubled(Run(EMPTY, steps[..i]), key, running)
  }

  /** Step `i` forces a refresh of a key that has a live (or running) request. */
  ghost predicate ForcesLive(steps: seq<Step>, i: nat, key: string, running: bool)
    requires i < |steps|
  {
    steps[i].DoCall? && steps[i].force && steps[i].key == key && AnyLive(Run(EMPTY, steps[..i]), key, running)
  }

  /** Every live (or running) request for the key is the registered one. */
  ghost predicate Registered(st: State, key: string, running: bool) {
    forall r :: LiveFor(st, key, r, running) ==> key in st.inFlight && st.inFlight[key] == r
  }

  lemma {:induction false} RunMore(st: State, steps: seq<Step>, s: Step)
    ensures Run(st, steps + [s]) == Next(Run(st, steps), s)
    decreases steps
  {
    hide Next;
    if steps == [] {
      assert ([] + [s])[1..] == [];
    } else {
      assert (steps + [s])[1..] == steps[1..] + [s];
      RunMore(Next(st, steps[0]), steps[1..], s);
    }
  }

  lemma StepKeepsRegistered(st: State, s: Step, key: string, running: bool)
    requires Inv(st) && Registered(st, key, running)
    requires s.DoCall? && s.force && s.key == key ==> !AnyLive(st, key, running)
    ensures Registered(Next(st, s), key, running)
  {
    forall r | LiveFor(Next(st, s), key, r, running)
      ensures key in Next(st, s).inFlight && Next(st, s).inFlight[key] == r
    {
      assert r in st.live ==> LiveFor(st, st.live[r].key, r, running);
    }
  }

  lemma {:induction false} RegisteredUnlessForced(steps: seq<Step>, key: string, running: bool)
    requires forall i :: 0 <= i < |steps| ==> !ForcesLive(steps, i, key, running)
    ensures Registered(Run(EMPTY, steps), key, running)
  {
    hide Run, Inv, Next, Registered;
    if steps == [] {
      NothingLive(key, running);
    } else {
      var n := |steps| - 1;
      assert steps == steps[..n] + [steps[n]];
      forall i | 0 <= i < n
        ensures !ForcesLive(steps[..n], i, key, running)
      {
        assert !ForcesLive(steps, i, key, running) && steps[..n][..i] == steps[..i];
      }
      assert !ForcesLive(steps, n, key, running);
      RegisteredUnlessForced(steps[..n], key, running);
      RunKeepsEmptyInv(steps[..n]);
      RunMore(EMPTY, steps[..n], steps[n]);
      StepKeepsRegistered(Run(EMPTY, steps[..n]), steps[n], key, running);
    }
  }

  lemma NothingLive(key: string, running: bool)
    ensures Registered(Run(EMPTY, []), key, running)
  {
  }

  lemma RunKeepsEmptyInv(steps: seq<Step>)
    ensures Inv(Run(EMPTY, steps))
  {
    hide Run;
    RunKeepsInv(EMPTY, steps);
  }

  /** Single flight holds for a key until a refresh is forced while one of its requests is live: until then
      at most one is live. Likewise for running requests. */
  lemma OneLivePerKey(steps: seq<Step>, key: string, r: nat, q: nat, running: bool)
    requires forall i :: 0 <= i < |steps| ==> !ForcesLive(steps, i, key, running)
    requires LiveFor(Run(EMPTY, steps), key, r, running) && LiveFor(Run(EMPTY, steps), key, q, running)
    ensures r == q
  {
    hide Run;
    RegisteredUnlessForced(steps, key, running);
  }

  /** Over every run: at some point a key has two live requests exactly when at some step its refresh was
      forced while one was live; and two running ones exactly when it was forced while one was running. */
  lemma SingleFlightBreaksIff(steps: seq<Step>, key: string, running: bool)
    ensures (exists i :: 0 <= i <= |steps| && DoubledAfter(steps, i, key, running)) <==>
            exists i :: 0 <= i < |steps| && ForcesLive(steps, i, key, running)
  {
    hide Run, Inv;
    if i :| 0 <= i < |steps| && ForcesLive(steps, i, key, running) {
      var s := steps[i];
      ForcedCallDoublesIff(steps[..i], key, s.cacheMs, s.now, running);
      RunMore(EMPTY, steps[..i], s);
      assert steps[..i + 1] == steps[..i] + [s];
      assert DoubledAfter(steps, i + 1, key, running);
    }
    if i :| 0 <= i <= |steps| && DoubledAfter(steps, i, key, running) {
      FirstForce(steps, i, key, running);
    }
  }

  lemma FirstForce(steps: seq<Step>, i: nat, key: string, running: bool)
    requires i <= |steps| && DoubledAfter(steps, i, key, running)
    ensures exists k :: 0 <= k < |steps| && ForcesLive(steps, k, key, running)
  {
    hide Run, Inv;
    var front := steps[..i];
    var st := Run(EMPTY, front);
    var r, q :| r != q && LiveFor(st, key, r, running) && LiveFor(st, key, q, running);
    if forall k :: 0 <= k < |front| ==> !ForcesLive(front, k, key, running) {
      OneLivePerKey(front, key, r, q, running);
      assert false;
    }
    var k :| 0 <= k < |front| && ForcesLive(front, k, key, running);
    assert front[..k] == steps[..k];
    assert ForcesLive(steps, k, key, running);
  }

  /** A forced refresh breaks single flight even for later callers: its clean-up empties the in-flight map while the
      first request still runs, so an ordinary call starts a second ordinary request. */
  lemma ForcedRefreshBreaksSingleFlight() returns (steps: seq<Step>)
    ensures var st := Run(EMPTY, steps);
            IsRunning(st.live, 0) && IsRunning(st.live, 2) && st.live[0].key == st.live[2].key
    ensures |steps| == 5 && steps[0] == steps[4] == DoCall("__all__", false, 1000, 0)
  {
    var ordinary := DoCall("__all__", false, 1000, 0);
    steps := [ordinary, DoCall("__all__", true, 1000, 0), DoReject(1), DoCleanUp(1), ordinary];
    var s1 := Next(EMPTY, steps[0]);
    var s2 := Next(s1, steps[1]);
    var s3 := Next(s2, steps[2]);
    var s4 := Next(s3, steps[3]);
    var s5 := Next(s4, steps[4]);
    assert s4.inFlight == map[] && s4.live == map[0 := Request("__all__", Running)];
    var t1, t2, t3, t4 := steps[1..], steps[2..], steps[3..], steps[4..];
    assert t1[1..] == t2 && t2[1..] == t3 && t3[1..] == t4 && t4[1..] == [];
    assert Run(s4, t4) == s5;
    assert Run(s3, t3) == s5;
    assert Run(s2, t2) == s5;
    assert Run(s1, t1) == s5;
  }

  // ---------------------------------------------------------------------------------------------
  // Which response is served
  // ---------------------------------------------------------------------------------------------

  /** The requests for a key that succeeded, in the order in which they did. */
  ghost function Successes(steps: seq<Step>, key: string): seq<nat> {
    if steps == [] then []
    else
      var n := |steps| - 1;
      Successes(steps[..n], key)
      + (if steps[n].DoSucceed? && IsRunning(Run(EMPTY, steps[..n]).live, steps[n].request)
            && Run(EMPTY, steps[..n]).live[steps[n].request].key == key
         then [steps[n].request] else [])
  }

  /** The cached payload is that of the last success, whichever request was started last. */
  lemma {:induction false} CacheHoldsLastSuccess(steps: seq<Step>, key: string)
    ensures var st, done := Run(EMPTY, steps), Successes(steps, key);
            && (key in st.cache <==> done != [])
            && (done != [] ==> st.cache[key].source == done[|done| - 1])
  {
    hide Run;
    if steps == [] {
      NothingCached(key);
    } else {
      var n := |steps| - 1;
      assert steps == steps[..n] + [steps[n]];
      CacheHoldsLastSuccess(steps[..n], key);
      RunMore(EMPTY, steps[..n], steps[n]);
    }
  }

  lemma NothingCached(key: string)
    ensures key !in Run(EMPTY, []).cache
  {
  }

  /** After `more` steps request `f` has been answered, and yet the payload of an older one is cached. */
  ghost predicate ServesOlder(st: State, more: seq<Step>, key: string, f: nat) {
    var end := Run(st, more);
    f in end.responses && key in end.cache && end.cache[key].source < f
  }

  /** No request for the key that is older than `f` runs any more, nor is its payload served once `f` is answered. */
  ghost predicate Newest(st: State, key: string, f: nat) {
    && f < st.next
    && (f in st.live ==> st.live[f].key == key)
    && (forall r: nat :: LiveFor(st, key, r, true) ==> r >= f)
    && (f in st.responses ==> key in st.cache && st.cache[key].source >= f)
  }

  lemma StepKeepsNewest(st: State, s: Step, key: string, f: nat)
    requires Newest(st, key, f)
    ensures Newest(Next(st, s), key, f)
  {
    assert s.DoSucceed? && Enabled(st, s) ==> LiveFor(st, st.live[s.request].key, s.request, true);
    forall r: nat | LiveFor(Next(st, s), key, r, true)
      ensures r >= f
    {
      assert r in st.live ==> LiveFor(st, st.live[r].key, r, IsRunning(st.live, r));
    }
  }

  lemma {:induction false} NewestForEver(st: State, more: seq<Step>, key: string, f: nat)
    requires Newest(st, key, f)
    ensures !ServesOlder(st, more, key, f)
    decreases more
  {
    hide Next;
    if more != [] {
      hide Newest;
      StepKeepsNewest(st, more[0], key, f);
      NewestForEver(Next(st, more[0]), more[1..], key, f);
    }
  }

  /** A refresh of `key` is forced in any reachable state, as request `f`. It can happen that `f` is answered
      and later callers are still served the payload of an older request exactly when a request for the key
      is running at the moment of the call. */
  lemma OlderIsServedIff(st: State, key: string, cacheMs: int, now: int)
    requires Inv(st)
    ensures (exists more :: ServesOlder(Called(st, key, true, cacheMs, now), more, key, st.next))
            <==> AnyLive(st, key, true)
  {
    var after := Called(st, key, true, cacheMs, now);
    if r: nat :| LiveFor(st, key, r, true) {
      OlderAnswersLast(st, key, cacheMs, now, r);
    } else {
      FreshRefresh(st, key, cacheMs, now);
      forall more
        ensures !ServesOlder(after, more, key, st.next)
      {
        NewestForEver(after, more, key, st.next);
      }
    }
  }

  lemma FreshRefresh(st: State, key: string, cacheMs: int, now: int)
    requires Inv(st) && !AnyLive(st, key, true)
    ensures Newest(Called(st, key, true, cacheMs, now), key, st.next)
  {
    var after := Called(st, key, true, cacheMs, now);
    forall r: nat | LiveFor(after, key, r, true)
      ensures r >= st.next
    {
      assert r != st.next ==> LiveFor(st, key, r, true);
    }
  }

  /** The refresh is answered first, the older request second. */
  lemma OlderAnswersLast(st: State, key: string, cacheMs: int, now: int, r: nat)
    requires Inv(st) && LiveFor(st, key, r, true)
    ensures ServesOlder(Called(st, key, true, cacheMs, now), [DoSucceed(st.next, 0), DoSucceed(r, 0)], key, st.next)
  {
    var after := Called(st, key, true, cacheMs, now);
    var first, second := DoSucceed(st.next, 0), DoSucceed(r, 0);
    assert r < st.next && IsRunning(after.live, r) && IsRunning(after.live, st.next);
    var end := Next(Next(after, first), second);
    assert st.next in end.responses && end.cache[key].source == r;
    hide Next;
    assert [first, second][1..] == [second] && [second][1..] == [];
    assert Run(Next(after, first), [second]) == end;
  }

  lemma SuccessesMore(steps: seq<Step>, s: Step, key: string)
    ensures Successes(steps + [s], key)
            == Successes(steps, key)
               + (if s.DoSucceed? && IsRunning(Run(EMPTY, steps).live, s.request)
                      && Run(EMPTY, steps).live[s.request].key == key
                  then [s.request] else [])
    ensures Successes([], key) == []
  {
    hide Run;
    assert (steps + [s])[..|steps|] == steps;
  }

  lemma FourSteps(a: Step, b: Step, c: Step, d: Step)
    ensures Run(EMPTY, []) == EMPTY && Run(EMPTY, [a]) == Next(EMPTY, a)
    ensures Run(EMPTY, [a, b]) == Next(Next(EMPTY, a), b)
    ensures Run(EMPTY, [a, b, c]) == Next(Next(Next(EMPTY, a), b), c)
    ensures Run(EMPTY, [a, b, c, d]) == Next(Next(Next(Next(EMPTY, a), b), c), d)
  {
    hide Next;
    RunMore(EMPTY, [], a);
    RunMore(EMPTY, [a], b);
    RunMore(EMPTY, [a, b], c);
    RunMore(EMPTY, [a, b, c], d);
    assert [] + [a] == [a] && [a] + [b] == [a, b] && [a, b] + [c] == [a, b, c] && [a, b, c] + [d] == [a, b, c, d];
  }

  const ALL := "__all__"
  const ORDINARY := DoCall(ALL, false, 1000, 0)
  const FORCED := DoCall(ALL, true, 1000, 0)

  lemma OverwrittenStates()
    ensures var s2 := Next(Next(EMPTY, ORDINARY), FORCED);
            var s3 := Next(s2, DoSucceed(1, 10));
            && s2.live == map[0 := Request(ALL, Running), 1 := Request(ALL, Running)]
            && s3.live == map[0 := Request(ALL, Running), 1 := Request(ALL, Stored)]
            && Next(s3, DoSucceed(0, 20)).cache == map[ALL := Payload(0, 20)]
  {
  }

  /** A forced refresh that is answered first is overwritten by the older request that is answered second. */
  lemma OlderAnswerOverwrites() returns (steps: seq<Step>)
    ensures |steps| == 4 && steps[1] == FORCED && Answer(Run(EMPTY, steps[..1]), ALL, true, 1000, 0) == Started(1)
    ensures Successes(steps, ALL) == [1, 0]
    ensures Answer(Run(EMPTY, steps), ALL, false, 1000, 20) == Hit(0)
  {
    hide Next, Run, Successes, Answer;
    var c, d := DoSucceed(1, 10), DoSucceed(0, 20);
    steps := [ORDINARY, FORCED, c, d];
    FourSteps(ORDINARY, FORCED, c, d);
    OverwrittenStates();
    assert steps[..1] == [ORDINARY] && steps[..2] == [ORDINARY, FORCED] && steps[..3] == [ORDINARY, FORCED, c];
    FirstAnswer();
    LastAnswer(Run(EMPTY, steps));
    assert [] + [ORDINARY] == [ORDINARY] && [ORDINARY] + [FORCED] == steps[..2] && steps[..2] + [c] == steps[..3];
    SuccessesMore([], ORDINARY, ALL);
    SuccessesMore([ORDINARY], FORCED, ALL);
    SuccessesMore(steps[..2], c, ALL);
    SuccessesMore(steps[..3], d, ALL);
    assert steps[..3] + [d] == steps;
  }

  lemma FirstAnswer()
    ensures Answer(Next(EMPTY, ORDINARY), ALL, true, 1000, 0) == Started(1)
  {
  }

  lemma LastAnswer(st: State)
    requires st.cache == map[ALL := Payload(0, 20)]
    ensures Answer(st, ALL, false, 1000, 20) == Hit(0)
  {
  }
}
