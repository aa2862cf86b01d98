/** How long the two request caches serve a payload: the caller's time to live, but never less than a second. */
module CacheMeaning {
  import opened Coalescing
  import ExchangeInfoCache
  import FuturesCache

  /** Young enough for the caller. */
  ghost predicate Young(at: int, now: int, cacheMs: int) { now - at <= 1000 || now - at <= cacheMs }

  /** A cached payload is served exactly while it is young enough. Otherwise a request in flight is joined, and only
      when there is none a new one is made. */
  lemma FuturesAnswers(st: FuturesCache.State, key: string, cacheMs: int, now: int)
    ensures var answer := FuturesCache.Answer(st, key, cacheMs, now);
            if key !in st.entries then answer == FuturesCache.Started(st.next)
            else match st.entries[key]
                 case Cached(source, at) =>
                   answer == if Young(at, now, cacheMs) then FuturesCache.Hit(source) else FuturesCache.Started(st.next)
                 case InFlight(r) => answer == FuturesCache.Joined(r)
  {
  }

  /** Likewise here, where both can be there; and a forced call always makes a new request. */
  lemma ExchangeInfoAnswers(st: ExchangeInfoCache.State, key: string, force: bool, cacheMs: int, now: int)
    ensures var answer := ExchangeInfoCache.Answer(st, key, force, cacheMs, now);
            if force then answer == ExchangeInfoCache.Started(st.next)
            else if key in st.cache && Young(st.cache[key].at, now, cacheMs) then
              answer == ExchangeInfoCache.Hit(st.cache[key].source)
            else if key in st.inFlight then answer == ExchangeInfoCache.Joined(st.inFlight[key])
            else answer == ExchangeInfoCache.Started(st.next)
  {
  }

  /** Over every run of either cache, what is served answered a request for the caller's key, and is young enough. */
  lemma ServedIsYoung(futures: seq<FuturesCache.Step>, info: seq<ExchangeInfoCache.Step>, key: string, force: bool,
                      cacheMs: int, now: int)
    ensures var st := FuturesCache.Run(FuturesCache.EMPTY, futures);
            match FuturesCache.Answer(st, key, cacheMs, now)
            case Hit(source) =>
              source in st.responses && st.responses[source].key == key && Young(st.responses[source].at, now, cacheMs)
            case _ => true
    ensures var st := ExchangeInfoCache.Run(ExchangeInfoCache.EMPTY, info);
            match ExchangeInfoCache.Answer(st, key, force, cacheMs, now)
            case Hit(source) =>
              source in st.responses && st.responses[source].key == key && Young(st.responses[source].at, now, cacheMs)
            case _ => true
  {
    hide FuturesCache.Run, ExchangeInfoCache.Run, FuturesCache.Answer, ExchangeInfoCache.Answer;
    FuturesCache.ServedIsFresh(futures, key, cacheMs, now);
    ExchangeInfoCache.ServedIsFresh(info, key, force, cacheMs, now);
  }

  /** A caller starts a request, a second one joins it, and a third is served its answer until it is too old; when the
      request failed instead, the next caller starts another. */
  lemma FuturesExample(key: string)
    ensures var asked := [FuturesCache.DoCall(key, 5000, 0)];
            var answered := asked + [FuturesCache.DoSucceed(0, 40)];
            var failed := asked + [FuturesCache.DoReject(0), FuturesCache.DoCleanUp(0)];
            && FuturesCache.Answer(FuturesCache.EMPTY, key, 5000, 0) == FuturesCache.Started(0)
            && FuturesCache.Answer(FuturesCache.Run(FuturesCache.EMPTY, asked), key, 5000, 20) == FuturesCache.Joined(0)
            && FuturesCache.Answer(FuturesCache.Run(FuturesCache.EMPTY, answered), key, 5000, 5040)
               == FuturesCache.Hit(0)
            && FuturesCache.Answer(FuturesCache.Run(FuturesCache.EMPTY, answered), key, 5000, 5041)
               == FuturesCache.Started(1)
            && FuturesCache.Answer(FuturesCache.Run(FuturesCache.EMPTY, failed), key, 5000, 60)
               == FuturesCache.Started(1)
  {
    var asked, cleaned := [FuturesCache.DoCall(key, 5000, 0)], [FuturesCache.DoReject(0), FuturesCache.DoCleanUp(0)];
    RunFrom(FuturesCache.EMPTY, asked, [FuturesCache.DoSucceed(0, 40)]);
    RunFrom(FuturesCache.EMPTY, asked, cleaned);
    assert cleaned[1..] == [FuturesCache.DoCleanUp(0)];
  }

  lemma {:induction false} RunFrom(st: FuturesCache.State, s: seq<FuturesCache.Step>, t: seq<FuturesCache.Step>)
    ensures FuturesCache.Run(st, s + t) == FuturesCache.Run(FuturesCache.Run(st, s), t)
    decreases s
  {
    hide FuturesCache.Next;
    if s == [] {
      assert s + t == t;
    } else {
      assert (s + t)[0] == s[0] && (s + t)[1..] == s[1..] + t;
      RunFrom(FuturesCache.Next(st, s[0]), s[1..], t);
    }
  }
}
