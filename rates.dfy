/**
 * The exchange-rate cache of the main process: the last rate table fetched
 * (currency code to units per US dollar) and the time it was fetched. A table
 * younger than an hour is served without going to the network; otherwise one
 * fetch is tried, and only a response body that carries `rates` replaces the
 * table. A failed fetch keeps whatever was there, however old, or nothing.
 */
module ExchangeRates {
  import opened Wrappers

  /** Currency code to units of that currency per one US dollar. */
  type Rates = map<string, real>

  /** One hour, in milliseconds. */
  const FreshnessMs: int := 3600000

  /** The module variables `exchangeRates` (None stands for `null`) and `exchangeRatesTime`. */
  datatype CacheState = CacheState(rates: Option<Rates>, time: int)

  /** The cache as the process starts: no table, time 0. */
  const Initial: CacheState := CacheState(None, 0)

  /** What the network fetch produced: it threw, or it gave a JSON body whose `rates` may be missing. */
  datatype FetchOutcome = FetchThrew | FetchBody(rates: Option<Rates>)

  /** The cached table may be served without a fetch at time `now`. */
  predicate IsFresh(s: CacheState, now: int) {
    s.rates.Some? && now - s.time < FreshnessMs
  }

  /** What one call of `fetchExchangeRates` does: the new state, the table returned, and whether it fetched. */
  datatype Lookup = Lookup(state: CacheState, returned: Option<Rates>, fetched: bool)

  /** One call of `fetchExchangeRates` at time `now`; `outcome` is consulted only if a fetch is made. */
  function Fetch(s: CacheState, now: int, outcome: FetchOutcome): (r: Lookup)
    ensures r.returned == r.state.rates
    ensures r.fetched <==> !IsFresh(s, now)
    ensures r.state == s || (outcome.FetchBody? && outcome.rates.Some? && r.state == CacheState(outcome.rates, now))
  {
    if IsFresh(s, now) then Lookup(s, s.rates, false)
    else
      var next := if outcome.FetchBody? && outcome.rates.Some? then CacheState(outcome.rates, now) else s;
      Lookup(next, next.rates, true)
  }

  /** A fresh table is returned as it is and nothing is fetched. */
  lemma FreshServedWithoutFetch(s: CacheState, now: int, outcome: FetchOutcome)
    requires IsFresh(s, now)
    ensures Fetch(s, now, outcome) == Lookup(s, s.rates, false)
  {
  }

  /** A fetch that throws, or whose body has no `rates`, leaves table and time as they were. */
  lemma FailedFetchKeepsSnapshot(s: CacheState, now: int, outcome: FetchOutcome)
    requires outcome.FetchThrew? || outcome.rates.None?
    ensures Fetch(s, now, outcome).state == s
    ensures Fetch(s, now, outcome).returned == s.rates
  {
  }

  /** A successful fetch stamps the table with the time read before the fetch. */
  lemma SuccessfulFetchStamps(s: CacheState, now: int, rates: Rates)
    requires !IsFresh(s, now)
    ensures Fetch(s, now, FetchBody(Some(rates))).state == CacheState(Some(rates), now)
  {
  }

  /** A sequence of calls, each at a time with the outcome its fetch (if any) would have. */
  datatype Call = Call(now: int, outcome: FetchOutcome)

  function FetchAll(s: CacheState, calls: seq<Call>): (r: CacheState)
    decreases |calls|
  {
    if calls == [] then s else FetchAll(Fetch(s, calls[0].now, calls[0].outcome).state, calls[1..])
  }

  /** Once a table has been fetched it is never lost again: later failures only make it stale. */
  lemma {:induction false} SnapshotNeverLost(s: CacheState, calls: seq<Call>)
    requires s.rates.Some?
    ensures FetchAll(s, calls).rates.Some?
    decreases |calls|
  {
    if calls != [] {
      SnapshotNeverLost(Fetch(s, calls[0].now, calls[0].outcome).state, calls[1..]);
    }
  }

  /** Calls within the hour after a successful fetch are all served from the cache, whatever their outcomes. */
  lemma {:induction false} NoRefetchWithinHour(s: CacheState, calls: seq<Call>)
    requires s.rates.Some?
    requires forall i :: 0 <= i < |calls| ==> s.time <= calls[i].now < s.time + FreshnessMs
    ensures FetchAll(s, calls) == s
    decreases |calls|
  {
    if calls != [] {
      assert IsFresh(s, calls[0].now);
      NoRefetchWithinHour(s, calls[1..]);
    }
  }

  /** If the clock never goes back, the table's timestamp never moves past the current time. */
  lemma {:induction false} TimestampNotAhead(s: CacheState, calls: seq<Call>, later: int)
    requires s.time <= later
    requires forall i :: 0 <= i < |calls| ==> calls[i].now <= later
    ensures FetchAll(s, calls).time <= later
    decreases |calls|
  {
    if calls != [] {
      TimestampNotAhead(Fetch(s, calls[0].now, calls[0].outcome).state, calls[1..], later);
    }
  }

  /** The cache as the mutable module state of the main process. */
  class RateCache {
    var rates: Option<Rates>
    var time: int

    function State(): CacheState
      reads this
    {
      CacheState(rates, time)
    }

    constructor ()
      ensures State() == Initial
    {
      rates := None;
      time := 0;
    }

    /** `fetchExchangeRates()`, with `Date.now()` and the network's answer as parameters. */
    method FetchExchangeRates(now: int, outcome: FetchOutcome) returns (result: Option<Rates>)
      modifies this
      ensures State() == Fetch(old(State()), now, outcome).state
      ensures result == Fetch(old(State()), now, outcome).returned
    {
      if rates.Some? && now - time < FreshnessMs {
        return rates;
      }
      if outcome.FetchBody? && outcome.rates.Some? {
        rates := outcome.rates;
        time := now;
      }
      return rates;
    }
  }
}
