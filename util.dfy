/** The price oracle of util/__init__.py: tier targets, the 60-second price cache
    shared by every get_*_amount function, and the ETH and ABLOCK caches. */
module Util {
  import opened Common

  /** USD targets of the two tiers when PAYMENT_AMOUNT_TIER1 / _TIER2 are unset. */
  const DefaultTier1Usd: real := 35.0
  const DefaultTier2Usd: real := 200.0

  /** Seconds a fetched price is reused before the next call refreshes it. */
  const TtlSeconds: int := 60

  /** What a price lookup gave: a price (the ticker's close may itself be None),
      or an exception from the feed. */
  datatype Fetch = Fetched(price: Option<real>) | FetchFailed

  /** What a get_*_amount call returns: the token amount, None, or the
      ZeroDivisionError that escapes when the cached price is zero. */
  datatype Quote = Amount(value: real) | Unpriced | DivisionByZero

  /** One coin's cached price and the int(time.time()) of its last refresh. */
  datatype PriceCache = PriceCache(price: Option<real>, lastUpdate: Option<int>)

  const EmptyCache: PriceCache := PriceCache(None, None)

  /** The refresh condition: nothing cached yet, or more than 60 s have passed. */
  predicate IsStale(c: PriceCache, now: int)
  {
    c.lastUpdate.None? || now - TtlSeconds > c.lastUpdate.value
  }

  /** amount / price rounded to six decimals, None without a price. */
  function Convert(price: Option<real>, amount: real): (q: Quote)
    ensures price.None? <==> q == Unpriced
    ensures price == Some(0.0) <==> q == DivisionByZero
    ensures q.Amount? ==>
              q.value == Round6(amount / price.value) &&
              -0.0000005 <= q.value - amount / price.value <= 0.0000005
  {
    match price
    case None => Unpriced
    case Some(p) => if p == 0.0 then DivisionByZero else Amount(Round6(amount / p))
  }

  /** One get_*_amount call: refresh when stale (a failed fetch returns None and
      keeps the cache), then convert with whatever price is cached. */
  function Lookup(c: PriceCache, amount: real, now: int, fetch: Fetch): (PriceCache, Quote)
  {
    if IsStale(c, now) then
      match fetch
      case FetchFailed => (c, Unpriced)
      case Fetched(p) => (PriceCache(p, Some(now)), Convert(p, amount))
    else
      (c, Convert(c.price, amount))
  }

  /** While the cache is fresh the feed is not consulted: any two fetch outcomes
      give the same result, the cache is unchanged and the cached price is used. */
  lemma FreshCacheIgnoresFetch(c: PriceCache, amount: real, now: int, f1: Fetch, f2: Fetch)
    requires !IsStale(c, now)
    ensures Lookup(c, amount, now, f1) == Lookup(c, amount, now, f2)
    ensures Lookup(c, amount, now, f1) == (c, Convert(c.price, amount))
  {
  }

  /** A fetch outcome matters exactly when the cache is stale. */
  lemma FetchConsultedIffStale(c: PriceCache, amount: real, now: int)
    ensures IsStale(c, now) <==>
            Lookup(c, amount, now, FetchFailed) != Lookup(c, amount, now, Fetched(Some(1.0)))
  {
    if IsStale(c, now) {
      var failed := Lookup(c, amount, now, FetchFailed);
      var ok := Lookup(c, amount, now, Fetched(Some(1.0)));
      assert ok.0.lastUpdate == Some(now);
      assert c.lastUpdate != Some(now);
      assert failed.0 != ok.0;
    }
  }

  /** A successful refresh records the price and the current time; a failed one
      returns None and leaves price and timestamp as they were. */
  lemma StaleLookupOutcome(c: PriceCache, amount: real, now: int, fetch: Fetch)
    requires IsStale(c, now)
    ensures fetch.Fetched? ==> Lookup(c, amount, now, fetch).0 == PriceCache(fetch.price, Some(now))
    ensures fetch.FetchFailed? ==> Lookup(c, amount, now, fetch) == (c, Unpriced)
  {
  }

  /** After a refresh at time t the cached price is reused through t + 60 and
      refreshed from t + 61 on. */
  lemma FreshnessWindow(c: PriceCache, amount: real, t: int, p: Option<real>, later: int)
    requires IsStale(c, t)
    ensures IsStale(Lookup(c, amount, t, Fetched(p)).0, later) <==> later > t + TtlSeconds
  {
  }

  /** A cached None price yields None whatever the amount; a cached non-zero
      price yields amount / price rounded to six decimals. */
  lemma CachedPriceConversion(c: PriceCache, amount: real, now: int, fetch: Fetch)
    requires !IsStale(c, now) || fetch.Fetched?
    ensures var (c', q) := Lookup(c, amount, now, fetch);
            (c'.price.None? ==> q == Unpriced) &&
            (c'.price.Some? && c'.price.value != 0.0 ==> q == Amount(Round6(amount / c'.price.value)))
  {
  }

  /** The tests' expectation: a fresh ETH price below 70,000,000 USD gives both
      default tiers a positive ETH amount. */
  lemma DefaultTiersQuotePositive(c: PriceCache, now: int, price: real)
    requires IsStale(c, now)
    requires 0.0 < price < 70000000.0
    ensures Lookup(c, DefaultTier1Usd, now, Fetched(Some(price))).1.Amount?
    ensures Lookup(c, DefaultTier1Usd, now, Fetched(Some(price))).1.value > 0.0
    ensures Lookup(c, DefaultTier2Usd, now, Fetched(Some(price))).1.Amount?
    ensures Lookup(c, DefaultTier2Usd, now, Fetched(Some(price))).1.value > 0.0
  {
    assert DefaultTier1Usd / price > 0.0000005 by {
      assert DefaultTier1Usd > 0.0000005 * price;
    }
    assert DefaultTier2Usd / price > 0.0000005 by {
      assert DefaultTier2Usd > 0.0000005 * price;
    }
    Round6Positive(DefaultTier1Usd / price);
    Round6Positive(DefaultTier2Usd / price);
  }

  /** The worked example: a $35 tier at $2000 per ETH quotes 0.0175 ETH. */
  lemma Tier1AtTwoThousand(now: int)
    ensures Lookup(EmptyCache, DefaultTier1Usd, now, Fetched(Some(2000.0))).1 == Amount(0.0175)
  {
    assert DefaultTier1Usd / 2000.0 == 0.0175;
    assert 0.0175 * Micro == 17500 as real;
    RoundHalfEvenOfInt(17500);
  }

  /** get_price: the router's getAmountsOut answer for one token, divided by 10^2. */
  function RouterPrice(amountOut: int): real
  {
    amountOut as real / 100.0
  }

  /** The ABLOCK refresh: the router call either answers or raises. */
  function RouterFetch(router: Rpc<int>): (f: Fetch)
    ensures router.RpcFailed? <==> f.FetchFailed?
    ensures router.Answered? ==> f.price == Some(router.value as real / 100.0)
  {
    match router
    case RpcFailed => FetchFailed
    case Answered(out) => Fetched(Some(RouterPrice(out)))
  }

  /** The module globals eth_price, ablock_price and their last-update times. */
  class Prices {
    var eth: PriceCache
    var ablock: PriceCache

    constructor ()
      ensures eth == EmptyCache && ablock == EmptyCache
    {
      eth := EmptyCache;
      ablock := EmptyCache;
    }

    /** get_eth_amount: the Coinbase ETH/USD close is the fetch. */
    method GetEthAmount(amount: real, now: int, ticker: Fetch) returns (q: Quote)
      modifies this
      ensures (eth, q) == Lookup(old(eth), amount, now, ticker)
      ensures ablock == old(ablock)
    {
      if eth.lastUpdate.None? || now - TtlSeconds > eth.lastUpdate.value {
        if ticker.FetchFailed? {
          return Unpriced;
        }
        eth := PriceCache(ticker.price, Some(now));
      }
      q := Convert(eth.price, amount);
    }

    /** get_ablock_amount: the Uniswap router quote of ABLOCK in USDT is the fetch. */
    method GetAblockAmount(amount: real, now: int, router: Rpc<int>) returns (q: Quote)
      modifies this
      ensures (ablock, q) == Lookup(old(ablock), amount, now, RouterFetch(router))
      ensures eth == old(eth)
    {
      if ablock.lastUpdate.None? || now - TtlSeconds > ablock.lastUpdate.value {
        if router.RpcFailed? {
          return Unpriced;
        }
        ablock := PriceCache(Some(RouterPrice(router.value)), Some(now));
      }
      q := Convert(ablock.price, amount);
    }
  }
}
