/** The AABLOCK price of util/price_aablock.py: two Pangolin pools on the AVAX
    chain priced by the reserve-ratio rule, and the 60-second cache around them. */
module PriceAablock {
  import opened Common
  import opened Util

  /** Symbol of the wrapped native coin of the AVAX chain. */
  const WrappedAvax: string := "WAVAX"

  /** get_price_aablock: the USDT pool gives USDT per WAVAX, the AABLOCK pool
      AABLOCK per WAVAX, and their quotient is USDT per AABLOCK. None stands for
      a ZeroDivisionError in either pool price or in the final division. */
  function AablockPrice(usdtPool: Pool, aablockPool: Pool): (r: Option<real>)
    ensures r.Some? <==>
              PoolPrice(usdtPool, WrappedAvax).Some? && PoolPrice(aablockPool, WrappedAvax).Some? &&
              PoolPrice(aablockPool, WrappedAvax).value != 0.0
    ensures r.Some? ==>
              r.value * PoolPrice(aablockPool, WrappedAvax).value == PoolPrice(usdtPool, WrappedAvax).value
  {
    Ratio(PoolPrice(usdtPool, WrappedAvax), PoolPrice(aablockPool, WrappedAvax))
  }

  /** The refresh inside get_aablock_amount's try block: a failed pool call or a
      raised division both count as a failed fetch. */
  function AablockFetch(pools: Rpc<(Pool, Pool)>): (f: Fetch)
    ensures f.Fetched? <==> pools.Answered? && AablockPrice(pools.value.0, pools.value.1).Some?
    ensures f.Fetched? ==> f.price == AablockPrice(pools.value.0, pools.value.1)
  {
    match pools
    case RpcFailed => FetchFailed
    case Answered((usdtPool, aablockPool)) =>
      match AablockPrice(usdtPool, aablockPool)
      case None => FetchFailed
      case Some(p) => Fetched(Some(p))
  }

  /** The module globals aablock_price and last_amount_update_time_aablock. */
  class AablockPrices {
    var aablock: PriceCache

    constructor ()
      ensures aablock == EmptyCache
    {
      aablock := EmptyCache;
    }

    /** get_aablock_amount: refresh when stale, None on a failed refresh or a
        None price, otherwise amount / price rounded to six decimals. */
    method GetAablockAmount(amount: real, now: int, pools: Rpc<(Pool, Pool)>) returns (q: Quote)
      modifies this
      ensures (aablock, q) == Lookup(old(aablock), amount, now, AablockFetch(pools))
    {
      if aablock.lastUpdate.None? || now - TtlSeconds > aablock.lastUpdate.value {
        if pools.RpcFailed? {
          return Unpriced;
        }
        var price := AablockPrice(pools.value.0, pools.value.1);
        if price.None? {
          return Unpriced;
        }
        aablock := PriceCache(price, Some(now));
      }
      q := Convert(aablock.price, amount);
    }
  }
}
