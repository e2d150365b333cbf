/** The SYSBLOCK and SYS prices of util/price_sysblock.py: two Pegasys pools on
    the NEVM chain priced by the reserve-ratio rule, the Pegasys router quote of
    SYS, and a 60-second cache for each. */
module PriceSysblock {
  import opened Common
  import opened Util

  /** Symbol of the wrapped native coin of the NEVM chain. */
  const WrappedSys: string := "WSYS"

  /** get_price_sysblock: USDT per WSYS over SYSBLOCK per WSYS, i.e. USDT per
      SYSBLOCK. None stands for a ZeroDivisionError. */
  function SysblockPrice(usdtPool: Pool, sysblockPool: Pool): (r: Option<real>)
    ensures r.Some? <==>
              PoolPrice(usdtPool, WrappedSys).Some? && PoolPrice(sysblockPool, WrappedSys).Some? &&
              PoolPrice(sysblockPool, WrappedSys).value != 0.0
    ensures r.Some? ==>
              r.value * PoolPrice(sysblockPool, WrappedSys).value == PoolPrice(usdtPool, WrappedSys).value
  {
    Ratio(PoolPrice(usdtPool, WrappedSys), PoolPrice(sysblockPool, WrappedSys))
  }

  /** The refresh inside get_sysblock_amount's try block. */
  function SysblockFetch(pools: Rpc<(Pool, Pool)>): (f: Fetch)
    ensures f.Fetched? <==> pools.Answered? && SysblockPrice(pools.value.0, pools.value.1).Some?
    ensures f.Fetched? ==> f.price == SysblockPrice(pools.value.0, pools.value.1)
  {
    match pools
    case RpcFailed => FetchFailed
    case Answered((usdtPool, sysblockPool)) =>
      match SysblockPrice(usdtPool, sysblockPool)
      case None => FetchFailed
      case Some(p) => Fetched(Some(p))
  }

  /** get_sys_amount's price: the Pegasys router quote of one WSYS in USDT,
      divided by 10^2 inside get_price_pegasys and by 10^4 after it. */
  function SysPrice(amountOut: int): (p: real)
    ensures p * 1000000.0 == amountOut as real
  {
    RouterPrice(amountOut) / 10000.0
  }

  /** The refresh inside get_sys_amount's try block. */
  function SysFetch(router: Rpc<int>): (f: Fetch)
    ensures f.FetchFailed? <==> router.RpcFailed?
    ensures f.Fetched? ==> f.price == Some(router.value as real / 1000000.0)
  {
    match router
    case RpcFailed => FetchFailed
    case Answered(out) => Fetched(Some(SysPrice(out)))
  }

  /** The module globals sysblock_price, sys_price and their last-update times. */
  class SysPrices {
    var sysblock: PriceCache
    var sys: PriceCache

    constructor ()
      ensures sysblock == EmptyCache && sys == EmptyCache
    {
      sysblock := EmptyCache;
      sys := EmptyCache;
    }

    /** get_sysblock_amount. */
    method GetSysblockAmount(amount: real, now: int, pools: Rpc<(Pool, Pool)>) returns (q: Quote)
      modifies this
      ensures (sysblock, q) == Lookup(old(sysblock), amount, now, SysblockFetch(pools))
      ensures sys == old(sys)
    {
      if sysblock.lastUpdate.None? || now - TtlSeconds > sysblock.lastUpdate.value {
        if pools.RpcFailed? {
          return Unpriced;
        }
        var price := SysblockPrice(pools.value.0, pools.value.1);
        if price.None? {
          return Unpriced;
        }
        sysblock := PriceCache(price, Some(now));
      }
      q := Convert(sysblock.price, amount);
    }

    /** get_sys_amount. */
    method GetSysAmount(amount: real, now: int, router: Rpc<int>) returns (q: Quote)
      modifies this
      ensures (sys, q) == Lookup(old(sys), amount, now, SysFetch(router))
      ensures sysblock == old(sysblock)
    {
      if sys.lastUpdate.None? || now - TtlSeconds > sys.lastUpdate.value {
        if router.RpcFailed? {
          return Unpriced;
        }
        sys := PriceCache(Some(SysPrice(router.value)), Some(now));
      }
      q := Convert(sys.price, amount);
    }
  }

  /** A SYS quote of amount USD from a fresh router answer q is
      amount * 10^6 / q rounded to six decimals. */
  lemma SysQuoteFromRouter(c: PriceCache, amount: real, now: int, out: int)
    requires IsStale(c, now)
    requires out != 0
    ensures Lookup(c, amount, now, SysFetch(Answered(out))).1
         == Amount(Round6(amount * 1000000.0 / out as real))
  {
    var p := SysPrice(out);
    assert p == out as real / 1000000.0;
    assert amount / p == amount * 1000000.0 / out as real;
  }
}
