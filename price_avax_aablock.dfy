/** get_price_avax_aablock of util/price_avax_aablock.py: the USD price of AVAX
    or of AABLOCK from two Pangolin pools, priced one after the other into a
    table keyed by pool. */
module PriceAvaxAablock {
  import opened Common
  import PriceAablock

  /** The two pools, in the order the function visits them. */
  datatype PoolName = UsdtPool | AablockPool

  const PoolOrder: seq<PoolName> := [UsdtPool, AablockPool]

  /** None when no AVAX provider is configured; a price; or the exception that
      escapes (the function has no try block): a failed pool call or a
      ZeroDivisionError. */
  datatype AvaxPrice = NoProvider | Price(value: real) | Raised

  /** The answers of the pool calls for one pool. */
  function PoolAnswer(name: PoolName, usdt: Rpc<Pool>, aablock: Rpc<Pool>): Rpc<Pool>
  {
    match name
    case UsdtPool => usdt
    case AablockPool => aablock
  }

  /** One pool's price in WAVAX terms, None when its calls failed or its price
      division raised. */
  function PriceInWavax(answer: Rpc<Pool>): (r: Option<real>)
    ensures r.Some? <==> answer.Answered? && PoolPrice(answer.value, PriceAablock.WrappedAvax).Some?
    ensures r.Some? ==> r == PoolPrice(answer.value, PriceAablock.WrappedAvax)
  {
    match answer
    case RpcFailed => None
    case Answered(pool) => PoolPrice(pool, PriceAablock.WrappedAvax)
  }

  /** Reference definition: with a provider, both pools are priced; the flag
      selects the USDT pool's price (AVAX in USD) or the quotient of the two
      (AABLOCK in USD). */
  function AvaxAablockPrice(configured: bool, usdt: Rpc<Pool>, aablock: Rpc<Pool>, avaxAablock: bool): AvaxPrice
  {
    if !configured then NoProvider
    else
      var u := PriceInWavax(usdt);
      var a := PriceInWavax(aablock);
      if u.None? || a.None? then Raised
      else if avaxAablock then Price(u.value)
      else if a.value == 0.0 then Raised
      else Price(u.value / a.value)
  }

  /** get_price_avax_aablock: fills price_in_wavax pool by pool, then selects. */
  method GetPriceAvaxAablock(configured: bool, usdt: Rpc<Pool>, aablock: Rpc<Pool>, avaxAablock: bool)
    returns (r: AvaxPrice)
    ensures r == AvaxAablockPrice(configured, usdt, aablock, avaxAablock)
  {
    if !configured {
      return NoProvider;
    }
    var priceInWavax: map<PoolName, real> := map[];
    for i := 0 to |PoolOrder|
      invariant forall j :: 0 <= j < i ==>
                  PoolOrder[j] in priceInWavax &&
                  PriceInWavax(PoolAnswer(PoolOrder[j], usdt, aablock)) == Some(priceInWavax[PoolOrder[j]])
    {
      var name := PoolOrder[i];
      var p := PriceInWavax(PoolAnswer(name, usdt, aablock));
      if p.None? {
        return Raised;
      }
      priceInWavax := priceInWavax[name := p.value];
    }
    assert PoolOrder[0] == UsdtPool && PoolOrder[1] == AablockPool;
    if avaxAablock {
      r := Price(priceInWavax[UsdtPool]);
    } else if priceInWavax[AablockPool] == 0.0 {
      r := Raised;
    } else {
      r := Price(priceInWavax[UsdtPool] / priceInWavax[AablockPool]);
    }
  }

  /** Without a provider nothing is priced and the answer is None. */
  lemma NoProviderNoPrice(usdt: Rpc<Pool>, aablock: Rpc<Pool>, avaxAablock: bool)
    ensures AvaxAablockPrice(false, usdt, aablock, avaxAablock) == NoProvider
  {
  }

  /** With the flag set, a priced result is the USDT pool's WAVAX price, i.e.
      the USD price of AVAX; but the AABLOCK pool is priced too, and its
      failure raises even then. */
  lemma NativeFlagGivesAvaxPrice(usdt: Rpc<Pool>, aablock: Rpc<Pool>)
    ensures var r := AvaxAablockPrice(true, usdt, aablock, true);
            (r.Price? <==> PriceInWavax(usdt).Some? && PriceInWavax(aablock).Some?) &&
            (r.Price? ==> Some(r.value) == PoolPrice(usdt.value, PriceAablock.WrappedAvax))
  {
  }

  /** With the flag clear, a priced result times AABLOCK's WAVAX price is the
      USDT pool's WAVAX price: USD per AABLOCK. The same AABLOCK pool data give
      the same price as get_price_aablock when the USDT pool answers alike. */
  lemma TokenFlagGivesAablockPrice(usdt: Rpc<Pool>, aablock: Rpc<Pool>)
    ensures var r := AvaxAablockPrice(true, usdt, aablock, false);
            (r.Price? ==> r.value * PriceInWavax(aablock).value == PriceInWavax(usdt).value) &&
            (usdt.Answered? && aablock.Answered? ==>
               (r.Price? <==> PriceAablock.AablockPrice(usdt.value, aablock.value).Some?) &&
               (r.Price? ==> Some(r.value) == PriceAablock.AablockPrice(usdt.value, aablock.value)))
  {
    var r := AvaxAablockPrice(true, usdt, aablock, false);
    var quotient := Ratio(PriceInWavax(usdt), PriceInWavax(aablock));
    assert r.Price? <==> quotient.Some?;
    assert r.Price? ==> r.value == quotient.value;
  }
}
