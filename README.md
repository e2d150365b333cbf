# eth-payment-processor, modelled in Dafny

This project models the core of blocknetdx/eth-payment-processor. That service sells prepaid API calls. A client asks for a quote and gets back deposit addresses on three EVM chains (ETH, AVAX, NEVM) plus the token amounts that reach two USD tiers. A watcher polls the deposit addresses and turns new deposits into granted calls. A metering cache counts calls per project and flushes the counts into the project records every few seconds.

The model has eight modules:

- `Common` holds the shared vocabulary:
  - optional values, and the outcome of a call into a chain node or price feed (`Rpc`)
  - Python's `'{:.6f}'` rounding, written as half-even rounding on the exact value
  - Python's truncating `int()`
  - wei scaling
  - the reserve-ratio price of a decentralized-exchange pool, whose orientation depends on whether token0 is the wrapped native coin
- `Util` covers `util/__init__.py`:
  - the default tier targets
  - the 60-second price cache every `get_*_amount` function uses (`Lookup`), and the conversion `amount / price` rounded to six decimals
  - the ETH and ABLOCK caches, as a class `Prices` whose methods update the cache fields
- `PriceAablock`, `PriceSysblock` and `PriceAvaxAablock` cover the three pool-price modules. The first two keep 60-second caches, each as a class; `get_price_avax_aablock` caches nothing and is modelled by a method over the pool answers.
- `Records` holds the Project and Payment rows, the per-coin columns, and a `Store` class holding the two tables.
- `EthPayments` covers `util/eth_payments.py`:
  - the `coin_names` table
  - the watch list built by `fetch_evm_accounts`
  - the balance poll of `check_balance`
  - the per-address crediting rule of `handle_evm_event` (`CreditStep`)
  - a whole pass over one chain (`HandleSpec`), and the `Web3Helper` class whose methods are proved equal to these reference functions
- `PaymentProcessor` covers `payment_processor.py`:
  - the call counter of `api_count_handler`
  - one tick of `update_api_counts`, as the `MeteringCache` class
  - the decision and defaulting logic of `create_project`, as a pure function

Every foreign call is an input:

- the price ticker, the router quotes and the pool reads
- `getBalance` / `balanceOf`
- key generation, `uuid4`, `token_urlsafe`
- the clock, and whether a database commit succeeds

An exception that the source catches, or that rolls back a `db_session`, becomes an explicit outcome of the model (`RpcFailed`, `FetchFailed`, `None`, `FlushFailed`, `StoreFailed`). A division by zero inside a price lookup, which escapes to its caller, also becomes an outcome (`DivisionByZero`, `Raised`).

Where the code and the intended behaviour of the service disagree, the model follows the code:

- The watcher always *adds* to `api_token_count`, at full rate while the quote is pending and at half rate after expiry. No first credit *replaces* the count, and there is no tier or archive branching.
- A credit does not clear `pending`. Only quote expiry does, using `now > start + hours`, not `>=`.
- The watcher only ever sets `active`; it never recomputes it as `count > used`. The flush only ever clears it.
- A successful flush clears the whole cache, including ids that have no Project. Ids are not cleared one by one.
- `create_project` rejects only when at least 9 of the 10 amounts are missing, not when none is priced. It has no tier selection, extension path or auto-activation.

## Model

| member | source | states |
|---|---|---|
| Common.RoundHalfEven | util/__init__.py:55 | the result is an integer within 1/2 of the input, and a tie goes to the even neighbour |
| Common.Round6 | util/__init__.py:55 | the result is within 5·10⁻⁷ of the input and has at most six decimals |
| Common.Round6Idempotent | util/__init__.py:55 | rounding an already rounded amount changes nothing |
| Common.Round6Positive | util/__init__.py:55 | a rounded amount is positive exactly when the exact amount exceeds 5·10⁻⁷ |
| Common.TruncateBounds | util/eth_payments.py:156 | Python `int()`: truncation toward zero, bounded on both sides for either sign |
| Common.TruncateHalf | util/eth_payments.py:156-159 | for a non-negative quantity, `int(q / 2) == int(q) // 2` |
| Common.PoolPrice | util/price_aablock.py:28-43 | the price is undefined (the division raises) exactly when the reserve of the wrapped-native leg is zero |
| Common.PoolPriceRatio | util/price_aablock.py:38-41 | if token0 is the wrapped native coin, price × reserve0 = reserve1 (in whole tokens), else price × reserve1 = reserve0 |
| Common.LegRatioMeaning | util/price_aablock.py:39 | the integer cross-multiplied form of the price times the wrapped-native leg in whole tokens gives the other leg in whole tokens |
| Common.Ratio | util/price_aablock.py:67 | the quotient of two optional prices is defined exactly when both are and the divisor is non-zero, and then quotient × divisor = dividend |
| Common.PoolPriceOrientation | util/price_aablock.py:38-41 | the same pool with its legs listed the other way round gets the same price |
| Util.Convert | util/__init__.py:52-55 | no price gives None, a zero price raises, otherwise the amount/price quotient rounded to six decimals (within 5·10⁻⁷ of the exact quotient) |
| Util.FreshCacheIgnoresFetch | util/__init__.py:43-47 | while the cache is fresh the feed is not consulted: the cache is kept and its price is used |
| Util.FetchConsultedIffStale | util/__init__.py:44 | the fetch outcome affects the result exactly when nothing is cached or now − 60 > last update |
| Util.StaleLookupOutcome | util/__init__.py:43-50 | a successful refresh stores the price with timestamp now; a failed one returns None and keeps price and timestamp |
| Util.FreshnessWindow | util/__init__.py:44-47 | after a refresh at t, the price is reused up to t + 60 and refreshed from t + 61 on |
| Util.CachedPriceConversion | util/__init__.py:52-55 | a cached None price yields None; a cached non-zero price yields amount/price rounded to six decimals |
| Util.DefaultTiersQuotePositive | test_main.py:7-15 | with a fresh ETH price below 7·10⁷ USD, both default tiers (35 and 200 USD) quote a positive ETH amount |
| Util.Tier1AtTwoThousand | util/__init__.py:8-55 | 35 USD at 2000 USD per ETH quotes exactly 0.0175 ETH |
| Util.RouterFetch | util/__init__.py:30-36 | the router quote divided by 10², or a failed fetch when the call raises |
| Util.Prices.GetEthAmount | util/__init__.py:39-55 | the new ETH cache and the result are those of the reference cache lookup with the ticker outcome; the ABLOCK cache is untouched |
| Util.Prices.GetAblockAmount | util/__init__.py:58-73 | the same for the ABLOCK cache fed by the router quote; the ETH cache is untouched |
| PriceAablock.AablockPrice | util/price_aablock.py:26-67 | defined exactly when both pool prices are defined and the AABLOCK price is non-zero, and then price × AABLOCK-pool price = USDT-pool price |
| PriceAablock.AablockFetch | util/price_aablock.py:74-80 | any pool-call failure or raised division inside the refresh is a failed fetch; otherwise the fetched price is the AABLOCK price |
| PriceAablock.AablockPrices.GetAablockAmount | util/price_aablock.py:70-85 | the new cache and the result are those of the reference cache lookup with the AABLOCK fetch |
| PriceSysblock.SysblockPrice | util/price_sysblock.py:38-78 | as for AABLOCK with the "WSYS" marker: price × SYSBLOCK-pool price = USDT-pool price, defined exactly when both prices are defined and the divisor is non-zero |
| PriceSysblock.SysblockFetch | util/price_sysblock.py:85-91 | failures inside the refresh are failed fetches; otherwise the fetched price is the SYSBLOCK price |
| PriceSysblock.SysPrice | util/price_sysblock.py:28-34 | the SYS price is the router quote divided by 10², then by 10⁴ (price × 10⁶ = quote) |
| PriceSysblock.SysFetch | util/price_sysblock.py:103-109 | a failed router call is a failed fetch; otherwise the price is quote/10⁶ |
| PriceSysblock.SysPrices.GetSysblockAmount | util/price_sysblock.py:81-96 | reference cache lookup with the SYSBLOCK fetch; the SYS cache is untouched |
| PriceSysblock.SysPrices.GetSysAmount | util/price_sysblock.py:99-114 | reference cache lookup with the SYS fetch; the SYSBLOCK cache is untouched |
| PriceSysblock.SysQuoteFromRouter | util/price_sysblock.py:99-114 | a fresh SYS quote of an amount is amount × 10⁶ / router quote, rounded to six decimals |
| PriceAvaxAablock.PriceInWavax | util/price_avax_aablock.py:29-44 | a pool's WAVAX price is defined exactly when its calls answer and its price rule does not divide by zero |
| PriceAvaxAablock.GetPriceAvaxAablock | util/price_avax_aablock.py:27-57 | the loop filling the price table per pool gives the reference result: no provider, a price, or an escaping exception |
| PriceAvaxAablock.NoProviderNoPrice | util/price_avax_aablock.py:46-47 | without a provider the result is None |
| PriceAvaxAablock.NativeFlagGivesAvaxPrice | util/price_avax_aablock.py:49-57 | with the flag set, a price is returned exactly when both pools price, and it is the USDT pool's price |
| PriceAvaxAablock.TokenFlagGivesAablockPrice | util/price_avax_aablock.py:49-57 | with the flag clear, price × AABLOCK pool price = USDT pool price, and it agrees with the AABLOCK module's price |
| Records.PerCoin.Set | util/eth_payments.py:120-132 | update_db_amount writes the named coin's column and leaves all others |
| EthPayments.CoinName | util/eth_payments.py:17-30 | the coin named for a chain and kind belongs to that chain and is native exactly when asked for |
| EthPayments.CoinNamesCoverEveryCoin | util/eth_payments.py:17-30 | every coin is listed under its own chain and kind |
| EthPayments.WatchList | util/eth_payments.py:84-86 | the list holds the address of every Payment with a quote start time and a non-empty address on the chain, and nothing else |
| EthPayments.Web3Helper.constructor | util/eth_payments.py:42-68 | every chain starts with an empty watch list |
| EthPayments.Web3Helper.FetchEvmAccounts | util/eth_payments.py:83-88 | the chain's list is replaced by the watch list only when that is non-empty; other chains are untouched |
| EthPayments.Assign | util/eth_payments.py:113-114 | dict assignment: the key set gains the key, its value is the new one, other entries are kept, and keys stay distinct |
| EthPayments.PaidShape | util/eth_payments.py:103-115 | the poll fails exactly when some balance call fails; otherwise it holds only watched addresses, each once, each with its positive converted balance (tokens scaled by 10¹⁰), and every watched address whose balance is positive |
| EthPayments.PaidFails | util/eth_payments.py:106-112 | the poll fails exactly when some watched address's balance call fails |
| EthPayments.PaidEntries | util/eth_payments.py:105-115 | a successful poll holds only watched, answering addresses, each once, each with its positive converted balance |
| EthPayments.PaidCovers | util/eth_payments.py:113-114 | a successful poll holds every answering address whose converted balance is positive |
| EthPayments.PaidNoneSticks | util/eth_payments.py:106-112 | once a balance call has raised, the poll fails |
| EthPayments.Web3Helper.CheckBalance | util/eth_payments.py:103-115 | the loop computes the reference poll result |
| EthPayments.SkipWhenNoMinimum | util/eth_payments.py:141-143 | a non-positive minimum skips the address and changes nothing, not even pending |
| EthPayments.PendingOnlyCleared | util/eth_payments.py:145-146 | pending ends as pending-and-not-expired, is never set, and the step raises exactly for a pending Payment without a quote start |
| EthPayments.CreditAddsCalls | util/eth_payments.py:148-167 | value_added ≥ minimum grants int(value_added·calls/minimum), halved before truncation when not pending; the count grows by that amount; the Project is then activated exactly as Activate does, so it ends active and activated whenever its count exceeds its used calls; only the coin's amount (and pending) change |
| EthPayments.ProjectOnlyGains | util/eth_payments.py:150-165 | in every branch the call count does not decrease, used calls and identity are kept, and active/activated are only ever set, and only when count > used |
| EthPayments.ShortfallChangesNothing | util/eth_payments.py:148-173 | a shortfall or an unchanged balance leaves the Project and every Payment column but pending as they were |
| EthPayments.WithdrawalLowersAmount | util/eth_payments.py:174-177 | a balance drop lowers the coin's amount to the observed balance and leaves the Project alone |
| EthPayments.CreditIdempotent | util/eth_payments.py:141-177 | re-observing the balance just processed, at any clock reading, grants nothing, keeps the Project and every credited amount, and changes the Payment at most by clearing pending on expiry; at the same clock reading it changes nothing |
| EthPayments.ExpiredPaysHalf | util/eth_payments.py:155-159 | after expiry a payment grants half, rounded down, of what it grants while pending |
| EthPayments.ExactMinimumBuysMinCalls | util/eth_payments.py:155-156 | paying exactly the minimum while pending grants exactly min_api_calls |
| EthPayments.MatchingRowsExact | util/eth_payments.py:140 | the indices, in increasing order, of exactly the Payments holding the address |
| EthPayments.FindPayment | util/eth_payments.py:140 | a hit is the single Payment holding the address; a miss means no Payment or more than one |
| EthPayments.ProcessAllNoneSticks | util/eth_payments.py:139-177 | once an address has raised, the pass over the coin fails |
| EthPayments.ProcessKindsNoneSticks | util/eth_payments.py:135-177 | once a coin kind has failed, the chain pass fails |
| EthPayments.ApplyAtEvolves | util/eth_payments.py:139-177 | one address's turn keeps every Payment's addresses, quote, minimums and project, only clears pending, and keeps ProjectOnlyGains for every Project |
| EthPayments.EvolvesTransitive | util/eth_payments.py:135-177 | that relation composes over consecutive turns |
| EthPayments.ProcessAllEvolves | util/eth_payments.py:139-177 | a whole coin pass keeps the relation |
| EthPayments.ProcessKindsEvolves | util/eth_payments.py:135-177 | native then token pass keeps the relation |
| EthPayments.PassOnlyGains | util/eth_payments.py:117-177 | over a committed pass no call count decreases, used calls are kept, pending is never set, and activation happens only with count > used |
| EthPayments.PassKeepsActiveCovered | util/eth_payments.py:161-165 | a pass keeps every active Project covered by more granted than used calls |
| EthPayments.Activate | util/eth_payments.py:161-165 | active and activated become set exactly when count > used, and stay as they were otherwise; no other field changes |
| EthPayments.ActivateProject | util/eth_payments.py:163-165 | the activation statements compute Activate |
| EthPayments.Web3Helper.HandleCoin | util/eth_payments.py:136-177 | one coin kind: the balance poll, then the credits of its addresses, give the reference result for that kind |
| EthPayments.Web3Helper.HandleEvmEvent | util/eth_payments.py:117-177 | the store ends as the reference pass result when it succeeds, and unchanged (rolled back) when it raises; the result says which |
| EthPayments.CreditCoin | util/eth_payments.py:139-177 | the inner loop computes the reference pass over one coin's poll result |
| EthPayments.CreditAddress | util/eth_payments.py:139-177 | the loop body computes the reference turn: lookup, project, credit step |
| EthPayments.CreditPayment | util/eth_payments.py:141-177 | the statements after the lookup compute the reference credit step |
| EthPayments.SettlePayment | util/eth_payments.py:148-177 | after the minimum and expiry checks, the branches on value_added compute the reference credit step |
| PaymentProcessor.RecordCall | payment_processor.py:224-240 | a non-empty id's count grows by exactly 1 (starting at 1), others are kept, and the new count is reported; an empty id gets -1001 and changes nothing |
| PaymentProcessor.CallsAreCounted | payment_processor.py:226-230 | after any sequence of requests each non-empty id's count has grown by the number of requests naming it; the empty id is never cached |
| PaymentProcessor.MeteringCache.constructor | payment_processor.py:22 | the cache starts empty |
| PaymentProcessor.MeteringCache.ApiCount | payment_processor.py:224-240 | the new cache and the response are those of RecordCall |
| PaymentProcessor.Charge | payment_processor.py:36-41 | used calls grow by the count; active becomes active-and-not-exhausted; nothing else changes |
| PaymentProcessor.FlushCharges | payment_processor.py:29-43 | a successful flush charges each Project exactly its cached count, never activates one, deactivates an exhausted one, and empties the cache, skipped ids included |
| PaymentProcessor.FlushUnchangedUnlessCommitted | payment_processor.py:29-45 | an empty cache or a raising pass keeps the cache and the Project table |
| PaymentProcessor.FlushKeepsActiveCovered | payment_processor.py:36-41 | a successful flush keeps every active Project covered by unused calls |
| PaymentProcessor.MeteredCallsCharged | payment_processor.py:24-43 | calls counted from an empty cache all reach used_api_tokens at the next successful flush, for any request sequence: requests without an id, and an idle tick, charge nothing |
| PaymentProcessor.MeteringCache.Flush | payment_processor.py:24-45 | the loop over the cache gives the reference tick: new cache, new Project table, outcome; Payments untouched |
| PaymentProcessor.RejectsWithoutTwoAmounts | payment_processor.py:96-101 | the request is rejected with the amounts exactly when 9 or more of the 10 are missing |
| PaymentProcessor.RejectsWithoutAddress | payment_processor.py:113-121 | the no-address rejection happens exactly when enough amounts are quoted, there is no AVAX or NEVM address, and the ETH address is missing or withheld for lack of ETH/ABLOCK quotes |
| PaymentProcessor.CreatedDefaults | payment_processor.py:103-161 | a created Project has 6000000 calls, 0 used, inactive, not cancelled; the Payment is pending from now; its ETH address is '' when withheld for lack of an ETH or ABLOCK quote while the ETH token and key are stored regardless; every missing AVAX/NEVM token, address or key is ''; 0 is credited in each of the five amount columns written (amount_avax is not written); the reply offers the AVAX and NEVM addresses as generated and the ETH address only with an ETH or ABLOCK quote; the quote expires an hour later |
| PaymentProcessor.CreatedExpectedAmounts | payment_processor.py:146-155 | each of the ten expected amounts of a created Payment is the quoted amount, or -1 where that is missing |
| PaymentProcessor.CommitFailureReported | payment_processor.py:163-171 | a failing commit is reported exactly when both rejections were passed, and nothing is created |
| Common.Truncate | util/eth_payments.py:156-159 | reference definition of Python `int()` on a number: the floor for a non-negative one, minus the floor of its negation otherwise (bounds in TruncateBounds) |
| Common.FromWei | util/eth_payments.py:109 | `Web3.fromWei(w, 'ether')`: w divided by 10¹⁸ |
| Util.IsStale | util/__init__.py:44 | the refresh condition: nothing cached yet, or now − 60 > last update |
| Util.Lookup | util/__init__.py:39-55 | reference definition of one `get_*_amount` call: a stale cache is refreshed (a failed fetch returns None and keeps the cache), then the cached price converts the amount |
| PriceAvaxAablock.AvaxAablockPrice | util/price_avax_aablock.py:27-57 | reference definition: no provider gives None; an unanswered pool or a zero divisor raises; otherwise the USDT pool's WAVAX price, or its quotient by the AABLOCK pool's |
| EthPayments.Scaled | util/eth_payments.py:107-112 | a native balance in wei, or a token balance scaled by 10¹⁰ first, as whole coins |
| EthPayments.Paid | util/eth_payments.py:103-115 | reference definition of check_balance: the watched addresses in order, each positive converted balance assigned into the dict; None once a balance call raises |
| EthPayments.Grant | util/eth_payments.py:155-159 | int(value_added × min_api_calls / min_amount), the quotient halved before truncation when the quote is no longer pending |
| EthPayments.CreditStep | util/eth_payments.py:141-177 | reference definition of one address's turn: skip without a minimum, raise for a pending Payment without a quote start, expire the quote, then credit, ignore a shortfall or record a withdrawal |
| EthPayments.MatchingRows | util/eth_payments.py:140 | the indices of the Payments whose address on the chain is the given one, in table order |
| EthPayments.ApplyAt | util/eth_payments.py:139-177 | one address's turn against the store: lookup, its Project, the credit step, the two rows written back; None when any of them raises |
| EthPayments.ProcessAll | util/eth_payments.py:139-177 | the turns of one coin's poll result, in order, stopping at the first raise |
| EthPayments.ProcessKinds | util/eth_payments.py:135-177 | the coin kinds in order, each polled and then processed, stopping at the first failure |
| EthPayments.HandleSpec | util/eth_payments.py:117-177 | reference definition of handle_evm_event: the native coin, then the block token, of one chain |
| PaymentProcessor.RecordAll | payment_processor.py:224-240 | a sequence of api_count requests applied in arrival order |
| PaymentProcessor.FlushProjects | payment_processor.py:32-41 | every Project with a cached count is charged; the Project table keeps its keys |
| PaymentProcessor.FlushSpec | payment_processor.py:29-45 | reference definition of one tick: idle on an empty cache, everything kept when the session raises, otherwise the charged table and an empty cache |
| PaymentProcessor.NoneCount | payment_processor.py:96 | `list(amounts.values()).count(None)` |
| PaymentProcessor.EthAddressOffered | payment_processor.py:113-114 | the ETH address is withheld when none of the four ETH and ABLOCK amounts is quoted |
| PaymentProcessor.ExpectedAmounts | payment_processor.py:146-155 | each tier's expected amount is the quoted amount, or -1 where it is missing |
| PaymentProcessor.CreateProject | payment_processor.py:71-171 | reference definition of create_project from the quoted amounts, the generated key pairs, name, key, clock and commit outcome |
| Util.RouterPrice | util/__init__.py:34-35 | the router's getAmountsOut answer divided by 10² |
| Util.Prices.constructor | util/__init__.py:16-19 | the ETH and ABLOCK caches start with no price and no update time |
| PriceAablock.AablockPrices.constructor | util/price_aablock.py:71-72 | the AABLOCK cache starts with no price and no update time |
| PriceSysblock.SysPrices.constructor | util/price_sysblock.py:82-101 | the SYSBLOCK and SYS caches start with no price and no update time |
| EthPayments.Watched | util/eth_payments.py:85 | the watch-list filter: a quote start time is set and the chain's address is neither None nor empty |
| EthPayments.QuoteExpired | util/eth_payments.py:145 | the expiry test now > quote start + quote_valid_hours hours, strictly |
| EthPayments.PaymentEvolves | util/eth_payments.py:139-177 | what the watcher may do to a Payment: keep its addresses, quote start, minimums and Project, and only clear pending |
| EthPayments.ProjectEvolves | util/eth_payments.py:150-165 | what the watcher may do to a Project: keep its identity and used calls, never lower its count, and set active/activated only, and only when count > used |
| EthPayments.Evolves | util/eth_payments.py:135-177 | the two relations over a whole store: same rows and Project keys, each row and Project related to its old self |
| PaymentProcessor.TwoPresent | payment_processor.py:96 | at most n − 2 missing entries among n leave two present |
| PaymentProcessor.OnePresent | payment_processor.py:96 | at most n − 1 missing entries leave one present |
| PaymentProcessor.CreatedIsPayable | payment_processor.py:96-121 | every created project has two quoted amounts and at least one address, and an ETH address only with an ETH or ABLOCK quote |

## Left out

- Threads, the `while True` / `sleep` loops and the daemon start-up are left out: each loop is modelled as one pass.
- The race between concurrent `api_count_handler` calls and the flush's reassignment of the cache is concurrency; the two operations are modelled as strictly sequential.
- Flask routing and JSON response building are left out; responses are datatypes.
- Web3 provider construction, the RPC calls, the ccxt ticker, key generation, `uuid4`, `token_urlsafe` and the clock are inputs to the model.
- PaymentProcessor.CreateProject: its three key pairs are free inputs. payment_processor.py:103-105 calls `get_eth_address()`, `get_avax_address()` and `get_nevm_address()`, which `Web3Helper` does not define. It has only `get_evm_address(evm, token)` (util/eth_payments.py:90-100), which returns an address and a key, not a token, address and key. As written, every request that passes the amount check raises AttributeError at payment_processor.py:103. The model reads the calls as the intended key generation, with each part possibly missing.
- Binary floating point is not modelled: amounts are exact reals. `'{:.6f}'` is modelled as half-even rounding of the exact value, `float(Web3.fromWei(...))` as exact division by 10¹⁸.
- The `eval`-built field access of the watcher is replaced by a coin datatype with per-coin columns.
- The ORM declarations, the SQL migration script and the second entry point (`main.py`) are not part of this model.
- NULL columns other than the quote start time and the addresses are not modelled. A missing address is the empty string, which the watch-list query treats the same as NULL.
- The flush's guard that turns a falsy or non-integer count into 0 is the identity on the integer counts the cache holds, so it is not a separate step.
- The price calls inside `create_project` are not repeated there: its ten amounts are inputs. Eight come from `get_*_amount` functions this model covers. The two WSYS amounts come from `get_wsys_amount` (payment_processor.py:13 and :82-83), which the `util` package does not define; they are free inputs. `SysPrices.GetSysAmount` models `get_sys_amount`, a different function. The discount factors and the tier targets they are applied to are not modelled either, because the source reads names (`discount_ablock`, …) that its `util` package does not define.
- PaymentProcessor.CreateProject: its amounts are `Option<real>`. A zero cached price makes a `get_*_amount` call raise ZeroDivisionError (the `DivisionByZero` quote); that exception escapes `create_project` (payment_processor.py:74-83) and is not an outcome of this model.
- PriceSysblock: the module uses names it never defines or imports (`w3_conn` at util/price_sysblock.py:29-30, `WSYS` and `USDT` at :105), builds the SYSBLOCK pool contract through `provider_avax` with `provider_nevm`'s checksum helper (:58), and points it at the placeholder address `'0xtbd'` (:25). The model reads these as the intended router, tokens and pool: their answers are inputs. As written, these lines raise inside the callers' `try` blocks. The handlers then call `logging.critical` (:90, :108), and the module does not import `logging` (:1-4), so that call raises NameError, which escapes `get_sysblock_amount` and `get_sys_amount`. Only once that import is supplied would every SYS and SYSBLOCK lookup report a failed fetch.
- `min_api_calls` and `quote_valid_hours`, which the watcher uses but the source never defines, are parameters (`Params`).
- The watcher's Payment columns (`min_amount_<coin>`, `quote_start_time`) and the columns `create_project` writes (`tier*_expected_amount_*`, `start_time`) have different names in the source. They are modelled as two record types, `Records.Payment` and `PaymentProcessor.QuotedPayment`, and no mapping between them is assumed.
- The missing `time` / `logging` imports and the unassigned globals of the pool-price modules are read as intended: the caches start empty and logging is dropped.
- A Payment whose Project is missing cannot occur, because `project = Required(Project)` (database/models.py:26). `ApplyAt` still treats it as a failed (rolled-back) pass on every branch, whereas the source reads `payment_obj.project` only in the credit, shortfall and withdrawal branches (util/eth_payments.py:151-177), not when it skips the address or the balance is unchanged.
- PaymentProcessor.CreateProject: the `activated` column is not set by the source, so the model assumes false.
- PaymentProcessor.MeteringCache.Flush: any exception in the session, from the lookups or the commit, is one boolean input (`commitOk`), and it is tested after the loop; the rollback makes the point of failure irrelevant.
- EthPayments.Web3Helper.HandleEvmEvent: the exception that aborts a pass is one outcome, with the session rolled back; it does not say which address or call raised.
- EthPayments.HandleSpec and EthPayments.Web3Helper.HandleEvmEvent: one clock reading `now` serves the whole pass, whereas the source calls `datetime.datetime.now()` once per address (util/eth_payments.py:145). Likewise `Util.Lookup` uses one `now` for the staleness test and the new timestamp, where the source reads `time.time()` twice (util/__init__.py:44, :47).
