/** The deposit watcher of util/eth_payments.py: the coin table, the watch list,
    the balance poll, the per-address crediting rule and one pass over a chain. */
module EthPayments {
  import opened Common
  import opened Records

  // ---------------------------------------------------------------------------
  // The coin_names table: coin_names[evm][True] is the chain's native coin,
  // coin_names[evm][False] its block token.

  function ChainOf(c: Coin): Evm
  {
    match c
    case Eth => EthChain
    case Ablock => EthChain
    case Avax => AvaxChain
    case Aablock => AvaxChain
    case Wsys => NevmChain
    case Sysblock => NevmChain
  }

  function IsNative(c: Coin): bool
  {
    c == Eth || c == Avax || c == Wsys
  }

  function CoinName(evm: Evm, native: bool): (c: Coin)
    ensures ChainOf(c) == evm && IsNative(c) == native
  {
    match evm
    case EthChain => if native then Eth else Ablock
    case AvaxChain => if native then Avax else Aablock
    case NevmChain => if native then Wsys else Sysblock
  }

  /** Every coin appears in the table exactly once, under its own chain. */
  lemma CoinNamesCoverEveryCoin(c: Coin)
    ensures CoinName(ChainOf(c), IsNative(c)) == c
  {
  }

  // ---------------------------------------------------------------------------
  // fetch_evm_accounts

  /** The query of fetch_evm_accounts: a quote start time is set and the
      address on this chain is neither None nor empty. */
  predicate Watched(p: Payment, evm: Evm)
  {
    p.quoteStartTime.Some? && p.AddressOn(evm) != ""
  }

  /** The addresses of the matching Payments, in table order. */
  function WatchList(payments: seq<Payment>, evm: Evm): (r: seq<string>)
    ensures |r| <= |payments|
    ensures forall i :: 0 <= i < |payments| && Watched(payments[i], evm) ==> payments[i].AddressOn(evm) in r
    ensures forall a :: a in r ==>
              a != "" && exists i :: 0 <= i < |payments| && Watched(payments[i], evm) && payments[i].AddressOn(evm) == a
    decreases |payments|
  {
    if payments == [] then []
    else
      var front := payments[..|payments| - 1];
      var last := payments[|payments| - 1];
      assert forall i :: 0 <= i < |front| ==> front[i] == payments[i];
      var r := WatchList(front, evm);
      if Watched(last, evm) then r + [last.AddressOn(evm)] else r
  }

  // ---------------------------------------------------------------------------
  // check_balance

  /** A balance in whole coins: native balances are wei; block-token balances
      are scaled by 10^10 before the same conversion. */
  function Scaled(balance: nat, native: bool): real
  {
    if native then FromWei(balance) else FromWei(balance * Pow10(10))
  }

  function Keys(p: seq<(string, real)>): set<string>
  {
    set j | 0 <= j < |p| :: p[j].0
  }

  predicate DistinctKeys(p: seq<(string, real)>)
  {
    forall j, k :: 0 <= j < k < |p| ==> p[j].0 != p[k].0
  }

  /** paid[a] = v on an insertion-ordered dict: an existing key keeps its place
      and takes the new value, a new key goes last. */
  function Assign(p: seq<(string, real)>, a: string, v: real): (r: seq<(string, real)>)
    ensures Keys(r) == Keys(p) + {a}
    ensures DistinctKeys(p) ==> DistinctKeys(r)
    ensures forall j :: 0 <= j < |r| && r[j].0 == a ==> r[j].1 == v
    ensures forall j :: 0 <= j < |r| && r[j].0 != a ==> r[j] in p
    ensures a !in Keys(p) ==> r == p + [(a, v)]
  {
    if a in Keys(p) then
      var r := seq(|p|, j requires 0 <= j < |p| => if p[j].0 == a then (a, v) else p[j]);
      assert forall j :: 0 <= j < |p| ==> r[j].0 == p[j].0;
      assert Keys(r) == Keys(p) by {
        forall x | x in Keys(p) ensures x in Keys(r) {
          var j :| 0 <= j < |p| && p[j].0 == x;
          assert r[j].0 == x;
        }
      }
      r
    else
      var r := p + [(a, v)];
      assert Keys(r) == Keys(p) + {a} by {
        assert r[|p|].0 == a;
        forall x | x in Keys(p) ensures x in Keys(r) {
          var j :| 0 <= j < |p| && p[j].0 == x;
          assert r[j].0 == x;
        }
      }
      r
  }

  /** Reference definition of check_balance: the positive balances of the
      watched addresses, or None when a balance call raises. */
  function Paid(accounts: seq<string>, balances: string -> Rpc<nat>, native: bool): Option<seq<(string, real)>>
    decreases |accounts|
  {
    if accounts == [] then Some([])
    else
      match Paid(accounts[..|accounts| - 1], balances, native)
      case None => None
      case Some(p) =>
        var a := accounts[|accounts| - 1];
        match balances(a)
        case RpcFailed => None
        case Answered(b) =>
          var amount := Scaled(b, native);
          if amount > 0.0 then Some(Assign(p, a, amount)) else Some(p)
  }

  /** Once a balance call has raised, the rest of the poll cannot recover. */
  lemma {:induction false} PaidNoneSticks(accounts: seq<string>, balances: string -> Rpc<nat>, native: bool, i: nat)
    requires i <= |accounts|
    requires Paid(accounts[..i], balances, native).None?
    ensures Paid(accounts, balances, native).None?
    decreases |accounts|
  {
    if i < |accounts| {
      var front := accounts[..|accounts| - 1];
      assert front[..i] == accounts[..i];
      PaidNoneSticks(front, balances, native, i);
    } else {
      assert accounts[..i] == accounts;
    }
  }

  /** check_balance fails exactly when some balance call fails. */
  lemma {:induction false} PaidFails(accounts: seq<string>, balances: string -> Rpc<nat>, native: bool)
    ensures Paid(accounts, balances, native).None? <==>
              exists a :: a in accounts && balances(a).RpcFailed?
    decreases |accounts|
  {
    if accounts != [] {
      var front := accounts[..|accounts| - 1];
      var a := accounts[|accounts| - 1];
      assert accounts == front + [a];
      PaidFails(front, balances, native);
    }
  }

  /** The entries of a successful poll: watched addresses, each once, each with
      its strictly positive converted balance. */
  lemma {:induction false} PaidEntries(accounts: seq<string>, balances: string -> Rpc<nat>, native: bool)
    ensures Paid(accounts, balances, native).Some? ==>
              var p := Paid(accounts, balances, native).value;
              DistinctKeys(p) &&
              forall j :: 0 <= j < |p| ==>
                p[j].0 in accounts && balances(p[j].0).Answered? &&
                p[j].1 == Scaled(balances(p[j].0).value, native) && p[j].1 > 0.0
    decreases |accounts|
  {
    if accounts != [] {
      var front := accounts[..|accounts| - 1];
      var a := accounts[|accounts| - 1];
      assert accounts == front + [a];
      PaidEntries(front, balances, native);
      var pf := Paid(front, balances, native);
      if pf.Some? && balances(a).Answered? {
        var p := Paid(accounts, balances, native).value;
        var amount := Scaled(balances(a).value, native);
        forall j | 0 <= j < |p|
          ensures p[j].0 in accounts && balances(p[j].0).Answered? &&
                  p[j].1 == Scaled(balances(p[j].0).value, native) && p[j].1 > 0.0
        {
          if amount > 0.0 && p[j].0 != a {
            assert p[j] in pf.value;
            var k :| 0 <= k < |pf.value| && pf.value[k] == p[j];
          }
        }
      }
    }
  }

  /** Every answering address with a positive balance is among the entries of
      a successful poll. */
  lemma {:induction false} PaidCovers(accounts: seq<string>, balances: string -> Rpc<nat>, native: bool)
    ensures Paid(accounts, balances, native).Some? ==>
              forall a :: a in accounts && balances(a).Answered? && Scaled(balances(a).value, native) > 0.0 ==>
                a in Keys(Paid(accounts, balances, native).value)
    decreases |accounts|
  {
    if accounts != [] {
      var front := accounts[..|accounts| - 1];
      var a := accounts[|accounts| - 1];
      assert accounts == front + [a];
      PaidCovers(front, balances, native);
      var pf := Paid(front, balances, native);
      if pf.Some? && balances(a).Answered? {
        var p := Paid(accounts, balances, native).value;
        forall x | x in accounts && balances(x).Answered? && Scaled(balances(x).value, native) > 0.0
          ensures x in Keys(p)
        {
          if x != a { assert x in front; }
        }
      }
    }
  }

  /** check_balance returns only watched addresses, each once, each with its
      strictly positive converted balance, and every watched address whose
      balance is positive; it fails exactly when some balance call fails. */
  lemma PaidShape(accounts: seq<string>, balances: string -> Rpc<nat>, native: bool)
    ensures Paid(accounts, balances, native).None? <==>
              exists a :: a in accounts && balances(a).RpcFailed?
    ensures Paid(accounts, balances, native).Some? ==>
              var p := Paid(accounts, balances, native).value;
              DistinctKeys(p) &&
              (forall j :: 0 <= j < |p| ==>
                 p[j].0 in accounts && balances(p[j].0).Answered? &&
                 p[j].1 == Scaled(balances(p[j].0).value, native) && p[j].1 > 0.0) &&
              (forall a :: a in accounts && Scaled(balances(a).value, native) > 0.0 ==> a in Keys(p))
  {
    PaidFails(accounts, balances, native);
    PaidEntries(accounts, balances, native);
    PaidCovers(accounts, balances, native);
  }

  // ---------------------------------------------------------------------------
  // The crediting rule of handle_evm_event for one address.

  /** Inputs the source takes from names it never defines: the number of calls
      one minimum payment buys (min_api_calls) and the quote's lifetime in hours
      (quote_valid_hours). */
  datatype Params = Params(minApiCalls: nat, quoteValidHours: int)

  /** Which branch an address took. */
  datatype Credit = Skipped | Credited(calls: int) | TooLow | Withdrawn | Unchanged

  datatype StepResult = StepOk(payment: Payment, project: Project, credit: Credit) | StepRaised

  /** now > quote_start_time + timedelta(hours=quote_valid_hours), in seconds. */
  predicate QuoteExpired(pay: Payment, now: int, prm: Params)
    requires pay.quoteStartTime.Some?
  {
    now > pay.quoteStartTime.value + prm.quoteValidHours * 3600
  }

  /** int(value_added * min_api_calls / min_amount), halved before truncation
      once the quote is no longer pending. */
  function Grant(valueAdded: real, minAmount: real, minApiCalls: nat, pending: bool): int
    requires minAmount > 0.0
  {
    var full := valueAdded * minApiCalls as real / minAmount;
    if pending then Truncate(full) else Truncate(full / 2.0)
  }

  /** A Project that has more calls granted than used becomes active and is
      marked as activated; otherwise it is left as it is. */
  function Activate(p: Project): (r: Project)
    ensures r.active == (p.active || p.apiTokenCount > p.usedApiTokens)
    ensures r.activated == (p.activated || p.apiTokenCount > p.usedApiTokens)
    ensures r.(active := p.active, activated := p.activated) == p
  {
    if p.apiTokenCount > p.usedApiTokens then p.(active := true, activated := true) else p
  }

  /** Reference definition of one address's turn in handle_evm_event, given
      its Payment, that Payment's Project and the observed balance. StepRaised
      is the TypeError of a pending Payment without a quote start time. */
  function CreditStep(pay: Payment, proj: Project, coin: Coin, value: real, now: int, prm: Params): StepResult
  {
    var minAmount := pay.minAmount.Get(coin);
    if minAmount <= 0.0 then StepOk(pay, proj, Skipped)
    else if pay.pending && pay.quoteStartTime.None? then StepRaised
    else
      var pay1 := if pay.pending && QuoteExpired(pay, now, prm) then pay.(pending := false) else pay;
      var valueAdded := value - pay1.amount.Get(coin);
      if valueAdded >= minAmount then
        var calls := Grant(valueAdded, minAmount, prm.minApiCalls, pay1.pending);
        var proj1 := Activate(proj.(apiTokenCount := proj.apiTokenCount + calls));
        StepOk(pay1.(amount := pay1.amount.Set(coin, value)), proj1, Credited(calls))
      else if valueAdded > 0.0 then StepOk(pay1, proj, TooLow)
      else if valueAdded < 0.0 then StepOk(pay1.(amount := pay1.amount.Set(coin, value)), proj, Withdrawn)
      else StepOk(pay1, proj, Unchanged)
  }

  /** A non-positive minimum skips the address: nothing changes, not even pending. */
  lemma SkipWhenNoMinimum(pay: Payment, proj: Project, coin: Coin, value: real, now: int, prm: Params)
    requires pay.minAmount.Get(coin) <= 0.0
    ensures CreditStep(pay, proj, coin, value, now, prm) == StepOk(pay, proj, Skipped)
  {
  }

  /** pending is cleared exactly when the quote has expired, and never set. */
  lemma PendingOnlyCleared(pay: Payment, proj: Project, coin: Coin, value: real, now: int, prm: Params)
    ensures CreditStep(pay, proj, coin, value, now, prm).StepOk? ==>
              var pay' := CreditStep(pay, proj, coin, value, now, prm).payment;
              (pay'.pending ==> pay.pending) &&
              (pay.minAmount.Get(coin) > 0.0 ==>
                 pay'.pending == (pay.pending && !QuoteExpired(pay, now, prm)))
    ensures CreditStep(pay, proj, coin, value, now, prm).StepRaised? <==>
              pay.minAmount.Get(coin) > 0.0 && pay.pending && pay.quoteStartTime.None?
  {
  }

  /** A payment of at least the minimum adds int(value_added * calls / minimum)
      while the quote is pending and half of that otherwise; the Project with
      the raised count is activated when it then has more calls than it used;
      the coin's credited amount, and no other column, becomes the observed
      balance. */
  lemma CreditAddsCalls(pay: Payment, proj: Project, coin: Coin, value: real, now: int, prm: Params)
    requires pay.minAmount.Get(coin) > 0.0
    requires CreditStep(pay, proj, coin, value, now, prm).StepOk?
    ensures var r := CreditStep(pay, proj, coin, value, now, prm);
            var valueAdded := value - pay.amount.Get(coin);
            var minAmount := pay.minAmount.Get(coin);
            valueAdded >= minAmount ==>
              r.credit.Credited? &&
              r.credit.calls == Grant(valueAdded, minAmount, prm.minApiCalls, r.payment.pending) &&
              r.credit.calls >= 0 &&
              r.project.apiTokenCount == proj.apiTokenCount + r.credit.calls &&
              r.project == Activate(proj.(apiTokenCount := proj.apiTokenCount + r.credit.calls)) &&
              (r.project.apiTokenCount > r.project.usedApiTokens ==> r.project.active && r.project.activated) &&
              r.payment == pay.(pending := r.payment.pending, amount := pay.amount.Set(coin, value))
  {
    var valueAdded := value - pay.amount.Get(coin);
    var minAmount := pay.minAmount.Get(coin);
    if valueAdded >= minAmount {
      assert valueAdded * prm.minApiCalls as real >= 0.0;
      assert valueAdded * prm.minApiCalls as real / minAmount >= 0.0;
    }
  }

  /** In every branch the call count never decreases, used calls and the
      project's identity are untouched, and active/activated are only ever set,
      and only when the count exceeds the used calls. */
  lemma ProjectOnlyGains(pay: Payment, proj: Project, coin: Coin, value: real, now: int, prm: Params)
    requires CreditStep(pay, proj, coin, value, now, prm).StepOk?
    ensures ProjectEvolves(proj, CreditStep(pay, proj, coin, value, now, prm).project)
  {
    var minAmount := pay.minAmount.Get(coin);
    if minAmount > 0.0 {
      var pay1 := if pay.pending && QuoteExpired(pay, now, prm) then pay.(pending := false) else pay;
      var valueAdded := value - pay1.amount.Get(coin);
      if valueAdded >= minAmount {
        assert valueAdded * prm.minApiCalls as real >= 0.0;
        assert valueAdded * prm.minApiCalls as real / minAmount >= 0.0;
      }
    }
  }

  /** A shortfall or an unchanged balance leaves the Project and every column
      of the Payment but pending as they were. */
  lemma ShortfallChangesNothing(pay: Payment, proj: Project, coin: Coin, value: real, now: int, prm: Params)
    requires value - pay.amount.Get(coin) < pay.minAmount.Get(coin)
    requires value - pay.amount.Get(coin) >= 0.0
    requires CreditStep(pay, proj, coin, value, now, prm).StepOk?
    ensures var r := CreditStep(pay, proj, coin, value, now, prm);
            r.project == proj && r.payment == pay.(pending := r.payment.pending) && !r.credit.Credited?
  {
  }

  /** A balance drop lowers the coin's credited amount to the observed balance
      and leaves the Project, its call count and its active flag alone. */
  lemma WithdrawalLowersAmount(pay: Payment, proj: Project, coin: Coin, value: real, now: int, prm: Params)
    requires pay.minAmount.Get(coin) > 0.0
    requires value < pay.amount.Get(coin)
    requires CreditStep(pay, proj, coin, value, now, prm).StepOk?
    ensures var r := CreditStep(pay, proj, coin, value, now, prm);
            r.credit == Withdrawn && r.project == proj &&
            r.payment == pay.(pending := r.payment.pending, amount := pay.amount.Set(coin, value)) &&
            r.payment.amount.Get(coin) < pay.amount.Get(coin)
  {
  }

  /** Re-observing the balance just processed, at any later poll, grants
      nothing more, leaves the Project and the credited amounts alone and at
      most lets the quote expire; at the same clock reading it changes nothing. */
  lemma CreditIdempotent(pay: Payment, proj: Project, coin: Coin, value: real, now: int, later: int, prm: Params)
    requires CreditStep(pay, proj, coin, value, now, prm).StepOk?
    ensures var r := CreditStep(pay, proj, coin, value, now, prm);
            var again := CreditStep(r.payment, r.project, coin, value, later, prm);
            again.StepOk? && again.project == r.project && !again.credit.Credited? &&
            again.payment.amount == r.payment.amount &&
            again.payment.(pending := r.payment.pending) == r.payment &&
            (later == now ==> again.payment == r.payment)
  {
    var r := CreditStep(pay, proj, coin, value, now, prm);
    var again := CreditStep(r.payment, r.project, coin, value, later, prm);
    if pay.minAmount.Get(coin) > 0.0 {
      var pay1 := if pay.pending && QuoteExpired(pay, now, prm) then pay.(pending := false) else pay;
      var pay2 := if r.payment.pending && QuoteExpired(r.payment, later, prm)
                  then r.payment.(pending := false) else r.payment;
      assert r.payment.pending ==> !QuoteExpired(r.payment, now, prm);
      assert pay2.amount == r.payment.amount && pay2.(pending := r.payment.pending) == r.payment;
      if r.credit.Credited? || r.credit.Withdrawn? {
        assert r.payment.amount.Get(coin) == value;
        assert again == StepOk(pay2, r.project, Unchanged);
      } else {
        assert r.payment == pay1 && r.project == proj;
        assert again == StepOk(pay2, r.project, r.credit);
      }
    }
  }

  /** After expiry a payment buys half the calls, rounded down, of the same
      payment made while the quote was pending. */
  lemma ExpiredPaysHalf(valueAdded: real, minAmount: real, minApiCalls: nat)
    requires minAmount > 0.0 && valueAdded >= 0.0
    ensures Grant(valueAdded, minAmount, minApiCalls, false) == Grant(valueAdded, minAmount, minApiCalls, true) / 2
  {
    var full := valueAdded * minApiCalls as real / minAmount;
    assert valueAdded * minApiCalls as real >= 0.0;
    assert full >= 0.0;
    TruncateHalf(full);
  }

  /** Paying exactly the minimum while pending buys exactly min_api_calls. */
  lemma ExactMinimumBuysMinCalls(minAmount: real, minApiCalls: nat)
    requires minAmount > 0.0
    ensures Grant(minAmount, minAmount, minApiCalls, true) == minApiCalls
  {
    assert minAmount * minApiCalls as real / minAmount == minApiCalls as real;
  }

  // ---------------------------------------------------------------------------
  // One pass of handle_evm_event over a chain.

  /** Payment.get(<evm>_address=addr): the one row with that address; None when
      there is none (the attribute access that follows raises) or several (get
      raises). */
  function MatchingRows(ps: seq<Payment>, evm: Evm, addr: string): seq<nat>
    decreases |ps|
  {
    if ps == [] then []
    else
      var rows := MatchingRows(ps[..|ps| - 1], evm, addr);
      if ps[|ps| - 1].AddressOn(evm) == addr then rows + [|ps| - 1] else rows
  }

  /** Every row found holds the address. */
  lemma {:induction false} MatchingRowsSound(ps: seq<Payment>, evm: Evm, addr: string)
    ensures forall k :: 0 <= k < |MatchingRows(ps, evm, addr)| ==>
              MatchingRows(ps, evm, addr)[k] < |ps| && ps[MatchingRows(ps, evm, addr)[k]].AddressOn(evm) == addr
    decreases |ps|
  {
    if ps != [] {
      var front := ps[..|ps| - 1];
      var n := |ps| - 1;
      MatchingRowsSound(front, evm, addr);
      var r := MatchingRows(front, evm, addr);
      forall k | 0 <= k < |r| ensures front[r[k]] == ps[r[k]] { }
      if ps[n].AddressOn(evm) == addr {
        assert MatchingRows(ps, evm, addr) == r + [n];
      }
    }
  }

  /** Every row holding the address is found. */
  lemma {:induction false} MatchingRowsComplete(ps: seq<Payment>, evm: Evm, addr: string)
    ensures forall i :: 0 <= i < |ps| && ps[i].AddressOn(evm) == addr ==> i in MatchingRows(ps, evm, addr)
    decreases |ps|
  {
    if ps != [] {
      var front := ps[..|ps| - 1];
      var n := |ps| - 1;
      MatchingRowsComplete(front, evm, addr);
      assert forall i :: 0 <= i < |front| ==> front[i] == ps[i];
    }
  }

  /** The rows are found in increasing order. */
  lemma {:induction false} MatchingRowsSorted(ps: seq<Payment>, evm: Evm, addr: string)
    ensures forall k, l :: 0 <= k < l < |MatchingRows(ps, evm, addr)| ==>
              MatchingRows(ps, evm, addr)[k] < MatchingRows(ps, evm, addr)[l]
    decreases |ps|
  {
    if ps != [] {
      var front := ps[..|ps| - 1];
      MatchingRowsSorted(front, evm, addr);
      MatchingRowsSound(front, evm, addr);
    }
  }

  /** The rows found are, in increasing order, exactly those holding the address. */
  lemma MatchingRowsExact(ps: seq<Payment>, evm: Evm, addr: string)
    ensures forall k :: 0 <= k < |MatchingRows(ps, evm, addr)| ==>
              MatchingRows(ps, evm, addr)[k] < |ps| && ps[MatchingRows(ps, evm, addr)[k]].AddressOn(evm) == addr
    ensures forall i :: 0 <= i < |ps| && ps[i].AddressOn(evm) == addr ==> i in MatchingRows(ps, evm, addr)
    ensures forall k, l :: 0 <= k < l < |MatchingRows(ps, evm, addr)| ==>
              MatchingRows(ps, evm, addr)[k] < MatchingRows(ps, evm, addr)[l]
  {
    MatchingRowsSound(ps, evm, addr);
    MatchingRowsComplete(ps, evm, addr);
    MatchingRowsSorted(ps, evm, addr);
  }

  function FindPayment(ps: seq<Payment>, evm: Evm, addr: string): (r: Option<nat>)
    ensures r.Some? ==>
              r.value < |ps| && ps[r.value].AddressOn(evm) == addr &&
              forall j :: 0 <= j < |ps| && ps[j].AddressOn(evm) == addr ==> j == r.value
    ensures r.None? ==>
              forall i :: 0 <= i < |ps| && ps[i].AddressOn(evm) == addr ==>
                exists j :: 0 <= j < |ps| && j != i && ps[j].AddressOn(evm) == addr
  {
    var rows := MatchingRows(ps, evm, addr);
    MatchingRowsExact(ps, evm, addr);
    if |rows| == 1 then Some(rows[0])
    else
      assert forall i :: 0 <= i < |ps| && ps[i].AddressOn(evm) == addr ==>
               |rows| >= 2 && (rows[0] != i || rows[1] != i);
      None
  }

  /** One address's turn against the store; None when the lookup, the Project
      or the step raises. */
  function ApplyAt(s: StoreState, evm: Evm, coin: Coin, entry: (string, real), now: int, prm: Params): Option<StoreState>
  {
    match FindPayment(s.payments, evm, entry.0)
    case None => None
    case Some(i) =>
      var pay := s.payments[i];
      if pay.project !in s.projects then None
      else
        match CreditStep(pay, s.projects[pay.project], coin, entry.1, now, prm)
        case StepRaised => None
        case StepOk(pay', proj', _) =>
          Some(StoreState(s.payments[i := pay'], s.projects[pay.project := proj']))
  }

  /** The addresses of one coin, in the order check_balance returned them. */
  function ProcessAll(s: StoreState, evm: Evm, coin: Coin, paid: seq<(string, real)>, now: int, prm: Params): Option<StoreState>
    decreases |paid|
  {
    if paid == [] then Some(s)
    else
      match ProcessAll(s, evm, coin, paid[..|paid| - 1], now, prm)
      case None => None
      case Some(s1) => ApplyAt(s1, evm, coin, paid[|paid| - 1], now, prm)
  }

  /** The native coin first, then the block token. */
  const CoinKinds: seq<bool> := [true, false]

  function ProcessKinds(s: StoreState, evm: Evm, accounts: seq<string>,
                        nativeBalances: string -> Rpc<nat>, tokenBalances: string -> Rpc<nat>,
                        kinds: seq<bool>, now: int, prm: Params): Option<StoreState>
    decreases |kinds|
  {
    if kinds == [] then Some(s)
    else
      match ProcessKinds(s, evm, accounts, nativeBalances, tokenBalances, kinds[..|kinds| - 1], now, prm)
      case None => None
      case Some(s1) =>
        var native := kinds[|kinds| - 1];
        match Paid(accounts, if native then nativeBalances else tokenBalances, native)
        case None => None
        case Some(paid) => ProcessAll(s1, evm, CoinName(evm, native), paid, now, prm)
  }

  /** Reference definition of handle_evm_event: the new store, or None when the
      pass raised and its session rolled back. */
  function HandleSpec(s: StoreState, evm: Evm, accounts: seq<string>,
                      nativeBalances: string -> Rpc<nat>, tokenBalances: string -> Rpc<nat>,
                      now: int, prm: Params): Option<StoreState>
  {
    ProcessKinds(s, evm, accounts, nativeBalances, tokenBalances, CoinKinds, now, prm)
  }

  lemma {:induction false} ProcessAllNoneSticks(s: StoreState, evm: Evm, coin: Coin, paid: seq<(string, real)>,
                                                now: int, prm: Params, j: nat)
    requires j <= |paid|
    requires ProcessAll(s, evm, coin, paid[..j], now, prm).None?
    ensures ProcessAll(s, evm, coin, paid, now, prm).None?
    decreases |paid|
  {
    if j < |paid| {
      var front := paid[..|paid| - 1];
      assert front[..j] == paid[..j];
      ProcessAllNoneSticks(s, evm, coin, front, now, prm, j);
    } else {
      assert paid[..j] == paid;
    }
  }

  // ---------------------------------------------------------------------------
  // What a pass may change.

  /** The watcher keeps a Payment's addresses, quote, minimums and Project, and
      can only clear pending. */
  predicate PaymentEvolves(p: Payment, q: Payment)
  {
    && q.ethAddress == p.ethAddress && q.avaxAddress == p.avaxAddress && q.nevmAddress == p.nevmAddress
    && q.quoteStartTime == p.quoteStartTime && q.minAmount == p.minAmount && q.project == p.project
    && (q.pending ==> p.pending)
  }

  /** The watcher keeps a Project's identity and used calls, never lowers its
      call count, and sets active/activated only when count > used. */
  predicate ProjectEvolves(p: Project, q: Project)
  {
    && q.name == p.name && q.apiKey == p.apiKey && q.userCancelled == p.userCancelled
    && q.usedApiTokens == p.usedApiTokens
    && q.apiTokenCount >= p.apiTokenCount
    && (p.active ==> q.active) && (p.activated ==> q.activated)
    && (q.active && !p.active ==> q.apiTokenCount > q.usedApiTokens)
    && (q.activated && !p.activated ==> q.apiTokenCount > q.usedApiTokens)
  }

  ghost predicate Evolves(s: StoreState, t: StoreState)
  {
    && |t.payments| == |s.payments|
    && (forall i :: 0 <= i < |s.payments| ==> PaymentEvolves(s.payments[i], t.payments[i]))
    && t.projects.Keys == s.projects.Keys
    && (forall name :: name in s.projects ==> ProjectEvolves(s.projects[name], t.projects[name]))
  }

  lemma EvolvesTransitive(s: StoreState, t: StoreState, u: StoreState)
    requires Evolves(s, t) && Evolves(t, u)
    ensures Evolves(s, u)
  {
    forall name | name in s.projects
      ensures ProjectEvolves(s.projects[name], u.projects[name])
    {
      assert ProjectEvolves(s.projects[name], t.projects[name]);
      assert ProjectEvolves(t.projects[name], u.projects[name]);
    }
  }

  lemma ApplyAtEvolves(s: StoreState, evm: Evm, coin: Coin, entry: (string, real), now: int, prm: Params)
    requires ApplyAt(s, evm, coin, entry, now, prm).Some?
    ensures Evolves(s, ApplyAt(s, evm, coin, entry, now, prm).value)
  {
    var i := FindPayment(s.payments, evm, entry.0).value;
    var pay := s.payments[i];
    var r := CreditStep(pay, s.projects[pay.project], coin, entry.1, now, prm);
    ProjectOnlyGains(pay, s.projects[pay.project], coin, entry.1, now, prm);
    var t := ApplyAt(s, evm, coin, entry, now, prm).value;
    forall name | name in s.projects
      ensures ProjectEvolves(s.projects[name], t.projects[name])
    {
    }
  }

  lemma {:induction false} ProcessAllEvolves(s: StoreState, evm: Evm, coin: Coin, paid: seq<(string, real)>, now: int, prm: Params)
    requires ProcessAll(s, evm, coin, paid, now, prm).Some?
    ensures Evolves(s, ProcessAll(s, evm, coin, paid, now, prm).value)
    decreases |paid|
  {
    if paid != [] {
      var front := paid[..|paid| - 1];
      ProcessAllEvolves(s, evm, coin, front, now, prm);
      var s1 := ProcessAll(s, evm, coin, front, now, prm).value;
      ApplyAtEvolves(s1, evm, coin, paid[|paid| - 1], now, prm);
      EvolvesTransitive(s, s1, ProcessAll(s, evm, coin, paid, now, prm).value);
    }
  }

  lemma {:induction false} ProcessKindsEvolves(s: StoreState, evm: Evm, accounts: seq<string>,
                                               nativeBalances: string -> Rpc<nat>, tokenBalances: string -> Rpc<nat>,
                                               kinds: seq<bool>, now: int, prm: Params)
    requires ProcessKinds(s, evm, accounts, nativeBalances, tokenBalances, kinds, now, prm).Some?
    ensures Evolves(s, ProcessKinds(s, evm, accounts, nativeBalances, tokenBalances, kinds, now, prm).value)
    decreases |kinds|
  {
    if kinds != [] {
      var front := kinds[..|kinds| - 1];
      ProcessKindsEvolves(s, evm, accounts, nativeBalances, tokenBalances, front, now, prm);
      var s1 := ProcessKinds(s, evm, accounts, nativeBalances, tokenBalances, front, now, prm).value;
      var native := kinds[|kinds| - 1];
      var paid := Paid(accounts, if native then nativeBalances else tokenBalances, native).value;
      ProcessAllEvolves(s1, evm, CoinName(evm, native), paid, now, prm);
      EvolvesTransitive(s, s1, ProcessKinds(s, evm, accounts, nativeBalances, tokenBalances, kinds, now, prm).value);
    }
  }

  /** Over a whole pass: no Project loses calls or changes its used calls, no
      Payment changes anything but pending and its credited amounts, pending
      is never set, and a Project is activated only with count > used. */
  lemma PassOnlyGains(s: StoreState, evm: Evm, accounts: seq<string>,
                      nativeBalances: string -> Rpc<nat>, tokenBalances: string -> Rpc<nat>, now: int, prm: Params)
    requires HandleSpec(s, evm, accounts, nativeBalances, tokenBalances, now, prm).Some?
    ensures Evolves(s, HandleSpec(s, evm, accounts, nativeBalances, tokenBalances, now, prm).value)
  {
    ProcessKindsEvolves(s, evm, accounts, nativeBalances, tokenBalances, CoinKinds, now, prm);
  }

  /** A pass keeps every active Project covered by unused calls. */
  lemma PassKeepsActiveCovered(s: StoreState, evm: Evm, accounts: seq<string>,
                               nativeBalances: string -> Rpc<nat>, tokenBalances: string -> Rpc<nat>, now: int, prm: Params)
    requires ActiveCovered(s.projects)
    requires HandleSpec(s, evm, accounts, nativeBalances, tokenBalances, now, prm).Some?
    ensures ActiveCovered(HandleSpec(s, evm, accounts, nativeBalances, tokenBalances, now, prm).value.projects)
  {
    var t := HandleSpec(s, evm, accounts, nativeBalances, tokenBalances, now, prm).value;
    PassOnlyGains(s, evm, accounts, nativeBalances, tokenBalances, now, prm);
    forall name | name in t.projects && t.projects[name].active
      ensures t.projects[name].apiTokenCount > t.projects[name].usedApiTokens
    {
      assert ProjectEvolves(s.projects[name], t.projects[name]);
    }
  }

  // ---------------------------------------------------------------------------
  // The watcher object.

  /** Web3Helper's per-chain watch lists (self.accounts). */
  class Web3Helper {
    var accounts: map<Evm, seq<string>>

    ghost predicate Valid()
      reads this
    {
      EthChain in accounts && AvaxChain in accounts && NevmChain in accounts
    }

    constructor ()
      ensures Valid()
      ensures accounts[EthChain] == [] && accounts[AvaxChain] == [] && accounts[NevmChain] == []
    {
      accounts := map[EthChain := [], AvaxChain := [], NevmChain := []];
    }

    /** fetch_evm_accounts: replaces the chain's list only when the query
        matched at least one Payment. */
    method FetchEvmAccounts(evm: Evm, payments: seq<Payment>)
      requires Valid()
      modifies this
      ensures Valid()
      ensures var found := WatchList(payments, evm);
              accounts == if |found| > 0 then old(accounts)[evm := found] else old(accounts)
    {
      var found := WatchList(payments, evm);
      if |found| > 0 {
        accounts := accounts[evm := found];
      }
    }

    /** check_balance: polls every watched address of the chain. */
    method CheckBalance(evm: Evm, native: bool, balances: string -> Rpc<nat>) returns (paid: Option<seq<(string, real)>>)
      requires Valid()
      ensures paid == Paid(accounts[evm], balances, native)
    {
      var addresses := accounts[evm];
      var p: seq<(string, real)> := [];
      for i := 0 to |addresses|
        invariant Paid(addresses[..i], balances, native) == Some(p)
      {
        assert addresses[..i + 1][..i] == addresses[..i];
        var address := addresses[i];
        var balance := balances(address);
        if balance.RpcFailed? {
          PaidNoneSticks(addresses, balances, native, i + 1);
          return None;
        }
        var amount := Scaled(balance.value, native);
        if amount > 0.0 {
          p := Assign(p, address, amount);
        }
      }
      assert addresses[..|addresses|] == addresses;
      return Some(p);
    }

    /** One coin of handle_evm_event: check_balance for the coin, then the
        credit of every address it returned. */
    method HandleCoin(evm: Evm, native: bool, balances: string -> Rpc<nat>, session: StoreState, now: int, prm: Params)
      returns (next: Option<StoreState>)
      requires Valid()
      ensures next == match Paid(accounts[evm], balances, native)
                      case None => None
                      case Some(paid) => ProcessAll(session, evm, CoinName(evm, native), paid, now, prm)
    {
      var paid := CheckBalance(evm, native, balances);
      if paid.None? {
        return None;
      }
      next := CreditCoin(session, evm, CoinName(evm, native), paid.value, now, prm);
    }

    /** handle_evm_event: credits the native coin and then the block token of
        one chain; all of it is committed, or none of it when the pass raises. */
    method HandleEvmEvent(evm: Evm, store: Store, nativeBalances: string -> Rpc<nat>,
                          tokenBalances: string -> Rpc<nat>, now: int, prm: Params) returns (ok: bool)
      requires Valid()
      modifies store
      ensures var spec := HandleSpec(old(store.State()), evm, accounts[evm], nativeBalances, tokenBalances, now, prm);
              ok == spec.Some? && store.State() == (if ok then spec.value else old(store.State()))
    {
      ghost var s0 := store.State();
      var session := store.State();
      for k := 0 to |CoinKinds|
        invariant store.State() == s0
        invariant ProcessKinds(s0, evm, accounts[evm], nativeBalances, tokenBalances, CoinKinds[..k], now, prm)
                  == Some(session)
      {
        ProcessKindsStep(s0, evm, accounts[evm], nativeBalances, tokenBalances, CoinKinds, k, now, prm, session);
        var native := CoinKinds[k];
        var next := HandleCoin(evm, native, if native then nativeBalances else tokenBalances, session, now, prm);
        if next.None? {
          ProcessKindsNoneSticks(s0, evm, accounts[evm], nativeBalances, tokenBalances, CoinKinds, now, prm, k + 1);
          return false;
        }
        session := next.value;
      }
      assert CoinKinds[..|CoinKinds|] == CoinKinds;
      store.payments, store.projects := session.payments, session.projects;
      ok := true;
    }
  }

  /** The loop over check_balance's result for one coin, on the session's
      copy of the tables. */
  method CreditCoin(s: StoreState, evm: Evm, coin: Coin, paid: seq<(string, real)>, now: int, prm: Params)
    returns (r: Option<StoreState>)
    ensures r == ProcessAll(s, evm, coin, paid, now, prm)
  {
    var session := s;
    for j := 0 to |paid|
      invariant ProcessAll(s, evm, coin, paid[..j], now, prm) == Some(session)
    {
      var next := CreditAddress(session, evm, coin, paid[j].0, paid[j].1, now, prm);
      ProcessAllStep(s, evm, coin, paid, j, now, prm, session);
      if next.None? {
        ProcessAllNoneSticks(s, evm, coin, paid, now, prm, j + 1);
        return None;
      }
      session := next.value;
    }
    assert paid[..|paid|] == paid;
    return Some(session);
  }

  /** One more address extends a successful run by that address's turn. */
  lemma ProcessAllStep(s: StoreState, evm: Evm, coin: Coin, paid: seq<(string, real)>, j: nat, now: int, prm: Params,
                       session: StoreState)
    requires j < |paid|
    requires ProcessAll(s, evm, coin, paid[..j], now, prm) == Some(session)
    ensures ProcessAll(s, evm, coin, paid[..j + 1], now, prm) == ApplyAt(session, evm, coin, paid[j], now, prm)
  {
    assert paid[..j + 1][..j] == paid[..j];
  }

  /** The body of handle_evm_event's inner loop for one address. */
  method CreditAddress(s: StoreState, evm: Evm, coin: Coin, address: string, value: real, now: int, prm: Params)
    returns (r: Option<StoreState>)
    ensures r == ApplyAt(s, evm, coin, (address, value), now, prm)
  {
    var row := FindPayment(s.payments, evm, address);
    if row.None? {
      return None;
    }
    var i := row.value;
    var pay := s.payments[i];
    if pay.project !in s.projects {
      return None;
    }
    var step := CreditPayment(pay, s.projects[pay.project], coin, value, now, prm);
    if step.StepRaised? {
      return None;
    }
    r := Some(StoreState(s.payments[i := step.payment], s.projects[pay.project := step.project]));
  }

  /** One Payment's credit: the statements of the inner loop after the lookup. */
  method CreditPayment(pay: Payment, proj: Project, coin: Coin, value: real, now: int, prm: Params)
    returns (r: StepResult)
    ensures r == CreditStep(pay, proj, coin, value, now, prm)
  {
    ghost var pay0 := pay;
    var pay := pay;
    var minAmount := pay.minAmount.Get(coin);
    if minAmount <= 0.0 {
      return StepOk(pay, proj, Skipped);
    }
    if pay.pending {
      if pay.quoteStartTime.None? {
        return StepRaised;
      }
      if now > pay.quoteStartTime.value + prm.quoteValidHours * 3600 {
        pay := pay.(pending := false);
      }
    }
    r := SettlePayment(pay0, pay, proj, coin, value, now, prm);
  }

  /** The activation test after a credit. */
  method ActivateProject(p: Project) returns (r: Project)
    ensures r == Activate(p)
  {
    r := p;
    if r.apiTokenCount > r.usedApiTokens {
      r := r.(active := true, activated := true);
    }
  }

  /** The branches on value_added, once the minimum is known positive and
      expiry has been applied to the Payment. */
  method SettlePayment(ghost pay0: Payment, pay: Payment, proj: Project, coin: Coin, value: real, now: int, prm: Params)
    returns (r: StepResult)
    requires pay0.minAmount.Get(coin) > 0.0 && !(pay0.pending && pay0.quoteStartTime.None?)
    requires pay == (if pay0.pending && QuoteExpired(pay0, now, prm) then pay0.(pending := false) else pay0)
    ensures r == CreditStep(pay0, proj, coin, value, now, prm)
  {
    var proj := proj;
    var minAmount := pay.minAmount.Get(coin);
    var valueAdded := value - pay.amount.Get(coin);
    if valueAdded >= minAmount {
      var calls := Grant(valueAdded, minAmount, prm.minApiCalls, pay.pending);
      proj := ActivateProject(proj.(apiTokenCount := proj.apiTokenCount + calls));
      r := StepOk(pay.(amount := pay.amount.Set(coin, value)), proj, Credited(calls));
    } else if valueAdded > 0.0 {
      // Below the minimum: only logged.
      r := StepOk(pay, proj, TooLow);
    } else if valueAdded < 0.0 {
      r := StepOk(pay.(amount := pay.amount.Set(coin, value)), proj, Withdrawn);
    } else {
      r := StepOk(pay, proj, Unchanged);
    }
  }

  /** One more coin kind extends a successful pass by that kind's poll and credits. */
  lemma ProcessKindsStep(s: StoreState, evm: Evm, accounts: seq<string>,
                         nativeBalances: string -> Rpc<nat>, tokenBalances: string -> Rpc<nat>,
                         kinds: seq<bool>, k: nat, now: int, prm: Params, session: StoreState)
    requires k < |kinds|
    requires ProcessKinds(s, evm, accounts, nativeBalances, tokenBalances, kinds[..k], now, prm) == Some(session)
    ensures ProcessKinds(s, evm, accounts, nativeBalances, tokenBalances, kinds[..k + 1], now, prm) ==
            match Paid(accounts, if kinds[k] then nativeBalances else tokenBalances, kinds[k])
            case None => None
            case Some(paid) => ProcessAll(session, evm, CoinName(evm, kinds[k]), paid, now, prm)
  {
    assert kinds[..k + 1][..k] == kinds[..k];
  }

  lemma {:induction false} ProcessKindsNoneSticks(s: StoreState, evm: Evm, accounts: seq<string>,
                                                  nativeBalances: string -> Rpc<nat>, tokenBalances: string -> Rpc<nat>,
                                                  kinds: seq<bool>, now: int, prm: Params, k: nat)
    requires k <= |kinds|
    requires ProcessKinds(s, evm, accounts, nativeBalances, tokenBalances, kinds[..k], now, prm).None?
    ensures ProcessKinds(s, evm, accounts, nativeBalances, tokenBalances, kinds, now, prm).None?
    decreases |kinds|
  {
    if k < |kinds| {
      var front := kinds[..|kinds| - 1];
      assert front[..k] == kinds[..k];
      ProcessKindsNoneSticks(s, evm, accounts, nativeBalances, tokenBalances, front, now, prm, k);
    } else {
      assert kinds[..k] == kinds;
    }
  }
}
