/** The request side of payment_processor.py: the per-project call counter of
    api_count_handler, one pass of the update_api_counts flush, and the
    decision and defaulting logic of create_project. */
module PaymentProcessor {
  import opened Common
  import opened Records

  // ---------------------------------------------------------------------------
  // api_count_handler

  /** The error code of a request without a project id. */
  const NoProjectError: int := -1001

  /** 'updated count <n>' with error 0, or the -1001 error. */
  datatype CountResponse = Updated(count: int) | NotFound(error: int)

  /** A project's cached call count; an absent id counts zero calls. */
  function Count(counts: map<string, int>, id: string): int
  {
    if id in counts then counts[id] else 0
  }

  /** One request to /<project_id>/api_count: a non-empty id gets one more call
      (its first creates it at 1) and hears the new count; the empty id is
      refused and changes nothing. */
  function RecordCall(counts: map<string, int>, id: string): (r: (map<string, int>, CountResponse))
    ensures id == "" ==> r == (counts, NotFound(NoProjectError))
    ensures id != "" ==>
              r.0.Keys == counts.Keys + {id} &&
              r.0[id] == Count(counts, id) + 1 &&
              r.1 == Updated(r.0[id]) &&
              forall x :: x in counts && x != id ==> r.0[x] == counts[x]
  {
    if id == "" then (counts, NotFound(NoProjectError))
    else
      var c := if id in counts then counts[id] + 1 else 1;
      (counts[id := c], Updated(c))
  }

  /** A sequence of requests, in arrival order. */
  function RecordAll(counts: map<string, int>, ids: seq<string>): map<string, int>
    decreases |ids|
  {
    if ids == [] then counts
    else RecordCall(RecordAll(counts, ids[..|ids| - 1]), ids[|ids| - 1]).0
  }

  /** After any sequence of requests every non-empty id's count has grown by
      the number of requests naming it, and the empty id is never cached. */
  lemma {:induction false} CallsAreCounted(counts: map<string, int>, ids: seq<string>, x: string)
    requires "" !in counts
    ensures "" !in RecordAll(counts, ids)
    ensures x != "" ==> Count(RecordAll(counts, ids), x) == Count(counts, x) + multiset(ids)[x]
    decreases |ids|
  {
    if ids != [] {
      var front := ids[..|ids| - 1];
      assert ids == front + [ids[|ids| - 1]];
      CallsAreCounted(counts, front, x);
    }
  }

  // ---------------------------------------------------------------------------
  // update_api_counts, one iteration of its loop

  /** Idle: the cache was empty; FlushFailed: the session raised and rolled
      back, the cache is kept for the next tick. */
  datatype FlushOutcome = Idle | Flushed | FlushFailed

  /** One cached count applied to its Project: the calls are added to
      used_api_tokens and an exhausted Project is deactivated. */
  function Charge(p: Project, count: int): (q: Project)
    ensures q.usedApiTokens == p.usedApiTokens + count
    ensures q.active == (p.active && q.usedApiTokens < q.apiTokenCount)
    ensures q == p.(usedApiTokens := q.usedApiTokens, active := q.active)
  {
    var q := p.(usedApiTokens := p.usedApiTokens + count);
    if q.usedApiTokens >= q.apiTokenCount then q.(active := false) else q
  }

  /** Every existing Project with a cached count is charged; ids without a
      Project are skipped. */
  function FlushProjects(counts: map<string, int>, projects: map<string, Project>): (r: map<string, Project>)
    ensures r.Keys == projects.Keys
  {
    map name | name in projects :: if name in counts then Charge(projects[name], counts[name]) else projects[name]
  }

  /** Reference definition of one tick: the new cache, the new Project table
      and the outcome. */
  function FlushSpec(counts: map<string, int>, projects: map<string, Project>, commitOk: bool)
    : (map<string, int>, map<string, Project>, FlushOutcome)
  {
    if counts == map[] then (counts, projects, Idle)
    else if !commitOk then (counts, projects, FlushFailed)
    else (map[], FlushProjects(counts, projects), Flushed)
  }

  /** A successful flush charges every Project exactly its cached count (zero
      when it has none), changes nothing else about it but active, and never
      activates one; and it empties the cache, skipped ids included. */
  lemma FlushCharges(counts: map<string, int>, projects: map<string, Project>, name: string)
    requires counts != map[]
    requires name in projects
    ensures var (counts', projects', o) := FlushSpec(counts, projects, true);
            o == Flushed && counts' == map[] &&
            name in projects' &&
            projects'[name].usedApiTokens == projects[name].usedApiTokens + Count(counts, name) &&
            projects'[name].apiTokenCount == projects[name].apiTokenCount &&
            (projects'[name].active ==> projects[name].active) &&
            (name in counts && projects'[name].usedApiTokens >= projects'[name].apiTokenCount ==> !projects'[name].active) &&
            projects'[name] == projects[name].(usedApiTokens := projects'[name].usedApiTokens,
                                               active := projects'[name].active)
  {
  }

  /** An empty cache touches nothing; a raising pass keeps the cache and the
      Project table as they were. */
  lemma FlushUnchangedUnlessCommitted(counts: map<string, int>, projects: map<string, Project>, commitOk: bool)
    ensures var (counts', projects', o) := FlushSpec(counts, projects, commitOk);
            (o == Flushed <==> counts != map[] && commitOk) &&
            (o != Flushed ==> counts' == counts && projects' == projects)
  {
  }

  /** After a successful flush every Project whose count was flushed and that
      is still active has calls left; the other Projects keep their coverage. */
  lemma FlushKeepsActiveCovered(counts: map<string, int>, projects: map<string, Project>)
    requires ActiveCovered(projects)
    ensures ActiveCovered(FlushSpec(counts, projects, true).1)
  {
    var r := FlushSpec(counts, projects, true).1;
    forall name | name in r && r[name].active
      ensures r[name].apiTokenCount > r[name].usedApiTokens
    {
      if counts != map[] && name in counts {
        assert r[name] == Charge(projects[name], counts[name]);
      }
    }
  }

  /** Calls counted from an empty cache reach used_api_tokens in full at the
      next successful flush; requests without an id, and a tick that finds the
      cache empty, charge nothing. */
  lemma MeteredCallsCharged(ids: seq<string>, projects: map<string, Project>, name: string)
    requires name in projects && name != ""
    ensures var counts := RecordAll(map[], ids);
            var projects' := FlushSpec(counts, projects, true).1;
            projects'[name].usedApiTokens == projects[name].usedApiTokens + multiset(ids)[name]
  {
    CallsAreCounted(map[], ids, name);
  }

  /** The call counter and the flush that drains it (the global api_count_cache). */
  class MeteringCache {
    var counts: map<string, int>

    constructor ()
      ensures counts == map[]
    {
      counts := map[];
    }

    /** api_count_handler. */
    method ApiCount(projectId: string) returns (r: CountResponse)
      modifies this
      ensures (counts, r) == RecordCall(old(counts), projectId)
    {
      if projectId != "" {
        if projectId in counts {
          counts := counts[projectId := counts[projectId] + 1];
        } else {
          counts := counts[projectId := 1];
        }
        r := Updated(counts[projectId]);
      } else {
        r := NotFound(NoProjectError);
      }
    }

    /** One tick of update_api_counts: charges the store's Projects in one
        session, which commits (commitOk) or raises and rolls back. */
    method Flush(store: Store, commitOk: bool) returns (o: FlushOutcome)
      modifies this, store
      ensures (counts, store.projects, o) == FlushSpec(old(counts), old(store.projects), commitOk)
      ensures store.payments == old(store.payments)
    {
      if counts == map[] {
        return Idle;
      }
      var session := store.projects;
      var todo := counts.Keys;
      while todo != {}
        invariant counts == old(counts) && store.projects == old(store.projects)
        invariant todo <= counts.Keys
        invariant session.Keys == store.projects.Keys
        invariant forall name :: name in session ==>
                    session[name] == if name in counts && name !in todo
                                     then Charge(store.projects[name], counts[name])
                                     else store.projects[name]
        decreases todo
      {
        var id :| id in todo;
        if id in session {
          session := session[id := Charge(session[id], counts[id])];
        }
        todo := todo - {id};
      }
      assert session == FlushProjects(counts, store.projects);
      if !commitOk {
        return FlushFailed;
      }
      store.projects := session;
      counts := map[];
      o := Flushed;
    }
  }

  // ---------------------------------------------------------------------------
  // create_project

  /** The ten quoted amounts, per coin and tier, in the order of the amounts dict. */
  datatype Tiers<T> = Tiers(
    ethTier1: T, ethTier2: T,
    ablockTier1: T, ablockTier2: T,
    aablockTier1: T, aablockTier2: T,
    sysblockTier1: T, sysblockTier2: T,
    wsysTier1: T, wsysTier2: T)
  {
    function Values(): (s: seq<T>)
      ensures |s| == 10
    {
      [ethTier1, ethTier2, ablockTier1, ablockTier2, aablockTier1, aablockTier2,
       sysblockTier1, sysblockTier2, wsysTier1, wsysTier2]
    }
  }

  /** list(amounts.values()).count(None). */
  function NoneCount(s: seq<Option<real>>): (n: nat)
    ensures n <= |s|
    decreases |s|
  {
    if s == [] then 0 else (if s[0].None? then 1 else 0) + NoneCount(s[1..])
  }

  /** A quoted amount, or -1 in its column when there is none. */
  function OrMinusOne(q: Option<real>): real
  {
    if q.Some? then q.value else -1.0
  }

  function OrEmpty(s: Option<string>): string
  {
    if s.Some? then s.value else ""
  }

  /** What get_<evm>_address returned: token, address and private key. */
  datatype Keypair = Keypair(token: Option<string>, address: Option<string>, privkey: Option<string>)

  /** The Payment row create_project writes, with its own column names. */
  datatype QuotedPayment = QuotedPayment(
    pending: bool,
    ethToken: string, ethAddress: string, ethPrivkey: string,
    avaxToken: string, avaxAddress: string, avaxPrivkey: string,
    nevmToken: string, nevmAddress: string, nevmPrivkey: string,
    startTime: int,
    project: string,
    expected: Tiers<real>,
    amountEth: real, amountAblock: real, amountAablock: real, amountSysblock: real, amountWsys: real)

  /** The result object of a created project. */
  datatype Reply = Reply(
    projectId: string, apiKey: string,
    ethAddress: Option<string>, avaxAddress: Option<string>, nevmAddress: Option<string>,
    amounts: Tiers<Option<real>>,
    expiryTime: int)

  datatype CreateOutcome =
    | TooFewAmounts(amounts: Tiers<Option<real>>)
    | NoPaymentAddress
    | StoreFailed
    | Created(project: Project, payment: QuotedPayment, reply: Reply)

  /** The calls a new Project starts with. */
  const InitialApiTokens: int := 6000000

  /** A quote is valid for one hour from its start. */
  const PaymentWindowSeconds: int := 3600

  /** No ETH-chain address is handed out when neither ETH nor ABLOCK could be
      quoted. */
  function EthAddressOffered(q: Tiers<Option<real>>, eth: Keypair): Option<string>
  {
    if q.ethTier1.None? && q.ethTier2.None? && q.ablockTier1.None? && q.ablockTier2.None? then None
    else eth.address
  }

  /** The expected amount per tier: the quoted amount, or -1 where it is missing. */
  function ExpectedAmounts(q: Tiers<Option<real>>): (e: Tiers<real>)
    ensures forall i :: 0 <= i < 10 ==>
              e.Values()[i] == (if q.Values()[i].Some? then q.Values()[i].value else -1.0)
  {
    Tiers(OrMinusOne(q.ethTier1), OrMinusOne(q.ethTier2),
          OrMinusOne(q.ablockTier1), OrMinusOne(q.ablockTier2),
          OrMinusOne(q.aablockTier1), OrMinusOne(q.aablockTier2),
          OrMinusOne(q.sysblockTier1), OrMinusOne(q.sysblockTier2),
          OrMinusOne(q.wsysTier1), OrMinusOne(q.wsysTier2))
  }

  /** Reference definition of create_project from its inputs: the quoted
      amounts, the three generated key pairs, the project name and API key,
      the clock, and whether the store's commit succeeds. */
  function CreateProject(q: Tiers<Option<real>>, eth: Keypair, avax: Keypair, nevm: Keypair,
                         name: string, apiKey: string, now: int, commitOk: bool): CreateOutcome
  {
    if NoneCount(q.Values()) >= 9 then TooFewAmounts(q)
    else
      var ethAddress := EthAddressOffered(q, eth);
      if ethAddress.None? && avax.address.None? && nevm.address.None? then NoPaymentAddress
      else if !commitOk then StoreFailed
      else
        var project := Project(name, apiKey, InitialApiTokens, 0, false, false, false);
        var expected := ExpectedAmounts(q);
        var payment := QuotedPayment(
          true,
          OrEmpty(eth.token), OrEmpty(ethAddress), OrEmpty(eth.privkey),
          OrEmpty(avax.token), OrEmpty(avax.address), OrEmpty(avax.privkey),
          OrEmpty(nevm.token), OrEmpty(nevm.address), OrEmpty(nevm.privkey),
          now, name, expected, 0.0, 0.0, 0.0, 0.0, 0.0);
        Created(project, payment,
                Reply(name, apiKey, ethAddress, avax.address, nevm.address, q, now + PaymentWindowSeconds))
  }

  /** Nine or more missing amounts reject the request with the amounts, before
      any address is considered; otherwise it is never rejected for that. */
  lemma RejectsWithoutTwoAmounts(q: Tiers<Option<real>>, eth: Keypair, avax: Keypair, nevm: Keypair,
                                 name: string, apiKey: string, now: int, commitOk: bool)
    ensures CreateProject(q, eth, avax, nevm, name, apiKey, now, commitOk).TooFewAmounts? <==>
              NoneCount(q.Values()) >= 9
    ensures NoneCount(q.Values()) >= 9 ==>
              CreateProject(q, eth, avax, nevm, name, apiKey, now, commitOk) == TooFewAmounts(q)
  {
  }

  /** The request is refused for want of an address exactly when at least two
      amounts are quoted, there is no AVAX or NEVM address, and the ETH address
      is missing or withheld because neither ETH nor ABLOCK was quoted. */
  lemma RejectsWithoutAddress(q: Tiers<Option<real>>, eth: Keypair, avax: Keypair, nevm: Keypair,
                              name: string, apiKey: string, now: int, commitOk: bool)
    ensures CreateProject(q, eth, avax, nevm, name, apiKey, now, commitOk).NoPaymentAddress? <==>
              NoneCount(q.Values()) < 9 && avax.address.None? && nevm.address.None? &&
              (eth.address.None? ||
               (q.ethTier1.None? && q.ethTier2.None? && q.ablockTier1.None? && q.ablockTier2.None?))
  {
  }

  /** A created Project starts with 6000000 calls, none used, inactive and not
      cancelled; its Payment is pending from now, every missing key part is '',
      the ETH address is offered (and stored) only when an ETH or ABLOCK amount
      is quoted while its token and key are stored regardless, none of the five
      amount columns is credited yet, and the quote expires one hour after its
      start. */
  lemma CreatedDefaults(q: Tiers<Option<real>>, eth: Keypair, avax: Keypair, nevm: Keypair,
                        name: string, apiKey: string, now: int, commitOk: bool)
    ensures var o := CreateProject(q, eth, avax, nevm, name, apiKey, now, commitOk);
            o.Created? ==>
              o.project == Project(name, apiKey, 6000000, 0, false, false, false) &&
              o.payment.pending && o.payment.startTime == now && o.payment.project == name &&
              o.payment.avaxAddress == (if avax.address.Some? then avax.address.value else "") &&
              o.payment.nevmAddress == (if nevm.address.Some? then nevm.address.value else "") &&
              o.payment.ethToken == (if eth.token.Some? then eth.token.value else "") &&
              o.payment.ethPrivkey == (if eth.privkey.Some? then eth.privkey.value else "") &&
              o.payment.ethAddress ==
                (if (q.ethTier1.Some? || q.ethTier2.Some? || q.ablockTier1.Some? || q.ablockTier2.Some?) &&
                    eth.address.Some?
                 then eth.address.value else "") &&
              o.payment.avaxToken == (if avax.token.Some? then avax.token.value else "") &&
              o.payment.avaxPrivkey == (if avax.privkey.Some? then avax.privkey.value else "") &&
              o.payment.nevmToken == (if nevm.token.Some? then nevm.token.value else "") &&
              o.payment.nevmPrivkey == (if nevm.privkey.Some? then nevm.privkey.value else "") &&
              o.payment.amountEth == 0.0 && o.payment.amountAblock == 0.0 && o.payment.amountAablock == 0.0 &&
              o.payment.amountSysblock == 0.0 && o.payment.amountWsys == 0.0 &&
              o.reply.projectId == name && o.reply.apiKey == apiKey && o.reply.amounts == q &&
              o.reply.avaxAddress == avax.address && o.reply.nevmAddress == nevm.address &&
              o.reply.ethAddress ==
                (if q.ethTier1.Some? || q.ethTier2.Some? || q.ablockTier1.Some? || q.ablockTier2.Some?
                 then eth.address else None) &&
              o.reply.expiryTime == o.payment.startTime + 3600
  {
  }

  /** A created Payment expects, tier by tier, the quoted amount, or -1 where
      that amount is missing. */
  lemma CreatedExpectedAmounts(q: Tiers<Option<real>>, eth: Keypair, avax: Keypair, nevm: Keypair,
                               name: string, apiKey: string, now: int, commitOk: bool)
    ensures var o := CreateProject(q, eth, avax, nevm, name, apiKey, now, commitOk);
            o.Created? ==>
              forall i :: 0 <= i < 10 ==>
                o.payment.expected.Values()[i] == (if q.Values()[i].Some? then q.Values()[i].value else -1.0)
  {
  }

  /** A failing commit persists nothing and reports the failure, after both
      rejections have been passed. */
  lemma CommitFailureReported(q: Tiers<Option<real>>, eth: Keypair, avax: Keypair, nevm: Keypair,
                              name: string, apiKey: string, now: int)
    ensures var o := CreateProject(q, eth, avax, nevm, name, apiKey, now, false);
            o.StoreFailed? <==> !CreateProject(q, eth, avax, nevm, name, apiKey, now, true).TooFewAmounts? &&
                                !CreateProject(q, eth, avax, nevm, name, apiKey, now, true).NoPaymentAddress?
    ensures !CreateProject(q, eth, avax, nevm, name, apiKey, now, false).Created?
  {
  }

  /** At most |s| - 2 missing entries leave two entries present. */
  lemma {:induction false} TwoPresent(s: seq<Option<real>>)
    requires NoneCount(s) + 2 <= |s|
    ensures exists i, j :: 0 <= i < j < |s| && s[i].Some? && s[j].Some?
    decreases |s|
  {
    if s[0].Some? {
      OnePresent(s[1..]);
      var k :| 0 <= k < |s[1..]| && s[1..][k].Some?;
      assert s[k + 1].Some?;
    } else {
      TwoPresent(s[1..]);
      var i, j :| 0 <= i < j < |s[1..]| && s[1..][i].Some? && s[1..][j].Some?;
      assert s[i + 1].Some? && s[j + 1].Some?;
    }
  }

  lemma {:induction false} OnePresent(s: seq<Option<real>>)
    requires NoneCount(s) + 1 <= |s|
    ensures exists k :: 0 <= k < |s| && s[k].Some?
    decreases |s|
  {
    if s[0].None? {
      OnePresent(s[1..]);
      var k :| 0 <= k < |s[1..]| && s[1..][k].Some?;
      assert s[k + 1].Some?;
    }
  }

  /** Every created project was quoted in at least two amounts and offers at
      least one deposit address, and the ETH address only with an ETH or
      ABLOCK quote. */
  lemma CreatedIsPayable(q: Tiers<Option<real>>, eth: Keypair, avax: Keypair, nevm: Keypair,
                         name: string, apiKey: string, now: int, commitOk: bool)
    ensures var o := CreateProject(q, eth, avax, nevm, name, apiKey, now, commitOk);
            o.Created? ==>
              (exists i, j :: 0 <= i < j < 10 && q.Values()[i].Some? && q.Values()[j].Some?) &&
              (o.reply.ethAddress.Some? || o.reply.avaxAddress.Some? || o.reply.nevmAddress.Some?) &&
              (o.reply.ethAddress.Some? ==>
                 q.ethTier1.Some? || q.ethTier2.Some? || q.ablockTier1.Some? || q.ablockTier2.Some?)
  {
    if NoneCount(q.Values()) < 9 {
      TwoPresent(q.Values());
    }
  }
}
