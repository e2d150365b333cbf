/** The persisted entities the core reads and writes: Project and Payment rows,
    the coins and chains they are keyed by, and the store that holds them. */
module Records {
  import opened Common

  /** The three EVM chains a Payment can hold an address on. */
  datatype Evm = EthChain | AvaxChain | NevmChain

  /** Every coin the watcher credits: each chain's native coin and its block token. */
  datatype Coin = Eth | Ablock | Avax | Aablock | Wsys | Sysblock

  /** One real-valued column per coin (min_amount_<coin>, amount_<coin>). */
  datatype PerCoin = PerCoin(eth: real, ablock: real, avax: real, aablock: real, wsys: real, sysblock: real)
  {
    function Get(c: Coin): real
    {
      match c
      case Eth => eth
      case Ablock => ablock
      case Avax => avax
      case Aablock => aablock
      case Wsys => wsys
      case Sysblock => sysblock
    }

    /** update_db_amount: writes the column of one coin and no other. */
    function Set(c: Coin, v: real): (r: PerCoin)
      ensures r.Get(c) == v
      ensures forall d :: d != c ==> r.Get(d) == Get(d)
    {
      match c
      case Eth => this.(eth := v)
      case Ablock => this.(ablock := v)
      case Avax => this.(avax := v)
      case Aablock => this.(aablock := v)
      case Wsys => this.(wsys := v)
      case Sysblock => this.(sysblock := v)
    }
  }

  /** A Project row: the client's subscription and its call allowance. */
  datatype Project = Project(
    name: string,
    apiKey: string,
    apiTokenCount: int,
    usedApiTokens: int,
    active: bool,
    activated: bool,
    userCancelled: bool)

  /** A Payment row as the chain watcher sees it: the deposit address per chain,
      the quote's start, the per-coin minimum and the per-coin amount already
      credited, and the name of the Project it pays for. */
  datatype Payment = Payment(
    pending: bool,
    ethAddress: string,
    avaxAddress: string,
    nevmAddress: string,
    quoteStartTime: Option<int>,
    minAmount: PerCoin,
    amount: PerCoin,
    project: string)
  {
    /** The <evm>_address column. */
    function AddressOn(evm: Evm): string
    {
      match evm
      case EthChain => ethAddress
      case AvaxChain => avaxAddress
      case NevmChain => nevmAddress
    }
  }

  /** A snapshot of the store: the Payment table in row order and the Project
      table keyed by project name. */
  datatype StoreState = StoreState(payments: seq<Payment>, projects: map<string, Project>)

  /** The entity store; its tables are replaced as a whole on commit. */
  class Store {
    var payments: seq<Payment>
    var projects: map<string, Project>

    constructor (payments: seq<Payment>, projects: map<string, Project>)
      ensures this.payments == payments && this.projects == projects
    {
      this.payments := payments;
      this.projects := projects;
    }

    function State(): StoreState
      reads this
    {
      StoreState(payments, projects)
    }
  }

  /** Every active project has more granted calls than it has used. */
  ghost predicate ActiveCovered(projects: map<string, Project>)
  {
    forall name :: name in projects && projects[name].active ==>
      projects[name].apiTokenCount > projects[name].usedApiTokens
  }
}
