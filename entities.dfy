/** The records the indexer stores and the events it consumes
    (src/EventHandlers.ts:36-123). Every counter and amount is a bigint that only
    grows by additions of unsigned event values, so it is a `nat` here; block
    numbers, timestamps, chain ids and log indices are unsigned too. */
module Entities {
  import opened Ids

  /** `BlockMeta` (src/EventHandlers.ts:36-39). */
  datatype BlockMeta = BlockMeta(number: nat, timestamp: nat)

  /** The singleton `GlobalStats` record. */
  datatype GlobalStats = GlobalStats(
    id: string,
    totalUniquePlayers: nat,
    keyPurchaseEvents: nat,
    keysPurchased: nat,
    keyPurchaseAmount: nat,
    weeklyClaimEvents: nat,
    weeklyClaimAmount: nat,
    jackpotClaimEvents: nat,
    jackpotClaimAmount: nat,
    updatedAtBlock: nat,
    updatedAtTimestamp: nat)

  /** One `PlayerStats` record per lower-cased wallet. */
  datatype PlayerStats = PlayerStats(
    id: string,
    wallet: string,
    firstSeenBlock: nat,
    firstSeenTimestamp: nat,
    updatedAtBlock: nat,
    updatedAtTimestamp: nat,
    keyPurchaseEvents: nat,
    keysPurchased: nat,
    keyPurchaseAmount: nat,
    weeklyClaimEvents: nat,
    weeklyClaimAmount: nat,
    jackpotClaimEvents: nat,
    jackpotClaimAmount: nat)

  /** One `WeeklyStats` record per week. */
  datatype WeeklyStats = WeeklyStats(
    id: string,
    week: nat,
    weeklyClaimEvents: nat,
    weeklyClaimAmount: nat,
    uniqueClaimers: nat,
    updatedAtBlock: nat,
    updatedAtTimestamp: nat)

  /** One `PlayerWeeklyStats` record per (wallet, week) pair that claimed. */
  datatype PlayerWeeklyStats = PlayerWeeklyStats(
    id: string,
    wallet: string,
    week: nat,
    weeklyClaimEvents: nat,
    weeklyClaimAmount: nat,
    firstClaimBlock: nat,
    firstClaimTimestamp: nat,
    lastClaimBlock: nat,
    lastClaimTimestamp: nat)

  /** One `JackpotStats` record per jackpot nonce. */
  datatype JackpotStats = JackpotStats(
    id: string,
    nonce: nat,
    jackpotClaimEvents: nat,
    jackpotClaimAmount: nat,
    uniqueClaimers: nat,
    updatedAtBlock: nat,
    updatedAtTimestamp: nat)

  /** The seen-fact "this wallet has claimed this jackpot". */
  datatype JackpotPlayerSeen = JackpotPlayerSeen(id: string, nonce: nat, wallet: string)

  /** The two contracts whose events are indexed. */
  datatype Contract = ClaimVault | KeyPurchase

  /** The decoded parameters of every event kind a handler is registered for. */
  datatype Params =
    | JackpotClaimed(claimer: string, nonce: nat, amount: nat)
    | WeeklyClaimed(claimer: string, week: nat, amount: nat)
    | KeysPurchased(buyer: string, quantity: nat, pricePerKey: nat, totalPaid: nat)
    | OwnershipHandoverCanceled(pendingOwner: string)
    | OwnershipHandoverRequested(pendingOwner: string)
    | OwnershipTransferred(oldOwner: string, newOwner: string)
    | PauseStatusChanged(paused: bool)
    | SignerUpdated(oldSigner: string, newSigner: string)
    | Upgraded(implementation: string)
    | ClaimsRecipientUpdated(oldClaimsRecipient: string, newClaimsRecipient: string)
    | FeeBpsUpdated(oldFeeBps: nat, newFeeBps: nat)
    | FeeRecipientUpdated(oldFeeRecipient: string, newFeeRecipient: string)
    | KeyPriceUpdated(oldPrice: nat, newPrice: nat)
  {
    /** The three kinds that feed the aggregates. */
    predicate IsEconomic() {
      JackpotClaimed? || WeeklyClaimed? || KeysPurchased?
    }

    /** The address that acted in an economic event, as the event carries it. */
    function Actor(): string
      requires IsEconomic()
    {
      match this
      case JackpotClaimed(claimer, _, _) => claimer
      case WeeklyClaimed(claimer, _, _) => claimer
      case KeysPurchased(buyer, _, _, _) => buyer
    }

    /** The event's name, as it appears in its raw table's name. */
    function Name(): string {
      match this
      case JackpotClaimed(_, _, _) => "JackpotClaimed"
      case WeeklyClaimed(_, _, _) => "WeeklyClaimed"
      case KeysPurchased(_, _, _, _) => "KeysPurchased"
      case OwnershipHandoverCanceled(_) => "OwnershipHandoverCanceled"
      case OwnershipHandoverRequested(_) => "OwnershipHandoverRequested"
      case OwnershipTransferred(_, _) => "OwnershipTransferred"
      case PauseStatusChanged(_) => "PauseStatusChanged"
      case SignerUpdated(_, _) => "SignerUpdated"
      case Upgraded(_) => "Upgraded"
      case ClaimsRecipientUpdated(_, _) => "ClaimsRecipientUpdated"
      case FeeBpsUpdated(_, _) => "FeeBpsUpdated"
      case FeeRecipientUpdated(_, _) => "FeeRecipientUpdated"
      case KeyPriceUpdated(_, _) => "KeyPriceUpdated"
    }
  }

  /** One decoded log: its position on chain and its parameters. */
  datatype Event = Event(contract: Contract, chainId: nat, block: BlockMeta, logIndex: nat, params: Params)

  /** Whether a handler is registered for this contract and event kind: the
      claim vault emits the two claims and `SignerUpdated`, the key-purchase
      contract emits purchases and its four price and recipient updates, and
      both emit the ownership, pause and upgrade events. */
  predicate Registered(ev: Event) {
    match ev.params
    case JackpotClaimed(_, _, _) => ev.contract == ClaimVault
    case WeeklyClaimed(_, _, _) => ev.contract == ClaimVault
    case SignerUpdated(_, _) => ev.contract == ClaimVault
    case KeysPurchased(_, _, _, _) => ev.contract == KeyPurchase
    case ClaimsRecipientUpdated(_, _) => ev.contract == KeyPurchase
    case FeeBpsUpdated(_, _) => ev.contract == KeyPurchase
    case FeeRecipientUpdated(_, _) => ev.contract == KeyPurchase
    case KeyPriceUpdated(_, _) => ev.contract == KeyPurchase
    case _ => true
  }

  /** Name of the raw table a registered event is written to, e.g. `ClaimVault_JackpotClaimed`. */
  function TableName(ev: Event): string {
    (if ev.contract == ClaimVault then "ClaimVault" else "KeyPurchase") + "_" + ev.params.Name()
  }

  /** Address of one raw record: its table and its id. */
  datatype RawKey = RawKey(table: string, id: string)

  /** A raw event record: the deterministic id and the event's parameters verbatim. */
  datatype RawRecord = RawRecord(id: string, params: Params)

  /** The id of an event, `chainId_blockNumber_logIndex`. */
  function IdOf(ev: Event): string {
    EventId(ev.chainId, ev.block.number, ev.logIndex)
  }

  function RawKeyOf(ev: Event): RawKey {
    RawKey(TableName(ev), IdOf(ev))
  }

  /** The raw record every handler stores first (e.g. src/EventHandlers.ts:151-158). */
  function RawRecordOf(ev: Event): RawRecord {
    RawRecord(IdOf(ev), ev.params)
  }

  /** `makeGlobalStats` (src/EventHandlers.ts:52-64): the singleton under `"global"`
      with nothing counted yet, stamped with the block. */
  function MakeGlobalStats(block: BlockMeta): (r: GlobalStats)
    ensures r.id == "global" && r.totalUniquePlayers == 0
    ensures r.keyPurchaseEvents == r.keysPurchased == r.keyPurchaseAmount == 0
    ensures r.weeklyClaimEvents == r.weeklyClaimAmount == r.jackpotClaimEvents == r.jackpotClaimAmount == 0
    ensures r.updatedAtBlock == block.number && r.updatedAtTimestamp == block.timestamp
  {
    GlobalStats("global", 0, 0, 0, 0, 0, 0, 0, 0, block.number, block.timestamp)
  }

  /** `makePlayerStats` (src/EventHandlers.ts:66-80): a player keyed by its wallet,
      first seen and updated at the block, with nothing counted yet. */
  function MakePlayerStats(wallet: string, block: BlockMeta): (r: PlayerStats)
    ensures r.id == r.wallet == wallet
    ensures r.firstSeenBlock == r.updatedAtBlock == block.number
    ensures r.firstSeenTimestamp == r.updatedAtTimestamp == block.timestamp
    ensures r.keyPurchaseEvents == r.keysPurchased == r.keyPurchaseAmount == 0
    ensures r.weeklyClaimEvents == r.weeklyClaimAmount == r.jackpotClaimEvents == r.jackpotClaimAmount == 0
  {
    PlayerStats(wallet, wallet, block.number, block.timestamp, block.number, block.timestamp,
                0, 0, 0, 0, 0, 0, 0)
  }

  /** `makeWeeklyStats` (src/EventHandlers.ts:82-90): a week keyed by its own number,
      with no claim and no claimer yet. */
  function MakeWeeklyStats(week: nat, block: BlockMeta): (r: WeeklyStats)
    ensures r.week == week && r.id == WeeklyId(r.week)
    ensures r.weeklyClaimEvents == r.weeklyClaimAmount == r.uniqueClaimers == 0
    ensures r.updatedAtBlock == block.number && r.updatedAtTimestamp == block.timestamp
  {
    WeeklyStats(WeeklyId(week), week, 0, 0, 0, block.number, block.timestamp)
  }

  /** `makePlayerWeeklyStats` (src/EventHandlers.ts:92-107): the record of a first claim,
      keyed by its own wallet and week, whose first and last claim are both this one. */
  function MakePlayerWeeklyStats(wallet: string, week: nat, amount: nat, block: BlockMeta): (r: PlayerWeeklyStats)
    ensures r.wallet == wallet && r.week == week && r.id == PlayerWeeklyId(r.wallet, r.week)
    ensures r.weeklyClaimEvents == 1 && r.weeklyClaimAmount == amount
    ensures r.firstClaimBlock == r.lastClaimBlock == block.number
    ensures r.firstClaimTimestamp == r.lastClaimTimestamp == block.timestamp
  {
    PlayerWeeklyStats(PlayerWeeklyId(wallet, week), wallet, week, 1, amount,
                      block.number, block.timestamp, block.number, block.timestamp)
  }

  /** `makeJackpotStats` (src/EventHandlers.ts:109-117): a jackpot keyed by its own
      nonce, with no claim and no claimer yet. */
  function MakeJackpotStats(nonce: nat, block: BlockMeta): (r: JackpotStats)
    ensures r.nonce == nonce && r.id == JackpotId(r.nonce)
    ensures r.jackpotClaimEvents == r.jackpotClaimAmount == r.uniqueClaimers == 0
    ensures r.updatedAtBlock == block.number && r.updatedAtTimestamp == block.timestamp
  {
    JackpotStats(JackpotId(nonce), nonce, 0, 0, 0, block.number, block.timestamp)
  }

  /** `makeJackpotPlayerSeen` (src/EventHandlers.ts:119-123): the seen-fact keyed by
      its own nonce and wallet. */
  function MakeJackpotPlayerSeen(nonce: nat, wallet: string): (r: JackpotPlayerSeen)
    ensures r.nonce == nonce && r.wallet == wallet && r.id == JackpotPlayerSeenId(r.nonce, r.wallet)
  {
    JackpotPlayerSeen(JackpotPlayerSeenId(nonce, wallet), nonce, wallet)
  }
}
