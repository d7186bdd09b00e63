/** The store as a value and the effect of one event on it
    (src/EventHandlers.ts:125-453). Each handler of the source reads the records it
    needs (get-or-create), adds the event's quantities, stamps the block and writes
    the records back; here that read-modify-write is a function from the tables
    before the event to the tables after it. */
module Aggregation {
  import opened Ids
  import opened Entities

  /** `GLOBAL_STATS_ID` (src/EventHandlers.ts:33). */
  const GLOBAL_STATS_ID: string := "global"

  /** The entity tables: five aggregate tables, the jackpot seen-facts and the
      raw event tables (addressed by table name and event id). */
  datatype Tables = Tables(
    global: map<string, GlobalStats>,
    players: map<string, PlayerStats>,
    weekly: map<string, WeeklyStats>,
    playerWeekly: map<string, PlayerWeeklyStats>,
    jackpots: map<string, JackpotStats>,
    jackpotSeen: map<string, JackpotPlayerSeen>,
    raw: map<RawKey, RawRecord>)

  /** The store before any event. */
  function Empty(): Tables {
    Tables(map[], map[], map[], map[], map[], map[], map[])
  }

  /** `getOrCreateGlobalStats` (src/EventHandlers.ts:125-126). */
  function GlobalOrNew(t: Tables, block: BlockMeta): GlobalStats {
    if GLOBAL_STATS_ID in t.global then t.global[GLOBAL_STATS_ID] else MakeGlobalStats(block)
  }

  /** `getOrCreatePlayerStats` (src/EventHandlers.ts:128-139); the player is new iff
      `wallet !in t.players`. */
  function PlayerOrNew(t: Tables, wallet: string, block: BlockMeta): PlayerStats {
    if wallet in t.players then t.players[wallet] else MakePlayerStats(wallet, block)
  }

  /** `getOrCreateWeeklyStats` (src/EventHandlers.ts:141-142). */
  function WeeklyOrNew(t: Tables, week: nat, block: BlockMeta): WeeklyStats {
    if WeeklyId(week) in t.weekly then t.weekly[WeeklyId(week)] else MakeWeeklyStats(week, block)
  }

  /** `getOrCreateJackpotStats` (src/EventHandlers.ts:144-148). */
  function JackpotOrNew(t: Tables, nonce: nat, block: BlockMeta): JackpotStats {
    if JackpotId(nonce) in t.jackpots then t.jackpots[JackpotId(nonce)] else MakeJackpotStats(nonce, block)
  }

  /** The global counters as a reader sees them: all zero before the first economic event. */
  function GlobalView(t: Tables): GlobalStats {
    GlobalOrNew(t, BlockMeta(0, 0))
  }

  /** 1 when a "first time" condition holds, else 0 (the `? 1n : ZERO` bumps). */
  function Bump(isNew: bool): nat {
    if isNew then 1 else 0
  }

  /** The raw-record write every handler starts with. */
  function StoreRaw(t: Tables, ev: Event): Tables {
    t.(raw := t.raw[RawKeyOf(ev) := RawRecordOf(ev)])
  }

  /** The global record after a purchase (src/EventHandlers.ts:385-393). */
  function GlobalAfterPurchase(g: GlobalStats, isNewPlayer: bool, quantity: nat, totalPaid: nat, block: BlockMeta): GlobalStats {
    g.(totalUniquePlayers := g.totalUniquePlayers + Bump(isNewPlayer),
       keyPurchaseEvents := g.keyPurchaseEvents + 1,
       keysPurchased := g.keysPurchased + quantity,
       keyPurchaseAmount := g.keyPurchaseAmount + totalPaid,
       updatedAtBlock := block.number,
       updatedAtTimestamp := block.timestamp)
  }

  /** The buyer's record after a purchase (src/EventHandlers.ts:395-402). */
  function PlayerAfterPurchase(p: PlayerStats, quantity: nat, totalPaid: nat, block: BlockMeta): PlayerStats {
    p.(keyPurchaseEvents := p.keyPurchaseEvents + 1,
       keysPurchased := p.keysPurchased + quantity,
       keyPurchaseAmount := p.keyPurchaseAmount + totalPaid,
       updatedAtBlock := block.number,
       updatedAtTimestamp := block.timestamp)
  }

  /** `KeyPurchase.KeysPurchased` (src/EventHandlers.ts:367-406): writes the raw record,
      the global record and the buyer's record, and no other table (`Effects.PurchaseEffect`). */
  function OnKeysPurchased(t: Tables, ev: Event): Tables
    requires ev.params.KeysPurchased?
  {
    var t0 := StoreRaw(t, ev);
    var wallet := NormalizeWallet(ev.params.buyer);
    var quantity, totalPaid := ev.params.quantity, ev.params.totalPaid;
    var g := GlobalOrNew(t0, ev.block);
    var p := PlayerOrNew(t0, wallet, ev.block);
    var isNewPlayer := wallet !in t0.players;
    t0.(global := t0.global[GLOBAL_STATS_ID := GlobalAfterPurchase(g, isNewPlayer, quantity, totalPaid, ev.block)],
        players := t0.players[wallet := PlayerAfterPurchase(p, quantity, totalPaid, ev.block)])
  }

  /** An existing `PlayerWeeklyStats` record after another claim in its week: the
      first claim stays, the last claim moves to this block (src/EventHandlers.ts:285-292). */
  function PlayerWeekAfterClaim(pw: PlayerWeeklyStats, amount: nat, block: BlockMeta): PlayerWeeklyStats {
    pw.(weeklyClaimEvents := pw.weeklyClaimEvents + 1,
        weeklyClaimAmount := pw.weeklyClaimAmount + amount,
        lastClaimBlock := block.number,
        lastClaimTimestamp := block.timestamp)
  }

  /** The `PlayerWeeklyStats` record a weekly claim writes (src/EventHandlers.ts:281-293). */
  function ClaimWeek(t: Tables, wallet: string, week: nat, amount: nat, block: BlockMeta): PlayerWeeklyStats {
    var key := PlayerWeeklyId(wallet, week);
    if key in t.playerWeekly then PlayerWeekAfterClaim(t.playerWeekly[key], amount, block)
    else MakePlayerWeeklyStats(wallet, week, amount, block)
  }

  /** The global record after a weekly claim (src/EventHandlers.ts:295-302). */
  function GlobalAfterWeeklyClaim(g: GlobalStats, isNewPlayer: bool, amount: nat, block: BlockMeta): GlobalStats {
    g.(totalUniquePlayers := g.totalUniquePlayers + Bump(isNewPlayer),
       weeklyClaimEvents := g.weeklyClaimEvents + 1,
       weeklyClaimAmount := g.weeklyClaimAmount + amount,
       updatedAtBlock := block.number,
       updatedAtTimestamp := block.timestamp)
  }

  /** The claimer's record after a weekly claim (src/EventHandlers.ts:304-310). */
  function PlayerAfterWeeklyClaim(p: PlayerStats, amount: nat, block: BlockMeta): PlayerStats {
    p.(weeklyClaimEvents := p.weeklyClaimEvents + 1,
       weeklyClaimAmount := p.weeklyClaimAmount + amount,
       updatedAtBlock := block.number,
       updatedAtTimestamp := block.timestamp)
  }

  /** The week's record after a claim (src/EventHandlers.ts:312-319). */
  function WeekAfterClaim(ws: WeeklyStats, isNewClaimer: bool, amount: nat, block: BlockMeta): WeeklyStats {
    ws.(weeklyClaimEvents := ws.weeklyClaimEvents + 1,
        weeklyClaimAmount := ws.weeklyClaimAmount + amount,
        uniqueClaimers := ws.uniqueClaimers + Bump(isNewClaimer),
        updatedAtBlock := block.number,
        updatedAtTimestamp := block.timestamp)
  }

  /** `ClaimVault.WeeklyClaimed` (src/EventHandlers.ts:263-325): writes the raw record,
      the global record, the claimer's record, the week's record and the claimer's
      record for the week, and leaves the jackpot tables alone (`Effects.WeeklyClaimEffect`). */
  function OnWeeklyClaimed(t: Tables, ev: Event): Tables
    requires ev.params.WeeklyClaimed?
  {
    var t0 := StoreRaw(t, ev);
    var wallet := NormalizeWallet(ev.params.claimer);
    var week, amount := ev.params.week, ev.params.amount;
    var g := GlobalOrNew(t0, ev.block);
    var p := PlayerOrNew(t0, wallet, ev.block);
    var isNewPlayer := wallet !in t0.players;
    var ws := WeeklyOrNew(t0, week, ev.block);
    var key := PlayerWeeklyId(wallet, week);
    var isNewClaimer := key !in t0.playerWeekly;
    t0.(global := t0.global[GLOBAL_STATS_ID := GlobalAfterWeeklyClaim(g, isNewPlayer, amount, ev.block)],
        players := t0.players[wallet := PlayerAfterWeeklyClaim(p, amount, ev.block)],
        weekly := t0.weekly[WeeklyId(week) := WeekAfterClaim(ws, isNewClaimer, amount, ev.block)],
        playerWeekly := t0.playerWeekly[key := ClaimWeek(t0, wallet, week, amount, ev.block)])
  }

  /** The global record after a jackpot claim (src/EventHandlers.ts:172-179). */
  function GlobalAfterJackpotClaim(g: GlobalStats, isNewPlayer: bool, amount: nat, block: BlockMeta): GlobalStats {
    g.(totalUniquePlayers := g.totalUniquePlayers + Bump(isNewPlayer),
       jackpotClaimEvents := g.jackpotClaimEvents + 1,
       jackpotClaimAmount := g.jackpotClaimAmount + amount,
       updatedAtBlock := block.number,
       updatedAtTimestamp := block.timestamp)
  }

  /** The claimer's record after a jackpot claim (src/EventHandlers.ts:181-187). */
  function PlayerAfterJackpotClaim(p: PlayerStats, amount: nat, block: BlockMeta): PlayerStats {
    p.(jackpotClaimEvents := p.jackpotClaimEvents + 1,
       jackpotClaimAmount := p.jackpotClaimAmount + amount,
       updatedAtBlock := block.number,
       updatedAtTimestamp := block.timestamp)
  }

  /** The jackpot's record after a claim (src/EventHandlers.ts:189-196). */
  function JackpotAfterClaim(js: JackpotStats, isNewClaimer: bool, amount: nat, block: BlockMeta): JackpotStats {
    js.(jackpotClaimEvents := js.jackpotClaimEvents + 1,
        jackpotClaimAmount := js.jackpotClaimAmount + amount,
        uniqueClaimers := js.uniqueClaimers + Bump(isNewClaimer),
        updatedAtBlock := block.number,
        updatedAtTimestamp := block.timestamp)
  }

  /** `ClaimVault.JackpotClaimed` (src/EventHandlers.ts:150-205): writes the raw record,
      the global record, the claimer's record, the jackpot's record and the seen-fact,
      and leaves the weekly tables alone (`Effects.JackpotClaimEffect`). */
  function OnJackpotClaimed(t: Tables, ev: Event): Tables
    requires ev.params.JackpotClaimed?
  {
    var t0 := StoreRaw(t, ev);
    var wallet := NormalizeWallet(ev.params.claimer);
    var nonce, amount := ev.params.nonce, ev.params.amount;
    var g := GlobalOrNew(t0, ev.block);
    var p := PlayerOrNew(t0, wallet, ev.block);
    var isNewPlayer := wallet !in t0.players;
    var js := JackpotOrNew(t0, nonce, ev.block);
    var seenId := JackpotPlayerSeenId(nonce, wallet);
    var alreadySeen := seenId in t0.jackpotSeen;
    t0.(global := t0.global[GLOBAL_STATS_ID := GlobalAfterJackpotClaim(g, isNewPlayer, amount, ev.block)],
        players := t0.players[wallet := PlayerAfterJackpotClaim(p, amount, ev.block)],
        jackpots := t0.jackpots[JackpotId(nonce) := JackpotAfterClaim(js, !alreadySeen, amount, ev.block)],
        jackpotSeen := if alreadySeen then t0.jackpotSeen
                       else t0.jackpotSeen[seenId := MakeJackpotPlayerSeen(nonce, wallet)])
  }

  /** The effect of one delivered event: the handler registered for its contract
      and kind, or nothing when no handler is registered. Administrative events
      only store their raw record (src/EventHandlers.ts:207-261, 327-365, 408-452). */
  function Apply(t: Tables, ev: Event): Tables
  {
    if !Registered(ev) then t
    else match ev.params
      case KeysPurchased(_, _, _, _) => OnKeysPurchased(t, ev)
      case WeeklyClaimed(_, _, _) => OnWeeklyClaimed(t, ev)
      case JackpotClaimed(_, _, _) => OnJackpotClaimed(t, ev)
      case _ => StoreRaw(t, ev)
  }

  /** The store after a sequence of events delivered one at a time, in order. */
  function Run(t: Tables, history: seq<Event>): Tables
    decreases |history|
  {
    if history == [] then t
    else Apply(Run(t, history[..|history| - 1]), history[|history| - 1])
  }
}
