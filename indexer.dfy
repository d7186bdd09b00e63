/** The entity store the handlers write to, and the handlers themselves as methods
    that read records, build the updated ones and write them back in the order of
    src/EventHandlers.ts. Each handler is proved to leave the store exactly as the
    step function `Apply` describes, so everything proved about `Run` holds of the
    store after any sequence of calls. */
module Indexer {
  import opened Ids
  import opened Entities
  import opened Aggregation
  import opened Invariants
  import opened History

  /** One more handled event: the store built from the longer history is the step
      function applied to the store built from the shorter one. */
  lemma RunSnoc(h: seq<Event>, ev: Event, before: Tables, after: Tables)
    requires before == Run(Empty(), h) && after == Apply(before, ev)
    ensures after == Run(Empty(), h + [ev])
  {
    assert (h + [ev])[..|h|] == h;
  }

  /** The step function runs the purchase handler on a purchase from the key-purchase contract. */
  lemma ApplyPurchase(t: Tables, ev: Event)
    requires ev.params.KeysPurchased? && ev.contract == KeyPurchase
    ensures Apply(t, ev) == OnKeysPurchased(t, ev)
  {
  }

  /** The step function runs the weekly-claim handler on a weekly claim from the claim vault. */
  lemma ApplyWeeklyClaim(t: Tables, ev: Event)
    requires ev.params.WeeklyClaimed? && ev.contract == ClaimVault
    ensures Apply(t, ev) == OnWeeklyClaimed(t, ev)
  {
  }

  /** The step function runs the jackpot-claim handler on a jackpot claim from the claim vault. */
  lemma ApplyJackpotClaim(t: Tables, ev: Event)
    requires ev.params.JackpotClaimed? && ev.contract == ClaimVault
    ensures Apply(t, ev) == OnJackpotClaimed(t, ev)
  {
  }

  class Store {
    var global: map<string, GlobalStats>
    var players: map<string, PlayerStats>
    var weekly: map<string, WeeklyStats>
    var playerWeekly: map<string, PlayerWeeklyStats>
    var jackpots: map<string, JackpotStats>
    var jackpotSeen: map<string, JackpotPlayerSeen>
    var raw: map<RawKey, RawRecord>
    /** The events handled so far, in order. */
    ghost var history: seq<Event>

    /** The tables as a value. */
    function Snapshot(): Tables
      reads this
    {
      Tables(global, players, weekly, playerWeekly, jackpots, jackpotSeen, raw)
    }

    /** The tables are what the handled events produce from an empty store. */
    ghost predicate Valid()
      reads this
    {
      Snapshot() == Run(Empty(), history)
    }

    /** A store with no records. */
    constructor ()
      ensures Valid() && history == [] && Snapshot() == Empty()
    {
      global, players, weekly, playerWeekly := map[], map[], map[], map[];
      jackpots, jackpotSeen, raw := map[], map[], map[];
      history := [];
    }

    /** `getOrCreateGlobalStats` (src/EventHandlers.ts:125-126): the stored record, or a
        zeroed one stamped with the block. */
    method GetOrCreateGlobalStats(block: BlockMeta) returns (g: GlobalStats)
      ensures g == GlobalOrNew(Snapshot(), block)
      ensures GLOBAL_STATS_ID in global ==> g == global[GLOBAL_STATS_ID]
      ensures GLOBAL_STATS_ID !in global ==>
        g.id == GLOBAL_STATS_ID && CountersOf(g) == Totals(0, 0, 0, 0, 0, 0, 0) && g.totalUniquePlayers == 0
        && g.updatedAtBlock == block.number && g.updatedAtTimestamp == block.timestamp
    {
      if GLOBAL_STATS_ID in global {
        g := global[GLOBAL_STATS_ID];
      } else {
        g := MakeGlobalStats(block);
      }
    }

    /** `getOrCreatePlayerStats` (src/EventHandlers.ts:128-139): the player is new
        exactly when no record is stored under the wallet; a new record is first seen
        and updated at the block and has every counter at zero. */
    method GetOrCreatePlayerStats(wallet: string, block: BlockMeta) returns (p: PlayerStats, isNewPlayer: bool)
      ensures p == PlayerOrNew(Snapshot(), wallet, block)
      ensures isNewPlayer <==> wallet !in players
      ensures !isNewPlayer ==> p == players[wallet]
      ensures isNewPlayer ==>
        p.id == wallet && p.wallet == wallet
        && p.firstSeenBlock == block.number && p.firstSeenTimestamp == block.timestamp
        && p.updatedAtBlock == block.number && p.updatedAtTimestamp == block.timestamp
        && p.keyPurchaseEvents == 0 && p.keysPurchased == 0 && p.keyPurchaseAmount == 0
        && p.weeklyClaimEvents == 0 && p.weeklyClaimAmount == 0
        && p.jackpotClaimEvents == 0 && p.jackpotClaimAmount == 0
    {
      if wallet in players {
        return players[wallet], false;
      }
      return MakePlayerStats(wallet, block), true;
    }

    /** `getOrCreateWeeklyStats` (src/EventHandlers.ts:141-142): looked up under the
        week's decimal rendering. */
    method GetOrCreateWeeklyStats(week: nat, block: BlockMeta) returns (w: WeeklyStats)
      ensures w == WeeklyOrNew(Snapshot(), week, block)
      ensures WeeklyId(week) in weekly ==> w == weekly[WeeklyId(week)]
      ensures WeeklyId(week) !in weekly ==>
        w.id == WeeklyId(week) && w.week == week
        && w.weeklyClaimEvents == 0 && w.weeklyClaimAmount == 0 && w.uniqueClaimers == 0
        && w.updatedAtBlock == block.number && w.updatedAtTimestamp == block.timestamp
    {
      if WeeklyId(week) in weekly {
        w := weekly[WeeklyId(week)];
      } else {
        w := MakeWeeklyStats(week, block);
      }
    }

    /** `getOrCreateJackpotStats` (src/EventHandlers.ts:144-148): looked up under the
        nonce's decimal rendering. */
    method GetOrCreateJackpotStats(nonce: nat, block: BlockMeta) returns (j: JackpotStats)
      ensures j == JackpotOrNew(Snapshot(), nonce, block)
      ensures JackpotId(nonce) in jackpots ==> j == jackpots[JackpotId(nonce)]
      ensures JackpotId(nonce) !in jackpots ==>
        j.id == JackpotId(nonce) && j.nonce == nonce
        && j.jackpotClaimEvents == 0 && j.jackpotClaimAmount == 0 && j.uniqueClaimers == 0
        && j.updatedAtBlock == block.number && j.updatedAtTimestamp == block.timestamp
    {
      if JackpotId(nonce) in jackpots {
        j := jackpots[JackpotId(nonce)];
      } else {
        j := MakeJackpotStats(nonce, block);
      }
    }

    /** A valid store satisfies the invariant and describes the events it has handled. */
    lemma ValidFacts()
      requires Valid()
      ensures Inv(Snapshot()) && Reflects(Snapshot(), history)
    {
      RunReflects(history);
    }

    /** `ClaimVault.JackpotClaimed` (src/EventHandlers.ts:150-205). */
    method HandleJackpotClaimed(ev: Event)
      requires ev.params.JackpotClaimed? && ev.contract == ClaimVault
      modifies this
      ensures history == old(history) + [ev]
      ensures Snapshot() == OnJackpotClaimed(old(Snapshot()), ev)
    {
      raw := raw[RawKeyOf(ev) := RawRecordOf(ev)];
      var wallet := NormalizeWallet(ev.params.claimer);
      var nonce, amount := ev.params.nonce, ev.params.amount;
      var g := GetOrCreateGlobalStats(ev.block);
      var p, isNewPlayer := GetOrCreatePlayerStats(wallet, ev.block);
      var js := GetOrCreateJackpotStats(nonce, ev.block);
      var seenId := JackpotPlayerSeenId(nonce, wallet);
      var alreadySeen := seenId in jackpotSeen;
      global := global[GLOBAL_STATS_ID := GlobalAfterJackpotClaim(g, isNewPlayer, amount, ev.block)];
      players := players[wallet := PlayerAfterJackpotClaim(p, amount, ev.block)];
      jackpots := jackpots[JackpotId(nonce) := JackpotAfterClaim(js, !alreadySeen, amount, ev.block)];
      if !alreadySeen {
        jackpotSeen := jackpotSeen[seenId := MakeJackpotPlayerSeen(nonce, wallet)];
      }
      history := history + [ev];
    }

    /** `ClaimVault.WeeklyClaimed` (src/EventHandlers.ts:263-325). */
    method HandleWeeklyClaimed(ev: Event)
      requires ev.params.WeeklyClaimed? && ev.contract == ClaimVault
      modifies this
      ensures history == old(history) + [ev]
      ensures Snapshot() == OnWeeklyClaimed(old(Snapshot()), ev)
    {
      raw := raw[RawKeyOf(ev) := RawRecordOf(ev)];
      var wallet := NormalizeWallet(ev.params.claimer);
      var week, amount := ev.params.week, ev.params.amount;
      var g := GetOrCreateGlobalStats(ev.block);
      var p, isNewPlayer := GetOrCreatePlayerStats(wallet, ev.block);
      var ws := GetOrCreateWeeklyStats(week, ev.block);
      var playerWeekKey := PlayerWeeklyId(wallet, week);
      var existing := playerWeekKey in playerWeekly;
      var pw;
      if existing {
        pw := PlayerWeekAfterClaim(playerWeekly[playerWeekKey], amount, ev.block);
      } else {
        pw := MakePlayerWeeklyStats(wallet, week, amount, ev.block);
      }
      assert pw == ClaimWeek(Snapshot(), wallet, week, amount, ev.block);
      global := global[GLOBAL_STATS_ID := GlobalAfterWeeklyClaim(g, isNewPlayer, amount, ev.block)];
      players := players[wallet := PlayerAfterWeeklyClaim(p, amount, ev.block)];
      weekly := weekly[WeeklyId(week) := WeekAfterClaim(ws, !existing, amount, ev.block)];
      playerWeekly := playerWeekly[playerWeekKey := pw];
      history := history + [ev];
    }

    /** `KeyPurchase.KeysPurchased` (src/EventHandlers.ts:367-406). */
    method HandleKeysPurchased(ev: Event)
      requires ev.params.KeysPurchased? && ev.contract == KeyPurchase
      modifies this
      ensures history == old(history) + [ev]
      ensures Snapshot() == OnKeysPurchased(old(Snapshot()), ev)
    {
      raw := raw[RawKeyOf(ev) := RawRecordOf(ev)];
      var wallet := NormalizeWallet(ev.params.buyer);
      var quantity, totalPaid := ev.params.quantity, ev.params.totalPaid;
      var g := GetOrCreateGlobalStats(ev.block);
      var p, isNewPlayer := GetOrCreatePlayerStats(wallet, ev.block);
      global := global[GLOBAL_STATS_ID := GlobalAfterPurchase(g, isNewPlayer, quantity, totalPaid, ev.block)];
      players := players[wallet := PlayerAfterPurchase(p, quantity, totalPaid, ev.block)];
      history := history + [ev];
    }

    /** The administrative handlers (src/EventHandlers.ts:207-261, 327-365, 408-452):
        each stores the event's raw record and nothing else. */
    method HandleAdmin(ev: Event)
      requires Registered(ev) && !ev.params.IsEconomic()
      modifies this
      ensures history == old(history) + [ev]
      ensures Snapshot() == old(Snapshot()).(raw := old(raw)[RawKeyOf(ev) := RawRecordOf(ev)])
    {
      raw := raw[RawKeyOf(ev) := RawRecordOf(ev)];
      history := history + [ev];
    }

    /** Delivery of one event: the handler registered for its contract and kind runs;
        an event no handler is registered for is passed over. */
    method Handle(ev: Event)
      requires Valid()
      modifies this
      ensures history == old(history) + [ev]
      ensures Snapshot() == Apply(old(Snapshot()), ev)
      ensures Valid() && Inv(Snapshot()) && Reflects(Snapshot(), history)
    {
      ghost var before, handled := Snapshot(), history;
      if !Registered(ev) {
        history := history + [ev];
      } else if ev.params.JackpotClaimed? {
        HandleJackpotClaimed(ev);
        ApplyJackpotClaim(before, ev);
      } else if ev.params.WeeklyClaimed? {
        HandleWeeklyClaimed(ev);
        ApplyWeeklyClaim(before, ev);
      } else if ev.params.KeysPurchased? {
        HandleKeysPurchased(ev);
        ApplyPurchase(before, ev);
      } else {
        HandleAdmin(ev);
      }
      RunSnoc(handled, ev, before, Snapshot());
      ValidFacts();
    }
  }
}
