/** What one handler call changes, record by record: which entries are written,
    by how much each counter moves, which timestamps are stamped and which are
    kept, and which tables are left alone (src/EventHandlers.ts:150-452). */
module Effects {
  import opened Ids
  import opened Entities
  import opened Aggregation

  /** `getOrCreatePlayerStats` followed by the write-back: the wallet's record now
      exists, keeps its first-seen stamp if it existed and takes the event's block
      as first-seen otherwise, is stamped as updated at the event's block, and no
      other player record changes. */
  ghost predicate PlayerTouched(t: Tables, t': Tables, wallet: string, block: BlockMeta) {
    && t'.players.Keys == t.players.Keys + {wallet}
    && (forall w | w in t.players && w != wallet :: t'.players[w] == t.players[w])
    && var p' := t'.players[wallet];
       && (if wallet in t.players
           then p'.firstSeenBlock == t.players[wallet].firstSeenBlock
                && p'.firstSeenTimestamp == t.players[wallet].firstSeenTimestamp
           else p'.firstSeenBlock == block.number && p'.firstSeenTimestamp == block.timestamp)
       && p'.updatedAtBlock == block.number && p'.updatedAtTimestamp == block.timestamp
  }

  /** The global record exists afterwards, `totalUniquePlayers` grew by one exactly
      when the wallet had no player record, and the record is stamped with the block. */
  ghost predicate GlobalTouched(t: Tables, t': Tables, wallet: string, block: BlockMeta) {
    && GLOBAL_STATS_ID in t'.global
    && (forall k | k in t.global && k != GLOBAL_STATS_ID :: k in t'.global && t'.global[k] == t.global[k])
    && var g, g' := GlobalView(t), t'.global[GLOBAL_STATS_ID];
       && g'.totalUniquePlayers == g.totalUniquePlayers + (if wallet in t.players then 0 else 1)
       && g'.updatedAtBlock == block.number && g'.updatedAtTimestamp == block.timestamp
  }

  /** The raw record of the event is stored under its table and its
      `chainId_blockNumber_logIndex` id with the parameters exactly as delivered,
      and no other raw record changes. */
  ghost predicate RawStored(t: Tables, t': Tables, ev: Event) {
    && t'.raw.Keys == t.raw.Keys + {RawKeyOf(ev)}
    && (forall k | k in t.raw && k != RawKeyOf(ev) :: t'.raw[k] == t.raw[k])
    && t'.raw[RawKeyOf(ev)].id == EventId(ev.chainId, ev.block.number, ev.logIndex)
    && t'.raw[RawKeyOf(ev)].params == ev.params
  }

  /** `KeyPurchase.KeysPurchased` (src/EventHandlers.ts:367-406): one purchase event,
      its quantity and its total paid are added to the global record and to the
      buyer's record; no claim counter and no weekly or jackpot table changes. */
  lemma PurchaseEffect(t: Tables, ev: Event)
    requires ev.params.KeysPurchased?
    ensures var t', wallet := OnKeysPurchased(t, ev), NormalizeWallet(ev.params.buyer);
      var p, p' := PlayerOrNew(t, wallet, BlockMeta(0, 0)), t'.players[wallet];
      var g, g' := GlobalView(t), t'.global[GLOBAL_STATS_ID];
      && RawStored(t, t', ev)
      && PlayerTouched(t, t', wallet, ev.block)
      && GlobalTouched(t, t', wallet, ev.block)
      && p'.keyPurchaseEvents == p.keyPurchaseEvents + 1
      && p'.keysPurchased == p.keysPurchased + ev.params.quantity
      && p'.keyPurchaseAmount == p.keyPurchaseAmount + ev.params.totalPaid
      && p'.weeklyClaimEvents == p.weeklyClaimEvents && p'.weeklyClaimAmount == p.weeklyClaimAmount
      && p'.jackpotClaimEvents == p.jackpotClaimEvents && p'.jackpotClaimAmount == p.jackpotClaimAmount
      && g'.keyPurchaseEvents == g.keyPurchaseEvents + 1
      && g'.keysPurchased == g.keysPurchased + ev.params.quantity
      && g'.keyPurchaseAmount == g.keyPurchaseAmount + ev.params.totalPaid
      && g'.weeklyClaimEvents == g.weeklyClaimEvents && g'.weeklyClaimAmount == g.weeklyClaimAmount
      && g'.jackpotClaimEvents == g.jackpotClaimEvents && g'.jackpotClaimAmount == g.jackpotClaimAmount
      && t'.weekly == t.weekly && t'.playerWeekly == t.playerWeekly
      && t'.jackpots == t.jackpots && t'.jackpotSeen == t.jackpotSeen
  {
  }

  /** The raw record and the claimer's record after a weekly claim. */
  lemma WeeklyClaimPlayerEffect(t: Tables, ev: Event)
    requires ev.params.WeeklyClaimed?
    ensures var t', wallet := OnWeeklyClaimed(t, ev), NormalizeWallet(ev.params.claimer);
      var amount := ev.params.amount;
      var p, p' := PlayerOrNew(t, wallet, BlockMeta(0, 0)), t'.players[wallet];
      && RawStored(t, t', ev)
      && PlayerTouched(t, t', wallet, ev.block)
      && p'.weeklyClaimEvents == p.weeklyClaimEvents + 1
      && p'.weeklyClaimAmount == p.weeklyClaimAmount + amount
      && p'.keyPurchaseEvents == p.keyPurchaseEvents && p'.keysPurchased == p.keysPurchased
      && p'.keyPurchaseAmount == p.keyPurchaseAmount
      && p'.jackpotClaimEvents == p.jackpotClaimEvents && p'.jackpotClaimAmount == p.jackpotClaimAmount
  {
  }

  /** The global record after a weekly claim. */
  lemma WeeklyClaimGlobalEffect(t: Tables, ev: Event)
    requires ev.params.WeeklyClaimed?
    ensures var t', wallet := OnWeeklyClaimed(t, ev), NormalizeWallet(ev.params.claimer);
      var amount := ev.params.amount;
      var g, g' := GlobalView(t), t'.global[GLOBAL_STATS_ID];
      && GlobalTouched(t, t', wallet, ev.block)
      && g'.weeklyClaimEvents == g.weeklyClaimEvents + 1
      && g'.weeklyClaimAmount == g.weeklyClaimAmount + amount
      && g'.keyPurchaseEvents == g.keyPurchaseEvents && g'.keysPurchased == g.keysPurchased
      && g'.keyPurchaseAmount == g.keyPurchaseAmount
      && g'.jackpotClaimEvents == g.jackpotClaimEvents && g'.jackpotClaimAmount == g.jackpotClaimAmount
  {
  }

  /** The week's records after a weekly claim. */
  lemma WeeklyClaimWeekEffect(t: Tables, ev: Event)
    requires ev.params.WeeklyClaimed?
    ensures var t', wallet := OnWeeklyClaimed(t, ev), NormalizeWallet(ev.params.claimer);
      var week, amount := ev.params.week, ev.params.amount;
      var key := PlayerWeeklyId(wallet, week);
      var ws, ws' := WeeklyOrNew(t, week, BlockMeta(0, 0)), t'.weekly[WeeklyId(week)];
      var pw' := t'.playerWeekly[key];
      && t'.weekly.Keys == t.weekly.Keys + {WeeklyId(week)}
      && (forall k | k in t.weekly && k != WeeklyId(week) :: t'.weekly[k] == t.weekly[k])
      && ws'.weeklyClaimEvents == ws.weeklyClaimEvents + 1
      && ws'.weeklyClaimAmount == ws.weeklyClaimAmount + amount
      && ws'.uniqueClaimers == ws.uniqueClaimers + (if key in t.playerWeekly then 0 else 1)
      && ws'.updatedAtBlock == ev.block.number && ws'.updatedAtTimestamp == ev.block.timestamp
      && t'.playerWeekly.Keys == t.playerWeekly.Keys + {key}
      && (forall k | k in t.playerWeekly && k != key :: t'.playerWeekly[k] == t.playerWeekly[k])
      && (if key in t.playerWeekly then
            var pw := t.playerWeekly[key];
            && pw'.weeklyClaimEvents == pw.weeklyClaimEvents + 1
            && pw'.weeklyClaimAmount == pw.weeklyClaimAmount + amount
            && pw'.firstClaimBlock == pw.firstClaimBlock && pw'.firstClaimTimestamp == pw.firstClaimTimestamp
          else
            && pw'.weeklyClaimEvents == 1 && pw'.weeklyClaimAmount == amount
            && pw'.firstClaimBlock == ev.block.number && pw'.firstClaimTimestamp == ev.block.timestamp)
      && pw'.lastClaimBlock == ev.block.number && pw'.lastClaimTimestamp == ev.block.timestamp
      && t'.jackpots == t.jackpots && t'.jackpotSeen == t.jackpotSeen
  {
  }

  /** `ClaimVault.WeeklyClaimed` (src/EventHandlers.ts:263-325): the claim is counted
      into the global record, the claimer's record and the week's record, and no other
      counter of the first two moves; the week's `uniqueClaimers` grows exactly when the
      wallet had no record for that week; the wallet's per-week record keeps its first
      claim and moves its last claim to this block, or starts with this claim as both
      first and last. */
  lemma WeeklyClaimEffect(t: Tables, ev: Event)
    requires ev.params.WeeklyClaimed?
    ensures var t', wallet := OnWeeklyClaimed(t, ev), NormalizeWallet(ev.params.claimer);
      var week, amount := ev.params.week, ev.params.amount;
      var key := PlayerWeeklyId(wallet, week);
      var p, p' := PlayerOrNew(t, wallet, BlockMeta(0, 0)), t'.players[wallet];
      var g, g' := GlobalView(t), t'.global[GLOBAL_STATS_ID];
      var ws, ws' := WeeklyOrNew(t, week, BlockMeta(0, 0)), t'.weekly[WeeklyId(week)];
      var pw' := t'.playerWeekly[key];
      && RawStored(t, t', ev)
      && PlayerTouched(t, t', wallet, ev.block)
      && GlobalTouched(t, t', wallet, ev.block)
      && p'.weeklyClaimEvents == p.weeklyClaimEvents + 1
      && p'.weeklyClaimAmount == p.weeklyClaimAmount + amount
      && p'.keyPurchaseEvents == p.keyPurchaseEvents && p'.keysPurchased == p.keysPurchased
      && p'.keyPurchaseAmount == p.keyPurchaseAmount
      && p'.jackpotClaimEvents == p.jackpotClaimEvents && p'.jackpotClaimAmount == p.jackpotClaimAmount
      && g'.weeklyClaimEvents == g.weeklyClaimEvents + 1
      && g'.weeklyClaimAmount == g.weeklyClaimAmount + amount
      && g'.keyPurchaseEvents == g.keyPurchaseEvents && g'.keysPurchased == g.keysPurchased
      && g'.keyPurchaseAmount == g.keyPurchaseAmount
      && g'.jackpotClaimEvents == g.jackpotClaimEvents && g'.jackpotClaimAmount == g.jackpotClaimAmount
      && t'.weekly.Keys == t.weekly.Keys + {WeeklyId(week)}
      && (forall k | k in t.weekly && k != WeeklyId(week) :: t'.weekly[k] == t.weekly[k])
      && ws'.weeklyClaimEvents == ws.weeklyClaimEvents + 1
      && ws'.weeklyClaimAmount == ws.weeklyClaimAmount + amount
      && ws'.uniqueClaimers == ws.uniqueClaimers + (if key in t.playerWeekly then 0 else 1)
      && ws'.updatedAtBlock == ev.block.number && ws'.updatedAtTimestamp == ev.block.timestamp
      && t'.playerWeekly.Keys == t.playerWeekly.Keys + {key}
      && (forall k | k in t.playerWeekly && k != key :: t'.playerWeekly[k] == t.playerWeekly[k])
      && (if key in t.playerWeekly then
            var pw := t.playerWeekly[key];
            && pw'.weeklyClaimEvents == pw.weeklyClaimEvents + 1
            && pw'.weeklyClaimAmount == pw.weeklyClaimAmount + amount
            && pw'.firstClaimBlock == pw.firstClaimBlock && pw'.firstClaimTimestamp == pw.firstClaimTimestamp
          else
            && pw'.weeklyClaimEvents == 1 && pw'.weeklyClaimAmount == amount
            && pw'.firstClaimBlock == ev.block.number && pw'.firstClaimTimestamp == ev.block.timestamp)
      && pw'.lastClaimBlock == ev.block.number && pw'.lastClaimTimestamp == ev.block.timestamp
      && t'.jackpots == t.jackpots && t'.jackpotSeen == t.jackpotSeen
  {
    WeeklyClaimPlayerEffect(t, ev);
    WeeklyClaimGlobalEffect(t, ev);
    WeeklyClaimWeekEffect(t, ev);
  }

  /** The raw record and the claimer's record after a jackpot claim. */
  lemma JackpotClaimPlayerEffect(t: Tables, ev: Event)
    requires ev.params.JackpotClaimed?
    ensures var t', wallet := OnJackpotClaimed(t, ev), NormalizeWallet(ev.params.claimer);
      var amount := ev.params.amount;
      var p, p' := PlayerOrNew(t, wallet, BlockMeta(0, 0)), t'.players[wallet];
      && RawStored(t, t', ev)
      && PlayerTouched(t, t', wallet, ev.block)
      && p'.jackpotClaimEvents == p.jackpotClaimEvents + 1
      && p'.jackpotClaimAmount == p.jackpotClaimAmount + amount
      && p'.keyPurchaseEvents == p.keyPurchaseEvents && p'.keysPurchased == p.keysPurchased
      && p'.keyPurchaseAmount == p.keyPurchaseAmount
      && p'.weeklyClaimEvents == p.weeklyClaimEvents && p'.weeklyClaimAmount == p.weeklyClaimAmount
  {
  }

  /** The global record after a jackpot claim. */
  lemma JackpotClaimGlobalEffect(t: Tables, ev: Event)
    requires ev.params.JackpotClaimed?
    ensures var t', wallet := OnJackpotClaimed(t, ev), NormalizeWallet(ev.params.claimer);
      var amount := ev.params.amount;
      var g, g' := GlobalView(t), t'.global[GLOBAL_STATS_ID];
      && GlobalTouched(t, t', wallet, ev.block)
      && g'.jackpotClaimEvents == g.jackpotClaimEvents + 1
      && g'.jackpotClaimAmount == g.jackpotClaimAmount + amount
      && g'.keyPurchaseEvents == g.keyPurchaseEvents && g'.keysPurchased == g.keysPurchased
      && g'.keyPurchaseAmount == g.keyPurchaseAmount
      && g'.weeklyClaimEvents == g.weeklyClaimEvents && g'.weeklyClaimAmount == g.weeklyClaimAmount
  {
  }

  /** The jackpot's record and the seen-facts after a jackpot claim. */
  lemma JackpotClaimScopeEffect(t: Tables, ev: Event)
    requires ev.params.JackpotClaimed?
    ensures var t', wallet := OnJackpotClaimed(t, ev), NormalizeWallet(ev.params.claimer);
      var nonce, amount := ev.params.nonce, ev.params.amount;
      var seenId := JackpotPlayerSeenId(nonce, wallet);
      var js, js' := JackpotOrNew(t, nonce, BlockMeta(0, 0)), t'.jackpots[JackpotId(nonce)];
      && t'.jackpots.Keys == t.jackpots.Keys + {JackpotId(nonce)}
      && (forall k | k in t.jackpots && k != JackpotId(nonce) :: t'.jackpots[k] == t.jackpots[k])
      && js'.jackpotClaimEvents == js.jackpotClaimEvents + 1
      && js'.jackpotClaimAmount == js.jackpotClaimAmount + amount
      && js'.uniqueClaimers == js.uniqueClaimers + (if seenId in t.jackpotSeen then 0 else 1)
      && js'.updatedAtBlock == ev.block.number && js'.updatedAtTimestamp == ev.block.timestamp
      && t'.jackpotSeen.Keys == t.jackpotSeen.Keys + {seenId}
      && (forall k | k in t.jackpotSeen :: t'.jackpotSeen[k] == t.jackpotSeen[k])
      && (seenId !in t.jackpotSeen ==>
            t'.jackpotSeen[seenId] == JackpotPlayerSeen(seenId, nonce, wallet))
      && t'.weekly == t.weekly && t'.playerWeekly == t.playerWeekly
  {
  }

  /** `ClaimVault.JackpotClaimed` (src/EventHandlers.ts:150-205): the claim is counted
      into the global record, the claimer's record and the jackpot's record, and no
      other counter of the first two moves; the jackpot's `uniqueClaimers` grows and the
      seen-fact is written exactly when the wallet had no seen-fact for that nonce, and an
      existing seen-fact is left as it was. */
  lemma JackpotClaimEffect(t: Tables, ev: Event)
    requires ev.params.JackpotClaimed?
    ensures var t', wallet := OnJackpotClaimed(t, ev), NormalizeWallet(ev.params.claimer);
      var nonce, amount := ev.params.nonce, ev.params.amount;
      var seenId := JackpotPlayerSeenId(nonce, wallet);
      var p, p' := PlayerOrNew(t, wallet, BlockMeta(0, 0)), t'.players[wallet];
      var g, g' := GlobalView(t), t'.global[GLOBAL_STATS_ID];
      var js, js' := JackpotOrNew(t, nonce, BlockMeta(0, 0)), t'.jackpots[JackpotId(nonce)];
      && RawStored(t, t', ev)
      && PlayerTouched(t, t', wallet, ev.block)
      && GlobalTouched(t, t', wallet, ev.block)
      && p'.jackpotClaimEvents == p.jackpotClaimEvents + 1
      && p'.jackpotClaimAmount == p.jackpotClaimAmount + amount
      && p'.keyPurchaseEvents == p.keyPurchaseEvents && p'.keysPurchased == p.keysPurchased
      && p'.keyPurchaseAmount == p.keyPurchaseAmount
      && p'.weeklyClaimEvents == p.weeklyClaimEvents && p'.weeklyClaimAmount == p.weeklyClaimAmount
      && g'.jackpotClaimEvents == g.jackpotClaimEvents + 1
      && g'.jackpotClaimAmount == g.jackpotClaimAmount + amount
      && g'.keyPurchaseEvents == g.keyPurchaseEvents && g'.keysPurchased == g.keysPurchased
      && g'.keyPurchaseAmount == g.keyPurchaseAmount
      && g'.weeklyClaimEvents == g.weeklyClaimEvents && g'.weeklyClaimAmount == g.weeklyClaimAmount
      && t'.jackpots.Keys == t.jackpots.Keys + {JackpotId(nonce)}
      && (forall k | k in t.jackpots && k != JackpotId(nonce) :: t'.jackpots[k] == t.jackpots[k])
      && js'.jackpotClaimEvents == js.jackpotClaimEvents + 1
      && js'.jackpotClaimAmount == js.jackpotClaimAmount + amount
      && js'.uniqueClaimers == js.uniqueClaimers + (if seenId in t.jackpotSeen then 0 else 1)
      && js'.updatedAtBlock == ev.block.number && js'.updatedAtTimestamp == ev.block.timestamp
      && t'.jackpotSeen.Keys == t.jackpotSeen.Keys + {seenId}
      && (forall k | k in t.jackpotSeen :: t'.jackpotSeen[k] == t.jackpotSeen[k])
      && (seenId !in t.jackpotSeen ==>
            t'.jackpotSeen[seenId] == JackpotPlayerSeen(seenId, nonce, wallet))
      && t'.weekly == t.weekly && t'.playerWeekly == t.playerWeekly
  {
    JackpotClaimPlayerEffect(t, ev);
    JackpotClaimGlobalEffect(t, ev);
    JackpotClaimScopeEffect(t, ev);
  }

  /** An administrative event (ownership, pause, upgrade, signer, fee, price and
      recipient changes) only stores its raw record (src/EventHandlers.ts:207-261,
      327-365, 408-452). */
  lemma AdminEffect(t: Tables, ev: Event)
    requires Registered(ev) && !ev.params.IsEconomic()
    ensures var t' := Apply(t, ev);
      && RawStored(t, t', ev)
      && t'.global == t.global && t'.players == t.players
      && t'.weekly == t.weekly && t'.playerWeekly == t.playerWeekly
      && t'.jackpots == t.jackpots && t'.jackpotSeen == t.jackpotSeen
  {
  }

  /** An event of a kind that its contract has no handler for leaves the store unchanged. */
  lemma UnregisteredEffect(t: Tables, ev: Event)
    requires !Registered(ev)
    ensures Apply(t, ev) == t
  {
  }

  /** What a handler never takes back: player records and their first-seen stamps,
      per-week records and their first-claim stamps, seen-facts, and raw records. */
  ghost predicate Grows(t: Tables, t': Tables) {
    && (forall w | w in t.players ::
          w in t'.players
          && t'.players[w].firstSeenBlock == t.players[w].firstSeenBlock
          && t'.players[w].firstSeenTimestamp == t.players[w].firstSeenTimestamp)
    && (forall k | k in t.playerWeekly ::
          k in t'.playerWeekly
          && t'.playerWeekly[k].firstClaimBlock == t.playerWeekly[k].firstClaimBlock
          && t'.playerWeekly[k].firstClaimTimestamp == t.playerWeekly[k].firstClaimTimestamp)
    && (forall k | k in t.jackpotSeen :: k in t'.jackpotSeen && t'.jackpotSeen[k] == t.jackpotSeen[k])
    && t.weekly.Keys <= t'.weekly.Keys
    && t.jackpots.Keys <= t'.jackpots.Keys
    && t.raw.Keys <= t'.raw.Keys
  }

  /** A weekly claim takes nothing back: the claimer's per-week record keeps its first claim. */
  lemma WeeklyClaimGrows(t: Tables, ev: Event)
    requires ev.params.WeeklyClaimed?
    ensures Grows(t, OnWeeklyClaimed(t, ev))
  {
    var t0 := StoreRaw(t, ev);
    var wallet, week := NormalizeWallet(ev.params.claimer), ev.params.week;
    var rec := ClaimWeek(t0, wallet, week, ev.params.amount, ev.block);
    var key := PlayerWeeklyId(wallet, week);
    assert OnWeeklyClaimed(t, ev).playerWeekly == t.playerWeekly[key := rec];
    assert key in t.playerWeekly ==>
      rec.firstClaimBlock == t.playerWeekly[key].firstClaimBlock
      && rec.firstClaimTimestamp == t.playerWeekly[key].firstClaimTimestamp;
  }

  /** A purchase takes nothing back. */
  lemma PurchaseGrows(t: Tables, ev: Event)
    requires ev.params.KeysPurchased?
    ensures Grows(t, OnKeysPurchased(t, ev))
  {
  }

  /** A jackpot claim takes nothing back: an existing seen-fact is never rewritten. */
  lemma JackpotClaimGrows(t: Tables, ev: Event)
    requires ev.params.JackpotClaimed?
    ensures Grows(t, OnJackpotClaimed(t, ev))
  {
  }

  /** Storing a raw record takes nothing back. */
  lemma StoreRawGrows(t: Tables, ev: Event)
    ensures Grows(t, StoreRaw(t, ev))
  {
  }

  /** One delivered event takes nothing back. */
  lemma ApplyGrows(t: Tables, ev: Event)
    ensures Grows(t, Apply(t, ev))
  {
    if !Registered(ev) {
      assert Apply(t, ev) == t;
    } else {
      match ev.params
      case KeysPurchased(_, _, _, _) => PurchaseGrows(t, ev);
      case WeeklyClaimed(_, _, _) => WeeklyClaimGrows(t, ev);
      case JackpotClaimed(_, _, _) => JackpotClaimGrows(t, ev);
      case _ => StoreRawGrows(t, ev);
    }
  }

  /** Nothing is taken back over any stretch of a history: a first-seen or
      first-claim stamp, once written, is never rewritten, and neither is a seen-fact. */
  lemma {:induction false} RunGrows(h: seq<Event>, i: nat)
    requires i <= |h|
    ensures Grows(Run(Empty(), h[..i]), Run(Empty(), h))
    decreases |h|
  {
    if i == |h| {
      assert h[..i] == h;
    } else {
      var prefix := h[..|h| - 1];
      assert prefix[..i] == h[..i];
      RunGrows(prefix, i);
      ApplyGrows(Run(Empty(), prefix), h[|h| - 1]);
    }
  }
}
