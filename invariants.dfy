/** What every reachable store satisfies, and the proof that each handler keeps it.
    The invariant ties the "unique" counters to the records that gate them
    (src/EventHandlers.ts:170, 174, 193, 284, 297, 316, 387) and the global
    counters to the per-player, per-week and per-jackpot counters they aggregate. */
module Invariants {
  import opened Ids
  import opened Entities
  import opened Aggregation
  import opened TableFacts

  /** The global record, if any, sits under `GLOBAL_STATS_ID`. */
  ghost predicate GlobalKeyed(m: map<string, GlobalStats>) {
    forall k | k in m :: k == GLOBAL_STATS_ID && m[k].id == k
  }

  /** Every player record sits under its own lower-cased wallet. */
  ghost predicate PlayersKeyed(m: map<string, PlayerStats>) {
    forall k | k in m :: m[k].id == k && m[k].wallet == k && NormalizeWallet(k) == k
  }

  /** Every weekly record sits under the decimal rendering of its week. */
  ghost predicate WeeklyKeyed(m: map<string, WeeklyStats>) {
    forall k | k in m :: m[k].id == k && k == WeeklyId(m[k].week)
  }

  /** Every jackpot record sits under the decimal rendering of its nonce. */
  ghost predicate JackpotsKeyed(m: map<string, JackpotStats>) {
    forall k | k in m :: m[k].id == k && k == JackpotId(m[k].nonce)
  }

  /** Every raw record carries the id it is stored under. */
  ghost predicate RawKeyed(m: map<RawKey, RawRecord>) {
    forall k | k in m :: m[k].id == k.id
  }

  /** A per-week record exists only for a known player and a known week. */
  ghost predicate WeekClaimsKnown(pw: map<string, PlayerWeeklyStats>, players: map<string, PlayerStats>,
                                  weekly: map<string, WeeklyStats>) {
    forall k | k in pw :: pw[k].wallet in players && WeeklyId(pw[k].week) in weekly
  }

  /** A seen-fact exists only for a known player and a known jackpot. */
  ghost predicate JackpotClaimsKnown(seen: map<string, JackpotPlayerSeen>, players: map<string, PlayerStats>,
                                     jackpots: map<string, JackpotStats>) {
    forall k | k in seen :: seen[k].wallet in players && JackpotId(seen[k].nonce) in jackpots
  }

  /** Every record is stored under the key its builder derives from the record's own
      fields, wallets are in lower-cased form, and a per-week or per-jackpot fact
      only exists for a known player and a known week or jackpot. */
  ghost predicate KeysConsistent(t: Tables) {
    && GlobalKeyed(t.global)
    && PlayersKeyed(t.players)
    && WeeklyKeyed(t.weekly)
    && PlayerWeeklyKeyed(t.playerWeekly)
    && WeekClaimsKnown(t.playerWeekly, t.players, t.weekly)
    && JackpotsKeyed(t.jackpots)
    && SeenKeyed(t.jackpotSeen)
    && JackpotClaimsKnown(t.jackpotSeen, t.players, t.jackpots)
    && RawKeyed(t.raw)
  }

  /** `totalUniquePlayers` is the number of `PlayerStats` records. */
  ghost predicate UniquePlayersCounted(t: Tables) {
    GlobalView(t).totalUniquePlayers == |t.players|
  }

  /** Each global counter is the sum of the same counter over all players. */
  ghost predicate PlayerTotalsMatch(t: Tables) {
    var g := GlobalView(t);
    && g.keyPurchaseEvents == TotalOf(t.players, PlayerKeyPurchaseEvents)
    && g.keysPurchased == TotalOf(t.players, PlayerKeysPurchased)
    && g.keyPurchaseAmount == TotalOf(t.players, PlayerKeyPurchaseAmount)
    && g.weeklyClaimEvents == TotalOf(t.players, PlayerWeeklyClaimEvents)
    && g.weeklyClaimAmount == TotalOf(t.players, PlayerWeeklyClaimAmount)
    && g.jackpotClaimEvents == TotalOf(t.players, PlayerJackpotClaimEvents)
    && g.jackpotClaimAmount == TotalOf(t.players, PlayerJackpotClaimAmount)
  }

  /** The global claim counters are the sums over all weeks and over all jackpots. */
  ghost predicate ScopeTotalsMatch(t: Tables) {
    var g := GlobalView(t);
    && g.weeklyClaimEvents == TotalOf(t.weekly, WeekClaimEvents)
    && g.weeklyClaimAmount == TotalOf(t.weekly, WeekClaimAmount)
    && g.jackpotClaimEvents == TotalOf(t.jackpots, JackpotClaimEvents)
    && g.jackpotClaimAmount == TotalOf(t.jackpots, JackpotClaimAmount)
  }

  /** A week's `uniqueClaimers` is the number of distinct wallets with a record for
      that week, and never exceeds its claim count. */
  ghost predicate WeeklyClaimersCounted(weekly: map<string, WeeklyStats>, pw: map<string, PlayerWeeklyStats>) {
    forall k | k in weekly ::
      weekly[k].uniqueClaimers == |WeeklyClaimersOf(pw, weekly[k].week)|
      && weekly[k].uniqueClaimers <= weekly[k].weeklyClaimEvents
  }

  /** A jackpot's `uniqueClaimers` is the number of distinct wallets with a seen-fact
      for that nonce, and never exceeds its claim count. */
  ghost predicate JackpotClaimersCounted(jackpots: map<string, JackpotStats>, seen: map<string, JackpotPlayerSeen>) {
    forall k | k in jackpots ::
      jackpots[k].uniqueClaimers == |JackpotClaimersOf(seen, jackpots[k].nonce)|
      && jackpots[k].uniqueClaimers <= jackpots[k].jackpotClaimEvents
  }

  /** The counters agree with one another and with the records that gate them. */
  ghost predicate CountsMatch(t: Tables) {
    && UniquePlayersCounted(t)
    && PlayerTotalsMatch(t)
    && ScopeTotalsMatch(t)
  }

  ghost predicate Inv(t: Tables) {
    && KeysConsistent(t)
    && CountsMatch(t)
    && WeeklyClaimersCounted(t.weekly, t.playerWeekly)
    && JackpotClaimersCounted(t.jackpots, t.jackpotSeen)
  }

  /** The empty store satisfies the invariant. */
  lemma EmptyInv()
    ensures Inv(Empty())
  {
    var t := Empty();
    assert Column(t.players, PlayerKeyPurchaseEvents) == map[];
    assert Column(t.players, PlayerKeysPurchased) == map[];
    assert Column(t.players, PlayerKeyPurchaseAmount) == map[];
    assert Column(t.players, PlayerWeeklyClaimEvents) == map[];
    assert Column(t.players, PlayerWeeklyClaimAmount) == map[];
    assert Column(t.players, PlayerJackpotClaimEvents) == map[];
    assert Column(t.players, PlayerJackpotClaimAmount) == map[];
    assert Column(t.weekly, WeekClaimEvents) == map[];
    assert Column(t.weekly, WeekClaimAmount) == map[];
    assert Column(t.jackpots, JackpotClaimEvents) == map[];
    assert Column(t.jackpots, JackpotClaimAmount) == map[];
    TotalEmpty();
  }

  /** Storing a raw record keeps the invariant (it touches no aggregate). */
  lemma StoreRawPreservesInv(t: Tables, ev: Event)
    requires Inv(t)
    ensures Inv(StoreRaw(t, ev))
  {
  }

  /** The player record an economic event writes is keyed by its lower-cased wallet. */
  lemma PlayerWriteKeyed(t: Tables, wallet: string, block: BlockMeta)
    requires KeysConsistent(t)
    requires wallet == NormalizeWallet(wallet)
    ensures PlayerOrNew(t, wallet, block).id == wallet
    ensures PlayerOrNew(t, wallet, block).wallet == wallet
  {
  }

  /** A stored weekly record's week is the week its key was built from. */
  lemma WeeklyRecordWeek(t: Tables, week: nat, block: BlockMeta)
    requires KeysConsistent(t)
    ensures WeeklyOrNew(t, week, block).week == week
    ensures WeeklyOrNew(t, week, block).id == WeeklyId(week)
  {
    if WeeklyId(week) in t.weekly {
      NatToStringInjective(t.weekly[WeeklyId(week)].week, week);
    }
  }

  /** A stored jackpot record's nonce is the nonce its key was built from. */
  lemma JackpotRecordNonce(t: Tables, nonce: nat, block: BlockMeta)
    requires KeysConsistent(t)
    ensures JackpotOrNew(t, nonce, block).nonce == nonce
    ensures JackpotOrNew(t, nonce, block).id == JackpotId(nonce)
  {
    if JackpotId(nonce) in t.jackpots {
      NatToStringInjective(t.jackpots[JackpotId(nonce)].nonce, nonce);
    }
  }

  /** The `PlayerWeeklyStats` record a claim writes belongs to the claiming wallet and week. */
  lemma ClaimWeekKeyed(t: Tables, wallet: string, week: nat, amount: nat, block: BlockMeta)
    requires PlayerWeeklyKeyed(t.playerWeekly)
    ensures ClaimWeek(t, wallet, week, amount, block).wallet == wallet
    ensures ClaimWeek(t, wallet, week, amount, block).week == week
    ensures ClaimWeek(t, wallet, week, amount, block).id == PlayerWeeklyId(wallet, week)
  {
    var key := PlayerWeeklyId(wallet, week);
    if key in t.playerWeekly {
      PlayerWeeklyIdInjective(t.playerWeekly[key].wallet, t.playerWeekly[key].week, wallet, week);
    }
  }

  /** The global and the player record moved every counter by the same amount. */
  ghost predicate SameDeltas(g: GlobalStats, g': GlobalStats, p: PlayerStats, p': PlayerStats) {
    && g'.keyPurchaseEvents + p.keyPurchaseEvents == g.keyPurchaseEvents + p'.keyPurchaseEvents
    && g'.keysPurchased + p.keysPurchased == g.keysPurchased + p'.keysPurchased
    && g'.keyPurchaseAmount + p.keyPurchaseAmount == g.keyPurchaseAmount + p'.keyPurchaseAmount
    && g'.weeklyClaimEvents + p.weeklyClaimEvents == g.weeklyClaimEvents + p'.weeklyClaimEvents
    && g'.weeklyClaimAmount + p.weeklyClaimAmount == g.weeklyClaimAmount + p'.weeklyClaimAmount
    && g'.jackpotClaimEvents + p.jackpotClaimEvents == g.jackpotClaimEvents + p'.jackpotClaimEvents
    && g'.jackpotClaimAmount + p.jackpotClaimAmount == g.jackpotClaimAmount + p'.jackpotClaimAmount
  }

  /** The zero-counter view of a player that has no record yet. */
  function PlayerView(t: Tables, wallet: string): PlayerStats {
    PlayerOrNew(t, wallet, BlockMeta(0, 0))
  }

  /** Writing one player record and the global record with equal counter changes
      keeps every global counter equal to the sum over players. */
  lemma PlayerWriteKeepsTotals(t: Tables, t': Tables, wallet: string, p': PlayerStats)
    requires PlayerTotalsMatch(t)
    requires t'.players == t.players[wallet := p']
    requires SameDeltas(GlobalView(t), GlobalView(t'), PlayerView(t, wallet), p')
    ensures PlayerTotalsMatch(t')
  {
    PlayerTotalsUpdate(t.players, wallet, p');
  }

  /** Writing one player record and bumping `totalUniquePlayers` exactly when the
      record is new keeps the unique-player count. */
  lemma PlayerWriteKeepsUniqueCount(t: Tables, t': Tables, wallet: string, p': PlayerStats)
    requires UniquePlayersCounted(t)
    requires t'.players == t.players[wallet := p']
    requires GlobalView(t').totalUniquePlayers == GlobalView(t).totalUniquePlayers + Bump(wallet !in t.players)
    ensures UniquePlayersCounted(t')
  {
    if wallet in t.players {
      assert t'.players.Keys == t.players.Keys;
    } else {
      assert t'.players.Keys == t.players.Keys + {wallet};
    }
  }

  /** Writing one weekly record whose counters moved as the global weekly counters did,
      with the jackpot side untouched, keeps the scope sums. */
  lemma WeeklyWriteKeepsTotals(t: Tables, t': Tables, key: string, ws': WeeklyStats)
    requires ScopeTotalsMatch(t)
    requires t'.weekly == t.weekly[key := ws'] && t'.jackpots == t.jackpots
    requires var g, g' := GlobalView(t), GlobalView(t');
      var before := if key in t.weekly then t.weekly[key] else MakeWeeklyStats(0, BlockMeta(0, 0));
      && g'.weeklyClaimEvents + before.weeklyClaimEvents == g.weeklyClaimEvents + ws'.weeklyClaimEvents
      && g'.weeklyClaimAmount + before.weeklyClaimAmount == g.weeklyClaimAmount + ws'.weeklyClaimAmount
      && g'.jackpotClaimEvents == g.jackpotClaimEvents
      && g'.jackpotClaimAmount == g.jackpotClaimAmount
    ensures ScopeTotalsMatch(t')
  {
    TotalOfUpdate(t.weekly, key, ws', WeekClaimEvents);
    TotalOfUpdate(t.weekly, key, ws', WeekClaimAmount);
  }

  /** The jackpot counterpart of WeeklyWriteKeepsTotals. */
  lemma JackpotWriteKeepsTotals(t: Tables, t': Tables, key: string, js': JackpotStats)
    requires ScopeTotalsMatch(t)
    requires t'.jackpots == t.jackpots[key := js'] && t'.weekly == t.weekly
    requires var g, g' := GlobalView(t), GlobalView(t');
      var before := if key in t.jackpots then t.jackpots[key] else MakeJackpotStats(0, BlockMeta(0, 0));
      && g'.jackpotClaimEvents + before.jackpotClaimEvents == g.jackpotClaimEvents + js'.jackpotClaimEvents
      && g'.jackpotClaimAmount + before.jackpotClaimAmount == g.jackpotClaimAmount + js'.jackpotClaimAmount
      && g'.weeklyClaimEvents == g.weeklyClaimEvents
      && g'.weeklyClaimAmount == g.weeklyClaimAmount
    ensures ScopeTotalsMatch(t')
  {
    TotalOfUpdate(t.jackpots, key, js', JackpotClaimEvents);
    TotalOfUpdate(t.jackpots, key, js', JackpotClaimAmount);
  }

  /** Writing the global record and a player record under its own lower-cased key
      keeps every key consistent. */
  lemma PlayerWriteKeepsKeys(t: Tables, wallet: string, p': PlayerStats, g': GlobalStats)
    requires KeysConsistent(t)
    requires p'.id == wallet && p'.wallet == wallet && NormalizeWallet(wallet) == wallet
    requires g'.id == GLOBAL_STATS_ID
    ensures KeysConsistent(t.(global := t.global[GLOBAL_STATS_ID := g'], players := t.players[wallet := p']))
  {
  }

  /** A weekly claim's writes of the weekly and player-weekly records keep every key consistent. */
  lemma WeekWriteKeepsKeys(t: Tables, week: nat, ws': WeeklyStats, pw': PlayerWeeklyStats)
    requires KeysConsistent(t)
    requires ws'.id == WeeklyId(week) && ws'.week == week
    requires pw'.id == PlayerWeeklyId(pw'.wallet, pw'.week) && pw'.week == week && pw'.wallet in t.players
    ensures KeysConsistent(t.(weekly := t.weekly[WeeklyId(week) := ws'],
                              playerWeekly := t.playerWeekly[pw'.id := pw']))
  {
  }

  /** A jackpot claim's writes of the jackpot record and, when new, the seen-fact keep every key consistent. */
  lemma JackpotWriteKeepsKeys(t: Tables, nonce: nat, wallet: string, js': JackpotStats)
    requires KeysConsistent(t)
    requires js'.id == JackpotId(nonce) && js'.nonce == nonce
    requires wallet in t.players
    ensures var seenId := JackpotPlayerSeenId(nonce, wallet);
      KeysConsistent(t.(jackpots := t.jackpots[JackpotId(nonce) := js'],
                        jackpotSeen := if seenId in t.jackpotSeen then t.jackpotSeen
                                       else t.jackpotSeen[seenId := MakeJackpotPlayerSeen(nonce, wallet)]))
  {
  }

  /** The claimed week's record after a claim counts the week's distinct claimers. */
  lemma ClaimedWeekCounted(weekly: map<string, WeeklyStats>, pw: map<string, PlayerWeeklyStats>,
                           week: nat, rec: PlayerWeeklyStats, ws': WeeklyStats)
    requires WeeklyKeyed(weekly) && PlayerWeeklyKeyed(pw)
    requires forall k | k in pw :: WeeklyId(pw[k].week) in weekly
    requires WeeklyClaimersCounted(weekly, pw)
    requires rec.week == week && rec.id == PlayerWeeklyId(rec.wallet, week)
    requires var before := if WeeklyId(week) in weekly then weekly[WeeklyId(week)] else MakeWeeklyStats(week, BlockMeta(0, 0));
      && ws'.uniqueClaimers == before.uniqueClaimers + Bump(rec.id !in pw)
      && ws'.weeklyClaimEvents == before.weeklyClaimEvents + 1
    ensures ws'.uniqueClaimers == |WeeklyClaimersOf(pw[rec.id := rec], week)|
    ensures ws'.uniqueClaimers <= ws'.weeklyClaimEvents
  {
    var k := WeeklyId(week);
    WeeklyClaimerIffKey(pw, rec.wallet, week);
    WeeklyClaimersUpdate(pw, rec, week);
    var claimers := WeeklyClaimersOf(pw, week);
    if k in weekly {
      NatToStringInjective(weekly[k].week, week);
      assert weekly[k].uniqueClaimers == |claimers|;
    } else {
      // a week without a record has no claimer yet
      assert claimers == {};
    }
    assert (rec.wallet in claimers) == (rec.id in pw);
    assert WeeklyClaimersOf(pw[rec.id := rec], week) == claimers + {rec.wallet};
    if rec.id in pw {
      assert claimers + {rec.wallet} == claimers;
    }
  }

  /** Counting a weekly claim into its week keeps the week's unique-claimer count. */
  lemma WeeklyClaimersAfterClaim(weekly: map<string, WeeklyStats>, pw: map<string, PlayerWeeklyStats>,
                                 week: nat, rec: PlayerWeeklyStats, ws': WeeklyStats)
    requires WeeklyKeyed(weekly) && PlayerWeeklyKeyed(pw)
    requires forall k | k in pw :: WeeklyId(pw[k].week) in weekly
    requires WeeklyClaimersCounted(weekly, pw)
    requires rec.week == week && rec.id == PlayerWeeklyId(rec.wallet, week) && ws'.week == week
    requires var before := if WeeklyId(week) in weekly then weekly[WeeklyId(week)] else MakeWeeklyStats(week, BlockMeta(0, 0));
      && ws'.uniqueClaimers == before.uniqueClaimers + Bump(rec.id !in pw)
      && ws'.weeklyClaimEvents == before.weeklyClaimEvents + 1
    ensures WeeklyClaimersCounted(weekly[WeeklyId(week) := ws'], pw[rec.id := rec])
  {
    var weekly', pw' := weekly[WeeklyId(week) := ws'], pw[rec.id := rec];
    ClaimedWeekCounted(weekly, pw, week, rec, ws');
    forall k | k in weekly'
      ensures weekly'[k].uniqueClaimers == |WeeklyClaimersOf(pw', weekly'[k].week)|
      ensures weekly'[k].uniqueClaimers <= weekly'[k].weeklyClaimEvents
    {
      if k != WeeklyId(week) {
        var w := weekly'[k].week;
        assert w != week && weekly'[k] == weekly[k];
        WeeklyClaimersUpdate(pw, rec, w);
      }
    }
  }

  /** Counting a jackpot claim into its jackpot keeps the jackpot's unique-claimer count. */
  lemma JackpotClaimersAfterClaim(jackpots: map<string, JackpotStats>, seen: map<string, JackpotPlayerSeen>,
                                  nonce: nat, wallet: string, js': JackpotStats)
    requires JackpotsKeyed(jackpots) && SeenKeyed(seen)
    requires forall k | k in seen :: JackpotId(seen[k].nonce) in jackpots
    requires JackpotClaimersCounted(jackpots, seen)
    requires js'.nonce == nonce
    requires var before := if JackpotId(nonce) in jackpots then jackpots[JackpotId(nonce)] else MakeJackpotStats(nonce, BlockMeta(0, 0));
      && js'.uniqueClaimers == before.uniqueClaimers + Bump(JackpotPlayerSeenId(nonce, wallet) !in seen)
      && js'.jackpotClaimEvents == before.jackpotClaimEvents + 1
    ensures var seenId := JackpotPlayerSeenId(nonce, wallet);
      JackpotClaimersCounted(jackpots[JackpotId(nonce) := js'],
                             if seenId in seen then seen else seen[seenId := MakeJackpotPlayerSeen(nonce, wallet)])
  {
    var seenId := JackpotPlayerSeenId(nonce, wallet);
    var jackpots' := jackpots[JackpotId(nonce) := js'];
    var seen' := if seenId in seen then seen else seen[seenId := MakeJackpotPlayerSeen(nonce, wallet)];
    JackpotClaimerIffKey(seen, nonce, wallet);
    forall k | k in jackpots'
      ensures jackpots'[k].uniqueClaimers == |JackpotClaimersOf(seen', jackpots'[k].nonce)|
      ensures jackpots'[k].uniqueClaimers <= jackpots'[k].jackpotClaimEvents
    {
      var n := jackpots'[k].nonce;
      if k == JackpotId(nonce) {
        var claimers := JackpotClaimersOf(seen, nonce);
        if k in jackpots {
          NatToStringInjective(jackpots[k].nonce, nonce);
          assert jackpots[k].uniqueClaimers == |claimers|;
        } else {
          // a jackpot without a record has no claimer yet
          assert claimers == {};
        }
        if seenId !in seen {
          JackpotClaimersAdd(seen, nonce, wallet, nonce);
          assert JackpotClaimersOf(seen', nonce) == claimers + {wallet};
        }
      } else {
        assert n != nonce;
        if seenId !in seen {
          JackpotClaimersAdd(seen, nonce, wallet, n);
        }
      }
    }
  }

  /** A purchase keeps the invariant. */
  lemma KeysPurchasedPreservesInv(t: Tables, ev: Event)
    requires Inv(t) && ev.params.KeysPurchased?
    ensures Inv(OnKeysPurchased(t, ev))
  {
    var t0 := StoreRaw(t, ev);
    StoreRawPreservesInv(t, ev);
    var wallet := NormalizeWallet(ev.params.buyer);
    NormalizeIdempotent(ev.params.buyer);
    var t' := OnKeysPurchased(t, ev);
    var p' := t'.players[wallet];
    PlayerWriteKeepsKeys(t0, wallet, p', t'.global[GLOBAL_STATS_ID]);
    PlayerWriteKeepsUniqueCount(t0, t', wallet, p');
    PlayerWriteKeepsTotals(t0, t', wallet, p');
  }

  /** A weekly claim keeps the keys consistent. */
  lemma WeeklyClaimedKeepsKeys(t: Tables, ev: Event)
    requires KeysConsistent(t) && ev.params.WeeklyClaimed?
    ensures KeysConsistent(OnWeeklyClaimed(t, ev))
  {
    var t0 := StoreRaw(t, ev);
    var wallet := NormalizeWallet(ev.params.claimer);
    var week, amount := ev.params.week, ev.params.amount;
    NormalizeIdempotent(ev.params.claimer);
    WeeklyRecordWeek(t0, week, ev.block);
    ClaimWeekKeyed(t0, wallet, week, amount, ev.block);
    var t' := OnWeeklyClaimed(t, ev);
    var t1 := t0.(global := t'.global, players := t'.players);
    PlayerWriteKeepsKeys(t0, wallet, t'.players[wallet], t'.global[GLOBAL_STATS_ID]);
    WeekWriteKeepsKeys(t1, week, t'.weekly[WeeklyId(week)], t'.playerWeekly[PlayerWeeklyId(wallet, week)]);
  }

  /** A weekly claim keeps the counters in agreement. */
  lemma WeeklyClaimedKeepsCounts(t: Tables, ev: Event)
    requires CountsMatch(t) && ev.params.WeeklyClaimed?
    ensures CountsMatch(OnWeeklyClaimed(t, ev))
  {
    var t0 := StoreRaw(t, ev);
    var wallet := NormalizeWallet(ev.params.claimer);
    var t' := OnWeeklyClaimed(t, ev);
    var p' := t'.players[wallet];
    PlayerWriteKeepsUniqueCount(t0, t', wallet, p');
    PlayerWriteKeepsTotals(t0, t', wallet, p');
    WeeklyWriteKeepsTotals(t0, t', WeeklyId(ev.params.week), t'.weekly[WeeklyId(ev.params.week)]);
  }

  /** A weekly claim keeps both unique-claimer counts. */
  lemma WeeklyClaimedKeepsClaimers(t: Tables, ev: Event)
    requires KeysConsistent(t) && ev.params.WeeklyClaimed?
    requires WeeklyClaimersCounted(t.weekly, t.playerWeekly)
    requires JackpotClaimersCounted(t.jackpots, t.jackpotSeen)
    ensures var t' := OnWeeklyClaimed(t, ev);
      WeeklyClaimersCounted(t'.weekly, t'.playerWeekly) && JackpotClaimersCounted(t'.jackpots, t'.jackpotSeen)
  {
    var t0 := StoreRaw(t, ev);
    var wallet := NormalizeWallet(ev.params.claimer);
    var week, amount := ev.params.week, ev.params.amount;
    WeeklyRecordWeek(t0, week, ev.block);
    ClaimWeekKeyed(t0, wallet, week, amount, ev.block);
    var t' := OnWeeklyClaimed(t, ev);
    WeeklyClaimersAfterClaim(t.weekly, t.playerWeekly, week, ClaimWeek(t0, wallet, week, amount, ev.block),
                             t'.weekly[WeeklyId(week)]);
  }

  /** A weekly claim keeps the invariant. */
  lemma WeeklyClaimedPreservesInv(t: Tables, ev: Event)
    requires Inv(t) && ev.params.WeeklyClaimed?
    ensures Inv(OnWeeklyClaimed(t, ev))
  {
    WeeklyClaimedKeepsKeys(t, ev);
    WeeklyClaimedKeepsCounts(t, ev);
    WeeklyClaimedKeepsClaimers(t, ev);
  }

  /** A jackpot claim keeps the keys consistent. */
  lemma JackpotClaimedKeepsKeys(t: Tables, ev: Event)
    requires KeysConsistent(t) && ev.params.JackpotClaimed?
    ensures KeysConsistent(OnJackpotClaimed(t, ev))
  {
    var t0 := StoreRaw(t, ev);
    var wallet := NormalizeWallet(ev.params.claimer);
    var nonce := ev.params.nonce;
    NormalizeIdempotent(ev.params.claimer);
    JackpotRecordNonce(t0, nonce, ev.block);
    var t' := OnJackpotClaimed(t, ev);
    var t1 := t0.(global := t'.global, players := t'.players);
    PlayerWriteKeepsKeys(t0, wallet, t'.players[wallet], t'.global[GLOBAL_STATS_ID]);
    JackpotWriteKeepsKeys(t1, nonce, wallet, t'.jackpots[JackpotId(nonce)]);
  }

  /** A jackpot claim keeps the counters in agreement. */
  lemma JackpotClaimedKeepsCounts(t: Tables, ev: Event)
    requires CountsMatch(t) && ev.params.JackpotClaimed?
    ensures CountsMatch(OnJackpotClaimed(t, ev))
  {
    var t0 := StoreRaw(t, ev);
    var wallet := NormalizeWallet(ev.params.claimer);
    var t' := OnJackpotClaimed(t, ev);
    var p' := t'.players[wallet];
    PlayerWriteKeepsUniqueCount(t0, t', wallet, p');
    PlayerWriteKeepsTotals(t0, t', wallet, p');
    JackpotWriteKeepsTotals(t0, t', JackpotId(ev.params.nonce), t'.jackpots[JackpotId(ev.params.nonce)]);
  }

  /** A jackpot claim keeps both unique-claimer counts. */
  lemma JackpotClaimedKeepsClaimers(t: Tables, ev: Event)
    requires KeysConsistent(t) && ev.params.JackpotClaimed?
    requires WeeklyClaimersCounted(t.weekly, t.playerWeekly)
    requires JackpotClaimersCounted(t.jackpots, t.jackpotSeen)
    ensures var t' := OnJackpotClaimed(t, ev);
      WeeklyClaimersCounted(t'.weekly, t'.playerWeekly) && JackpotClaimersCounted(t'.jackpots, t'.jackpotSeen)
  {
    var t0 := StoreRaw(t, ev);
    var wallet := NormalizeWallet(ev.params.claimer);
    var nonce := ev.params.nonce;
    JackpotRecordNonce(t0, nonce, ev.block);
    var t' := OnJackpotClaimed(t, ev);
    JackpotClaimersAfterClaim(t.jackpots, t.jackpotSeen, nonce, wallet, t'.jackpots[JackpotId(nonce)]);
  }

  /** A jackpot claim keeps the invariant. */
  lemma JackpotClaimedPreservesInv(t: Tables, ev: Event)
    requires Inv(t) && ev.params.JackpotClaimed?
    ensures Inv(OnJackpotClaimed(t, ev))
  {
    JackpotClaimedKeepsKeys(t, ev);
    JackpotClaimedKeepsCounts(t, ev);
    JackpotClaimedKeepsClaimers(t, ev);
  }

  /** Every delivered event keeps the invariant. */
  lemma ApplyPreservesInv(t: Tables, ev: Event)
    requires Inv(t)
    ensures Inv(Apply(t, ev))
  {
    if Registered(ev) {
      match ev.params
      case KeysPurchased(_, _, _, _) => KeysPurchasedPreservesInv(t, ev);
      case WeeklyClaimed(_, _, _) => WeeklyClaimedPreservesInv(t, ev);
      case JackpotClaimed(_, _, _) => JackpotClaimedPreservesInv(t, ev);
      case _ => StoreRawPreservesInv(t, ev);
    }
  }

  /** Every store reachable from the empty one satisfies the invariant. */
  lemma {:induction false} RunPreservesInv(history: seq<Event>)
    ensures Inv(Run(Empty(), history))
    decreases |history|
  {
    if history == [] {
      EmptyInv();
    } else {
      RunPreservesInv(history[..|history| - 1]);
      ApplyPreservesInv(Run(Empty(), history[..|history| - 1]), history[|history| - 1]);
    }
  }
}
