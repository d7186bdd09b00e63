/** Sums over a table's column and the sets of claimers a table records. These are
    the vocabulary the store invariants are stated in. */
module TableFacts {
  import opened Ids
  import opened Entities

  /** Sum of m[k] over the given keys. */
  ghost function SumOver(m: map<string, nat>, keys: set<string>): nat
    requires keys <= m.Keys
    decreases keys
  {
    if keys == {} then 0 else var k :| k in keys; m[k] + SumOver(m, keys - {k})
  }

  /** Sum of all values of m. */
  ghost function Total(m: map<string, nat>): nat {
    SumOver(m, m.Keys)
  }

  /** Any key can be taken out of a sum first. */
  lemma {:induction false} SumOverRemove(m: map<string, nat>, keys: set<string>, k: string)
    requires keys <= m.Keys && k in keys
    ensures SumOver(m, keys) == m[k] + SumOver(m, keys - {k})
    decreases keys
  {
    var j :| j in keys && SumOver(m, keys) == m[j] + SumOver(m, keys - {j});
    if j != k {
      SumOverRemove(m, keys - {j}, k);
      SumOverRemove(m, keys - {k}, j);
      assert keys - {j} - {k} == keys - {k} - {j};
    }
  }

  /** A sum depends only on the summed entries. */
  lemma {:induction false} SumOverAgree(m1: map<string, nat>, m2: map<string, nat>, keys: set<string>)
    requires keys <= m1.Keys && keys <= m2.Keys
    requires forall k | k in keys :: m1[k] == m2[k]
    ensures SumOver(m1, keys) == SumOver(m2, keys)
    decreases keys
  {
    if keys != {} {
      var k :| k in keys;
      SumOverRemove(m1, keys, k);
      SumOverRemove(m2, keys, k);
      SumOverAgree(m1, m2, keys - {k});
    }
  }

  /** Writing one entry changes the total by the difference between new and old value. */
  lemma TotalUpdate(m: map<string, nat>, k: string, v: nat)
    ensures Total(m[k := v]) + (if k in m then m[k] else 0) == Total(m) + v
  {
    var m' := m[k := v];
    assert m'.Keys - {k} == m.Keys - {k};
    SumOverRemove(m', m'.Keys, k);
    SumOverAgree(m', m, m.Keys - {k});
    if k in m {
      SumOverRemove(m, m.Keys, k);
    } else {
      assert m.Keys - {k} == m.Keys;
    }
  }

  lemma TotalEmpty()
    ensures Total(map[]) == 0
  {
  }

  /** One counter of every record of a table. */
  function Column<V>(m: map<string, V>, f: V -> nat): map<string, nat> {
    map k | k in m :: f(m[k])
  }

  /** The sum of one counter over a table. */
  ghost function TotalOf<V>(m: map<string, V>, f: V -> nat): nat {
    Total(Column(m, f))
  }

  /** Writing one record changes a column total by the difference in that counter. */
  lemma TotalOfUpdate<V>(m: map<string, V>, k: string, v: V, f: V -> nat)
    ensures TotalOf(m[k := v], f) + (if k in m then f(m[k]) else 0) == TotalOf(m, f) + f(v)
  {
    assert Column(m[k := v], f) == Column(m, f)[k := f(v)];
    TotalUpdate(Column(m, f), k, f(v));
  }

  // The counters that the global record sums up.
  function PlayerKeyPurchaseEvents(p: PlayerStats): nat { p.keyPurchaseEvents }
  function PlayerKeysPurchased(p: PlayerStats): nat { p.keysPurchased }
  function PlayerKeyPurchaseAmount(p: PlayerStats): nat { p.keyPurchaseAmount }
  function PlayerWeeklyClaimEvents(p: PlayerStats): nat { p.weeklyClaimEvents }
  function PlayerWeeklyClaimAmount(p: PlayerStats): nat { p.weeklyClaimAmount }
  function PlayerJackpotClaimEvents(p: PlayerStats): nat { p.jackpotClaimEvents }
  function PlayerJackpotClaimAmount(p: PlayerStats): nat { p.jackpotClaimAmount }
  function WeekClaimEvents(w: WeeklyStats): nat { w.weeklyClaimEvents }
  function WeekClaimAmount(w: WeeklyStats): nat { w.weeklyClaimAmount }
  function JackpotClaimEvents(j: JackpotStats): nat { j.jackpotClaimEvents }
  function JackpotClaimAmount(j: JackpotStats): nat { j.jackpotClaimAmount }

  /** Writing one player record moves each of the seven player column totals by
      that record's change in the counter. */
  lemma PlayerTotalsUpdate(m: map<string, PlayerStats>, k: string, v: PlayerStats)
    ensures TotalOf(m[k := v], PlayerKeyPurchaseEvents) + (if k in m then m[k].keyPurchaseEvents else 0)
         == TotalOf(m, PlayerKeyPurchaseEvents) + v.keyPurchaseEvents
    ensures TotalOf(m[k := v], PlayerKeysPurchased) + (if k in m then m[k].keysPurchased else 0)
         == TotalOf(m, PlayerKeysPurchased) + v.keysPurchased
    ensures TotalOf(m[k := v], PlayerKeyPurchaseAmount) + (if k in m then m[k].keyPurchaseAmount else 0)
         == TotalOf(m, PlayerKeyPurchaseAmount) + v.keyPurchaseAmount
    ensures TotalOf(m[k := v], PlayerWeeklyClaimEvents) + (if k in m then m[k].weeklyClaimEvents else 0)
         == TotalOf(m, PlayerWeeklyClaimEvents) + v.weeklyClaimEvents
    ensures TotalOf(m[k := v], PlayerWeeklyClaimAmount) + (if k in m then m[k].weeklyClaimAmount else 0)
         == TotalOf(m, PlayerWeeklyClaimAmount) + v.weeklyClaimAmount
    ensures TotalOf(m[k := v], PlayerJackpotClaimEvents) + (if k in m then m[k].jackpotClaimEvents else 0)
         == TotalOf(m, PlayerJackpotClaimEvents) + v.jackpotClaimEvents
    ensures TotalOf(m[k := v], PlayerJackpotClaimAmount) + (if k in m then m[k].jackpotClaimAmount else 0)
         == TotalOf(m, PlayerJackpotClaimAmount) + v.jackpotClaimAmount
  {
    TotalOfUpdate(m, k, v, PlayerKeyPurchaseEvents);
    TotalOfUpdate(m, k, v, PlayerKeysPurchased);
    TotalOfUpdate(m, k, v, PlayerKeyPurchaseAmount);
    TotalOfUpdate(m, k, v, PlayerWeeklyClaimEvents);
    TotalOfUpdate(m, k, v, PlayerWeeklyClaimAmount);
    TotalOfUpdate(m, k, v, PlayerJackpotClaimEvents);
    TotalOfUpdate(m, k, v, PlayerJackpotClaimAmount);
  }

  /** The wallets that have a `PlayerWeeklyStats` record for the week. */
  ghost function WeeklyClaimersOf(m: map<string, PlayerWeeklyStats>, week: nat): set<string> {
    set k | k in m && m[k].week == week :: m[k].wallet
  }

  /** The wallets that have a `JackpotPlayerSeen` fact for the nonce. */
  ghost function JackpotClaimersOf(m: map<string, JackpotPlayerSeen>, nonce: nat): set<string> {
    set k | k in m && m[k].nonce == nonce :: m[k].wallet
  }

  /** Every `PlayerWeeklyStats` record sits under the key built from its own wallet and week. */
  ghost predicate PlayerWeeklyKeyed(m: map<string, PlayerWeeklyStats>) {
    forall k | k in m :: m[k].id == k && k == PlayerWeeklyId(m[k].wallet, m[k].week)
  }

  /** Every seen-fact sits under the key built from its own nonce and wallet. */
  ghost predicate SeenKeyed(m: map<string, JackpotPlayerSeen>) {
    forall k | k in m :: m[k].id == k && k == JackpotPlayerSeenId(m[k].nonce, m[k].wallet)
  }

  /** With keys built from the record, a wallet has claimed a week exactly when its
      `wallet_week` key is present. */
  lemma WeeklyClaimerIffKey(m: map<string, PlayerWeeklyStats>, wallet: string, week: nat)
    requires PlayerWeeklyKeyed(m)
    ensures wallet in WeeklyClaimersOf(m, week) <==> PlayerWeeklyId(wallet, week) in m
  {
    var key := PlayerWeeklyId(wallet, week);
    if key in m {
      PlayerWeeklyIdInjective(m[key].wallet, m[key].week, wallet, week);
    }
  }

  /** Writing a record under its own key adds its wallet to its week's claimers and
      changes no other week. */
  lemma WeeklyClaimersUpdate(m: map<string, PlayerWeeklyStats>, rec: PlayerWeeklyStats, week: nat)
    requires PlayerWeeklyKeyed(m)
    ensures var m' := m[PlayerWeeklyId(rec.wallet, rec.week) := rec];
      WeeklyClaimersOf(m', week)
        == WeeklyClaimersOf(m, week) + (if rec.week == week then {rec.wallet} else {})
  {
    var key := PlayerWeeklyId(rec.wallet, rec.week);
    var m' := m[key := rec];
    var before, after := WeeklyClaimersOf(m, week), WeeklyClaimersOf(m', week);
    forall x | x in after
      ensures x in before || (rec.week == week && x == rec.wallet)
    {
      var k :| k in m' && m'[k].week == week && m'[k].wallet == x;
      if k != key {
        assert m[k].week == week && m[k].wallet == x;
      }
    }
    forall x | x in before
      ensures x in after
    {
      var k :| k in m && m[k].week == week && m[k].wallet == x;
      if k == key {
        PlayerWeeklyIdInjective(m[k].wallet, m[k].week, rec.wallet, rec.week);
        assert m'[key].week == week && m'[key].wallet == x;
      } else {
        assert m'[k].week == week && m'[k].wallet == x;
      }
    }
    if rec.week == week {
      assert m'[key].week == week && m'[key].wallet == rec.wallet;
    }
  }

  /** With keys built from the fact, a wallet has claimed a jackpot exactly when its
      `nonce_wallet` key is present. */
  lemma JackpotClaimerIffKey(m: map<string, JackpotPlayerSeen>, nonce: nat, wallet: string)
    requires SeenKeyed(m)
    ensures wallet in JackpotClaimersOf(m, nonce) <==> JackpotPlayerSeenId(nonce, wallet) in m
  {
    var key := JackpotPlayerSeenId(nonce, wallet);
    if key in m {
      JackpotPlayerSeenIdInjective(m[key].nonce, m[key].wallet, nonce, wallet);
    }
  }

  /** Adding a seen-fact adds its wallet to its nonce's claimers and changes no other nonce. */
  lemma JackpotClaimersAdd(m: map<string, JackpotPlayerSeen>, nonce: nat, wallet: string, n: nat)
    requires SeenKeyed(m)
    requires JackpotPlayerSeenId(nonce, wallet) !in m
    ensures var m' := m[JackpotPlayerSeenId(nonce, wallet) := MakeJackpotPlayerSeen(nonce, wallet)];
      JackpotClaimersOf(m', n) == JackpotClaimersOf(m, n) + (if nonce == n then {wallet} else {})
  {
    var key := JackpotPlayerSeenId(nonce, wallet);
    var m' := m[key := MakeJackpotPlayerSeen(nonce, wallet)];
    var before, after := JackpotClaimersOf(m, n), JackpotClaimersOf(m', n);
    forall x | x in after
      ensures x in before || (nonce == n && x == wallet)
    {
      var k :| k in m' && m'[k].nonce == n && m'[k].wallet == x;
      if k != key {
        assert m[k].nonce == n && m[k].wallet == x;
      }
    }
    forall x | x in before
      ensures x in after
    {
      var k :| k in m && m[k].nonce == n && m[k].wallet == x;
      assert m'[k].nonce == n && m'[k].wallet == x;
    }
    if nonce == n {
      assert m'[key].nonce == n && m'[key].wallet == wallet;
    }
  }
}
