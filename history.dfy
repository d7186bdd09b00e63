/** What the aggregates mean in terms of the events delivered so far. Each store
    reachable from the empty one is described by its history alone: the player
    records are the lower-cased actors of the economic events, the per-week and
    per-jackpot claimer sets are the lower-cased claimers of that scope, the raw
    tables hold one record per distinct log position, and every global counter is
    the sum of the matching event field. */
module History {
  import opened Ids
  import opened Entities
  import opened Aggregation
  import opened TableFacts
  import opened Invariants

  /** An economic event that a handler is registered for. */
  predicate Counted(ev: Event) {
    Registered(ev) && ev.params.IsEconomic()
  }

  /** The lower-cased wallets that acted in a counted event. */
  function Participants(h: seq<Event>): set<string>
    decreases |h|
  {
    if h == [] then {}
    else
      var ev := h[|h| - 1];
      Participants(h[..|h| - 1]) + (if Counted(ev) then {NormalizeWallet(ev.params.Actor())} else {})
  }

  /** The lower-cased wallets that claimed the given week. */
  function WeeklyClaimersIn(h: seq<Event>, week: nat): set<string>
    decreases |h|
  {
    if h == [] then {}
    else
      var ev := h[|h| - 1];
      WeeklyClaimersIn(h[..|h| - 1], week)
        + (if Registered(ev) && ev.params.WeeklyClaimed? && ev.params.week == week
           then {NormalizeWallet(ev.params.claimer)} else {})
  }

  /** The lower-cased wallets that claimed the given jackpot. */
  function JackpotClaimersIn(h: seq<Event>, nonce: nat): set<string>
    decreases |h|
  {
    if h == [] then {}
    else
      var ev := h[|h| - 1];
      JackpotClaimersIn(h[..|h| - 1], nonce)
        + (if Registered(ev) && ev.params.JackpotClaimed? && ev.params.nonce == nonce
           then {NormalizeWallet(ev.params.claimer)} else {})
  }

  /** The raw-table addresses of the handled events. */
  function RawKeysIn(h: seq<Event>): set<RawKey>
    decreases |h|
  {
    if h == [] then {}
    else
      var ev := h[|h| - 1];
      RawKeysIn(h[..|h| - 1]) + (if Registered(ev) then {RawKeyOf(ev)} else {})
  }

  /** The seven event-derived counters of the global record. */
  datatype Totals = Totals(
    keyPurchaseEvents: nat,
    keysPurchased: nat,
    keyPurchaseAmount: nat,
    weeklyClaimEvents: nat,
    weeklyClaimAmount: nat,
    jackpotClaimEvents: nat,
    jackpotClaimAmount: nat)

  /** One handled event's contribution: one event and its quantity and amount,
      on the counters of its kind. */
  function CountEvent(tot: Totals, ev: Event): Totals {
    if !Registered(ev) then tot
    else match ev.params
      case KeysPurchased(_, quantity, _, totalPaid) =>
        tot.(keyPurchaseEvents := tot.keyPurchaseEvents + 1,
             keysPurchased := tot.keysPurchased + quantity,
             keyPurchaseAmount := tot.keyPurchaseAmount + totalPaid)
      case WeeklyClaimed(_, _, amount) =>
        tot.(weeklyClaimEvents := tot.weeklyClaimEvents + 1,
             weeklyClaimAmount := tot.weeklyClaimAmount + amount)
      case JackpotClaimed(_, _, amount) =>
        tot.(jackpotClaimEvents := tot.jackpotClaimEvents + 1,
             jackpotClaimAmount := tot.jackpotClaimAmount + amount)
      case _ => tot
  }

  /** The counters summed over a whole history. */
  function Tally(h: seq<Event>): Totals
    decreases |h|
  {
    if h == [] then Totals(0, 0, 0, 0, 0, 0, 0)
    else CountEvent(Tally(h[..|h| - 1]), h[|h| - 1])
  }

  /** The event-derived counters a global record holds. */
  function CountersOf(g: GlobalStats): Totals {
    Totals(g.keyPurchaseEvents, g.keysPurchased, g.keyPurchaseAmount,
           g.weeklyClaimEvents, g.weeklyClaimAmount, g.jackpotClaimEvents, g.jackpotClaimAmount)
  }

  /** The store describes exactly the history `h`. */
  ghost predicate Reflects(t: Tables, h: seq<Event>) {
    && t.players.Keys == Participants(h)
    && (forall week: nat :: WeeklyClaimersOf(t.playerWeekly, week) == WeeklyClaimersIn(h, week))
    && (forall nonce: nat :: JackpotClaimersOf(t.jackpotSeen, nonce) == JackpotClaimersIn(h, nonce))
    && t.raw.Keys == RawKeysIn(h)
    && CountersOf(GlobalView(t)) == Tally(h)
  }

  /** The history functions read the last event of `h + [ev]` and recurse on `h`. */
  lemma Snoc(h: seq<Event>, ev: Event)
    ensures (h + [ev])[..|h|] == h && (h + [ev])[|h|] == ev
  {
  }

  /** What one more event adds to each history function. */
  lemma SnocHistory(h: seq<Event>, ev: Event)
    ensures Participants(h + [ev])
         == Participants(h) + (if Counted(ev) then {NormalizeWallet(ev.params.Actor())} else {})
    ensures forall week: nat ::
              WeeklyClaimersIn(h + [ev], week)
              == WeeklyClaimersIn(h, week)
                 + (if Registered(ev) && ev.params.WeeklyClaimed? && ev.params.week == week
                    then {NormalizeWallet(ev.params.claimer)} else {})
    ensures forall nonce: nat ::
              JackpotClaimersIn(h + [ev], nonce)
              == JackpotClaimersIn(h, nonce)
                 + (if Registered(ev) && ev.params.JackpotClaimed? && ev.params.nonce == nonce
                    then {NormalizeWallet(ev.params.claimer)} else {})
    ensures RawKeysIn(h + [ev]) == RawKeysIn(h) + (if Registered(ev) then {RawKeyOf(ev)} else {})
    ensures Tally(h + [ev]) == CountEvent(Tally(h), ev)
  {
    Snoc(h, ev);
  }

  /** A store that grows with one more event the way the history does still
      describes the longer history. */
  lemma ReflectsStep(t: Tables, t': Tables, h: seq<Event>, ev: Event)
    requires Reflects(t, h)
    requires t'.players.Keys
          == t.players.Keys + (if Counted(ev) then {NormalizeWallet(ev.params.Actor())} else {})
    requires forall week: nat ::
               WeeklyClaimersOf(t'.playerWeekly, week)
               == WeeklyClaimersOf(t.playerWeekly, week)
                  + (if Registered(ev) && ev.params.WeeklyClaimed? && ev.params.week == week
                     then {NormalizeWallet(ev.params.claimer)} else {})
    requires forall nonce: nat ::
               JackpotClaimersOf(t'.jackpotSeen, nonce)
               == JackpotClaimersOf(t.jackpotSeen, nonce)
                  + (if Registered(ev) && ev.params.JackpotClaimed? && ev.params.nonce == nonce
                     then {NormalizeWallet(ev.params.claimer)} else {})
    requires t'.raw.Keys == t.raw.Keys + (if Registered(ev) then {RawKeyOf(ev)} else {})
    requires CountersOf(GlobalView(t')) == CountEvent(CountersOf(GlobalView(t)), ev)
    ensures Reflects(t', h + [ev])
  {
    SnocHistory(h, ev);
  }

  /** A purchase adds its buyer to the participants and its quantities to the counters. */
  lemma PurchaseReflected(t: Tables, h: seq<Event>, ev: Event)
    requires Reflects(t, h) && ev.params.KeysPurchased? && Registered(ev)
    ensures Reflects(OnKeysPurchased(t, ev), h + [ev])
  {
    var t' := OnKeysPurchased(t, ev);
    assert t'.players.Keys == t.players.Keys + {NormalizeWallet(ev.params.buyer)};
    assert t'.playerWeekly == t.playerWeekly && t'.jackpotSeen == t.jackpotSeen;
    assert t'.raw.Keys == t.raw.Keys + {RawKeyOf(ev)};
    assert CountersOf(GlobalView(t')) == CountEvent(CountersOf(GlobalView(t)), ev);
    ReflectsStep(t, t', h, ev);
  }

  /** A weekly claim adds its claimer to the participants and to that week's claimers. */
  lemma WeeklyClaimReflected(t: Tables, h: seq<Event>, ev: Event)
    requires Reflects(t, h) && PlayerWeeklyKeyed(t.playerWeekly)
    requires ev.params.WeeklyClaimed? && Registered(ev)
    ensures Reflects(OnWeeklyClaimed(t, ev), h + [ev])
  {
    var wallet, week := NormalizeWallet(ev.params.claimer), ev.params.week;
    var t0 := StoreRaw(t, ev);
    var rec := ClaimWeek(t0, wallet, week, ev.params.amount, ev.block);
    ClaimWeekKeyed(t0, wallet, week, ev.params.amount, ev.block);
    var t' := OnWeeklyClaimed(t, ev);
    assert t'.players.Keys == t.players.Keys + {wallet};
    assert t'.playerWeekly == t.playerWeekly[PlayerWeeklyId(rec.wallet, rec.week) := rec];
    forall w: nat
      ensures WeeklyClaimersOf(t'.playerWeekly, w)
           == WeeklyClaimersOf(t.playerWeekly, w) + (if week == w then {wallet} else {})
    {
      WeeklyClaimersUpdate(t.playerWeekly, rec, w);
    }
    assert t'.jackpotSeen == t.jackpotSeen;
    assert t'.raw.Keys == t.raw.Keys + {RawKeyOf(ev)};
    assert CountersOf(GlobalView(t')) == CountEvent(CountersOf(GlobalView(t)), ev);
    ReflectsStep(t, t', h, ev);
  }

  /** A jackpot claim adds its claimer to that jackpot's claimers only. */
  lemma JackpotClaimersStep(t: Tables, ev: Event)
    requires SeenKeyed(t.jackpotSeen) && ev.params.JackpotClaimed?
    ensures var wallet, nonce := NormalizeWallet(ev.params.claimer), ev.params.nonce;
      forall n: nat ::
        JackpotClaimersOf(OnJackpotClaimed(t, ev).jackpotSeen, n)
        == JackpotClaimersOf(t.jackpotSeen, n) + (if nonce == n then {wallet} else {})
  {
    var wallet, nonce := NormalizeWallet(ev.params.claimer), ev.params.nonce;
    var t' := OnJackpotClaimed(t, ev);
    JackpotClaimerIffKey(t.jackpotSeen, nonce, wallet);
    forall n: nat
      ensures JackpotClaimersOf(t'.jackpotSeen, n)
           == JackpotClaimersOf(t.jackpotSeen, n) + (if nonce == n then {wallet} else {})
    {
      if JackpotPlayerSeenId(nonce, wallet) !in t.jackpotSeen {
        JackpotClaimersAdd(t.jackpotSeen, nonce, wallet, n);
      }
    }
  }

  /** A jackpot claim adds its claimer to the participants and to that jackpot's claimers. */
  lemma JackpotClaimReflected(t: Tables, h: seq<Event>, ev: Event)
    requires Reflects(t, h) && SeenKeyed(t.jackpotSeen)
    requires ev.params.JackpotClaimed? && Registered(ev)
    ensures Reflects(OnJackpotClaimed(t, ev), h + [ev])
  {
    var t' := OnJackpotClaimed(t, ev);
    JackpotClaimersStep(t, ev);
    assert t'.players.Keys == t.players.Keys + {NormalizeWallet(ev.params.claimer)};
    assert t'.playerWeekly == t.playerWeekly;
    assert t'.raw.Keys == t.raw.Keys + {RawKeyOf(ev)};
    assert CountersOf(GlobalView(t')) == CountEvent(CountersOf(GlobalView(t)), ev);
    ReflectsStep(t, t', h, ev);
  }

  /** An administrative event only adds its raw record. */
  lemma AdminReflected(t: Tables, h: seq<Event>, ev: Event)
    requires Reflects(t, h) && Registered(ev) && !ev.params.IsEconomic()
    ensures Reflects(StoreRaw(t, ev), h + [ev])
  {
    var t' := StoreRaw(t, ev);
    assert t'.players == t.players && t'.playerWeekly == t.playerWeekly && t'.jackpotSeen == t.jackpotSeen;
    assert CountersOf(GlobalView(t')) == CountEvent(CountersOf(GlobalView(t)), ev);
    ReflectsStep(t, t', h, ev);
  }

  /** An event no handler is registered for changes nothing and counts for nothing. */
  lemma UnregisteredReflected(t: Tables, h: seq<Event>, ev: Event)
    requires Reflects(t, h) && !Registered(ev)
    ensures Reflects(t, h + [ev])
  {
    ReflectsStep(t, t, h, ev);
  }

  /** One more delivered event keeps the store in step with the history. */
  lemma ApplyReflected(t: Tables, h: seq<Event>, ev: Event)
    requires Reflects(t, h) && Inv(t)
    ensures Reflects(Apply(t, ev), h + [ev])
  {
    if !Registered(ev) {
      UnregisteredReflected(t, h, ev);
    } else {
      match ev.params
      case KeysPurchased(_, _, _, _) => PurchaseReflected(t, h, ev);
      case WeeklyClaimed(_, _, _) => WeeklyClaimReflected(t, h, ev);
      case JackpotClaimed(_, _, _) => JackpotClaimReflected(t, h, ev);
      case _ => AdminReflected(t, h, ev);
    }
  }

  /** The store built from a history satisfies the invariant and describes that history. */
  lemma {:induction false} RunReflects(h: seq<Event>)
    ensures Inv(Run(Empty(), h)) && Reflects(Run(Empty(), h), h)
    decreases |h|
  {
    if h == [] {
      EmptyInv();
      assert forall week: nat :: WeeklyClaimersOf(map[], week) == {};
      assert forall nonce: nat :: JackpotClaimersOf(map[], nonce) == {};
    } else {
      var prefix, ev := h[..|h| - 1], h[|h| - 1];
      assert h == prefix + [ev];
      RunReflects(prefix);
      ApplyPreservesInv(Run(Empty(), prefix), ev);
      ApplyReflected(Run(Empty(), prefix), prefix, ev);
    }
  }

  /** `totalUniquePlayers` counts the distinct lower-cased wallets that ever acted. */
  lemma UniquePlayersAreParticipants(h: seq<Event>)
    ensures GlobalView(Run(Empty(), h)).totalUniquePlayers == |Participants(h)|
  {
    RunReflects(h);
  }

  /** A week's `uniqueClaimers` is the number of distinct lower-cased wallets that
      claimed it, and at most the number of its claims. */
  lemma WeeklyUniqueClaimers(h: seq<Event>, week: nat)
    requires WeeklyId(week) in Run(Empty(), h).weekly
    ensures var ws := Run(Empty(), h).weekly[WeeklyId(week)];
      ws.uniqueClaimers == |WeeklyClaimersIn(h, week)| && ws.uniqueClaimers <= ws.weeklyClaimEvents
  {
    var t := Run(Empty(), h);
    RunReflects(h);
    NatToStringInjective(t.weekly[WeeklyId(week)].week, week);
  }

  /** A jackpot's `uniqueClaimers` is the number of distinct lower-cased wallets that
      claimed it, and at most the number of its claims. */
  lemma JackpotUniqueClaimers(h: seq<Event>, nonce: nat)
    requires JackpotId(nonce) in Run(Empty(), h).jackpots
    ensures var js := Run(Empty(), h).jackpots[JackpotId(nonce)];
      js.uniqueClaimers == |JackpotClaimersIn(h, nonce)| && js.uniqueClaimers <= js.jackpotClaimEvents
  {
    var t := Run(Empty(), h);
    RunReflects(h);
    NatToStringInjective(t.jackpots[JackpotId(nonce)].nonce, nonce);
  }

  /** The global counters are the sums of the handled events' quantities and amounts,
      and the weekly and jackpot claim totals are also the sums over weeks and jackpots. */
  lemma GlobalCountersAreTallies(h: seq<Event>)
    ensures var t := Run(Empty(), h);
      && CountersOf(GlobalView(t)) == Tally(h)
      && Tally(h).weeklyClaimAmount == TotalOf(t.weekly, WeekClaimAmount)
      && Tally(h).weeklyClaimEvents == TotalOf(t.weekly, WeekClaimEvents)
      && Tally(h).jackpotClaimAmount == TotalOf(t.jackpots, JackpotClaimAmount)
      && Tally(h).jackpotClaimEvents == TotalOf(t.jackpots, JackpotClaimEvents)
  {
    RunReflects(h);
  }

  /** Every handled event's raw record is kept under its `chainId_blockNumber_logIndex` id. */
  lemma RawTablesHoldEveryEvent(h: seq<Event>)
    ensures Run(Empty(), h).raw.Keys == RawKeysIn(h)
  {
    RunReflects(h);
  }

  /** An economic event by a wallet whose lower-cased form has already acted
      (for instance the same address in other letter case) adds no player. */
  lemma {:induction false} CaseVariantAddsNoPlayer(h: seq<Event>, ev: Event, i: nat)
    requires i < |h| && Counted(h[i]) && Counted(ev)
    requires |h[i].params.Actor()| == |ev.params.Actor()|
    requires forall j :: 0 <= j < |ev.params.Actor()| ==>
               LowerChar(h[i].params.Actor()[j]) == LowerChar(ev.params.Actor()[j])
    ensures GlobalView(Run(Empty(), h + [ev])).totalUniquePlayers
         == GlobalView(Run(Empty(), h)).totalUniquePlayers
  {
    CaseVariantsShareKey(h[i].params.Actor(), ev.params.Actor());
    ParticipantAt(h, i);
    Snoc(h, ev);
    assert Participants(h + [ev]) == Participants(h);
    UniquePlayersAreParticipants(h);
    UniquePlayersAreParticipants(h + [ev]);
  }

  /** Every counted event's lower-cased actor is a participant. */
  lemma {:induction false} ParticipantAt(h: seq<Event>, i: nat)
    requires i < |h| && Counted(h[i])
    ensures NormalizeWallet(h[i].params.Actor()) in Participants(h)
    decreases |h|
  {
    if i < |h| - 1 {
      ParticipantAt(h[..|h| - 1], i);
    }
  }
}
