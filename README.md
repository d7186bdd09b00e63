# Aggregation engine of the mog-envio indexer, in Dafny

The indexer follows two contracts, the claim vault and the key-purchase contract.
For every log it receives, it stores one raw record and keeps running aggregates in
a key–value store. There are five aggregate tables and one table of seen-facts:

- the `GlobalStats` singleton, under the key `"global"`;
- `PlayerStats`, under the lower-cased wallet;
- `WeeklyStats`, under the week;
- `PlayerWeeklyStats`, under `wallet_week`;
- `JackpotStats`, under the jackpot nonce;
- `JackpotPlayerSeen`, under `nonce_wallet`.

The raw tables are keyed by `chainId_blockNumber_logIndex`.

The three economic handlers (`KeysPurchased`, `WeeklyClaimed` and `JackpotClaimed`)
each do a read-modify-write. They get or create the records they need, add the
event's quantities, bump "unique" counters when a record or seen-fact did not exist
before, stamp the block and write everything back. Every administrative handler
stores its raw record and does nothing else.

The project has eight modules:

- `Ids` (ids.dfy): the id builders. Numbers are rendered in decimal and wallets are
  lower-cased. Every composite key is proved injective.
- `Entities` (entities.dfy): the records, the events, the table each event is
  registered for, and the `make*` constructors.
- `Aggregation` (aggregation.dfy): the store as a value `Tables`. Each handler is a
  function from the tables before an event to the tables after it. `Apply`
  dispatches one event and `Run` folds a whole history.
- `TableFacts` (tables.dfy): sums of a counter over a table, and the set of distinct
  claimers of a week or a jackpot.
- `Invariants` (invariants.dfy): the store invariant `Inv`, and the proof that every
  handler keeps it. `Inv` says:
  - every record sits under its own key;
  - `totalUniquePlayers` is the number of player records;
  - every global counter is the sum over the players;
  - the claim counters are also the sums over weeks and over jackpots;
  - each `uniqueClaimers` is the number of distinct claimers, and is at most the
    scope's claim count.
- `History` (history.dfy): what the store says about the events it has seen. It
  covers participants, per-week and per-jackpot claimers, tallies of the counters,
  and raw keys.
- `Effects` (effects.dfy): the per-event deltas of each handler, and the fields
  that never go back (first-seen stamps, first-claim stamps, seen-facts).
- `Indexer` (indexer.dfy): the store as a class `Store` with one map field per
  table. The `getOrCreate*` accessors and the handlers are methods, each proved to
  leave the store as the matching `Aggregation` function says. `Handle` delivers
  one event, and keeps the store equal to `Run` of the handled events, so
  everything proved about `Run` holds of the class.

## Model

| member | source | states |
|---|---|---|
| Ids.NormalizeWallet | src/EventHandlers.ts:46 | The key of a wallet has the wallet's length, and each character is the lower-case form of the wallet's character at that place. `Ids.NormalizeIdempotent` and `Ids.CaseVariantsShareKey` state what this promises about keys. |
| Ids.EventId | src/EventHandlers.ts:43-44 | `chainId_blockNumber_logIndex`: the first separator comes right after the chain id and the last one right before the log index. `Ids.EventIdInjective` shows that the id determines all three numbers. |
| Ids.WeeklyId | src/EventHandlers.ts:83 | The key of a week is a non-empty decimal rendering with no separator, so it can sit at either end of a composite key. |
| Ids.JackpotId | src/EventHandlers.ts:49 | The key of a jackpot is a non-empty decimal rendering with no separator; `Ids.NatToStringInjective` shows that distinct nonces get distinct keys. |
| Ids.PlayerWeeklyId | src/EventHandlers.ts:48 | Builds `wallet_week`. Its property is `Ids.PlayerWeeklyIdInjective`: the key determines both wallet and week. |
| Ids.JackpotPlayerSeenId | src/EventHandlers.ts:50 | Builds `nonce_wallet`. Its property is `Ids.JackpotPlayerSeenIdInjective`: the key determines both nonce and wallet. |
| Ids.NatToStringInjective | src/EventHandlers.ts:48-50 | Two numbers with the same decimal rendering are equal, so week and nonce keys identify their number. |
| Ids.EventIdInjective | src/EventHandlers.ts:43-44 | `chainId_blockNumber_logIndex` determines chain id, block number and log index: two distinct log positions never share a raw-record id. |
| Ids.PlayerWeeklyIdInjective | src/EventHandlers.ts:48 | `wallet_week` determines both wallet and week, whatever characters the wallet holds. |
| Ids.JackpotPlayerSeenIdInjective | src/EventHandlers.ts:50 | `nonce_wallet` determines both nonce and wallet, whatever characters the wallet holds. |
| Ids.NormalizeIdempotent | src/EventHandlers.ts:46 | Lower-casing a lower-cased wallet changes nothing. |
| Ids.CaseVariantsShareKey | src/EventHandlers.ts:46 | Two spellings of an address that differ only in letter case normalize to the same key. |
| Entities.MakeGlobalStats | src/EventHandlers.ts:52-64 | The fresh global record is under `"global"`, has every counter and `totalUniquePlayers` at zero, and is stamped with the block. |
| Entities.MakePlayerStats | src/EventHandlers.ts:66-80 | A fresh player record has the wallet as both id and wallet, is first seen and updated at the block, and has every counter at zero. |
| Entities.MakeWeeklyStats | src/EventHandlers.ts:82-90 | A fresh week record is for the given week and sits under that week's key. It has no claim and no claimer yet, and is stamped with the block. |
| Entities.MakePlayerWeeklyStats | src/EventHandlers.ts:92-107 | The record of a first weekly claim sits under its own `wallet_week` key. It holds one event and the claimed amount, with first claim = last claim = this block. |
| Entities.MakeJackpotStats | src/EventHandlers.ts:109-117 | A fresh jackpot record is for the given nonce and sits under that nonce's key. It has no claim and no claimer yet, and is stamped with the block. |
| Entities.MakeJackpotPlayerSeen | src/EventHandlers.ts:119-123 | The seen-fact for a nonce and a wallet carries both and sits under its own `nonce_wallet` key. |
| Aggregation.OnKeysPurchased | src/EventHandlers.ts:367-406 | The tables after a purchase. What it changes is stated by `Effects.PurchaseEffect`; `Invariants.KeysPurchasedPreservesInv` shows it keeps the invariant and `History.PurchaseReflected` shows how it extends the history. |
| Aggregation.OnWeeklyClaimed | src/EventHandlers.ts:263-325 | The tables after a weekly claim. What it changes is stated by `Effects.WeeklyClaimEffect`; `Invariants.WeeklyClaimedPreservesInv` shows it keeps the invariant and `History.WeeklyClaimReflected` shows how it extends the history. |
| Aggregation.OnJackpotClaimed | src/EventHandlers.ts:150-205 | The tables after a jackpot claim. What it changes is stated by `Effects.JackpotClaimEffect`; `Invariants.JackpotClaimedPreservesInv` shows it keeps the invariant and `History.JackpotClaimReflected` shows how it extends the history. |
| Aggregation.Apply | src/EventHandlers.ts:150-452 | Runs the handler registered for the event's contract and kind. `Effects.AdminEffect` and `Effects.UnregisteredEffect` state the administrative and unregistered cases, and `Invariants.ApplyPreservesInv` shows every case keeps the invariant. |
| Effects.PurchaseEffect | src/EventHandlers.ts:367-406 | A purchase adds 1, `quantity` and `totalPaid` to the purchase counters of the global record and of the buyer's record, and leaves the claim counters alone. It stores the raw record. It leaves the weekly, per-week, jackpot and seen tables unchanged. `totalUniquePlayers` grows by one iff the buyer had no record. A new buyer is first seen at this block, and an existing one keeps its first-seen stamp. Both records are stamped with the block. |
| Effects.WeeklyClaimEffect | src/EventHandlers.ts:263-325 | A weekly claim adds 1 and `amount` to the global, player and week claim counters. It leaves the purchase and jackpot counters of the global and player records unchanged. The week's `uniqueClaimers` grows by one iff the wallet had no `wallet_week` record. A first claim creates that record with 1 event, the amount, and first = last = this block. A later claim adds 1 and the amount, keeps the first claim and moves the last claim to this block. The jackpot tables are unchanged. |
| Effects.JackpotClaimEffect | src/EventHandlers.ts:150-205 | A jackpot claim adds 1 and `amount` to the global, player and jackpot claim counters. It leaves the purchase and weekly counters of the global and player records unchanged. The jackpot's `uniqueClaimers` grows by one iff no `nonce_wallet` seen-fact existed. The seen-fact is written only when it was absent, and an existing one is never rewritten. The weekly tables are unchanged. |
| Effects.AdminEffect | src/EventHandlers.ts:207-261 | An administrative event stores its raw record, with its parameters verbatim, under its table and `chainId_blockNumber_logIndex`, and changes no aggregate table. The same holds for the handlers at lines 327-365 and 408-452. |
| Effects.RunGrows | src/EventHandlers.ts:128-452 | Over any stretch of a history, these are never removed or rewritten: a player record and its first-seen stamps, a per-week record and its first-claim stamps, a seen-fact, weekly, jackpot and raw keys. |
| Invariants.EmptyInv | src/EventHandlers.ts:52-64 | The empty store satisfies the invariant, so a reader's zero `GlobalStats` view agrees with the empty tables. |
| Invariants.KeysPurchasedPreservesInv | src/EventHandlers.ts:385-402 | A purchase keeps the invariant: `totalUniquePlayers` is still the number of player records, and each global purchase counter is still the sum over the players. |
| Invariants.WeeklyClaimedPreservesInv | src/EventHandlers.ts:281-324 | A weekly claim keeps the invariant. This includes: global weekly counters equal the sums over all weeks; each week's `uniqueClaimers` equals its distinct claiming wallets and is at most its claim count. |
| Invariants.JackpotClaimedPreservesInv | src/EventHandlers.ts:168-204 | A jackpot claim keeps the invariant. This includes: global jackpot counters equal the sums over all jackpots; each jackpot's `uniqueClaimers` equals its distinct seen wallets and is at most its claim count. |
| Invariants.RunPreservesInv | src/EventHandlers.ts:125-452 | Every store reachable from the empty one, by any sequence of events, satisfies the invariant. |
| History.RunReflects | src/EventHandlers.ts:125-452 | The store built from a history has these properties: its player keys are the lower-cased actors of its economic events; each week's and each jackpot's claimers are the wallets that claimed it; its raw keys are the events' addresses; its global counters are the sums of the events' quantities. |
| History.UniquePlayersAreParticipants | src/EventHandlers.ts:128-139 | `totalUniquePlayers` equals the number of distinct lower-cased wallets that ever bought or claimed. |
| History.CaseVariantAddsNoPlayer | src/EventHandlers.ts:46 | An event by an address whose lower-cased form has already acted, for example the same address in other letter case, leaves `totalUniquePlayers` unchanged. |
| History.WeeklyUniqueClaimers | src/EventHandlers.ts:281-284 | A week's `uniqueClaimers` is the number of distinct lower-cased wallets that claimed that week, and is at most its `weeklyClaimEvents`. |
| History.JackpotUniqueClaimers | src/EventHandlers.ts:168-170 | A jackpot's `uniqueClaimers` is the number of distinct lower-cased wallets that claimed that nonce, and is at most its `jackpotClaimEvents`. |
| History.GlobalCountersAreTallies | src/EventHandlers.ts:172-393 | Each global counter is the sum of the handled events' ones, quantities and amounts. The weekly and jackpot claim totals also equal the sums over all weeks and over all jackpots. |
| History.RawTablesHoldEveryEvent | src/EventHandlers.ts:151-158 | The raw tables hold exactly one record per handled event, under its table and its `chainId_blockNumber_logIndex` id. |
| Indexer.Store.GetOrCreateGlobalStats | src/EventHandlers.ts:125-126 | Returns the stored global record if there is one. Otherwise it returns a record under `"global"` with every counter zero, stamped with the block. |
| Indexer.Store.GetOrCreatePlayerStats | src/EventHandlers.ts:128-139 | `isNewPlayer` holds iff no record is stored under the wallet. An existing record is returned unchanged. A new one is keyed by the wallet, has zero counters, and is first seen and updated at the block. |
| Indexer.Store.GetOrCreateWeeklyStats | src/EventHandlers.ts:141-142 | Returns the record stored under the week's decimal rendering, or a zeroed record for that week stamped with the block. |
| Indexer.Store.GetOrCreateJackpotStats | src/EventHandlers.ts:144-148 | Returns the record stored under the nonce's decimal rendering, or a zeroed record for that nonce stamped with the block. |
| Indexer.Store.HandleJackpotClaimed | src/EventHandlers.ts:150-205 | The store's tables afterwards are exactly `OnJackpotClaimed` of the tables before, and the event is appended to the handled history. |
| Indexer.Store.HandleWeeklyClaimed | src/EventHandlers.ts:263-325 | The store's tables afterwards are exactly `OnWeeklyClaimed` of the tables before, and the event is appended to the handled history. |
| Indexer.Store.HandleKeysPurchased | src/EventHandlers.ts:367-406 | The store's tables afterwards are exactly `OnKeysPurchased` of the tables before, and the event is appended to the handled history. |
| Indexer.Store.HandleAdmin | src/EventHandlers.ts:207-261 | Only the raw table changes, by the event's record under its key. This is also the model of the handlers at lines 327-365 and 408-452. |
| Indexer.Store.Handle | src/EventHandlers.ts:150-452 | Delivering an event runs the handler registered for it. Afterwards the store equals `Run` of all handled events, satisfies the invariant, and describes the handled history (`Reflects`). |

## Left out

- The indexing framework is left out: handler registration, generated entity types, the untyped `context` object and the mock-database tests. The store is plain maps, and each `get`/`set` is a map lookup or update.
- The `Promise.all` fan-out of the reads (src/EventHandlers.ts:161, 274, 379) is modelled as sequential reads. The reads are independent, and no other event interleaves within one handler.
- Profile lookup, caching, rate limiting, `netProfitAmount` and `totalClaimAmount` are not in src/EventHandlers.ts, so they are not modelled.
- Ids.NormalizeWallet: `toLowerCase` is modelled as an ASCII case fold. Unicode case mapping outside A–Z is not captured; contract addresses are hexadecimal ASCII.
- Delivery of the same event twice is not deduplicated by the source: it double-counts. No idempotence is claimed, and `Run` counts every delivered event.
- `pricePerKey` is copied into the raw record only and is never aggregated. The model does the same and proves nothing further about it.
- Counters are bigints and are modelled as unbounded `nat`. `chainId`, block number, timestamp and log index are JavaScript numbers and are also modelled as `nat`, so float precision above 2^53 is not captured.
- An event whose contract has no handler for its kind is passed over by `Apply`. In the source such an event is never delivered.
- Indexer.Store.HandleJackpotClaimed, Indexer.Store.HandleWeeklyClaimed, Indexer.Store.HandleKeysPurchased, Indexer.Store.HandleAdmin: each states the tables it leaves and the history it extends, but not `Valid()`. The dispatcher `Handle` proves that the store still equals `Run` of the handled events.
