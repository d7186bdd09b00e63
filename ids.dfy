/** Deterministic identifiers of the indexer's records (src/EventHandlers.ts:43-50).
    Every key is a string built by concatenating decimal renderings and wallet
    strings around the separator '_'; the lemmas here show that no two distinct
    inputs of one builder share a key. */
module Ids {

  /** The decimal digit character for d, as `toString` renders it. */
  function Digit(d: nat): (c: char)
    requires d < 10
    ensures '0' <= c <= '9'
  {
    ('0' as int + d) as char
  }

  /** Decimal rendering of a non-negative integer: BigInt `toString` and number
      template interpolation both produce this for the source's unsigned values. */
  function NatToString(n: nat): (s: string)
    ensures |s| > 0
    ensures forall i :: 0 <= i < |s| ==> '0' <= s[i] <= '9'
    ensures n < 10 <==> |s| == 1
    decreases n
  {
    if n < 10 then [Digit(n)] else NatToString(n / 10) + [Digit(n % 10)]
  }

  /** A decimal rendering never contains the separator. */
  lemma NoSeparatorInDecimal(n: nat)
    ensures '_' !in NatToString(n)
  {
  }

  /** Distinct numbers render to distinct strings. */
  lemma {:induction false} NatToStringInjective(m: nat, n: nat)
    requires NatToString(m) == NatToString(n)
    ensures m == n
    decreases m
  {
    var sm, sn := NatToString(m), NatToString(n);
    if m < 10 && n < 10 {
      assert sm[0] == Digit(m) && sn[0] == Digit(n);
    } else if m >= 10 && n >= 10 {
      assert sm == NatToString(m / 10) + [Digit(m % 10)];
      assert sn == NatToString(n / 10) + [Digit(n % 10)];
      assert sm[|sm| - 1] == Digit(m % 10) && sn[|sn| - 1] == Digit(n % 10);
      assert sm[..|sm| - 1] == NatToString(m / 10);
      assert sn[..|sn| - 1] == NatToString(n / 10);
      NatToStringInjective(m / 10, n / 10);
    }
  }

  /** Position of the first '_' in s, or |s| when there is none. */
  function SeparatorIndex(s: string): (i: nat)
    ensures i <= |s|
  {
    if s == [] then 0 else if s[0] == '_' then 0 else 1 + SeparatorIndex(s[1..])
  }

  /** Number of characters after the last '_' in s, or |s| when there is none. */
  function TailLength(s: string): (n: nat)
    ensures n <= |s|
  {
    if s == [] then 0 else if s[|s| - 1] == '_' then 0 else 1 + TailLength(s[..|s| - 1])
  }

  /** In `a_b` with no '_' in a, the first separator is the one right after a. */
  lemma {:induction false} SeparatorIndexOfJoin(a: string, b: string)
    requires '_' !in a
    ensures SeparatorIndex(a + "_" + b) == |a|
  {
    if a != [] {
      assert (a + "_" + b)[1..] == a[1..] + "_" + b;
      SeparatorIndexOfJoin(a[1..], b);
    }
  }

  /** In `a_b` with no '_' in b, the last separator is the one right before b. */
  lemma {:induction false} TailLengthOfJoin(a: string, b: string)
    requires '_' !in b
    ensures TailLength(a + "_" + b) == |b|
  {
    if b != [] {
      var s := a + "_" + b;
      assert s[..|s| - 1] == a + "_" + b[..|b| - 1];
      TailLengthOfJoin(a, b[..|b| - 1]);
    }
  }

  /** Cutting at the first separator: if neither left part contains '_',
      the two halves are recovered. */
  lemma SplitAtFirstSeparator(a1: string, b1: string, a2: string, b2: string)
    requires '_' !in a1 && '_' !in a2
    requires a1 + "_" + b1 == a2 + "_" + b2
    ensures a1 == a2 && b1 == b2
  {
    var s := a1 + "_" + b1;
    SeparatorIndexOfJoin(a1, b1);
    SeparatorIndexOfJoin(a2, b2);
    assert a1 == s[..|a1|] == a2;
    assert b1 == s[|a1| + 1..] == b2;
  }

  /** Cutting at the last separator: if neither right part contains '_',
      the two halves are recovered. */
  lemma SplitAtLastSeparator(a1: string, b1: string, a2: string, b2: string)
    requires '_' !in b1 && '_' !in b2
    requires a1 + "_" + b1 == a2 + "_" + b2
    ensures a1 == a2 && b1 == b2
  {
    var s := a1 + "_" + b1;
    var n := |s|;
    TailLengthOfJoin(a1, b1);
    TailLengthOfJoin(a2, b2);
    assert b1 == s[n - |b1|..] == b2;
    assert a1 == s[..n - 1 - |b1|] == a2;
  }

  /** Lower-case fold of one character; non-ASCII characters are left as they are. */
  function LowerChar(c: char): char {
    if 'A' <= c <= 'Z' then (c as int + 32) as char else c
  }

  /** `normalizeWallet` (src/EventHandlers.ts:46): the lower-cased address. */
  function NormalizeWallet(wallet: string): (r: string)
    ensures |r| == |wallet|
    ensures forall i :: 0 <= i < |r| ==> r[i] == LowerChar(wallet[i])
  {
    if wallet == [] then [] else [LowerChar(wallet[0])] + NormalizeWallet(wallet[1..])
  }

  /** Each character of the normalized wallet is the folded character at the same
      position, and no upper-case ASCII letter is left. */
  lemma {:induction false} NormalizeWalletChars(wallet: string)
    ensures forall i :: 0 <= i < |wallet| ==> NormalizeWallet(wallet)[i] == LowerChar(wallet[i])
    ensures forall i :: 0 <= i < |wallet| ==> !('A' <= NormalizeWallet(wallet)[i] <= 'Z')
  {
    if wallet != [] {
      NormalizeWalletChars(wallet[1..]);
    }
  }

  /** Normalizing twice is normalizing once, so a stored wallet key is its own normal form. */
  lemma NormalizeIdempotent(wallet: string)
    ensures NormalizeWallet(NormalizeWallet(wallet)) == NormalizeWallet(wallet)
  {
    var once := NormalizeWallet(wallet);
    var twice := NormalizeWallet(once);
    NormalizeWalletChars(wallet);
    NormalizeWalletChars(once);
    assert forall i | 0 <= i < |twice| :: twice[i] == once[i];
  }

  /** Two spellings of one address that differ only in letter case have the same key. */
  lemma CaseVariantsShareKey(a: string, b: string)
    requires |a| == |b|
    requires forall i :: 0 <= i < |a| ==> LowerChar(a[i]) == LowerChar(b[i])
    ensures NormalizeWallet(a) == NormalizeWallet(b)
  {
    NormalizeWalletChars(a);
    NormalizeWalletChars(b);
  }

  /** `eventId` (src/EventHandlers.ts:43-44): `chainId_blockNumber_logIndex`. Its first
      separator comes right after the chain id and its last one right before the log
      index; `EventIdInjective` shows that the id determines all three numbers. */
  function EventId(chainId: nat, blockNumber: nat, logIndex: nat): (r: string)
    ensures SeparatorIndex(r) == |NatToString(chainId)|
    ensures TailLength(r) == |NatToString(logIndex)|
  {
    var c, b, l := NatToString(chainId), NatToString(blockNumber), NatToString(logIndex);
    NoSeparatorInDecimal(chainId);
    NoSeparatorInDecimal(logIndex);
    assert c + "_" + b + "_" + l == c + "_" + (b + "_" + l);
    SeparatorIndexOfJoin(c, b + "_" + l);
    TailLengthOfJoin(c + "_" + b, l);
    c + "_" + b + "_" + l
  }

  /** Two log positions share a raw-event id only if they are the same position. */
  lemma EventIdInjective(c1: nat, b1: nat, l1: nat, c2: nat, b2: nat, l2: nat)
    requires EventId(c1, b1, l1) == EventId(c2, b2, l2)
    ensures c1 == c2 && b1 == b2 && l1 == l2
  {
    var sc1, sb1, sl1 := NatToString(c1), NatToString(b1), NatToString(l1);
    var sc2, sb2, sl2 := NatToString(c2), NatToString(b2), NatToString(l2);
    NoSeparatorInDecimal(c1); NoSeparatorInDecimal(c2);
    NoSeparatorInDecimal(b1); NoSeparatorInDecimal(b2);
    assert sc1 + "_" + sb1 + "_" + sl1 == sc1 + "_" + (sb1 + "_" + sl1);
    assert sc2 + "_" + sb2 + "_" + sl2 == sc2 + "_" + (sb2 + "_" + sl2);
    SplitAtFirstSeparator(sc1, sb1 + "_" + sl1, sc2, sb2 + "_" + sl2);
    SplitAtFirstSeparator(sb1, sl1, sb2, sl2);
    NatToStringInjective(c1, c2);
    NatToStringInjective(b1, b2);
    NatToStringInjective(l1, l2);
  }

  /** Key of a `WeeklyStats` record: the week's decimal rendering
      (written inline as `week.toString()` at src/EventHandlers.ts:83, 142). */
  function WeeklyId(week: nat): (r: string)
    ensures r != [] && '_' !in r
  {
    NoSeparatorInDecimal(week);
    NatToString(week)
  }

  /** `jackpotId` (src/EventHandlers.ts:49). */
  function JackpotId(nonce: nat): (r: string)
    ensures r != [] && '_' !in r
  {
    NoSeparatorInDecimal(nonce);
    NatToString(nonce)
  }

  /** `playerWeeklyId` (src/EventHandlers.ts:48): `wallet_week`.
      `PlayerWeeklyIdInjective` shows that the key determines wallet and week. */
  function PlayerWeeklyId(wallet: string, week: nat): string
  {
    wallet + "_" + NatToString(week)
  }

  /** `jackpotPlayerSeenId` (src/EventHandlers.ts:50): `nonce_wallet`.
      `JackpotPlayerSeenIdInjective` shows that the key determines nonce and wallet. */
  function JackpotPlayerSeenId(nonce: nat, wallet: string): string
  {
    NatToString(nonce) + "_" + wallet
  }

  /** `wallet_week` keys never collide, whatever characters the wallet holds:
      the week part has no '_', so the last '_' is the cut. */
  lemma PlayerWeeklyIdInjective(w1: string, k1: nat, w2: string, k2: nat)
    requires PlayerWeeklyId(w1, k1) == PlayerWeeklyId(w2, k2)
    ensures w1 == w2 && k1 == k2
  {
    NoSeparatorInDecimal(k1);
    NoSeparatorInDecimal(k2);
    SplitAtLastSeparator(w1, NatToString(k1), w2, NatToString(k2));
    NatToStringInjective(k1, k2);
  }

  /** `nonce_wallet` keys never collide: the nonce part has no '_', so the first '_' is the cut. */
  lemma JackpotPlayerSeenIdInjective(n1: nat, w1: string, n2: nat, w2: string)
    requires JackpotPlayerSeenId(n1, w1) == JackpotPlayerSeenId(n2, w2)
    ensures n1 == n2 && w1 == w2
  {
    NoSeparatorInDecimal(n1);
    NoSeparatorInDecimal(n2);
    SplitAtFirstSeparator(NatToString(n1), w1, NatToString(n2), w2);
    NatToStringInjective(n1, n2);
  }
}
