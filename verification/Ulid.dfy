/**
 new_ulid: a 48-bit millisecond clock and 80 random bits in 26 base-32 digits, with a counter that keeps ids in order
 when the clock stalls or runs backwards. Successive ids are strictly increasing strings while the timestamp fits the
 50 bits the encoding leaves it.
 */
module Ulid {
  import opened Arith

  const CROCKFORD: string := "0123456789ABCDEFGHJKMNPQRSTVWXYZ"
  const MAX_RANDOM := 0xFFFF_FFFF_FFFF_FFFF_FFFF
  const RANDOMS := MAX_RANDOM + 1
  const TIMES := 0x4_0000_0000_0000

  type Random = n: int | 0 <= n < RANDOMS

  /******* The counter *******/

  // _last_ts and _last_random
  datatype Last = Last(ts: int, random: Random)
  {
    function Value(): int { ts * RANDOMS + random }
  }

  const FRESH := Last(-1, 0)

  // What the clock and the random source would return to the next call
  datatype Draw = Draw(clock: nat, random: Random)

  function Next(last: Last, d: Draw): Last {
    if d.clock > last.ts then Last(d.clock, d.random)
    else if last.random >= MAX_RANDOM then Last(last.ts + 1, d.random)
    else Last(last.ts, last.random + 1)
  }

  function After(last: Last, draws: seq<Draw>): Last {
    if draws == [] then last else Next(After(last, draws[..|draws| - 1]), draws[|draws| - 1])
  }

  lemma NextGrows(last: Last, d: Draw)
    ensures Next(last, d).Value() > last.Value() && Next(last, d).ts >= last.ts && Next(last, d).ts >= 0
  {}

  /******* The encoding *******/

  function Pow32(n: nat): (p: nat)
    ensures p >= 1
  {
    if n == 0 then 1 else 32 * Pow32(n - 1)
  }

  function Symbol(i: int): char
    requires 0 <= i < 32
  {
    CROCKFORD[i]
  }

  function DigitOf(v: int): char { Symbol(v % 32) }

  // 26 digits, the highest first: digit k holds the five bits of the value that lie 5 * (25 - k) places up.
  function Encode(value: nat): (s: string)
    ensures |s| == 26
  {
    seq(26, k requires 0 <= k < 26 => DigitOf(value / Pow32(25 - k)))
  }

  // The n lowest digits of v, the highest first
  function Digits(v: nat, n: nat): (s: string)
    ensures |s| == n
  {
    if n == 0 then "" else Digits(v / 32, n - 1) + [DigitOf(v)]
  }

  lemma {:induction false} DigitAt(v: nat, n: nat, k: nat)
    requires k < n
    ensures Digits(v, n)[k] == DigitOf(v / Pow32(n - 1 - k))
  {
    if k < n - 1 {
      DigitAt(v / 32, n - 1, k);
      DivDiv(v, 32, Pow32(n - 2 - k));
      assert Pow32(n - 1 - k) == 32 * Pow32(n - 2 - k);
    }
  }

  lemma EncodeIsDigits(v: nat)
    ensures Encode(v) == Digits(v, 26)
  {
    hide Digits, Pow32, DigitOf;
    forall k | 0 <= k < 26 ensures Encode(v)[k] == Digits(v, 26)[k] { DigitAt(v, 26, k); }
  }

  /******* Decoding *******/

  ghost predicate IsDigit(c: char) { exists i :: 0 <= i < 32 && Symbol(i) == c }

  ghost function IndexOf(c: char): (i: int)
    requires IsDigit(c)
    ensures 0 <= i < 32 && Symbol(i) == c
  {
    var i :| 0 <= i < 32 && Symbol(i) == c;
    i
  }

  ghost function Decode(s: string): nat
    requires forall c <- s :: IsDigit(c)
  {
    if s == "" then 0 else Decode(s[..|s| - 1]) * 32 + IndexOf(s[|s| - 1])
  }

  // Crockford's alphabet: the digits, then the capital letters in order, but for I, L, O and U
  lemma Alphabet(c: char)
    ensures IsDigit(c) <==> '0' <= c <= '9' || ('A' <= c <= 'Z' && c !in {'I', 'L', 'O', 'U'})
  {
    if '0' <= c <= '9' { assert Symbol(c as int - '0' as int) == c; }
    if 'A' <= c <= 'H' { assert Symbol(c as int - 'A' as int + 10) == c; }
    if 'J' <= c <= 'K' { assert Symbol(c as int - 'J' as int + 18) == c; }
    if 'M' <= c <= 'N' { assert Symbol(c as int - 'M' as int + 20) == c; }
    if 'P' <= c <= 'T' { assert Symbol(c as int - 'P' as int + 22) == c; }
    if 'V' <= c <= 'Z' { assert Symbol(c as int - 'V' as int + 27) == c; }
  }

  // The alphabet is in character order, so digits compare like their values.
  lemma {:induction false} Ascending(i: int, k: int)
    requires 0 <= i < k < 32
    ensures Symbol(i) < Symbol(k)
  {
    assert Symbol(k - 1) < Symbol(k);
    if i < k - 1 { Ascending(i, k - 1); }
  }

  lemma IndexOfDigit(v: int)
    ensures IsDigit(DigitOf(v)) && IndexOf(DigitOf(v)) == v % 32
  {
    var i, k := v % 32, IndexOf(DigitOf(v));
    assert Symbol(i) == DigitOf(v);
    if i < k { Ascending(i, k); }
    if k < i { Ascending(k, i); }
  }

  lemma DecodePush(s: string, c: char)
    requires (forall d <- s :: IsDigit(d)) && IsDigit(c)
    ensures Decode(s + [c]) == Decode(s) * 32 + IndexOf(c)
  {
    assert (s + [c])[..|s|] == s;
  }

  lemma OneMoreDigit(v: nat, n: nat)
    ensures v % Pow32(n + 1) == (v / 32 % Pow32(n)) * 32 + v % 32
  {
    var p := Pow32(n);
    assert Pow32(n + 1) == p * 32;
    DivDiv(v, 32, p);
  }

  lemma {:induction false} DecodeDigits(v: nat, n: nat)
    ensures forall c <- Digits(v, n) :: IsDigit(c)
    ensures Decode(Digits(v, n)) == v % Pow32(n)
  {
    if n > 0 {
      hide DigitOf, IsDigit, Decode, IndexOf, Pow32;
      DecodeDigits(v / 32, n - 1);
      IndexOfDigit(v);
      DecodePush(Digits(v / 32, n - 1), DigitOf(v));
      OneMoreDigit(v, n - 1);
    }
  }

  lemma Powers()
    ensures Pow32(16) == RANDOMS && Pow32(26) == TIMES * RANDOMS
  {
    assert Pow32(4) == 0x10_0000;
    assert Pow32(8) == 0x100_0000_0000;
    assert Pow32(12) == 0x1000_0000_0000_0000;
    assert Pow32(16) == RANDOMS;
    assert Pow32(20) == RANDOMS * 0x10_0000;
    assert Pow32(24) == RANDOMS * 0x100_0000_0000;
  }

  ghost predicate Reads(s: string, v: int) { (forall c <- s :: IsDigit(c)) && Decode(s) == v }

  lemma Decodes(v: nat)
    ensures forall c <- Encode(v) :: IsDigit(c)
    ensures v < TIMES * RANDOMS ==> Decode(Encode(v)) == v
  {
    hide Pow32, Digits, Encode, Decode, IsDigit;
    Powers();
    EncodeIsDigits(v);
    DecodeDigits(v, 26);
  }

  // The string decodes to ts * 2^80 + random, from which both parts can be read off.
  lemma RoundTrip(last: Last)
    requires 0 <= last.ts < TIMES
    ensures forall c <- Encode(last.Value()) :: IsDigit(c)
    ensures Decode(Encode(last.Value())) == last.ts * RANDOMS + last.random
    ensures Decode(Encode(last.Value())) / RANDOMS == last.ts && Decode(Encode(last.Value())) % RANDOMS == last.random
  {
    hide Pow32, Digits, Encode, Decode, IsDigit;
    Powers();
    EncodeIsDigits(last.Value());
    DecodeDigits(last.Value(), 26);
    assert last.Value() < TIMES * RANDOMS;
    Quotient(last.Value(), RANDOMS, last.ts, last.random);
  }

  /******* Order *******/

  // Python's order on strings, for strings of equal length
  ghost predicate Less(s: string, t: string) {
    |s| == |t| && exists k :: 0 <= k < |s| && s[..k] == t[..k] && s[k] < t[k]
  }

  lemma DigitLess(v: nat, w: nat)
    requires v < w && v / 32 == w / 32
    ensures DigitOf(v) < DigitOf(w)
  {
    Ascending(v % 32, w % 32);
  }

  lemma {:induction false} DigitsOrder(v: nat, w: nat, n: nat)
    requires v < w < Pow32(n)
    ensures Less(Digits(v, n), Digits(w, n))
  {
    hide DigitOf;
    var s, t := Digits(v / 32, n - 1), Digits(w / 32, n - 1);
    if v / 32 < w / 32 {
      DigitsOrder(v / 32, w / 32, n - 1);
      var k :| 0 <= k < |s| && s[..k] == t[..k] && s[k] < t[k];
      assert (s + [DigitOf(v)])[..k] == (t + [DigitOf(w)])[..k];
      assert (s + [DigitOf(v)])[k] < (t + [DigitOf(w)])[k];
    } else {
      DigitLess(v, w);
      assert (s + [DigitOf(v)])[..n - 1] == s && (t + [DigitOf(w)])[..n - 1] == t;
    }
  }

  lemma EncodeOrder(v: nat, w: nat)
    requires v < w < TIMES * RANDOMS
    ensures Less(Encode(v), Encode(w))
  {
    hide Pow32, Digits, Encode, Less;
    Powers();
    EncodeIsDigits(v);
    EncodeIsDigits(w);
    DigitsOrder(v, w, 26);
  }

  lemma {:induction false} AfterGrows(last: Last, draws: seq<Draw>, i: nat)
    requires i < |draws|
    ensures After(last, draws[..i]).Value() < After(last, draws).Value()
    ensures i > 0 ==> After(last, draws[..i]).ts >= 0
  {
    var n := |draws| - 1;
    NextGrows(After(last, draws[..n]), draws[n]);
    if i < n {
      AfterGrows(last, draws[..n], i);
      assert draws[..n][..i] == draws[..i];
    }
    if i > 0 {
      NextGrows(After(last, draws[..i - 1]), draws[i - 1]);
      assert draws[..i][..i - 1] == draws[..i - 1];
    }
  }

  // Whatever the clock and the random source do, an id issued later is a greater string.
  lemma IdsIncrease(draws: seq<Draw>, i: nat)
    requires 0 < i < |draws| && After(FRESH, draws).ts < TIMES
    ensures 0 <= After(FRESH, draws[..i]).Value() && 0 <= After(FRESH, draws).Value()
    ensures Less(Encode(After(FRESH, draws[..i]).Value()), Encode(After(FRESH, draws).Value()))
  {
    hide Encode, After, Less;
    AfterGrows(FRESH, draws, i);
    assert After(FRESH, draws).Value() < TIMES * RANDOMS;
    EncodeOrder(After(FRESH, draws[..i]).Value(), After(FRESH, draws).Value());
  }

  // The first id of a process carries all the random bits: two processes that start in one millisecond issue the same id only
  // if they draw the same bits.
  lemma FirstIdsDiffer(clock: nat, r: Random, q: Random)
    requires clock < TIMES
    ensures var v, w := After(FRESH, [Draw(clock, r)]).Value(), After(FRESH, [Draw(clock, q)]).Value();
      v == clock * RANDOMS + r && w == clock * RANDOMS + q && (r == q <==> Encode(v) == Encode(w))
  {
    First(clock, r);
    First(clock, q);
    hide After, Encode, Decode, IsDigit;
    Decodes(clock * RANDOMS + r);
    Decodes(clock * RANDOMS + q);
  }

  lemma First(clock: nat, r: Random)
    ensures After(FRESH, [Draw(clock, r)]) == Last(clock, r)
  {
    assert [Draw(clock, r)][..0] == [];
  }

  // The timestamp never falls behind the clock, and an exhausted counter pushes it ahead by at most one per id.
  lemma {:induction false} TimestampBound(draws: seq<Draw>, latest: nat)
    requires forall d <- draws :: d.clock <= latest
    ensures forall d <- draws :: d.clock <= After(FRESH, draws).ts
    ensures draws != [] ==> After(FRESH, draws).ts < latest + |draws|
  {
    if draws != [] {
      var n := |draws| - 1;
      TimestampBound(draws[..n], latest);
      assert forall e <- draws :: e in draws[..n] || e == draws[n];
    }
  }

  class Source {
    var lastTs: int
    var lastRandom: Random

    function State(): Last
      reads this
    {
      Last(lastTs, lastRandom)
    }

    constructor ()
      ensures State() == FRESH
    {
      lastTs, lastRandom := -1, 0;
    }

    method NewUlid(clock: nat, random: Random) returns (id: string)
      requires lastTs >= -1
      modifies this
      ensures State() == Next(old(State()), Draw(clock, random))
      ensures lastTs >= 0 && State().Value() > old(State()).Value() && id == Encode(State().Value())
      // a clock that has moved on: its reading and the bits drawn; one that has not: the last value plus one, or, when the
      // counter is used up, the next millisecond and the bits drawn
      ensures clock > old(lastTs) ==> lastTs == clock && lastRandom == random
      ensures clock <= old(lastTs) && old(lastRandom) < MAX_RANDOM ==>
        lastTs == old(lastTs) && lastRandom == old(lastRandom) + 1
      ensures clock <= old(lastTs) && old(lastRandom) == MAX_RANDOM ==> lastTs == old(lastTs) + 1 && lastRandom == random
      ensures lastTs < TIMES ==> Reads(id, lastTs * RANDOMS + lastRandom)
    {
      hide Encode, Decode, IsDigit;
      var ts, rand := clock, random;
      if ts <= lastTs {
        ts := lastTs;
        if lastRandom >= MAX_RANDOM {
          ts := ts + 1;
        } else {
          rand := lastRandom + 1;
        }
      }
      lastTs, lastRandom := ts, rand;
      Decodes(ts * RANDOMS + rand);
      return Encode(ts * RANDOMS + rand);
    }
  }
}
