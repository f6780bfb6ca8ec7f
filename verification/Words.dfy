/**
Machine words of the ring: powers of two, masks, slots and signed differences. Words are naturals below
2^64; bitwise operators are defined on the binary digits.
*/
module Words {

  /** The slot of ticket `pos` in a buffer of `capacity` slots. */
  function Slot(pos: nat, capacity: nat): (i: nat)
    requires capacity > 0
    ensures i < capacity
  {
    pos % capacity
  }

  lemma MultipleGrows(k: int, n: int)
    requires n > 0
    ensures k >= 1 ==> k * n >= n
    ensures k <= -1 ==> k * n <= -n
  {
    if k >= 1 {
      assert (k - 1) * n >= 0;
    } else if k <= -1 {
      assert (-k - 1) * n >= 0;
    }
  }

  lemma QuotientIsUnique(x: int, q: int, r: int, n: int)
    requires n > 0 && 0 <= r < n && x == q * n + r
    ensures x % n == r && x / n == q
  {
    MultipleWithinLap(q - x / n, n, r - x % n);
  }

  lemma MultipleWithinLap(k: int, n: int, d: int)
    requires n > 0 && -n < d < n && k * n == -d
    ensures k == 0 && d == 0
  {
    MultipleGrows(k, n);
  }

  /** One lap later the slot is the same. */
  lemma SlotOneLapLater(pos: nat, capacity: nat)
    requires capacity > 0
    ensures Slot(pos + capacity, capacity) == Slot(pos, capacity)
  {
    QuotientIsUnique(pos + capacity, pos / capacity + 1, pos % capacity, capacity);
  }

  /** Tickets less than one lap apart never share a slot. */
  lemma SlotsDistinct(a: nat, b: nat, capacity: nat)
    requires a < b < a + capacity
    ensures Slot(a, capacity) != Slot(b, capacity)
  {
    if a % capacity == b % capacity {
      MultipleWithinLap(b / capacity - a / capacity, capacity, a - b);
    }
  }

  lemma SlotsDistinctInLap(p: nat, base: nat, capacity: nat)
    requires capacity > 0 && base <= p < base + capacity
    ensures forall t: nat :: base <= t < base + capacity && t != p ==> Slot(t, capacity) != Slot(p, capacity)
  {
    forall t: nat | base <= t < base + capacity && t != p
      ensures Slot(t, capacity) != Slot(p, capacity)
    {
      SlotsDistinct(if t < p then t else p, if t < p then p else t, capacity);
    }
  }

  // Bits.

  const WORD: nat := 0x1_0000_0000_0000_0000
  const HALF: nat := 0x8000_0000_0000_0000

  function Pow2(k: nat): (p: nat)
    ensures p > 0
  {
    if k == 0 then 1 else 2 * Pow2(k - 1)
  }

  predicate Bit(n: nat, i: nat) {
    if i == 0 then n % 2 == 1 else Bit(n / 2, i - 1)
  }

  /** n | m */
  function Or(n: nat, m: nat): nat {
    if n == 0 && m == 0 then 0
    else 2 * Or(n / 2, m / 2) + if n % 2 == 1 || m % 2 == 1 then 1 else 0
  }

  /** n & m */
  function And(n: nat, m: nat): nat {
    if n == 0 || m == 0 then 0
    else 2 * And(n / 2, m / 2) + if n % 2 == 1 && m % 2 == 1 then 1 else 0
  }

  /** n >> k */
  function Shr(n: nat, k: nat): nat {
    if k == 0 then n else Shr(n / 2, k - 1)
  }

  lemma OrHalves(n: nat, m: nat)
    ensures Or(n, m) / 2 == Or(n / 2, m / 2)
    ensures Or(n, m) % 2 == 1 <==> n % 2 == 1 || m % 2 == 1
  {
    if n == 0 && m == 0 {
      assert Or(n / 2, m / 2) == 0;
    } else {
      var rest := Or(n / 2, m / 2);
      assert Or(n, m) == 2 * rest + if n % 2 == 1 || m % 2 == 1 then 1 else 0;
    }
  }

  lemma {:induction false} OrBit(n: nat, m: nat, i: nat)
    ensures Bit(Or(n, m), i) <==> Bit(n, i) || Bit(m, i)
  {
    OrHalves(n, m);
    if i > 0 {
      OrBit(n / 2, m / 2, i - 1);
    }
  }

  lemma {:induction false} ShrBit(n: nat, k: nat, i: nat)
    ensures Bit(Shr(n, k), i) <==> Bit(n, i + k)
  {
    if k > 0 {
      ShrBit(n / 2, k - 1, i);
    }
  }

  lemma {:induction false} NoBits(n: nat)
    requires forall i: nat :: !Bit(n, i)
    ensures n == 0
  {
    if n > 0 {
      assert !Bit(n, 0);
      forall i: nat ensures !Bit(n / 2, i) {
        assert !Bit(n, i + 1);
      }
      NoBits(n / 2);
    }
  }

  lemma {:induction false} LowOnes(n: nat, h: nat)
    requires forall i: nat :: Bit(n, i) <==> i <= h
    ensures n + 1 == Pow2(h + 1)
  {
    assert Bit(n, 0);
    if h == 0 {
      forall i: nat ensures !Bit(n / 2, i) {
        assert !Bit(n, i + 1);
      }
      NoBits(n / 2);
    } else {
      forall i: nat ensures Bit(n / 2, i) <==> i <= h - 1 {
        assert Bit(n, i + 1) <==> i + 1 <= h;
      }
      LowOnes(n / 2, h - 1);
    }
  }

  /** The highest one of a positive word. */
  lemma {:induction false} HighBit(n: nat) returns (h: nat)
    requires n > 0
    ensures Pow2(h) <= n < Pow2(h + 1)
    ensures Bit(n, h) && forall i: nat :: i > h ==> !Bit(n, i)
  {
    if n == 1 {
      h := 0;
      forall i: nat | i > 0 ensures !Bit(1, i) {
        ZeroBits(i - 1);
      }
    } else {
      var g := HighBit(n / 2);
      h := g + 1;
      forall i: nat | i > h ensures !Bit(n, i) {
        assert !Bit(n / 2, i - 1);
      }
    }
  }

  lemma {:induction false} ZeroBits(i: nat)
    ensures !Bit(0, i)
  {
    if i > 0 {
      ZeroBits(i - 1);
    }
  }

  lemma {:induction false} Pow2Sum(j: nat, k: nat)
    ensures Pow2(j + k) == Pow2(j) * Pow2(k)
  {
    if j > 0 {
      Pow2Sum(j - 1, k);
    }
  }

  lemma Pow2At16()
    ensures Pow2(16) == 0x1_0000
  {
    assert Pow2(4) == 16;
    Pow2Sum(4, 4);
    Pow2Sum(8, 8);
  }

  lemma Pow2Values()
    ensures Pow2(63) == HALF && Pow2(64) == WORD
  {
    Pow2At16();
    Pow2Sum(16, 16);
    Pow2Sum(32, 32);
    assert Pow2(64) == 2 * Pow2(63);
  }

  lemma {:induction false} Pow2Grows(j: nat, k: nat)
    ensures j <= k <==> Pow2(j) <= Pow2(k)
    decreases j + k
  {
    if j > 0 && k > 0 {
      Pow2Grows(j - 1, k - 1);
    }
  }

  /** With highest one h, the w bits from h downwards are all ones. */
  ghost predicate Smeared(n: nat, h: nat, w: nat) {
    && (forall i: nat :: i > h ==> !Bit(n, i))
    && (forall i: nat :: i <= h < i + w ==> Bit(n, i))
  }

  lemma SmearDoubles(n: nat, h: nat, w: nat)
    requires Smeared(n, h, w) && w > 0
    ensures Smeared(Or(n, Shr(n, w)), h, 2 * w)
  {
    forall i: nat | i > h ensures !Bit(Or(n, Shr(n, w)), i) {
      OrBit(n, Shr(n, w), i);
      ShrBit(n, w, i);
      assert !Bit(n, i) && !Bit(n, i + w);
    }
    forall i: nat | i <= h < i + 2 * w ensures Bit(Or(n, Shr(n, w)), i) {
      OrBit(n, Shr(n, w), i);
      ShrBit(n, w, i);
      assert if h < i + w then Bit(n, i) else Bit(n, i + w);
    }
  }

  ghost predicate IsPower(c: nat) {
    exists k: nat :: c == Pow2(k)
  }

  /** The least power of two that is at least `n` and at least 2. */
  ghost predicate IsRoundedUp(n: nat, r: nat) {
    && IsPower(r) && r >= 2
    && r >= n
    && forall j: nat :: Pow2(j) >= n && Pow2(j) >= 2 ==> r <= Pow2(j)
  }

  /** n |= n >> k */
  method OrShifted(n: nat, k: nat, ghost h: nat) returns (m: nat)
    requires k > 0 && Smeared(n, h, k)
    ensures Smeared(m, h, 2 * k)
  {
    m := Or(n, Shr(n, k));
    SmearDoubles(n, h, k);
  }

  /** round_up_to_power_of_2, in 64-bit arithmetic: n + 1 wraps to 0 when `size` exceeds 2^63. */
  method RoundUpToPowerOf2(size: nat) returns (r: nat)
    requires size < WORD
    ensures size <= HALF ==> IsRoundedUp(size, r)
    ensures size > HALF ==> r == 0
  {
    if size <= 1 {
      assert Pow2(1) == 2;
      return 2;
    }
    var n := size - 1;
    ghost var h := HighBit(n);
    n := OrShifted(n, 1, h);
    n := OrShifted(n, 2, h);
    n := OrShifted(n, 4, h);
    n := OrShifted(n, 8, h);
    n := OrShifted(n, 16, h);
    n := OrShifted(n, 32, h);
    SmearedOut(size, h, n);
    r := (n + 1) % WORD;
  }

  /** What the last smeared word is worth. */
  lemma SmearedOut(size: nat, h: nat, n: nat)
    requires 1 < size < WORD && Pow2(h) <= size - 1 < Pow2(h + 1) && Smeared(n, h, 64)
    ensures size <= HALF ==> n + 1 < WORD && IsRoundedUp(size, n + 1)
    ensures size > HALF ==> n + 1 == WORD
  {
    Pow2Values();
    Pow2Grows(64, h);
    LowOnes(n, h);
    Pow2Grows(h, 62);
    Pow2Grows(h + 1, 63);
    Pow2Grows(h + 1, 1);
    forall j: nat | Pow2(j) >= size ensures n + 1 <= Pow2(j) {
      Pow2Grows(j, h);
      Pow2Grows(h + 1, j);
    }
  }

  lemma PowerHalves(c: nat)
    requires c > 0 && c % 2 == 0
    ensures IsPower(c) <==> IsPower(c / 2)
  {
    if IsPower(c) {
      var k: nat :| c == Pow2(k);
      assert k > 0 && c / 2 == Pow2(k - 1);
    }
    if IsPower(c / 2) {
      var k: nat :| c / 2 == Pow2(k);
      assert c == Pow2(k + 1);
    }
  }

  /** The constructor's test `capacity & (capacity - 1)` recognises powers of two. */
  lemma {:induction false} PowerTest(c: nat)
    requires c > 0
    ensures And(c, c - 1) == 0 <==> IsPower(c)
  {
    if c == 1 {
      assert c == Pow2(0);
    } else if c % 2 == 1 {
      AndSelf(c / 2);
      assert And(c, c - 1) == 2 * And(c / 2, (c - 1) / 2);
    } else {
      PowerTest(c / 2);
      PowerHalves(c);
      assert And(c, c - 1) == 2 * And(c / 2, c / 2 - 1);
    }
  }

  lemma {:induction false} AndSelf(n: nat)
    ensures And(n, n) == n
  {
    if n > 0 {
      AndSelf(n / 2);
    }
  }

  lemma AndOddMask(pos: nat, m: nat)
    ensures And(pos, 2 * m + 1) == 2 * And(pos / 2, m) + pos % 2
  {
    assert (2 * m + 1) / 2 == m && (2 * m + 1) % 2 == 1;
  }

  /** The k low bits. */
  function Low(pos: nat, k: nat): nat {
    if k == 0 then 0 else 2 * Low(pos / 2, k - 1) + pos % 2
  }

  lemma {:induction false} MaskIsLow(pos: nat, k: nat)
    ensures And(pos, Pow2(k) - 1) == Low(pos, k)
  {
    if k > 0 {
      MaskIsLow(pos / 2, k - 1);
      AndOddMask(pos, Pow2(k - 1) - 1);
    }
  }

  lemma TwiceProduct(q: nat, half: nat)
    ensures q * (2 * half) == 2 * (q * half)
  {
  }

  lemma {:induction false} LowIsRemainder(pos: nat, k: nat) returns (q: nat)
    ensures pos == q * Pow2(k) + Low(pos, k) && Low(pos, k) < Pow2(k)
  {
    if k == 0 {
      q := pos;
    } else {
      q := LowIsRemainder(pos / 2, k - 1);
      TwiceProduct(q, Pow2(k - 1));
    }
  }

  /** pos & buffer_mask_ is the slot of pos. */
  lemma MaskIsSlot(pos: nat, k: nat)
    ensures And(pos, Pow2(k) - 1) == Slot(pos, Pow2(k))
  {
    MaskIsLow(pos, k);
    var q := LowIsRemainder(pos, k);
    QuotientIsUnique(pos, q, Low(pos, k), Pow2(k));
  }

  /** static_cast<std::intptr_t> */
  function Signed(x: nat): int
    requires x < WORD
  {
    if x < HALF then x else x - WORD
  }

  /** Signed subtraction overflows, and so is undefined, outside this. */
  predicate Exact(seen: nat, pos: nat)
    requires seen < WORD && pos < WORD
  {
    0 <= Signed(seen) - Signed(pos) + HALF < WORD
  }

  /** For tickets below 2^63 the signed 64-bit difference does not overflow, and is the unbounded difference. */
  lemma SignedDifference(seen: nat, pos: nat)
    requires seen < HALF && pos < HALF
    ensures Signed(seen) - Signed(pos) == seen - pos && Exact(seen, pos)
  {
  }

  /** At 2^63 it does overflow: a slot one ticket ahead of its position gives a difference outside 64 bits. */
  lemma SignedDifferenceOverflows()
    ensures !Exact(HALF, HALF - 1)
  {
  }

  // Unbounded tickets, of which the machine holds the low 64 bits.

  /** p modulo 2^64. */
  function Word(p: nat): (w: nat)
    ensures w < WORD
  {
    if p < WORD then p else Word(p - WORD)
  }

  lemma {:induction false} WordSplit(p: nat) returns (laps: nat)
    ensures p == laps * WORD + Word(p) && Word(p) == p % WORD
  {
    laps := 0;
    if p >= WORD {
      var less := WordSplit(p - WORD);
      laps := less + 1;
    }
  }

  /** A difference that is defined is the true one, however often the counters have wrapped around. */
  lemma ExactDifference(S: nat, P: nat)
    requires -(HALF as int) <= S - P < HALF && Exact(Word(S), Word(P))
    ensures Signed(Word(S)) - Signed(Word(P)) == S - P
  {
    var a := WordSplit(S);
    var b := WordSplit(P);
  }

  /** It is undefined exactly when the position has passed 2^63 and the sequence, at most a lap behind, has not. */
  lemma OverflowsIff(S: nat, P: nat)
    requires P - HALF <= S <= P
    ensures !Exact(Word(S), Word(P)) <==> Word(S) < HALF <= Word(P)
  {
    var a := WordSplit(S);
    var b := WordSplit(P);
  }

  lemma WordAdd(p: nat, d: nat)
    ensures Word(Word(p) + d) == Word(p + d)
  {
    var a := WordSplit(p);
    var b := WordSplit(Word(p) + d);
    var c := WordSplit(p + d);
    assert p + d == (a + b) * WORD + Word(Word(p) + d);
    QuotientIsUnique(p + d, a + b, Word(Word(p) + d), WORD);
  }

  lemma LapsInWord(k: nat) returns (laps: nat)
    requires k <= 64
    ensures WORD == laps * Pow2(k)
  {
    Pow2Values();
    Pow2Sum(64 - k, k);
    laps := Pow2(64 - k);
  }

  lemma LapsAdd(w: nat, laps: nat, q: nat, n: nat, r: nat)
    ensures w * (laps * n) + (q * n + r) == (w * laps + q) * n + r
  {
  }

  /** Wrapping around at 2^64 does not change a slot. */
  lemma SlotOfWord(p: nat, k: nat)
    requires k <= 64
    ensures Slot(Word(p), Pow2(k)) == Slot(p, Pow2(k))
  {
    var w := WordSplit(p);
    var laps := LapsInWord(k);
    var q := LowIsRemainder(Word(p), k);
    var r := Low(Word(p), k);
    QuotientIsUnique(Word(p), q, r, Pow2(k));
    LapsAdd(w, laps, q, Pow2(k), r);
    QuotientIsUnique(p, w * laps + q, r, Pow2(k));
  }

  /** Powers of two that a 64-bit word can hold. */
  lemma PowersInWord(c: nat)
    requires c < WORD && IsPower(c)
    ensures c <= HALF && exists k: nat :: k <= 63 && c == Pow2(k)
  {
    var k: nat :| c == Pow2(k);
    Pow2Values();
    if k >= 64 {
      Pow2Grows(64, k);
    } else {
      Pow2Grows(k, 63);
    }
  }
}
