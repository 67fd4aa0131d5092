/**
 The bit set of src/porcupine/bitset.go: a slice of 64-bit words changed in place, read here
 as the set of positions whose bit is one.  A word is its value, and the machine's bitwise
 operations are defined digit by digit.
 */
module Bitset {

  const WORD_LIMIT: nat := 0x1_0000_0000_0000_0000

  type Word = w: nat | w < WORD_LIMIT

  type Words = seq<Word>

  // ---------------------------------------------------------------------------------------
  // Binary digits
  // ---------------------------------------------------------------------------------------

  function Pow2(k: nat): (r: nat)
    ensures r > 0
  {
    if k == 0 then 1 else 2 * Pow2(k - 1)
  }

  predicate Digit(w: nat, k: nat) {
    if k == 0 then w % 2 == 1 else Digit(w / 2, k - 1)
  }

  function Or(a: nat, b: nat): nat {
    if a == 0 && b == 0 then 0
    else 2 * Or(a / 2, b / 2) + (if a % 2 == 1 || b % 2 == 1 then 1 else 0)
  }

  function AndNot(a: nat, b: nat): nat {
    if a == 0 then 0
    else 2 * AndNot(a / 2, b / 2) + (if a % 2 == 1 && b % 2 == 0 then 1 else 0)
  }

  function Xor(a: nat, b: nat): nat {
    if a == 0 && b == 0 then 0
    else 2 * Xor(a / 2, b / 2) + (if a % 2 != b % 2 then 1 else 0)
  }

  function OnesCount(w: nat): nat {
    if w == 0 then 0 else w % 2 + OnesCount(w / 2)
  }

  lemma WordLimitIsPower()
    ensures WORD_LIMIT == Pow2(64)
  {
    assert Pow2(8) == 0x100;
    PowersMultiply(8, 8);
    PowersMultiply(16, 16);
    PowersMultiply(32, 32);
  }

  lemma {:induction false} PowersMultiply(a: nat, b: nat)
    ensures Pow2(a + b) == Pow2(a) * Pow2(b)
  {
    if b > 0 {
      PowersMultiply(a, b - 1);
    }
  }

  lemma {:induction false} OperationsFit(a: nat, b: nat, n: nat)
    requires a < Pow2(n) && b < Pow2(n)
    ensures Or(a, b) < Pow2(n) && AndNot(a, b) < Pow2(n) && Xor(a, b) < Pow2(n)
  {
    if n > 0 {
      OperationsFit(a / 2, b / 2, n - 1);
    }
  }

  lemma {:induction false} PowerFits(k: nat, n: nat)
    requires k < n
    ensures Pow2(k) < Pow2(n)
    decreases n
  {
    if k < n - 1 {
      PowerFits(k, n - 1);
    }
  }

  lemma {:induction false} PowerDigit(j: nat, k: nat)
    ensures Digit(Pow2(j), k) <==> j == k
  {
    if j > 0 && k > 0 {
      PowerDigit(j - 1, k - 1);
    } else if k > 0 {
      ZeroHasNoDigits(k - 1);
    }
  }

  lemma {:induction false} ZeroHasNoDigits(k: nat)
    ensures !Digit(0, k)
  {
    if k > 0 {
      ZeroHasNoDigits(k - 1);
    }
  }

  lemma OrHalves(a: nat, b: nat)
    ensures Or(a, b) / 2 == Or(a / 2, b / 2)
    ensures Or(a, b) % 2 == 1 <==> a % 2 == 1 || b % 2 == 1
  {
  }

  lemma AndNotHalves(a: nat, b: nat)
    ensures AndNot(a, b) / 2 == AndNot(a / 2, b / 2)
    ensures AndNot(a, b) % 2 == 1 <==> a % 2 == 1 && b % 2 == 0
  {
  }

  lemma {:induction false} OrDigit(a: nat, b: nat, k: nat)
    ensures Digit(Or(a, b), k) <==> Digit(a, k) || Digit(b, k)
  {
    OrHalves(a, b);
    if k > 0 {
      OrDigit(a / 2, b / 2, k - 1);
    }
  }

  lemma {:induction false} AndNotDigit(a: nat, b: nat, k: nat)
    ensures Digit(AndNot(a, b), k) <==> Digit(a, k) && !Digit(b, k)
  {
    AndNotHalves(a, b);
    if k > 0 {
      AndNotDigit(a / 2, b / 2, k - 1);
    }
  }

  lemma {:induction false} SameDigits(a: nat, b: nat, n: nat)
    requires a < Pow2(n) && b < Pow2(n)
    requires forall k: nat :: k < n ==> Digit(a, k) == Digit(b, k)
    ensures a == b
  {
    if n > 0 {
      assert Digit(a, 0) == Digit(b, 0);
      forall k: nat | k < n - 1 ensures Digit(a / 2, k) == Digit(b / 2, k) {
        assert Digit(a, k + 1) == Digit(b, k + 1);
      }
      SameDigits(a / 2, b / 2, n - 1);
    }
  }

  // ---------------------------------------------------------------------------------------
  // The set of positions
  // ---------------------------------------------------------------------------------------

  predicate Fits(w: Words, pos: nat) {
    pos / 64 < |w|
  }

  predicate Bit(w: Words, pos: nat)
    requires Fits(w, pos)
  {
    Digit(w[pos / 64], pos % 64)
  }

  // |= (1 << minor)
  function WithDigit(w: Word, k: nat): (r: Word)
    requires k < 64
  {
    WordLimitIsPower();
    PowerFits(k, 64);
    OperationsFit(w, Pow2(k), 64);
    Or(w, Pow2(k))
  }

  // &^= (1 << minor)
  function WithoutDigit(w: Word, k: nat): (r: Word)
    requires k < 64
  {
    WordLimitIsPower();
    PowerFits(k, 64);
    OperationsFit(w, Pow2(k), 64);
    AndNot(w, Pow2(k))
  }

  function WithBit(w: Words, pos: nat): (r: Words)
    requires Fits(w, pos)
    ensures |r| == |w|
  {
    w[pos / 64 := WithDigit(w[pos / 64], pos % 64)]
  }

  function WithoutBit(w: Words, pos: nat): (r: Words)
    requires Fits(w, pos)
    ensures |r| == |w|
  {
    w[pos / 64 := WithoutDigit(w[pos / 64], pos % 64)]
  }

  lemma SetAddsPosition(w: Words, pos: nat, q: nat)
    requires Fits(w, pos) && Fits(w, q)
    ensures Bit(WithBit(w, pos), q) <==> q == pos || Bit(w, q)
  {
    OrDigit(w[pos / 64], Pow2(pos % 64), q % 64);
    PowerDigit(pos % 64, q % 64);
  }

  lemma ClearRemovesPosition(w: Words, pos: nat, q: nat)
    requires Fits(w, pos) && Fits(w, q)
    ensures Bit(WithoutBit(w, pos), q) <==> q != pos && Bit(w, q)
  {
    AndNotDigit(w[pos / 64], Pow2(pos % 64), q % 64);
    PowerDigit(pos % 64, q % 64);
  }

  lemma EqualIffSamePositions(a: Words, b: Words)
    requires |a| == |b|
    ensures a == b <==> forall p: nat :: Fits(a, p) ==> Bit(a, p) == Bit(b, p)
  {
    if forall p: nat :: Fits(a, p) ==> Bit(a, p) == Bit(b, p) {
      forall i | 0 <= i < |a| ensures a[i] == b[i] {
        forall j: nat | j < 64 ensures Digit(a[i], j) == Digit(b[i], j) {
          var p := i * 64 + j;
          assert p / 64 == i && p % 64 == j;
          assert Fits(a, p);
          assert Bit(a, p) == Bit(b, p);
        }
        WordLimitIsPower();
        SameDigits(a[i], b[i], 64);
      }
    }
  }

  // Clearing a bit that was just set gives back the very same words.
  lemma ClearUndoesSet(w: Words, pos: nat)
    requires Fits(w, pos) && !Bit(w, pos)
    ensures WithoutBit(WithBit(w, pos), pos) == w
  {
    var v := WithoutBit(WithBit(w, pos), pos);
    forall q: nat | Fits(v, q) ensures Bit(v, q) == Bit(w, q) {
      SetAddsPosition(w, pos, q);
      ClearRemovesPosition(WithBit(w, pos), pos, q);
    }
    EqualIffSamePositions(v, w);
  }

  // ---------------------------------------------------------------------------------------
  // The operations
  // ---------------------------------------------------------------------------------------

  ghost function PopCount(w: Words): nat {
    if w == [] then 0 else PopCount(w[..|w| - 1]) + OnesCount(w[|w| - 1])
  }

  // The positions whose bit is one.
  ghost function Positions(w: Words): set<nat> {
    set p: nat | p < 64 * |w| && Fits(w, p) && Bit(w, p)
  }

  ghost function DigitsOf(w: nat, n: nat): set<nat> {
    set k: nat | k < n && Digit(w, k)
  }

  ghost function Shifted(s: set<nat>, d: nat): set<nat> {
    set k | k in s :: k + d
  }

  lemma {:induction false} ShiftedSize(s: set<nat>, d: nat)
    ensures |Shifted(s, d)| == |s|
  {
    if s != {} {
      var k :| k in s;
      ShiftedSize(s - {k}, d);
      forall p: nat ensures p in Shifted(s, d) <==> p in Shifted(s - {k}, d) + {k + d} {
        if p >= d {
          assert p in Shifted(s, d) <==> p - d in s;
          assert p in Shifted(s - {k}, d) <==> p - d in s - {k};
        }
      }
      assert Shifted(s, d) == Shifted(s - {k}, d) + {k + d};
    }
  }

  lemma {:induction false} OnesAreDigits(w: nat, n: nat)
    requires w < Pow2(n)
    ensures OnesCount(w) == |DigitsOf(w, n)|
  {
    if n > 0 {
      var half, low := DigitsOf(w / 2, n - 1), if w % 2 == 1 then {0} else {};
      OnesAreDigits(w / 2, n - 1);
      ShiftedSize(half, 1);
      LowestDigit(w, n);
      assert DigitsOf(w, n) == Shifted(half, 1) + low;
    }
  }

  lemma LowestDigit(w: nat, n: nat)
    requires n > 0
    ensures DigitsOf(w, n) == Shifted(DigitsOf(w / 2, n - 1), 1) + if w % 2 == 1 then {0} else {}
    ensures 0 !in Shifted(DigitsOf(w / 2, n - 1), 1)
  {
    var half := DigitsOf(w / 2, n - 1);
    forall k: nat ensures k in DigitsOf(w, n) <==> k in Shifted(half, 1) || (k == 0 && w % 2 == 1) {
      if k > 0 {
        assert k in DigitsOf(w, n) <==> k - 1 in half;
        assert k in Shifted(half, 1) <==> k - 1 in half;
      }
    }
  }

  // Counting the ones word by word counts the positions.
  lemma {:induction false} PopCountIsSize(w: Words)
    ensures PopCount(w) == |Positions(w)|
  {
    if w != [] {
      var m := |w| - 1;
      var last := DigitsOf(w[m], 64);
      PopCountIsSize(w[..m]);
      WordLimitIsPower();
      OnesAreDigits(w[m], 64);
      ShiftedSize(last, 64 * m);
      LastPositions(w);
    }
  }

  lemma LastPositions(w: Words)
    requires w != []
    ensures var m := |w| - 1;
            Positions(w) == Positions(w[..m]) + Shifted(DigitsOf(w[m], 64), 64 * m)
    ensures Positions(w[..|w| - 1]) !! Shifted(DigitsOf(w[|w| - 1], 64), 64 * (|w| - 1))
  {
    var m := |w| - 1;
    var last := DigitsOf(w[m], 64);
    forall p: nat ensures p in Positions(w) <==> p in Positions(w[..m]) || p in Shifted(last, 64 * m) {
      if p >= 64 * m {
        assert p in Shifted(last, 64 * m) <==> p - 64 * m in last;
        if p < 64 * |w| {
          assert p / 64 == m && p % 64 == p - 64 * m;
        }
      } else {
        assert p / 64 < m;
        assert Fits(w[..m], p) && Fits(w, p) && Bit(w[..m], p) == Bit(w, p);
      }
    }
  }

  ghost function Mixed(w: Words, start: Word): (r: Word) {
    if w == [] then start
    else
      var before := Mixed(w[..|w| - 1], start);
      WordLimitIsPower();
      OperationsFit(before, w[|w| - 1], 64);
      Xor(before, w[|w| - 1])
  }

  ghost function HashOf(w: Words): Word {
    Mixed(w, PopCount(w) % WORD_LIMIT)
  }

  // No positions, and room for all below `bits`.
  ghost predicate Blank(w: Words, bits: nat) {
    && (forall p: nat :: p < bits ==> Fits(w, p))
    && (forall p: nat :: Fits(w, p) ==> !Bit(w, p))
  }

  method NewBitset(bits: nat) returns (b: array<Word>)
    ensures fresh(b) && Blank(b[..], bits)
  {
    var extra := if bits % 64 != 0 then 1 else 0;
    var chunks := bits / 64 + extra;
    b := new Word[chunks](_ => 0);
    forall p: nat | Fits(b[..], p) ensures !Bit(b[..], p) {
      ZeroHasNoDigits(p % 64);
    }
  }

  method Clone(b: array<Word>) returns (r: array<Word>)
    ensures fresh(r) && r[..] == b[..]
  {
    r := new Word[b.Length](_ => 0);
    for i := 0 to b.Length
      invariant forall k :: 0 <= k < i ==> r[k] == b[k]
    {
      r[i] := b[i];
    }
  }

  method Set(b: array<Word>, pos: nat)
    requires Fits(b[..], pos)
    modifies b
    ensures b[..] == WithBit(old(b[..]), pos)
  {
    var major, minor := pos / 64, pos % 64;
    b[major] := WithDigit(b[major], minor);
  }

  method Clear(b: array<Word>, pos: nat)
    requires Fits(b[..], pos)
    modifies b
    ensures b[..] == WithoutBit(old(b[..]), pos)
  {
    var major, minor := pos / 64, pos % 64;
    b[major] := WithoutDigit(b[major], minor);
  }

  method CountOnes(b: array<Word>) returns (total: nat)
    ensures total == PopCount(b[..]) == |Positions(b[..])|
  {
    total := 0;
    for i := 0 to b.Length
      invariant total == PopCount(b[..i])
    {
      assert b[..i + 1][..i] == b[..i];
      total := total + OnesCount(b[i]);
    }
    assert b[..b.Length] == b[..];
    PopCountIsSize(b[..]);
  }

  method Hash(b: array<Word>) returns (hash: Word)
    ensures hash == HashOf(b[..])
  {
    var total := CountOnes(b);
    hash := total % WORD_LIMIT;
    ghost var start := hash;
    for i := 0 to b.Length
      invariant hash == Mixed(b[..i], start)
    {
      assert b[..i + 1][..i] == b[..i];
      WordLimitIsPower();
      OperationsFit(hash, b[i], 64);
      hash := Xor(hash, b[i]);
    }
    assert b[..b.Length] == b[..];
  }

  method Equals(b: array<Word>, b2: Words) returns (same: bool)
    ensures same <==> b[..] == b2
  {
    if b.Length != |b2| {
      return false;
    }
    for i := 0 to b.Length
      invariant b[..i] == b2[..i]
    {
      if b[i] != b2[i] {
        return false;
      }
    }
    return true;
  }
}
