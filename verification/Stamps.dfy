/** Packed stamps of `src/sync/channel.rs`: one machine word holds an index, a mark bit and a lap.

    Words are numbers below `2^width`; the bit operations are defined on binary digits, and every mask
    the channel applies is proved to be the arithmetic it stands for. Positions (how many messages were
    ever pushed or popped) are unbounded; `Enc` packs a position and forgets all but `Laps` laps. */
module Stamps {

  // ----- binary digits -----

  function Pow2(k: nat): (r: nat)
    ensures r >= 1
  {
    if k == 0 then 1 else 2 * Pow2(k - 1)
  }

  function And(x: nat, y: nat): nat {
    if x == 0 || y == 0 then 0 else 2 * And(x / 2, y / 2) + if x % 2 == 1 && y % 2 == 1 then 1 else 0
  }

  function Or(x: nat, y: nat): nat {
    if x == 0 then y else if y == 0 then x else 2 * Or(x / 2, y / 2) + if x % 2 + y % 2 > 0 then 1 else 0
  }

  function Xor(x: nat, y: nat): nat {
    if x == 0 then y else if y == 0 then x else 2 * Xor(x / 2, y / 2) + if x % 2 != y % 2 then 1 else 0
  }

  /** The last `k` digits of `x` are zero. */
  ghost predicate Zeros(x: nat, k: nat) { k == 0 || (x % 2 == 0 && Zeros(x / 2, k - 1)) }

  /** A word cut at bit `k` into what is above it, the bit itself and what is below. */
  ghost predicate Cut(x: nat, k: nat, high: nat, bit: nat, low: nat) {
    x == high + bit + low && Zeros(high, k + 1) && (bit == 0 || bit == Pow2(k)) && low < Pow2(k)
  }

  lemma {:induction false} ZerosOfMultiple(h: nat, k: nat)
    ensures Zeros(h * Pow2(k), k)
  {
    if k > 0 {
      MulDouble(h, Pow2(k - 1));
      ZerosOfMultiple(h, k - 1);
    }
  }

  lemma MulDouble(h: nat, m: nat)
    ensures h * (2 * m) == 2 * (h * m)
  {
  }

  lemma Digits(a: nat, i: nat)
    requires i < 2
    ensures (2 * a + i) / 2 == a && (2 * a + i) % 2 == i
  {
  }

  lemma Pow2Step(k: nat)
    ensures Pow2(k) == if k == 0 then 1 else 2 * Pow2(k - 1)
  {
  }

  /** Zero is the neutral word, or the absorbing one. */
  lemma ZeroWord(x: nat)
    ensures And(x, 0) == 0 && Or(x, 0) == x && Xor(x, 0) == x
  {
  }

  /** The three operations digit by digit. */
  lemma AndDigit(a: nat, i: nat, b: nat, j: nat)
    requires i < 2 && j < 2
    ensures And(2 * a + i, 2 * b + j) == 2 * And(a, b) + if i == 1 && j == 1 then 1 else 0
  {
    Digits(a, i);
    Digits(b, j);
  }

  lemma OrDigit(a: nat, i: nat, b: nat, j: nat)
    requires i < 2 && j < 2
    ensures Or(2 * a + i, 2 * b + j) == 2 * Or(a, b) + if i + j > 0 then 1 else 0
  {
    Digits(a, i);
    Digits(b, j);
  }

  lemma XorDigit(a: nat, i: nat, b: nat, j: nat)
    requires i < 2 && j < 2
    ensures Xor(2 * a + i, 2 * b + j) == 2 * Xor(a, b) + if i != j then 1 else 0
  {
    Digits(a, i);
    Digits(b, j);
  }

  /** Without the last digit `i` the word is cut the same way one bit further down. */
  lemma CutDigit(x: nat, k: nat, high: nat, bit: nat, low: nat) returns (h: nat, b: nat, l: nat, i: nat)
    requires k > 0 && Cut(x, k, high, bit, low)
    ensures high == 2 * h && bit == 2 * b && low == 2 * l + i && i < 2 && x == 2 * (h + b + l) + i
    ensures Cut(h + b + l, k - 1, h, b, l)
  {
    h, b, l, i := high / 2, bit / 2, low / 2, low % 2;
  }

  lemma CutZero(x: nat, high: nat, bit: nat, low: nat) returns (h: nat)
    requires Cut(x, 0, high, bit, low)
    ensures low == 0 && high == 2 * h && bit < 2 && x == 2 * h + bit
  {
    h := high / 2;
    assert Zeros(h, 0);
  }

  lemma {:induction false} AndLow(x: nat, k: nat, high: nat, bit: nat, low: nat)
    requires Cut(x, k, high, bit, low)
    ensures And(x, Pow2(k) - 1) == low
    decreases k
  {
    hide And, Pow2, Cut;
    Pow2Step(k);
    ZeroWord(x);
    if k > 0 {
      var h, b, l, i := CutDigit(x, k, high, bit, low);
      AndLow(h + b + l, k - 1, h, b, l);
      AndDigit(h + b + l, i, Pow2(k - 1) - 1, 1);
    } else {
      var _ := CutZero(x, high, bit, low);
    }
  }

  lemma {:induction false} AndBit(x: nat, k: nat, high: nat, bit: nat, low: nat)
    requires Cut(x, k, high, bit, low)
    ensures And(x, Pow2(k)) == bit
    decreases k
  {
    hide And, Pow2, Cut;
    Pow2Step(k);
    if k > 0 {
      var h, b, l, i := CutDigit(x, k, high, bit, low);
      AndBit(h + b + l, k - 1, h, b, l);
      AndDigit(h + b + l, i, Pow2(k - 1), 0);
    } else {
      var h := CutZero(x, high, bit, low);
      AndDigit(h, bit, 0, 1);
      ZeroWord(h);
    }
  }

  lemma {:induction false} AndAll(x: nat, width: nat)
    requires x < Pow2(width)
    ensures And(x, Pow2(width) - 1) == x
    decreases width
  {
    hide And, Pow2;
    Pow2Step(width);
    ZeroWord(x);
    if width > 0 {
      AndAll(x / 2, width - 1);
      AndDigit(x / 2, x % 2, Pow2(width - 1) - 1, 1);
    }
  }

  lemma {:induction false} Pow2Grows(k: nat, width: nat)
    requires k <= width
    ensures Pow2(k) <= Pow2(width) && (k < width ==> 2 * Pow2(k) <= Pow2(width))
    decreases width
  {
    if k < width { Pow2Grows(k, width - 1); }
  }

  /** Masking with the complement of one bit clears that bit. */
  lemma {:induction false} AndClearsBit(x: nat, k: nat, width: nat, high: nat, bit: nat, low: nat)
    requires Cut(x, k, high, bit, low) && x < Pow2(width) && k < width
    ensures Pow2(k) < Pow2(width)
    ensures And(x, Pow2(width) - 1 - Pow2(k)) == high + low
    decreases k
  {
    hide And, Pow2, Cut;
    Pow2Grows(k, width);
    Pow2Step(k);
    Pow2Step(width);
    if k > 0 {
      var h, b, l, i := CutDigit(x, k, high, bit, low);
      AndClearsBit(h + b + l, k - 1, width - 1, h, b, l);
      AndDigit(h + b + l, i, Pow2(width - 1) - 1 - Pow2(k - 1), 1);
    } else {
      var h := CutZero(x, high, bit, low);
      AndAll(h, width - 1);
      AndDigit(h, bit, Pow2(width - 1) - 1, 0);
    }
  }

  /** Masking with the complement of the low bits keeps the rest. */
  lemma {:induction false} AndHigh(x: nat, k: nat, width: nat, high: nat, low: nat)
    requires x == high + low && Zeros(high, k) && low < Pow2(k) && x < Pow2(width) && k <= width
    ensures Pow2(k) <= Pow2(width)
    ensures And(x, Pow2(width) - Pow2(k)) == high
    decreases k
  {
    assert k > 0 ==> Zeros(high / 2, k - 1) && high == 2 * (high / 2);
    hide And, Pow2, Zeros;
    Pow2Grows(k, width);
    Pow2Step(k);
    Pow2Step(width);
    if k > 0 {
      var h, l, i := high / 2, low / 2, low % 2;
      AndHigh(h + l, k - 1, width - 1, h, l);
      AndDigit(h + l, i, Pow2(width - 1) - Pow2(k - 1), 0);
    } else {
      AndAll(x, width);
    }
  }

  /** Flipping a bit that is set clears it. */
  lemma {:induction false} XorOwnBit(x: nat, k: nat, high: nat, bit: nat, low: nat)
    requires Cut(x, k, high, bit, low)
    ensures Xor(x, bit) == high + low
    decreases k
  {
    hide Xor, Pow2, Cut;
    Pow2Step(k);
    if k > 0 {
      var h, b, l, i := CutDigit(x, k, high, bit, low);
      XorOwnBit(h + b + l, k - 1, h, b, l);
      XorDigit(h + b + l, i, b, 0);
    } else {
      var h := CutZero(x, high, bit, low);
      XorDigit(h, bit, 0, bit);
      ZeroWord(h);
    }
  }

  /** Or-ing a bit sets it, whatever it was. */
  lemma {:induction false} OrBit(x: nat, k: nat, high: nat, bit: nat, low: nat)
    requires Cut(x, k, high, bit, low)
    ensures Or(x, Pow2(k)) == high + Pow2(k) + low
    decreases k
  {
    hide Or, Pow2, Cut;
    Pow2Step(k);
    if k > 0 {
      var h, b, l, i := CutDigit(x, k, high, bit, low);
      OrBit(h + b + l, k - 1, h, b, l);
      OrDigit(h + b + l, i, Pow2(k - 1), 0);
    } else {
      var h := CutZero(x, high, bit, low);
      OrDigit(h, bit, 0, 1);
      ZeroWord(h);
    }
  }

  // ----- the constants of a channel -----

  /** `markBit` is `2^k`, the smallest power of two above the capacity. A slot takes at least a word and an
      allocation at most half the address space, so at least two laps always fit into a word. */
  datatype Config = Config(cap: nat, k: nat, width: nat) {
    predicate Valid() {
      cap > 0 && k > 0 && cap + 1 <= Pow2(k) && Pow2(k - 1) < cap + 1 && k + 2 <= width
    }
    function MarkBit(): nat { Pow2(k) }
    function OneLap(): nat { MarkBit() * 2 }
    function Words(): nat { Pow2(width) }
    function Laps(): nat
      requires Valid()
    {
      Pow2(width - k - 1)
    }
    /** How far two positions may lie apart before their stamps repeat. */
    function Window(): (w: nat)
      requires Valid()
      ensures w >= 2 * cap
    {
      assert Laps() >= 2;
      MulFloor(cap, 2, Laps());
      cap * Laps()
    }
  }

  // ----- what the code does to a word -----

  function Index(c: Config, w: nat): nat { And(w, c.MarkBit() - 1) }

  function Mark(c: Config, w: nat): nat { And(w, c.MarkBit()) }

  function LapOf(c: Config, w: nat): nat
    requires c.Valid()
  {
    Pow2Grows(c.k + 1, c.width);
    And(w, c.Words() - c.OneLap())
  }

  /** `tail ^= tail & mark_bit`. */
  function Unmarked(c: Config, w: nat): nat { Xor(w, Mark(c, w)) }

  /** `tail & !mark_bit`. */
  function Cleared(c: Config, w: nat): nat
    requires c.Valid()
  {
    Pow2Grows(c.k, c.width);
    And(w, c.Words() - 1 - c.MarkBit())
  }

  function WrappingAdd(c: Config, x: nat, y: nat): nat { (x + y) % c.Words() }

  /** The next head or tail: one index further, or the start of the next lap. */
  function Advanced(c: Config, w: nat): nat
    requires c.Valid()
  {
    if Index(c, w) + 1 < c.cap then w + 1 else WrappingAdd(c, LapOf(c, w), c.OneLap())
  }

  // ----- what words mean -----

  function Enc(c: Config, p: nat): nat
    requires c.Valid()
  {
    (p / c.cap % c.Laps()) * c.OneLap() + p % c.cap
  }

  function Word(c: Config, p: nat, marked: bool): nat
    requires c.Valid()
  {
    Enc(c, p) + if marked then c.MarkBit() else 0
  }

  lemma {:induction false} Pow2Add(a: nat, b: nat)
    ensures Pow2(a) * Pow2(b) == Pow2(a + b)
  {
    if a > 0 {
      Pow2Add(a - 1, b);
      assert Pow2(a) * Pow2(b) == 2 * (Pow2(a - 1) * Pow2(b));
    }
  }

  lemma EncFits(c: Config, p: nat)
    requires c.Valid()
    ensures c.Words() == c.Laps() * c.OneLap()
    ensures p % c.cap + 1 < c.MarkBit()
    ensures Enc(c, p) + c.OneLap() <= c.Words() + p % c.cap
    ensures Word(c, p, true) < c.Words() && Enc(c, p) + 1 < c.Words()
  {
    Pow2Add(c.width - c.k - 1, c.k + 1);
    MulRoom(p / c.cap % c.Laps(), c.Laps(), c.OneLap());
  }

  /** Every mask the channel applies to a head or tail word finds the field it is meant to find; adding one
      to an unmarked word never reaches the mark bit. */
  lemma Decode(c: Config, p: nat, marked: bool)
    requires c.Valid()
    ensures var w := Word(c, p, marked);
            && Index(c, w) == p % c.cap
            && Mark(c, w) == (if marked then c.MarkBit() else 0)
            && Unmarked(c, w) == Enc(c, p)
            && Cleared(c, w) == Enc(c, p)
            && Or(Enc(c, p), Mark(c, w)) == w
            && Or(w, c.MarkBit()) == Word(c, p, true)
  {
    hide Enc, Index, Mark, Unmarked, Cleared, Or, Zeros, Pow2;
    EncFits(c, p);
    ZeroWord(Enc(c, p));
    var high := HighPart(c, p);
    DecodeFields(c, high, p % c.cap, if marked then c.MarkBit() else 0);
    DecodeFields(c, high, p % c.cap, 0);
  }

  lemma DecodeFields(c: Config, high: nat, index: nat, bit: nat)
    requires c.Valid() && Zeros(high, c.k + 1) && index < c.MarkBit() && (bit == 0 || bit == c.MarkBit())
    requires high + bit + index < c.Words()
    ensures var w := high + index + bit;
            && Index(c, w) == index
            && Mark(c, w) == bit
            && Unmarked(c, w) == high + index
            && Cleared(c, w) == high + index
            && Or(w, c.MarkBit()) == high + index + c.MarkBit()
  {
    hide And, Or, Xor, Zeros, Pow2;
    var w := high + index + bit;
    AndLow(w, c.k, high, bit, index);
    AndBit(w, c.k, high, bit, index);
    XorOwnBit(w, c.k, high, bit, index);
    ClearedIs(c, w, high, bit, index);
    OrBit(w, c.k, high, bit, index);
  }

  lemma HighPart(c: Config, p: nat) returns (high: nat)
    requires c.Valid()
    ensures high == (p / c.cap % c.Laps()) * c.OneLap() && Enc(c, p) == high + p % c.cap
    ensures Zeros(high, c.k + 1)
  {
    high := (p / c.cap % c.Laps()) * c.OneLap();
    assert c.OneLap() == Pow2(c.k + 1);
    ZerosOfMultiple(p / c.cap % c.Laps(), c.k + 1);
  }

  lemma ClearedIs(c: Config, w: nat, high: nat, bit: nat, index: nat)
    requires c.Valid() && Cut(w, c.k, high, bit, index) && w < c.Words()
    ensures Cleared(c, w) == high + index
  {
    AndClearsBit(w, c.k, c.width, high, bit, index);
  }

  lemma ModUnique(x: nat, m: nat, q: nat, r: nat)
    requires m > 0 && r < m && x == m * q + r
    ensures x / m == q && x % m == r
  {
    var q', r' := x / m, x % m;
    assert m * (q - q') == r' - r by {
      assert x == m * q' + r';
      assert m * (q - q') == m * q - m * q';
    }
    SmallMultiple(m, q - q', r' - r);
  }

  lemma SmallMultiple(m: int, d: int, v: int)
    requires m > 0 && m * d == v && -m < v < m
    ensures d == 0
  {
    MulBound(m, d);
  }

  lemma MulBound(m: int, d: int)
    requires m > 0
    ensures d >= 1 ==> m * d >= m
    ensures d <= -1 ==> m * d <= -m
  {
    if d >= 1 { assert m * d >= m * 1; }
    if d <= -1 { assert m * d <= m * -1; }
  }

  lemma MulSplit(a: nat, d: nat, c: nat)
    ensures (a + d) * c == a * c + d * c
  {
  }

  /** A smaller factor leaves room for one more unit. */
  lemma MulRoom(a: nat, b: nat, c: nat)
    requires a < b
    ensures a * c + c <= b * c
  {
    MulSplit(a, b - a, c);
    MulFloor(c, 1, b - a);
  }

  /** `x mod m` after one more unit. */
  lemma ModNext(x: nat, m: nat)
    requires m > 0
    ensures (x + 1) % m == if x % m + 1 < m then x % m + 1 else 0
    ensures (x + 1) / m == if x % m + 1 < m then x / m else x / m + 1
  {
    var q, r := x / m, x % m;
    assert x == m * q + r;
    if r + 1 < m {
      ModUnique(x + 1, m, q, r + 1);
    } else {
      assert m * (q + 1) == m * q + m;
      ModUnique(x + 1, m, q + 1, 0);
    }
  }

  lemma AddWhole(x: nat, m: nat, n: nat)
    requires m > 0
    ensures (x + m * n) % m == x % m && (x + m * n) / m == x / m + n
  {
    var q, r := x / m, x % m;
    assert x == m * q + r;
    assert m * (q + n) == m * q + m * n;
    ModUnique(x + m * n, m, q + n, r);
  }

  /** The word reached by adding a lap, wrapping at the word size. */
  lemma WrapLap(c: Config, lap: nat, low: nat)
    requires c.Valid() && lap < c.Laps() && low < c.OneLap()
    ensures WrappingAdd(c, lap * c.OneLap() + low, c.OneLap()) == (lap + 1) % c.Laps() * c.OneLap() + low
  {
    Pow2Add(c.width - c.k - 1, c.k + 1);
    WrapSum(lap, c.Laps(), c.OneLap(), c.Words(), low);
  }

  lemma WrapSum(lap: nat, laps: nat, one: nat, words: nat, low: nat)
    requires lap < laps && low < one && words == laps * one
    ensures (lap * one + low + one) % words == (lap + 1) % laps * one + low
  {
    MulSplit(lap, 1, one);
    if lap + 1 < laps {
      MulRoom(lap + 1, laps, one);
      SmallMod(lap * one + low + one, words);
      SmallMod(lap + 1, laps);
    } else {
      MulFloor(one, 1, laps);
      AddWhole(low, words, 1);
      SmallMod(low, words);
      AddWhole(0, laps, 1);
    }
  }

  lemma SmallMod(x: nat, m: nat)
    requires x < m
    ensures x % m == x && x / m == 0
  {
    ModUnique(x, m, 0, x);
  }

  lemma LapNext(c: Config, p: nat)
    requires c.Valid()
    ensures (p / c.cap % c.Laps() + 1) % c.Laps() == (p / c.cap + 1) % c.Laps()
  {
    ModNext(p / c.cap, c.Laps());
    ModNext(p / c.cap % c.Laps(), c.Laps());
    SmallMod(p / c.cap % c.Laps(), c.Laps());
  }

  /** Advancing a word advances the position it stands for, across index, lap and word wrap-around. */
  lemma AdvancedIs(c: Config, p: nat)
    requires c.Valid()
    ensures Advanced(c, Enc(c, p)) == Enc(c, p + 1)
  {
    Decode(c, p, false);
    ModNext(p, c.cap);
    if p % c.cap + 1 == c.cap {
      LapOfIs(c, p);
      LapNext(c, p);
      WrapLap(c, p / c.cap % c.Laps(), 0);
    }
  }

  lemma LapOfIs(c: Config, p: nat)
    requires c.Valid()
    ensures LapOf(c, Enc(c, p)) == (p / c.cap % c.Laps()) * c.OneLap()
  {
    EncFits(c, p);
    var high := HighPart(c, p);
    AndHigh(Enc(c, p), c.k + 1, c.width, high, p % c.cap);
  }

  /** Adding one lap to a stamp adds the capacity to its position. */
  lemma LapIsCapacity(c: Config, p: nat)
    requires c.Valid()
    ensures WrappingAdd(c, Enc(c, p), c.OneLap()) == Enc(c, p + c.cap)
    ensures WrappingAdd(c, Enc(c, p) + 1, c.OneLap()) == Enc(c, p + c.cap) + 1
  {
    EncFits(c, p);
    AddWhole(p, c.cap, 1);
    var lap := p / c.cap % c.Laps();
    WrapLap(c, lap, p % c.cap);
    WrapLap(c, lap, p % c.cap + 1);
    LapNext(c, p);
  }

  /** Two stamps are equal exactly when index and wrapped lap are. */
  lemma EncEqual(c: Config, p: nat, q: nat)
    requires c.Valid()
    ensures Enc(c, p) == Enc(c, q) <==> p % c.cap == q % c.cap && p / c.cap % c.Laps() == q / c.cap % c.Laps()
  {
    EncFits(c, p);
    EncFits(c, q);
    if Enc(c, p) == Enc(c, q) {
      ModUnique(Enc(c, p), c.OneLap(), p / c.cap % c.Laps(), p % c.cap);
      ModUnique(Enc(c, q), c.OneLap(), q / c.cap % c.Laps(), q % c.cap);
    }
  }

  /** Two words are equal exactly when their positions lie a whole number of windows apart. */
  lemma EncCongruent(c: Config, p: nat, q: nat)
    requires c.Valid()
    ensures Enc(c, p) == Enc(c, q) <==> p % c.Window() == q % c.Window()
  {
    EncEqual(c, p, q);
    ModOfProduct(p, c.cap, c.Laps());
    ModOfProduct(q, c.cap, c.Laps());
    var w := p % c.Window();
    if w == q % c.Window() {
      ModUnique(w, c.cap, p / c.cap % c.Laps(), p % c.cap);
      ModUnique(w, c.cap, q / c.cap % c.Laps(), q % c.cap);
    }
  }

  /** The remainder by a product, digit by digit. */
  lemma ModOfProduct(p: nat, a: nat, b: nat)
    requires a > 0 && b > 0
    ensures a * b > 0 && p % (a * b) == a * (p / a % b) + p % a
  {
    var h, low := p / a, p % a;
    var q, d := h / b, h % b;
    MulFloor(a, 1, b);
    MulDigits(p, a, b, h, low, q, d);
    MulFloor(a, d + 1, b);
    assert a * (d + 1) == a * d + a;
    ModUnique(p, a * b, q, a * d + low);
  }

  lemma MulDigits(p: nat, a: nat, b: nat, h: nat, low: nat, q: nat, d: nat)
    requires p == a * h + low && h == b * q + d
    ensures p == (a * b) * q + (a * d + low)
  {
    assert a * (b * q + d) == a * (b * q) + a * d;
    assert a * (b * q) == (a * b) * q;
  }

  /** Two positions have the same word although they differ. */
  predicate Circled(c: Config, now: nat, copy: nat)
    requires c.Valid()
  {
    now != copy && now % c.Window() == copy % c.Window()
  }

  /** Positions less than a window apart are never taken for each other. */
  lemma YoungNotCircled(c: Config, now: nat, copy: nat)
    requires c.Valid() && copy <= now < copy + c.Window()
    ensures !Circled(c, now, copy)
  {
    if now != copy && now % c.Window() == copy % c.Window() { SameResidueApart(copy, now, c.Window()); }
  }

  /** Inside a window shorter than `Window`, equal stamps mean equal positions. */
  lemma EncDecides(c: Config, p: nat, q: nat)
    requires c.Valid() && p <= q < p + c.Window()
    ensures Enc(c, p) == Enc(c, q) <==> p == q
  {
    EncEqual(c, p, q);
    if p != q && p % c.cap == q % c.cap && p / c.cap % c.Laps() == q / c.cap % c.Laps() {
      DivGap(p, q, c.cap);
      SameResidueApart(p / c.cap, q / c.cap, c.Laps());
      MulFloor(c.cap, c.Laps(), q / c.cap - p / c.cap);
    }
  }

  /** Equal remainders: the distance is a whole number of periods. */
  lemma DivGap(p: nat, q: nat, m: nat)
    requires m > 0 && p < q && p % m == q % m
    ensures p / m < q / m && q - p == m * (q / m - p / m)
  {
    var i, j := p / m, q / m;
    assert m * (j - i) == m * j - m * i == q - p;
    MulBound(m, j - i);
  }

  lemma MulFloor(m: nat, a: nat, b: nat)
    requires a <= b
    ensures m * a <= m * b
  {
  }

  lemma SameResidueApart(a: nat, b: nat, m: nat)
    requires m > 0 && a < b && a % m == b % m
    ensures b - a >= m
  {
    DivGap(a, b, m);
    MulFloor(m, 1, b / m - a / m);
  }

  /** The window is sharp: `Window` positions later the same word comes back. */
  lemma WindowIsSharp(c: Config, p: nat)
    requires c.Valid()
    ensures Enc(c, p + c.Window()) == Enc(c, p)
  {
    AddWhole(p, c.cap, c.Laps());
    AddWhole(p / c.cap, c.Laps(), 1);
  }

  /** A stamp written by a sender (`position + 1`) is never mistaken for one written by a receiver. */
  lemma StagesDiffer(c: Config, p: nat, q: nat)
    requires c.Valid() && p % c.cap == q % c.cap
    ensures Enc(c, p) != Enc(c, q) + 1
  {
    EncFits(c, p);
    EncFits(c, q);
    if Enc(c, p) == Enc(c, q) + 1 {
      ModUnique(Enc(c, p), c.OneLap(), p / c.cap % c.Laps(), p % c.cap);
      ModUnique(Enc(c, q) + 1, c.OneLap(), q / c.cap % c.Laps(), q % c.cap + 1);
    }
  }

  /** Positions of the same slot closer than the capacity are the same position. */
  lemma SameSlot(cap: nat, p: nat, q: nat)
    requires cap > 0 && p % cap == q % cap && p < q + cap && q < p + cap
    ensures p == q
  {
    if p < q { SameResidueApart(p, q, cap); } else if q < p { SameResidueApart(q, p, cap); }
  }
}
