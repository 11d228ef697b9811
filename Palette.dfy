/**
 * The colour map used to render a segmentation mask (`get_palette`).
 *
 * Class id `j` is read three bits at a time. In the `i`-th group, bit 0 goes
 * to red, bit 1 to green and bit 2 to blue, each at bit position `7 - i` of
 * its channel. The palette is the flat list `[r0, g0, b0, r1, g1, b1, ...]`.
 *
 * Python integers are unbounded, so every value here is a `nat`; `x >> k`,
 * `x & 1`, `b << k` and `a |= b` are written out as arithmetic on `nat`.
 * A shift by a negative count raises `ValueError` in Python: that happens
 * once a class id needs a ninth group, that is for `j >= 2^24`.
 */
module Palette {

  /** The exception the source raises: `x << (7 - i)` with `i > 7`. */
  datatype Error = NegativeShiftCount

  datatype Result<T> = Ok(value: T) | Err(error: Error)

  datatype Rgb = Rgb(r: nat, g: nat, b: nat)

  /** 2^24: the first class id that needs a ninth 3-bit group. */
  const MaxClasses: nat := 0x100_0000

  // ---------------------------------------------------------------------
  // The integer operators of the source, on non-negative Python ints
  // ---------------------------------------------------------------------

  function Pow2(k: nat): (r: nat)
    ensures r >= 1
  {
    if k == 0 then 1 else 2 * Pow2(k - 1)
  }

  /** `x >> k`: `k` halvings, each rounding down. */
  function Shr(x: nat, k: nat): nat
  {
    if k == 0 then x else Shr(x / 2, k - 1)
  }

  /** `(x >> k) & 1` */
  function BitAt(x: nat, k: nat): (b: nat)
    ensures b <= 1
  {
    Shr(x, k) % 2
  }

  /** `b << k`: `k` doublings. */
  function Shl(b: nat, k: nat): nat
  {
    if k == 0 then b else 2 * Shl(b, k - 1)
  }

  /** The `k` low bits of `x`, i.e. `x & ((1 << k) - 1)`. */
  function Low(x: nat, k: nat): nat
  {
    if k == 0 then 0 else x % 2 + 2 * Low(x / 2, k - 1)
  }

  /** `a | b`, bit by bit from the least significant end. */
  function BitOr(a: nat, b: nat): nat
    decreases a + b
  {
    if a == 0 then b
    else if b == 0 then a
    else (if a % 2 == 1 || b % 2 == 1 then 1 else 0) + 2 * BitOr(a / 2, b / 2)
  }

  // ---------------------------------------------------------------------
  // Reference definition of the colour of a class
  // ---------------------------------------------------------------------

  /** Bit `k` of `x`, by division. */
  function Bit(x: nat, k: nat): (b: nat)
    ensures b <= 1
  {
    (x / Pow2(k)) % 2
  }

  /**
   * The part of channel `c` (0 red, 1 green, 2 blue) contributed by the
   * groups `i .. 7` of a class id whose first `i` groups have been dropped,
   * leaving `lab`: bit `c` of the current group lands at bit `7 - i`, the
   * later groups at the positions below it.
   */
  function ChannelFrom(lab: nat, c: nat, i: nat): nat
    requires i <= 8
    // `lab` is listed so that `ChannelFrom(j, c, 0)` is not unfolded all the
    // way down merely because its group index is a literal
    decreases 8 - i, lab
  {
    if i == 8 then 0 else Bit(lab, c) * Pow2(7 - i) + ChannelFrom(lab / 8, c, i + 1)
  }

  /** Channel `c` of class `j`: bit `3 i + c` of `j` stored at bit `7 - i`. */
  function Channel(j: nat, c: nat): nat
  {
    ChannelFrom(j, c, 0)
  }

  function Color(j: nat): Rgb
  {
    Rgb(Channel(j, 0), Channel(j, 1), Channel(j, 2))
  }

  /** The flat palette for `n` classes, three entries per class. */
  function PaletteOf(n: int): (p: seq<nat>)
    ensures |p| == if n > 0 then 3 * n else 0
    decreases if n > 0 then n else 0
  {
    if n <= 0 then []
    else PaletteOf(n - 1) + [Channel(n - 1, 0), Channel(n - 1, 1), Channel(n - 1, 2)]
  }

  /** The triple of class `j` inside a flat palette. */
  function TripleAt(p: seq<nat>, j: nat): seq<nat>
    requires 3 * j + 3 <= |p|
  {
    p[3 * j .. 3 * j + 3]
  }

  /**
   * Reads a class id back from a colour, from group `i` on: bit `7 - i` of
   * each channel gives the three low bits of what is left of the id, and
   * the bits below it give the rest.
   */
  function DecodeFrom(r: nat, g: nat, b: nat, i: nat): nat
    requires i <= 8
    decreases 8 - i
  {
    if i == 8 then 0
    else
      var k := 7 - i;
      BitAt(r, k) + 2 * BitAt(g, k) + 4 * BitAt(b, k) + 8 * DecodeFrom(Low(r, k), Low(g, k), Low(b, k), i + 1)
  }

  function Decode(color: Rgb): nat
  {
    DecodeFrom(color.r, color.g, color.b, 0)
  }

  // ---------------------------------------------------------------------
  // get_palette
  // ---------------------------------------------------------------------

  /**
   * What the inner loop keeps for one channel: the value built so far plus
   * what the groups still in `lab` will add is the finished channel, and
   * nothing has been set below bit `8 - i` yet.
   */
  predicate Accumulated(acc: nat, j: nat, lab: nat, c: nat, i: nat)
    requires i <= 8
  {
    acc + ChannelFrom(lab, c, i) == Channel(j, c) && Low(acc, 8 - i) == 0
  }

  /**
   * `get_palette(num_cls)`: preallocates `[0] * (n * 3)`, then fills in the
   * triple of every class in turn. Fails exactly when some class id needs a
   * ninth group, i.e. when there are more than 2^24 classes.
   */
  method GetPalette(numCls: int) returns (r: Result<seq<nat>>)
    ensures r.Err? <==> numCls > MaxClasses
    ensures r.Ok? ==> r.value == PaletteOf(numCls)
  {
    var n := numCls;
    var count := if n > 0 then n else 0;
    var palette := new nat[3 * count](_ => 0);
    var j := 0;
    while j < n
      invariant 0 <= j <= count && j <= MaxClasses
      invariant palette.Length == 3 * count
      invariant palette[..3 * j] == PaletteOf(j)
    {
      ghost var before := palette[..];
      var ok := ColorClass(palette, j);
      if !ok {
        return Err(NegativeShiftCount);
      }
      PaletteExtend(before, palette[..], j);
      j := j + 1;
    }
    assert palette[..] == palette[..3 * j];
    return Ok(palette[..]);
  }

  /**
   * The body of the `for j` loop: zero the triple of class `j`, then OR in
   * one bit per channel for each 3-bit group of `j` until `lab` is used up.
   * Reports `false` where the source raises, on the shift by `7 - 8`.
   */
  method ColorClass(palette: array<nat>, j: nat) returns (ok: bool)
    requires 3 * j + 3 <= palette.Length
    modifies palette
    ensures ok <==> j < MaxClasses
    ensures ok ==> palette[3 * j] == Channel(j, 0) && palette[3 * j + 1] == Channel(j, 1) && palette[3 * j + 2] == Channel(j, 2)
    ensures forall k :: 0 <= k < palette.Length && !(3 * j <= k < 3 * j + 3) ==> palette[k] == old(palette[k])
  {
    var lab: nat := j;
    palette[j * 3 + 0] := 0;
    palette[j * 3 + 1] := 0;
    palette[j * 3 + 2] := 0;
    var i: nat := 0;
    ProgressStart(j);
    while lab != 0
      invariant i <= 8
      invariant forall k :: 0 <= k < palette.Length && !(3 * j <= k < 3 * j + 3) ==> palette[k] == old(palette[k])
      invariant Progress(palette[3 * j], palette[3 * j + 1], palette[3 * j + 2], j, lab, i)
      decreases lab
    {
      if 7 - i < 0 {
        // `lab` still holds bit 24 or higher of `j`
        GroupsLeft(j, lab, i);
        return false;
      }
      ProgressStep(palette[j * 3 + 0], palette[j * 3 + 1], palette[j * 3 + 2], j, lab, i);
      palette[j * 3 + 0] := BitOr(palette[j * 3 + 0], Shl(BitAt(lab, 0), 7 - i));
      palette[j * 3 + 1] := BitOr(palette[j * 3 + 1], Shl(BitAt(lab, 1), 7 - i));
      palette[j * 3 + 2] := BitOr(palette[j * 3 + 2], Shl(BitAt(lab, 2), 7 - i));
      i := i + 1;
      lab := Shr(lab, 3);
    }
    ProgressDone(palette[3 * j], palette[3 * j + 1], palette[3 * j + 2], j, i);
    return true;
  }

  /**
   * Filling in the triple of class `j` after the palette of the first `j`
   * classes, and touching nothing before it, gives the palette of `j + 1`.
   */
  lemma PaletteExtend(before: seq<nat>, after: seq<nat>, j: nat)
    requires |before| == |after| && 3 * j + 3 <= |after|
    requires before[..3 * j] == PaletteOf(j)
    requires forall k :: 0 <= k < 3 * j ==> after[k] == before[k]
    requires after[3 * j] == Channel(j, 0) && after[3 * j + 1] == Channel(j, 1) && after[3 * j + 2] == Channel(j, 2)
    ensures after[..3 * j + 3] == PaletteOf(j + 1)
  {
    var t := [Channel(j, 0), Channel(j, 1), Channel(j, 2)];
    assert PaletteOf(j + 1) == PaletteOf(j) + t;
    assert after[..3 * j] == before[..3 * j];
    assert after[3 * j..3 * j + 3] == t;
    assert after[..3 * j + 3] == after[..3 * j] + after[3 * j..3 * j + 3];
  }

  /** The state of the inner loop of `ColorClass`. */
  predicate Progress(red: nat, green: nat, blue: nat, j: nat, lab: nat, i: nat)
    requires i <= 8
  {
    lab == Shr(j, 3 * i)
    && Accumulated(red, j, lab, 0, i)
    && Accumulated(green, j, lab, 1, i)
    && Accumulated(blue, j, lab, 2, i)
  }

  lemma ProgressStart(j: nat)
    ensures Progress(0, 0, 0, j, j, 0)
  {
    AccumulateStart(j, 0);
    AccumulateStart(j, 1);
    AccumulateStart(j, 2);
  }

  lemma ProgressStep(red: nat, green: nat, blue: nat, j: nat, lab: nat, i: nat)
    requires i < 8 && lab != 0
    requires Progress(red, green, blue, j, lab, i)
    ensures Shr(lab, 3) < lab
    ensures Progress(BitOr(red, Shl(BitAt(lab, 0), 7 - i)), BitOr(green, Shl(BitAt(lab, 1), 7 - i)),
                     BitOr(blue, Shl(BitAt(lab, 2), 7 - i)), j, Shr(lab, 3), i + 1)
  {
    AccumulateStep(red, j, lab, 0, i);
    AccumulateStep(green, j, lab, 1, i);
    AccumulateStep(blue, j, lab, 2, i);
    ShrAdd(j, 3 * i, 3);
    ShrThree(lab);
  }

  /** Once `lab` is used up, the triple is the colour of `j`, and `j < 2^24`. */
  lemma ProgressDone(red: nat, green: nat, blue: nat, j: nat, i: nat)
    requires i <= 8
    requires Progress(red, green, blue, j, 0, i)
    ensures red == Channel(j, 0) && green == Channel(j, 1) && blue == Channel(j, 2)
    ensures j < MaxClasses
  {
    ChannelOfZero(0, i);
    ChannelOfZero(1, i);
    ChannelOfZero(2, i);
    ShrZero(j, 3 * i);
    Pow2Mono(3 * i, 24);
    Pow2Of24();
  }

  /** After eight groups, anything left in `lab` means `j >= 2^24`. */
  lemma GroupsLeft(j: nat, lab: nat, i: nat)
    requires i == 8 && lab != 0 && lab == Shr(j, 3 * i)
    ensures j >= MaxClasses
  {
    ShrZero(j, 24);
    Pow2Of24();
  }

  // ---------------------------------------------------------------------
  // Properties of the palette
  // ---------------------------------------------------------------------

  /** Entry `3 j + c` is channel `c` of class `j`, whatever the class count. */
  lemma {:induction false} PaletteAt(n: int, j: nat, c: nat)
    requires j < n && c < 3
    ensures PaletteOf(n)[3 * j + c] == Channel(j, c)
  {
    var t := [Channel(n - 1, 0), Channel(n - 1, 1), Channel(n - 1, 2)];
    assert PaletteOf(n) == PaletteOf(n - 1) + t;
    if j < n - 1 {
      PaletteAt(n - 1, j, c);
    } else {
      assert PaletteOf(n)[3 * j + c] == t[c];
    }
  }

  /** The palette for fewer classes is a prefix of the palette for more. */
  lemma {:induction false} PalettePrefix(n: int, m: int)
    requires n <= m
    ensures PaletteOf(n) <= PaletteOf(m)
  {
    if n < m && m > 0 {
      PalettePrefix(n, m - 1);
    }
  }

  /** Class 0 (background) is always black. */
  lemma BackgroundIsBlack()
    ensures Color(0) == Rgb(0, 0, 0)
  {
    ChannelOfZero(0, 0);
    ChannelOfZero(1, 0);
    ChannelOfZero(2, 0);
  }

  /** Every channel value is a byte, for every class id. */
  lemma ChannelIsByte(j: nat, c: nat)
    ensures Channel(j, c) <= 255
  {
    ChannelBound(j, c, 0);
    assert Pow2(8) == 256;
  }

  /** Every entry of every palette is a byte. */
  lemma PaletteIsBytes(n: int, k: nat)
    requires k < |PaletteOf(n)|
    ensures PaletteOf(n)[k] <= 255
  {
    PaletteAt(n, k / 3, k % 3);
    ChannelIsByte(k / 3, k % 3);
  }

  /** The class id can be read back from its colour, for ids below 2^24. */
  lemma DecodeColor(j: nat)
    requires j < MaxClasses
    ensures Decode(Color(j)) == j
  {
    Pow2Of24();
    DecodeChannels(j, 0);
  }

  /** Distinct class ids below 2^24 get distinct colours. */
  lemma ColorInjective(j1: nat, j2: nat)
    requires j1 < MaxClasses && j2 < MaxClasses
    requires Color(j1) == Color(j2)
    ensures j1 == j2
  {
    DecodeColor(j1);
    DecodeColor(j2);
  }

  /** Within one palette, two distinct classes have distinct triples. */
  lemma PaletteDistinct(n: int, j1: nat, j2: nat)
    requires n <= MaxClasses
    requires j1 < j2 < n
    ensures TripleAt(PaletteOf(n), j1) != TripleAt(PaletteOf(n), j2)
  {
    if TripleAt(PaletteOf(n), j1) == TripleAt(PaletteOf(n), j2) {
      forall c | 0 <= c < 3 ensures Channel(j1, c) == Channel(j2, c) {
        PaletteAt(n, j1, c);
        PaletteAt(n, j2, c);
        assert TripleAt(PaletteOf(n), j1)[c] == TripleAt(PaletteOf(n), j2)[c];
      }
      ColorInjective(j1, j2);
    }
  }

  // ---------------------------------------------------------------------
  // Bit arithmetic
  // ---------------------------------------------------------------------

  /** OR with one bit below every bit already set (bits `0 .. k` of `a` are clear) is addition. */
  lemma {:induction false} BitOrDisjoint(a: nat, bit: nat, k: nat)
    requires bit <= 1
    requires Low(a, k + 1) == 0
    ensures BitOr(a, bit * Pow2(k)) == a + bit * Pow2(k)
  {
    if bit == 1 && a != 0 {
      assert a % 2 == 0 && Low(a / 2, k) == 0;
      if k == 0 {
        assert BitOr(a, 1) == 1 + 2 * BitOr(a / 2, 0);
      } else {
        assert Pow2(k) / 2 == Pow2(k - 1);
        BitOrDisjoint(a / 2, 1, k - 1);
      }
    }
  }

  /** Adding bit `k` to a value with no bit below `k + 1` leaves no bit below `k`. */
  lemma {:induction false} LowAligned(a: nat, bit: nat, k: nat)
    requires bit <= 1
    requires Low(a, k + 1) == 0
    ensures Low(a + bit * Pow2(k), k) == 0
  {
    if k > 0 {
      var p := Pow2(k - 1);
      assert Pow2(k) == 2 * p;
      assert a % 2 == 0 && Low(a / 2, k) == 0;
      var x := a + bit * Pow2(k);
      if bit == 0 {
        assert x == a && a / 2 + bit * p == a / 2;
      } else {
        assert x == a + 2 * p && x / 2 == a / 2 + bit * p;
      }
      LowAligned(a / 2, bit, k - 1);
    }
  }

  lemma AccumulateStart(j: nat, c: nat)
    ensures Accumulated(0, j, j, c, 0)
  {
    LowOfZero(8);
  }

  /** One iteration of the inner loop keeps `Accumulated` for one channel. */
  lemma AccumulateStep(acc: nat, j: nat, lab: nat, c: nat, i: nat)
    requires i < 8 && c < 3
    requires Accumulated(acc, j, lab, c, i)
    ensures Accumulated(BitOr(acc, Shl(BitAt(lab, c), 7 - i)), j, Shr(lab, 3), c, i + 1)
  {
    OrStep(acc, lab, c, i);
    ShrThree(lab);
  }

  /** One iteration of the inner loop for one channel. */
  lemma OrStep(acc: nat, lab: nat, c: nat, i: nat)
    requires i < 8 && c < 3
    requires Low(acc, 8 - i) == 0
    ensures BitOr(acc, Shl(BitAt(lab, c), 7 - i)) == acc + Bit(lab, c) * Pow2(7 - i)
    ensures Low(acc + Bit(lab, c) * Pow2(7 - i), 7 - i) == 0
  {
    BitAtIsBit(lab, c);
    ShlIsMul(BitAt(lab, c), 7 - i);
    BitOrDisjoint(acc, BitAt(lab, c), 7 - i);
    LowAligned(acc, BitAt(lab, c), 7 - i);
  }

  /** For the three channel bits, `(x >> c) & 1` is bit `c` of `x`. */
  lemma BitAtIsBit(x: nat, c: nat)
    requires c < 3
    ensures BitAt(x, c) == Bit(x, c)
  {
    assert Shr(x, 1) == x / 2;
    assert Shr(x, 2) == Shr(x / 2, 1) == x / 2 / 2;
    assert Pow2(1) == 2 && Pow2(2) == 4;
  }

  /** Splitting a value at bit `k`: `x >> k` and the `k` low bits. */
  lemma {:induction false} HighAndLow(bit: nat, rest: nat, k: nat)
    requires bit <= 1 && rest < Pow2(k)
    ensures Shr(bit * Pow2(k) + rest, k) == bit
    ensures Low(bit * Pow2(k) + rest, k) == rest
  {
    var x := bit * Pow2(k) + rest;
    if k > 0 {
      assert x % 2 == rest % 2 && x / 2 == bit * Pow2(k - 1) + rest / 2 by {
        if bit == 0 {} else {}
      }
      HighAndLow(bit, rest / 2, k - 1);
    }
  }

  /** For a single bit, `b << k` is `b * 2^k`. */
  lemma {:induction false} ShlIsMul(bit: nat, k: nat)
    requires bit <= 1
    ensures Shl(bit, k) == bit * Pow2(k)
  {
    if k > 0 {
      ShlIsMul(bit, k - 1);
      if bit == 0 {} else {}
    }
  }

  lemma {:induction false} ChannelOfZero(c: nat, i: nat)
    requires i <= 8
    ensures ChannelFrom(0, c, i) == 0
    decreases 8 - i
  {
    if i < 8 {
      ChannelOfZero(c, i + 1);
    }
  }

  lemma {:induction false} LowOfZero(k: nat)
    ensures Low(0, k) == 0
  {
    if k > 0 {
      LowOfZero(k - 1);
    }
  }

  lemma {:induction false} ChannelBound(lab: nat, c: nat, i: nat)
    requires i <= 8
    ensures ChannelFrom(lab, c, i) < Pow2(8 - i)
    decreases 8 - i
  {
    if i < 8 {
      ChannelBound(lab / 8, c, i + 1);
      assert Pow2(8 - i) == 2 * Pow2(7 - i);
      assert Bit(lab, c) * Pow2(7 - i) <= Pow2(7 - i) by {
        if Bit(lab, c) == 0 {} else {}
      }
    }
  }

  lemma {:induction false} DecodeChannels(lab: nat, i: nat)
    requires i <= 8
    requires lab < Pow2(3 * (8 - i))
    ensures DecodeFrom(ChannelFrom(lab, 0, i), ChannelFrom(lab, 1, i), ChannelFrom(lab, 2, i), i) == lab
    decreases 8 - i
  {
    if i < 8 {
      DecodeGroup(lab, 0, i);
      DecodeGroup(lab, 1, i);
      DecodeGroup(lab, 2, i);
      RestBound(lab, i);
      DecodeChannels(lab / 8, i + 1);
      LowThreeBits(lab);
    }
  }

  /** Bit `7 - i` of a channel is the channel's bit of the current group; the bits below come from the rest. */
  lemma DecodeGroup(lab: nat, c: nat, i: nat)
    requires i < 8
    ensures BitAt(ChannelFrom(lab, c, i), 7 - i) == Bit(lab, c)
    ensures Low(ChannelFrom(lab, c, i), 7 - i) == ChannelFrom(lab / 8, c, i + 1)
  {
    var bit, rest := Bit(lab, c), ChannelFrom(lab / 8, c, i + 1);
    assert ChannelFrom(lab, c, i) == bit * Pow2(7 - i) + rest;
    ChannelBound(lab / 8, c, i + 1);
    HighAndLow(bit, rest, 7 - i);
  }

  lemma RestBound(lab: nat, i: nat)
    requires i < 8
    requires lab < Pow2(3 * (8 - i))
    ensures lab / 8 < Pow2(3 * (8 - (i + 1)))
  {
    Pow2Plus3(3 * (7 - i));
    assert 3 * (8 - i) == 3 * (7 - i) + 3;
  }

  lemma LowThreeBits(x: nat)
    ensures x % 8 == Bit(x, 0) + 2 * Bit(x, 1) + 4 * Bit(x, 2)
  {
    assert Pow2(0) == 1 && Pow2(1) == 2 && Pow2(2) == 4;
    var q, r := x / 8, x % 8;
    assert x == 8 * q + r;
    assert x / 2 == 4 * q + r / 2;
    assert x / 4 == 2 * q + r / 4;
    assert Bit(x, 0) == r % 2;
    assert Bit(x, 1) == (r / 2) % 2 by {
      assert x / Pow2(1) == 2 * (2 * q) + r / 2;
    }
    assert Bit(x, 2) == (r / 4) % 2 by {
      assert x / Pow2(2) == 2 * q + r / 4;
    }
  }

  lemma ShrThree(x: nat)
    ensures Shr(x, 3) == x / 8
  {
    assert Shr(x, 3) == Shr(x / 2, 2) == Shr(x / 2 / 2, 1) == x / 2 / 2 / 2;
  }

  /** Two shifts in a row are one shift by the sum. */
  lemma {:induction false} ShrAdd(x: nat, a: nat, b: nat)
    ensures Shr(Shr(x, a), b) == Shr(x, a + b)
  {
    if a > 0 {
      ShrAdd(x / 2, a - 1, b);
    }
  }

  /** `j >> k` is zero exactly when `j < 2^k`. */
  lemma {:induction false} ShrZero(j: nat, k: nat)
    ensures Shr(j, k) == 0 <==> j < Pow2(k)
  {
    if k > 0 {
      ShrZero(j / 2, k - 1);
    }
  }

  lemma {:induction false} Pow2Add(a: nat, b: nat)
    ensures Pow2(a + b) == Pow2(a) * Pow2(b)
  {
    if a > 0 {
      Pow2Add(a - 1, b);
    }
  }

  lemma Pow2Of24()
    ensures Pow2(24) == MaxClasses
  {
    assert Pow2(8) == 256;
    Pow2Add(8, 8);
    Pow2Add(16, 8);
  }

  lemma Pow2Plus3(m: nat)
    ensures Pow2(m + 3) == 8 * Pow2(m)
  {
    assert Pow2(m + 3) == 2 * Pow2(m + 2) == 4 * Pow2(m + 1) == 8 * Pow2(m);
  }

  lemma {:induction false} Pow2Mono(a: nat, b: nat)
    requires a <= b
    ensures Pow2(a) <= Pow2(b)
  {
    if a < b {
      Pow2Mono(a, b - 1);
    }
  }
}
