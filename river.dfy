/**
 * The integer parts of the river engine (river-engine.js): the Perlin
 * permutation table, the lattice and table indexing of `noise`, the gradient
 * selection `grad`, `hexToRgb`, ripple creation and the heartbeat. Drawing and
 * every floating-point noise value are not modelled.
 */
module River {
  import opened Js
  import opened Phases
  import opened Store

  /** The sequence 0, 1, ..., n - 1. */
  function Identity(n: nat): (s: seq<int>)
    ensures |s| == n && forall i | 0 <= i < n :: s[i] == i
  {
    seq(n, i => i)
  }

  /** `s` holds each of 0..255 exactly once. */
  ghost predicate IsByteShuffle(s: seq<int>)
  {
    multiset(s) == multiset(Identity(256))
  }

  /** A shuffle of 0..255 only holds byte values. */
  lemma {:induction false} ShuffleHoldsBytes(s: seq<int>, i: int)
    requires IsByteShuffle(s) && 0 <= i < |s|
    ensures 0 <= s[i] < 256
  {
    assert s[i] in multiset(s);
    assert s[i] in Identity(256);
  }

  /** A shuffle of 0..255 has 256 entries. */
  lemma {:induction false} ShuffleLength(s: seq<int>)
    requires IsByteShuffle(s)
    ensures |s| == 256
  {
    calc {
      |s|;
      |multiset(s)|;
      |multiset(Identity(256))|;
      |Identity(256)|;
    }
  }

  /**
   * `Math.floor(n) & 255` for an integer `n`: `&` takes the low eight bits of
   * the 32-bit two's-complement value, which is `n` modulo 256 because 2^32 is
   * a multiple of 256 (Dafny's `%` is Euclidean, so this holds for negative `n` too).
   */
  function LatticeCoord(n: int): (c: int)
    ensures 0 <= c < 256
    ensures 0 <= n < 256 ==> c == n
    ensures (n - c) % 256 == 0
  {
    n % 256
  }

  /** The lattice coordinate is periodic: shifting by 256 cells does not change it. */
  lemma {:induction false} LatticePeriodic(n: int)
    ensures LatticeCoord(n + 256) == LatticeCoord(n)
  {
    var c := LatticeCoord(n);
    assert n + 256 == (n / 256 + 1) * 256 + c;
  }

  class Perlin {
    /** The doubled table `p` (a `Uint8Array(512)`), indexed by `noise`. */
    const p: array<int>
    /** The shuffled `Uint8Array(256)` of the byte values. */
    const permutation: array<int>

    ghost predicate Valid()
      reads this, p, permutation
    {
      p.Length == 512 && permutation.Length == 256 && p != permutation &&
      IsByteShuffle(permutation[..]) &&
      (forall i | 0 <= i < 256 :: 0 <= permutation[i] < 256) &&
      (forall i | 0 <= i < 512 :: p[i] == permutation[i % 256])
    }

    /**
     * `new Perlin()`: the identity table, a Fisher-Yates shuffle whose random
     * index `j` may be any of 0..i, then the table written twice into `p`.
     */
    constructor ()
      ensures Valid()
      ensures fresh(p) && fresh(permutation)
    {
      var perm := IdentityTable();
      Shuffle(perm);
      var table := Doubled(perm);
      p := table;
      permutation := perm;
    }

    /** The first loop of the constructor: `permutation[i] = i`. */
    static method IdentityTable() returns (perm: array<int>)
      ensures fresh(perm) && perm[..] == Identity(256)
    {
      perm := new int[256];
      var i := 0;
      while i < 256
        invariant 0 <= i <= 256
        invariant forall k | 0 <= k < i :: perm[k] == k
      {
        perm[i] := i;
        i := i + 1;
      }
      assert perm[..] == Identity(256);
    }

    /** The second loop: swap entry `i` with a random `j` in 0..i, for `i` from 255 down to 1. */
    static method Shuffle(perm: array<int>)
      requires IsByteShuffle(perm[..])
      modifies perm
      ensures IsByteShuffle(perm[..])
    {
      var i := 255;
      while i > 0
        invariant 0 <= i <= 255
        invariant IsByteShuffle(perm[..])
      {
        ShuffleLength(perm[..]);
        var j :| 0 <= j <= i;
        ghost var before := perm[..];
        perm[i], perm[j] := perm[j], perm[i];
        assert perm[..] == before[i := before[j]][j := before[i]];
        i := i - 1;
      }
    }

    /** The third loop: the shuffled table copied into both halves of a fresh 512-entry table. */
    static method Doubled(perm: array<int>) returns (table: array<int>)
      requires perm.Length == 256 && IsByteShuffle(perm[..])
      ensures fresh(table) && table.Length == 512
      ensures forall i | 0 <= i < 512 :: table[i] == perm[i % 256]
      ensures forall i | 0 <= i < 256 :: 0 <= perm[i] < 256
    {
      ShuffleLength(perm[..]);
      table := new int[512];
      var i := 0;
      while i < 256
        invariant 0 <= i <= 256
        invariant forall k | 0 <= k < i :: table[k] == perm[k] && table[k + 256] == perm[k]
      {
        table[i] := perm[i];
        table[i + 256] := perm[i];
        i := i + 1;
      }
      forall k | 0 <= k < 512
        ensures table[k] == perm[k % 256]
      {
        if k >= 256 {
          assert k % 256 == k - 256;
          assert table[(k - 256) + 256] == perm[k - 256];
        }
      }
      forall k | 0 <= k < 256
        ensures 0 <= perm[k] < 256
      {
        ShuffleHoldsBytes(perm[..], k);
      }
    }

    /** Both halves of `p` hold the permutation. */
    lemma {:induction false} DoubledTable(i: int)
      requires Valid() && 0 <= i < 256
      ensures p[i] == permutation[i] && p[i + 256] == permutation[i]
    {
      assert (i + 256) % 256 == i;
    }

    /** The corner index the source reaches through `A`/`B`, `AA`..`BB` and `+ 1`, read straight off the permutation. */
    ghost function CornerHash(gx: int, gy: int, gz: int): int
      reads this, permutation
      requires permutation.Length == 256
    {
      permutation[(permutation[(permutation[gx % 256] + gy) % 256] + gz) % 256]
    }

    /**
     * The eight hashes `noise(x, y, z)` feeds to `grad`, in the source's order
     * `p[AA], p[BA], p[AB], p[BB], p[AA+1], p[BA+1], p[AB+1], p[BB+1]`, for
     * the integer parts `fx = floor(x)`, `fy`, `fz`. Every index stays inside
     * the 512 entries of `p`, and each hash is the permutation applied to the
     * corner's lattice point, coordinate by coordinate.
     */
    method CornerHashes(fx: int, fy: int, fz: int) returns (h: seq<int>)
      requires Valid()
      ensures |h| == 8
      ensures forall k | 0 <= k < 8 :: 0 <= h[k] < 256
      ensures var X, Y, Z := LatticeCoord(fx), LatticeCoord(fy), LatticeCoord(fz);
        h == [CornerHash(X, Y, Z), CornerHash(X + 1, Y, Z), CornerHash(X, Y + 1, Z), CornerHash(X + 1, Y + 1, Z),
              CornerHash(X, Y, Z + 1), CornerHash(X + 1, Y, Z + 1), CornerHash(X, Y + 1, Z + 1), CornerHash(X + 1, Y + 1, Z + 1)]
    {
      var X, Y, Z := LatticeCoord(fx), LatticeCoord(fy), LatticeCoord(fz);
      CubeReadsPermutation(X, Y, Z);
      var A := p[X] + Y;
      var AA := p[A] + Z;
      var AB := p[A + 1] + Z;
      var B := p[X + 1] + Y;
      var BA := p[B] + Z;
      var BB := p[B + 1] + Z;
      h := [p[AA], p[BA], p[AB], p[BB], p[AA + 1], p[BA + 1], p[AB + 1], p[BB + 1]];
    }

    /** One corner: three lookups in `p` equal three lookups in the permutation taken modulo 256. */
    lemma {:induction false} CornerReadsPermutation(gx: int, gy: int, gz: int)
      requires Valid() && 0 <= gx < 512 && 0 <= gy < 257 && 0 <= gz < 257
      ensures 0 <= p[gx] + gy < 512
      ensures 0 <= p[p[gx] + gy] + gz < 512
      ensures p[p[p[gx] + gy] + gz] == CornerHash(gx, gy, gz)
    {
      var a := p[gx] + gy;
      assert 0 <= a < 512;
      var b := p[a] + gz;
      assert 0 <= b < 512;
    }

    /**
     * The fourteen lookups of `noise` stay inside `p`, and its eight hashes are
     * the corner hashes, in the order the source lists them.
     */
    lemma CubeReadsPermutation(X: int, Y: int, Z: int)
      requires Valid() && 0 <= X < 256 && 0 <= Y < 256 && 0 <= Z < 256
      ensures 0 <= p[X] + Y < 511 && 0 <= p[X + 1] + Y < 511
      ensures var A, B := p[X] + Y, p[X + 1] + Y;
        0 <= p[A] + Z < 511 && 0 <= p[A + 1] + Z < 511 && 0 <= p[B] + Z < 511 && 0 <= p[B + 1] + Z < 511
      ensures var A, B := p[X] + Y, p[X + 1] + Y;
        var AA, AB, BA, BB := p[A] + Z, p[A + 1] + Z, p[B] + Z, p[B + 1] + Z;
        [p[AA], p[BA], p[AB], p[BB], p[AA + 1], p[BA + 1], p[AB + 1], p[BB + 1]] ==
        [CornerHash(X, Y, Z), CornerHash(X + 1, Y, Z), CornerHash(X, Y + 1, Z), CornerHash(X + 1, Y + 1, Z),
         CornerHash(X, Y, Z + 1), CornerHash(X + 1, Y, Z + 1), CornerHash(X, Y + 1, Z + 1), CornerHash(X + 1, Y + 1, Z + 1)]
    {
      FaceReadsPermutation(X, Y, Z);
      FaceReadsPermutation(X, Y, Z + 1);
    }

    /** The four corners of the lower `z` face (`dz` 0) or the upper one (`dz` 1). */
    lemma {:induction false} FaceReadsPermutation(X: int, Y: int, Z: int)
      requires Valid() && 0 <= X < 256 && 0 <= Y < 256 && 0 <= Z < 257
      ensures 0 <= p[X] + Y < 511 && 0 <= p[X + 1] + Y < 511
      ensures 0 <= p[p[X] + Y] + Z < 512 && 0 <= p[p[X] + Y + 1] + Z < 512
      ensures 0 <= p[p[X + 1] + Y] + Z < 512 && 0 <= p[p[X + 1] + Y + 1] + Z < 512
      ensures p[p[p[X] + Y] + Z] == CornerHash(X, Y, Z)
      ensures p[p[p[X + 1] + Y] + Z] == CornerHash(X + 1, Y, Z)
      ensures p[p[p[X] + Y + 1] + Z] == CornerHash(X, Y + 1, Z)
      ensures p[p[p[X + 1] + Y + 1] + Z] == CornerHash(X + 1, Y + 1, Z)
    {
      CornerReadsPermutation(X, Y, Z);
      CornerReadsPermutation(X + 1, Y, Z);
      CornerReadsPermutation(X, Y + 1, Z);
      CornerReadsPermutation(X + 1, Y + 1, Z);
    }
  }

  /**
   * `grad(hash, x, y, z)` for a table entry `hash` (a byte, so `hash & 15` is
   * `hash % 16` and the bit tests `h & 1`, `h & 2` read the low two bits).
   */
  function Grad(hash: int, x: real, y: real, z: real): real
    requires 0 <= hash
  {
    var h := hash % 16;
    var u := if h < 8 then x else y;
    var v := if h < 4 then y else if h == 12 || h == 14 then x else z;
    (if h % 2 == 0 then u else -u) + (if (h / 2) % 2 == 0 then v else -v)
  }

  /** The twelve edge directions of Ken Perlin's improved noise, with four repeated to fill sixteen slots. */
  function GradientTable(): (t: seq<(int, int, int)>)
    ensures |t| == 16
  {
    [(1, 1, 0), (-1, 1, 0), (1, -1, 0), (-1, -1, 0),
     (1, 0, 1), (-1, 0, 1), (1, 0, -1), (-1, 0, -1),
     (0, 1, 1), (0, -1, 1), (0, 1, -1), (0, -1, -1),
     (1, 1, 0), (0, -1, 1), (-1, 1, 0), (0, -1, -1)]
  }

  function Dot(g: (int, int, int), x: real, y: real, z: real): real
  {
    g.0 as real * x + g.1 as real * y + g.2 as real * z
  }

  /** `grad` is the dot product of `(x, y, z)` with the gradient that the low four bits of `hash` select. */
  lemma {:induction false} GradIsDotProduct(hash: int, x: real, y: real, z: real)
    requires 0 <= hash
    ensures Grad(hash, x, y, z) == Dot(GradientTable()[hash % 16], x, y, z)
  {
    var h := hash % 16;
    var t := GradientTable();
    if h == 0 { assert t[0] == (1, 1, 0); }
    else if h == 1 { assert t[1] == (-1, 1, 0); }
    else if h == 2 { assert t[2] == (1, -1, 0); }
    else if h == 3 { assert t[3] == (-1, -1, 0); }
    else if h == 4 { assert t[4] == (1, 0, 1); }
    else if h == 5 { assert t[5] == (-1, 0, 1); }
    else if h == 6 { assert t[6] == (1, 0, -1); }
    else if h == 7 { assert t[7] == (-1, 0, -1); }
    else if h == 8 { assert t[8] == (0, 1, 1); }
    else if h == 9 { assert t[9] == (0, -1, 1); }
    else if h == 10 { assert t[10] == (0, 1, -1); }
    else if h == 11 { assert t[11] == (0, -1, -1); }
    else if h == 12 { assert t[12] == (1, 1, 0); }
    else if h == 13 { assert t[13] == (0, -1, 1); }
    else if h == 14 { assert t[14] == (-1, 1, 0); }
    else { assert t[15] == (0, -1, -1); }
  }

  /** Only the low four bits of the hash matter. */
  lemma {:induction false} GradUsesLowFourBits(hash: int, x: real, y: real, z: real)
    requires 0 <= hash
    ensures Grad(hash + 16, x, y, z) == Grad(hash, x, y, z)
  {
    var h := hash % 16;
    assert hash + 16 == (hash / 16 + 1) * 16 + h;
  }

  predicate IsHexDigit(c: char)
  {
    '0' <= c <= '9' || 'a' <= c <= 'f' || 'A' <= c <= 'F'
  }

  /** The value of one hexadecimal digit, either case. */
  function HexValue(c: char): (v: nat)
    requires IsHexDigit(c)
    ensures v < 16
  {
    if '0' <= c <= '9' then c as int - '0' as int
    else if 'a' <= c <= 'f' then c as int - 'a' as int + 10
    else c as int - 'A' as int + 10
  }

  /** The lower-case digit of a value below 16. */
  function HexDigit(v: int): (c: char)
    requires 0 <= v < 16
    ensures IsHexDigit(c) && HexValue(c) == v
  {
    if v < 10 then ('0' as int + v) as char else ('a' as int + v - 10) as char
  }

  predicate AllHex(s: string)
  {
    forall i | 0 <= i < |s| :: IsHexDigit(s[i])
  }

  /** The six hex digits the pattern `^#?([a-f\d]{2}){3}$` (case-insensitive) captures, if `hex` matches it. */
  function HexDigits(hex: string): (d: Option<string>)
    ensures d.Some? <==>
      (|hex| == 6 && AllHex(hex)) ||
      (|hex| == 7 && hex[0] == '#' && AllHex(hex[1..]))
    ensures d.Some? ==> |d.value| == 6 && AllHex(d.value) && hex[|hex| - 6..] == d.value
  {
    if |hex| == 7 && hex[0] == '#' then
      if AllHex(hex[1..]) then Some(hex[1..]) else None
    else if |hex| == 6 && AllHex(hex) then Some(hex)
    else None
  }

  /** `parseInt` of the two hex digits at `i`. */
  function ByteAt(d: string, i: nat): (b: nat)
    requires i + 1 < |d| && IsHexDigit(d[i]) && IsHexDigit(d[i + 1])
    ensures b < 256
  {
    HexValue(d[i]) * 16 + HexValue(d[i + 1])
  }

  /** `"R, G, B"` in decimal. */
  function RgbText(r: nat, g: nat, b: nat): string
  {
    NatDigits(r) + ", " + NatDigits(g) + ", " + NatDigits(b)
  }

  /** `hexToRgb(hex)`: the three channels of a matching colour, or `'0, 0, 0'` for anything else. */
  function HexToRgb(hex: string): (s: string)
    ensures HexDigits(hex).None? ==> s == "0, 0, 0"
  {
    match HexDigits(hex)
    case Some(d) => RgbText(ByteAt(d, 0), ByteAt(d, 2), ByteAt(d, 4))
    case None => "0, 0, 0"
  }

  /** `#rrggbb` in lower case; the reference writer that `hexToRgb` reads back. */
  function RgbToHex(r: int, g: int, b: int): (s: string)
    requires 0 <= r < 256 && 0 <= g < 256 && 0 <= b < 256
    ensures |s| == 7 && s[0] == '#'
  {
    ['#', HexDigit(r / 16), HexDigit(r % 16), HexDigit(g / 16), HexDigit(g % 16), HexDigit(b / 16), HexDigit(b % 16)]
  }

  /** Reading back a written colour gives its channels, with or without the leading `#`. */
  lemma {:induction false} HexRoundTrip(r: int, g: int, b: int)
    requires 0 <= r < 256 && 0 <= g < 256 && 0 <= b < 256
    ensures HexToRgb(RgbToHex(r, g, b)) == RgbText(r, g, b)
    ensures HexToRgb(RgbToHex(r, g, b)[1..]) == RgbText(r, g, b)
  {
    var s := RgbToHex(r, g, b);
    assert HexDigits(s) == Some(s[1..]);
    assert HexDigits(s[1..]) == Some(s[1..]);
  }

  /** Upper-casing a character keeps it a hex digit, or not one, and keeps its value. */
  lemma UpperHexDigit(c: char)
    ensures IsHexDigit(UpperChar(c)) <==> IsHexDigit(c)
    ensures IsHexDigit(c) ==> HexValue(UpperChar(c)) == HexValue(c)
    ensures UpperChar(c) == '#' <==> c == '#'
  {
  }

  /** The pattern matches the upper-cased text exactly when it matches the text, capturing the upper-cased digits. */
  lemma {:induction false} UpperHexDigits(hex: string)
    ensures HexDigits(ToUpperAscii(hex)).Some? <==> HexDigits(hex).Some?
    ensures HexDigits(hex).Some? ==> HexDigits(ToUpperAscii(hex)).value == ToUpperAscii(HexDigits(hex).value)
  {
    var up := ToUpperAscii(hex);
    forall i | 0 <= i < |hex|
      ensures IsHexDigit(up[i]) <==> IsHexDigit(hex[i])
      ensures up[i] == '#' <==> hex[i] == '#'
    {
      UpperHexDigit(hex[i]);
    }
    if |hex| == 7 && hex[0] == '#' {
      assert up[1..] == ToUpperAscii(hex[1..]);
    }
  }

  /** Upper- and lower-case digits read the same. */
  lemma {:induction false} HexCaseInsensitive(hex: string)
    ensures HexToRgb(ToUpperAscii(hex)) == HexToRgb(hex)
  {
    UpperHexDigits(hex);
    if HexDigits(hex).Some? {
      var d := HexDigits(hex).value;
      var e := HexDigits(ToUpperAscii(hex)).value;
      forall i | 0 <= i < 6
        ensures IsHexDigit(e[i]) && HexValue(e[i]) == HexValue(d[i])
      {
        UpperHexDigit(d[i]);
      }
      assert ByteAt(e, 0) == ByteAt(d, 0) && ByteAt(e, 2) == ByteAt(d, 2) && ByteAt(e, 4) == ByteAt(d, 4);
    }
  }

  /** A ripple; the model keeps its numbers as exact reals. */
  datatype Ripple = Ripple(x: real, y: real, r: real, opacity: real, velocity: real, life: real)

  /** The ripple `createRipple(x, y, strength)` pushes. */
  function NewRipple(x: real, y: real, strength: real): (rp: Ripple)
    ensures rp.r == 0.0 && rp.life == 1.0
    ensures rp.x == x && rp.y == y
  {
    Ripple(x, y, 0.0, strength * 0.6, 2.5 + strength * 1.5, 1.0)
  }

  /** How much life a ripple loses in one frame. */
  const LifeDecay := 0.012

  /** One frame of `updateRipples` applied to a ripple: it widens by its velocity and fades. */
  function Advance(rp: Ripple): (a: Ripple)
    ensures a.life == rp.life - LifeDecay && a.r == rp.r + rp.velocity
    ensures a.x == rp.x && a.y == rp.y && a.opacity == rp.opacity && a.velocity == rp.velocity
  {
    rp.(r := rp.r + rp.velocity, life := rp.life - LifeDecay)
  }

  /**
   * What one frame of `updateRipples` leaves of a list of ripples: each
   * advanced once, those whose life has run out removed, the rest in their order.
   */
  function Decayed(rs: seq<Ripple>): (d: seq<Ripple>)
    ensures |d| <= |rs|
  {
    if rs == [] then []
    else
      var a := Advance(rs[0]);
      (if a.life <= 0.0 then [] else [a]) + Decayed(rs[1..])
  }

  /** Every ripple a frame keeps still has life left. */
  lemma {:induction false} DecayedAllLive(rs: seq<Ripple>)
    ensures forall i | 0 <= i < |Decayed(rs)| :: Decayed(rs)[i].life > 0.0
  {
    if rs != [] {
      DecayedAllLive(rs[1..]);
    }
  }

  /** Decaying a suffix decays its first ripple, then the rest. */
  lemma DecayedStep(rs: seq<Ripple>, i: nat)
    requires i < |rs|
    ensures var a := Advance(rs[i]);
      Decayed(rs[i..]) == (if a.life <= 0.0 then [] else [a]) + Decayed(rs[i + 1..])
  {
    assert rs[i..][0] == rs[i] && rs[i..][1..] == rs[i + 1..];
  }

  /** The frame treats each ripple on its own: decaying a concatenation decays each part. */
  lemma {:induction false} DecayedAppend(a: seq<Ripple>, b: seq<Ripple>)
    ensures Decayed(a + b) == Decayed(a) + Decayed(b)
  {
    if a == [] {
      assert a + b == b;
    } else {
      assert (a + b)[0] == a[0];
      assert (a + b)[1..] == a[1..] + b;
      DecayedAppend(a[1..], b);
      var k := if Advance(a[0]).life <= 0.0 then [] else [Advance(a[0])];
      assert Decayed(a + b) == k + (Decayed(a[1..]) + Decayed(b));
      assert Decayed(a) == k + Decayed(a[1..]);
    }
  }

  /** `k` frames of `updateRipples` with no ripple added in between. */
  function Frames(rs: seq<Ripple>, k: nat): seq<Ripple>
  {
    if k == 0 then rs else Decayed(Frames(rs, k - 1))
  }

  /** A ripple advanced `k` times. */
  function AdvanceN(rp: Ripple, k: nat): (a: Ripple)
    ensures a.life == rp.life - LifeDecay * k as real && a.r == rp.r + rp.velocity * k as real
    ensures a.x == rp.x && a.y == rp.y && a.velocity == rp.velocity
  {
    if k == 0 then rp else Advance(AdvanceN(rp, k - 1))
  }

  /** A live ripple survives `k` frames exactly while its life stays above `k` decay steps. */
  lemma {:induction false} OneRippleFrames(rp: Ripple, k: nat)
    requires rp.life > 0.0
    ensures Frames([rp], k) == if rp.life - LifeDecay * k as real > 0.0 then [AdvanceN(rp, k)] else []
  {
    if k > 0 {
      OneRippleFrames(rp, k - 1);
      if rp.life - LifeDecay * (k - 1) as real > 0.0 {
        assert Frames([rp], k) == Decayed([AdvanceN(rp, k - 1)]);
        assert [AdvanceN(rp, k - 1)][1..] == [];
      }
    }
  }

  /**
   * A new ripple is still drawn after 83 frames, its radius grown to 83 times
   * its velocity, and the 84th frame removes it.
   */
  lemma RippleLifetime(x: real, y: real, strength: real)
    ensures var rp := NewRipple(x, y, strength);
      Frames([rp], 83) == [AdvanceN(rp, 83)] && AdvanceN(rp, 83).r == rp.velocity * 83.0
    ensures Frames([NewRipple(x, y, strength)], 84) == []
  {
    var rp := NewRipple(x, y, strength);
    OneRippleFrames(rp, 83);
    OneRippleFrames(rp, 84);
  }

  /** The heartbeat fires once more than five seconds have passed since the last one. */
  const HeartbeatInterval := 5000

  /** The strength of the heartbeat ripple. */
  const HeartbeatStrength := 0.4

  predicate HeartbeatDue(now: int, lastHeartbeat: int)
  {
    now - lastHeartbeat > HeartbeatInterval
  }

  class RiverEngine {
    var width: int
    var height: int
    var time: real
    var causticTime: real
    var mistTime: real
    var ripples: seq<Ripple>
    var lastHeartbeat: int
    /** The phase key the drawing reads its colours by. */
    var currentPhase: string
    const perlin: Perlin

    ghost predicate Valid()
      reads this, perlin, perlin.p, perlin.permutation
    {
      perlin.Valid()
    }

    /**
     * `new RiverEngine(...)`: zeroed state, a fresh noise table, the phase
     * `'menstrual'`, then `init()`: `resize()` to the window and the first
     * `animate()` frame at time `now`.
     */
    constructor (innerWidth: int, innerHeight: int, now: int)
      ensures Valid() && fresh(perlin)
      ensures width == innerWidth && height == innerHeight
      ensures currentPhase == "menstrual"
      ensures time == 0.003 && causticTime == 0.001 && mistTime == 0.002
      ensures HeartbeatDue(now, 0) ==>
        lastHeartbeat == now &&
        ripples == [Advance(NewRipple(innerWidth as real / 2.0, innerHeight as real / 2.0, HeartbeatStrength))] &&
        ripples[0].r == 3.1 && ripples[0].life == 0.988
      ensures !HeartbeatDue(now, 0) ==> lastHeartbeat == 0 && ripples == []
    {
      width, height := 0, 0;
      time, causticTime, mistTime := 0.0, 0.0, 0.0;
      ripples := [];
      lastHeartbeat := 0;
      perlin := new Perlin();
      currentPhase := "menstrual";
      new;
      Resize(innerWidth, innerHeight);
      Animate(now);
    }

    method Resize(innerWidth: int, innerHeight: int)
      modifies this`width, this`height
      ensures width == innerWidth && height == innerHeight
    {
      width := innerWidth;
      height := innerHeight;
    }

    /** `createRipple(x, y, strength)`: one new ripple at the end, the others untouched. */
    method CreateRipple(x: real, y: real, strength: real)
      modifies this`ripples
      ensures ripples == old(ripples) + [NewRipple(x, y, strength)]
    {
      ripples := ripples + [NewRipple(x, y, strength)];
    }

    /** `updatePhase()`: the store's current phase key. */
    method UpdatePhase(state: AppState, elapsed: int)
      modifies this`currentPhase
      ensures currentPhase == Name(CurrentPhaseOf(state.settings, elapsed))
    {
      currentPhase := Name(CurrentPhaseOf(state.settings, elapsed));
    }

    /**
     * `updateRipples()` without its drawing: walking the list from the back,
     * each ripple widens and fades in place, and one whose life has run out is
     * spliced out.
     */
    method UpdateRipples()
      modifies this`ripples
      ensures ripples == Decayed(old(ripples))
    {
      var i := |ripples|;
      while i > 0
        invariant 0 <= i <= |old(ripples)|
        invariant ripples == old(ripples)[..i] + Decayed(old(ripples)[i..])
      {
        i := i - 1;
        ghost var rest := Decayed(old(ripples)[i + 1..]);
        DecayedStep(old(ripples), i);
        assert old(ripples)[..i + 1] == old(ripples)[..i] + [old(ripples)[i]];
        assert ripples == old(ripples)[..i] + [old(ripples)[i]] + rest;
        assert ripples[..i] == old(ripples)[..i] && ripples[i] == old(ripples)[i] && ripples[i + 1..] == rest;
        var a := Advance(ripples[i]);
        ghost var kept: seq<Ripple> := if a.life <= 0.0 then [] else [a];
        if a.life <= 0.0 {
          ripples := ripples[..i] + ripples[i + 1..];
        } else {
          ripples := ripples[..i] + [a] + ripples[i + 1..];
        }
        assert ripples == old(ripples)[..i] + (kept + rest);
      }
    }

    /**
     * One `animate()` frame at time `now`, without its drawing: the three
     * clocks advance; when the heartbeat is due a ripple rises from the centre
     * of the canvas and `lastHeartbeat` becomes `now`; then `drawRiver()` runs
     * `updateRipples()` over the whole list, the new ripple included.
     */
    method Animate(now: int)
      modifies this`time, this`causticTime, this`mistTime, this`ripples, this`lastHeartbeat
      ensures time == old(time) + 0.003 && causticTime == old(causticTime) + 0.001 && mistTime == old(mistTime) + 0.002
      ensures HeartbeatDue(now, old(lastHeartbeat)) ==>
        lastHeartbeat == now &&
        ripples == Decayed(old(ripples)) + [Advance(NewRipple(width as real / 2.0, height as real / 2.0, HeartbeatStrength))]
      ensures !HeartbeatDue(now, old(lastHeartbeat)) ==> lastHeartbeat == old(lastHeartbeat) && ripples == Decayed(old(ripples))
    {
      time := time + 0.003;
      causticTime := causticTime + 0.001;
      mistTime := mistTime + 0.002;
      ghost var before := ripples;
      if now - lastHeartbeat > HeartbeatInterval {
        CreateRipple(width as real / 2.0, height as real / 2.0, HeartbeatStrength);
        lastHeartbeat := now;
        var beat := NewRipple(width as real / 2.0, height as real / 2.0, HeartbeatStrength);
        DecayedAppend(before, [beat]);
        assert Decayed([beat]) == [Advance(beat)] by {
          assert [beat][1..] == [];
        }
      }
      UpdateRipples();
    }
  }
}
