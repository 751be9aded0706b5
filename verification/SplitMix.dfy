/** SplitMix64 on 64-bit words, and its twin on unbounded masked integers. */
module SplitMix {
  import opened Bits

  /** Two to the power 64. */
  const WORD: nat := 0x1_0000_0000_0000_0000

  type Word = x: nat | x < 0x1_0000_0000_0000_0000

  lemma WordIsPow()
    ensures Pow2(64) == WORD == 0x1_0000_0000_0000_0000
  {
    Pow32();
    PowAdd(32, 32);
  }

  lemma {:induction false} PowAdd(j: nat, k: nat)
    ensures Pow2(j + k) == Pow2(j) * Pow2(k)
    decreases j
  {
    if j > 0 { PowAdd(j - 1, k); }
  }

  // ----- The generator -----

  function WrappingAdd(x: Word, y: Word): Word { (x + y) % 0x1_0000_0000_0000_0000 }

  function WrappingMul(x: Word, y: Word): Word { (x * y) % 0x1_0000_0000_0000_0000 }

  /** `z ^ (z >> k)`. */
  function XorShift(z: Word, k: nat): Word {
    XorShiftBound(z, k);
    Xor(z, Shr(z, k))
  }

  lemma XorShiftBound(z: nat, k: nat)
    requires z < 0x1_0000_0000_0000_0000
    ensures Xor(z, Shr(z, k)) < 0x1_0000_0000_0000_0000
  {
    WordIsPow();
    ShrIsLess(z, k);
    XorBound(z, Shr(z, k), 64);
  }

  function Advance(state: Word): Word { WrappingAdd(state, 0x9E37_79B9_7F4A_7C15) }

  function Mix(s: Word): Word {
    var a := WrappingMul(XorShift(s, 30), 0xBF58_476D_1CE4_E5B9);
    var b := WrappingMul(XorShift(a, 27), 0x94D0_49BB_1331_11EB);
    XorShift(b, 31)
  }

  /** The state after `n` draws. */
  function StateAfter(seed: Word, n: nat): Word {
    if n == 0 then seed else Advance(StateAfter(seed, n - 1))
  }

  /** The `n`-th output, counting from zero. */
  function Output(seed: Word, n: nat): Word {
    Mix(StateAfter(seed, n + 1))
  }

  // ----- The mixer is a bijection -----

  function UnXorShift(y: Word, k: nat): Word {
    UnXorShiftBound(y, k);
    Xor(Xor(y, Shr(y, k)), Shr(y, k + k))
  }

  lemma UnXorShiftBound(y: nat, k: nat)
    requires y < 0x1_0000_0000_0000_0000
    ensures Xor(Xor(y, Shr(y, k)), Shr(y, k + k)) < 0x1_0000_0000_0000_0000
  {
    WordIsPow();
    ShrIsLess(y, k);
    ShrIsLess(y, k + k);
    XorBound(y, Shr(y, k), 64);
    XorBound(Xor(y, Shr(y, k)), Shr(y, k + k), 64);
  }

  /** With shifts of at least a third of the word, three terms undo an xor-shift. */
  lemma XorShiftUndone(z: Word, k: nat)
    requires 3 * k >= 64
    ensures UnXorShift(XorShift(z, k), k) == z && XorShift(UnXorShift(z, k), k) == z
  {
    hide Xor, Shr;
    var a, b, c := Shr(z, k), Shr(z, k + k), Shr(z, k + k + k);
    WordIsPow();
    ShrAllOut(z, 64, k + k + k);
    ShrShr(z, k, k);
    ShrShr(z, k, k + k);
    ShrShr(z, k + k, k);
    var y := Xor(z, a);
    ShrXor(z, a, k);
    ShrXor(z, a, k + k);
    XorZero(b);
    XorAssociative(y, a, b);
    XorCancel(z, a);
    XorAssociative(y, Xor(a, b), b);
    XorAssociative(Xor(z, a), a, b);
    XorCancel(z, b);
    var x := Xor(Xor(z, a), b);
    ShrXor(Xor(z, a), b, k);
    XorZero(Xor(a, b));
    XorAssociative(z, a, b);
    XorCancel(z, Xor(a, b));
  }

  lemma Rotate(x: nat, y: nat, z: nat)
    ensures (x * y) * z == (y * z) * x
  {
  }

  lemma MulBack(a: nat, b: nat, z: Word, inverse: nat)
    requires b % WORD == 1 && a * inverse == b * z
    ensures (a % WORD) * inverse % WORD == z
  {
    MulMod(a, inverse, WORD);
    MulMod(b, z, WORD);
  }

  lemma MulUndone(z: Word, m: Word, inverse: Word)
    requires m * inverse % WORD == 1
    ensures WrappingMul(WrappingMul(z, m), inverse) == z
  {
    Rotate(z, m, inverse);
    MulBack(z * m, m * inverse, z, inverse);
  }

  function Unmix(y: Word): Word {
    var b := WrappingMul(UnXorShift(y, 31), 0x3196_42B2_D24D_8EC3);
    var a := WrappingMul(UnXorShift(b, 27), 0x96DE_1B17_3F11_9089);
    UnXorShift(a, 30)
  }

  /** The mixer loses nothing and misses nothing. */
  lemma MixIsBijective(z: Word)
    ensures Unmix(Mix(z)) == z && Mix(Unmix(z)) == z
  {
    hide XorShift, UnXorShift, WrappingMul;
    var a := XorShift(z, 30);
    var b := XorShift(WrappingMul(a, 0xBF58_476D_1CE4_E5B9), 27);
    XorShiftUndone(z, 30);
    MulUndone(a, 0xBF58_476D_1CE4_E5B9, 0x96DE_1B17_3F11_9089);
    XorShiftUndone(WrappingMul(a, 0xBF58_476D_1CE4_E5B9), 27);
    MulUndone(b, 0x94D0_49BB_1331_11EB, 0x3196_42B2_D24D_8EC3);
    XorShiftUndone(WrappingMul(b, 0x94D0_49BB_1331_11EB), 31);
    var c := UnXorShift(z, 31);
    var d := UnXorShift(WrappingMul(c, 0x3196_42B2_D24D_8EC3), 27);
    XorShiftUndone(z, 31);
    MulUndone(c, 0x3196_42B2_D24D_8EC3, 0x94D0_49BB_1331_11EB);
    XorShiftUndone(WrappingMul(c, 0x3196_42B2_D24D_8EC3), 27);
    MulUndone(d, 0x96DE_1B17_3F11_9089, 0xBF58_476D_1CE4_E5B9);
    XorShiftUndone(WrappingMul(d, 0x96DE_1B17_3F11_9089), 30);
  }

  // ----- The period -----

  /** `n` draws add `n` times the constant, modulo 2^64. */
  lemma {:induction false} StateIsLinear(seed: Word, n: nat)
    ensures StateAfter(seed, n) == (seed + n * 0x9E37_79B9_7F4A_7C15) % WORD
  {
    if n == 0 {
      ModIs(seed, WORD, 0, seed);
    } else {
      StateIsLinear(seed, n - 1);
      AddMod(seed + (n - 1) * 0x9E37_79B9_7F4A_7C15, 0x9E37_79B9_7F4A_7C15, WORD);
    }
  }

  lemma EqualRemainders(a: int, b: int, m: nat)
    requires m > 0
    ensures a % m == b % m <==> (a - b) % m == 0
  {
    assert a == m * (a / m) + a % m && b == m * (b / m) + b % m;
    if a % m == b % m {
      assert a - b == m * (a / m - b / m);
      AddMultiple(0, m, a / m - b / m);
    }
    if (a - b) % m == 0 {
      assert a - b == m * ((a - b) / m);
      AddMultiple(b, m, (a - b) / m);
    }
  }

  /** Full period: two draws from one seed meet the same state exactly when their numbers agree
      modulo 2^64. */
  lemma StatesRepeatEveryWord(seed: Word, m: nat, n: nat)
    ensures StateAfter(seed, m) == StateAfter(seed, n) <==> m % WORD == n % WORD
  {
    var g := 0x9E37_79B9_7F4A_7C15;
    StateIsLinear(seed, m);
    StateIsLinear(seed, n);
    EqualRemainders(seed + m * g, seed + n * g, WORD);
    assert (seed + m * g) - (seed + n * g) == (m - n) * g;
    GammaIsUnit(m - n);
    EqualRemainders(m, n, WORD);
  }

  lemma GammaIsUnit(d: int)
    ensures (d * 0x9E37_79B9_7F4A_7C15) % WORD == 0 <==> d % WORD == 0
  {
    var g, h := 0x9E37_79B9_7F4A_7C15, 0xF1DE_83E1_9937_733D;
    MulMod(d, g, WORD);
    MulMod(d * g, h, WORD);
    MulMod(g * h, d, WORD);
    assert (d * g) * h == (g * h) * d;
  }

  /** Outputs repeat exactly when states do: within one period every output occurs once. */
  lemma OutputsRepeatEveryWord(seed: Word, m: nat, n: nat)
    ensures Output(seed, m) == Output(seed, n) <==> m % WORD == n % WORD
  {
    hide Mix, Unmix, StateAfter;
    MixIsBijective(StateAfter(seed, m + 1));
    MixIsBijective(StateAfter(seed, n + 1));
    StatesRepeatEveryWord(seed, m + 1, n + 1);
    EqualRemainders(m, n, WORD);
    EqualRemainders(m + 1, n + 1, WORD);
  }

  lemma EveryStateOccurs(seed: Word, target: Word) returns (n: nat)
    ensures n < WORD && StateAfter(seed, n + 1) == target
  {
    hide StateAfter;
    var g, h := 0x9E37_79B9_7F4A_7C15, 0xF1DE_83E1_9937_733D;
    var d := target - seed - g;
    n := (d * h) % WORD;
    StateIsLinear(seed, n + 1);
    assert seed + (n + 1) * g == n * g + (seed + g);
    assert (n * g) % WORD == d % WORD by {
      MulMod(d * h, g, WORD);
      MulMod(g * h, d, WORD);
      assert (d * h) * g == (g * h) * d;
    }
    AddMod(n * g, seed + g, WORD);
    AddMod(d, seed + g, WORD);
    ModIs(target, WORD, 0, target);
  }

  /** Every 64-bit value is drawn, from any seed, within the first 2^64 draws. */
  lemma EveryOutputOccurs(seed: Word, y: Word) returns (n: nat)
    ensures n < WORD && Output(seed, n) == y
  {
    hide Mix, Unmix, StateAfter;
    MixIsBijective(y);
    n := EveryStateOccurs(seed, Unmix(y));
  }

  // ----- The twin on unbounded integers -----

  /** `x & ((1 << 64) - 1)`; for a negative operand, of its two's complement. */
  function Mask(x: int): nat {
    if x >= 0 then And(x, Pow2(64) - 1) else x % Pow2(64)
  }

  function TwinAdvance(state: int): nat { Mask(state + 0x9E37_79B9_7F4A_7C15) }

  function TwinMix(s: nat): nat {
    var a := Mask(Xor(s, Shr(s, 30)) * 0xBF58_476D_1CE4_E5B9);
    var b := Mask(Xor(a, Shr(a, 27)) * 0x94D0_49BB_1331_11EB);
    Xor(b, Shr(b, 31))
  }

  function TwinStateAfter(seed: int, n: nat): nat {
    if n == 0 then Mask(seed) else TwinAdvance(TwinStateAfter(seed, n - 1))
  }

  lemma MaskIsMod(x: int)
    ensures Mask(x) == x % WORD
  {
    WordIsPow();
    if x >= 0 { AndMask(x, 64); }
  }

  lemma TwinMixIsMix(s: Word)
    ensures TwinMix(s) == Mix(s)
  {
    hide Mask, Xor, Shr;
    var x := XorShift(s, 30) * 0xBF58_476D_1CE4_E5B9;
    MaskIsMod(x);
    MaskIsMod(XorShift(Mask(x), 27) * 0x94D0_49BB_1331_11EB);
  }

  /** For any integer seed, the masked-integer generator draws the same stream as the wrapping one
      from that seed modulo 2^64. */
  lemma {:induction false} TwinDrawsTheSame(seed: int, n: nat)
    ensures TwinStateAfter(seed, n) == StateAfter(seed % WORD, n)
    ensures TwinMix(TwinStateAfter(seed, n + 1)) == Output(seed % WORD, n)
  {
    hide Mask, TwinMix, Mix;
    if n == 0 { MaskIsMod(seed); } else { TwinDrawsTheSame(seed, n - 1); }
    MaskIsMod(StateAfter(seed % WORD, if n == 0 then 0 else n - 1) + 0x9E37_79B9_7F4A_7C15);
    MaskIsMod(StateAfter(seed % WORD, n) + 0x9E37_79B9_7F4A_7C15);
    TwinMixIsMix(StateAfter(seed % WORD, n + 1));
  }

  lemma TwinDraw(s: Word)
    ensures TwinAdvance(s) == StateAfter(s, 1) && TwinMix(TwinAdvance(s)) == Output(s, 0)
  {
    hide Mask, TwinMix, Mix;
    MaskIsMod(s + 0x9E37_79B9_7F4A_7C15);
    TwinMixIsMix(StateAfter(s, 1));
  }

  // ----- Bytes and floats -----

  /** Byte `j` of a word, least significant first. */
  function Byte(x: nat, j: nat): (b: nat)
    ensures b < 256
  {
    if j == 0 then x % 256 else Byte(x / 256, j - 1)
  }

  lemma {:induction false} ShrIsDiv(x: nat, k: nat)
    ensures Shr(x, k) == x / Pow2(k)
    decreases k
  {
    if k > 0 {
      ShrIsDiv(x / 2, k - 1);
      DivTwice(x, 2, Pow2(k - 1));
    }
  }

  /** The top 53 bits, scaled: `uniform01`. */
  function Uniform(x: Word): real {
    Shr(x, 11) as real / 9007199254740992.0
  }

  /** A uniform variate lies in [0, 1), and is the output rounded down to a multiple of 2^-53. */
  lemma UniformIsRounded(x: Word)
    ensures 0.0 <= Uniform(x) < 1.0
    ensures Uniform(x) * 9007199254740992.0 == (x / 2048) as real
    ensures Uniform(x) * 18446744073709551616.0 <= x as real < Uniform(x) * 18446744073709551616.0 + 2048.0
  {
    ShrIsDiv(x, 11);
    assert Pow2(11) == 2048;
    Scaled(x, Shr(x, 11));
  }

  lemma Scaled(x: Word, q: nat)
    requires q == x / 2048
    ensures var u := q as real / 9007199254740992.0;
            0.0 <= u < 1.0 && u * 18446744073709551616.0 <= x as real < u * 18446744073709551616.0 + 2048.0
  {
    assert q * 2048 <= x < q * 2048 + 2048 && q < 9007199254740992;
    var u := q as real / 9007199254740992.0;
    assert u * 18446744073709551616.0 == (q * 2048) as real;
  }

  function Pow256(n: nat): (p: nat)
    ensures p > 0
  {
    if n == 0 then 1 else 256 * Pow256(n - 1)
  }

  lemma {:induction false} ByteIs(x: nat, j: nat)
    ensures Byte(x, j) == x / Pow256(j) % 256
    decreases j
  {
    if j > 0 {
      ByteIs(x / 256, j - 1);
      DivTwice(x, 256, Pow256(j - 1));
    }
  }

  lemma DivTwice(x: nat, m: nat, n: nat)
    requires m > 0 && n > 0
    ensures m * n > 0 && (x / m) / n == x / (m * n)
  {
    var q, r := (x / m) / n, (x / m) % n;
    assert x == m * (n * q + r) + x % m;
    assert m * (n * q) == (m * n) * q;
    assert m * r + x % m < m * n by { assert m * r <= m * (n - 1); }
    ModIs(x, m * n, q, m * r + x % m);
  }

  /** The word with these bytes, least significant first. */
  function FromBytes(bytes: seq<nat>): nat {
    if bytes == [] then 0 else bytes[0] + 256 * FromBytes(bytes[1..])
  }

  function Bytes(x: nat, n: nat): seq<nat> {
    seq(n, j requires 0 <= j < n => Byte(x, j))
  }

  /** The bytes of a word, put together again, are the word. */
  lemma {:induction false} BytesRoundTrip(x: nat, n: nat)
    requires x < Pow256(n)
    ensures FromBytes(Bytes(x, n)) == x
    decreases n
  {
    if n > 0 {
      BytesRoundTrip(x / 256, n - 1);
      assert Bytes(x, n)[1..] == Bytes(x / 256, n - 1);
    }
  }

  /** Where `dest` may have got after `n` bytes were filled from a stream. */
  ghost predicate Filled(dest: seq<nat>, seed: Word, n: nat) {
    n <= |dest| && forall i :: 0 <= i < n ==> dest[i] == Byte(Output(seed, i / 8), i % 8)
  }

  /** Each whole chunk of eight bytes is one output. */
  lemma ChunkIsOutput(dest: seq<nat>, seed: Word, n: nat, k: nat)
    requires Filled(dest, seed, n) && 8 * k + 8 <= n
    ensures FromBytes(dest[8 * k..8 * k + 8]) == Output(seed, k)
  {
    hide Output;
    var z, chunk := Output(seed, k), dest[8 * k..8 * k + 8];
    forall j | 0 <= j < 8 ensures chunk[j] == Byte(z, j) {
      assert chunk[j] == dest[8 * k + j] && (8 * k + j) / 8 == k && (8 * k + j) % 8 == j;
    }
    assert chunk == Bytes(z, 8);
    assert Pow256(8) == 0x1_0000_0000_0000_0000 by { assert Pow256(4) == 0x1_0000_0000; }
    BytesRoundTrip(z, 8);
  }

  class Feed {
    var state: Word

    constructor (seed: Word)
      ensures state == seed
    {
      state := seed;
    }

    /** Restarts the stream. */
    method Reseed(seed: Word)
      modifies this
      ensures state == seed
    {
      state := seed;
    }

    method Next() returns (z: Word)
      modifies this
      ensures state == StateAfter(old(state), 1) && z == Output(old(state), 0)
    {
      state := Advance(state);
      z := state;
      z := WrappingMul(XorShift(z, 30), 0xBF58_476D_1CE4_E5B9);
      z := WrappingMul(XorShift(z, 27), 0x94D0_49BB_1331_11EB);
      z := XorShift(z, 31);
    }

    /** The high half of the next output. */
    method NextU32() returns (h: nat)
      modifies this
      ensures state == StateAfter(old(state), 1) && h == Output(old(state), 0) / 0x1_0000_0000 && h < 0x1_0000_0000
    {
      var z := Next();
      h := Shr(z, 32);
      ShrIsDiv(z, 32);
      Pow32();
    }

    /** Fills the buffer with the little-endian bytes of successive outputs, eight to a draw, the
        last draw in part if the length is not a multiple of eight. */
    method FillBytes(dest: array<nat>)
      modifies this, dest
      ensures Filled(dest[..], old(state), dest.Length)
      ensures forall k :: 0 <= 8 * k && 8 * k + 8 <= dest.Length ==>
                FromBytes(dest[8 * k..8 * k + 8]) == Output(old(state), k)
      ensures state == StateAfter(old(state), (dest.Length + 7) / 8)
    {
      var done := 0;
      ghost var draws := 0;
      while dest.Length - done >= 8
        invariant done == 8 * draws <= dest.Length && state == StateAfter(old(state), draws)
        invariant Filled(dest[..], old(state), done)
      {
        FillChunk(dest, done, 8, old(state), draws);
        done, draws := done + 8, draws + 1;
      }
      if done < dest.Length {
        FillChunk(dest, done, dest.Length - done, old(state), draws);
      }
      hide StateAfter, Output, FromBytes;
      forall k | 0 <= 8 * k && 8 * k + 8 <= dest.Length
        ensures FromBytes(dest[8 * k..8 * k + 8]) == Output(old(state), k)
      {
        ChunkIsOutput(dest[..], old(state), dest.Length, k);
        assert dest[..][8 * k..8 * k + 8] == dest[8 * k..8 * k + 8];
      }
    }

    method FillChunk(dest: array<nat>, done: nat, n: nat, ghost seed: Word, ghost draws: nat)
      requires done + n <= dest.Length && n <= 8 && done == 8 * draws && state == StateAfter(seed, draws)
      requires Filled(dest[..], seed, done)
      modifies this, dest
      ensures state == StateAfter(seed, draws + 1) && Filled(dest[..], seed, done + n)
    {
      hide StateAfter, Output, Byte;
      var z := Next();
      DrawsAdd(seed, draws);
      var j := 0;
      while j < n
        invariant 0 <= j <= n && Filled(dest[..], seed, done + j)
        invariant state == StateAfter(seed, draws + 1)
      {
        ghost var before := dest[..];
        dest[done + j] := Byte(z, j);
        assert dest[..] == before[done + j := Byte(z, j)];
        j := j + 1;
      }
    }
  }

  class TwinFeed {
    var state: nat

    constructor (seed: int)
      ensures state == TwinStateAfter(seed, 0)
    {
      state := Mask(seed);
    }

    method NextU64() returns (z: nat)
      modifies this
      ensures state == TwinAdvance(old(state)) && z == TwinMix(state)
      ensures old(state) < WORD ==> state == StateAfter(old(state), 1) && z == Output(old(state), 0)
    {
      if state < WORD { TwinDraw(state); }
      state := Mask(state + 0x9E37_79B9_7F4A_7C15);
      z := state;
      z := Mask(Xor(z, Shr(z, 30)) * 0xBF58_476D_1CE4_E5B9);
      z := Mask(Xor(z, Shr(z, 27)) * 0x94D0_49BB_1331_11EB);
      z := Xor(z, Shr(z, 31));
    }
  }

  lemma Pow32()
    ensures Pow2(32) == 0x1_0000_0000
  {
    assert Pow2(8) == 0x100;
    PowAdd(8, 8);
    PowAdd(16, 16);
  }

  lemma DrawsAdd(seed: Word, n: nat)
    ensures StateAfter(StateAfter(seed, n), 1) == StateAfter(seed, n + 1)
    ensures Output(StateAfter(seed, n), 0) == Output(seed, n)
  {
  }
}
