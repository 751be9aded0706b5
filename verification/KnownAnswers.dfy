/** The first outputs for two seeds, as published for SplitMix64: they fix every shift and multiplier. */
module KnownAnswers {
  import opened Bits
  import opened SplitMix

  // ----- Bytes as machine bytes -----

  function Half8(u: bv8): bv8 { u >> 1 }

  predicate Low8(u: bv8) { u & 1 == 1 }

  function Xor8(u: bv8, v: bv8): bv8 { u ^ v }

  function Nat8(u: bv8): nat { u as nat }

  lemma HalfOf8(u: bv8)
    ensures Nat8(u) == 2 * Nat8(Half8(u)) + if Low8(u) then 1 else 0
    ensures Nat8(u) < 256 && (Nat8(u) == 0 ==> u == 0)
  {
    assert u as nat == 2 * ((u >> 1) as nat) + (u & 1) as nat;
    assert u & 1 == 0 || u & 1 == 1;
  }

  lemma XorParts8(u: bv8, v: bv8)
    ensures Half8(Xor8(u, v)) == Xor8(Half8(u), Half8(v)) && Low8(Xor8(u, v)) == (Low8(u) != Low8(v))
    ensures Xor8(0, 0) == 0 && Nat8(0) == 0
  {
  }

  lemma XorBit(a: nat, b: nat, x: nat, y: nat)
    requires x < 2 && y < 2
    ensures Xor(2 * a + x, 2 * b + y) == 2 * Xor(a, b) + if x == y then 0 else 1
  {
    LastBit(a, x);
    LastBit(b, y);
    XorHalves(2 * a + x, 2 * b + y);
    hide Xor;
  }

  lemma LastBit(a: nat, x: nat)
    requires x < 2
    ensures (2 * a + x) / 2 == a && (2 * a + x) % 2 == x
  {
  }

  lemma XorHalves(i: nat, j: nat)
    ensures Xor(i, j) == 2 * Xor(i / 2, j / 2) + if i % 2 == j % 2 then 0 else 1
  {
    Parity(i, j);
    if i == 0 && j == 0 {
      assert Xor(0, 0) == 0;
    } else {
      assert Xor(i, j) == 2 * Xor(i / 2, j / 2) + (i + j) % 2;
    }
  }

  lemma Parity(i: nat, j: nat)
    ensures (i + j) % 2 == if i % 2 == j % 2 then 0 else 1
  {
  }

  lemma XorStep(a: nat, b: nat, c: nat, a1: nat, b1: nat, x: bool, y: bool)
    requires a == 2 * a1 + (if x then 1 else 0) && b == 2 * b1 + (if y then 1 else 0)
    requires c == 2 * Xor(a1, b1) + if x == y then 0 else 1
    ensures Xor(a, b) == c
  {
    hide Xor;
    XorBit(a1, b1, if x then 1 else 0, if y then 1 else 0);
  }

  lemma {:induction false} XorIsXor8(u: bv8, v: bv8)
    ensures Xor(Nat8(u), Nat8(v)) == Nat8(Xor8(u, v))
    decreases Nat8(u) + Nat8(v)
  {
    assert Xor(0, 0) == 0;
    hide Nat8, Half8, Low8, Xor8, Xor;
    HalfOf8(u);
    HalfOf8(v);
    XorParts8(u, v);
    if Nat8(u) + Nat8(v) > 0 {
      var w := Xor8(u, v);
      XorIsXor8(Half8(u), Half8(v));
      HalfOf8(w);
      XorStep(Nat8(u), Nat8(v), Nat8(w), Nat8(Half8(u)), Nat8(Half8(v)), Low8(u), Low8(v));
    }
  }

  // ----- Words as eight bytes -----

  /** `a` shifted left, a product named so that proofs can treat it as a unit. */
  function Shl(a: nat, k: nat): nat { Pow2(k) * a }

  lemma ShlStep(a: nat, k: nat)
    requires k > 0
    ensures Shl(a, k) == 2 * Shl(a, k - 1)
  {
    assert Pow2(k) * a == 2 * (Pow2(k - 1) * a);
  }

  /** The high bits and the low `k` bits are combined apart. */
  lemma {:induction false} XorAppend(a: nat, b: nat, x: nat, y: nat, k: nat)
    requires x < Pow2(k) && y < Pow2(k)
    ensures Xor(Shl(a, k) + x, Shl(b, k) + y) == Shl(Xor(a, b), k) + Xor(x, y)
    decreases k
  {
    hide Xor, Shl, Pow2;
    if k == 0 {
      NothingAppended(a, b, x, y);
    } else {
      var x1, x0 := Halved(x, k);
      var y1, y0 := Halved(y, k);
      ShlStep(a, k);
      ShlStep(b, k);
      ShlStep(Xor(a, b), k);
      XorAppend(a, b, x1, y1, k - 1);
      XorBits(Shl(a, k - 1) + x1, Shl(b, k - 1) + y1, x1, y1, Shl(Xor(a, b), k - 1), x0, y0);
    }
  }

  lemma NothingAppended(a: nat, b: nat, x: nat, y: nat)
    requires x < Pow2(0) && y < Pow2(0)
    ensures Xor(Shl(a, 0) + x, Shl(b, 0) + y) == Shl(Xor(a, b), 0) + Xor(x, y)
  {
    assert Xor(0, 0) == 0;
  }

  /** One more bit at the end keeps the distance of two results. */
  lemma XorBits(i: nat, j: nat, x: nat, y: nat, d: nat, x0: nat, y0: nat)
    requires x0 < 2 && y0 < 2 && Xor(i, j) == d + Xor(x, y)
    ensures Xor(2 * i + x0, 2 * j + y0) == 2 * d + Xor(2 * x + x0, 2 * y + y0)
  {
    hide Xor;
    XorBit(i, j, x0, y0);
    XorBit(x, y, x0, y0);
  }

  lemma Halved(x: nat, k: nat) returns (high: nat, low: nat)
    requires k > 0 && x < Pow2(k)
    ensures x == 2 * high + low && low < 2 && high < Pow2(k - 1)
  {
    high, low := x / 2, x % 2;
  }

  function Append8(a: nat, u: bv8): nat { 256 * a + Nat8(u) }

  lemma XorAppend8(a: nat, b: nat, u: bv8, v: bv8)
    ensures Xor(Append8(a, u), Append8(b, v)) == Append8(Xor(a, b), Xor8(u, v))
  {
    hide Nat8, Xor8, Xor;
    assert Pow2(8) == 256;
    HalfOf8(u);
    HalfOf8(v);
    XorAppend(a, b, Nat8(u), Nat8(v), 8);
    XorIsXor8(u, v);
  }

  /** Most significant first. */
  datatype Octets = Octets(b7: bv8, b6: bv8, b5: bv8, b4: bv8, b3: bv8, b2: bv8, b1: bv8, b0: bv8) {
    function Value(): nat {
      0x100_0000_0000_0000 * Nat8(b7) + 0x1_0000_0000_0000 * Nat8(b6) + 0x100_0000_0000 * Nat8(b5)
      + 0x1_0000_0000 * Nat8(b4) + 0x100_0000 * Nat8(b3) + 0x1_0000 * Nat8(b2) + 0x100 * Nat8(b1) + Nat8(b0)
    }

    function Plus(o: Octets): Octets {
      Octets(Xor8(b7, o.b7), Xor8(b6, o.b6), Xor8(b5, o.b5), Xor8(b4, o.b4),
             Xor8(b3, o.b3), Xor8(b2, o.b2), Xor8(b1, o.b1), Xor8(b0, o.b0))
    }
  }

  /** Four bytes after what comes before them. */
  function Append32(a: nat, u3: bv8, u2: bv8, u1: bv8, u0: bv8): nat {
    Append8(Append8(Append8(Append8(a, u3), u2), u1), u0)
  }

  lemma ValueByByte(o: Octets)
    ensures o.Value() == Append32(Append32(0, o.b7, o.b6, o.b5, o.b4), o.b3, o.b2, o.b1, o.b0)
  {
    hide Nat8;
  }

  lemma XorAppend32(a: nat, b: nat, u3: bv8, u2: bv8, u1: bv8, u0: bv8, v3: bv8, v2: bv8, v1: bv8, v0: bv8)
    ensures Xor(Append32(a, u3, u2, u1, u0), Append32(b, v3, v2, v1, v0)) ==
            Append32(Xor(a, b), Xor8(u3, v3), Xor8(u2, v2), Xor8(u1, v1), Xor8(u0, v0))
  {
    hide Append8, Xor8, Xor;
    XorAppend8(a, b, u3, v3);
    var a3, b3 := Append8(a, u3), Append8(b, v3);
    XorAppend8(a3, b3, u2, v2);
    var a2, b2 := Append8(a3, u2), Append8(b3, v2);
    XorAppend8(a2, b2, u1, v1);
    XorAppend8(Append8(a2, u1), Append8(b2, v1), u0, v0);
  }

  lemma XorOctets(x: Octets, y: Octets)
    ensures Xor(x.Value(), y.Value()) == x.Plus(y).Value()
  {
    assert Xor(0, 0) == 0;
    hide Append32, Xor8, Xor, Octets.Value;
    ValueByByte(x);
    ValueByByte(y);
    ValueByByte(x.Plus(y));
    XorAppend32(0, 0, x.b7, x.b6, x.b5, x.b4, y.b7, y.b6, y.b5, y.b4);
    XorAppend32(Append32(0, x.b7, x.b6, x.b5, x.b4), Append32(0, y.b7, y.b6, y.b5, y.b4),
                x.b3, x.b2, x.b1, x.b0, y.b3, y.b2, y.b1, y.b0);
  }

  // ----- One output, byte by byte -----

  lemma Powers()
    ensures Pow2(30) == 0x4000_0000 && Pow2(27) == 0x800_0000 && Pow2(31) == 0x8000_0000
  {
    assert Pow2(3) == 8 && Pow2(7) == 128 && Pow2(8) == 256 && Pow2(6) == 64;
    PowAdd(8, 8);
    PowAdd(16, 8);
    PowAdd(24, 3);
    PowAdd(24, 6);
    PowAdd(24, 7);
  }

  /** `z` in bytes is `x`, and shifted right it is `y`. */
  lemma ShiftXored(z: Word, k: nat, p: nat, x: Octets, y: Octets)
    requires p == Pow2(k) && z == x.Value() && z / p == y.Value()
    ensures XorShift(z, k) == x.Plus(y).Value()
  {
    hide Xor, Shr, Octets.Value;
    ShrIsDiv(z, k);
    XorOctets(x, y);
  }

  /** The mixer, with each word and each shifted word given in bytes. */
  lemma MixIs(s: Word, x: Octets, x': Octets, y: Octets, y': Octets, z: Octets, z': Octets)
    requires s == x.Value() && x.Value() / 0x4000_0000 == x'.Value()
    requires y.Value() == x.Plus(x').Value() * 0xBF58_476D_1CE4_E5B9 % WORD && y.Value() / 0x800_0000 == y'.Value()
    requires z.Value() == y.Plus(y').Value() * 0x94D0_49BB_1331_11EB % WORD && z.Value() / 0x8000_0000 == z'.Value()
    ensures Mix(s) == z.Plus(z').Value()
  {
    hide XorShift, Octets.Value, Octets.Plus;
    Powers();
    ShiftXored(s, 30, 0x4000_0000, x, x');
    ShiftXored(y.Value(), 27, 0x800_0000, y, y');
    ShiftXored(z.Value(), 31, 0x8000_0000, z, z');
  }

  lemma Answer0At0()
    ensures Output(0, 0) == 0xE220_A839_7B1D_CDAF
  {
    hide Mix, StateAfter;
    StateIsLinear(0, 1);
    MixIs(0x9E37_79B9_7F4A_7C15,
          Octets(0x9E, 0x37, 0x79, 0xB9, 0x7F, 0x4A, 0x7C, 0x15), Octets(0x00, 0x00, 0x00, 0x02, 0x78, 0xDD, 0xE6, 0xE5),
          Octets(0x6F, 0x68, 0x26, 0x1B, 0x57, 0xE7, 0xA7, 0x70), Octets(0x00, 0x00, 0x00, 0x0D, 0xED, 0x04, 0xC3, 0x6A),
          Octets(0xE2, 0x20, 0xA8, 0x38, 0xBF, 0x5C, 0x9D, 0xDE), Octets(0x00, 0x00, 0x00, 0x01, 0xC4, 0x41, 0x50, 0x71));
  }

  lemma Answer0At1()
    ensures Output(0, 1) == 0x6E78_9E6A_A1B9_65F4
  {
    hide Mix, StateAfter;
    StateIsLinear(0, 2);
    MixIs(0x3C6E_F372_FE94_F82A,
          Octets(0x3C, 0x6E, 0xF3, 0x72, 0xFE, 0x94, 0xF8, 0x2A), Octets(0x00, 0x00, 0x00, 0x00, 0xF1, 0xBB, 0xCD, 0xCB),
          Octets(0x2A, 0x94, 0xFC, 0xBF, 0xCC, 0xB4, 0x34, 0x99), Octets(0x00, 0x00, 0x00, 0x05, 0x52, 0x9F, 0x97, 0xF9),
          Octets(0x6E, 0x78, 0x9E, 0x6A, 0x7D, 0x48, 0x59, 0x20), Octets(0x00, 0x00, 0x00, 0x00, 0xDC, 0xF1, 0x3C, 0xD4));
  }

  lemma Answer0At2()
    ensures Output(0, 2) == 0x06C4_5D18_8009_454F
  {
    hide Mix, StateAfter;
    StateIsLinear(0, 3);
    MixIs(0xDAA6_6D2C_7DDF_743F,
          Octets(0xDA, 0xA6, 0x6D, 0x2C, 0x7D, 0xDF, 0x74, 0x3F), Octets(0x00, 0x00, 0x00, 0x03, 0x6A, 0x99, 0xB4, 0xB1),
          Octets(0xF1, 0xC3, 0xDD, 0x63, 0x22, 0xD8, 0x2C, 0x9E), Octets(0x00, 0x00, 0x00, 0x1E, 0x38, 0x7B, 0xAC, 0x64),
          Octets(0x06, 0xC4, 0x5D, 0x18, 0x8D, 0x81, 0xFF, 0x7E), Octets(0x00, 0x00, 0x00, 0x00, 0x0D, 0x88, 0xBA, 0x31));
  }

  lemma Answer0At3()
    ensures Output(0, 3) == 0xF88B_B8A8_724C_81EC
  {
    hide Mix, StateAfter;
    StateIsLinear(0, 4);
    MixIs(0x78DD_E6E5_FD29_F054,
          Octets(0x78, 0xDD, 0xE6, 0xE5, 0xFD, 0x29, 0xF0, 0x54), Octets(0x00, 0x00, 0x00, 0x01, 0xE3, 0x77, 0x9B, 0x97),
          Octets(0x14, 0x82, 0x40, 0xEC, 0xB6, 0x4D, 0x4E, 0xEB), Octets(0x00, 0x00, 0x00, 0x02, 0x90, 0x48, 0x1D, 0x96),
          Octets(0xF8, 0x8B, 0xB8, 0xA9, 0x83, 0x5B, 0xF0, 0xBF), Octets(0x00, 0x00, 0x00, 0x01, 0xF1, 0x17, 0x71, 0x53));
  }

  lemma Answer0At4()
    ensures Output(0, 4) == 0x1B39_896A_51A8_749B
  {
    hide Mix, StateAfter;
    StateIsLinear(0, 5);
    MixIs(0x1715_609F_7C74_6C69,
          Octets(0x17, 0x15, 0x60, 0x9F, 0x7C, 0x74, 0x6C, 0x69), Octets(0x00, 0x00, 0x00, 0x00, 0x5C, 0x55, 0x82, 0x7D),
          Octets(0x1D, 0x77, 0x69, 0x82, 0xCC, 0x4C, 0xF0, 0x74), Octets(0x00, 0x00, 0x00, 0x03, 0xAE, 0xED, 0x30, 0x59),
          Octets(0x1B, 0x39, 0x89, 0x6A, 0x67, 0xDB, 0x66, 0x4F), Octets(0x00, 0x00, 0x00, 0x00, 0x36, 0x73, 0x12, 0xD4));
  }

  lemma Answer0At5()
    ensures Output(0, 5) == 0x53CB_9F0C_747E_A2EA
  {
    hide Mix, StateAfter;
    StateIsLinear(0, 6);
    MixIs(0xB54C_DA58_FBBE_E87E,
          Octets(0xB5, 0x4C, 0xDA, 0x58, 0xFB, 0xBE, 0xE8, 0x7E), Octets(0x00, 0x00, 0x00, 0x02, 0xD5, 0x33, 0x69, 0x63),
          Octets(0x2F, 0x4C, 0x6B, 0x4F, 0x62, 0x95, 0x3E, 0xF5), Octets(0x00, 0x00, 0x00, 0x05, 0xE9, 0x8D, 0x69, 0xEC),
          Octets(0x53, 0xCB, 0x9F, 0x0C, 0xD3, 0xE9, 0x9C, 0xF3), Octets(0x00, 0x00, 0x00, 0x00, 0xA7, 0x97, 0x3E, 0x19));
  }

  lemma Answer42At0()
    ensures Output(42, 0) == 0xBDD7_3226_2FEB_6E95
  {
    hide Mix, StateAfter;
    StateIsLinear(42, 1);
    MixIs(0x9E37_79B9_7F4A_7C3F,
          Octets(0x9E, 0x37, 0x79, 0xB9, 0x7F, 0x4A, 0x7C, 0x3F), Octets(0x00, 0x00, 0x00, 0x02, 0x78, 0xDD, 0xE6, 0xE5),
          Octets(0xFD, 0xD2, 0x02, 0xBA, 0xDC, 0x3B, 0xE9, 0x8A), Octets(0x00, 0x00, 0x00, 0x1F, 0xBA, 0x40, 0x57, 0x5B),
          Octets(0xBD, 0xD7, 0x32, 0x27, 0x54, 0x45, 0x0A, 0xDB), Octets(0x00, 0x00, 0x00, 0x01, 0x7B, 0xAE, 0x64, 0x4E));
  }

  lemma Answer42At1()
    ensures Output(42, 1) == 0x28EF_E333_B266_F103
  {
    hide Mix, StateAfter;
    StateIsLinear(42, 2);
    MixIs(0x3C6E_F372_FE94_F854,
          Octets(0x3C, 0x6E, 0xF3, 0x72, 0xFE, 0x94, 0xF8, 0x54), Octets(0x00, 0x00, 0x00, 0x00, 0xF1, 0xBB, 0xCD, 0xCB),
          Octets(0xD5, 0xD2, 0x92, 0x9E, 0x59, 0xB0, 0xFA, 0xE7), Octets(0x00, 0x00, 0x00, 0x1A, 0xBA, 0x52, 0x53, 0xCB),
          Octets(0x28, 0xEF, 0xE3, 0x33, 0xE3, 0xB9, 0x37, 0x64), Octets(0x00, 0x00, 0x00, 0x00, 0x51, 0xDF, 0xC6, 0x67));
  }

  lemma Answer42At2()
    ensures Output(42, 2) == 0x4752_6757_130F_9F52
  {
    hide Mix, StateAfter;
    StateIsLinear(42, 3);
    MixIs(0xDAA6_6D2C_7DDF_7469,
          Octets(0xDA, 0xA6, 0x6D, 0x2C, 0x7D, 0xDF, 0x74, 0x69), Octets(0x00, 0x00, 0x00, 0x03, 0x6A, 0x99, 0xB4, 0xB1),
          Octets(0x41, 0x48, 0x82, 0xED, 0x7D, 0x02, 0x94, 0x18), Octets(0x00, 0x00, 0x00, 0x08, 0x29, 0x10, 0x5D, 0xAF),
          Octets(0x47, 0x52, 0x67, 0x57, 0x9D, 0xAB, 0x51, 0xFD), Octets(0x00, 0x00, 0x00, 0x00, 0x8E, 0xA4, 0xCE, 0xAF));
  }

  lemma Answer42At3()
    ensures Output(42, 3) == 0x581C_E1FF_0E4A_E394
  {
    hide Mix, StateAfter;
    StateIsLinear(42, 4);
    MixIs(0x78DD_E6E5_FD29_F07E,
          Octets(0x78, 0xDD, 0xE6, 0xE5, 0xFD, 0x29, 0xF0, 0x7E), Octets(0x00, 0x00, 0x00, 0x01, 0xE3, 0x77, 0x9B, 0x97),
          Octets(0x7B, 0x9C, 0xDB, 0x1F, 0x00, 0x47, 0x68, 0x61), Octets(0x00, 0x00, 0x00, 0x0F, 0x73, 0x9B, 0x63, 0xE0),
          Octets(0x58, 0x1C, 0xE1, 0xFF, 0xBE, 0x73, 0x20, 0x6B), Octets(0x00, 0x00, 0x00, 0x00, 0xB0, 0x39, 0xC3, 0xFF));
  }

  lemma Answer42At4()
    ensures Output(42, 4) == 0x09BC_585A_2448_23F2
  {
    hide Mix, StateAfter;
    StateIsLinear(42, 5);
    MixIs(0x1715_609F_7C74_6C93,
          Octets(0x17, 0x15, 0x60, 0x9F, 0x7C, 0x74, 0x6C, 0x93), Octets(0x00, 0x00, 0x00, 0x00, 0x5C, 0x55, 0x82, 0x7D),
          Octets(0x0E, 0xA4, 0x3C, 0x6D, 0x67, 0x38, 0x8F, 0xFE), Octets(0x00, 0x00, 0x00, 0x01, 0xD4, 0x87, 0x8D, 0xAC),
          Octets(0x09, 0xBC, 0x58, 0x5A, 0x37, 0x30, 0x93, 0x46), Octets(0x00, 0x00, 0x00, 0x00, 0x13, 0x78, 0xB0, 0xB4));
  }

  lemma Answer42At5()
    ensures Output(42, 5) == 0xDE44_31FA_3C80_DB06
  {
    hide Mix, StateAfter;
    StateIsLinear(42, 6);
    MixIs(0xB54C_DA58_FBBE_E8A8,
          Octets(0xB5, 0x4C, 0xDA, 0x58, 0xFB, 0xBE, 0xE8, 0xA8), Octets(0x00, 0x00, 0x00, 0x02, 0xD5, 0x33, 0x69, 0x63),
          Octets(0x3D, 0x4C, 0xF7, 0x79, 0x06, 0x29, 0x62, 0xB3), Octets(0x00, 0x00, 0x00, 0x07, 0xA9, 0x9E, 0xEF, 0x20),
          Octets(0xDE, 0x44, 0x31, 0xFB, 0x80, 0x08, 0xB8, 0xF1), Octets(0x00, 0x00, 0x00, 0x01, 0xBC, 0x88, 0x63, 0xF7));
  }

  /** The known answers for seed 0. */
  lemma Seed0()
    ensures Output(0, 0) == 0xE220_A839_7B1D_CDAF
    ensures Output(0, 1) == 0x6E78_9E6A_A1B9_65F4
    ensures Output(0, 2) == 0x06C4_5D18_8009_454F
    ensures Output(0, 3) == 0xF88B_B8A8_724C_81EC
    ensures Output(0, 4) == 0x1B39_896A_51A8_749B
    ensures Output(0, 5) == 0x53CB_9F0C_747E_A2EA
  {
    hide Output;
    Answer0At0();
    Answer0At1();
    Answer0At2();
    Answer0At3();
    Answer0At4();
    Answer0At5();
  }

  /** The known answers for seed 42. */
  lemma Seed42()
    ensures Output(42, 0) == 0xBDD7_3226_2FEB_6E95
    ensures Output(42, 1) == 0x28EF_E333_B266_F103
    ensures Output(42, 2) == 0x4752_6757_130F_9F52
    ensures Output(42, 3) == 0x581C_E1FF_0E4A_E394
    ensures Output(42, 4) == 0x09BC_585A_2448_23F2
    ensures Output(42, 5) == 0xDE44_31FA_3C80_DB06
  {
    hide Output;
    Answer42At0();
    Answer42At1();
    Answer42At2();
    Answer42At3();
    Answer42At4();
    Answer42At5();
  }
}
