/**
  The cipher context of crypto/anubis.c: key setup, and encryption and
  decryption of 16-byte blocks, against the specification in Anubis.
*/
module AnubisCipher {
  import opened AnubisTables
  import opened Anubis

  const MAX_ROUNDS := 18

  // -------------------------------------------------- bytes, big end first

  function Be32(b: seq<bv8>, i: nat): bv32
    requires 4 * i + 3 < |b|
  {
    Word(b[4 * i], b[4 * i + 1], b[4 * i + 2], b[4 * i + 3])
  }

  function Load(b: seq<bv8>): Words
    requires |b| == 16
  {
    Words(Be32(b, 0), Be32(b, 1), Be32(b, 2), Be32(b, 3))
  }

  function Bytes(w: bv32): (b: seq<bv8>)
    ensures |b| == 4
  {
    [B0(w), B1(w), B2(w), B3(w)]
  }

  function Store(w: Words): (b: seq<bv8>)
    ensures |b| == 16
  {
    Bytes(w.w0) + Bytes(w.w1) + Bytes(w.w2) + Bytes(w.w3)
  }

  lemma BytesOf(b: seq<bv8>, i: nat)
    requires 4 * i + 3 < |b|
    ensures Bytes(Be32(b, i)) == b[4 * i..4 * i + 4]
  {
    hide Word, B0, B1, B2, B3;
    BytesOfWord(b[4 * i], b[4 * i + 1], b[4 * i + 2], b[4 * i + 3]);
  }

  lemma StoreLoad(b: seq<bv8>)
    requires |b| == 16
    ensures Store(Load(b)) == b
  {
    hide Bytes, Be32;
    BytesOf(b, 0);
    BytesOf(b, 1);
    BytesOf(b, 2);
    BytesOf(b, 3);
  }

  lemma LoadStore(w: Words)
    ensures Load(Store(w)) == w
  {
    hide Word, B0, B1, B2, B3;
    WordOfBytes(w.w0);
    WordOfBytes(w.w1);
    WordOfBytes(w.w2);
    WordOfBytes(w.w3);
  }

  /** A block is read big end first; Store writes it back so (StoreLoad, LoadStore). */
  lemma LoadIs(b: seq<bv8>)
    requires |b| == 16
    ensures Load(b).w0 == ((b[0] as bv32) << 24) | ((b[1] as bv32) << 16) | ((b[2] as bv32) << 8) | (b[3] as bv32)
    ensures Load(b).w1 == ((b[4] as bv32) << 24) | ((b[5] as bv32) << 16) | ((b[6] as bv32) << 8) | (b[7] as bv32)
    ensures Load(b).w2 == ((b[8] as bv32) << 24) | ((b[9] as bv32) << 16) | ((b[10] as bv32) << 8) | (b[11] as bv32)
    ensures Load(b).w3 == ((b[12] as bv32) << 24) | ((b[13] as bv32) << 16) | ((b[14] as bv32) << 8) | (b[15] as bv32)
  {}

  /** anubis_crypt on the bytes of a block. */
  function CryptBytes(keys: seq<Words>, src: seq<bv8>): (dst: seq<bv8>)
    requires |keys| >= 2 && |src| == 16
    ensures |dst| == 16
  {
    Store(Crypt(keys, Load(src)))
  }

  /** Each schedule undoes the other on every 16-byte block. */
  lemma BytesRoundTrip(e: seq<Words>, src: seq<bv8>)
    requires |e| >= 2 && |src| == 16
    ensures CryptBytes(Inverse(e), CryptBytes(e, src)) == src
    ensures CryptBytes(e, CryptBytes(Inverse(e), src)) == src
  {
    hide Crypt, Inverse, Load, Store;
    LoadStore(Crypt(e, Load(src)));
    RoundTrip(e, Load(src));
    LoadStore(Crypt(Inverse(e), Load(src)));
    RoundTripBack(e, Load(src));
    StoreLoad(src);
  }

  // -------------------------------------------------------- the key schedule

  predicate KeyLength(n: nat) { n in {16, 20, 24, 28, 32, 36, 40} }

  function Byte(w: bv32, col: nat): bv8
    requires col < 4
  {
    if col == 0 then B0(w) else if col == 1 then B1(w) else if col == 2 then B2(w) else B3(w)
  }

  function Spread(k: bv32): bv32 {
    X(X(X(T5(B0(k)) & 0xff000000, T5(B1(k)) & 0x00ff0000), T5(B2(k)) & 0x0000ff00), T5(B3(k)) & 0x000000ff)
  }

  lemma SpreadMask(a: bv32, b: bv32, c: bv32, d: bv32)
    ensures X(X(X(a & 0xff000000, b & 0x00ff0000), c & 0x0000ff00), d & 0x000000ff) == Word(B0(a), B1(b), B2(c), B3(d))
  {}

  /** Each byte is multiplied by its own element of the key selection. */
  lemma SpreadIs(k: bv32)
    ensures Spread(k) == Word(B0(k), Mul2(B1(k)), Mul6(B2(k)), Mul8(B3(k)))
  {
    hide T5, Word, B0, B1, B2, B3, X, Mul2, Mul6, Mul8;
    SpreadMask(T5(B0(k)), T5(B1(k)), T5(B2(k)), T5(B3(k)));
    T5Multiplies(B0(k));
    T5Multiplies(B1(k));
    T5Multiplies(B2(k));
    T5Multiplies(B3(k));
    BytesOfWord(B0(k), Mul2(B0(k)), Mul6(B0(k)), Mul8(B0(k)));
    BytesOfWord(B1(k), Mul2(B1(k)), Mul6(B1(k)), Mul8(B1(k)));
    BytesOfWord(B2(k), Mul2(B2(k)), Mul6(B2(k)), Mul8(B2(k)));
    BytesOfWord(B3(k), Mul2(B3(k)), Mul6(B3(k)), Mul8(B3(k)));
  }

  /** The key word of one byte column, folded in from the last word of kappa down to word i. */
  function Column(kappa: seq<bv32>, col: nat, i: nat): bv32
    requires i < |kappa| && col < 4
    decreases |kappa| - i
  {
    var t := T4(Byte(kappa[i], col));
    if i == |kappa| - 1 then t else X(t, Spread(Column(kappa, col, i + 1)))
  }

  function RoundKeyFrom(kappa: seq<bv32>, i: nat): Words
    requires i < |kappa|
  {
    Words(Column(kappa, 0, i), Column(kappa, 1, i), Column(kappa, 2, i), Column(kappa, 3, i))
  }

  function Plus(a: bv8, b: bv8): bv8 { a ^ b }

  lemma WordPlus(a: bv8, b: bv8, c: bv8, d: bv8, e: bv8, f: bv8, g: bv8, h: bv8)
    ensures Word(Plus(a, e), Plus(b, f), Plus(c, g), Plus(d, h)) == X(Word(a, b, c, d), Word(e, f, g, h))
  {}

  function Times(row: nat, x: bv8): bv8
    requires row < 4
  {
    if row == 0 then x else if row == 1 then Mul2(x) else if row == 2 then Mul6(x) else Mul8(x)
  }

  /** The substituted bytes of a column from word i on, as a polynomial in the row's element of the key selection. */
  function Selected(kappa: seq<bv32>, col: nat, row: nat, i: nat): bv8
    requires i < |kappa| && col < 4 && row < 4
    decreases |kappa| - i
  {
    var b := Sbox(Byte(kappa[i], col));
    if i == |kappa| - 1 then b else Plus(b, Times(row, Selected(kappa, col, row, i + 1)))
  }

  /** One fold: the substituted byte into every row, over the multiples of the rows so far. */
  lemma FoldIs(b: bv8, a0: bv8, a1: bv8, a2: bv8, a3: bv8)
    ensures X(T4(b), Spread(Word(a0, a1, a2, a3))) ==
            Word(Plus(Sbox(b), a0), Plus(Sbox(b), Mul2(a1)), Plus(Sbox(b), Mul6(a2)), Plus(Sbox(b), Mul8(a3)))
  {
    hide T4, Spread, Word, Sbox, B0, B1, B2, B3, X, Mul2, Mul6, Mul8, Plus;
    T4Spreads(b);
    SpreadIs(Word(a0, a1, a2, a3));
    BytesOfWord(a0, a1, a2, a3);
    WordPlus(Sbox(b), Sbox(b), Sbox(b), Sbox(b), a0, Mul2(a1), Mul6(a2), Mul8(a3));
  }

  /** The key word of a column holds the four polynomials of the key selection. */
  lemma {:induction false} ColumnSelects(kappa: seq<bv32>, col: nat, i: nat)
    requires i < |kappa| && col < 4
    ensures Column(kappa, col, i) ==
            Word(Selected(kappa, col, 0, i), Selected(kappa, col, 1, i), Selected(kappa, col, 2, i), Selected(kappa, col, 3, i))
    decreases |kappa| - i
  {
    hide T4, Spread, Word, Sbox, Byte, X, Mul2, Mul6, Mul8, Plus;
    var b := Byte(kappa[i], col);
    if i == |kappa| - 1 {
      T4Spreads(b);
    } else {
      ColumnSelects(kappa, col, i + 1);
      FoldIs(b, Selected(kappa, col, 0, i + 1), Selected(kappa, col, 1, i + 1),
        Selected(kappa, col, 2, i + 1), Selected(kappa, col, 3, i + 1));
    }
  }

  /** A round key: column after column of the key state, in the four polynomials of the key selection. */
  lemma RoundKeyIs(kappa: seq<bv32>, i: nat)
    requires i < |kappa|
    ensures var k := RoundKeyFrom(kappa, i);
            && k.w0 == Word(Selected(kappa, 0, 0, i), Selected(kappa, 0, 1, i), Selected(kappa, 0, 2, i), Selected(kappa, 0, 3, i))
            && k.w1 == Word(Selected(kappa, 1, 0, i), Selected(kappa, 1, 1, i), Selected(kappa, 1, 2, i), Selected(kappa, 1, 3, i))
            && k.w2 == Word(Selected(kappa, 2, 0, i), Selected(kappa, 2, 1, i), Selected(kappa, 2, 2, i), Selected(kappa, 2, 3, i))
            && k.w3 == Word(Selected(kappa, 3, 0, i), Selected(kappa, 3, 1, i), Selected(kappa, 3, 2, i), Selected(kappa, 3, 3, i))
  {
    hide Column, Selected, Word;
    ColumnSelects(kappa, 0, i);
    ColumnSelects(kappa, 1, i);
    ColumnSelects(kappa, 2, i);
    ColumnSelects(kappa, 3, i);
  }

  /** The index `steps` places before i, wrapping at the front. */
  function Back(i: nat, steps: nat, n: nat): (j: nat)
    requires i < n && steps < n
    ensures j < n
  {
    if i >= steps then i - steps else i - steps + n
  }

  function EvolvedWord(kappa: seq<bv32>, i: nat): bv32
    requires i < |kappa| && |kappa| >= 4
  {
    var n := |kappa|;
    Lookup(B0(kappa[i]), B1(kappa[Back(i, 1, n)]), B2(kappa[Back(i, 2, n)]), B3(kappa[Back(i, 3, n)]))
  }

  /** The next key state. */
  function Evolve(kappa: seq<bv32>, rc: bv32): (k: seq<bv32>)
    requires |kappa| >= 4
    ensures |k| == |kappa|
  {
    seq(|kappa|, i requires 0 <= i < |kappa| =>
      if i == 0 then X(EvolvedWord(kappa, 0), rc) else EvolvedWord(kappa, i))
  }

  function Initial(key: seq<bv8>): (k: seq<bv32>)
    requires KeyLength(|key|)
    ensures |k| == |key| / 4
  {
    seq(|key| / 4, i requires 0 <= i < |key| / 4 => Be32(key, i))
  }

  /** The key state before round key r is read off. */
  function Kappa(key: seq<bv8>, r: nat): (k: seq<bv32>)
    requires KeyLength(|key|) && r <= |RC|
    ensures |k| == |key| / 4
  {
    if r == 0 then Initial(key) else Evolve(Kappa(key, r - 1), RC[r - 1])
  }

  function RoundKey(key: seq<bv8>, r: nat): Words
    requires KeyLength(|key|) && r <= |RC|
  {
    RoundKeyFrom(Kappa(key, r), 0)
  }

  /** The round keys for encryption: 9 more than the key has words. */
  function Schedule(key: seq<bv8>): (e: seq<Words>)
    requires KeyLength(|key|)
    ensures |e| == 9 + |key| / 4
  {
    seq(9 + |key| / 4, r requires 0 <= r < 9 + |key| / 4 => RoundKey(key, r))
  }

  lemma BackIs(i: nat, steps: nat, n: nat)
    requires i < n && steps < n
    ensures Back(i, steps, n) == (i + n - steps) % n
  {}

  lemma XZero(w: bv32)
    ensures X(w, 0) == w
  {}

  /** The bytes gathered for word i: one each from it and the three words before it, the first word following the last. */
  function Gathered(kappa: seq<bv32>, i: nat): bv32
    requires i < |kappa| && |kappa| >= 4
  {
    var n := |kappa|;
    Word(Sbox(B0(kappa[i])), Sbox(B1(kappa[(i + n - 1) % n])), Sbox(B2(kappa[(i + n - 2) % n])), Sbox(B3(kappa[(i + n - 3) % n])))
  }

  lemma EvolvedWordIs(kappa: seq<bv32>, i: nat)
    requires i < |kappa| && |kappa| >= 4
    ensures EvolvedWord(kappa, i) == Diffuse(Gathered(kappa, i))
  {
    hide Lookup, Diffuse, Word, Sbox, B0, B1, B2, B3, Back;
    var n := |kappa|;
    BackIs(i, 1, n);
    BackIs(i, 2, n);
    BackIs(i, 3, n);
    LookupIs(B0(kappa[i]), B1(kappa[Back(i, 1, n)]), B2(kappa[Back(i, 2, n)]), B3(kappa[Back(i, 3, n)]));
  }

  /** The key evolution in layers: gather and substitute, diffuse, and add the round constant to the first word. */
  lemma EvolveIs(kappa: seq<bv32>, rc: bv32, i: nat)
    requires |kappa| >= 4 && i < |kappa|
    ensures Evolve(kappa, rc)[i] == X(Diffuse(Gathered(kappa, i)), if i == 0 then rc else 0)
  {
    hide Diffuse, Gathered, X, EvolvedWord;
    EvolvedWordIs(kappa, i);
    XZero(EvolvedWord(kappa, i));
  }

  lemma LookupInjective(a: bv8, b: bv8, c: bv8, d: bv8, e: bv8, f: bv8, g: bv8, h: bv8)
    requires Lookup(a, b, c, d) == Lookup(e, f, g, h)
    ensures a == e && b == f && c == g && d == h
  {
    hide Lookup, Diffuse, Sbox, Word, B0, B1, B2, B3;
    LookupIs(a, b, c, d);
    LookupIs(e, f, g, h);
    DiffuseInvolution(Word(Sbox(a), Sbox(b), Sbox(c), Sbox(d)));
    DiffuseInvolution(Word(Sbox(e), Sbox(f), Sbox(g), Sbox(h)));
    BytesOfWord(Sbox(a), Sbox(b), Sbox(c), Sbox(d));
    BytesOfWord(Sbox(e), Sbox(f), Sbox(g), Sbox(h));
    SboxInvolution(a);
    SboxInvolution(b);
    SboxInvolution(c);
    SboxInvolution(d);
    SboxInvolution(e);
    SboxInvolution(f);
    SboxInvolution(g);
    SboxInvolution(h);
  }

  lemma EvolvedWordsEqual(k: seq<bv32>, m: seq<bv32>, rc: bv32, i: nat)
    requires 4 <= |k| == |m| && i < |k|
    requires Evolve(k, rc) == Evolve(m, rc)
    ensures EvolvedWord(k, i) == EvolvedWord(m, i)
  {
    hide EvolvedWord, X;
    assert Evolve(k, rc)[i] == Evolve(m, rc)[i];
    Cancel(EvolvedWord(k, 0), rc);
    Cancel(EvolvedWord(m, 0), rc);
  }

  /** Where byte `col` of word i goes. */
  function Ahead(i: nat, col: nat, n: nat): (j: nat)
    requires i < n && col < n
    ensures j < n && Back(j, col, n) == i
  {
    if i + col < n then i + col else i + col - n
  }

  /** The key state loses nothing: every byte of a word reappears in a later one. */
  lemma EvolveInjective(k: seq<bv32>, m: seq<bv32>, rc: bv32)
    requires 4 <= |k| == |m|
    requires Evolve(k, rc) == Evolve(m, rc)
    ensures k == m
  {
    var n := |k|;
    forall i | 0 <= i < n ensures k[i] == m[i] {
      hide Evolve, Lookup, B0, B1, B2, B3, Word, Back;
      forall j | 0 <= j < n
        ensures B0(k[j]) == B0(m[j]) && B1(k[Back(j, 1, n)]) == B1(m[Back(j, 1, n)])
        ensures B2(k[Back(j, 2, n)]) == B2(m[Back(j, 2, n)]) && B3(k[Back(j, 3, n)]) == B3(m[Back(j, 3, n)])
      {
        EvolvedWordsEqual(k, m, rc, j);
        LookupInjective(B0(k[j]), B1(k[Back(j, 1, n)]), B2(k[Back(j, 2, n)]), B3(k[Back(j, 3, n)]),
                        B0(m[j]), B1(m[Back(j, 1, n)]), B2(m[Back(j, 2, n)]), B3(m[Back(j, 3, n)]));
      }
      assert Back(Ahead(i, 1, n), 1, n) == Back(Ahead(i, 2, n), 2, n) == Back(Ahead(i, 3, n), 3, n) == i;
      WordOfBytes(k[i]);
      WordOfBytes(m[i]);
    }
  }

  /** Two keys of one length that ever share a key state are the same key. */
  lemma {:induction false} KappaInjective(key: seq<bv8>, other: seq<bv8>, r: nat)
    requires KeyLength(|key|) && |key| == |other| && r <= |RC|
    requires Kappa(key, r) == Kappa(other, r)
    ensures key == other
  {
    hide Evolve;
    if r == 0 {
      forall i | 0 <= i < |key| ensures key[i] == other[i] {
        hide Be32;
        var j := i / 4;
        assert Initial(key)[j] == Initial(other)[j];
        BytesOf(key, j);
        BytesOf(other, j);
        assert key[i] == key[4 * j..4 * j + 4][i - 4 * j];
        assert other[i] == other[4 * j..4 * j + 4][i - 4 * j];
      }
    } else {
      EvolveInjective(Kappa(key, r - 1), Kappa(other, r - 1), RC[r - 1]);
      KappaInjective(key, other, r - 1);
    }
  }

  lemma KappaSteps(key: seq<bv8>, r: nat)
    requires KeyLength(|key|) && r < |RC|
    ensures Kappa(key, 0) == Initial(key) && Kappa(key, r + 1) == Evolve(Kappa(key, r), RC[r])
  {
    hide Evolve, Initial;
  }

  /** 4 * r, as a byte. */
  function Quad(r: nat): bv8 { if r == 0 then 0 else Quad(r - 1) + 4 }

  lemma Quads()
    ensures Quad(0) == 0x00 && Quad(1) == 0x04 && Quad(2) == 0x08 && Quad(3) == 0x0c && Quad(4) == 0x10 && Quad(5) == 0x14 && Quad(6) == 0x18
    ensures Quad(7) == 0x1c && Quad(8) == 0x20 && Quad(9) == 0x24 && Quad(10) == 0x28 && Quad(11) == 0x2c && Quad(12) == 0x30
    ensures Quad(13) == 0x34 && Quad(14) == 0x38 && Quad(15) == 0x3c && Quad(16) == 0x40 && Quad(17) == 0x44 && Quad(18) == 0x48
  {
    assert Quad(0) == 0x00 && Quad(1) == 0x04 && Quad(2) == 0x08 && Quad(3) == 0x0c && Quad(4) == 0x10;
    assert Quad(5) == 0x14 && Quad(6) == 0x18 && Quad(7) == 0x1c && Quad(8) == 0x20 && Quad(9) == 0x24;
    assert Quad(10) == 0x28 && Quad(11) == 0x2c && Quad(12) == 0x30 && Quad(13) == 0x34 && Quad(14) == 0x38;
    assert Quad(15) == 0x3c && Quad(16) == 0x40 && Quad(17) == 0x44 && Quad(18) == 0x48;
  }

  lemma ConstantIs(r: nat)
    requires r < |RC|
    ensures RC[r] == Box4(Quad(r))
  {
    RoundConstants();
    Quads();
    hide Box4, Quad;
    match r
    case 0 =>
    case 1 =>
    case 2 =>
    case 3 =>
    case 4 =>
    case 5 =>
    case 6 =>
    case 7 =>
    case 8 =>
    case 9 =>
    case 10 =>
    case 11 =>
    case 12 =>
    case 13 =>
    case 14 =>
    case 15 =>
    case 16 =>
    case 17 =>
    case _ => assert r == 18;
  }

  /** The key state from the key: its words, big end first, evolved with four more entries of the substitution box each round. */
  lemma KeyStateIs(key: seq<bv8>, r: nat, i: nat)
    requires KeyLength(|key|) && r < |RC| && i < |key| / 4
    ensures Kappa(key, 0)[i] ==
            ((key[4 * i] as bv32) << 24) | ((key[4 * i + 1] as bv32) << 16) | ((key[4 * i + 2] as bv32) << 8) | (key[4 * i + 3] as bv32)
    ensures Kappa(key, r + 1)[i] == X(Diffuse(Gathered(Kappa(key, r), i)), if i == 0 then Box4(Quad(r)) else 0)
  {
    hide Evolve, Diffuse, Gathered, X, Box4;
    KappaSteps(key, r);
    ConstantIs(r);
    EvolveIs(Kappa(key, r), RC[r], i);
  }

  lemma KeyRounds(n: nat)
    requires KeyLength(n)
    ensures 4 <= n / 4 && 8 + n / 4 <= MAX_ROUNDS <= |RC|
  {}

  lemma ScheduleIs(key: seq<bv8>, e: seq<Words>)
    requires KeyLength(|key|) && |e| == 9 + |key| / 4
    requires forall m :: 0 <= m < |e| ==> e[m] == RoundKey(key, m)
    ensures e == Schedule(key)
  {
    hide RoundKey;
  }

  // ------------------------------------------------------------- the context

  method ReadRoundKey(kappa: array<bv32>) returns (k: Words)
    requires kappa.Length > 0
    ensures k == RoundKeyFrom(kappa[..], 0)
  {
    hide T4, T5, B0, B1, B2, B3, X, Spread;
    var n := kappa.Length;
    var last := kappa[n - 1];
    k := Words(T4(B0(last)), T4(B1(last)), T4(B2(last)), T4(B3(last)));
    var i := n - 1;
    while i > 0
      invariant 0 <= i < n
      invariant k == RoundKeyFrom(kappa[..], i)
    {
      i := i - 1;
      var w := kappa[i];
      k := Words(X(T4(B0(w)), Spread(k.w0)), X(T4(B1(w)), Spread(k.w1)),
                 X(T4(B2(w)), Spread(k.w2)), X(T4(B3(w)), Spread(k.w3)));
    }
  }

  method LoadKey(key: seq<bv8>) returns (kappa: array<bv32>)
    requires KeyLength(|key|)
    ensures fresh(kappa) && kappa[..] == Initial(key)
  {
    hide Be32;
    var n := |key| / 4;
    kappa := new bv32[n];
    for i := 0 to n
      invariant forall m :: 0 <= m < i ==> kappa[m] == Be32(key, m)
    {
      kappa[i] := Be32(key, i);
    }
  }

  method MixWord(kappa: array<bv32>, i: nat) returns (w: bv32)
    requires i < kappa.Length && kappa.Length >= 4
    ensures w == EvolvedWord(kappa[..], i)
  {
    hide T0, T1, T2, T3, B0, B1, B2, B3, X;
    var j := i;
    w := T0(B0(kappa[j]));
    j := if j == 0 then kappa.Length - 1 else j - 1;
    w := X(w, T1(B1(kappa[j])));
    j := if j == 0 then kappa.Length - 1 else j - 1;
    w := X(w, T2(B2(kappa[j])));
    j := if j == 0 then kappa.Length - 1 else j - 1;
    w := X(w, T3(B3(kappa[j])));
  }

  method EvolveKey(kappa: array<bv32>, rc: bv32)
    requires kappa.Length >= 4
    modifies kappa
    ensures kappa[..] == Evolve(old(kappa[..]), rc)
  {
    hide EvolvedWord, X;
    var n := kappa.Length;
    ghost var was := kappa[..];
    var inter := new bv32[n];
    for i := 0 to n
      invariant kappa[..] == was
      invariant forall m :: 0 <= m < i ==> inter[m] == EvolvedWord(was, m)
    {
      var w := MixWord(kappa, i);
      inter[i] := w;
    }
    kappa[0] := X(inter[0], rc);
    for i := 1 to n
      invariant kappa[0] == X(EvolvedWord(was, 0), rc)
      invariant forall m :: 0 <= m < n ==> inter[m] == EvolvedWord(was, m)
      invariant forall m :: 1 <= m < i ==> kappa[m] == EvolvedWord(was, m)
    {
      kappa[i] := inter[i];
    }
  }

  method NextKappa(kappa: array<bv32>, ghost key: seq<bv8>, r: nat)
    requires KeyLength(|key|) && r < |RC| && kappa[..] == Kappa(key, r)
    modifies kappa
    ensures kappa[..] == Kappa(key, r + 1)
  {
    hide Evolve, Initial, Kappa;
    KappaSteps(key, r);
    EvolveKey(kappa, RC[r]);
  }

  class Context {
    var rounds: nat
    var badKeyLength: bool
    const enc: array<Words>
    const dec: array<Words>

    ghost predicate Valid() reads this {
      enc.Length == dec.Length == MAX_ROUNDS + 1 && enc != dec
    }

    /** A key has been set: the decryption keys are derived from the encryption keys. */
    ghost predicate Keyed() reads this, enc, dec {
      && Valid()
      && 1 <= rounds <= MAX_ROUNDS
      && dec[..rounds + 1] == Inverse(enc[..rounds + 1])
    }

    constructor ()
      ensures Valid() && fresh(enc) && fresh(dec)
    {
      rounds, badKeyLength := 0, false;
      enc, dec := new Words[MAX_ROUNDS + 1], new Words[MAX_ROUNDS + 1];
    }

    method ExpandKey(key: seq<bv8>)
      requires Valid() && KeyLength(|key|) && rounds == 8 + |key| / 4
      modifies enc
      ensures enc[..rounds + 1] == Schedule(key)
    {
      hide Evolve, RoundKeyFrom, Initial, Kappa, Schedule, KeyLength;
      KeyRounds(|key|);
      var kappa := LoadKey(key);
      KappaSteps(key, 0);
      for r := 0 to rounds + 1
        invariant r <= rounds ==> kappa[..] == Kappa(key, r)
        invariant forall m :: 0 <= m < r ==> enc[m] == RoundKey(key, m)
      {
        var k := ReadRoundKey(kappa);
        enc[r] := k;
        if r < rounds {
          NextKappa(kappa, key, r);
        }
      }
      hide RoundKey;
      ScheduleIs(key, enc[..rounds + 1]);
    }

    method InvertKeys()
      requires Valid() && 1 <= rounds <= MAX_ROUNDS
      modifies dec
      ensures Keyed()
    {
      hide Thetas;
      dec[0] := enc[rounds];
      dec[rounds] := enc[0];
      for r := 1 to rounds
        invariant dec[0] == enc[rounds] && dec[rounds] == enc[0]
        invariant forall m :: 1 <= m < r ==> dec[m] == Thetas(enc[rounds - m])
      {
        dec[r] := Thetas(enc[rounds - r]);
      }
    }

    /** anubis_setkey. A key of any other length is refused and changes nothing but the flag. */
    method SetKey(key: seq<bv8>) returns (ok: bool)
      requires Valid()
      modifies this, enc, dec
      ensures Valid()
      ensures ok <==> |key| in {16, 20, 24, 28, 32, 36, 40}
      ensures !ok ==> badKeyLength && rounds == old(rounds) && enc[..] == old(enc[..]) && dec[..] == old(dec[..])
      ensures ok ==> Keyed() && rounds == 8 + |key| / 4 && enc[..rounds + 1] == Schedule(key)
    {
      hide Schedule, Inverse;
      ok := KeyLength(|key|);
      if !ok {
        badKeyLength := true;
        return;
      }
      rounds := 8 + |key| / 4;
      ExpandKey(key);
      InvertKeys();
    }

    method CryptBlock(keys: array<Words>, src: seq<bv8>) returns (dst: seq<bv8>)
      requires 1 <= rounds < keys.Length && |src| == 16
      ensures dst == CryptBytes(keys[..rounds + 1], src)
    {
      hide Round, LastRound, Load, Store, AddKey;
      ghost var ks := keys[..rounds + 1];
      var state := AddKey(Load(src), keys[0]);
      for r := 1 to rounds
        invariant state == Rounds(ks, Load(src), r - 1)
      {
        state := Round(state, keys[r]);
      }
      dst := Store(LastRound(state, keys[rounds]));
    }

    /** anubis_encrypt: the block comes back under the decryption keys. */
    method Encrypt(src: seq<bv8>) returns (dst: seq<bv8>)
      requires Keyed() && |src| == 16
      ensures dst == CryptBytes(enc[..rounds + 1], src)
      ensures CryptBytes(dec[..rounds + 1], dst) == src
    {
      hide CryptBytes, Inverse;
      dst := CryptBlock(enc, src);
      BytesRoundTrip(enc[..rounds + 1], src);
    }

    /** anubis_decrypt: the block comes back under the encryption keys. */
    method Decrypt(src: seq<bv8>) returns (dst: seq<bv8>)
      requires Keyed() && |src| == 16
      ensures dst == CryptBytes(dec[..rounds + 1], src)
      ensures CryptBytes(enc[..rounds + 1], dst) == src
    {
      hide CryptBytes, Inverse;
      dst := CryptBlock(dec, src);
      BytesRoundTrip(enc[..rounds + 1], src);
    }
  }
}
