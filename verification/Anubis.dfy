/**
  The Anubis block cipher (crypto/anubis.c): one routine both encrypts and
  decrypts, the latter with an inverse key schedule derived from the former.
*/
module Anubis {
  import opened AnubisTables

  /** Four 32-bit words: a cipher state, a block or a round key. */
  datatype Words = Words(w0: bv32, w1: bv32, w2: bv32, w3: bv32)

  function X(a: bv32, b: bv32): bv32 { a ^ b }

  function AddKey(s: Words, k: Words): Words {
    Words(X(s.w0, k.w0), X(s.w1, k.w1), X(s.w2, k.w2), X(s.w3, k.w3))
  }

  function Lookup(a: bv8, b: bv8, c: bv8, d: bv8): bv32 { X(X(X(T0(a), T1(b)), T2(c)), T3(d)) }

  /** One full round of anubis_crypt. */
  function Round(s: Words, k: Words): Words {
    Words(
      X(Lookup(B0(s.w0), B0(s.w1), B0(s.w2), B0(s.w3)), k.w0),
      X(Lookup(B1(s.w0), B1(s.w1), B1(s.w2), B1(s.w3)), k.w1),
      X(Lookup(B2(s.w0), B2(s.w1), B2(s.w2), B2(s.w3)), k.w2),
      X(Lookup(B3(s.w0), B3(s.w1), B3(s.w2), B3(s.w3)), k.w3))
  }

  function LastLookup(a: bv8, b: bv8, c: bv8, d: bv8): bv32 {
    (T0(a) & 0xff000000) ^ (T1(b) & 0x00ff0000) ^ (T2(c) & 0x0000ff00) ^ (T3(d) & 0x000000ff)
  }

  /** The last round, which masks the diffusion out. */
  function LastRound(s: Words, k: Words): Words {
    Words(
      X(LastLookup(B0(s.w0), B0(s.w1), B0(s.w2), B0(s.w3)), k.w0),
      X(LastLookup(B1(s.w0), B1(s.w1), B1(s.w2), B1(s.w3)), k.w1),
      X(LastLookup(B2(s.w0), B2(s.w1), B2(s.w2), B2(s.w3)), k.w2),
      X(LastLookup(B3(s.w0), B3(s.w1), B3(s.w2), B3(s.w3)), k.w3))
  }

  /** The state after the key addition and r full rounds. */
  function Rounds(keys: seq<Words>, block: Words, r: nat): Words
    requires r < |keys|
  {
    if r == 0 then AddKey(block, keys[0]) else Round(Rounds(keys, block, r - 1), keys[r])
  }

  /** anubis_crypt on a block in host order, with R + 1 round keys. */
  function Crypt(keys: seq<Words>, block: Words): Words
    requires |keys| >= 2
  {
    LastRound(Rounds(keys, block, |keys| - 2), keys[|keys| - 1])
  }

  /** The diffusion layer as anubis_setkey computes it, with T4 undoing the substitution in T0..T3. */
  function Theta(v: bv32): bv32 {
    Lookup(Sbox(B0(v)), Sbox(B1(v)), Sbox(B2(v)), Sbox(B3(v)))
  }

  function Thetas(k: Words): Words { Words(Theta(k.w0), Theta(k.w1), Theta(k.w2), Theta(k.w3)) }

  /** The inverse key schedule: ends swapped, the rest reversed and diffused. */
  function Inverse(e: seq<Words>): (d: seq<Words>)
    requires |e| >= 2
    ensures |d| == |e|
  {
    var R := |e| - 1;
    seq(R + 1, r requires 0 <= r <= R => if r == 0 then e[R] else if r == R then e[0] else Thetas(e[R - r]))
  }

  // -------------------------------------------------------- layers of a round

  /** Substitution and transposition. */
  function SubTranspose(s: Words): Words {
    Words(
      Word(Sbox(B0(s.w0)), Sbox(B0(s.w1)), Sbox(B0(s.w2)), Sbox(B0(s.w3))),
      Word(Sbox(B1(s.w0)), Sbox(B1(s.w1)), Sbox(B1(s.w2)), Sbox(B1(s.w3))),
      Word(Sbox(B2(s.w0)), Sbox(B2(s.w1)), Sbox(B2(s.w2)), Sbox(B2(s.w3))),
      Word(Sbox(B3(s.w0)), Sbox(B3(s.w1)), Sbox(B3(s.w2)), Sbox(B3(s.w3))))
  }

  /** Multiplication of one row by the diffusion matrix. */
  function Diffuse(v: bv32): bv32 { X(X(X(M0(B0(v)), M1(B1(v))), M2(B2(v))), M3(B3(v))) }

  function DiffuseAll(s: Words): Words { Words(Diffuse(s.w0), Diffuse(s.w1), Diffuse(s.w2), Diffuse(s.w3)) }

  lemma BytesOfWord(a: bv8, b: bv8, c: bv8, d: bv8)
    ensures var w := Word(a, b, c, d); B0(w) == a && B1(w) == b && B2(w) == c && B3(w) == d
  {}

  lemma WordOfBytes(w: bv32)
    ensures Word(B0(w), B1(w), B2(w), B3(w)) == w
  {}

  lemma LookupIs(a: bv8, b: bv8, c: bv8, d: bv8)
    ensures Lookup(a, b, c, d) == Diffuse(Word(Sbox(a), Sbox(b), Sbox(c), Sbox(d)))
  {
    hide T0, T1, T2, T3, Sbox, M0, M1, M2, M3, Word, B0, B1, B2, B3, X;
    Tables(a);
    Tables(b);
    Tables(c);
    Tables(d);
    BytesOfWord(Sbox(a), Sbox(b), Sbox(c), Sbox(d));
  }

  lemma MaskIs(a: bv8, b: bv8, c: bv8, d: bv8)
    ensures (M0(a) & 0xff000000) ^ (M1(b) & 0x00ff0000) ^ (M2(c) & 0x0000ff00) ^ (M3(d) & 0x000000ff) == Word(a, b, c, d)
  {
    hide Mul2, Mul4, Mul6;
  }

  lemma LastLookupIs(a: bv8, b: bv8, c: bv8, d: bv8)
    ensures LastLookup(a, b, c, d) == Word(Sbox(a), Sbox(b), Sbox(c), Sbox(d))
  {
    hide T0, T1, T2, T3, Sbox, M0, M1, M2, M3, Word;
    Tables(a);
    Tables(b);
    Tables(c);
    Tables(d);
    MaskIs(Sbox(a), Sbox(b), Sbox(c), Sbox(d));
  }

  // --------------------------------- the diffusion is linear and an involution

  /** Mul2 without a branch. */
  function Mul2Xor(x: bv8): bv8 {
    var c := x >> 7;
    (x << 1) ^ c ^ (c << 2) ^ (c << 3) ^ (c << 4)
  }

  lemma Mul2IsXor(x: bv8)
    ensures Mul2(x) == Mul2Xor(x)
  {}

  lemma Mul2XorLinear(a: bv8, b: bv8)
    ensures Mul2Xor(a ^ b) == Mul2Xor(a) ^ Mul2Xor(b)
  {}

  lemma Mul2Linear(a: bv8, b: bv8)
    ensures Mul2(a ^ b) == Mul2(a) ^ Mul2(b)
  {
    hide Mul2, Mul2Xor;
    Mul2IsXor(a);
    Mul2IsXor(b);
    Mul2IsXor(a ^ b);
    Mul2XorLinear(a, b);
  }

  lemma Mul4Linear(a: bv8, b: bv8)
    ensures Mul4(a ^ b) == Mul4(a) ^ Mul4(b)
  {
    hide Mul2;
    Mul2Linear(a, b);
    Mul2Linear(Mul2(a), Mul2(b));
  }

  lemma Mul6Linear(a: bv8, b: bv8)
    ensures Mul6(a ^ b) == Mul6(a) ^ Mul6(b)
  {
    hide Mul2, Mul4;
    Mul2Linear(a, b);
    Mul4Linear(a, b);
  }

  lemma WordLinear(a: bv8, b: bv8, c: bv8, d: bv8, e: bv8, f: bv8, g: bv8, h: bv8)
    ensures Word(a ^ e, b ^ f, c ^ g, d ^ h) == X(Word(a, b, c, d), Word(e, f, g, h))
  {}

  lemma BytesXor(v: bv32, w: bv32)
    ensures B0(v ^ w) == B0(v) ^ B0(w) && B1(v ^ w) == B1(v) ^ B1(w)
    ensures B2(v ^ w) == B2(v) ^ B2(w) && B3(v ^ w) == B3(v) ^ B3(w)
  {}

  lemma BytesLinear(v: bv32, w: bv32)
    ensures B0(X(v, w)) == B0(v) ^ B0(w) && B1(X(v, w)) == B1(v) ^ B1(w)
    ensures B2(X(v, w)) == B2(v) ^ B2(w) && B3(X(v, w)) == B3(v) ^ B3(w)
  {
    hide B0, B1, B2, B3;
    BytesXor(v, w);
  }

  lemma ColumnsLinear(a: bv8, b: bv8)
    ensures M0(a ^ b) == X(M0(a), M0(b)) && M1(a ^ b) == X(M1(a), M1(b))
    ensures M2(a ^ b) == X(M2(a), M2(b)) && M3(a ^ b) == X(M3(a), M3(b))
  {
    hide Mul2, Mul4, Mul6, Word, X;
    Mul2Linear(a, b);
    Mul4Linear(a, b);
    Mul6Linear(a, b);
    WordLinear(a, Mul2(a), Mul4(a), Mul6(a), b, Mul2(b), Mul4(b), Mul6(b));
    WordLinear(Mul2(a), a, Mul6(a), Mul4(a), Mul2(b), b, Mul6(b), Mul4(b));
    WordLinear(Mul4(a), Mul6(a), a, Mul2(a), Mul4(b), Mul6(b), b, Mul2(b));
    WordLinear(Mul6(a), Mul4(a), Mul2(a), a, Mul6(b), Mul4(b), Mul2(b), b);
  }

  lemma Comm(a: bv32, b: bv32)
    ensures X(a, b) == X(b, a)
  {}

  lemma Assoc(a: bv32, b: bv32, c: bv32)
    ensures X(X(a, b), c) == X(a, X(b, c))
  {}

  lemma Swap(a: bv32, b: bv32, c: bv32, d: bv32)
    ensures X(X(a, b), X(c, d)) == X(X(a, c), X(b, d))
  {
    hide X;
    Assoc(a, b, X(c, d));
    Assoc(b, c, d);
    Comm(b, c);
    Assoc(c, b, d);
    Assoc(a, c, X(b, d));
  }

  lemma DiffuseLinear(v: bv32, w: bv32)
    ensures Diffuse(X(v, w)) == X(Diffuse(v), Diffuse(w))
  {
    hide M0, M1, M2, M3, B0, B1, B2, B3, X;
    BytesLinear(v, w);
    ColumnsLinear(B0(v), B0(w));
    ColumnsLinear(B1(v), B1(w));
    ColumnsLinear(B2(v), B2(w));
    ColumnsLinear(B3(v), B3(w));
    var a, b, c, d := M0(B0(v)), M1(B1(v)), M2(B2(v)), M3(B3(v));
    var e, f, g, h := M0(B0(w)), M1(B1(w)), M2(B2(w)), M3(B3(w));
    Swap(a, e, b, f);
    Swap(X(a, b), X(e, f), c, g);
    Swap(X(X(a, b), c), X(X(e, f), g), d, h);
  }

  lemma Column0(x: bv8)
    ensures Diffuse(M0(x)) == Word(x, 0, 0, 0)
  {}

  lemma Column1(x: bv8)
    ensures Diffuse(M1(x)) == Word(0, x, 0, 0)
  {}

  lemma Column2(x: bv8)
    ensures Diffuse(M2(x)) == Word(0, 0, x, 0)
  {}

  lemma Column3(x: bv8)
    ensures Diffuse(M3(x)) == Word(0, 0, 0, x)
  {}

  lemma Units(v: bv32)
    ensures X(X(X(Word(B0(v), 0, 0, 0), Word(0, B1(v), 0, 0)), Word(0, 0, B2(v), 0)), Word(0, 0, 0, B3(v))) == v
  {}

  /** The matrix is its own inverse: each column is mapped back to the unit it came from. */
  lemma DiffuseInvolution(v: bv32)
    ensures Diffuse(Diffuse(v)) == v
  {
    hide M0, M1, M2, M3, B0, B1, B2, B3, Word, X;
    var a, b, c, d := M0(B0(v)), M1(B1(v)), M2(B2(v)), M3(B3(v));
    assert Diffuse(v) == X(X(X(a, b), c), d);
    hide Diffuse;
    DiffuseLinear(X(X(a, b), c), d);
    DiffuseLinear(X(a, b), c);
    DiffuseLinear(a, b);
    Column0(B0(v));
    Column1(B1(v));
    Column2(B2(v));
    Column3(B3(v));
    Units(v);
  }

  // --------------------------------------------------------- rounds in layers

  lemma RoundIs(s: Words, k: Words)
    ensures Round(s, k) == AddKey(DiffuseAll(SubTranspose(s)), k)
  {
    hide Lookup, Diffuse, Sbox, Word, B0, B1, B2, B3, X;
    LookupIs(B0(s.w0), B0(s.w1), B0(s.w2), B0(s.w3));
    LookupIs(B1(s.w0), B1(s.w1), B1(s.w2), B1(s.w3));
    LookupIs(B2(s.w0), B2(s.w1), B2(s.w2), B2(s.w3));
    LookupIs(B3(s.w0), B3(s.w1), B3(s.w2), B3(s.w3));
  }

  lemma LastRoundIs(s: Words, k: Words)
    ensures LastRound(s, k) == AddKey(SubTranspose(s), k)
  {
    hide LastLookup, Sbox, Word, B0, B1, B2, B3, X;
    LastLookupIs(B0(s.w0), B0(s.w1), B0(s.w2), B0(s.w3));
    LastLookupIs(B1(s.w0), B1(s.w1), B1(s.w2), B1(s.w3));
    LastLookupIs(B2(s.w0), B2(s.w1), B2(s.w2), B2(s.w3));
    LastLookupIs(B3(s.w0), B3(s.w1), B3(s.w2), B3(s.w3));
  }

  lemma ThetaIs(v: bv32)
    ensures Theta(v) == Diffuse(v)
  {
    hide Lookup, Diffuse, Sbox, Word, B0, B1, B2, B3;
    LookupIs(Sbox(B0(v)), Sbox(B1(v)), Sbox(B2(v)), Sbox(B3(v)));
    SboxInvolution(B0(v));
    SboxInvolution(B1(v));
    SboxInvolution(B2(v));
    SboxInvolution(B3(v));
    WordOfBytes(v);
  }

  lemma ThetasAre(k: Words)
    ensures Thetas(k) == DiffuseAll(k)
  {
    hide Theta, Diffuse;
    ThetaIs(k.w0);
    ThetaIs(k.w1);
    ThetaIs(k.w2);
    ThetaIs(k.w3);
  }

  lemma RowInvolution(w: bv32)
    ensures Word(Sbox(Sbox(B0(w))), Sbox(Sbox(B1(w))), Sbox(Sbox(B2(w))), Sbox(Sbox(B3(w)))) == w
  {
    hide Sbox, Word, B0, B1, B2, B3;
    SboxInvolution(B0(w));
    SboxInvolution(B1(w));
    SboxInvolution(B2(w));
    SboxInvolution(B3(w));
    WordOfBytes(w);
  }

  lemma SubTransposeInvolution(s: Words)
    ensures SubTranspose(SubTranspose(s)) == s
  {
    hide Sbox, Word, B0, B1, B2, B3;
    BytesOfWord(Sbox(B0(s.w0)), Sbox(B0(s.w1)), Sbox(B0(s.w2)), Sbox(B0(s.w3)));
    BytesOfWord(Sbox(B1(s.w0)), Sbox(B1(s.w1)), Sbox(B1(s.w2)), Sbox(B1(s.w3)));
    BytesOfWord(Sbox(B2(s.w0)), Sbox(B2(s.w1)), Sbox(B2(s.w2)), Sbox(B2(s.w3)));
    BytesOfWord(Sbox(B3(s.w0)), Sbox(B3(s.w1)), Sbox(B3(s.w2)), Sbox(B3(s.w3)));
    RowInvolution(s.w0);
    RowInvolution(s.w1);
    RowInvolution(s.w2);
    RowInvolution(s.w3);
  }

  lemma Cancel(a: bv32, k: bv32)
    ensures X(X(a, k), k) == a
  {}

  lemma AddKeyCancels(s: Words, k: Words)
    ensures AddKey(AddKey(s, k), k) == s
  {
    hide X;
    Cancel(s.w0, k.w0);
    Cancel(s.w1, k.w1);
    Cancel(s.w2, k.w2);
    Cancel(s.w3, k.w3);
  }

  lemma DiffuseAllLinear(s: Words, k: Words)
    ensures DiffuseAll(AddKey(s, k)) == AddKey(DiffuseAll(s), DiffuseAll(k))
  {
    hide X, Diffuse;
    DiffuseLinear(s.w0, k.w0);
    DiffuseLinear(s.w1, k.w1);
    DiffuseLinear(s.w2, k.w2);
    DiffuseLinear(s.w3, k.w3);
  }

  lemma DiffuseAllInvolution(s: Words)
    ensures DiffuseAll(DiffuseAll(s)) == s
  {
    hide Diffuse;
    DiffuseInvolution(s.w0);
    DiffuseInvolution(s.w1);
    DiffuseInvolution(s.w2);
    DiffuseInvolution(s.w3);
  }

  // ------------------------------------------------------------ the round trip

  /** A decryption round undoes the encryption round with the key it was derived from. */
  lemma RoundUndoes(x: Words, k: Words)
    ensures Round(SubTranspose(Round(x, k)), Thetas(k)) == SubTranspose(x)
  {
    hide Round, SubTranspose, AddKey, DiffuseAll, Thetas;
    var u := SubTranspose(x);
    var y := Round(x, k);
    RoundIs(x, k);
    RoundIs(SubTranspose(y), Thetas(k));
    SubTransposeInvolution(y);
    ThetasAre(k);
    DiffuseAllLinear(DiffuseAll(u), k);
    DiffuseAllInvolution(u);
    AddKeyCancels(u, DiffuseAll(k));
  }

  /** After r rounds of decryption the state is that of encryption R - 1 - r rounds in, substituted. */
  lemma {:induction false} RoundsMirror(e: seq<Words>, block: Words, r: nat)
    requires r + 2 <= |e|
    ensures Rounds(Inverse(e), Crypt(e, block), r) == SubTranspose(Rounds(e, block, |e| - 2 - r))
  {
    hide Round, SubTranspose, AddKey, Thetas, LastRound;
    var R := |e| - 1;
    if r == 0 {
      var x := Rounds(e, block, R - 1);
      LastRoundIs(x, e[R]);
      AddKeyCancels(SubTranspose(x), e[R]);
    } else {
      RoundsMirror(e, block, r - 1);
      RoundUndoes(Rounds(e, block, R - 1 - r), e[R - r]);
    }
  }

  /** Decryption inverts encryption on every block, for any round count and any round keys. */
  lemma RoundTrip(e: seq<Words>, block: Words)
    requires |e| >= 2
    ensures Crypt(Inverse(e), Crypt(e, block)) == block
  {
    hide Round, SubTranspose, AddKey, Thetas, LastRound;
    var R := |e| - 1;
    RoundsMirror(e, block, R - 1);
    var x := Rounds(e, block, 0);
    LastRoundIs(SubTranspose(x), e[0]);
    SubTransposeInvolution(x);
    AddKeyCancels(block, e[0]);
  }

  lemma InverseTwice(e: seq<Words>)
    requires |e| >= 2
    ensures Inverse(Inverse(e)) == e
  {
    hide Thetas, DiffuseAll;
    var d := Inverse(e);
    var f := Inverse(d);
    forall r | 0 <= r < |e| ensures f[r] == e[r] {
      ThetasAre(e[r]);
      ThetasAre(DiffuseAll(e[r]));
      DiffuseAllInvolution(e[r]);
    }
  }

  /** Encryption inverts decryption too, so every key schedule gives a permutation of the blocks. */
  lemma RoundTripBack(e: seq<Words>, block: Words)
    requires |e| >= 2
    ensures Crypt(e, Crypt(Inverse(e), block)) == block
  {
    InverseTwice(e);
    RoundTrip(Inverse(e), block);
  }
}
