/**
  What may share a scatterlist entry (block/blk-merge.c, include/linux/bio.h) in
  plain arithmetic, and the recount of segments as the least number of such
  pieces.
*/
module SegmentShape {
  import opened Lists
  import opened Segments

  predicate PowerOfTwo(n: nat) { n == 1 || (n > 0 && n % 2 == 0 && PowerOfTwo(n / 2)) }

  /** The block of n bytes an address is in. */
  function Block(a: nat, n: nat): nat
    requires n > 0
  {
    a / n
  }

  lemma MulLess(x: nat, y: nat, n: nat)
    requires x < y
    ensures x * n + n <= y * n
  {
    if y == x + 1 {
      assert y * n == x * n + n;
    } else {
      MulLess(x, y - 1, n);
      assert y * n == (y - 1) * n + n;
    }
  }

  lemma BlockBounds(a: nat, n: nat)
    requires n > 0
    ensures Block(a, n) * n <= a < Block(a, n) * n + n
  {
    assert a == a / n * n + a % n;
  }

  lemma BlockIs(x: nat, q: nat, r: nat, n: nat)
    requires n > 0 && r < n && x == q * n + r
    ensures Block(x, n) == q
  {
    BlockBounds(x, n);
    hide Block;
    if Block(x, n) < q { MulLess(Block(x, n), q, n); }
    if Block(x, n) > q { MulLess(q, Block(x, n), n); }
  }

  lemma BlockMono(a: nat, b: nat, n: nat)
    requires n > 0 && a <= b
    ensures Block(a, n) <= Block(b, n)
  {
    BlockBounds(a, n);
    BlockBounds(b, n);
    hide Block;
    if Block(b, n) < Block(a, n) { MulLess(Block(b, n), Block(a, n), n); }
  }

  /** An address between two of a block is in it. */
  lemma Sandwich(a: nat, b: nat, c: nat, n: nat)
    requires n > 0 && a <= b <= c && Block(a, n) == Block(c, n)
    ensures Block(b, n) == Block(a, n)
  {
    hide Block;
    BlockMono(a, b, n);
    BlockMono(b, c, n);
  }

  lemma {:induction false} OrZero(a: nat)
    ensures Or(a, 0) == a
  {
    if a > 0 { OrZero(a / 2); }
  }

  lemma BlockHalf(a: nat, h: nat)
    requires h > 0
    ensures Block(a / 2, h) == Block(a, 2 * h)
  {
    var q := Block(a / 2, h);
    BlockBounds(a / 2, h);
    hide Block;
    var r := a - q * (2 * h);
    assert q * (2 * h) == 2 * (q * h);
    BlockIs(a, q, r, 2 * h);
  }

  /** The last address of block x of n bytes. */
  function Last(x: nat, n: nat): nat
    requires n > 0
  {
    x * n + (n - 1)
  }

  lemma LastDouble(x: nat, h: nat)
    requires h > 0
    ensures Last(x, 2 * h) == 2 * Last(x, h) + 1
  {}

  lemma LastOnce(x: nat, y: nat, n: nat)
    requires n > 0 && Last(x, n) == Last(y, n)
    ensures x == y
  {
    if x < y { MulLess(x, y, n); }
    if y < x { MulLess(y, x, n); }
  }

  lemma OrStep(a: nat, h: nat)
    requires h > 0
    ensures Or(a, 2 * h - 1) == 2 * Or(a / 2, h - 1) + 1
  {
    assert (2 * h - 1) / 2 == h - 1 && (2 * h - 1) % 2 == 1;
  }

  /** Or with a boundary mask gives the last address of the block. */
  lemma {:induction false} OrMask(a: nat, n: nat)
    requires PowerOfTwo(n)
    ensures Or(a, n - 1) == Last(Block(a, n), n)
  {
    if n == 1 {
      OrZero(a);
    } else {
      hide Or, Last, Block;
      var h := n / 2;
      OrMask(a / 2, h);
      BlockHalf(a, h);
      OrStep(a, h);
      LastDouble(Block(a, n), h);
    }
  }

  lemma SameBlock(a: nat, b: nat, n: nat)
    requires PowerOfTwo(n)
    ensures Or(a, n - 1) == Or(b, n - 1) <==> Block(a, n) == Block(b, n)
  {
    hide Or, Last, Block;
    OrMask(a, n);
    OrMask(b, n);
    if Or(a, n - 1) == Or(b, n - 1) { LastOnce(Block(a, n), Block(b, n), n); }
  }

  // ----------------------------------------------------------- shared entries

  ghost predicate InRow(s: seq<Vec>) {
    forall i :: 0 <= i < |s| - 1 ==> s[i].Phys() + s[i].len == s[i + 1].Phys()
  }

  predicate NoneEmpty(s: seq<Vec>) { forall i :: 0 <= i < |s| ==> s[i].len > 0 }

  /** More than one vector share an entry only on a clustering queue, as one run no longer than a segment and within a boundary. */
  ghost predicate Allowed(q: Queue, s: seq<Vec>) {
    && s != []
    && (|s| > 1 ==>
          && q.cluster && InRow(s) && Len(s) <= q.maxSegSize && Len(s) > 0
          && Block(s[0].Phys(), q.boundary + 1) == Block(s[0].Phys() + Len(s) - 1, q.boundary + 1))
  }

  ghost predicate AllowedSplit(q: Queue, p: seq<seq<Vec>>, s: seq<Vec>) {
    Flatten(p) == s && forall i :: 0 <= i < |p| ==> Allowed(q, p[i])
  }

  /** Where vector i of a run lies. */
  lemma {:induction false} Within(s: seq<Vec>, i: nat)
    requires i < |s| && InRow(s)
    ensures s[0].Phys() <= s[i].Phys() && s[i].Phys() + s[i].len <= s[0].Phys() + Len(s)
    ensures i == |s| - 1 ==> s[i].Phys() + s[i].len == s[0].Phys() + Len(s)
  {
    if i > 0 {
      assert s[1..][i - 1] == s[i];
      Within(s[1..], i - 1);
    } else if |s| == 1 {
      assert s[1..] == [];
    }
  }

  /** Pairs that do not cross keep the whole run from crossing. */
  lemma {:induction false} NoCrossing(q: Queue, s: seq<Vec>, i: nat)
    requires PowerOfTwo(q.boundary + 1) && NoneEmpty(s) && InRow(s) && 0 < i < |s|
    requires forall j :: 0 <= j < |s| - 1 ==> Mergeable(q, s[j], s[j + 1])
    ensures Block(s[0].Phys(), q.boundary + 1) == Block(s[i].Phys() + s[i].len - 1, q.boundary + 1)
  {
    hide Or, Block;
    var n := q.boundary + 1;
    assert Mergeable(q, s[i - 1], s[i]);
    SameBlock(s[i - 1].Phys(), s[i].Phys() + s[i].len - 1, n);
    if i > 1 {
      NoCrossing(q, s, i - 1);
      Within(s, i - 1);
      Sandwich(s[0].Phys(), s[i - 1].Phys(), s[i - 1].Phys() + s[i - 1].len - 1, n);
    }
  }

  lemma PairAllowed(q: Queue, s: seq<Vec>, i: nat)
    requires PowerOfTwo(q.boundary + 1) && NoneEmpty(s) && Allowed(q, s) && i + 1 < |s|
    ensures Mergeable(q, s[i], s[i + 1])
  {
    hide Or, Block;
    var n, a, c := q.boundary + 1, s[0].Phys(), s[0].Phys() + Len(s) - 1;
    Within(s, i);
    Within(s, i + 1);
    Sandwich(a, s[i].Phys(), c, n);
    Sandwich(a, s[i + 1].Phys() + s[i + 1].len - 1, c, n);
    SameBlock(s[i].Phys(), s[i + 1].Phys() + s[i + 1].len - 1, n);
  }

  /** The pairwise tests of the code allow just the runs that fit a segment and stay within a boundary. */
  lemma PieceExact(q: Queue, s: seq<Vec>)
    requires PowerOfTwo(q.boundary + 1) && NoneEmpty(s)
    ensures Piece(q, s) <==> Allowed(q, s)
  {
    if Piece(q, s) && |s| > 1 {
      assert InRow(s) by {
        forall i | 0 <= i < |s| - 1 ensures s[i].Phys() + s[i].len == s[i + 1].Phys() { assert Mergeable(q, s[i], s[i + 1]); }
      }
      NoCrossing(q, s, |s| - 1);
      Within(s, |s| - 1);
      assert Len(s) > 0;
    }
    if Allowed(q, s) {
      forall i: nat | i < |s| - 1 ensures Mergeable(q, s[i], s[i + 1]) { PairAllowed(q, s, i); }
    }
  }

  lemma {:induction false} PiecesNoneEmpty(p: seq<seq<Vec>>, i: nat)
    requires NoneEmpty(Flatten(p)) && i < |p|
    ensures NoneEmpty(p[i])
  {
    var s, rest := Flatten(p), Flatten(p[1..]);
    assert s == p[0] + rest;
    if i == 0 {
      forall j | 0 <= j < |p[0]| ensures p[0][j].len > 0 { assert s[j] == p[0][j]; }
    } else {
      forall j | 0 <= j < |rest| ensures rest[j].len > 0 { assert s[|p[0]| + j] == rest[j]; }
      PiecesNoneEmpty(p[1..], i - 1);
    }
  }

  lemma SplitExact(q: Queue, p: seq<seq<Vec>>, s: seq<Vec>)
    requires PowerOfTwo(q.boundary + 1) && NoneEmpty(s)
    ensures Split(q, p, s) <==> AllowedSplit(q, p, s)
  {
    hide Piece, Allowed;
    if Flatten(p) == s {
      forall i | 0 <= i < |p| ensures Piece(q, p[i]) <==> Allowed(q, p[i]) {
        PiecesNoneEmpty(p, i);
        PieceExact(q, p[i]);
      }
    }
  }

  // ------------------------------------------------------------ empty vectors

  /** The bytes of a run lie within one block of the boundary. */
  ghost predicate Whole(q: Queue, s: seq<Vec>)
    requires s != []
  {
    Len(s) > 0 ==> Block(s[0].Phys(), q.boundary + 1) == Block(s[0].Phys() + Len(s) - 1, q.boundary + 1)
  }

  /** Vector i has no bytes and lies at the start of a block, with bytes before and behind it. */
  ghost predicate TornAt(q: Queue, s: seq<Vec>, i: nat) {
    i < |s| && s[i].len == 0 && s[i].Phys() % (q.boundary + 1) == 0 && Len(s[..i]) > 0 && Len(s[i + 1..]) > 0
  }

  ghost predicate Torn(q: Queue, s: seq<Vec>) { exists i: nat :: TornAt(q, s, i) }

  lemma BlockStarts(m: nat, n: nat)
    requires n > 0 && m > 0
    ensures m % n == 0 <==> Block(m - 1, n) != Block(m, n)
  {
    var b := Block(m, n);
    assert m == b * n + m % n;
    hide Block;
    if m % n == 0 {
      BlockBounds(m - 1, n);
    } else {
      BlockIs(m - 1, b, m % n - 1, n);
    }
  }

  lemma RunAt(s: seq<Vec>, i: nat)
    requires InRow(s) && i < |s|
    ensures s[i].Phys() == s[0].Phys() + Len(s[..i]) && Len(s) == Len(s[..i]) + s[i].len + Len(s[i + 1..])
    ensures Len(s[..i + 1]) == Len(s[..i]) + s[i].len
  {
    assert s[..i + 1] == s[..i] + [s[i]];
    LenAppend(s[..i], [s[i]]);
    assert s == s[..i + 1] + s[i + 1..];
    LenAppend(s[..i + 1], s[i + 1..]);
    assert [s[i]][1..] == [];
    if i > 0 { RunAt(s, i - 1); }
  }

  lemma RowOf(q: Queue, s: seq<Vec>)
    requires Piece(q, s)
    ensures InRow(s)
  {
    forall i | 0 <= i < |s| - 1 ensures s[i].Phys() + s[i].len == s[i + 1].Phys() { assert Mergeable(q, s[i], s[i + 1]); }
  }

  /** A block that begins within the bytes of a run tears it. */
  lemma TornCrosses(q: Queue, s: seq<Vec>, i: nat)
    requires InRow(s) && TornAt(q, s, i)
    ensures !Whole(q, s)
  {
    var n, a, m := q.boundary + 1, s[0].Phys(), s[i].Phys();
    RunAt(s, i);
    BlockStarts(m, n);
    hide Block, Len;
    BlockMono(a, m - 1, n);
    BlockMono(m - 1, m, n);
    BlockMono(m, a + Len(s) - 1, n);
  }

  lemma PairWithin(q: Queue, s: seq<Vec>, i: nat)
    requires PowerOfTwo(q.boundary + 1) && Piece(q, s) && i + 1 < |s|
    ensures s[i + 1].Phys() + s[i + 1].len > 0
    ensures Block(s[i].Phys(), q.boundary + 1) == Block(s[i + 1].Phys() + s[i + 1].len - 1, q.boundary + 1)
  {
    assert Mergeable(q, s[i], s[i + 1]);
    hide Or, Block;
    SameBlock(s[i].Phys(), s[i + 1].Phys() + s[i + 1].len - 1, q.boundary + 1);
  }

  /** Bytes a to e within a block, the last v of them one vector, go on with w more. */
  lemma Onward(a: nat, e: nat, v: nat, w: nat, n: nat)
    requires n > 0 && a < e && v <= e - a && Block(a, n) == Block(e - 1, n) && Block(e - v, n) == Block(e + w - 1, n)
    requires v == 0 && w > 0 ==> e % n != 0
    ensures Block(a, n) == Block(e + w - 1, n)
  {
    if v > 0 {
      hide Block;
      Sandwich(a, e - v, e - 1, n);
    } else if w > 0 {
      BlockStarts(e, n);
    }
  }

  lemma FirstWithin(q: Queue, s: seq<Vec>)
    requires PowerOfTwo(q.boundary + 1) && Piece(q, s) && InRow(s) && |s| > 1 && s[0].len > 0
    ensures Block(s[0].Phys(), q.boundary + 1) == Block(s[0].Phys() + s[0].len - 1, q.boundary + 1)
  {
    hide Block, Piece, PowerOfTwo, Len;
    var a := s[0].Phys();
    PairWithin(q, s, 0);
    assert s[0].Phys() + s[0].len == s[1].Phys();
    Sandwich(a, a + s[0].len - 1, a + s[0].len + s[1].len - 1, q.boundary + 1);
  }

  lemma NextWithin(q: Queue, s: seq<Vec>, i: nat)
    requires PowerOfTwo(q.boundary + 1) && Piece(q, s) && InRow(s) && i + 1 < |s| && !TornAt(q, s, i) && Len(s[..i + 1]) > 0
    requires Block(s[0].Phys(), q.boundary + 1) == Block(s[0].Phys() + Len(s[..i + 1]) - 1, q.boundary + 1)
    ensures Block(s[0].Phys(), q.boundary + 1) == Block(s[0].Phys() + Len(s[..i + 1]) + s[i + 1].len - 1, q.boundary + 1)
  {
    hide Block, Len, Piece, InRow, PowerOfTwo;
    PairWithin(q, s, i);
    RunAt(s, i);
    RunAt(s, i + 1);
    Onward(s[0].Phys(), s[0].Phys() + Len(s[..i + 1]), s[i].len, s[i + 1].len, q.boundary + 1);
  }

  lemma NoBytes(s: seq<Vec>)
    ensures Len(s[..0]) == 0
  {}

  /** Up to vector i the bytes of an untorn run lie within the block of the first. */
  lemma {:induction false} Untorn(q: Queue, s: seq<Vec>, i: nat)
    requires PowerOfTwo(q.boundary + 1) && Piece(q, s) && InRow(s) && i < |s| && |s| > 1 && !Torn(q, s) && Len(s[..i + 1]) > 0
    ensures Block(s[0].Phys(), q.boundary + 1) == Block(s[0].Phys() + Len(s[..i + 1]) - 1, q.boundary + 1)
  {
    hide Block, Len, Piece, InRow, TornAt, PowerOfTwo;
    RunAt(s, i);
    if i == 0 {
      assert Len(s[..0]) == 0 by { NoBytes(s); }
      FirstWithin(q, s);
    } else if Len(s[..i]) > 0 {
      Untorn(q, s, i - 1);
      NextWithin(q, s, i - 1);
    } else {
      PairWithin(q, s, i - 1);
      RunAt(s, i - 1);
    }
  }

  /**
    What the pairwise tests let share an entry lies within one block of the boundary if and only if no empty vector at
    the start of a block parts it.
  */
  lemma WholeIff(q: Queue, s: seq<Vec>)
    requires PowerOfTwo(q.boundary + 1) && Piece(q, s) && |s| > 1
    ensures Whole(q, s) <==> !Torn(q, s)
  {
    RowOf(q, s);
    if Torn(q, s) {
      var i: nat :| TornAt(q, s, i);
      TornCrosses(q, s, i);
    } else if Len(s) > 0 {
      assert s[..|s|] == s;
      Untorn(q, s, |s| - 1);
    }
  }

  /** The shape of what shares an entry, in plain arithmetic and with empty vectors. */
  ghost predicate Runs(q: Queue, s: seq<Vec>) {
    && s != []
    && (|s| > 1 ==>
          && q.cluster && InRow(s) && Len(s) <= q.maxSegSize
          && (PowerOfTwo(q.boundary + 1) ==> (Whole(q, s) <==> !Torn(q, s))))
  }

  lemma PieceRuns(q: Queue, s: seq<Vec>)
    requires Piece(q, s)
    ensures Runs(q, s)
  {
    hide Whole, Torn, PowerOfTwo, InRow;
    RowOf(q, s);
    if |s| > 1 && PowerOfTwo(q.boundary + 1) { WholeIff(q, s); }
  }

  /** With a vector of no bytes the pairwise tests let an entry cross a boundary. */
  lemma EmptyVectorCrosses()
    ensures var q := Queue(true, 65536, 0xffff, 0, 128, 1024);
            var s := [Vec(15, 0, 4096), Vec(16, 0, 0), Vec(16, 0, 4096)];
            Piece(q, s) && !Allowed(q, s)
  {
    hide Or, PowerOfTwo;
    var q := Queue(true, 65536, 0xffff, 0, 128, 1024);
    var s := [Vec(15, 0, 4096), Vec(16, 0, 0), Vec(16, 0, 4096)];
    Powers();
    SameBlock(0xf000, 0xffff, 0x10000);
    SameBlock(0x10000, 0x10fff, 0x10000);
    assert Mergeable(q, s[0], s[1]) && Mergeable(q, s[1], s[2]);
    hide Mergeable;
    LenThree(s[0], s[1], s[2]);
  }

  lemma LenThree(a: Vec, b: Vec, c: Vec)
    ensures Len([a, b, c]) == a.len + b.len + c.len
  {
    LenAppend([a, b], [c]);
    assert [a, b] + [c] == [a, b, c];
    LenAppend([a], [b]);
    assert [a] + [b] == [a, b];
    assert [a][1..] == [] && [b][1..] == [] && [c][1..] == [];
  }

  lemma Powers()
    ensures PowerOfTwo(0x10000)
  {
    assert PowerOfTwo(1);
    assert PowerOfTwo(0x10);
    assert PowerOfTwo(0x100);
    assert PowerOfTwo(0x1000);
  }

  // ---------------------------------------------------------------- the recount

  lemma {:induction false} RecalcCounts(q: Queue, r: Recalc, s: seq<Vec>)
    requires if r.prev.Some? then r.highPrev == High(q, r.prev.value) else r.highPrev
    ensures RecalcAll(q, r, s).segs == r.segs + Count(q, true, r.prev, r.size, s)
    decreases |s|
  {
    hide Mergeable, High;
    if s != [] { RecalcCounts(q, RecalcStep(q, r, s[0]), s[1..]); }
  }

  lemma SplitRuns(q: Queue, p: seq<seq<Vec>>, s: seq<Vec>)
    requires Split(q, p, s)
    ensures forall i :: 0 <= i < |p| ==> Runs(q, p[i])
  {
    hide Runs, Piece;
    forall i | 0 <= i < |p| ensures Runs(q, p[i]) { PieceRuns(q, p[i]); }
  }

  lemma RecountSplit(q: Queue, b: Bio) returns (p: seq<seq<Vec>>)
    requires b.vecs != []
    ensures var c := Recount(q, b);
            && c.vecs == b.vecs && c.valid && Split(q, p, b.vecs) && LowSplit(q, p) && |p| == c.segs && p != []
            && c.front == Larger(b.front, Len(p[0])) && c.back == Larger(b.back, Len(p[|p| - 1]))
  {
    var s, r0 := b.vecs, Start(b.front);
    assert Tracks(q, r0, b.front, [], []);
    p := TrackAll(q, r0, b.front, [], [], s);
    assert [] + s == s;
  }

  /**
    What a recount stands for: a split into as few allowed pieces as there can be without putting a page that may
    bounce together with another, and the sizes of its outer pieces.
  */
  lemma RecountExact(q: Queue, b: Bio) returns (p: seq<seq<Vec>>)
    requires b.vecs != []
    ensures var c := Recount(q, b);
            && c.vecs == b.vecs && c.valid && Flatten(p) == b.vecs && LowSplit(q, p) && |p| == c.segs && p != []
            && (forall i :: 0 <= i < |p| ==> Runs(q, p[i]))
            && c.front == Larger(b.front, Len(p[0])) && c.back == Larger(b.back, Len(p[|p| - 1]))
            && (PowerOfTwo(q.boundary + 1) && NoneEmpty(b.vecs) ==>
                  && AllowedSplit(q, p, b.vecs)
                  && (forall r :: AllowedSplit(q, r, b.vecs) && LowSplit(q, r) ==> c.segs <= |r|))
  {
    var s, r0 := b.vecs, Start(b.front);
    p := RecountSplit(q, b);
    SplitRuns(q, p, s);
    RecalcCounts(q, r0, s);
    hide AllowedSplit, LowSplit, RecalcAll, Count, Runs, Flatten, Len, PowerOfTwo, NoneEmpty, Piece;
    if PowerOfTwo(q.boundary + 1) && NoneEmpty(s) {
      SplitExact(q, p, s);
      hide Split;
      forall r | AllowedSplit(q, r, s) && LowSplit(q, r) ensures Recount(q, b).segs <= |r| {
        SplitExact(q, r, s);
        GreedyOptimal(q, true, r, s);
      }
    }
  }

  /** A bio is taken at either end just when the sectors and the segments fit. */
  lemma BioTaken(q: Queue, rq: Request, bio: Bio)
    requires HasData(rq.bios)
    ensures var fits := && Len(Vecs(rq.bios)) / 512 + Len(bio.vecs) / 512 <= q.maxSectors
                        && rq.segs + Counted(q, bio).segs <= q.maxSegments;
            (BackMerge(q, rq, bio).Some? <==> fits) && (FrontMerge(q, rq, bio).Some? <==> fits)
  {
    VecsOne(bio);
  }

  /** The last piece of one request and the first of the next may become one, in plain arithmetic. */
  predicate Abut(q: Queue, b: Bio, nxt: Bio)
    requires b.vecs != [] && nxt.vecs != []
  {
    var v, w := b.vecs[|b.vecs| - 1], nxt.vecs[0];
    && q.cluster && b.back + nxt.front <= q.maxSegSize && v.Phys() + v.len == w.Phys() && w.Phys() + w.len > 0
    && Block(v.Phys(), q.boundary + 1) == Block(w.Phys() + w.len - 1, q.boundary + 1)
  }

  /** A request is taken just when sectors and segments fit, a segment less being needed just when the ends abut. */
  lemma RequestTaken(q: Queue, rq: Request, next: Request)
    requires HasData(rq.bios) && HasData(next.bios) && PowerOfTwo(q.boundary + 1) && rq.segs > 0 && next.segs > 0
    ensures var abut := Abut(q, rq.bios[|rq.bios| - 1], next.bios[0]);
            var total := rq.segs + next.segs - if abut then 1 else 0;
            && (MergeRequests(q, rq, next).Some? <==>
                  Len(Vecs(rq.bios)) / 512 + Len(Vecs(next.bios)) / 512 <= q.maxSectors && total <= q.maxSegments)
            && (MergeRequests(q, rq, next).Some? ==> MergeRequests(q, rq, next).value.segs == total)
  {
    var b, nxt := rq.bios[|rq.bios| - 1], next.bios[0];
    var v, w := b.vecs[|b.vecs| - 1], nxt.vecs[0];
    if w.Phys() + w.len > 0 { SameBlock(v.Phys(), w.Phys() + w.len - 1, q.boundary + 1); }
    hide Or, Block;
    assert Abut(q, b, nxt) <==> Contiguous(q, b, nxt);
    hide Abut, Contiguous, Len, Vecs;
  }
}
