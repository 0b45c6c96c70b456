/**
  Physical segments of a request (block/blk-merge.c): the count kept while bios
  and requests are merged against the scatterlist finally built from it.
*/
module Segments {
  import opened Lists

  const PAGE_SIZE: nat := 4096

  /** A bio_vec: `len` bytes at `offset` of page frame `pfn`. */
  datatype Vec = Vec(pfn: nat, offset: nat, len: nat) {
    function Phys(): nat { pfn * PAGE_SIZE + offset }
  }

  /** The queue limits the merge code looks at. */
  datatype Queue = Queue(cluster: bool, maxSegSize: nat, boundary: nat, bouncePfn: nat, maxSegments: nat, maxSectors: nat)

  /** Bitwise or of two addresses. */
  function Or(a: nat, b: nat): nat
    decreases a + b
  {
    if a == 0 && b == 0 then 0
    else 2 * Or(a / 2, b / 2) + if a % 2 == 1 || b % 2 == 1 then 1 else 0
  }

  /** BIOVEC_PHYS_MERGEABLE and BIOVEC_SEG_BOUNDARY. */
  predicate Mergeable(q: Queue, v: Vec, w: Vec) {
    && v.Phys() + v.len == w.Phys()
    && w.Phys() + w.len > 0
    && Or(v.Phys(), q.boundary) == Or(w.Phys() + w.len - 1, q.boundary)
  }

  function Len(s: seq<Vec>): nat {
    if s == [] then 0 else s[0].len + Len(s[1..])
  }

  predicate High(q: Queue, v: Vec) { v.pfn > q.bouncePfn }

  // ------------------------------------------------------------ the two walks

  /** Whether blk_rq_map_sg lets v share the entry of `size` bytes that ends in prev. */
  predicate Joins(q: Queue, prev: Option<Vec>, size: nat, v: Vec) {
    prev.Some? && q.cluster && size + v.len <= q.maxSegSize && Mergeable(q, prev.value, v)
  }

  /** The same, where `low` keeps pages that may bounce to themselves, as the recount does. */
  predicate Meets(q: Queue, low: bool, prev: Option<Vec>, size: nat, v: Vec) {
    Joins(q, prev, size, v) && (low ==> !High(q, prev.value) && !High(q, v))
  }

  /** Entries blk_rq_map_sg starts for the vectors s, or with `low` the recount. */
  function Count(q: Queue, low: bool, prev: Option<Vec>, size: nat, s: seq<Vec>): nat
    decreases |s|
  {
    if s == [] then 0
    else if Meets(q, low, prev, size, s[0]) then Count(q, low, Some(s[0]), size + s[0].len, s[1..])
    else 1 + Count(q, low, Some(s[0]), s[0].len, s[1..])
  }

  /** State of __blk_recalc_rq_segments between vectors. */
  datatype Recalc = Recalc(prev: Option<Vec>, highPrev: bool, size: nat, segs: nat, front: nat)

  function RecalcStep(q: Queue, r: Recalc, v: Vec): Recalc {
    if !(High(q, v) || r.highPrev) && Joins(q, r.prev, r.size, v) then
      r.(prev := Some(v), size := r.size + v.len)
    else
      Recalc(Some(v), High(q, v), v.len, r.segs + 1, if r.segs == 1 && r.size > r.front then r.size else r.front)
  }

  function RecalcAll(q: Queue, r: Recalc, s: seq<Vec>): Recalc
    decreases |s|
  {
    if s == [] then r else RecalcAll(q, RecalcStep(q, r, s[0]), s[1..])
  }

  // --------------------------------------------------------------- partitions

  function Flatten<T>(p: seq<seq<T>>): seq<T> {
    if p == [] then [] else p[0] + Flatten(p[1..])
  }

  /** Vectors that may share one entry; a single vector always may. */
  ghost predicate Piece(q: Queue, s: seq<Vec>) {
    && s != []
    && (|s| > 1 ==> q.cluster && Len(s) <= q.maxSegSize)
    && forall i :: 0 <= i < |s| - 1 ==> Mergeable(q, s[i], s[i + 1])
  }

  /** p splits s into pieces. */
  ghost predicate Split(q: Queue, p: seq<seq<Vec>>, s: seq<Vec>) {
    Flatten(p) == s && forall i :: 0 <= i < |p| ==> Piece(q, p[i])
  }

  /** Only pieces of one vector hold a page that may bounce. */
  ghost predicate LowSplit(q: Queue, p: seq<seq<Vec>>) {
    forall i, j :: 0 <= i < |p| && |p[i]| > 1 && 0 <= j < |p[i]| ==> p[i][j].pfn <= q.bouncePfn
  }

  // ------------------------------------------------- the greedy walk is optimal

  /** More bytes in the open entry can only cost, and at most one entry. */
  lemma {:induction false} CountMono(q: Queue, low: bool, prev: Option<Vec>, a: nat, b: nat, s: seq<Vec>)
    requires a <= b
    ensures Count(q, low, prev, a, s) <= Count(q, low, prev, b, s) <= Count(q, low, prev, a, s) + 1
    decreases |s|
  {
    if s != [] {
      CountMono(q, low, Some(s[0]), a + s[0].len, b + s[0].len, s[1..]);
      CountMono(q, low, Some(s[0]), s[0].len, a + s[0].len, s[1..]);
    }
  }

  lemma CountFresh(q: Queue, low: bool, prev: Option<Vec>, size: nat, s: seq<Vec>)
    ensures Count(q, low, prev, size, s) <= Count(q, low, None, 0, s)
  {
    if s != [] {
      CountMono(q, low, Some(s[0]), s[0].len, size + s[0].len, s[1..]);
    }
  }

  lemma {:induction false} LenAppend(s: seq<Vec>, t: seq<Vec>)
    ensures Len(s + t) == Len(s) + Len(t)
  {
    if s == [] {
      assert s + t == t;
    } else {
      assert (s + t)[1..] == s[1..] + t;
      LenAppend(s[1..], t);
    }
  }

  /** The rest of a piece joins the open entry. */
  lemma {:induction false} CountWithin(q: Queue, low: bool, v: Vec, size: nat, s: seq<Vec>, rest: seq<Vec>)
    requires q.cluster || s == []
    requires s != [] ==> size + Len(s) <= q.maxSegSize && Mergeable(q, v, s[0])
    requires forall i :: 0 <= i < |s| - 1 ==> Mergeable(q, s[i], s[i + 1])
    requires low && s != [] ==> !High(q, v) && forall i :: 0 <= i < |s| ==> !High(q, s[i])
    ensures Count(q, low, Some(v), size, s + rest) <= Count(q, low, None, 0, rest)
    decreases |s|
  {
    if s == [] {
      assert s + rest == rest;
      CountFresh(q, low, Some(v), size, rest);
    } else {
      assert (s + rest)[1..] == s[1..] + rest;
      CountWithin(q, low, s[0], size + s[0].len, s[1..], rest);
    }
  }

  /** No split has fewer pieces than blk_rq_map_sg has entries, and none that respects bouncing fewer than the recount. */
  lemma {:induction false} GreedyOptimal(q: Queue, low: bool, p: seq<seq<Vec>>, s: seq<Vec>)
    requires Split(q, p, s) && (low ==> LowSplit(q, p))
    ensures Count(q, low, None, 0, s) <= |p|
    decreases |p|
  {
    if p != [] {
      var piece, rest := p[0], Flatten(p[1..]);
      assert Piece(q, piece);
      assert s == piece + rest && s[0] == piece[0] && s[1..] == piece[1..] + rest;
      CountWithin(q, low, piece[0], piece[0].len, piece[1..], rest);
      GreedyOptimal(q, low, p[1..], rest);
    }
  }

  // ---------------------------------------------- the count stands for a split

  lemma {:induction false} FlattenAppend<T>(p: seq<seq<T>>, r: seq<seq<T>>)
    ensures Flatten(p + r) == Flatten(p) + Flatten(r)
  {
    if p == [] {
      assert p + r == r;
    } else {
      assert (p + r)[1..] == p[1..] + r;
      FlattenAppend(p[1..], r);
    }
  }

  lemma FlattenOne<T>(s: seq<T>)
    ensures Flatten([s]) == s
  {
    assert Flatten([s]) == s + Flatten([]);
  }

  /** p is the split the recalculation has made of the vectors seen so far, f0 the front size it began with. */
  ghost predicate Tracks(q: Queue, r: Recalc, f0: nat, p: seq<seq<Vec>>, seen: seq<Vec>) {
    && Split(q, p, seen) && LowSplit(q, p) && |p| == r.segs
    && (p == [] ==> r.highPrev)
    && (p != [] ==>
          && r.prev == Some(p[|p| - 1][|p[|p| - 1]| - 1]) && r.size == Len(p[|p| - 1])
          && r.highPrev == High(q, r.prev.value))
    && r.front == if |p| > 1 then Larger(f0, Len(p[0])) else f0
  }

  lemma PieceGrows(q: Queue, s: seq<Vec>, v: Vec)
    requires Piece(q, s) && Joins(q, Some(s[|s| - 1]), Len(s), v)
    ensures Piece(q, s + [v]) && Len(s + [v]) == Len(s) + v.len
  {
    LenAppend(s, [v]);
    assert Len([v]) == v.len;
  }

  /** p with v behind the last vector of its last piece. */
  function Lengthened(p: seq<seq<Vec>>, v: Vec): seq<seq<Vec>>
    requires p != []
  {
    p[..|p| - 1] + [p[|p| - 1] + [v]]
  }

  lemma FlattenLengthened(p: seq<seq<Vec>>, v: Vec)
    requires p != []
    ensures Flatten(Lengthened(p, v)) == Flatten(p) + [v]
  {
    hide Flatten;
    var a, s := p[..|p| - 1], p[|p| - 1];
    assert p == a + [s];
    FlattenAppend(a, [s]);
    FlattenAppend(a, [s + [v]]);
    FlattenOne(s);
    FlattenOne(s + [v]);
  }

  lemma SplitLengthened(q: Queue, p: seq<seq<Vec>>, seen: seq<Vec>, v: Vec)
    requires Split(q, p, seen) && p != [] && Piece(q, p[|p| - 1] + [v])
    ensures Split(q, Lengthened(p, v), seen + [v])
  {
    hide Flatten, Piece;
    FlattenLengthened(p, v);
  }

  lemma LowLengthened(q: Queue, p: seq<seq<Vec>>, v: Vec)
    requires LowSplit(q, p) && p != [] && p[|p| - 1] != [] && !High(q, v)
    requires var s := p[|p| - 1]; |s| == 1 ==> !High(q, s[0])
    ensures LowSplit(q, Lengthened(p, v))
  {}

  /** A vector that joins lengthens the last piece. */
  lemma TrackJoin(q: Queue, r: Recalc, f0: nat, p: seq<seq<Vec>>, seen: seq<Vec>, v: Vec)
    requires Tracks(q, r, f0, p, seen) && RecalcStep(q, r, v).segs == r.segs
    ensures p != [] && Tracks(q, RecalcStep(q, r, v), f0, Lengthened(p, v), seen + [v])
  {
    PieceGrows(q, p[|p| - 1], v);
    LowLengthened(q, p, v);
    hide Piece, Flatten, Len, Joins;
    SplitLengthened(q, p, seen, v);
    hide Split, LowSplit;
  }

  lemma TrackStep(q: Queue, r: Recalc, f0: nat, p: seq<seq<Vec>>, seen: seq<Vec>, v: Vec) returns (p': seq<seq<Vec>>)
    requires Tracks(q, r, f0, p, seen)
    ensures Tracks(q, RecalcStep(q, r, v), f0, p', seen + [v])
  {
    if RecalcStep(q, r, v).segs == r.segs {
      TrackJoin(q, r, f0, p, seen, v);
      p' := Lengthened(p, v);
    } else {
      p' := p + [[v]];
      FlattenAppend(p, [[v]]);
      FlattenOne([v]);
      assert Len([v]) == v.len;
    }
  }

  lemma {:induction false} TrackAll(q: Queue, r: Recalc, f0: nat, p: seq<seq<Vec>>, seen: seq<Vec>, s: seq<Vec>) returns (p': seq<seq<Vec>>)
    requires Tracks(q, r, f0, p, seen)
    ensures Tracks(q, RecalcAll(q, r, s), f0, p', seen + s)
    decreases |s|
  {
    if s == [] {
      p' := p;
      assert seen + s == seen;
    } else {
      var p1 := TrackStep(q, r, f0, p, seen, s[0]);
      p' := TrackAll(q, RecalcStep(q, r, s[0]), f0, p1, seen + [s[0]], s[1..]);
      assert seen + [s[0]] + s[1..] == seen + s;
    }
  }

  // ------------------------------------------------------------ bios, requests

  /** A bio with data: its vectors, bi_seg_front_size, bi_seg_back_size and, if BIO_SEG_VALID, its segments. */
  datatype Bio = Bio(vecs: seq<Vec>, front: nat, back: nat, valid: bool, segs: nat)

  datatype Request = Request(bios: seq<Bio>, segs: nat)

  function Start(front: nat): Recalc { Recalc(None, true, 0, 0, front) }

  function Larger(a: nat, b: nat): nat { if a > b then a else b }

  /** blk_recount_segments on one bio. */
  function Recount(q: Queue, b: Bio): Bio {
    var r := RecalcAll(q, Start(b.front), b.vecs);
    b.(valid := true, segs := r.segs, back := Larger(r.size, b.back),
       front := if r.segs == 1 then Larger(r.size, r.front) else r.front)
  }

  function Counted(q: Queue, b: Bio): Bio { if b.valid then b else Recount(q, b) }

  function Vecs(bios: seq<Bio>): seq<Vec> {
    if bios == [] then [] else bios[0].vecs + Vecs(bios[1..])
  }

  /** blk_recalc_rq_segments: recount across all bios, recording the outer sizes on the first and last. */
  function RecalcRequest(q: Queue, rq: Request): Request
    requires rq.bios != []
  {
    var r := RecalcAll(q, Start(rq.bios[0].front), Vecs(rq.bios));
    var bios := rq.bios[0 := rq.bios[0].(front := if r.segs == 1 then Larger(r.size, r.front) else r.front)];
    var l := |bios| - 1;
    Request(bios[l := bios[l].(back := Larger(r.size, bios[l].back))], r.segs)
  }

  function Sectors(bios: seq<Bio>): nat { Len(Vecs(bios)) / 512 }

  /** ll_back_merge_fn and bio_attempt_back_merge; None is a refusal. */
  function BackMerge(q: Queue, rq: Request, bio: Bio): Option<Request>
    requires rq.bios != []
  {
    if Sectors(rq.bios) + Sectors([bio]) > q.maxSectors then None
    else
      var l := |rq.bios| - 1;
      var bios := rq.bios[l := Counted(q, rq.bios[l])];
      var b := Counted(q, bio);
      if rq.segs + b.segs > q.maxSegments then None
      else Some(Request(bios + [b], rq.segs + b.segs))
  }

  /** ll_front_merge_fn and bio_attempt_front_merge. */
  function FrontMerge(q: Queue, rq: Request, bio: Bio): Option<Request>
    requires rq.bios != []
  {
    if Sectors(rq.bios) + Sectors([bio]) > q.maxSectors then None
    else
      var b := Counted(q, bio);
      var bios := rq.bios[0 := Counted(q, rq.bios[0])];
      if rq.segs + b.segs > q.maxSegments then None
      else Some(Request([b] + bios, rq.segs + b.segs))
  }

  /** The request after a bio was refused next to its bio i: that one may have been counted before the refusal. */
  function Refused(q: Queue, rq: Request, bio: Bio, i: nat): Request
    requires i < |rq.bios|
  {
    if Sectors(rq.bios) + Sectors([bio]) > q.maxSectors then rq
    else rq.(bios := rq.bios[i := Counted(q, rq.bios[i])])
  }

  /** blk_phys_contig_segment for bios with data. */
  predicate Contiguous(q: Queue, b: Bio, nxt: Bio)
    requires b.vecs != [] && nxt.vecs != []
  {
    q.cluster && b.back + nxt.front <= q.maxSegSize && Mergeable(q, b.vecs[|b.vecs| - 1], nxt.vecs[0])
  }

  /**
    ll_merge_requests_fn: the two requests as it leaves them (it adjusts outer
    sizes before it can still refuse), and the segment count if it agrees.
  */
  function TryMergeRequests(q: Queue, rq: Request, next: Request): (Request, Request, Option<nat>)
    requires rq.bios != [] && next.bios != []
    requires rq.bios[|rq.bios| - 1].vecs != [] && next.bios[0].vecs != []
  {
    if Sectors(rq.bios) + Sectors(next.bios) > q.maxSectors then (rq, next, None)
    else
      var l, m := |rq.bios| - 1, |next.bios| - 1;
      var size := rq.bios[l].back + next.bios[0].front;
      var contig := Contiguous(q, rq.bios[l], next.bios[0]);
      var rq1 := if contig && rq.segs == 1 then rq.(bios := rq.bios[0 := rq.bios[0].(front := size)]) else rq;
      var next1 := if contig && next.segs == 1 then next.(bios := next.bios[m := next.bios[m].(back := size)]) else next;
      var total := rq.segs + next.segs - if contig && rq.segs + next.segs > 0 then 1 else 0;
      (rq1, next1, if total > q.maxSegments then None else Some(total))
  }

  /** attempt_merge: the bios of next are appended to rq. */
  function MergeRequests(q: Queue, rq: Request, next: Request): Option<Request>
    requires rq.bios != [] && next.bios != []
    requires rq.bios[|rq.bios| - 1].vecs != [] && next.bios[0].vecs != []
  {
    var (rq1, next1, total) := TryMergeRequests(q, rq, next);
    if total.None? then None else Some(Request(rq1.bios + next1.bios, total.value))
  }

  // ------------------------------------------------------------ the invariant

  /** p splits s into `segs` pieces whose outer ones are no longer than recorded. */
  ghost predicate Witness(q: Queue, p: seq<seq<Vec>>, s: seq<Vec>, segs: nat, front: nat, back: nat) {
    Split(q, p, s) && |p| == segs && p != [] && Len(p[0]) <= front && Len(p[|p| - 1]) <= back
  }

  ghost predicate Sound(q: Queue, s: seq<Vec>, segs: nat, front: nat, back: nat) {
    exists p :: Witness(q, p, s, segs, front, back)
  }

  predicate HasData(bios: seq<Bio>) {
    bios != [] && forall i :: 0 <= i < |bios| ==> bios[i].vecs != []
  }

  ghost predicate BioOk(q: Queue, b: Bio) {
    b.vecs != [] && (b.valid ==> Sound(q, b.vecs, b.segs, b.front, b.back))
  }

  ghost predicate RequestOk(q: Queue, rq: Request) {
    HasData(rq.bios) && Sound(q, Vecs(rq.bios), rq.segs, rq.bios[0].front, rq.bios[|rq.bios| - 1].back)
  }

  lemma SoundWider(q: Queue, s: seq<Vec>, segs: nat, front: nat, back: nat, front': nat, back': nat)
    requires Sound(q, s, segs, front, back) && front <= front' && back <= back'
    ensures Sound(q, s, segs, front', back')
  {
    var p :| Witness(q, p, s, segs, front, back);
    assert Witness(q, p, s, segs, front', back');
  }

  lemma SoundSum(q: Queue, s: seq<Vec>, m: nat, f: nat, b: nat, t: seq<Vec>, n: nat, f': nat, b': nat)
    requires Sound(q, s, m, f, b) && Sound(q, t, n, f', b')
    ensures Sound(q, s + t, m + n, f, b')
  {
    var p :| Witness(q, p, s, m, f, b);
    var r :| Witness(q, r, t, n, f', b');
    FlattenAppend(p, r);
    assert Witness(q, p + r, s + t, m + n, f, b');
  }

  lemma PiecesJoin(q: Queue, s: seq<Vec>, t: seq<Vec>)
    requires Piece(q, s) && Piece(q, t) && q.cluster && Len(s) + Len(t) <= q.maxSegSize
    requires Mergeable(q, s[|s| - 1], t[0])
    ensures Piece(q, s + t) && Len(s + t) == Len(s) + Len(t)
  {
    LenAppend(s, t);
  }

  lemma FlattenJoin<T>(p: seq<seq<T>>, r: seq<seq<T>>)
    requires p != [] && r != []
    ensures Flatten(p[..|p| - 1] + [p[|p| - 1] + r[0]] + r[1..]) == Flatten(p) + Flatten(r)
  {
    assert Flatten(r) == r[0] + Flatten(r[1..]);
    hide Flatten;
    var l := |p| - 1;
    var (a, u, v, b) := (p[..l], p[l], r[0], r[1..]);
    FlattenAppend(a + [u + v], b);
    FlattenAppend(a, [u + v]);
    FlattenOne(u + v);
    assert p == a + [u];
    FlattenAppend(a, [u]);
    FlattenOne(u);
    Regroup(Flatten(a), u, v, Flatten(b));
  }

  lemma Regroup<T>(a: seq<T>, b: seq<T>, c: seq<T>, d: seq<T>)
    ensures a + (b + c) + d == a + b + (c + d)
  {}

  lemma SplitJoin(q: Queue, p: seq<seq<Vec>>, s: seq<Vec>, r: seq<seq<Vec>>, t: seq<Vec>)
    requires Split(q, p, s) && Split(q, r, t) && p != [] && r != []
    requires Piece(q, p[|p| - 1] + r[0])
    ensures Split(q, p[..|p| - 1] + [p[|p| - 1] + r[0]] + r[1..], s + t)
  {
    hide Piece, Flatten;
    FlattenJoin(p, r);
  }

  lemma {:induction false} LastOfFlatten(q: Queue, p: seq<seq<Vec>>, s: seq<Vec>)
    requires Split(q, p, s) && p != []
    ensures s != [] && s[0] == p[0][0]
    ensures s[|s| - 1] == p[|p| - 1][|p[|p| - 1]| - 1]
  {
    var l := |p| - 1;
    assert p == p[..l] + [p[l]];
    FlattenAppend(p[..l], [p[l]]);
    FlattenOne(p[l]);
    assert Piece(q, p[0]) && Piece(q, p[l]);
  }

  lemma SoundJoin(q: Queue, s: seq<Vec>, m: nat, f: nat, b: nat, t: seq<Vec>, n: nat, f': nat, b': nat)
    requires Sound(q, s, m, f, b) && Sound(q, t, n, f', b') && s != [] && t != []
    requires q.cluster && b + f' <= q.maxSegSize && Mergeable(q, s[|s| - 1], t[0])
    ensures m + n > 1
    ensures Sound(q, s + t, m + n - 1, if m == 1 then b + f' else f, if n == 1 then b + f' else b')
  {
    var p :| Witness(q, p, s, m, f, b);
    var r :| Witness(q, r, t, n, f', b');
    LastOfFlatten(q, p, s);
    LastOfFlatten(q, r, t);
    PiecesJoin(q, p[m - 1], r[0]);
    SplitJoin(q, p, s, r, t);
    assert Witness(q, p[..m - 1] + [p[m - 1] + r[0]] + r[1..], s + t, m + n - 1,
                   if m == 1 then b + f' else f, if n == 1 then b + f' else b');
  }

  /** A recount is sound whatever was recorded before. */
  lemma RecountSound(q: Queue, s: seq<Vec>, front: nat, back: nat)
    requires s != []
    ensures var r := RecalcAll(q, Start(front), s);
            && Sound(q, s, r.segs, if r.segs == 1 then Larger(r.size, r.front) else r.front, Larger(r.size, back))
            && r.front >= front
  {
    assert Tracks(q, Start(front), front, [], []);
    var p := TrackAll(q, Start(front), front, [], [], s);
    assert [] + s == s;
    var r := RecalcAll(q, Start(front), s);
    assert Witness(q, p, s, r.segs, if r.segs == 1 then Larger(r.size, r.front) else r.front, Larger(r.size, back));
    FrontGrows(q, Start(front), s);
  }

  lemma {:induction false} FrontGrows(q: Queue, r: Recalc, s: seq<Vec>)
    ensures RecalcAll(q, r, s).front >= r.front
    decreases |s|
  {
    if s != [] { FrontGrows(q, RecalcStep(q, r, s[0]), s[1..]); }
  }

  lemma CountedOk(q: Queue, b: Bio)
    requires BioOk(q, b)
    ensures var c := Counted(q, b);
            c.vecs == b.vecs && Sound(q, c.vecs, c.segs, c.front, c.back)
  {
    RecountSound(q, b.vecs, b.front, b.back);
  }

  lemma CountedWider(q: Queue, b: Bio)
    requires b.vecs != []
    ensures var c := Counted(q, b); c.vecs == b.vecs && c.front >= b.front && c.back >= b.back
  {
    RecountSound(q, b.vecs, b.front, b.back);
  }

  lemma {:induction false} VecsAppend(a: seq<Bio>, b: seq<Bio>)
    ensures Vecs(a + b) == Vecs(a) + Vecs(b)
  {
    if a == [] {
      assert a + b == b;
    } else {
      assert (a + b)[1..] == a[1..] + b;
      VecsAppend(a[1..], b);
    }
  }

  lemma {:induction false} VecsUpdate(a: seq<Bio>, i: nat, b: Bio)
    requires i < |a| && b.vecs == a[i].vecs
    ensures Vecs(a[i := b]) == Vecs(a)
  {
    if i > 0 {
      assert a[i := b][1..] == a[1..][i - 1 := b];
      VecsUpdate(a[1..], i - 1, b);
    } else {
      assert a[i := b][1..] == a[1..];
    }
  }

  lemma VecsOne(b: Bio)
    ensures Vecs([b]) == b.vecs
  {
    assert Vecs([b]) == b.vecs + Vecs([]);
  }

  // -------------------------------------------------------- merging is sound

  lemma FromBioOk(q: Queue, bio: Bio)
    requires BioOk(q, bio)
    ensures RequestOk(q, Request([Counted(q, bio)], Counted(q, bio).segs))
  {
    CountedOk(q, bio);
    VecsOne(Counted(q, bio));
  }

  lemma BackMergeOk(q: Queue, rq: Request, bio: Bio)
    requires RequestOk(q, rq) && BioOk(q, bio) && BackMerge(q, rq, bio).Some?
    ensures RequestOk(q, BackMerge(q, rq, bio).value)
    ensures Vecs(BackMerge(q, rq, bio).value.bios) == Vecs(rq.bios) + bio.vecs
  {
    hide Sound;
    var l := |rq.bios| - 1;
    var c := Counted(q, rq.bios[l]);
    var bios := rq.bios[l := c];
    var b := Counted(q, bio);
    CountedOk(q, bio);
    CountedWider(q, rq.bios[l]);
    VecsUpdate(rq.bios, l, c);
    VecsAppend(bios, [b]);
    VecsOne(b);
    SoundWider(q, Vecs(rq.bios), rq.segs, rq.bios[0].front, rq.bios[l].back, bios[0].front, bios[l].back);
    SoundSum(q, Vecs(bios), rq.segs, bios[0].front, bios[l].back, b.vecs, b.segs, b.front, b.back);
  }

  lemma FrontMergeOk(q: Queue, rq: Request, bio: Bio)
    requires RequestOk(q, rq) && BioOk(q, bio) && FrontMerge(q, rq, bio).Some?
    ensures RequestOk(q, FrontMerge(q, rq, bio).value)
    ensures Vecs(FrontMerge(q, rq, bio).value.bios) == bio.vecs + Vecs(rq.bios)
  {
    hide Sound;
    var l := |rq.bios| - 1;
    var c := Counted(q, rq.bios[0]);
    var bios := rq.bios[0 := c];
    var b := Counted(q, bio);
    CountedOk(q, bio);
    CountedWider(q, rq.bios[0]);
    VecsUpdate(rq.bios, 0, c);
    VecsAppend([b], bios);
    VecsOne(b);
    SoundWider(q, Vecs(rq.bios), rq.segs, rq.bios[0].front, rq.bios[l].back, bios[0].front, bios[l].back);
    SoundSum(q, b.vecs, b.segs, b.front, b.back, Vecs(bios), rq.segs, bios[0].front, bios[l].back);
  }

  lemma {:induction false} VecsEnds(bios: seq<Bio>)
    requires HasData(bios)
    ensures var l := |bios| - 1;
            && Vecs(bios) != [] && Vecs(bios)[0] == bios[0].vecs[0]
            && Vecs(bios)[|Vecs(bios)| - 1] == bios[l].vecs[|bios[l].vecs| - 1]
  {
    var l := |bios| - 1;
    assert bios == bios[..l] + [bios[l]];
    VecsAppend(bios[..l], [bios[l]]);
    VecsOne(bios[l]);
  }

  /** What ll_merge_requests_fn leaves in the two requests when it agrees. */
  lemma MergedShape(q: Queue, rq: Request, next: Request)
    requires HasData(rq.bios) && HasData(next.bios) && MergeRequests(q, rq, next).Some?
    ensures var (rq1, next1, total) := TryMergeRequests(q, rq, next);
            var out := MergeRequests(q, rq, next).value;
            var l, m := |rq.bios| - 1, |next.bios| - 1;
            var size, contig := rq.bios[l].back + next.bios[0].front, Contiguous(q, rq.bios[l], next.bios[0]);
            && |rq1.bios| == l + 1 && |next1.bios| == m + 1
            && rq1.bios == rq.bios[0 := rq1.bios[0]] && rq1.bios[0].vecs == rq.bios[0].vecs
            && next1.bios == next.bios[m := next1.bios[m]] && next1.bios[m].vecs == next.bios[m].vecs
            && HasData(out.bios) && out.bios == rq1.bios + next1.bios
            && out.bios[0].front == (if contig && rq.segs == 1 then size else rq.bios[0].front)
            && out.bios[|out.bios| - 1].back == (if contig && next.segs == 1 then size else next.bios[m].back)
            && (rq.segs + next.segs > 0 ==> out.segs == rq.segs + next.segs - if contig then 1 else 0)
  {}

  lemma MergeRequestsOk(q: Queue, rq: Request, next: Request)
    requires RequestOk(q, rq) && RequestOk(q, next) && MergeRequests(q, rq, next).Some?
    ensures RequestOk(q, MergeRequests(q, rq, next).value)
    ensures Vecs(MergeRequests(q, rq, next).value.bios) == Vecs(rq.bios) + Vecs(next.bios)
  {
    hide Sound, Vecs, Sectors, Mergeable;
    var (rq1, next1, total) := TryMergeRequests(q, rq, next);
    var l, m := |rq.bios| - 1, |next.bios| - 1;
    MergedShape(q, rq, next);
    VecsUpdate(rq.bios, 0, rq1.bios[0]);
    VecsUpdate(next.bios, m, next1.bios[m]);
    VecsAppend(rq1.bios, next1.bios);
    VecsEnds(rq.bios);
    VecsEnds(next.bios);
    if Contiguous(q, rq.bios[l], next.bios[0]) {
      SoundJoin(q, Vecs(rq.bios), rq.segs, rq.bios[0].front, rq.bios[l].back,
                Vecs(next.bios), next.segs, next.bios[0].front, next.bios[m].back);
    } else {
      SoundSum(q, Vecs(rq.bios), rq.segs, rq.bios[0].front, rq.bios[l].back,
               Vecs(next.bios), next.segs, next.bios[0].front, next.bios[m].back);
    }
  }

  lemma RecalcRequestOk(q: Queue, rq: Request)
    requires HasData(rq.bios)
    ensures RequestOk(q, RecalcRequest(q, rq)) && Vecs(RecalcRequest(q, rq).bios) == Vecs(rq.bios)
  {
    hide Sound;
    var s := Vecs(rq.bios);
    VecsEnds(rq.bios);
    RecountSound(q, s, rq.bios[0].front, 0);
    var r := RecalcAll(q, Start(rq.bios[0].front), s);
    var l := |rq.bios| - 1;
    var bios := rq.bios[0 := rq.bios[0].(front := if r.segs == 1 then Larger(r.size, r.front) else r.front)];
    VecsUpdate(rq.bios, 0, bios[0]);
    VecsUpdate(bios, l, bios[l].(back := Larger(r.size, bios[l].back)));
    var front := if r.segs == 1 then Larger(r.size, r.front) else r.front;
    SoundWider(q, s, r.segs, front, Larger(r.size, 0), front, Larger(r.size, bios[l].back));
  }

  /** One segment is both the first and the last. */
  lemma SoundSingle(q: Queue, s: seq<Vec>, front: nat, back: nat)
    requires Sound(q, s, 1, front, back)
    ensures Sound(q, s, 1, back, back) && Sound(q, s, 1, front, front)
  {
    var p :| Witness(q, p, s, 1, front, back);
    assert Witness(q, p, s, 1, back, back) && Witness(q, p, s, 1, front, front);
  }

  /** A refused request merge may have changed the recorded sizes; both requests stay sound. */
  lemma RefusedOk(q: Queue, rq: Request, next: Request)
    requires RequestOk(q, rq) && RequestOk(q, next)
    ensures var (rq1, next1, _) := TryMergeRequests(q, rq, next); RequestOk(q, rq1) && RequestOk(q, next1)
  {
    hide Sound, Sectors, Contiguous;
    var (rq1, next1, total) := TryMergeRequests(q, rq, next);
    var l, m := |rq.bios| - 1, |next.bios| - 1;
    var (f, b) := (rq.bios[l].back, next.bios[0].front);
    VecsUpdate(rq.bios, 0, rq1.bios[0]);
    VecsUpdate(next.bios, m, next1.bios[m]);
    hide Vecs;
    if rq1 != rq {
      SoundSingle(q, Vecs(rq.bios), rq.bios[0].front, f);
      SoundWider(q, Vecs(rq.bios), 1, f, f, f + b, rq1.bios[l].back);
    }
    if next1 != next {
      SoundSingle(q, Vecs(next.bios), b, next.bios[m].back);
      SoundWider(q, Vecs(next.bios), 1, b, b, next1.bios[0].front, f + b);
    }
  }

  /** Counting a bio can only widen the sizes recorded on it. */
  lemma BioRefusedOk(q: Queue, rq: Request, bio: Bio, i: nat)
    requires RequestOk(q, rq) && i < |rq.bios|
    ensures RequestOk(q, Refused(q, rq, bio, i)) && Vecs(Refused(q, rq, bio, i).bios) == Vecs(rq.bios)
  {
    hide Sound, Sectors;
    var l := |rq.bios| - 1;
    var r := rq.(bios := rq.bios[i := Counted(q, rq.bios[i])]);
    CountedWider(q, rq.bios[i]);
    hide Counted;
    VecsUpdate(rq.bios, i, Counted(q, rq.bios[i]));
    SoundWider(q, Vecs(rq.bios), rq.segs, rq.bios[0].front, rq.bios[l].back, r.bios[0].front, r.bios[l].back);
  }
}
