/**
  Building the scatterlist of a merged request (block/blk-merge.c): it fits the
  segment count and describes the request's bytes in order.
*/
module Scatterlist {
  import opened Lists
  import opened Segments
  import opened SegmentShape

  /** One scatterlist entry. */
  datatype Sg = Sg(pfn: nat, offset: nat, length: nat)

  // ------------------------------------------------------ requests that arise

  /** How a request came about: every mix of bio, request merges and recounts. */
  datatype Build =
    | FromBio(bio: Bio)
    | Back(rq: Build, bio: Bio)
    | Front(rq: Build, bio: Bio)
    | Join(rq: Build, next: Build)
    | SparedFirst(rq: Build, next: Build)   // rq, after a merge with next was refused
    | SparedSecond(rq: Build, next: Build)  // next, after a merge into rq was refused
    | SparedBack(rq: Build, bio: Bio)       // rq, after bio was refused at its back
    | SparedFront(rq: Build, bio: Bio)
    | Trimmed(left: Request)

  ghost predicate Given(q: Queue, b: Build) {
    match b
    case FromBio(bio) => BioOk(q, bio)
    case Back(rq, bio) => Given(q, rq) && BioOk(q, bio)
    case Front(rq, bio) => Given(q, rq) && BioOk(q, bio)
    case Join(rq, next) => Given(q, rq) && Given(q, next)
    case SparedFirst(rq, next) => Given(q, rq) && Given(q, next)
    case SparedSecond(rq, next) => Given(q, rq) && Given(q, next)
    case SparedBack(rq, bio) => Given(q, rq) && BioOk(q, bio)
    case SparedFront(rq, bio) => Given(q, rq) && BioOk(q, bio)
    case Trimmed(left) => HasData(left.bios)
  }

  /** The request built, or None where a merge was refused. */
  function Built(q: Queue, b: Build): Option<Request> {
    match b
    case FromBio(bio) => Some(Request([Counted(q, bio)], Counted(q, bio).segs))
    case Back(rq, bio) =>
      var r := Built(q, rq);
      if r.Some? && r.value.bios != [] then BackMerge(q, r.value, bio) else None
    case Front(rq, bio) =>
      var r := Built(q, rq);
      if r.Some? && r.value.bios != [] then FrontMerge(q, r.value, bio) else None
    case Join(rq, next) =>
      var (r, n) := (Built(q, rq), Built(q, next));
      if r.Some? && n.Some? && HasData(r.value.bios) && HasData(n.value.bios) then MergeRequests(q, r.value, n.value) else None
    case SparedFirst(rq, next) =>
      var (r, n) := (Built(q, rq), Built(q, next));
      if r.Some? && n.Some? && HasData(r.value.bios) && HasData(n.value.bios)
      then Some(TryMergeRequests(q, r.value, n.value).0) else None
    case SparedSecond(rq, next) =>
      var (r, n) := (Built(q, rq), Built(q, next));
      if r.Some? && n.Some? && HasData(r.value.bios) && HasData(n.value.bios)
      then Some(TryMergeRequests(q, r.value, n.value).1) else None
    case SparedBack(rq, bio) =>
      var r := Built(q, rq);
      if r.Some? && r.value.bios != [] then Some(Refused(q, r.value, bio, |r.value.bios| - 1)) else None
    case SparedFront(rq, bio) =>
      var r := Built(q, rq);
      if r.Some? && r.value.bios != [] then Some(Refused(q, r.value, bio, 0)) else None
    case Trimmed(left) => if left.bios != [] then Some(RecalcRequest(q, left)) else None
  }

  /** Whatever sequence of merges built a request, its count stands for a split of its vectors. */
  lemma {:induction false} BuiltOk(q: Queue, b: Build)
    requires Given(q, b) && Built(q, b).Some?
    ensures RequestOk(q, Built(q, b).value)
  {
    match b
    case FromBio(bio) => FromBioOk(q, bio);
    case Back(rq, bio) =>
      BuiltOk(q, rq);
      BackMergeOk(q, Built(q, rq).value, bio);
    case Front(rq, bio) =>
      BuiltOk(q, rq);
      FrontMergeOk(q, Built(q, rq).value, bio);
    case Join(rq, next) =>
      BuiltOk(q, rq);
      BuiltOk(q, next);
      MergeRequestsOk(q, Built(q, rq).value, Built(q, next).value);
    case SparedFirst(rq, next) =>
      BuiltOk(q, rq);
      BuiltOk(q, next);
      RefusedOk(q, Built(q, rq).value, Built(q, next).value);
    case SparedSecond(rq, next) =>
      BuiltOk(q, rq);
      BuiltOk(q, next);
      RefusedOk(q, Built(q, rq).value, Built(q, next).value);
    case SparedBack(rq, bio) =>
      BuiltOk(q, rq);
      BioRefusedOk(q, Built(q, rq).value, bio, |Built(q, rq).value.bios| - 1);
    case SparedFront(rq, bio) =>
      BuiltOk(q, rq);
      BioRefusedOk(q, Built(q, rq).value, bio, 0);
    case Trimmed(left) => RecalcRequestOk(q, left);
  }

  /** blk_rq_map_sg never needs more entries than nr_phys_segments. */
  lemma EntriesBounded(q: Queue, b: Build)
    requires Given(q, b) && Built(q, b).Some?
    ensures Count(q, false, None, 0, Vecs(Built(q, b).value.bios)) <= Built(q, b).value.segs
  {
    BuiltOk(q, b);
    CountSound(q, Built(q, b).value);
  }

  lemma CountSound(q: Queue, rq: Request)
    requires RequestOk(q, rq)
    ensures Count(q, false, None, 0, Vecs(rq.bios)) <= rq.segs
  {
    var p :| Witness(q, p, Vecs(rq.bios), rq.segs, rq.bios[0].front, rq.bios[|rq.bios| - 1].back);
    GreedyOptimal(q, false, p, Vecs(rq.bios));
  }

  // ------------------------------------------------------------------- bytes

  function Range(addr: nat, n: nat): seq<nat> { seq(n, i requires 0 <= i < n => addr + i) }

  /** The physical addresses of the bytes of a list of vectors, in order. */
  function VecBytes(s: seq<Vec>): seq<nat> {
    if s == [] then [] else VecBytes(s[..|s| - 1]) + Range(s[|s| - 1].Phys(), s[|s| - 1].len)
  }

  function SgPhys(g: Sg): nat { g.pfn * PAGE_SIZE + g.offset }

  function SgBytes(l: seq<Sg>): seq<nat> {
    if l == [] then [] else SgBytes(l[..|l| - 1]) + Range(SgPhys(l[|l| - 1]), l[|l| - 1].length)
  }

  lemma RangeJoin(addr: nat, m: nat, n: nat)
    ensures Range(addr, m) + Range(addr + m, n) == Range(addr, m + n)
  {}

  lemma SgAppend(l: seq<Sg>, g: Sg)
    ensures SgBytes(l + [g]) == SgBytes(l) + Range(SgPhys(g), g.length)
  {
    assert (l + [g])[..|l|] == l;
  }

  lemma VecAppend(s: seq<Vec>, i: nat)
    requires i < |s|
    ensures VecBytes(s[..i + 1]) == VecBytes(s[..i]) + Range(s[i].Phys(), s[i].len)
  {
    assert s[..i + 1][..i] == s[..i];
  }

  lemma CountStep(q: Queue, prev: Option<Vec>, size: nat, s: seq<Vec>, i: nat)
    requires i < |s|
    ensures Count(q, false, prev, size, s[i..]) ==
            if Joins(q, prev, size, s[i]) then Count(q, false, Some(s[i]), size + s[i].len, s[i + 1..])
            else 1 + Count(q, false, Some(s[i]), s[i].len, s[i + 1..])
  {
    assert s[i..][0] == s[i] && s[i..][1..] == s[i + 1..];
  }

  lemma SgExtend(l: seq<Sg>, n: nat)
    requires l != []
    ensures var g := l[|l| - 1];
            SgBytes(l[|l| - 1 := g.(length := g.length + n)]) == SgBytes(l) + Range(SgPhys(g) + g.length, n)
  {
    var g := l[|l| - 1];
    var l' := l[|l| - 1 := g.(length := g.length + n)];
    assert l'[..|l| - 1] == l[..|l| - 1];
    RangeJoin(SgPhys(g), g.length, n);
  }

  // ----------------------------------------------------------------- the loops

  lemma RecalcAllStep(q: Queue, r: Recalc, s: seq<Vec>)
    requires s != []
    ensures RecalcAll(q, r, s) == RecalcAll(q, RecalcStep(q, r, s[0]), s[1..])
  {}

  lemma RecalcAllEnd(q: Queue, r: Recalc)
    ensures RecalcAll(q, r, []) == r
  {}

  /** __blk_recalc_rq_segments over the bios of a request, with the outer sizes it records. */
  method RecalcSegments(q: Queue, bios: seq<Bio>) returns (segs: nat, front: nat, back: nat)
    requires HasData(bios)
    ensures var r := RecalcRequest(q, Request(bios, 0));
            segs == r.segs && front == r.bios[0].front && back == r.bios[|bios| - 1].back
  {
    hide Joins, High, RecalcAll;
    var prev: Option<Vec> := None;
    var highPrev := true;
    var segSize: nat := 0;
    segs := 0;
    front := bios[0].front;
    var i := 0;
    ghost var all := Vecs(bios);
    assert bios[0..] == bios;
    while i < |bios|
      invariant 0 <= i <= |bios|
      invariant RecalcAll(q, Recalc(prev, highPrev, segSize, segs, front), Vecs(bios[i..])) == RecalcAll(q, Start(bios[0].front), all)
    {
      var vecs := bios[i].vecs;
      var j := 0;
      ghost var rest := Vecs(bios[i + 1..]);
      assert vecs[0..] + rest == Vecs(bios[i..]);
      while j < |vecs|
        invariant 0 <= j <= |vecs|
        invariant RecalcAll(q, Recalc(prev, highPrev, segSize, segs, front), vecs[j..] + rest) == RecalcAll(q, Start(bios[0].front), all)
      {
        assert (vecs[j..] + rest)[1..] == vecs[j + 1..] + rest;
        var v := vecs[j];
        ghost var r := Recalc(prev, highPrev, segSize, segs, front);
        RecalcAllStep(q, r, vecs[j..] + rest);
        if !(High(q, v) || highPrev) && Joins(q, prev, segSize, v) {
          segSize := segSize + v.len;
          prev := Some(v);
        } else {
          if segs == 1 && segSize > front {
            front := segSize;
          }
          segs := segs + 1;
          prev := Some(v);
          segSize := v.len;
          highPrev := High(q, v);
        }
        assert Recalc(prev, highPrev, segSize, segs, front) == RecalcStep(q, r, v);
        j := j + 1;
      }
      assert vecs[j..] + rest == rest;
      i := i + 1;
    }
    RecalcAllEnd(q, Recalc(prev, highPrev, segSize, segs, front));
    assert bios[i..] == [];
    if segs == 1 && segSize > front {
      front := segSize;
    }
    back := Larger(segSize, bios[|bios| - 1].back);
  }

  /** blk_rq_map_sg after i vectors: the entries so far, and how many more are to come. */
  ghost predicate Mapped(q: Queue, vecs: seq<Vec>, i: nat, prev: Option<Vec>, size: nat, list: seq<Sg>) {
    && i <= |vecs| && (prev.Some? <==> list != [])
    && |list| + Count(q, false, prev, size, vecs[i..]) == Count(q, false, None, 0, vecs)
    && (prev.Some? ==>
          var g := list[|list| - 1];
          size == g.length && SgPhys(g) + g.length == prev.value.Phys() + prev.value.len)
    && SgBytes(list) == VecBytes(vecs[..i])
  }

  lemma MappedNone(q: Queue, vecs: seq<Vec>)
    ensures Mapped(q, vecs, 0, None, 0, [])
  {
    assert vecs[0..] == vecs && vecs[..0] == [];
  }

  /** The next vector lengthens the last entry or starts a new one; either way the bytes are in order. */
  lemma MappedStep(q: Queue, vecs: seq<Vec>, i: nat, prev: Option<Vec>, size: nat, list: seq<Sg>)
    requires i < |vecs| && Mapped(q, vecs, i, prev, size, list)
    ensures var v := vecs[i];
            if Joins(q, prev, size, v) then
              list != [] &&
              var n, g := |list| - 1, list[|list| - 1];
              Mapped(q, vecs, i + 1, Some(v), size + v.len, list[n := g.(length := g.length + v.len)])
            else
              Mapped(q, vecs, i + 1, Some(v), v.len, list + [Sg(v.pfn, v.offset, v.len)])
  {
    hide SgBytes, VecBytes, Range, Or, Count;
    var v := vecs[i];
    CountStep(q, prev, size, vecs, i);
    VecAppend(vecs, i);
    if Joins(q, prev, size, v) {
      SgExtend(list, v.len);
    } else {
      SgAppend(list, Sg(v.pfn, v.offset, v.len));
    }
  }

  lemma MappedAll(q: Queue, vecs: seq<Vec>, prev: Option<Vec>, size: nat, list: seq<Sg>)
    requires Mapped(q, vecs, |vecs|, prev, size, list)
    ensures |list| == Count(q, false, None, 0, vecs) && SgBytes(list) == VecBytes(vecs)
  {
    assert vecs[..|vecs|] == vecs && vecs[|vecs|..] == [];
  }

  /** There is room for the entry a vector starts. */
  lemma MappedRoom(q: Queue, vecs: seq<Vec>, i: nat, prev: Option<Vec>, size: nat, list: seq<Sg>)
    requires i < |vecs| && Mapped(q, vecs, i, prev, size, list)
    ensures |list| <= Count(q, false, None, 0, vecs)
    ensures !Joins(q, prev, size, vecs[i]) ==> |list| < Count(q, false, None, 0, vecs)
    ensures prev.Some? ==> list != [] && size == list[|list| - 1].length
  {
    CountStep(q, prev, size, vecs, i);
  }

  /** sg_set_page on the next entry. */
  method SetPage(sglist: array<Sg>, n: nat, v: Vec)
    requires n < sglist.Length
    modifies sglist
    ensures sglist[..n + 1] == old(sglist[..n]) + [Sg(v.pfn, v.offset, v.len)]
  {
    sglist[n] := Sg(v.pfn, v.offset, v.len);
    assert sglist[..n + 1] == sglist[..n] + [sglist[n]];
  }

  /** The last of n entries made longer. */
  method Lengthen(sglist: array<Sg>, n: nat, more: nat)
    requires 0 < n <= sglist.Length
    modifies sglist
    ensures sglist[..n] == old(sglist[..n])[n - 1 := old(sglist[n - 1]).(length := old(sglist[n - 1].length) + more)]
  {
    sglist[n - 1] := sglist[n - 1].(length := sglist[n - 1].length + more);
  }

  /** Entry g stands for the vectors s. */
  predicate Holds(g: Sg, s: seq<Vec>) {
    s != [] && g.pfn == s[0].pfn && g.offset == s[0].offset && g.length == Len(s)
  }

  /** blk_rq_map_sg after i vectors: the pieces the entries so far stand for. */
  ghost predicate Pieced(q: Queue, vecs: seq<Vec>, i: nat, prev: Option<Vec>, size: nat, list: seq<Sg>, p: seq<seq<Vec>>) {
    && i <= |vecs| && Split(q, p, vecs[..i]) && |p| == |list|
    && (forall j :: 0 <= j < |p| ==> Holds(list[j], p[j]))
    && (p == [] ==> prev.None?)
    && (p != [] ==> prev == Some(p[|p| - 1][|p[|p| - 1]| - 1]) && size == Len(p[|p| - 1]))
  }

  lemma PiecedJoins(q: Queue, vecs: seq<Vec>, i: nat, prev: Option<Vec>, size: nat, list: seq<Sg>, p: seq<seq<Vec>>)
    requires i < |vecs| && Pieced(q, vecs, i, prev, size, list, p) && Joins(q, prev, size, vecs[i])
    ensures p != [] && list != []
    ensures var n, g := |list| - 1, list[|list| - 1];
            Pieced(q, vecs, i + 1, Some(vecs[i]), size + vecs[i].len, list[n := g.(length := g.length + vecs[i].len)], Lengthened(p, vecs[i]))
  {
    var l, v := |p| - 1, vecs[i];
    PieceGrows(q, p[l], v);
    hide Piece, Flatten, Joins, Len;
    SplitLengthened(q, p, vecs[..i], v);
    assert vecs[..i] + [v] == vecs[..i + 1];
    hide Split;
  }

  lemma PiecedStarts(q: Queue, vecs: seq<Vec>, i: nat, prev: Option<Vec>, size: nat, list: seq<Sg>, p: seq<seq<Vec>>)
    requires i < |vecs| && Pieced(q, vecs, i, prev, size, list, p)
    ensures var v := vecs[i]; Pieced(q, vecs, i + 1, Some(v), v.len, list + [Sg(v.pfn, v.offset, v.len)], p + [[v]])
  {
    var v := vecs[i];
    FlattenAppend(p, [[v]]);
    FlattenOne([v]);
    assert Len([v]) == v.len by { assert [v][1..] == []; }
    assert Piece(q, [v]);
    hide Piece, Flatten;
    assert vecs[..i] + [v] == vecs[..i + 1];
  }

  /** The bytes of an entry lie within one block of the boundary. */
  predicate EntryWhole(q: Queue, g: Sg) {
    g.length > 0 ==> SgPhys(g) / (q.boundary + 1) == (SgPhys(g) + g.length - 1) / (q.boundary + 1)
  }

  /**
    The shape of an entry that holds the vectors s, in plain arithmetic: several only on a clustering queue, no longer
    than a segment, and across a boundary just when an empty vector parts them there.
  */
  ghost predicate EntryFits(q: Queue, g: Sg, s: seq<Vec>) {
    |s| > 1 ==>
      && q.cluster && g.length <= q.maxSegSize
      && (PowerOfTwo(q.boundary + 1) ==> (EntryWhole(q, g) <==> !Torn(q, s)))
  }

  lemma PieceFits(q: Queue, g: Sg, s: seq<Vec>)
    requires Runs(q, s) && Holds(g, s)
    ensures EntryFits(q, g, s)
  {
    hide Len, Torn, PowerOfTwo, InRow;
  }

  lemma MapShape(q: Queue, vecs: seq<Vec>, prev: Option<Vec>, size: nat, list: seq<Sg>, p: seq<seq<Vec>>)
    requires Pieced(q, vecs, |vecs|, prev, size, list, p)
    ensures forall j :: 0 <= j < |list| ==> EntryFits(q, list[j], p[j])
  {
    hide Runs, EntryFits, Holds, Flatten, Piece;
    SplitRuns(q, p, vecs[..|vecs|]);
    forall j | 0 <= j < |list| ensures EntryFits(q, list[j], p[j]) { PieceFits(q, list[j], p[j]); }
  }

  /** Every entry is allowed, and no allowed list of entries is shorter. */
  lemma MapExact(q: Queue, vecs: seq<Vec>, prev: Option<Vec>, size: nat, list: seq<Sg>, p: seq<seq<Vec>>)
    requires Pieced(q, vecs, |vecs|, prev, size, list, p) && |p| == Count(q, false, None, 0, vecs)
    requires PowerOfTwo(q.boundary + 1) && NoneEmpty(vecs)
    ensures AllowedSplit(q, p, vecs)
    ensures forall r :: AllowedSplit(q, r, vecs) ==> |list| <= |r|
  {
    assert vecs[..|vecs|] == vecs;
    SplitExact(q, p, vecs);
    hide Split, Count, AllowedSplit;
    forall r | AllowedSplit(q, r, vecs) ensures |list| <= |r| {
      SplitExact(q, r, vecs);
      GreedyOptimal(q, false, r, vecs);
    }
  }

  /**
    blk_rq_map_sg, before padding and drain: the entries fit and hold exactly the request's bytes. Entry j holds the
    vectors p[j]; with several it is no longer than a segment and crosses a boundary just when an empty vector parts
    them there; and no allowed list is shorter.
  */
  method MapSg(q: Queue, rq: Request, sglist: array<Sg>) returns (nsegs: nat, ghost p: seq<seq<Vec>>)
    requires RequestOk(q, rq) && rq.segs <= sglist.Length
    modifies sglist
    ensures nsegs <= rq.segs <= sglist.Length && |p| == nsegs && Flatten(p) == Vecs(rq.bios)
    ensures forall j :: 0 <= j < nsegs ==> Holds(sglist[..nsegs][j], p[j])
    ensures nsegs == Count(q, false, None, 0, Vecs(rq.bios))
    ensures SgBytes(sglist[..nsegs]) == VecBytes(Vecs(rq.bios))
    ensures forall j :: 0 <= j < nsegs ==> EntryFits(q, sglist[..nsegs][j], p[j])
    ensures PowerOfTwo(q.boundary + 1) && NoneEmpty(Vecs(rq.bios)) ==>
              && AllowedSplit(q, p, Vecs(rq.bios))
              && (forall r :: AllowedSplit(q, r, Vecs(rq.bios)) ==> nsegs <= |r|)
  {
    CountSound(q, rq);
    hide RequestOk, Mapped, Count, SgBytes, VecBytes, Vecs, Joins, Pieced, EntryFits, AllowedSplit, Flatten, Holds, NoneEmpty, PowerOfTwo;
    var vecs := Vecs(rq.bios);
    MappedNone(q, vecs);
    PiecedNone(q, vecs);
    var prev: Option<Vec> := None;
    ghost var size: nat := 0;
    nsegs, p := 0, [];
    var i := 0;
    assert sglist[..0] == [];
    while i < |vecs|
      invariant i <= |vecs| && nsegs <= Count(q, false, None, 0, vecs)
      invariant Mapped(q, vecs, i, prev, size, sglist[..nsegs])
      invariant Pieced(q, vecs, i, prev, size, sglist[..nsegs], p)
    {
      var v := vecs[i];
      ghost var list := sglist[..nsegs];
      MappedStep(q, vecs, i, prev, size, list);
      MappedRoom(q, vecs, i, prev, size, list);
      if prev.Some? && Joins(q, prev, sglist[nsegs - 1].length, v) {
        PiecedJoins(q, vecs, i, prev, size, list, p);
        Lengthen(sglist, nsegs, v.len);
        size, p := size + v.len, Lengthened(p, v);
      } else {
        assert prev.None? ==> !Joins(q, prev, size, v) by { NoPrevious(q, size, v); }
        PiecedStarts(q, vecs, i, prev, size, list, p);
        SetPage(sglist, nsegs, v);
        nsegs := nsegs + 1;
        size, p := v.len, p + [[v]];
      }
      prev := Some(v);
      i := i + 1;
    }
    MappedAll(q, vecs, prev, size, sglist[..nsegs]);
    PiecedAll(q, vecs, prev, size, sglist[..nsegs], p);
    MapShape(q, vecs, prev, size, sglist[..nsegs], p);
    if PowerOfTwo(q.boundary + 1) && NoneEmpty(vecs) {
      MapExact(q, vecs, prev, size, sglist[..nsegs], p);
    }
  }

  lemma PiecedNone(q: Queue, vecs: seq<Vec>)
    ensures Pieced(q, vecs, 0, None, 0, [], [])
  {
    assert vecs[..0] == [];
  }

  lemma PiecedAll(q: Queue, vecs: seq<Vec>, prev: Option<Vec>, size: nat, list: seq<Sg>, p: seq<seq<Vec>>)
    requires Pieced(q, vecs, |vecs|, prev, size, list, p)
    ensures Flatten(p) == vecs && |p| == |list| && forall j :: 0 <= j < |p| ==> Holds(list[j], p[j])
  {
    assert vecs[..|vecs|] == vecs;
  }

  lemma NoPrevious(q: Queue, size: nat, v: Vec)
    ensures !Joins(q, None, size, v)
  {}
}
