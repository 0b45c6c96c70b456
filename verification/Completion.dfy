/**
  Completing a request piece by piece (blk_update_request and req_bio_endio in
  block/blk-core.c): bios are ended in order, each once, and it does not matter
  how the completed bytes are cut up.
*/
module Completion {

  /** `len` bytes at physical address `addr`. */
  datatype Vec = Vec(addr: nat, len: nat)

  /** bi_sector, bi_size, bi_io_vec, bi_idx, BIO_UPTODATE and the failfast bits of bi_rw. */
  datatype Bio = Bio(id: nat, sector: nat, size: nat, vecs: seq<Vec>, idx: nat, uptodate: bool, failfast: nat)

  const EIO: nat := 5

  /** A call of bio_endio; error 0 is success. */
  datatype End = End(id: nat, error: nat)

  function Sectors(bytes: nat): nat { bytes / 512 }

  function Len(s: seq<Vec>): nat {
    if s == [] then 0 else s[0].len + Len(s[1..])
  }

  /** The vectors a bio has left. */
  function Live(b: Bio): seq<Vec> { if b.idx <= |b.vecs| then b.vecs[b.idx..] else [] }

  /** A bio that carries data: bi_size is what its remaining vectors hold. */
  predicate Carries(b: Bio) { 0 < b.size == Len(Live(b)) }

  predicate AllCarry(bios: seq<Bio>) {
    forall i :: 0 <= i < |bios| ==> Carries(bios[i])
  }

  function Size(bios: seq<Bio>): nat {
    if bios == [] then 0 else bios[0].size + Size(bios[1..])
  }

  // -------------------------------------------------------------- the model

  /** The vector where n further bytes end, and how many of them fall inside it. */
  function Walk(vecs: seq<Vec>, i: nat, n: nat): (nat, nat)
    decreases |vecs| - i
  {
    if i >= |vecs| || vecs[i].len > n then (i, n)
    else if n == vecs[i].len then (i + 1, 0)
    else Walk(vecs, i + 1, n - vecs[i].len)
  }

  function Trim(vecs: seq<Vec>, i: nat, n: nat): seq<Vec> {
    if i < |vecs| && n <= vecs[i].len then vecs[i := Vec(vecs[i].addr + n, vecs[i].len - n)] else vecs
  }

  /** A bio of which n bytes, but not all, are done. */
  function Advance(b: Bio, n: nat, error: nat): Bio
    requires n < b.size
  {
    if n == 0 then b
    else
      var (i, left) := Walk(b.vecs, b.idx, n);
      b.(size := b.size - n, sector := b.sector + Sectors(n), uptodate := b.uptodate && error == 0,
         idx := i, vecs := Trim(b.vecs, i, left))
  }

  /** The error req_bio_endio passes on. */
  function EndError(b: Bio, error: nat): nat {
    if error != 0 then error else if b.uptodate then 0 else EIO
  }

  /** The bios left and the bios ended after n bytes are done. */
  function Consume(bios: seq<Bio>, n: nat, error: nat): (seq<Bio>, seq<End>) {
    if bios == [] then ([], [])
    else if n < bios[0].size then ([Advance(bios[0], n, error)] + bios[1..], [])
    else
      var e := End(bios[0].id, EndError(bios[0], error));
      if n == bios[0].size then (bios[1..], [e])
      else
        var (left, ended) := Consume(bios[1..], n - bios[0].size, error);
        (left, [e] + ended)
  }

  // ------------------------------------------------------------ what is left

  function Range(addr: nat, n: nat): seq<nat> { seq(n, i requires 0 <= i < n => addr + i) }

  function VecBytes(s: seq<Vec>): seq<nat> {
    if s == [] then [] else Range(s[0].addr, s[0].len) + VecBytes(s[1..])
  }

  /** The addresses of the bytes a bio still has to transfer. */
  function BioBytes(b: Bio): seq<nat> { VecBytes(Live(b)) }

  function Bytes(bios: seq<Bio>): seq<nat> {
    if bios == [] then [] else BioBytes(bios[0]) + Bytes(bios[1..])
  }

  function Ids(bios: seq<Bio>): seq<nat> {
    if bios == [] then [] else [bios[0].id] + Ids(bios[1..])
  }

  function EndIds(ends: seq<End>): seq<nat> {
    if ends == [] then [] else [ends[0].id] + EndIds(ends[1..])
  }

  function Min(a: nat, b: nat): nat { if a < b then a else b }

  /** A list of vectors less its first n bytes. */
  function Drop(s: seq<Vec>, n: nat): seq<Vec> {
    if s == [] then []
    else if s[0].len > n then [Vec(s[0].addr + n, s[0].len - n)] + s[1..]
    else if s[0].len == n then s[1..]
    else Drop(s[1..], n - s[0].len)
  }

  lemma {:induction false} VecBytesLen(s: seq<Vec>)
    ensures |VecBytes(s)| == Len(s)
  {
    if s != [] { VecBytesLen(s[1..]); }
  }

  lemma RangeDrop(addr: nat, m: nat, n: nat)
    requires n <= m
    ensures Range(addr + n, m - n) == Range(addr, m)[n..]
  {}

  lemma {:induction false} DropBytes(s: seq<Vec>, n: nat)
    requires n < Len(s)
    ensures n < |VecBytes(s)| && VecBytes(Drop(s, n)) == VecBytes(s)[n..] && Len(Drop(s, n)) == Len(s) - n
  {
    hide Range;
    VecBytesLen(s);
    var v, rest := s[0], s[1..];
    assert |Range(v.addr, v.len)| == v.len by { VecBytesLen(rest); }
    if v.len > n {
      RangeDrop(v.addr, v.len, n);
      assert Drop(s, n)[1..] == rest;
    } else if v.len < n {
      DropBytes(rest, n - v.len);
    }
  }

  lemma {:induction false} DropTwice(s: seq<Vec>, a: nat, c: nat)
    requires 0 < a && 0 < c && a + c < Len(s)
    ensures Drop(Drop(s, a), c) == Drop(s, a + c)
  {
    var v, rest := s[0], s[1..];
    if v.len > a {
      assert Drop(s, a)[1..] == rest;
    } else if v.len < a {
      DropTwice(rest, a - v.len, c);
    }
  }

  /** The index walk of blk_update_request finds the vectors that Drop keeps. */
  lemma {:induction false} WalkDrops(vecs: seq<Vec>, i: nat, n: nat)
    requires i <= |vecs| && n < Len(vecs[i..])
    ensures var (j, left) := Walk(vecs, i, n);
            i <= j < |vecs| && left <= vecs[j].len && Trim(vecs, j, left)[j..] == Drop(vecs[i..], n)
    decreases |vecs| - i
  {
    assert i < |vecs| && vecs[i..][0] == vecs[i] && vecs[i..][1..] == vecs[i + 1..];
    if vecs[i].len == n {
      assert Len(vecs[i + 1..]) > 0;
      assert Trim(vecs, i + 1, 0) == vecs;
    } else if vecs[i].len < n {
      WalkDrops(vecs, i + 1, n - vecs[i].len);
    }
  }

  lemma AdvanceDrops(b: Bio, n: nat, error: nat)
    requires Carries(b) && 0 < n < b.size
    ensures Carries(Advance(b, n, error))
    ensures Live(Advance(b, n, error)) == Drop(Live(b), n)
  {
    WalkDrops(b.vecs, b.idx, n);
    DropBytes(Live(b), n);
  }

  lemma AdvanceBytes(b: Bio, n: nat, error: nat)
    requires Carries(b) && n < b.size
    ensures Carries(Advance(b, n, error)) && Advance(b, n, error).size == b.size - n
    ensures |BioBytes(b)| == b.size && BioBytes(Advance(b, n, error)) == BioBytes(b)[n..]
  {
    VecBytesLen(Live(b));
    if n > 0 {
      AdvanceDrops(b, n, error);
      DropBytes(Live(b), n);
    }
  }

  lemma {:induction false} BytesLen(bios: seq<Bio>)
    requires AllCarry(bios)
    ensures |Bytes(bios)| == Size(bios)
  {
    if bios != [] {
      VecBytesLen(Live(bios[0]));
      BytesLen(bios[1..]);
    }
  }

  /** The completed bytes go from the front of the request, and only those. */
  lemma {:induction false} ConsumeBytes(bios: seq<Bio>, n: nat, error: nat)
    requires AllCarry(bios)
    ensures var left := Consume(bios, n, error).0;
            && AllCarry(left)
            && |Bytes(bios)| == Size(bios)
            && Size(left) == Size(bios) - Min(n, Size(bios))
            && Bytes(left) == Bytes(bios)[Min(n, Size(bios))..]
  {
    hide BioBytes, Carries, Advance;
    BytesLen(bios);
    if bios != [] {
      var b := bios[0];
      assert |BioBytes(b)| == b.size by { AdvanceZero(b, error); }
      assert Bytes(bios)[b.size..] == Bytes(bios[1..]);
      BytesLen(bios[1..]);
      if n < b.size {
        AdvanceBytes(b, n, error);
        var left := [Advance(b, n, error)] + bios[1..];
        assert left[1..] == bios[1..];
        assert Bytes(bios)[n..] == BioBytes(b)[n..] + Bytes(bios[1..]);
      } else if n > b.size {
        ConsumeBytes(bios[1..], n - b.size, error);
      }
    }
  }

  lemma AdvanceZero(b: Bio, error: nat)
    requires Carries(b)
    ensures |BioBytes(b)| == b.size
  {
    AdvanceBytes(b, 0, error);
  }

  // -------------------------------------------------------------- what ended

  /** Exactly the bios that lie within the n bytes are ended, in order; the rest stay. */
  lemma {:induction false} ConsumeEnds(bios: seq<Bio>, n: nat, error: nat) returns (k: nat)
    requires AllCarry(bios)
    ensures k <= |bios| && Size(bios[..k]) <= n && (k < |bios| ==> n < Size(bios[..k]) + bios[k].size)
    ensures var (left, ended) := Consume(bios, n, error);
            && |ended| == k && |left| == |bios| - k
            && (forall i :: 0 <= i < k ==>
                  ended[i] == End(bios[i].id, if error != 0 then error else if bios[i].uptodate then 0 else 5))
            && (forall i :: 1 <= i < |left| ==> left[i] == bios[k + i])
            && (left != [] ==> left[0] == Advance(bios[k], n - Size(bios[..k]), error))
  {
    hide Advance, Carries;
    if bios == [] {
      k := 0;
    } else if n < bios[0].size {
      k := 0;
      SizeOne(bios);
    } else if n == bios[0].size {
      k := 1;
      SizeOne(bios);
      if |bios| > 1 { AdvanceNone(bios[1], error); }
    } else {
      var m := ConsumeEnds(bios[1..], n - bios[0].size, error);
      k := m + 1;
      SizeMore(bios, k);
    }
  }

  lemma SizeOne(bios: seq<Bio>)
    requires bios != []
    ensures Size(bios[..0]) == 0 && Size(bios[..1]) == bios[0].size
  {
    assert bios[..1][1..] == [];
  }

  lemma SizeMore(bios: seq<Bio>, k: nat)
    requires 1 <= k <= |bios|
    ensures Size(bios[..k]) == bios[0].size + Size(bios[1..][..k - 1])
  {
    assert bios[..k][1..] == bios[1..][..k - 1];
  }

  lemma AdvanceNone(b: Bio, error: nat)
    requires Carries(b)
    ensures b.size > 0 && Advance(b, 0, error) == b
  {}

  // ---------------------------------------------------- completions compose

  /** Equal but for bi_sector and for vectors already done. */
  predicate Alike(b: Bio, c: Bio) {
    b.id == c.id && b.size == c.size && Live(b) == Live(c) && b.uptodate == c.uptodate && b.failfast == c.failfast
  }

  predicate AllAlike(x: seq<Bio>, y: seq<Bio>) {
    |x| == |y| && forall i :: 0 <= i < |x| ==> Alike(x[i], y[i])
  }

  predicate SameSectors(x: seq<Bio>, y: seq<Bio>) {
    |x| == |y| && forall i :: 0 <= i < |x| ==> x[i].sector == y[i].sector
  }

  predicate Aligned(bios: seq<Bio>) {
    forall i :: 0 <= i < |bios| ==> bios[i].size % 512 == 0
  }

  lemma LiveAgain(b: Bio, mid: Bio, a: nat, c: nat, error: nat)
    requires Carries(b) && 0 < a && 0 < c && a + c < b.size && mid == Advance(b, a, error) && mid.size == b.size - a
    ensures Live(Advance(mid, c, error)) == Live(Advance(b, a + c, error))
  {
    DropTwice(Live(b), a, c);
    AdvanceDrops(b, a, error);
    hide Advance, Live, Drop, Carries;
    AdvanceDrops(mid, c, error);
    AdvanceDrops(b, a + c, error);
  }

  lemma AdvanceAgain(b: Bio, a: nat, c: nat, error: nat)
    requires Carries(b) && 0 < a && 0 < c && a + c < b.size
    ensures Advance(b, a, error).size == b.size - a
    ensures Alike(Advance(Advance(b, a, error), c, error), Advance(b, a + c, error))
  {
    hide Advance, Live, Sectors, Carries;
    AdvanceFields(b, a, error);
    AdvanceFields(Advance(b, a, error), c, error);
    AdvanceFields(b, a + c, error);
    LiveAgain(b, Advance(b, a, error), a, c, error);
  }

  lemma AdvanceTwice(b: Bio, a: nat, c: nat, error: nat)
    requires Carries(b) && a + c < b.size
    ensures Advance(b, a, error).size == b.size - a
    ensures var twice := Advance(Advance(b, a, error), c, error);
            Alike(twice, Advance(b, a + c, error)) && twice.sector == b.sector + Sectors(a) + Sectors(c)
  {
    hide Advance, Live, Sectors, Carries;
    AdvanceFields(b, a, error);
    AdvanceFields(Advance(b, a, error), c, error);
    if a == 0 {
      AdvanceNone(b, error);
    } else if c == 0 {
      AdvanceDrops(b, a, error);
      AdvanceNone(Advance(b, a, error), error);
    } else {
      AdvanceAgain(b, a, c, error);
    }
  }

  lemma AdvanceFields(b: Bio, n: nat, error: nat)
    requires n < b.size
    ensures var r := Advance(b, n, error);
            && r.id == b.id && r.size == b.size - n && r.failfast == b.failfast && r.sector == b.sector + Sectors(n)
            && r.uptodate == (b.uptodate && (n > 0 ==> error == 0))
  {}

  lemma ConsumeNone(bios: seq<Bio>, error: nat)
    requires AllCarry(bios)
    ensures Consume(bios, 0, error) == (bios, [])
  {
    if bios != [] { assert [bios[0]] + bios[1..] == bios; }
  }

  /** Two completions and the one they amount to. */
  ghost predicate Composes(bios: seq<Bio>, a: nat, c: nat, error: nat) {
    var (mid, ended) := Consume(bios, a, error);
    var (left, ended') := Consume(mid, c, error);
    var (once, all) := Consume(bios, a + c, error);
    && ended + ended' == all && AllAlike(left, once)
    && (Aligned(bios) && a % 512 == 0 ==> SameSectors(left, once))
  }

  /** The first completion ends inside the first bio. */
  lemma ComposesInside(bios: seq<Bio>, a: nat, c: nat, error: nat)
    requires AllCarry(bios) && bios != [] && a < bios[0].size
    ensures Composes(bios, a, c, error)
  {
    hide Carries, Alike, Advance;
    var b, rest := bios[0], bios[1..];
    AlikeAll(rest);
    AdvanceEnds(b, a, error);
    var mid := [Advance(b, a, error)] + rest;
    assert mid[1..] == rest;
    if a + c < b.size {
      AdvanceTwice(b, a, c, error);
      AdvanceSector(b, a + c, error);
    } else if a + c > b.size {
      AlikeAll(Consume(rest, a + c - b.size, error).0);
    }
  }

  /** Completing a and then c bytes is completing a + c. */
  lemma {:induction false} ConsumeTwice(bios: seq<Bio>, a: nat, c: nat, error: nat)
    requires AllCarry(bios)
    ensures Composes(bios, a, c, error)
  {
    hide Carries, Alike, Advance;
    if bios == [] {
    } else if a < bios[0].size {
      hide Composes;
      ComposesInside(bios, a, c, error);
    } else {
      var b, rest := bios[0], bios[1..];
      if a == b.size {
        ConsumeNone(rest, error);
        AlikeAll(Consume(rest, c, error).0);
      } else {
        ConsumeTwice(rest, a - b.size, c, error);
      }
    }
  }

  lemma AlikeAll(x: seq<Bio>)
    ensures AllAlike(x, x) && SameSectors(x, x)
  {}

  lemma AdvanceEnds(b: Bio, n: nat, error: nat)
    requires n < b.size
    ensures Advance(b, n, error).size == b.size - n && Advance(b, n, error).id == b.id
    ensures EndError(Advance(b, n, error), error) == EndError(b, error)
  {}

  lemma AdvanceSector(b: Bio, n: nat, error: nat)
    requires n < b.size
    ensures Advance(b, n, error).sector == b.sector + Sectors(n)
  {}

  // ------------------------------------------------------------- the request

  /**
    `positional`: an fs or discard request, whose __sector follows completion.
    `flushSeq`: REQ_FLUSH_SEQ, part of a flush sequence that ends its bios itself.
    `ended` lists the bio_endio calls so far; `botched` is set by the repair path.
  */
  datatype Request = Request(
    bios: seq<Bio>, dataLen: int, sector: nat, positional: bool, mixed: bool, failfast: nat, flushSeq: bool,
    ended: seq<End>, botched: bool)

  /** blk_rq_cur_bytes. */
  function CurBytes(bios: seq<Bio>): nat
    requires bios != []
  {
    if Live(bios[0]) == [] then bios[0].size else Live(bios[0])[0].len
  }

  /** The bookkeeping of blk_update_request for n bytes done and `left` remaining. */
  function Settle(rq: Request, left: seq<Bio>, n: nat): Request
    requires left != []
  {
    var len := rq.dataLen - n;
    var botched := len < CurBytes(left);
    rq.(bios := left,
        dataLen := if botched then CurBytes(left) else len,
        sector := if rq.positional then rq.sector + Sectors(n) else rq.sector,
        failfast := if rq.mixed then left[0].failfast else rq.failfast,
        botched := rq.botched || botched)
  }

  /** blk_update_request; the flag tells whether data remains. */
  function Update(rq: Request, error: nat, n: nat): (Request, bool) {
    if rq.bios == [] then (rq, false)
    else
      var (left, ended) := Consume(rq.bios, n, error);
      var r := rq.(ended := if rq.flushSeq then rq.ended else rq.ended + ended);
      if left == [] then (r.(bios := [], dataLen := 0), false) else (Settle(r, left, n), true)
  }

  /** The remaining length is that of the remaining bios, and the repair path was never taken. */
  predicate Ok(rq: Request) {
    AllCarry(rq.bios) && rq.dataLen == Size(rq.bios) && !rq.botched
  }

  lemma CurWithin(bios: seq<Bio>)
    requires bios != [] && AllCarry(bios)
    ensures CurBytes(bios) <= Size(bios)
  {
    assert Live(bios[0]) != [];
  }

  /** One completion keeps the length exact; it asks for more unless every byte is done. */
  lemma UpdateKeeps(rq: Request, error: nat, n: nat)
    requires Ok(rq)
    ensures var (r, more) := Update(rq, error, n);
            && Ok(r) && (more <==> n < Size(rq.bios))
            && |Bytes(rq.bios)| == Size(rq.bios)
            && Bytes(r.bios) == Bytes(rq.bios)[Min(n, Size(rq.bios))..]
            && r.flushSeq == rq.flushSeq
            && (!rq.flushSeq ==> EndIds(r.ended) + Ids(r.bios) == EndIds(rq.ended) + Ids(rq.bios))
            && (rq.flushSeq ==> r.ended == rq.ended)
  {
    hide Carries, Bytes, Consume, Live;
    if rq.bios == [] {
      BytesLen(rq.bios);
    } else {
      ConsumeBytes(rq.bios, n, error);
      ConsumeIds(rq.bios, n, error);
      var (left, ended) := Consume(rq.bios, n, error);
      EndIdsAppend(rq.ended, ended);
      if left == [] {
        assert EndIds(rq.ended) + (EndIds(ended) + Ids(left)) == EndIds(rq.ended) + EndIds(ended) + Ids(left);
      } else {
        CurWithin(left);
        SizePositive(left);
        assert EndIds(rq.ended) + (EndIds(ended) + Ids(left)) == EndIds(rq.ended) + EndIds(ended) + Ids(left);
      }
    }
  }

  lemma SizePositive(bios: seq<Bio>)
    requires bios != [] && AllCarry(bios)
    ensures Size(bios) > 0
  {}

  lemma {:induction false} EndIdsAppend(a: seq<End>, b: seq<End>)
    ensures EndIds(a + b) == EndIds(a) + EndIds(b)
  {
    if a == [] {
      assert a + b == b;
    } else {
      assert (a + b)[1..] == a[1..] + b;
      EndIdsAppend(a[1..], b);
    }
  }

  lemma {:induction false} ConsumeIds(bios: seq<Bio>, n: nat, error: nat)
    ensures EndIds(Consume(bios, n, error).1) + Ids(Consume(bios, n, error).0) == Ids(bios)
  {
    if bios != [] {
      if n < bios[0].size {
        assert ([Advance(bios[0], n, error)] + bios[1..])[1..] == bios[1..];
      } else if n > bios[0].size {
        ConsumeIds(bios[1..], n - bios[0].size, error);
        var (left, ended) := Consume(bios[1..], n - bios[0].size, error);
        assert ([End(bios[0].id, EndError(bios[0], error))] + ended)[1..] == ended;
      }
    }
  }

  lemma SectorsAdd(a: nat, c: nat)
    ensures Sectors(a) + Sectors(c) == Sectors(a + c) <==> a % 512 + c % 512 < 512
  {}

  /** What an update leaves of each field. */
  lemma UpdateShape(rq: Request, error: nat, n: nat)
    requires Ok(rq)
    ensures var (r, more) := Update(rq, error, n);
            var (left, ended) := Consume(rq.bios, n, error);
            && Ok(r) && (more <==> n < Size(rq.bios)) && (more <==> left != [])
            && r.bios == left && r.flushSeq == rq.flushSeq && r.mixed == rq.mixed && r.positional == rq.positional
            && r.ended == (if rq.flushSeq then rq.ended else rq.ended + ended)
            && r.dataLen == rq.dataLen - Min(n, Size(rq.bios))
            && (more ==> r.sector == (if rq.positional then rq.sector + Sectors(n) else rq.sector))
            && (more ==> r.failfast == (if rq.mixed then left[0].failfast else rq.failfast))
  {
    hide Carries, Live, CurBytes, Bytes;
    UpdateKeeps(rq, error, n);
    ConsumeBytes(rq.bios, n, error);
    var left := Consume(rq.bios, n, error).0;
    if left != [] { SizePositive(left); }
  }

  /** The same request is left, whether completed in one go or in two; positions agree once sizes are whole sectors. */
  lemma UpdateTwice(rq: Request, error: nat, a: nat, c: nat)
    requires Ok(rq)
    ensures var (once, more) := Update(rq, error, a + c);
            var (twice, more') := Update(Update(rq, error, a).0, error, c);
            && more == more' && twice.ended == once.ended && twice.dataLen == once.dataLen
            && AllAlike(twice.bios, once.bios)
            && (more ==> twice.failfast == once.failfast)
            && (Aligned(rq.bios) && a % 512 == 0 ==> SameSectors(twice.bios, once.bios))
            && (more && rq.positional ==> (twice.sector == once.sector <==> a % 512 + c % 512 < 512))
  {
    hide Carries, Consume, Update, Ok, AllCarry, Live, Aligned, Size;
    var mid := Update(rq, error, a).0;
    UpdateShape(rq, error, a);
    UpdateShape(rq, error, a + c);
    UpdateShape(mid, error, c);
    assert AllCarry(rq.bios) && rq.dataLen == Size(rq.bios) && mid.dataLen == Size(mid.bios) by { OkParts(rq); OkParts(mid); }
    ConsumeTwice(rq.bios, a, c, error);
    assert rq.ended + Consume(rq.bios, a, error).1 + Consume(mid.bios, c, error).1 == rq.ended + Consume(rq.bios, a + c, error).1;
    SectorsAdd(a, c);
  }

  lemma OkParts(rq: Request)
    requires Ok(rq)
    ensures AllCarry(rq.bios) && rq.dataLen == Size(rq.bios)
  {}

  // --------------------------------------------------------- any completions

  /** A call of blk_update_request. */
  datatype Call = Call(error: nat, bytes: nat)

  function After(rq: Request, calls: seq<Call>): Request
    decreases |calls|
  {
    if calls == [] then rq else After(Update(rq, calls[0].error, calls[0].bytes).0, calls[1..])
  }

  function Total(calls: seq<Call>): nat {
    if calls == [] then 0 else calls[0].bytes + Total(calls[1..])
  }

  /**
    However a request is completed: its length stays exact, the bytes left are the last ones, every bio
    is ended or still there, in order, and so ended once; all are ended when all bytes are done.
  */
  lemma {:induction false} CompletedInOrder(rq: Request, calls: seq<Call>)
    requires Ok(rq)
    ensures var r := After(rq, calls);
            && Ok(r)
            && |Bytes(rq.bios)| == Size(rq.bios)
            && Bytes(r.bios) == Bytes(rq.bios)[Min(Total(calls), Size(rq.bios))..]
            && (r.bios == [] <==> Total(calls) >= Size(rq.bios))
            && (!rq.flushSeq ==> EndIds(r.ended) + Ids(r.bios) == EndIds(rq.ended) + Ids(rq.bios))
            && (rq.flushSeq ==> r.ended == rq.ended)
    decreases |calls|
  {
    hide Carries, Update, Bytes, AllCarry;
    BytesLen(rq.bios);
    if calls == [] {
      NoneLeft(rq);
    } else {
      var r := Update(rq, calls[0].error, calls[0].bytes).0;
      UpdateKeeps(rq, calls[0].error, calls[0].bytes);
      CompletedInOrder(r, calls[1..]);
    }
  }

  lemma NoneLeft(rq: Request)
    requires Ok(rq)
    ensures rq.bios == [] <==> Size(rq.bios) == 0
  {}
}
