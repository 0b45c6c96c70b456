/**
  The request of block/blk-core.c as it is updated in place: blk_update_request
  with its loop over bios and vectors.
*/
module CompletionRequest {
  import opened Completion

  /** Inside the loop: either at the start of a bio, or nextIdx vectors and bioBytes bytes into it. */
  predicate Going(bios: seq<Bio>, n: nat, bioBytes: nat, nextIdx: nat) {
    || (bioBytes == 0 && nextIdx == 0)
    || (bios != [] && n > 0 && n + bioBytes < bios[0].size && Into(bios[0], n, bioBytes, nextIdx))
  }

  predicate Into(b: Bio, n: nat, bioBytes: nat, nextIdx: nat) {
    var i := b.idx + nextIdx;
    && i <= |b.vecs| && Len(b.vecs[i..]) + bioBytes == b.size
    && Walk(b.vecs, i, n) == Walk(b.vecs, b.idx, n + bioBytes)
  }

  /** After the loop: the walk has ended n bytes into vector nextIdx, bioBytes into the bio. */
  predicate Stopped(b: Bio, n: nat, bioBytes: nat, nextIdx: nat) {
    bioBytes < b.size && (bioBytes > 0 ==>
      var i := b.idx + nextIdx;
      Walk(b.vecs, b.idx, bioBytes) == (i, n) && i < |b.vecs| && n <= b.vecs[i].len)
  }

  /** What remains of the outcome `all` when the first `ends` are done and m bytes of `bios` are still to do. */
  ghost predicate Remains(all: (seq<Bio>, seq<End>), bios: seq<Bio>, m: nat, error: nat, ends: seq<End>) {
    var (left, ended) := Consume(bios, m, error);
    all.0 == left && all.1 == ends + ended
  }

  lemma RemainsAll(bios: seq<Bio>, n: nat, error: nat)
    ensures Remains(Consume(bios, n, error), bios, n, error, [])
  {
    assert [] + Consume(bios, n, error).1 == Consume(bios, n, error).1;
  }

  lemma FreshBio(all: (seq<Bio>, seq<End>), bios: seq<Bio>, n: nat, error: nat, ends: seq<End>)
    requires bios != [] && AllCarry(bios) && n >= bios[0].size && Remains(all, bios, n, error, ends)
    ensures AllCarry(bios[1..])
    ensures Remains(all, bios[1..], n - bios[0].size, error, ends + [End(bios[0].id, EndError(bios[0], error))])
    ensures |bios| > 1 ==> bios[1].size > 0
  {
    var e := End(bios[0].id, EndError(bios[0], error));
    var (left, ended) := Consume(bios[1..], n - bios[0].size, error);
    if n == bios[0].size {
      ConsumeNone(bios[1..], error);
    }
    assert Consume(bios, n, error).0 == left && Consume(bios, n, error).1 == [e] + ended;
    assert ends + ([e] + ended) == ends + [e] + ended;
  }

  lemma RemainsLast(all: (seq<Bio>, seq<End>), bios: seq<Bio>, m: nat, error: nat, ends: seq<End>)
    requires Remains(all, bios, m, error, ends) && (bios != [] ==> m < bios[0].size)
    ensures all.0 == (if bios == [] then [] else [Advance(bios[0], m, error)] + bios[1..]) && all.1 == ends
  {
    assert ends + [] == ends;
  }

  lemma InBio(b: Bio, n: nat, bioBytes: nat, nextIdx: nat)
    requires Carries(b) && Going([b], n, bioBytes, nextIdx) && n < b.size
    ensures n + bioBytes < b.size && Into(b, n, bioBytes, nextIdx) && b.idx + nextIdx < |b.vecs|
    ensures b.vecs[b.idx + nextIdx].len > n ==> Walk(b.vecs, b.idx, n + bioBytes) == (b.idx + nextIdx, n)
  {}

  lemma StepVec(b: Bio, n: nat, bioBytes: nat, nextIdx: nat)
    requires n + bioBytes < b.size && Into(b, n, bioBytes, nextIdx) && b.idx + nextIdx < |b.vecs|
    requires b.vecs[b.idx + nextIdx].len <= n
    ensures var m := b.vecs[b.idx + nextIdx].len;
            && b.idx + nextIdx + 1 < |b.vecs|
            && (n > m ==> Into(b, n - m, bioBytes + m, nextIdx + 1))
            && (n == m ==> Walk(b.vecs, b.idx, n + bioBytes) == (b.idx + nextIdx + 1, 0))
  {
    var i := b.idx + nextIdx;
    assert b.vecs[i..][0] == b.vecs[i] && b.vecs[i..][1..] == b.vecs[i + 1..];
    assert Len(b.vecs[i + 1..]) > 0;
  }

  /** The bookkeeping does not look at the bios a request had. */
  lemma SettleBios(rq: Request, r: Request, left: seq<Bio>, n: nat)
    requires left != [] && r == rq.(bios := r.bios, ended := r.ended)
    ensures Settle(r, left, n) == Settle(rq.(ended := r.ended), left, n)
  {
    hide CurBytes;
  }

  class BlockRequest {
    var bios: seq<Bio>
    var dataLen: int
    var sector: nat
    const positional: bool
    const mixed: bool
    var failfast: nat
    const flushSeq: bool
    var ended: seq<End>
    var botched: bool

    constructor (bios: seq<Bio>, sector: nat, positional: bool, mixed: bool, failfast: nat, flushSeq: bool)
      requires AllCarry(bios)
      ensures St() == Request(bios, Size(bios), sector, positional, mixed, failfast, flushSeq, [], false) && Ok(St())
    {
      this.bios, this.dataLen, this.sector, this.positional := bios, Size(bios), sector, positional;
      this.mixed, this.failfast, this.flushSeq, ended, botched := mixed, failfast, flushSeq, [], false;
    }

    function St(): Request reads this {
      Request(bios, dataLen, sector, positional, mixed, failfast, flushSeq, ended, botched)
    }

    /** req_bio_endio. */
    method BioEndio(bio: Bio, nbytes: nat, error: nat) returns (b: Bio)
      modifies `ended
      ensures b == bio.(uptodate := bio.uptodate && error == 0,
                        size := bio.size - Min(nbytes, bio.size),
                        sector := bio.sector + Sectors(Min(nbytes, bio.size)))
      ensures ended == old(ended) + if b.size == 0 && !flushSeq then [End(bio.id, EndError(bio, error))] else []
      ensures b.size == 0 && !flushSeq ==> ended == old(ended) + [End(bio.id, if error != 0 then error else if bio.uptodate then 0 else 5)]
    {
      var err := error;
      b := bio;
      if error != 0 {
        b := b.(uptodate := false);
      } else if !bio.uptodate {
        err := EIO;
      }
      var n := nbytes;
      if n > bio.size {
        n := bio.size;
      }
      b := b.(size := bio.size - n, sector := bio.sector + Sectors(n));
      if b.size == 0 && !flushSeq {
        ended := ended + [End(bio.id, err)];
      }
    }

    /** The loop of blk_update_request: ends whole bios and finds the point inside the first one left. */
    method EndBios(error: nat, bytes: nat) returns (n: nat, bioBytes: nat, nextIdx: nat, total: nat, broken: bool)
      requires AllCarry(bios) && bios != []
      modifies `bios, `ended
      ensures !broken && (bios != [] ==> Stopped(bios[0], n, bioBytes, nextIdx) && total == bytes)
      ensures var (left, ends) := Consume(old(bios), bytes, error);
              && left == (if bios == [] then [] else [Advance(bios[0], bioBytes, error)] + bios[1..])
              && ended == (if flushSeq then old(ended) else old(ended) + ends)
    {
      hide Carries, EndError, Consume, Into, Advance;
      ghost var all := Consume(bios, bytes, error);
      ghost var ends: seq<End> := [];
      RemainsAll(bios, bytes, error);
      hide Remains;
      n, total, bioBytes, nextIdx, broken := bytes, 0, 0, 0, false;
      var stop := false;
      while bios != [] && !stop
        invariant !broken && AllCarry(bios)
        invariant ended == if flushSeq then old(ended) else old(ended) + ends
        invariant !stop ==> Going(bios, n, bioBytes, nextIdx) && total + n == bytes
        invariant !stop ==> Remains(all, bios, n + bioBytes, error, ends)
        invariant stop ==> bios != [] && Stopped(bios[0], n, bioBytes, nextIdx) && total == bytes
        invariant stop ==> Remains(all, bios, bioBytes, error, ends)
        decreases |bios|, !stop, if bios == [] then 0 else |bios[0].vecs| - bios[0].idx - nextIdx
      {
        var bio := bios[0];
        if n >= bio.size {
          FreshBio(all, bios, n, error, ends);
          bios := bios[1..];
          var _ := BioEndio(bio, bio.size, error);
          ends := ends + [End(bio.id, EndError(bio, error))];
          nextIdx, bioBytes := 0, 0;
          total, n := total + bio.size, n - bio.size;
          if bios != [] {
            if n <= 0 {
              stop := true;
            }
          }
        } else {
          InBio(bio, n, bioBytes, nextIdx);
          var idx := bio.idx + nextIdx;
          if idx >= |bio.vecs| {
            broken := true;
            stop := true;
          } else {
            var nbytes := bio.vecs[idx].len;
            if nbytes > n {
              bioBytes, total := bioBytes + n, total + n;
              stop := true;
            } else {
              StepVec(bio, n, bioBytes, nextIdx);
              nextIdx, bioBytes := nextIdx + 1, bioBytes + nbytes;
              total, n := total + nbytes, n - nbytes;
              if n <= 0 {
                stop := true;
              }
            }
          }
        }
      }
      RemainsLast(all, bios, if stop then bioBytes else n + bioBytes, error, ends);
    }

    /** Records bioBytes bytes done, n of them in vector nextIdx, in the first bio. */
    method AdvanceBio(error: nat, n: nat, bioBytes: nat, nextIdx: nat)
      requires bios != [] && bioBytes > 0 && Stopped(bios[0], n, bioBytes, nextIdx)
      modifies `bios, `ended
      ensures bios == [Advance(old(bios)[0], bioBytes, error)] + old(bios)[1..] && ended == old(ended)
    {
      var bio := BioEndio(bios[0], bioBytes, error);
      var i := bio.idx + nextIdx;
      var v := bio.vecs[i];
      bio := bio.(idx := i, vecs := bio.vecs[i := Vec(v.addr + n, v.len - n)]);
      bios := [bio] + bios[1..];
    }

    /** The part of blk_update_request that follows its loop. */
    method UpdateState(total: nat)
      requires bios != []
      modifies this
      ensures St() == Settle(old(St()), old(bios), total)
    {
      dataLen := dataLen - total;
      if positional {
        sector := sector + Sectors(total);
      }
      if mixed {
        failfast := bios[0].failfast;
      }
      if dataLen < CurBytes(bios) {
        botched := true;
        dataLen := CurBytes(bios);
      }
    }

    /** What follows the loop when bios remain. */
    method Resume(error: nat, n: nat, bioBytes: nat, nextIdx: nat, total: nat)
      requires bios != [] && Stopped(bios[0], n, bioBytes, nextIdx)
      modifies this
      ensures St() == Settle(old(St()), [Advance(old(bios)[0], bioBytes, error)] + old(bios)[1..], total)
    {
      hide CurBytes, Stopped;
      if bioBytes > 0 {
        AdvanceBio(error, n, bioBytes, nextIdx);
      } else {
        assert [bios[0]] + bios[1..] == bios;
      }
      hide Advance;
      UpdateState(total);
    }

    /**
      blk_update_request. `broken` is its complaint about a bio with fewer vectors than bytes, which
      cannot happen to a request that carries data.
    */
    method UpdateRequest(error: nat, bytes: nat) returns (more: bool, broken: bool)
      requires Ok(St())
      modifies this
      ensures (St(), more) == Update(old(St()), error, bytes)
      ensures !broken
    {
      hide Consume, Carries, Advance, Stopped, Ok;
      OkParts(St());
      if bios == [] {
        return false, false;
      }
      var n, bioBytes, nextIdx, total;
      n, bioBytes, nextIdx, total, broken := EndBios(error, bytes);
      more := bios != [];
      if more {
        ghost var s1 := St();
        Resume(error, n, bioBytes, nextIdx, total);
        SettleBios(old(St()), s1, Consume(old(bios), bytes, error).0, total);
      } else {
        dataLen := 0;
      }
      hide Settle;
    }
  }
}
