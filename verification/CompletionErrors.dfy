/**
  The error each bio is ended with (req_bio_endio in block/blk-core.c), read off
  the calls that completed its bytes.
*/
module CompletionErrors {
  import opened Completion

  // ----------------------------------------------------- calls and byte ranges

  /** Call c completes at least one of the bytes from `from` up to `to` of the request. */
  predicate Touches(calls: seq<Call>, c: nat, from: int, to: int)
    requires c < |calls|
  {
    calls[c].bytes > 0 && Total(calls[..c]) < to && from < Total(calls[..c]) + calls[c].bytes
  }

  /** Call c completes the byte before `to`. */
  predicate Finishes(calls: seq<Call>, c: nat, to: nat)
    requires c < |calls|
  {
    Total(calls[..c]) < to <= Total(calls[..c]) + calls[c].bytes
  }

  /** Every call that completes a byte of the range, which may have begun before these calls, has no error. */
  predicate Good(calls: seq<Call>, from: int, to: int)
    decreases |calls|
  {
    calls == [] ||
    ((calls[0].bytes > 0 && from < calls[0].bytes && 0 < to ==> calls[0].error == 0)
     && Good(calls[1..], from - calls[0].bytes, to - calls[0].bytes))
  }

  /** The error of the call that completes the byte before `to`. */
  function LastError(calls: seq<Call>, to: nat): nat
    requires 0 < to <= Total(calls)
    decreases |calls|
  {
    if to <= calls[0].bytes then calls[0].error else LastError(calls[1..], to - calls[0].bytes)
  }

  lemma {:induction false} GoodDone(calls: seq<Call>, from: int, to: int)
    requires to <= 0
    ensures Good(calls, from, to)
    decreases |calls|
  {
    if calls != [] { GoodDone(calls[1..], from - calls[0].bytes, to - calls[0].bytes); }
  }

  lemma {:induction false} GoodBegun(calls: seq<Call>, from: int, from': int, to: int)
    requires from <= 0 && from' <= 0
    ensures Good(calls, from, to) == Good(calls, from', to)
    decreases |calls|
  {
    if calls != [] { GoodBegun(calls[1..], from - calls[0].bytes, from' - calls[0].bytes, to - calls[0].bytes); }
  }

  lemma TotalShift(calls: seq<Call>, c: nat)
    requires 0 < c <= |calls|
    ensures Total(calls[..c]) == calls[0].bytes + Total(calls[1..][..c - 1])
  {
    assert calls[..c][1..] == calls[1..][..c - 1];
  }

  lemma {:induction false} GoodIs(calls: seq<Call>, from: int, to: int)
    ensures Good(calls, from, to) <==> forall c: nat :: c < |calls| && Touches(calls, c, from, to) ==> calls[c].error == 0
    decreases |calls|
  {
    if calls != [] {
      var n, rest := calls[0].bytes, calls[1..];
      GoodIs(rest, from - n, to - n);
      assert calls[..0] == [];
      assert Touches(calls, 0, from, to) <==> n > 0 && from < n && 0 < to;
      forall c: nat | 0 < c < |calls| ensures Touches(calls, c, from, to) <==> Touches(rest, c - 1, from - n, to - n) {
        TotalShift(calls, c);
      }
      if forall c: nat :: c < |calls| && Touches(calls, c, from, to) ==> calls[c].error == 0 {
        forall c: nat | c < |rest| && Touches(rest, c, from - n, to - n) ensures rest[c].error == 0 {
          assert Touches(calls, c + 1, from, to);
        }
      }
    }
  }

  lemma {:induction false} LastErrorIs(calls: seq<Call>, c: nat, to: nat)
    requires c < |calls| && Finishes(calls, c, to) && to <= Total(calls)
    ensures LastError(calls, to) == calls[c].error
    decreases |calls|
  {
    if c == 0 {
      assert calls[..0] == [];
    } else {
      TotalShift(calls, c);
      LastErrorIs(calls[1..], c - 1, to - calls[0].bytes);
    }
  }

  // ------------------------------------------------------------- one call more

  lemma {:induction false} SizeAppend(a: seq<Bio>, b: seq<Bio>)
    ensures Size(a + b) == Size(a) + Size(b)
  {
    if a == [] {
      assert a + b == b;
    } else {
      assert (a + b)[1..] == a[1..] + b;
      SizeAppend(a[1..], b);
    }
  }

  lemma SizeNext(bios: seq<Bio>, i: nat)
    requires i < |bios|
    ensures Size(bios[..i + 1]) == Size(bios[..i]) + bios[i].size
  {
    assert bios[..i + 1] == bios[..i] + [bios[i]];
    SizeAppend(bios[..i], [bios[i]]);
    assert [bios[i]][1..] == [];
  }

  lemma SizeUpTo(bios: seq<Bio>, i: nat, k: nat)
    requires i <= k <= |bios|
    ensures Size(bios[..i]) <= Size(bios[..k])
  {
    assert bios[..k] == bios[..i] + bios[i..k];
    SizeAppend(bios[..i], bios[i..k]);
  }

  /** Where bio i of the request lies among the bios left after n bytes, of which k bios are whole. */
  lemma LeftPlace(bios: seq<Bio>, left: seq<Bio>, n: nat, k: nat, i: nat)
    requires k < i < |bios| && |left| == |bios| - k
    requires Size(bios[..k]) <= n < Size(bios[..k]) + bios[k].size
    requires left[0].size == bios[k].size - (n - Size(bios[..k])) && forall j :: 1 <= j < |left| ==> left[j] == bios[k + j]
    ensures Size(left[..i - k]) == Size(bios[..i]) - n
  {
    var j := i - k;
    assert left[..j] == [left[0]] + bios[k + 1..i];
    assert bios[..i] == bios[..k] + [bios[k]] + bios[k + 1..i];
    SizeAppend([left[0]], bios[k + 1..i]);
    SizeAppend(bios[..k] + [bios[k]], bios[k + 1..i]);
    SizeAppend(bios[..k], [bios[k]]);
    assert [left[0]][1..] == [] && [bios[k]][1..] == [];
  }

  lemma {:induction false} EndedGrows(rq: Request, calls: seq<Call>)
    ensures rq.ended <= After(rq, calls).ended
    decreases |calls|
  {
    if calls != [] {
      UpdateEnds(rq, calls[0].error, calls[0].bytes);
      hide Update;
      EndedGrows(Update(rq, calls[0].error, calls[0].bytes).0, calls[1..]);
    }
  }

  lemma UpdateEnds(rq: Request, error: nat, n: nat)
    ensures rq.ended <= Update(rq, error, n).0.ended
  {
    hide Consume, CurBytes;
  }

  /** What a bio that is done is ended with. */
  function Verdict(good: bool, last: nat): nat { if last != 0 then last else if good then 0 else EIO }

  /** One call: a bio it completes is ended with its verdict; another keeps its place, and whether it is good. */
  lemma CallEnds(rq: Request, e: nat, n: nat, i: nat) returns (k: nat)
    requires Ok(rq) && !rq.flushSeq && i < |rq.bios|
    ensures var r := Update(rq, e, n).0;
            var (from, to) := (Size(rq.bios[..i]), Size(rq.bios[..i]) + rq.bios[i].size);
            && Ok(r) && !r.flushSeq && |r.ended| == |rq.ended| + k && rq.ended <= r.ended
            && (to <= n ==> i < k && r.ended[|rq.ended| + i] == End(rq.bios[i].id, Verdict(rq.bios[i].uptodate, e)))
            && (to > n ==>
                  && k <= i && i - k < |r.bios| && r.bios[i - k].id == rq.bios[i].id
                  && r.bios[i - k].uptodate == (rq.bios[i].uptodate && (from < n ==> e == 0))
                  && Size(r.bios[..i - k]) == (if from < n then 0 else from - n)
                  && Size(r.bios[..i - k]) + r.bios[i - k].size == to - n)
  {
    UpdateShape(rq, e, n);
    k := ConsumeEnds(rq.bios, n, e);
    var bios, r := rq.bios, Update(rq, e, n).0;
    var left := Consume(bios, n, e).0;
    SizeNext(bios, i);
    assert bios[i].size > 0 by { assert Carries(bios[i]); }
    hide Update, Consume, Ok, AllCarry, Carries;
    if i < k {
      SizeUpTo(bios, i + 1, k);
    } else {
      AdvanceFields(bios[k], n - Size(bios[..k]), e);
      hide Advance;
      if i > k {
        SizeNext(bios, k);
        SizeUpTo(bios, k + 1, i);
        LeftPlace(bios, left, n, k, i);
      } else {
        assert left[..0] == [];
      }
    }
  }

  /** Over any calls that complete it, a bio is ended with the verdict on the calls that touched it. */
  lemma {:induction false} EndedWith(rq: Request, calls: seq<Call>, i: nat)
    requires Ok(rq) && !rq.flushSeq && i < |rq.bios| && 0 < Size(rq.bios[..i]) + rq.bios[i].size <= Total(calls)
    ensures var (from, to) := (Size(rq.bios[..i]), Size(rq.bios[..i]) + rq.bios[i].size);
            var r := After(rq, calls);
            && |rq.ended| + i < |r.ended|
            && r.ended[|rq.ended| + i] ==
               End(rq.bios[i].id, Verdict(rq.bios[i].uptodate && Good(calls, from, to), LastError(calls, to)))
    decreases |calls|
  {
    hide Ok, Update, Size;
    var e, n, rest := calls[0].error, calls[0].bytes, calls[1..];
    var (from, to) := (Size(rq.bios[..i]), Size(rq.bios[..i]) + rq.bios[i].size);
    var k := CallEnds(rq, e, n, i);
    var r := Update(rq, e, n).0;
    if to <= n {
      EndedGrows(r, rest);
      GoodDone(rest, from - n, to - n);
      BioFilled(rq, i);
    } else {
      EndedWith(r, rest, i - k);
      if from < n { GoodBegun(rest, from - n, 0, to - n); }
    }
  }

  lemma BioFilled(rq: Request, i: nat)
    requires Ok(rq) && i < |rq.bios|
    ensures rq.bios[i].size > 0
  {
    assert Carries(rq.bios[i]);
  }

  /**
    Over any sequence of calls: a bio is ended, at its place, once all its bytes are done. It is ended without error if
    and only if it started uptodate and every call that completed one of its bytes had no error; otherwise its error
    is that of the call that completed its last byte, or EIO if that call had none.
  */
  lemma EndedHonestly(rq: Request, calls: seq<Call>, i: nat, c: nat)
    requires Ok(rq) && !rq.flushSeq && i < |rq.bios| && c < |calls|
    requires Size(rq.bios[..i]) + rq.bios[i].size <= Total(calls) && Finishes(calls, c, Size(rq.bios[..i]) + rq.bios[i].size)
    ensures var (from, to) := (Size(rq.bios[..i]), Size(rq.bios[..i]) + rq.bios[i].size);
            var r := After(rq, calls);
            && |rq.ended| + i < |r.ended| && r.ended[|rq.ended| + i].id == rq.bios[i].id
            && var err := r.ended[|rq.ended| + i].error;
               && (err == 0 <==> rq.bios[i].uptodate && forall d: nat :: d < |calls| && Touches(calls, d, from, to) ==> calls[d].error == 0)
               && (err != 0 ==> err == if calls[c].error != 0 then calls[c].error else 5)
  {
    hide Ok, After;
    var (from, to) := (Size(rq.bios[..i]), Size(rq.bios[..i]) + rq.bios[i].size);
    EndedWith(rq, calls, i);
    LastErrorIs(calls, c, to);
    GoodIs(calls, from, to);
    BioFilled(rq, i);
    assert Touches(calls, c, from, to);
  }
}
