/**
  deadline_data of block/deadline-iosched.c as it is updated in place.
*/
module DeadlineScheduler {
  import opened Lists
  import opened Deadline
  import opened DeadlineIndices
  import X = DeadlineExpiry

  lemma DispatchIs(t: Tuning, s: State)
    requires Inv(t, s)
    ensures Batch(t, s).Some? ==>
              var x := Batch(t, s).value;
              x in s.rqs && Dispatch(t, s) == (MoveRequest(s.(batching := s.batching + 1), x), true)
    ensures Batch(t, s).None? && Choose(t, s).None? ==> Dispatch(t, s) == (s, false)
    ensures Batch(t, s).None? && Choose(t, s).Some? ==>
              var (d, starved) := Choose(t, s).value;
              && s.Of(d).fifo != [] && First(s, d) in s.rqs
              && Dispatch(t, s) == (MoveRequest(s.(batching := 1, starved := starved), First(s, d)), true)
  {
    hide MoveRequest, Inv;
    SideQueued(t, s, Read);
    SideQueued(t, s, Write);
  }

  class Scheduler {
    const tuning: Tuning
    var rqs: map<nat, Request>
    var rd: Side
    var wr: Side
    var batching: nat
    var starved: nat
    var lastSector: nat
    var nrSorted: int
    var out: seq<nat>
    var now: nat
    var bug: bool

    constructor (tuning: Tuning)
      ensures this.tuning == tuning && St() == INIT && Inv(tuning, St())
    {
      this.tuning := tuning;
      rqs, rd, wr := map[], Side([], [], None), Side([], [], None);
      batching, starved, lastSector, nrSorted, out, now, bug := 0, 0, 0, 0, [], 0, false;
    }

    function St(): State reads this {
      State(rqs, rd, wr, batching, starved, lastSector, nrSorted, out, now, bug)
    }

    function Of(d: Dir): Side reads this { if d == Read then rd else wr }

    method SetSide(d: Dir, side: Side)
      modifies `rd, `wr
      ensures St() == old(St()).With(d, side)
    {
      if d == Read { rd := side; } else { wr := side; }
    }

    /** elv_rb_add: a search from the front stands for the descent of the tree. */
    method RbInsert(sort: seq<nat>, x: nat) returns (r: seq<nat>)
      ensures r == RbAdd(rqs, sort, x)
    {
      var k := 0;
      var p := Pos(rqs, x);
      assert sort[0..] == sort;
      while k < |sort| && p >= Pos(rqs, sort[k])
        invariant k <= |sort| && Place(rqs, sort, p) == k + Place(rqs, sort[k..], p)
      {
        assert sort[k..][1..] == sort[k + 1..];
        k := k + 1;
      }
      r := sort[..k] + [x] + sort[k..];
    }

    /** elv_rb_find, a search by halves standing for the descent of the tree: exact, as the list is in order. */
    method RbFind(d: Dir, sector: nat) returns (x: Option<nat>)
      requires BySector(rqs, Of(d).sort)
      ensures x.Some? ==> x.value in Of(d).sort && Pos(rqs, x.value) == sector
      ensures x.None? ==> forall y :: y in Of(d).sort ==> Pos(rqs, y) != sector
    {
      hide Pos;
      var sort := Of(d).sort;
      var lo, hi := 0, |sort|;
      while lo < hi
        invariant 0 <= lo <= hi <= |sort|
        invariant forall i :: 0 <= i < lo ==> Pos(rqs, sort[i]) < sector
        invariant forall i :: hi <= i < |sort| ==> sector < Pos(rqs, sort[i])
      {
        var mid := (lo + hi) / 2;
        var p := Pos(rqs, sort[mid]);
        if sector < p {
          hi := mid;
        } else if sector > p {
          lo := mid + 1;
        } else {
          return Some(sort[mid]);
        }
      }
      x := None;
    }

    /** deadline_remove_request. */
    method RemoveRequest(x: nat, d: Dir)
      modifies `rd, `wr
      ensures St() == old(St()).With(d, RemoveFrom(old(Of(d)), x))
    {
      var side := Of(d);
      side := side.(fifo := Remove(side.fifo, x));
      if side.next == Some(x) {
        side := side.(next := Latter(side.sort, x));
      }
      side := side.(sort := Remove(side.sort, x));
      SetSide(d, side);
    }

    /** Insertion of a new request. */
    method AddRequest(x: nat, pos: nat, sectors: nat, d: Dir)
      requires Inv(tuning, St()) && Enabled(St(), Action.AddRequest(x, pos, sectors, d))
      modifies this
      ensures St() == Add(tuning, old(St()), x, pos, sectors, d)
      ensures Inv(tuning, St())
    {
      hide Inv, RbAdd;
      AddKeeps(tuning, St(), x, pos, sectors, d);
      nrSorted := nrSorted + 1;
      rqs := rqs[x := Request(pos, sectors, d, now + tuning.Expire(d))];
      var side := Of(d);
      var sort := RbInsert(side.sort, x);
      SetSide(d, side.(sort := sort, fifo := side.fifo + [x]));
    }

    /** A front merge by n sectors, and deadline_merged_request. */
    method MergedRequest(x: nat, n: nat)
      requires Inv(tuning, St()) && Enabled(St(), MergeFront(x, n))
      modifies this
      ensures St() == FrontMerge(old(St()), x, n)
      ensures Inv(tuning, St())
    {
      hide Inv, RbAdd, Remove;
      FrontKeeps(tuning, St(), x, n);
      var rq := rqs[x];
      rqs := rqs[x := rq.(pos := rq.pos - n, sectors := rq.sectors + n)];
      var side := Of(rq.dir);
      var sort := RbInsert(Remove(side.sort, x), x);
      SetSide(rq.dir, side.(sort := sort));
    }

    /** The merge of y into x, and deadline_merged_requests. */
    method MergedRequests(x: nat, y: nat)
      requires Inv(tuning, St()) && Enabled(St(), MergeNext(x, y))
      modifies this
      ensures St() == MergeRequests(old(St()), x, y)
      ensures Inv(tuning, St())
    {
      hide Inv, RemoveFrom, MoveBehind;
      MergeKeeps(tuning, St(), x, y);
      var d := rqs[y].dir;
      var expire := rqs[x].expire;
      var sectors := rqs[y].sectors;
      if rqs[y].expire < expire {
        var side := Of(d);
        SetSide(d, side.(fifo := MoveBehind(side.fifo, x, y)));
        expire := rqs[y].expire;
      }
      rqs := rqs[x := rqs[x].(sectors := rqs[x].sectors + sectors, expire := expire)];
      RemoveRequest(y, d);
      rqs := rqs - {y};
      nrSorted := nrSorted - 1;
    }

    /** deadline_move_request. */
    method MoveToDispatch(x: nat)
      requires x in rqs
      modifies this
      ensures St() == MoveRequest(old(St()), x)
    {
      hide RemoveFrom;
      var d := rqs[x].dir;
      rd := rd.(next := None);
      wr := wr.(next := None);
      SetSide(d, Of(d).(next := Latter(Of(d).sort, x)));
      lastSector := rqs[x].pos + rqs[x].sectors;
      RemoveRequest(x, d);
      nrSorted := nrSorted - 1;
      out := out + [x];
    }

    /** The choice of direction in deadline_dispatch_requests; `starved` counts reads let past a write. */
    method ChooseDirection() returns (some: bool, d: Dir)
      modifies `starved
      ensures some <==> old(Choose(tuning, St())).Some?
      ensures some ==> old(Choose(tuning, St())) == Option.Some((d, starved))
      ensures !some ==> starved == old(starved)
    {
      some, d := true, Write;
      if rd.fifo != [] {
        if wr.fifo == [] {
          d := Read;
        } else {
          if starved < tuning.writesStarved { d := Read; }
          starved := starved + 1;
        }
      } else if wr.fifo == [] {
        some := false;
      }
      if some && d == Write { starved := 0; }
    }

    /** deadline_dispatch_requests. */
    method DispatchRequests() returns (some: bool)
      requires Inv(tuning, St())
      modifies this
      ensures (St(), some) == Dispatch(tuning, old(St()))
      ensures Inv(tuning, St()) && (some <==> old(nrSorted) > 0)
      ensures nrSorted == old(nrSorted) - if some then 1 else 0
      ensures X.Serves(tuning, old(St()), St(), some)
    {
      hide Inv, MoveRequest, Choose, Dispatch, X.Running, X.Serves;
      X.DispatchServes(tuning, St());
      DispatchKeeps(tuning, St());
      DispatchIs(tuning, St());
      var pending := if wr.next.Some? then wr.next else rd.next;
      if pending.Some? && batching < tuning.fifoBatch {
        batching := batching + 1;
        MoveToDispatch(pending.value);
        return true;
      }
      var d;
      some, d := ChooseDirection();
      if some {
        var side := Of(d);
        var x := if now > Expiry(rqs, side.fifo[0]) || side.next.None? then side.fifo[0] else side.next.value;
        batching := 1;
        MoveToDispatch(x);
      }
    }

    /** elv_drain_elevator: ends, with nothing queued. */
    method DrainElevator()
      requires Inv(tuning, St())
      modifies this
      ensures Inv(tuning, St()) && St() == Drain(tuning, old(St()))
      ensures rd.sort == wr.sort == rd.fifo == wr.fifo == [] && nrSorted == 0
    {
      DrainEmpties(tuning, St());
      var some := DispatchRequests();
      while some
        invariant Inv(tuning, St())
        invariant Drain(tuning, old(St())) == if some then Drain(tuning, St()) else St()
        decreases |rd.sort| + |wr.sort|, some
      {
        some := DispatchRequests();
      }
    }
  }
}
