/**
  The dispatch queue of the elevator (elv_dispatch_sort in block/elevator.c and
  the boundary update of blk_peek_request in block/blk-core.c): requests are
  served in one-way order from the position of the head.
*/
module ElevatorOrder {
  import opened Lists

  datatype Request = Request(id: nat, pos: nat, sectors: nat, write: bool, discard: bool, barrier: bool, started: bool) {
    function End(): nat { pos + sectors }
  }

  /** queue_head, end_sector and boundary_rq. */
  datatype State = State(queue: seq<Request>, endSector: nat, boundary: Option<nat>)

  const INIT := State([], 0, None)

  // ------------------------------------------------------------- operations

  /** Whether the backward scan for a place for rq ends at p. */
  predicate Stops(endSector: nat, rq: Request, p: Request) {
    || rq.discard != p.discard || rq.write != p.write
    || p.barrier || p.started
    || (if rq.pos >= endSector then p.pos >= endSector && rq.pos >= p.pos
        else p.pos >= endSector || rq.pos >= p.pos)
  }

  /** The place of rq: behind the last request the scan ends at. */
  function Slot(queue: seq<Request>, endSector: nat, rq: Request): (k: nat)
    ensures k <= |queue|
  {
    if queue == [] || Stops(endSector, rq, queue[|queue| - 1]) then |queue|
    else Slot(queue[..|queue| - 1], endSector, rq)
  }

  /** elv_dispatch_sort. */
  function DispatchSort(s: State, rq: Request): State {
    var k := Slot(s.queue, s.endSector, rq);
    s.(queue := s.queue[..k] + [rq] + s.queue[k..])
  }

  /** blk_peek_request on the head: it is marked started, and the boundary follows it. */
  function Peek(s: State): State {
    if s.queue == [] then s
    else
      var rq := s.queue[0];
      var q := s.queue[0 := rq.(started := true)];
      if s.boundary.None? || s.boundary == Some(rq.id) then State(q, rq.End(), None) else s.(queue := q)
  }

  /** blk_start_request takes the peeked head off. */
  function Start(s: State): State {
    if s.queue == [] then s else s.(queue := s.queue[1..])
  }

  // -------------------------------------------------------------- the order

  /** One-way order: first at or past e, ascending; then before e, ascending. */
  predicate Leq(e: nat, a: nat, b: nat) {
    if a >= e then (b >= e ==> a <= b) else b < e && a <= b
  }

  ghost predicate Sorted(q: seq<Request>, e: nat) {
    forall i, j :: 0 <= i < j < |q| ==> Leq(e, q[i].pos, q[j].pos)
  }

  /** Requests that a sorted insertion of rq may pass. */
  predicate Passable(rq: Request, p: Request) {
    rq.discard == p.discard && rq.write == p.write && !p.barrier && !p.started
  }

  lemma StopsIs(e: nat, rq: Request, p: Request)
    ensures Stops(e, rq, p) <==> !Passable(rq, p) || Leq(e, p.pos, rq.pos)
  {}

  /** The scan passes just the requests behind the last one it must not pass. */
  lemma {:induction false} SlotSplits(q: seq<Request>, e: nat, rq: Request)
    ensures var k := Slot(q, e, rq);
            && (forall i :: k <= i < |q| ==> !Stops(e, rq, q[i]))
            && (k > 0 ==> Stops(e, rq, q[k - 1]))
  {
    if q != [] && !Stops(e, rq, q[|q| - 1]) {
      var r := q[..|q| - 1];
      SlotSplits(r, e, rq);
      assert forall i :: 0 <= i < |r| ==> r[i] == q[i];
    }
  }

  /** A request is never put before one of another kind, a barrier or one that has been started. */
  lemma {:induction false} NeverPasses(q: seq<Request>, e: nat, rq: Request, i: nat)
    requires i < |q| && (q[i].barrier || q[i].started || q[i].discard != rq.discard || q[i].write != rq.write)
    ensures i < Slot(q, e, rq)
  {
    SlotSplits(q, e, rq);
    hide Slot;
  }

  /** Everything passed comes after rq, and the rest of the tail before it. */
  lemma SlotInTail(q: seq<Request>, e: nat, rq: Request, t: nat)
    requires t <= |q| && Sorted(q[t..], e)
    requires t > 0 ==> !Passable(rq, q[t - 1])
    requires forall i :: t <= i < |q| ==> Passable(rq, q[i])
    ensures var k := Slot(q, e, rq);
            && t <= k
            && (forall i :: t <= i < k ==> Leq(e, q[i].pos, rq.pos))
            && (forall i :: k <= i < |q| ==> Leq(e, rq.pos, q[i].pos))
  {
    var k := Slot(q, e, rq);
    SlotSplits(q, e, rq);
    hide Slot, Stops;
    if t > 0 { StopsIs(e, rq, q[t - 1]); }
    if k > t {
      StopsIs(e, rq, q[k - 1]);
      forall i | t <= i < k ensures Leq(e, q[i].pos, rq.pos) {
        assert q[t..][i - t] == q[i] && q[t..][k - 1 - t] == q[k - 1];
      }
    }
    forall i | k <= i < |q| ensures Leq(e, rq.pos, q[i].pos) {
      StopsIs(e, rq, q[i]);
    }
  }

  lemma Parts(q: seq<Request>, rq: Request, t: nat, k: nat)
    requires t <= k <= |q|
    ensures q[t..] == q[t..k] + q[k..]
    ensures var r := q[..k] + [rq] + q[k..];
            r[..t] == q[..t] && r[t..] == q[t..k] + [rq] + q[k..] && multiset(r) == multiset(q) + multiset{rq}
  {
    assert q == q[..k] + q[k..];
    assert q[..k] == q[..t] + q[t..k];
  }

  /**
    In any queue: what may be passed at the tail, if it is in order, stays in order with rq among it,
    and nothing before it moves.
  */
  lemma InsertInOrder(s: State, rq: Request, t: nat)
    requires t <= |s.queue| && Sorted(s.queue[t..], s.endSector)
    requires t > 0 ==> !Passable(rq, s.queue[t - 1])
    requires forall i :: t <= i < |s.queue| ==> Passable(rq, s.queue[i])
    ensures var q' := DispatchSort(s, rq).queue;
            |q'| == |s.queue| + 1 && q'[..t] == s.queue[..t] && Sorted(q'[t..], s.endSector)
    ensures multiset(DispatchSort(s, rq).queue) == multiset(s.queue) + multiset{rq}
  {
    SlotInTail(s.queue, s.endSector, rq, t);
    hide Slot, Leq;
    var k := Slot(s.queue, s.endSector, rq);
    Parts(s.queue, rq, t, k);
    SortedInsert(s.queue[t..k], s.queue[k..], s.endSector, rq);
  }

  lemma SortedInsert(a: seq<Request>, b: seq<Request>, e: nat, rq: Request)
    requires Sorted(a + b, e)
    requires forall i :: 0 <= i < |a| ==> Leq(e, a[i].pos, rq.pos)
    requires forall i :: 0 <= i < |b| ==> Leq(e, rq.pos, b[i].pos)
    ensures Sorted(a + [rq] + b, e)
  {
    var r := a + [rq] + b;
    forall i, j | 0 <= i < j < |r| ensures Leq(e, r[i].pos, r[j].pos) {
      if i != |a| && j != |a| {
        var i', j' := if i < |a| then i else i - 1, if j < |a| then j else j - 1;
        assert r[i] == (a + b)[i'] && r[j] == (a + b)[j'];
      }
    }
  }

  // ---------------------------------------------------------- a moving head

  predicate Apart(a: Request, b: Request) { a.End() <= b.pos || b.End() <= a.pos }

  /** The queued requests of a state: behind the head, if it has been peeked. */
  function Unstarted(s: State): seq<Request> {
    if s.queue != [] && s.queue[0].started then s.queue[1..] else s.queue
  }

  predicate Plain(rq: Request, write: bool) {
    rq.write == write && !rq.discard && !rq.barrier && rq.sectors > 0
  }

  ghost predicate AllPlain(q: seq<Request>, write: bool) {
    && (forall i :: 0 <= i < |q| ==> Plain(q[i], write))
    && (forall i :: 1 <= i < |q| ==> !q[i].started)
  }

  ghost predicate AllApart(q: seq<Request>) {
    forall i, j :: 0 <= i < j < |q| ==> Apart(q[i], q[j])
  }

  /** One direction, no barriers, only the head ever started, no two requests overlap; and in one-way order. */
  ghost predicate Inv(s: State, write: bool) {
    && s.boundary.None? && AllPlain(s.queue, write) && AllApart(s.queue)
    && (s.queue != [] && s.queue[0].started ==> s.endSector == s.queue[0].End())
    && Sorted(Unstarted(s), s.endSector)
  }

  datatype Action = Insert(rq: Request) | PeekHead | StartHead

  predicate Enabled(s: State, write: bool, a: Action) {
    match a
    case Insert(rq) =>
      && Plain(rq, write) && !rq.started
      && (forall i :: 0 <= i < |s.queue| ==> Apart(s.queue[i], rq))
    case PeekHead => true
    case StartHead => s.queue != [] && s.queue[0].started
  }

  function Next(s: State, a: Action): State {
    match a
    case Insert(rq) => DispatchSort(s, rq)
    case PeekHead => Peek(s)
    case StartHead => Start(s)
  }

  /** A started head stays the head, and no other request becomes one. */
  lemma InsertHead(q: seq<Request>, rq: Request, k: nat)
    requires k <= |q| && !rq.started && (q != [] && q[0].started ==> k > 0)
    ensures var r := q[..k] + [rq] + q[k..];
            && (r[0].started <==> q != [] && q[0].started)
            && (r[0].started ==> r[0] == q[0] && r[1..] == q[1..k] + [rq] + q[k..])
  {}

  /** What is behind a started head, or the whole queue, takes rq in order. */
  lemma InsertBehind(s: State, write: bool, rq: Request)
    requires AllPlain(s.queue, write) && Plain(rq, write) && Sorted(Unstarted(s), s.endSector)
    ensures var t := if s.queue != [] && s.queue[0].started then 1 else 0;
            t <= Slot(s.queue, s.endSector, rq) && Sorted(DispatchSort(s, rq).queue[t..], s.endSector)
  {
    hide Slot, Sorted, Leq;
    var t := if s.queue != [] && s.queue[0].started then 1 else 0;
    assert Unstarted(s) == s.queue[t..];
    InsertInOrder(s, rq, t);
    SlotInTail(s.queue, s.endSector, rq, t);
  }

  lemma InsertKeeps(s: State, write: bool, rq: Request)
    requires Inv(s, write) && Enabled(s, write, Insert(rq))
    ensures Inv(DispatchSort(s, rq), write)
  {
    hide Slot, Sorted, Leq, AllPlain, AllApart, Apart, Plain;
    var q, k := s.queue, Slot(s.queue, s.endSector, rq);
    InsertBehind(s, write, rq);
    InsertPlain(q, write, rq, k);
    InsertApart(q, rq, k);
    InsertHead(q, rq, k);
    var r := DispatchSort(s, rq).queue;
    assert r[0..] == r;
  }

  lemma InsertPlain(q: seq<Request>, write: bool, rq: Request, k: nat)
    requires k <= |q| && AllPlain(q, write) && Plain(rq, write) && !rq.started && (q != [] && q[0].started ==> k > 0)
    ensures AllPlain(q[..k] + [rq] + q[k..], write)
  {
    var r := q[..k] + [rq] + q[k..];
    forall i | 0 <= i < |r| ensures Plain(r[i], write) && (i > 0 ==> !r[i].started) {
      assert r[i] == if i < k then q[i] else if i == k then rq else q[i - 1];
    }
  }

  lemma InsertApart(q: seq<Request>, rq: Request, k: nat)
    requires k <= |q| && AllApart(q) && forall i :: 0 <= i < |q| ==> Apart(q[i], rq)
    ensures AllApart(q[..k] + [rq] + q[k..])
  {
    var r := q[..k] + [rq] + q[k..];
    forall i, j | 0 <= i < j < |r| ensures Apart(r[i], r[j]) {
      if i != k && j != k {
        var i', j' := if i < k then i else i - 1, if j < k then j else j - 1;
        assert r[i] == q[i'] && r[j] == q[j'];
      }
    }
  }

  lemma SortedPair(q: seq<Request>, e: nat, i: nat, j: nat)
    requires Sorted(q, e) && i < |q| && j < |q|
    ensures (i < j ==> Leq(e, q[i].pos, q[j].pos)) && (j < i ==> Leq(e, q[j].pos, q[i].pos))
  {}

  predicate Inside(h: Request, r: Request) { h.pos <= r.pos < h.End() }

  /** Moving the boundary to the end of the head keeps the order just when none, or all, of the rest start inside it. */
  lemma OrderFollows(q: seq<Request>, e: nat)
    requires q != [] && Sorted(q, e)
    ensures Sorted(q[1..], q[0].End()) <==>
            (forall i :: 1 <= i < |q| ==> !Inside(q[0], q[i])) || (forall i :: 1 <= i < |q| ==> Inside(q[0], q[i]))
  {
    var h, r := q[0], q[1..];
    if i, j :| 1 <= i < |q| && 1 <= j < |q| && Inside(h, q[i]) && !Inside(h, q[j]) {
      assert Leq(e, h.pos, q[i].pos) && Leq(e, h.pos, q[j].pos);
      SortedPair(q, e, i, j);
      assert Leq(e, q[i].pos, q[j].pos);
      assert !Leq(h.End(), r[i - 1].pos, r[j - 1].pos);
    } else {
      forall i, j | 0 <= i < j < |r| ensures Leq(h.End(), r[i].pos, r[j].pos) {
        assert Leq(e, h.pos, q[i + 1].pos) && Leq(e, h.pos, q[j + 1].pos) && Leq(e, q[i + 1].pos, q[j + 1].pos);
        assert Inside(h, q[i + 1]) <==> Inside(h, q[j + 1]);
      }
    }
  }

  lemma ApartNotInside(q: seq<Request>)
    requires q != [] && AllApart(q) && forall j :: 0 <= j < |q| ==> q[j].sectors > 0
    ensures forall i :: 1 <= i < |q| ==> !Inside(q[0], q[i])
  {
    forall i | 1 <= i < |q| ensures !Inside(q[0], q[i]) { assert Apart(q[0], q[i]); }
  }

  /** The boundary update at the head keeps the order of the requests behind it. */
  lemma PeekKeeps(s: State, write: bool)
    requires Inv(s, write)
    ensures Inv(Peek(s), write)
  {
    if s.queue != [] {
      var s' := Peek(s);
      assert AllApart(s'.queue) by {
        forall i, j | 0 <= i < j < |s'.queue| ensures Apart(s'.queue[i], s'.queue[j]) {
          assert Apart(s.queue[i], s.queue[j]);
        }
      }
      if !s.queue[0].started {
        OrderFollows(s.queue, s.endSector);
        ApartNotInside(s.queue);
      }
      hide AllApart, Sorted;
      assert s'.queue[1..] == s.queue[1..];
    }
  }

  lemma StartKeeps(s: State, write: bool)
    requires Inv(s, write) && Enabled(s, write, StartHead)
    ensures Inv(Start(s), write)
  {
    var r := s.queue[1..];
    assert forall i :: 0 <= i < |r| ==> r[i] == s.queue[i + 1];
  }

  predicate Legal(s: State, write: bool, run: seq<Action>)
    decreases |run|
  {
    run == [] || (Enabled(s, write, run[0]) && Legal(Next(s, run[0]), write, run[1..]))
  }

  function After(s: State, run: seq<Action>): State
    decreases |run|
  {
    if run == [] then s else After(Next(s, run[0]), run[1..])
  }

  lemma {:induction false} RunKeeps(s: State, write: bool, run: seq<Action>)
    requires Inv(s, write) && Legal(s, write, run)
    ensures Inv(After(s, run), write)
    decreases |run|
  {
    if run != [] {
      match run[0] {
        case Insert(rq) => InsertKeeps(s, write, rq);
        case PeekHead => PeekKeeps(s, write);
        case StartHead => StartKeeps(s, write);
      }
      hide Inv, Next;
      RunKeeps(Next(s, run[0]), write, run[1..]);
    }
  }

  /**
    Requests of one direction that do not overlap, inserted, peeked at and started in any order: those
    not yet started are always in one-way order from where the head last was.
  */
  lemma OneWayOrder(write: bool, run: seq<Action>)
    requires Legal(INIT, write, run)
    ensures var s := After(INIT, run);
            Sorted(Unstarted(s), s.endSector) && (s.queue != [] && s.queue[0].started ==> s.endSector == s.queue[0].pos + s.queue[0].sectors)
  {
    RunKeeps(INIT, write, run);
  }

  /** An overlapping run for which the order is lost: a request inside the head is queued before one past it. */
  lemma OverlapBreaksOrder()
    ensures var a := Request(0, 10, 8, false, false, false, false);
            var b := Request(1, 12, 2, false, false, false, false);
            var c := Request(2, 20, 2, false, false, false, false);
            var s := After(INIT, [Insert(a), Insert(b), Insert(c), PeekHead]);
            !Sorted(Unstarted(s), s.endSector)
  {
    var a := Request(0, 10, 8, false, false, false, false);
    var b := Request(1, 12, 2, false, false, false, false);
    var c := Request(2, 20, 2, false, false, false, false);
    var s1 := DispatchSort(INIT, a);
    assert s1.queue == [a];
    var s2 := DispatchSort(s1, b);
    assert s2.queue == [a, b];
    var s3 := DispatchSort(s2, c);
    assert s3.queue == [a, b, c];
    var s4 := Peek(s3);
    assert Unstarted(s4) == [b, c] && s4.endSector == 18;
    assert !Leq(18, Unstarted(s4)[0].pos, Unstarted(s4)[1].pos);
    var run := [Insert(a), Insert(b), Insert(c), PeekHead];
    assert run[1..] == [Insert(b), Insert(c), PeekHead] && run[1..][1..] == [Insert(c), PeekHead];
    assert run[1..][1..][1..] == [PeekHead] && run[1..][1..][1..][1..] == [];
    assert After(s1, run[1..]) == After(s2, run[1..][1..]) == After(s3, run[1..][1..][1..]) == s4;
  }

  // ---------------------------------------------------------------- in place

  class DispatchQueue {
    var queue: seq<Request>
    var endSector: nat
    var boundary: Option<nat>

    constructor ()
      ensures St() == INIT
    {
      queue, endSector, boundary := [], 0, None;
    }

    function St(): State reads this { State(queue, endSector, boundary) }

    /** elv_dispatch_sort: the backward scan. */
    method SortedInsertion(rq: Request)
      modifies this
      ensures St() == DispatchSort(old(St()), rq)
    {
      hide Stops;
      var k := |queue|;
      assert queue[..k] == queue;
      while k > 0 && !Stops(endSector, rq, queue[k - 1])
        invariant k <= |queue| && St() == old(St())
        invariant Slot(queue, endSector, rq) == Slot(queue[..k], endSector, rq)
      {
        assert queue[..k][..k - 1] == queue[..k - 1];
        k := k - 1;
      }
      queue := queue[..k] + [rq] + queue[k..];
    }

    /** blk_peek_request, up to driver preparation. */
    method PeekRequest() returns (rq: Option<Request>)
      modifies this
      ensures St() == Peek(old(St()))
      ensures rq == if queue == [] then None else Some(queue[0])
    {
      if queue == [] {
        return None;
      }
      var head := queue[0];
      if !head.started {
        head := head.(started := true);
        queue := queue[0 := head];
      }
      if boundary.None? || boundary == Some(head.id) {
        endSector := head.End();
        boundary := None;
      }
      rq := Some(head);
    }

    /** blk_dequeue_request of the head. */
    method DequeueRequest()
      requires queue != []
      modifies `queue
      ensures St() == Start(old(St()))
    {
      queue := queue[1..];
    }
  }
}
