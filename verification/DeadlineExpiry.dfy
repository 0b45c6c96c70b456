/**
  What expiry and batching are for in the deadline scheduler
  (block/deadline-iosched.c): a request that is the oldest of its direction and
  past its deadline is next, and a batch goes up the disk.
*/
module DeadlineExpiry {
  import opened Lists
  import opened Deadline
  import opened DeadlineIndices

  // -------------------------------------------------------- one dispatch

  /** The request a dispatch puts on the dispatch queue, if any. */
  function Taken(t: Tuning, s: State): Option<nat> {
    var out := Dispatch(t, s).0.out;
    if |out| == |s.out| + 1 then Some(out[|s.out|]) else None
  }

  /** A batch is running and may go on. */
  predicate Running(t: Tuning, s: State) {
    s.batching < t.fifoBatch && (s.rd.next.Some? || s.wr.next.Some?)
  }

  lemma MoveOut(s: State, x: nat)
    requires x in s.rqs && Distinct(s.Of(s.rqs[x].dir).sort)
    ensures var (s', d) := (MoveRequest(s, x), s.rqs[x].dir);
            && s'.out == s.out + [x] && s'.rqs == s.rqs && s'.batching == s.batching && s'.now == s.now
            && s'.Of(d).next == Latter(s.Of(d).sort, x) && s'.Of(d).sort == Remove(s.Of(d).sort, x)
            && s'.Of(d).fifo == Remove(s.Of(d).fifo, x)
            && (forall e: Dir :: e != d ==> s'.Of(e).next.None? && s'.Of(e).fifo == s.Of(e).fifo)
  {
    LatterIn(s.Of(s.rqs[x].dir).sort, x);
    hide Remove, Latter;
  }

  lemma DirSorted(t: Tuning, s: State, d: Dir)
    requires Inv(t, s)
    ensures Distinct(s.Of(d).sort) && BySector(s.rqs, s.Of(d).sort) && Distinct(s.Of(d).fifo) && ByExpiry(s.rqs, s.Of(d).fifo)
    ensures forall x :: x in s.Of(d).sort ==> x in s.rqs && s.rqs[x].dir == d
    ensures forall x :: x in s.Of(d).fifo <==> x in s.Of(d).sort
    ensures s.Of(d).next.Some? ==> s.Of(d).next.value in s.Of(d).sort
  {
    assert SideOk(s.rqs, d, s.Of(d), s.now + t.Expire(d));
  }

  /** What is known of a state and the one a dispatch that takes x leaves. */
  ghost predicate Goes(s: State, s': State, x: nat) {
    && x in s.rqs && s'.rqs == s.rqs && s'.out == s.out + [x] && s'.now == s.now
    && var d := s.rqs[x].dir;
       && x in s.Of(d).sort && s'.Of(d).next == Latter(s.Of(d).sort, x)
       && s'.Of(d).sort == Remove(s.Of(d).sort, x) && s'.Of(d).fifo == Remove(s.Of(d).fifo, x)
       && (forall e: Dir :: e != d ==> s'.Of(e).next.None? && s'.Of(e).fifo == s.Of(e).fifo)
  }

  lemma GoesIs(t: Tuning, s: State, s1: State, x: nat)
    requires Inv(t, s) && s1 == s.(batching := s1.batching, starved := s1.starved) && Queued(s, x)
    ensures Goes(s, MoveRequest(s1, x), x) && MoveRequest(s1, x).batching == s1.batching
  {
    DirSorted(t, s, s.rqs[x].dir);
    hide Inv, Remove, Latter, MoveRequest;
    MoveOut(s1, x);
  }

  /** A running batch goes on with next_rq. */
  lemma BatchGoes(t: Tuning, s: State)
    requires Inv(t, s) && Running(t, s)
    ensures var s' := Dispatch(t, s).0;
            exists d: Dir :: s.Of(d).next.Some? && Goes(s, s', s.Of(d).next.value) && s'.batching == s.batching + 1
                             && Taken(t, s) == s.Of(d).next && s.rqs[s.Of(d).next.value].dir == d
  {
    var d := if s.wr.next.Some? then Write else Read;
    SideQueued(t, s, d);
    DirSorted(t, s, d);
    GoesIs(t, s, s.(batching := s.batching + 1), s.Of(d).next.value);
    hide Inv, MoveRequest, Goes;
    assert s.Of(d).next.Some?;
  }

  /** Otherwise a new batch begins, if there is anything to dispatch. */
  lemma NewGoes(t: Tuning, s: State)
    requires Inv(t, s) && !Running(t, s) && (s.rd.fifo != [] || s.wr.fifo != [])
    ensures var s' := Dispatch(t, s).0;
            exists d: Dir :: s.Of(d).fifo != [] && Goes(s, s', First(s, d)) && s'.batching == 1
                             && Taken(t, s) == Some(First(s, d)) && s.rqs[First(s, d)].dir == d
  {
    var (d, starved) := Choose(t, s).value;
    SideQueued(t, s, d);
    DirSorted(t, s, d);
    GoesIs(t, s, s.(batching := 1, starved := starved), First(s, d));
    hide Inv, MoveRequest, Goes;
    assert s.Of(d).fifo != [];
  }

  lemma ChosenQueued(t: Tuning, s: State)
    requires Inv(t, s) && Choose(t, s).Some?
    ensures var d := Choose(t, s).value.0;
            s.Of(d).fifo != [] && s.Of(d).sort != [] && First(s, d) in s.rqs && s.rqs[First(s, d)].dir == d
  {
    var d := Choose(t, s).value.0;
    SideQueued(t, s, d);
    DirSorted(t, s, d);
    hide Inv;
  }

  lemma NewIs(t: Tuning, s: State)
    requires Inv(t, s) && !Running(t, s) && Choose(t, s).Some?
    ensures var (d, starved) := Choose(t, s).value;
            && First(s, d) in s.rqs && s.rqs[First(s, d)].dir == d && Taken(t, s) == Some(First(s, d))
            && Dispatch(t, s).0.starved == starved
            && Dispatch(t, s).0.lastSector == s.rqs[First(s, d)].pos + s.rqs[First(s, d)].sectors
  {
    ChosenQueued(t, s);
    hide Inv, Choose, First, MoveRequest;
    var (d, starved) := Choose(t, s).value;
    MovedIs(s.(batching := 1, starved := starved), First(s, d));
  }

  /** The direction of a new batch, and the count of batches that passed writes over. */
  lemma DirectionIs(t: Tuning, s: State)
    requires Inv(t, s) && !Running(t, s) && (s.rd.fifo != [] || s.wr.fifo != [])
    ensures var (s', x) := (Dispatch(t, s).0, Taken(t, s));
            && x.Some? && x.value in s.rqs && s'.lastSector == s.rqs[x.value].pos + s.rqs[x.value].sectors
            && (s.rqs[x.value].dir == Read <==> s.rd.fifo != [] && (s.wr.fifo == [] || s.starved < t.writesStarved))
            && s'.starved == if s.rqs[x.value].dir == Write then 0 else if s.wr.fifo == [] then s.starved else s.starved + 1
  {
    hide Inv, Dispatch, Taken, First;
    NewIs(t, s);
  }

  /** A running batch leaves that count alone. */
  lemma RunningIs(t: Tuning, s: State)
    requires Inv(t, s) && Running(t, s)
    ensures Dispatch(t, s).0.starved == s.starved
  {
    var d := if s.wr.next.Some? then Write else Read;
    SideQueued(t, s, d);
    DirSorted(t, s, d);
    hide Inv, MoveRequest;
    MovedIs(s.(batching := s.batching + 1), s.Of(d).next.value);
  }

  lemma MovedIs(s: State, x: nat)
    requires x in s.rqs
    ensures var s' := MoveRequest(s, x);
            s'.starved == s.starved && s'.lastSector == s.rqs[x].pos + s.rqs[x].sectors && s'.rqs == s.rqs && s'.out == s.out + [x]
  {}

  lemma NothingGoes(t: Tuning, s: State)
    requires Inv(t, s) && s.rd.fifo == [] && s.wr.fifo == []
    ensures Dispatch(t, s).0 == s && Taken(t, s) == None
  {
    SideQueued(t, s, Read);
    SideQueued(t, s, Write);
    DirSorted(t, s, Read);
    DirSorted(t, s, Write);
  }

  /**
    A dispatch that does not go on with a batch takes the oldest request of the direction it serves, if that is past
    its deadline; else the one that follows the last dispatched, if there is one.
  */
  lemma ExpiredFirst(t: Tuning, s: State)
    requires Inv(t, s) && !Running(t, s)
    ensures var x := Taken(t, s);
            x.Some? ==>
              && x.value in s.rqs && Dispatch(t, s).0.batching == 1
              && var (fifo, next) := (s.Of(s.rqs[x.value].dir).fifo, s.Of(s.rqs[x.value].dir).next);
                 && fifo != [] && fifo[0] in s.rqs
                 && x.value == if s.now > s.rqs[fifo[0]].expire || next.None? then fifo[0] else next.value
  {
    if s.rd.fifo == [] && s.wr.fifo == [] {
      NothingGoes(t, s);
    } else {
      NewGoes(t, s);
      var d: Dir :| s.Of(d).fifo != [] && Taken(t, s) == Some(First(s, d)) && s.rqs[First(s, d)].dir == d && Goes(s, Dispatch(t, s).0, First(s, d)) && Dispatch(t, s).0.batching == 1;
      DirSorted(t, s, d);
      hide Inv, Dispatch;
      assert s.Of(d).fifo[0] in s.Of(d).fifo;
    }
  }

  // --------------------------------------------------------- up the disk

  lemma {:induction false} LatterIs(s: seq<nat>, k: nat)
    requires Distinct(s) && k < |s|
    ensures Latter(s, s[k]) == if k + 1 < |s| then Some(s[k + 1]) else None
  {
    if k > 0 {
      assert s[1..][k - 1] == s[k];
      LatterIs(s[1..], k - 1);
    }
  }

  /**
    After a dispatch next_rq is the request that follows in sector order: none of its direction lies between the two,
    and there is none just when none lies behind.
  */
  lemma BatchAscends(t: Tuning, s: State)
    requires Inv(t, s) && Taken(t, s).Some?
    ensures var (s', x) := (Dispatch(t, s).0, Taken(t, s).value);
            && x in s.rqs
            && var (d, p) := (s.rqs[x].dir, s.rqs[x].pos);
               && (s'.Of(d).next.Some? ==>
                     && s'.Of(d).next.value in s'.Of(d).sort && Pos(s.rqs, s'.Of(d).next.value) >= p
                     && (forall z :: z in s'.Of(d).sort ==> Pos(s.rqs, z) <= p || Pos(s.rqs, z) >= Pos(s.rqs, s'.Of(d).next.value)))
               && (s'.Of(d).next.None? ==> forall z :: z in s'.Of(d).sort ==> Pos(s.rqs, z) <= p)
    ensures Running(t, s) ==> Taken(t, s) == s.rd.next || Taken(t, s) == s.wr.next
  {
    TakenGoes(t, s);
    var x := Taken(t, s).value;
    var d := s.rqs[x].dir;
    DirSorted(t, s, d);
    if Running(t, s) { BatchGoes(t, s); }
    hide Inv, Dispatch, Running;
    NextBehind(s.rqs, s.Of(d).sort, x);
  }

  lemma TakenGoes(t: Tuning, s: State)
    requires Inv(t, s) && Taken(t, s).Some?
    ensures Goes(s, Dispatch(t, s).0, Taken(t, s).value)
  {
    hide Goes;
    if s.rd.fifo == [] && s.wr.fifo == [] {
      NothingGoes(t, s);
    } else if Running(t, s) {
      BatchGoes(t, s);
    } else {
      NewGoes(t, s);
    }
  }

  lemma SomeTaken(t: Tuning, s: State)
    requires Inv(t, s) && Dispatch(t, s).1
    ensures Taken(t, s).Some?
  {
    if s.rd.fifo == [] && s.wr.fifo == [] {
      NothingGoes(t, s);
      DispatchKeeps(t, s);
      SideQueued(t, s, Read);
      SideQueued(t, s, Write);
    } else if Running(t, s) {
      BatchGoes(t, s);
    } else {
      NewGoes(t, s);
    }
  }

  /**
    What a dispatch does, in terms of the lists: one request more on the dispatch queue; in a running batch it is the
    next_rq of either direction, else the oldest of its direction if that is past its deadline or there is no next_rq.
  */
  ghost predicate Serves(t: Tuning, s: State, s': State, some: bool) {
    && (!some ==> s'.out == s.out)
    && (some ==>
          && |s'.out| == |s.out| + 1 && s.out < s'.out
          && var x := s'.out[|s.out|];
             && x in s.rqs && x in s.Of(s.rqs[x].dir).sort
             && s'.batching == (if Running(t, s) then s.batching + 1 else 1)
             && (Running(t, s) ==> s.rd.next == Some(x) || s.wr.next == Some(x))
             && var (fifo, next) := (s.Of(s.rqs[x].dir).fifo, s.Of(s.rqs[x].dir).next);
                && fifo != [] && fifo[0] in s.rqs
                && (!Running(t, s) ==> x == if s.now > s.rqs[fifo[0]].expire || next.None? then fifo[0] else next.value))
  }

  lemma DispatchServes(t: Tuning, s: State)
    requires Inv(t, s)
    ensures Serves(t, s, Dispatch(t, s).0, Dispatch(t, s).1)
  {
    DispatchKeeps(t, s);
    if Dispatch(t, s).1 {
      SomeTaken(t, s);
      TakenGoes(t, s);
      if Running(t, s) { BatchGoes(t, s); } else { ExpiredFirst(t, s); }
      var d := s.rqs[Taken(t, s).value].dir;
      DirSorted(t, s, d);
      hide Inv, Dispatch;
      assert s.Of(d).fifo != [] ==> s.Of(d).fifo[0] in s.Of(d).fifo;
    }
  }

  lemma NextBehind(rqs: map<nat, Request>, s: seq<nat>, x: nat)
    requires Distinct(s) && BySector(rqs, s) && x in s
    ensures var (y, r) := (Latter(s, x), Remove(s, x));
            && (y.Some? ==> y.value in r && Pos(rqs, y.value) >= Pos(rqs, x)
                            && forall z :: z in r ==> Pos(rqs, z) <= Pos(rqs, x) || Pos(rqs, z) >= Pos(rqs, y.value))
            && (y.None? ==> forall z :: z in r ==> Pos(rqs, z) <= Pos(rqs, x))
  {
    hide Remove, Latter, Pos;
    var k := RemoveAt(s, x);
    LatterIs(s, k);
    RemoveMembers(s, k);
    forall z | z in Remove(s, x)
      ensures Pos(rqs, z) <= Pos(rqs, x) || (k + 1 < |s| && Pos(rqs, z) >= Pos(rqs, s[k + 1]))
    {
      var i :| 0 <= i < |s| && s[i] == z;
    }
    if k + 1 < |s| { assert s[k + 1] in s; }
  }

  // ------------------------------------------------------------ every run

  /** Request x is queued, the oldest of direction d. */
  predicate Oldest(s: State, d: Dir, x: nat) { s.Of(d).fifo != [] && s.Of(d).fifo[0] == x }

  /** Request x stays queued all along the run: it is neither dispatched nor merged away. */
  predicate Waits(t: Tuning, s: State, run: seq<Action>, x: nat)
    requires Legal(t, s, run)
    decreases |run|
  {
    Queued(s, x) && (run == [] || Waits(t, Next(t, s, run[0]), run[1..], x))
  }

  /** Dispatches of the run that take a request of direction d. */
  function Passing(t: Tuning, s: State, run: seq<Action>, d: Dir): nat
    requires Legal(t, s, run)
    decreases |run|
  {
    if run == [] then 0
    else
      (if run[0].DispatchOne? && Taken(t, s).Some? && Taken(t, s).value in s.rqs && s.rqs[Taken(t, s).value].dir == d then 1 else 0)
      + Passing(t, Next(t, s, run[0]), run[1..], d)
  }

  /** What a running batch of direction d may still take. */
  function Left(t: Tuning, s: State, d: Dir): nat {
    if s.Of(d).next.Some? && s.batching < t.fifoBatch then t.fifoBatch - s.batching else 0
  }

  /** A fifo keeps its first element through removals and moves of others. */
  lemma FirstStays(s: seq<nat>, x: nat)
    requires s != [] && s[0] != x && Distinct(s)
    ensures Remove(s, x) != [] && Remove(s, x)[0] == s[0]
  {
    if x in s { var k := RemoveAt(s, x); } else { RemoveAbsent(s, x); }
  }

  lemma FirstStaysMoved(s: seq<nat>, x: nat, y: nat)
    requires s != [] && s[0] != x && s[0] != y && Distinct(s)
    ensures MoveBehind(s, x, y) != [] && MoveBehind(s, x, y)[0] == s[0]
  {
    FirstStays(s, x);
    hide Remove;
  }

  /** What a step leaves of the wait of x: still the oldest, with its deadline. */
  ghost predicate Still(s: State, s': State, d: Dir, x: nat) {
    && Oldest(s', d, x) && x in s.rqs && x in s'.rqs && s'.rqs[x].expire == s.rqs[x].expire && s'.rqs[x].dir == s.rqs[x].dir
    && s.now <= s'.now
  }

  /** What a merge does to the fifos and the records. */
  lemma MergeIs(s: State, z: nat, y: nat)
    requires z in s.rqs && y in s.rqs && z != y
    ensures var (s', e) := (MergeRequests(s, z, y), s.rqs[y].dir);
            var sooner := s.rqs[y].expire < s.rqs[z].expire;
            && s'.Of(e).fifo == Remove(if sooner then MoveBehind(s.Of(e).fifo, z, y) else s.Of(e).fifo, y)
            && (forall d: Dir :: d != e ==> s'.Of(d) == s.Of(d))
            && (s'.Of(e).next.Some? ==> s.Of(e).next.Some?)
            && s'.now == s.now && s'.batching == s.batching
            && z in s'.rqs && s'.rqs == s.rqs[z := s'.rqs[z]] - {y}
            && s'.rqs[z].dir == s.rqs[z].dir && s'.rqs[z].expire == (if sooner then s.rqs[y].expire else s.rqs[z].expire)
  {
    hide Remove, MoveBehind, Latter;
  }

  /** In the fifo of a direction x stays the first: what takes the place of y was behind x. */
  lemma MergedFirst(rqs: map<nat, Request>, fifo: seq<nat>, z: nat, y: nat)
    requires fifo != [] && Distinct(fifo) && ByExpiry(rqs, fifo) && z in fifo && y in fifo && z != y && fifo[0] != y
    ensures var sooner := Expiry(rqs, y) < Expiry(rqs, z);
            var r := Remove(if sooner then MoveBehind(fifo, z, y) else fifo, y);
            r != [] && r[0] == fifo[0] && (sooner ==> fifo[0] != z)
  {
    hide Remove, MoveBehind, Expiry;
    FirstStays(fifo, y);
    var k :| 0 <= k < |fifo| && fifo[k] == y;
    assert Expiry(rqs, fifo[0]) <= Expiry(rqs, fifo[k]);
    if Expiry(rqs, y) < Expiry(rqs, z) { MovedFirst(fifo, z, y); }
  }

  lemma MergeStill(t: Tuning, s: State, z: nat, y: nat, d: Dir, x: nat)
    requires Oldest(s, d, x) && x in s.rqs && s.rqs[x].dir == d && x != y
    requires z != y && z in s.rqs && y in s.rqs && s.rqs[z].dir == s.rqs[y].dir
    requires s.rqs[y].dir == d ==> Distinct(s.Of(d).fifo) && ByExpiry(s.rqs, s.Of(d).fifo) && z in s.Of(d).fifo && y in s.Of(d).fifo
    ensures Still(s, MergeRequests(s, z, y), d, x) && Left(t, MergeRequests(s, z, y), d) <= Left(t, s, d)
  {
    hide Remove, MoveBehind, MergeRequests, Distinct, ByExpiry;
    MergeIs(s, z, y);
    if s.rqs[y].dir == d { MergedFirst(s.rqs, s.Of(d).fifo, z, y); }
  }

  /** Additions go behind x, and a bio merged into a request leaves deadlines alone. */
  lemma PlainStill(t: Tuning, s: State, a: Action, d: Dir, x: nat)
    requires Enabled(s, a) && !a.DispatchOne? && !a.MergeNext? && Oldest(s, d, x) && x in s.rqs
    ensures Still(s, Next(t, s, a), d, x) && Left(t, Next(t, s, a), d) <= Left(t, s, d)
  {
    hide RbAdd, Remove, Queued;
  }

  lemma MovedFirst(fifo: seq<nat>, z: nat, y: nat)
    requires fifo != [] && fifo[0] != z && fifo[0] != y && Distinct(fifo) && z in fifo && y in fifo && z != y
    ensures Remove(MoveBehind(fifo, z, y), y) != [] && Remove(MoveBehind(fifo, z, y), y)[0] == fifo[0]
  {
    FirstStaysMoved(fifo, z, y);
    var m := MoveBehind(fifo, z, y);
    hide MoveBehind;
    assert Remove(m, y) == [m[0]] + Remove(m[1..], y);
  }

  lemma OtherStill(t: Tuning, s: State, a: Action, d: Dir, x: nat)
    requires Inv(t, s) && Enabled(s, a) && !a.DispatchOne? && Oldest(s, d, x) && Queued(Next(t, s, a), x)
    ensures Still(s, Next(t, s, a), d, x) && Left(t, Next(t, s, a), d) <= Left(t, s, d)
  {
    DirSorted(t, s, d);
    assert s.Of(d).fifo[0] in s.Of(d).fifo;
    if a.MergeNext? {
      MergeIs(s, a.x, a.y);
      hide MergeRequests, Inv, Still, Left, BySector, Distinct, ByExpiry;
      MergeStill(t, s, a.x, a.y, d, x);
    } else {
      hide Inv, Next, Enabled, Still, Left;
      PlainStill(t, s, a, d, x);
    }
  }

  /** The dispatch leaves the wait of x, which it does not take, as it was. */
  lemma GoesStill(t: Tuning, s: State, s': State, y: nat, d: Dir, x: nat)
    requires Inv(t, s) && Goes(s, s', y) && Oldest(s, d, x) && Queued(s', x)
    ensures y != x && Still(s, s', d, x)
  {
    DirSorted(t, s, d);
    DirSorted(t, s, s.rqs[y].dir);
    assert s.Of(d).fifo[0] in s.Of(d).fifo;
    hide Inv, Latter;
    if y == x { RemoveKeeps(s.Of(s.rqs[y].dir).sort, y); }
    FirstStays(s.Of(d).fifo, y);
  }

  /** A dispatch that passes x over takes one from what is left of the running batch of its direction. */
  lemma DispatchStill(t: Tuning, s: State, d: Dir, x: nat)
    requires Inv(t, s) && Oldest(s, d, x) && x in s.rqs && s.now > s.rqs[x].expire && Queued(Dispatch(t, s).0, x)
    ensures var (s', y) := (Dispatch(t, s).0, Taken(t, s));
            && Still(s, s', d, x) && y.Some? && y.value in s.rqs
            && Left(t, s', d) + (if s.rqs[y.value].dir == d then 1 else 0) <= Left(t, s, d)
  {
    var s' := Dispatch(t, s).0;
    if Running(t, s) {
      BatchGoes(t, s);
    } else {
      NewGoes(t, s);
      ExpiredFirst(t, s);
    }
    TakenGoes(t, s);
    hide Inv, Dispatch;
    GoesStill(t, s, s', Taken(t, s).value, d, x);
  }

  lemma {:induction false} PassedWithin(t: Tuning, s: State, run: seq<Action>, d: Dir, x: nat)
    requires Inv(t, s) && Legal(t, s, run) && Waits(t, s, run, x) && Oldest(s, d, x) && x in s.rqs && s.now > s.rqs[x].expire
    ensures Passing(t, s, run, d) <= Left(t, s, d)
    decreases |run|
  {
    if run != [] {
      var s' := Next(t, s, run[0]);
      assert Queued(s', x);
      NextKeeps(t, s, run[0]);
      if run[0].DispatchOne? { DispatchStill(t, s, d, x); } else { OtherStill(t, s, run[0], d, x); }
      hide Inv, Left, Taken, Queued, Dispatch, Oldest;
      PassedWithin(t, s', run[1..], d, x);
    }
  }

  /**
    Once a request is the oldest of its direction and past its deadline, at most fifo_batch requests of its direction
    are dispatched before it, whatever is added and merged meanwhile.
  */
  lemma ExpiredServed(t: Tuning, before: seq<Action>, run: seq<Action>, d: Dir, x: nat)
    requires Legal(t, INIT, before) && Legal(t, After(t, INIT, before), run) && Waits(t, After(t, INIT, before), run, x)
    requires var s := After(t, INIT, before); s.Of(d).fifo != [] && s.Of(d).fifo[0] == x && x in s.rqs && s.now > s.rqs[x].expire
    ensures Passing(t, After(t, INIT, before), run, d) <= t.fifoBatch
  {
    InitOk(t);
    RunKeeps(t, INIT, before);
    PassedWithin(t, After(t, INIT, before), run, d, x);
  }

  /** A new request is the last of its direction to expire, read_expire or write_expire after it came. */
  lemma AddedLast(t: Tuning, s: State, x: nat, pos: nat, sectors: nat, d: Dir)
    ensures var s' := Add(t, s, x, pos, sectors, d);
            && s'.Of(d).fifo == s.Of(d).fifo + [x] && x in s'.rqs && s'.rqs[x].pos == pos && s'.rqs[x].dir == d
            && s'.rqs[x].expire == s.now + (if d == Read then t.readExpire else t.writeExpire)
  {
    hide RbAdd;
  }
}
