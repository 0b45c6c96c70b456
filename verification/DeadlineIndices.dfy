/**
  The two indices of the deadline scheduler hold the same requests, in their
  orders, after every run; so a forced dispatch empties both.
*/
module DeadlineIndices {
  import opened Lists
  import opened Deadline

  // --------------------------------------------------------------- sequences

  ghost predicate Same(s: seq<nat>, t: seq<nat>) { forall x :: x in s <==> x in t }

  ghost predicate BySector(rqs: map<nat, Request>, s: seq<nat>) {
    forall i, j :: 0 <= i < j < |s| ==> Pos(rqs, s[i]) <= Pos(rqs, s[j])
  }

  ghost predicate ByExpiry(rqs: map<nat, Request>, s: seq<nat>) {
    forall i, j :: 0 <= i < j < |s| ==> Expiry(rqs, s[i]) <= Expiry(rqs, s[j])
  }

  lemma RemoveKeeps(s: seq<nat>, x: nat)
    requires x in s && Distinct(s)
    ensures var r := Remove(s, x);
            |r| == |s| - 1 && Distinct(r) && x !in r && (forall y :: y != x ==> (y in r <==> y in s))
  {
    hide Remove, Distinct;
    var k := RemoveAt(s, x);
    RemoveMembers(s, k);
  }

  lemma RemoveSorted(rqs: map<nat, Request>, s: seq<nat>, x: nat)
    requires x in s
    ensures BySector(rqs, s) ==> BySector(rqs, Remove(s, x))
    ensures ByExpiry(rqs, s) ==> ByExpiry(rqs, Remove(s, x))
  {
    hide Remove, Pos, Expiry;
    var k := RemoveAt(s, x);
    var r := s[..k] + s[k + 1..];
    assert forall i :: 0 <= i < |r| ==> r[i] == if i < k then s[i] else s[i + 1];
  }

  lemma {:induction false} PlaceSplits(rqs: map<nat, Request>, s: seq<nat>, p: nat)
    requires BySector(rqs, s)
    ensures var k := Place(rqs, s, p);
            && (forall i :: 0 <= i < k ==> Pos(rqs, s[i]) <= p)
            && (forall i :: k <= i < |s| ==> p < Pos(rqs, s[i]))
  {
    if s != [] && p >= Pos(rqs, s[0]) {
      var r := s[1..];
      PlaceSplits(rqs, r, p);
      forall i | 0 <= i < |s|
        ensures i < 1 + Place(rqs, r, p) ==> Pos(rqs, s[i]) <= p
        ensures i >= 1 + Place(rqs, r, p) ==> p < Pos(rqs, s[i])
      {
        if i > 0 { assert s[i] == r[i - 1]; }
      }
    }
  }

  /** elv_rb_add keeps the list sorted by sector and adds just x. */
  lemma RbAddKeeps(rqs: map<nat, Request>, s: seq<nat>, x: nat)
    requires BySector(rqs, s) && Distinct(s) && x !in s
    ensures var r := RbAdd(rqs, s, x);
            |r| == |s| + 1 && BySector(rqs, r) && Distinct(r) && (forall y :: y in r <==> y == x || y in s)
  {
    PlaceSplits(rqs, s, Pos(rqs, x));
    var k := Place(rqs, s, Pos(rqs, x));
    var r := s[..k] + [x] + s[k..];
    assert forall i :: 0 <= i < |s| ==> s[i] == if i < k then r[i] else r[i + 1];
    assert r[k] == x;
  }

  /** rb_next gives the following element, never x itself. */
  lemma {:induction false} LatterIn(s: seq<nat>, x: nat)
    requires Distinct(s)
    ensures Latter(s, x).Some? ==> Latter(s, x).value in s && Latter(s, x).value != x
  {
    if |s| >= 2 && s[0] != x {
      LatterIn(s[1..], x);
    }
  }

  lemma {:induction false} InsertBehindAt(s: seq<nat>, x: nat, y: nat) returns (k: nat)
    requires y in s
    ensures k < |s| && s[k] == y && InsertBehind(s, x, y) == s[..k + 1] + [x] + s[k + 1..]
  {
    if s[0] == y {
      k := 0;
    } else {
      var m := InsertBehindAt(s[1..], x, y);
      k := m + 1;
      assert s[..k + 1] == [s[0]] + s[1..][..m + 1];
    }
  }

  lemma {:induction false} RemoveFirst(a: seq<nat>, y: nat, b: seq<nat>)
    requires y !in a
    ensures Remove(a + [y] + b, y) == a + b
  {
    var s := a + [y] + b;
    if a == [] {
      assert s[1..] == b;
    } else {
      assert s[1..] == a[1..] + [y] + b;
      RemoveFirst(a[1..], y, b);
    }
  }

  lemma Splice(r: seq<nat>, k: nat, x: nat)
    requires k < |r|
    ensures r[..k + 1] + [x] + r[k + 1..] == r[..k] + [r[k]] + ([x] + r[k + 1..])
    ensures r[..k] + ([x] + r[k + 1..]) == r[k := x]
  {}

  lemma NotBefore(r: seq<nat>, k: nat)
    requires Distinct(r) && k < |r|
    ensures r[k] !in r[..k]
  {}

  /** Moving x behind y and then removing y puts x in y's place. */
  lemma TakesPlace(s: seq<nat>, x: nat, y: nat) returns (k: nat)
    requires Distinct(s) && x in s && y in s && x != y
    ensures var r := Remove(s, x);
            k < |r| && r[k] == y && Remove(MoveBehind(s, x, y), y) == r[k := x]
  {
    hide Remove, InsertBehind;
    RemoveKeeps(s, x);
    var r := Remove(s, x);
    k := InsertBehindAt(r, x, y);
    NotBefore(r, k);
    hide Distinct;
    RemoveFirst(r[..k], y, [x] + r[k + 1..]);
    Splice(r, k, x);
  }

  // ---------------------------------------------------------------- one side

  /** Both indices hold the same requests of direction d, in their orders, and next_rq is one of them. */
  ghost predicate SideOk(rqs: map<nat, Request>, d: Dir, side: Side, limit: nat) {
    && Distinct(side.sort) && Distinct(side.fifo)
    && |side.sort| == |side.fifo| && Same(side.sort, side.fifo)
    && BySector(rqs, side.sort) && ByExpiry(rqs, side.fifo)
    && (forall x :: x in side.sort ==> x in rqs && rqs[x].dir == d && rqs[x].expire <= limit)
    && (side.next.Some? ==> side.next.value in side.sort)
  }

  lemma SideFrame(rqs: map<nat, Request>, rqs': map<nat, Request>, d: Dir, side: Side, limit: nat, limit': nat)
    requires SideOk(rqs, d, side, limit) && limit <= limit'
    requires forall x :: x in side.sort ==> x in rqs' && rqs'[x].(sectors := rqs[x].sectors) == rqs[x]
    ensures SideOk(rqs', d, side, limit')
  {
    forall i | 0 <= i < |side.sort|
      ensures Pos(rqs', side.sort[i]) == Pos(rqs, side.sort[i])
      ensures side.fifo[i] in side.sort && Expiry(rqs', side.fifo[i]) == Expiry(rqs, side.fifo[i])
    {
      assert side.fifo[i] in side.fifo;
    }
  }

  lemma AddSide(rqs: map<nat, Request>, d: Dir, side: Side, limit: nat, x: nat, rq: Request)
    requires SideOk(rqs, d, side, limit) && x !in side.sort && rq.dir == d && rq.expire == limit
    ensures var rqs' := rqs[x := rq];
            SideOk(rqs', d, side.(sort := RbAdd(rqs', side.sort, x), fifo := side.fifo + [x]), limit)
  {
    var rqs' := rqs[x := rq];
    SideFrame(rqs, rqs', d, side, limit, limit);
    RbAddKeeps(rqs', side.sort, x);
    var fifo := side.fifo + [x];
    forall i | 0 <= i < |side.fifo| ensures Expiry(rqs', side.fifo[i]) <= limit {
      assert side.fifo[i] in side.sort;
    }
  }

  lemma RemoveSide(rqs: map<nat, Request>, d: Dir, side: Side, limit: nat, x: nat)
    requires SideOk(rqs, d, side, limit) && x in side.sort
    ensures SideOk(rqs, d, RemoveFrom(side, x), limit)
    ensures |RemoveFrom(side, x).sort| == |side.sort| - 1
    ensures forall y :: y in RemoveFrom(side, x).sort <==> y in side.sort && y != x
  {
    RemoveKeeps(side.sort, x);
    RemoveKeeps(side.fifo, x);
    RemoveSorted(rqs, side.sort, x);
    RemoveSorted(rqs, side.fifo, x);
    LatterIn(side.sort, x);
  }

  lemma FrontSide(rqs: map<nat, Request>, d: Dir, side: Side, limit: nat, x: nat, rq: Request)
    requires SideOk(rqs, d, side, limit) && x in side.sort && rq.dir == d && rq.expire == rqs[x].expire
    ensures var rqs' := rqs[x := rq];
            && SideOk(rqs', d, side.(sort := RbAdd(rqs', Remove(side.sort, x), x)), limit)
            && (forall y :: y in RbAdd(rqs', Remove(side.sort, x), x) <==> y in side.sort)
            && |RbAdd(rqs', Remove(side.sort, x), x)| == |side.sort|
  {
    var rqs' := rqs[x := rq];
    RemoveKeeps(side.sort, x);
    RemoveSorted(rqs, side.sort, x);
    var less := Remove(side.sort, x);
    assert BySector(rqs', less) by {
      forall i | 0 <= i < |less| ensures Pos(rqs', less[i]) == Pos(rqs, less[i]) { assert less[i] in less; }
    }
    RbAddKeeps(rqs', less, x);
    forall i | 0 <= i < |side.fifo| ensures Expiry(rqs', side.fifo[i]) == Expiry(rqs, side.fifo[i]) {
      assert side.fifo[i] in side.sort;
    }
  }

  /** Giving x the expiry and the fifo place of y, which is removed, keeps the fifo in order. */
  lemma ReplaceKeepsOrder(rqs: map<nat, Request>, rqs': map<nat, Request>, fifo: seq<nat>, x: nat, y: nat, k: nat)
    requires Distinct(fifo) && ByExpiry(rqs, fifo) && x in fifo && y in fifo && x != y
    requires k < |Remove(fifo, x)| && Remove(fifo, x)[k] == y
    requires Expiry(rqs', x) == Expiry(rqs, y)
    requires forall z :: z in fifo && z != x && z != y ==> Expiry(rqs', z) == Expiry(rqs, z)
    ensures var r := Remove(fifo, x)[k := x];
            |r| == |fifo| - 1 && Distinct(r) && ByExpiry(rqs', r) && (forall z :: z in r <==> z in fifo && z != y)
  {
    RemoveKeeps(fifo, x);
    RemoveSorted(rqs, fifo, x);
    var less := Remove(fifo, x);
    var r := less[k := x];
    forall i | 0 <= i < |r| ensures Expiry(rqs', r[i]) == Expiry(rqs, less[i]) {
      assert less[i] in less;
    }
    forall z ensures z in r <==> z in fifo && z != y {
      if z in fifo && z != y {
        if z == x { assert r[k] == z; } else {
          var i :| 0 <= i < |less| && less[i] == z;
          assert r[i] == z;
        }
      }
    }
  }

  /** Merging y into x, with x taking y's place in the fifo when y expires sooner. */
  lemma MergeSide(rqs: map<nat, Request>, d: Dir, side: Side, limit: nat, x: nat, y: nat, rq: Request)
    requires SideOk(rqs, d, side, limit) && x in side.sort && y in side.sort && x != y
    requires rq.dir == d && rq.pos == rqs[x].pos
    requires rq.expire == if rqs[y].expire < rqs[x].expire then rqs[y].expire else rqs[x].expire
    ensures var rqs' := rqs[x := rq] - {y};
            var moved := if rqs[y].expire < rqs[x].expire then side.(fifo := MoveBehind(side.fifo, x, y)) else side;
            && SideOk(rqs', d, RemoveFrom(moved, y), limit)
            && |RemoveFrom(moved, y).sort| == |side.sort| - 1
            && (forall z :: z in RemoveFrom(moved, y).sort <==> z in side.sort && z != y)
  {
    hide Remove, MoveBehind;
    var rqs' := rqs[x := rq] - {y};
    RemoveSide(rqs, d, side, limit, y);
    var gone := RemoveFrom(side, y);
    if rqs[y].expire < rqs[x].expire {
      var k := TakesPlace(side.fifo, x, y);
      assert forall z :: z in side.fifo && z != x && z != y ==> Expiry(rqs', z) == Expiry(rqs, z);
      ReplaceKeepsOrder(rqs, rqs', side.fifo, x, y, k);
      var moved := RemoveFrom(side.(fifo := MoveBehind(side.fifo, x, y)), y);
      assert moved.sort == gone.sort && moved.next == gone.next;
      SortFrame(rqs, rqs', gone.sort);
    } else {
      SideFrame(rqs, rqs', d, gone, limit, limit);
    }
  }

  lemma SortFrame(rqs: map<nat, Request>, rqs': map<nat, Request>, s: seq<nat>)
    requires BySector(rqs, s) && forall x :: x in s ==> Pos(rqs', x) == Pos(rqs, x)
    ensures BySector(rqs', s)
  {}

  // --------------------------------------------------------------- all of it

  ghost predicate Partition(rqs: map<nat, Request>, rd: seq<nat>, wr: seq<nat>, out: seq<nat>) {
    && (forall x :: x in rqs <==> x in rd || x in wr || x in out)
    && (forall x :: x in out ==> x !in rd && x !in wr)
    && Distinct(out)
  }

  ghost predicate Inv(t: Tuning, s: State) {
    && (forall d: Dir :: SideOk(s.rqs, d, s.Of(d), s.now + t.Expire(d)))
    && (s.rd.next.None? || s.wr.next.None?)
    && s.nrSorted == |s.rd.sort| + |s.wr.sort|
    && Partition(s.rqs, s.rd.sort, s.wr.sort, s.out)
    && !s.bug
  }

  lemma InitOk(t: Tuning)
    ensures Inv(t, INIT)
  {}

  /** A side that holds neither x nor y does not notice a change to them. */
  lemma OtherSide(rqs: map<nat, Request>, rqs': map<nat, Request>, d: Dir, side: Side, limit: nat, x: nat, y: nat)
    requires SideOk(rqs, d, side, limit) && x !in side.sort && y !in side.sort
    requires forall z :: z in rqs && z != x && z != y ==> z in rqs' && rqs'[z] == rqs[z]
    ensures SideOk(rqs', d, side, limit)
  {
    SideFrame(rqs, rqs', d, side, limit, limit);
  }

  lemma SideMember(rqs: map<nat, Request>, d: Dir, side: Side, limit: nat, x: nat)
    requires SideOk(rqs, d, side, limit) && x in side.sort
    ensures x in rqs && rqs[x].dir == d
  {}

  lemma AddKeeps(t: Tuning, s: State, x: nat, pos: nat, sectors: nat, d: Dir)
    requires Inv(t, s) && x !in s.rqs && x !in s.out
    ensures Inv(t, Add(t, s, x, pos, sectors, d))
  {
    hide RbAdd, SideOk, Distinct;
    var rq := Request(pos, sectors, d, s.now + t.Expire(d));
    var s' := Add(t, s, x, pos, sectors, d);
    forall e: Dir ensures SideOk(s'.rqs, e, s'.Of(e), s.now + t.Expire(e)) {
      if e == d {
        AddSide(s.rqs, d, s.Of(d), s.now + t.Expire(d), x, rq);
      } else {
        OtherSide(s.rqs, s'.rqs, e, s.Of(e), s.now + t.Expire(e), x, x);
      }
    }
    RbAddMembers(s'.rqs, s.Of(d).sort, x);
  }

  lemma RbAddMembers(rqs: map<nat, Request>, s: seq<nat>, x: nat)
    ensures |RbAdd(rqs, s, x)| == |s| + 1 && forall y :: y in RbAdd(rqs, s, x) <==> y == x || y in s
  {
    var k := Place(rqs, s, Pos(rqs, x));
    assert s == s[..k] + s[k..];
  }

  lemma FrontKeeps(t: Tuning, s: State, x: nat, n: nat)
    requires Inv(t, s) && Queued(s, x) && n <= s.rqs[x].pos
    ensures Inv(t, FrontMerge(s, x, n))
  {
    hide RbAdd, SideOk, Distinct, Remove;
    var d := s.rqs[x].dir;
    var s' := FrontMerge(s, x, n);
    forall e: Dir ensures SideOk(s'.rqs, e, s'.Of(e), s.now + t.Expire(e)) {
      if e == d {
        FrontSide(s.rqs, d, s.Of(d), s.now + t.Expire(d), x, s'.rqs[x]);
      } else {
        if x in s.Of(e).sort { SideMember(s.rqs, e, s.Of(e), s.now + t.Expire(e), x); }
        OtherSide(s.rqs, s'.rqs, e, s.Of(e), s.now + t.Expire(e), x, x);
      }
    }
    FrontSide(s.rqs, d, s.Of(d), s.now + t.Expire(d), x, s'.rqs[x]);
  }

  lemma BackKeeps(t: Tuning, s: State, x: nat, n: nat)
    requires Inv(t, s) && Queued(s, x)
    ensures Inv(t, BackMerge(s, x, n))
  {
    var s' := BackMerge(s, x, n);
    forall e: Dir ensures SideOk(s'.rqs, e, s'.Of(e), s.now + t.Expire(e)) {
      SideFrame(s.rqs, s'.rqs, e, s.Of(e), s.now + t.Expire(e), s.now + t.Expire(e));
    }
  }

  lemma TickKeeps(t: Tuning, s: State, n: nat)
    requires Inv(t, s)
    ensures Inv(t, s.(now := s.now + n))
  {
    var s' := s.(now := s.now + n);
    forall e: Dir ensures SideOk(s'.rqs, e, s'.Of(e), s'.now + t.Expire(e)) {
      SideFrame(s.rqs, s.rqs, e, s.Of(e), s.now + t.Expire(e), s'.now + t.Expire(e));
    }
  }

  lemma MergeKeeps(t: Tuning, s: State, x: nat, y: nat)
    requires Inv(t, s) && Queued(s, x) && Queued(s, y) && x != y && s.rqs[x].dir == s.rqs[y].dir
    ensures Inv(t, MergeRequests(s, x, y))
  {
    hide RemoveFrom, SideOk, Distinct, MoveBehind;
    var d := s.rqs[x].dir;
    var s' := MergeRequests(s, x, y);
    MergeSide(s.rqs, d, s.Of(d), s.now + t.Expire(d), x, y, s'.rqs[x]);
    MergeNext(s, x, y);
    OnlyThere(t, s, x);
    OnlyThere(t, s, y);
    forall e: Dir ensures SideOk(s'.rqs, e, s'.Of(e), s.now + t.Expire(e)) {
      if e != d {
        OtherSide(s.rqs, s'.rqs, e, s.Of(e), s.now + t.Expire(e), x, y);
      }
    }
  }

  lemma MergeNext(s: State, x: nat, y: nat)
    requires x in s.rqs && y in s.rqs && (s.rd.next.None? || s.wr.next.None?)
    ensures var s' := MergeRequests(s, x, y); s'.rd.next.None? || s'.wr.next.None?
  {}

  lemma MoveKeeps(t: Tuning, s: State, x: nat)
    requires Inv(t, s) && Queued(s, x)
    ensures Inv(t, MoveRequest(s, x))
  {
    hide RemoveFrom, SideOk, Distinct;
    var d := s.rqs[x].dir;
    var s' := MoveRequest(s, x);
    forall e: Dir ensures SideOk(s'.rqs, e, s'.Of(e), s.now + t.Expire(e)) {
      if e == d {
        NextTo(s.rqs, d, s.Of(d), s.now + t.Expire(d), x);
        RemoveSide(s.rqs, d, s.Of(d).(next := Latter(s.Of(d).sort, x)), s.now + t.Expire(d), x);
      } else {
        NoNext(s.rqs, e, s.Of(e), s.now + t.Expire(e));
      }
    }
    NextTo(s.rqs, d, s.Of(d), s.now + t.Expire(d), x);
    RemoveSide(s.rqs, d, s.Of(d).(next := Latter(s.Of(d).sort, x)), s.now + t.Expire(d), x);
    OnlyThere(t, s, x);
    DistinctAppend(s.out, x);
  }

  lemma OnlyThere(t: Tuning, s: State, x: nat)
    requires Inv(t, s) && Queued(s, x)
    ensures x !in s.out && (x in s.rd.sort <==> s.rqs[x].dir == Read) && (x in s.wr.sort <==> s.rqs[x].dir == Write)
  {
    if x in s.Of(Read).sort { SideMember(s.rqs, Read, s.Of(Read), s.now + t.Expire(Read), x); }
    if x in s.Of(Write).sort { SideMember(s.rqs, Write, s.Of(Write), s.now + t.Expire(Write), x); }
  }

  lemma DistinctAppend(s: seq<nat>, x: nat)
    requires Distinct(s) && x !in s
    ensures Distinct(s + [x])
  {}

  lemma NextTo(rqs: map<nat, Request>, d: Dir, side: Side, limit: nat, x: nat)
    requires SideOk(rqs, d, side, limit)
    ensures SideOk(rqs, d, side.(next := Latter(side.sort, x)), limit)
  {
    LatterIn(side.sort, x);
  }

  lemma NoNext(rqs: map<nat, Request>, d: Dir, side: Side, limit: nat)
    requires SideOk(rqs, d, side, limit)
    ensures SideOk(rqs, d, side.(next := None), limit)
  {}

  // ---------------------------------------------------------------- the runs

  lemma SideQueued(t: Tuning, s: State, d: Dir)
    requires Inv(t, s)
    ensures (s.Of(d).fifo == [] <==> s.Of(d).sort == [])
    ensures s.Of(d).fifo != [] ==> Queued(s, s.Of(d).fifo[0])
    ensures s.Of(d).next.Some? ==> Queued(s, s.Of(d).next.value)
  {
    assert SideOk(s.rqs, d, s.Of(d), s.now + t.Expire(d));
    if s.Of(d).fifo != [] { assert s.Of(d).fifo[0] in s.Of(d).fifo; }
  }

  /** A dispatch takes out one request, unless there is none. */
  lemma DispatchKeeps(t: Tuning, s: State)
    requires Inv(t, s)
    ensures var (s', some) := Dispatch(t, s);
            && Inv(t, s')
            && (some <==> s.nrSorted > 0)
            && s'.nrSorted == (if some then s.nrSorted - 1 else s.nrSorted)
            && (!some ==> s' == s)
  {
    hide SideOk, Partition, MoveRequest;
    SideQueued(t, s, Read);
    SideQueued(t, s, Write);
    match Batch(t, s)
    case Some(x) => MoveCounts(t, s, s.(batching := s.batching + 1), x);
    case None =>
      match Choose(t, s)
      case None =>
      case Some((d, starved)) => MoveCounts(t, s, s.(batching := 1, starved := starved), First(s, d));
  }

  lemma MoveCounts(t: Tuning, s: State, s1: State, x: nat)
    requires Inv(t, s) && s1 == s.(batching := s1.batching, starved := s1.starved) && Queued(s, x)
    ensures Inv(t, MoveRequest(s1, x)) && MoveRequest(s1, x).nrSorted == s.nrSorted - 1 && s.nrSorted > 0
  {
    MoveKeeps(t, s1, x);
    SortNonEmpty(s, x);
  }

  lemma SortNonEmpty(s: State, x: nat)
    requires Queued(s, x)
    ensures |s.rd.sort| + |s.wr.sort| > 0
  {}

  lemma NextKeeps(t: Tuning, s: State, a: Action)
    requires Inv(t, s) && Enabled(s, a)
    ensures Inv(t, Next(t, s, a))
  {
    match a
    case AddRequest(x, pos, sectors, dir) => AddKeeps(t, s, x, pos, sectors, dir);
    case MergeFront(x, n) => FrontKeeps(t, s, x, n);
    case MergeBack(x, n) => BackKeeps(t, s, x, n);
    case MergeNext(x, y) => MergeKeeps(t, s, x, y);
    case DispatchOne => DispatchKeeps(t, s);
    case Tick(jiffies) => TickKeeps(t, s, jiffies);
  }

  lemma {:induction false} RunKeeps(t: Tuning, s: State, run: seq<Action>)
    requires Inv(t, s) && Legal(t, s, run)
    ensures Inv(t, After(t, s, run))
    decreases |run|
  {
    hide Inv;
    if run != [] {
      NextKeeps(t, s, run[0]);
      RunKeeps(t, Next(t, s, run[0]), run[1..]);
    }
  }

  /**
    After every run, in each direction: the sort list and the fifo hold the same requests, the one by
    sector and the other by expiry; at most one next_rq is set, and it is still queued; no request is
    lost, dispatched twice, or both queued and dispatched.
  */
  lemma IndicesAgree(t: Tuning, run: seq<Action>, d: Dir)
    requires Legal(t, INIT, run)
    ensures var s := After(t, INIT, run);
            var side := s.Of(d);
            && multiset(side.sort) == multiset(side.fifo)
            && BySector(s.rqs, side.sort) && ByExpiry(s.rqs, side.fifo)
            && (side.next.Some? ==> side.next.value in side.sort)
            && (s.rd.next.None? || s.wr.next.None?)
            && Partition(s.rqs, s.rd.sort, s.wr.sort, s.out)
            && !s.bug
  {
    InitOk(t);
    RunKeeps(t, INIT, run);
    var s := After(t, INIT, run);
    assert SideOk(s.rqs, d, s.Of(d), s.now + t.Expire(d));
    SameMultiset(s.Of(d).sort, s.Of(d).fifo);
  }

  lemma {:induction false} OncePer(s: seq<nat>, x: nat)
    requires Distinct(s)
    ensures multiset(s)[x] == if x in s then 1 else 0
  {
    if s != [] {
      assert s == [s[0]] + s[1..];
      OncePer(s[1..], x);
    }
  }

  lemma SameMultiset(s: seq<nat>, r: seq<nat>)
    requires Distinct(s) && Distinct(r) && Same(s, r)
    ensures multiset(s) == multiset(r)
  {
    forall x ensures multiset(s)[x] == multiset(r)[x] {
      OncePer(s, x);
      OncePer(r, x);
    }
  }

  /** elv_drain_elevator: dispatching until nothing is dispatched. */
  ghost function Drain(t: Tuning, s: State): State
    requires Inv(t, s)
    decreases |s.rd.sort| + |s.wr.sort|
  {
    DispatchKeeps(t, s);
    var (s', some) := Dispatch(t, s);
    if some then Drain(t, s') else s'
  }

  /** Forced dispatch leaves both directions empty and nr_sorted zero. */
  lemma {:induction false} DrainEmpties(t: Tuning, s: State)
    requires Inv(t, s)
    ensures var s' := Drain(t, s);
            Inv(t, s') && s'.rd.fifo == s'.wr.fifo == s'.rd.sort == s'.wr.sort == [] && s'.nrSorted == 0
    decreases |s.rd.sort| + |s.wr.sort|
  {
    hide SideOk, Partition;
    DispatchKeeps(t, s);
    var (s', some) := Dispatch(t, s);
    if some {
      DrainEmpties(t, s');
    } else {
      SideQueued(t, s, Read);
      SideQueued(t, s, Write);
    }
  }
}
