/**
  No bio is lost or doubled by merging (blk_queue_bio in block/blk-core.c,
  attempt_merge in block/blk-merge.c, elv_attempt_insert_merge in
  block/elevator.c).
*/
module MergeBios {
  import opened Lists
  import opened MergeLookup

  function BiosOf(rqs: map<nat, Request>, x: nat): multiset<Bio> { if x in rqs then multiset(rqs[x].bios) else multiset{} }

  /** The bios of all requests with identities below n, as often as they occur. */
  function Held(rqs: map<nat, Request>, n: nat): multiset<Bio> {
    if n == 0 then multiset{} else Held(rqs, n - 1) + BiosOf(rqs, n - 1)
  }

  predicate Below(rqs: map<nat, Request>, n: nat) { forall x :: x in rqs ==> x < n }

  lemma {:induction false} HeldSame(rqs: map<nat, Request>, rqs': map<nat, Request>, n: nat)
    requires forall y: nat :: y < n ==> BiosOf(rqs', y) == BiosOf(rqs, y)
    ensures Held(rqs', n) == Held(rqs, n)
  {
    if n > 0 { HeldSame(rqs, rqs', n - 1); }
  }

  lemma MoreOnBoth(a: multiset<Bio>, b: multiset<Bio>, c: multiset<Bio>, d: multiset<Bio>, k: multiset<Bio>)
    requires a + b == c + d
    ensures (a + k) + b == (c + k) + d
  {
    assert (a + k) + b == (a + b) + k && (c + k) + d == (c + d) + k;
  }

  lemma Cancel(a: multiset<Bio>, b: multiset<Bio>, c: multiset<Bio>, d: multiset<Bio>)
    requires a + b == c + (b + d)
    ensures a == c + d
  {
    forall x ensures a[x] == (c + d)[x] {
      assert (a + b)[x] == a[x] + b[x] && (c + (b + d))[x] == c[x] + (b[x] + d[x]);
    }
  }

  lemma Chained(a: multiset<Bio>, s1: multiset<Bio>, b: multiset<Bio>, c: multiset<Bio>, s2: multiset<Bio>, b1: multiset<Bio>, b2: multiset<Bio>)
    requires b + s1 == a + b1 && c + s2 == b + b2
    ensures c + (s1 + s2) == a + (b1 + b2)
  {
    assert c + (s1 + s2) == (c + s2) + s1;
    assert (b + b2) + s1 == (b + s1) + b2;
    assert (a + b1) + b2 == a + (b1 + b2);
  }

  /** One request changes: what it held goes, what it holds comes. */
  lemma {:induction false} HeldUpdate(rqs: map<nat, Request>, rqs': map<nat, Request>, x: nat, n: nat)
    requires x < n && forall y: nat :: y < n && y != x ==> BiosOf(rqs', y) == BiosOf(rqs, y)
    ensures Held(rqs', n) + BiosOf(rqs, x) == Held(rqs, n) + BiosOf(rqs', x)
  {
    hide BiosOf;
    if x == n - 1 {
      HeldSame(rqs, rqs', n - 1);
    } else {
      HeldUpdate(rqs, rqs', x, n - 1);
      MoreOnBoth(Held(rqs', n - 1), BiosOf(rqs, x), Held(rqs, n - 1), BiosOf(rqs', x), BiosOf(rqs, n - 1));
    }
  }

  // ------------------------------------------------------------- each operation

  lemma AppendBios(a: seq<Bio>, b: seq<Bio>)
    ensures multiset(a + b) == multiset(a) + multiset(b)
  {}

  lemma InsertHeld(s: State, x: nat, rq: Request, n: nat)
    requires x !in s.rqs && x < n && Below(s.rqs, n)
    ensures var s' := Insert(s, x, rq); Below(s'.rqs, n) && Held(s'.rqs, n) == Held(s.rqs, n) + multiset(rq.bios)
  {
    HeldUpdate(s.rqs, s.rqs[x := rq], x, n);
    hide Held, OnHash, Bucket;
  }

  lemma RefuseHeld(s: State, x: nat, n: nat)
    requires x in s.rqs && Below(s.rqs, n)
    ensures Below(Refuse(s, x).rqs, n) && Held(Refuse(s, x).rqs, n) == Held(s.rqs, n) && Refuse(s, x).rqs.Keys == s.rqs.Keys
  {
    HeldSame(s.rqs, Refuse(s, x).rqs, n);
    hide Held;
  }

  /** A request that takes over more bios, in front or behind. */
  lemma GrownHeld(rqs: map<nat, Request>, x: nat, rq: Request, more: multiset<Bio>, n: nat)
    requires x in rqs && Below(rqs, n) && multiset(rq.bios) == multiset(rqs[x].bios) + more
    ensures Below(rqs[x := rq], n) && Held(rqs[x := rq], n) == Held(rqs, n) + more
  {
    HeldUpdate(rqs, rqs[x := rq], x, n);
    hide Held;
    Cancel(Held(rqs[x := rq], n), BiosOf(rqs, x), Held(rqs, n), more);
  }

  lemma GoneHeld(rqs: map<nat, Request>, y: nat, n: nat)
    requires y in rqs && Below(rqs, n)
    ensures Below(rqs - {y}, n) && Held(rqs - {y}, n) + multiset(rqs[y].bios) == Held(rqs, n)
  {
    HeldUpdate(rqs, rqs - {y}, y, n);
    hide Held;
  }

  lemma MergedRequests(s: State, x: nat, y: nat)
    requires x in s.rqs && y in s.rqs && x != y
    ensures MergeRequests(s, x, y).rqs == s.rqs[x := Joined(s.rqs[x], s.rqs[y])] - {y}
  {
    hide OnHash, Bucket, Unhash;
  }

  lemma MergeHeld(s: State, x: nat, y: nat, n: nat)
    requires x in s.rqs && y in s.rqs && x != y && Below(s.rqs, n)
    ensures var s' := MergeRequests(s, x, y); Below(s'.rqs, n) && Held(s'.rqs, n) == Held(s.rqs, n)
  {
    hide Held, MergeRequests, Below;
    MergedRequests(s, x, y);
    var more := multiset(s.rqs[y].bios);
    var rqs1 := s.rqs[x := Joined(s.rqs[x], s.rqs[y])];
    AppendBios(s.rqs[x].bios, s.rqs[y].bios);
    GrownHeld(s.rqs, x, rqs1[x], more, n);
    GoneHeld(rqs1, y, n);
    Cancel(Held(rqs1 - {y}, n), more, Held(s.rqs, n), multiset{});
  }

  /** A bio goes into request r, which may then be joined with a neighbour. */
  lemma AddedHeld(s: State, r: nat, rq: Request, bio: Bio, n: nat)
    requires r in s.rqs && Below(s.rqs, n) && multiset(rq.bios) == multiset(s.rqs[r].bios) + multiset{bio}
    ensures var s2 := s.(rqs := s.rqs[r := rq]);
            && Below(s2.rqs, n) && Held(s2.rqs, n) == Held(s.rqs, n) + multiset{bio} && Rehash(s2, r).rqs == s2.rqs
            && (forall y :: y in s2.rqs && y != r ==>
                  && Below(MergeRequests(s2, r, y).rqs, n) && Held(MergeRequests(s2, r, y).rqs, n) == Held(s2.rqs, n)
                  && Below(MergeRequests(s2, y, r).rqs, n) && Held(MergeRequests(s2, y, r).rqs, n) == Held(s2.rqs, n))
  {
    var s2 := s.(rqs := s.rqs[r := rq]);
    GrownHeld(s.rqs, r, rq, multiset{bio}, n);
    hide Held, MergeRequests, OnHash, Bucket, Unhash;
    forall y | y in s2.rqs && y != r
      ensures Below(MergeRequests(s2, r, y).rqs, n) && Held(MergeRequests(s2, r, y).rqs, n) == Held(s2.rqs, n)
      ensures Below(MergeRequests(s2, y, r).rqs, n) && Held(MergeRequests(s2, y, r).rqs, n) == Held(s2.rqs, n)
    {
      MergeHeld(s2, r, y, n);
      MergeHeld(s2, y, r, n);
    }
  }

  lemma QueueHeld(s: State, x: nat, bio: Bio, c: Choice, n: nat)
    requires Inv(s) && BioOk(bio) && FrontAnswer(s, bio, c.front) && x !in s.rqs && x < n && Below(s.rqs, n)
    ensures var s' := QueueBio(s, x, bio, c); Below(s'.rqs, n) && Held(s'.rqs, n) == Held(s.rqs, n) + multiset{bio}
  {
    VerdictAdjoins(s, bio, c.mode, c.allowed, c.front);
    hide ElvMerge, Held, Insert, MergeRequests, Rehash, Inv, Refuse, FrontAnswer;
    var (verdict, s1) := ElvMerge(s, bio, c.mode, c.allowed, c.front);
    var rq := FromBio(bio, c.mergeable);
    assert multiset(rq.bios) == multiset{bio};
    match verdict
    case NoMerge => InsertHeld(s1, x, rq, n);
    case Back(r) =>
      RefuseHeld(s1, r, n);
      AppendBios(s1.rqs[r].bios, [bio]);
      AddedHeld(s1, r, AddBack(s1.rqs[r], bio), bio, n);
      if !c.fitsBio { InsertHeld(Refuse(s1, r), x, rq, n); }
    case Front(r) =>
      RefuseHeld(s1, r, n);
      AppendBios([bio], s1.rqs[r].bios);
      AddedHeld(s1, r, AddFront(s1.rqs[r], bio), bio, n);
      if !c.fitsBio { InsertHeld(Refuse(s1, r), x, rq, n); }
  }

  lemma AbsorbHeld(s: State, x: nat, rq: Request, n: nat)
    requires x in s.rqs && Below(s.rqs, n)
    ensures var s' := Absorb(s, x, rq); Below(s'.rqs, n) && Held(s'.rqs, n) == Held(s.rqs, n) + multiset(rq.bios)
  {
    AppendBios(s.rqs[x].bios, rq.bios);
    GrownHeld(s.rqs, x, Joined(s.rqs[x], rq), multiset(rq.bios), n);
    hide Held, OnHash, Bucket, Unhash;
  }

  lemma UnplugHeld(s: State, x: nat, rq: Request, mode: Mode, fits: bool, n: nat)
    requires x !in s.rqs && x < n && Below(s.rqs, n)
    ensures var s' := InsertMerge(s, x, rq, mode, fits); Below(s'.rqs, n) && Held(s'.rqs, n) == Held(s.rqs, n) + multiset(rq.bios)
  {
    hide Held, Insert, Absorb, Find;
    var s1 := s.(hash := Find(s.rqs, s.hash, rq.pos).1);
    InsertHeld(s, x, rq, n);
    InsertHeld(s1, x, rq, n);
    if s.last.Some? && s.last.value in s.rqs { AbsorbHeld(s, s.last.value, rq, n); }
    var found := Find(s.rqs, s.hash, rq.pos).0;
    if found.Some? && found.value in s.rqs { AbsorbHeld(s1, found.value, rq, n); }
  }

  lemma SendHeld(s: State, x: nat, n: nat)
    requires Below(s.rqs, n)
    ensures Below(Dispatch(s, x).rqs, n) && Held(Dispatch(s, x).rqs, n) + BiosOf(s.rqs, x) == Held(s.rqs, n)
  {
    if x < n { HeldUpdate(s.rqs, s.rqs - {x}, x, n); } else { HeldSame(s.rqs, s.rqs - {x}, n); }
    hide Held, Unhash;
  }

  // ------------------------------------------------------------------- every run

  /** The bios an action brings, and those it sends to the dispatch queue. */
  function Brought(a: Action): multiset<Bio> {
    match a
    case Queue(_, bio, _) => multiset{bio}
    case Unplug(_, rq, _, _) => multiset(rq.bios)
    case Send(_) => multiset{}
  }

  function Sent(s: State, a: Action): multiset<Bio> { if a.Send? then BiosOf(s.rqs, a.x) else multiset{} }

  function AllBrought(run: seq<Action>): multiset<Bio> {
    if run == [] then multiset{} else Brought(run[0]) + AllBrought(run[1..])
  }

  function AllSent(s: State, run: seq<Action>): multiset<Bio>
    decreases |run|
  {
    if run == [] then multiset{} else Sent(s, run[0]) + AllSent(Next(s, run[0]), run[1..])
  }

  lemma NextHeld(s: State, a: Action, n: nat)
    requires Inv(s) && Enabled(s, a) && Below(s.rqs, n) && (a.Send? || a.x < n)
    ensures Inv(Next(s, a)) && Below(Next(s, a).rqs, n)
    ensures Held(Next(s, a).rqs, n) + Sent(s, a) == Held(s.rqs, n) + Brought(a)
  {
    hide Inv, QueueBio, InsertMerge, Dispatch, Held, Whole, FrontAnswer;
    match a
    case Queue(x, bio, c) =>
      QueueBioKeeps(s, x, bio, c);
      QueueHeld(s, x, bio, c, n);
    case Unplug(x, rq, mode, fits) =>
      InsertMergeKeeps(s, x, rq, mode, fits);
      UnplugHeld(s, x, rq, mode, fits, n);
    case Send(x) =>
      DispatchKeeps(s, x);
      SendHeld(s, x, n);
  }

  lemma {:induction false} RunHeld(s: State, run: seq<Action>, n: nat)
    requires Inv(s) && Legal(s, run) && Below(s.rqs, n) && forall i :: 0 <= i < |run| ==> run[i].Send? || run[i].x < n
    ensures Held(After(s, run).rqs, n) + AllSent(s, run) == Held(s.rqs, n) + AllBrought(run)
    decreases |run|
  {
    hide Inv, Next, Enabled, Held, Brought, Sent, Below;
    if run != [] {
      NextHeld(s, run[0], n);
      var s1 := Next(s, run[0]);
      RunHeld(s1, run[1..], n);
      Chained(Held(s.rqs, n), Sent(s, run[0]), Held(s1.rqs, n), Held(After(s1, run[1..]).rqs, n), AllSent(s1, run[1..]),
        Brought(run[0]), AllBrought(run[1..]));
    }
  }

  /**
    Over every run of submissions, unplugs and dispatches: the bios of the queued requests and those sent are together
    the bios brought, each as often as it was.
  */
  lemma BiosConserved(run: seq<Action>, n: nat)
    requires Legal(INIT, run) && forall i :: 0 <= i < |run| ==> run[i].Send? || run[i].x < n
    ensures Held(After(INIT, run).rqs, n) + AllSent(INIT, run) == AllBrought(run)
  {
    assert Inv(INIT);
    HeldNone(n);
    hide Held;
    RunHeld(INIT, run, n);
  }

  lemma {:induction false} HeldNone(n: nat)
    ensures Held(INIT.rqs, n) == multiset{}
  {
    if n > 0 { HeldNone(n - 1); }
  }
}
