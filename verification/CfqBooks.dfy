/**
  The books of cfq's queue merging (block/cfq-iosched.c), exact: which process
  references there are, whether a queue nobody uses is freed, and which queue a
  request goes to.
*/
module CfqBooks {
  import opened Lists
  import opened CfqMerge

  /** Process references of n beyond those of its holders and of the queues merging into it. */
  function Extra(qs: seq<Slot>, hs: seq<Option<nat>>, n: nat): int {
    (if n < |qs| then ProcessRefs(qs[n]) else 0) - Attached(hs, n) - Inflow(qs, n)
  }

  lemma HolderExtra(qs: seq<Slot>, hs: seq<Option<nat>>, h: nat, v: Option<nat>, n: nat)
    requires h < |hs|
    ensures Extra(qs, hs[h := v], n) == Extra(qs, hs, n) + One(hs[h], n) - One(v, n)
  {
    AttachedUpdate(hs, h, v, n);
  }

  lemma SlotExtra(qs: seq<Slot>, hs: seq<Option<nat>>, i: nat, c: Slot, n: nat)
    requires i < |qs|
    ensures Extra(qs[i := c], hs, n) ==
            Extra(qs, hs, n) + (if n == i then ProcessRefs(c) - ProcessRefs(qs[i]) else 0) + Passed(qs[i], n) - Passed(c, n)
  {
    InflowUpdate(qs, i, c, n);
  }

  // ------------------------------------------------------------- each operation

  /** A put takes a reference from the queue, and one from what it passes on. */
  lemma PutExtra(s: State, q: nat, n: nat)
    requires !s.bug && SlotsOk(s.qs) && ServiceOk(s.qs, s.active) && q < |s.qs| && ProcessRefs(s.qs[q]) >= 1
    ensures s.qs[q].Live? && |Put(s, q).qs| == |s.qs|
    ensures Extra(Put(s, q).qs, s.holders, n) == Extra(s.qs, s.holders, n) - One(Some(q), n) + One(s.qs[q].next, n)
  {
    PutBooks(s, q);
    hide Put, SlotsOk, ServiceOk;
  }

  lemma {:induction false} PutAllExtra(s: State, l: seq<nat>, n: nat)
    requires !s.bug && SlotsOk(s.qs) && ServiceOk(s.qs, s.active) && Linked(s.qs, l)
    ensures Extra(PutAll(s, l).qs, s.holders, n) == Extra(s.qs, s.holders, n) - One(Head(l), n)
    decreases |l|
  {
    if l != [] {
      assert Alive(s.qs, l[0]);
      hide Put, SlotsOk, ServiceOk, Extra;
      PutBooks(s, l[0]);
      PutExtra(s, l[0], n);
      LinkedRest(s.qs, Put(s, l[0]).qs, l);
      hide Linked;
      PutAllExtra(Put(s, l[0]), l[1..], n);
    }
  }

  lemma DropExtra(s: State, h: nat, n: nat)
    requires Inv(s) && Holds(s, h)
    ensures Alive(s.qs, s.holders[h].value) && |Drop(s, h).qs| == |s.qs|
    ensures Extra(Drop(s, h).qs, Drop(s, h).holders, n) == Extra(s.qs, s.holders, n) + One(s.qs[s.holders[h].value].next, n)
  {
    HolderRefs(s, h);
    var q, s0 := s.holders[h].value, s.(holders := s.holders[h := None]);
    PutBooks(s0, q);
    hide Put, Extra;
    PutExtra(s0, q, n);
    HolderExtra(s.qs, s.holders, h, None, n);
  }

  lemma MergeExtra(s: State, h: nat, n: nat)
    requires Inv(s) && Holds(s, h) && Alive(s.qs, s.holders[h].value) && s.qs[s.holders[h].value].next.Some?
    ensures |Merge(s, h).qs| == |s.qs| && Extra(Merge(s, h).qs, Merge(s, h).holders, n) == Extra(s.qs, s.holders, n)
  {
    HolderRefs(s, h);
    var q := s.holders[h].value;
    NextFunded(s.qs, s.holders, q);
    var s0 := s.(holders := s.holders[h := s.qs[q].next]);
    PutBooks(s0, q);
    hide Put, Extra;
    PutExtra(s0, q, n);
    HolderExtra(s.qs, s.holders, h, s.qs[q].next, n);
  }

  lemma ReleaseExtra(s: State, h: nat, n: nat)
    requires Inv(s) && Holds(s, h)
    ensures |Release(s, h).qs| == |s.qs| && Extra(Release(s, h).qs, Release(s, h).holders, n) == Extra(s.qs, s.holders, n)
  {
    HolderRefs(s, h);
    var q := s.holders[h].value;
    var s0 := s.(holders := s.holders[h := None]);
    var l := Chain(s.qs, q, Depth(s.qs, q));
    ChainLinked(s.qs, s.holders, q, Depth(s.qs, q));
    assert Mid(s0.qs, s0.holders, Some(q), Head(l), Head(l));
    PutAllBooks(s0, l, Some(q), Head(l));
    hide Put, Extra, PutAll, Chain, Depth, Linked, Inflow, Attached;
    PutAllExtra(s0, l, n);
    PutBooks(PutAll(s0, l), q);
    PutExtra(PutAll(s0, l), q, n);
    HolderExtra(s.qs, s.holders, h, None, n);
  }

  lemma ListsExtra(s: State, q: nat, c: Slot, n: nat)
    requires Alive(s.qs, q) && c.Live? && ProcessRefs(c) == ProcessRefs(s.qs[q]) && c.next == s.qs[q].next
    ensures Extra(s.qs[q := c], s.holders, n) == Extra(s.qs, s.holders, n)
  {
    SlotExtra(s.qs, s.holders, q, c, n);
  }

  lemma ExitExtra(s: State, h: nat, n: nat)
    requires Inv(s) && Holds(s, h)
    ensures |Exit(s, h).qs| == |s.qs| && Extra(Exit(s, h).qs, Exit(s, h).holders, n) == Extra(s.qs, s.holders, n)
  {
    var q := s.holders[h].value;
    hide Inv, Release, Extra;
    if s.active == Some(q) && Alive(s.qs, q) {
      ExpireKeeps(s, q);
      ListsExtra(s, q, Expire(s, q).qs[q], n);
      ReleaseExtra(Expire(s, q), h, n);
    } else {
      ReleaseExtra(s, h, n);
    }
  }

  lemma GetNewExtra(s: State, h: nat, i: nat, sync: bool, n: nat)
    requires h < |s.holders| && s.holders[h].None? && i < |s.qs| && s.qs[i].Free?
    ensures Extra(GetNew(s, h, i, sync).qs, GetNew(s, h, i, sync).holders, n) == Extra(s.qs, s.holders, n)
  {
    hide Extra;
    var c := Live(sync, 1, 0, 0, 0, false, None);
    SlotExtra(s.qs, s.holders, i, c, n);
    HolderExtra(s.qs[i := c], s.holders, h, Some(i), n);
  }

  lemma GetSharedExtra(s: State, h: nat, q: nat, n: nat)
    requires h < |s.holders| && s.holders[h].None? && Alive(s.qs, q) && s.qs[q].next.None?
    ensures Extra(GetShared(s, h, q).qs, GetShared(s, h, q).holders, n) == Extra(s.qs, s.holders, n)
  {
    hide Extra;
    var c := s.qs[q].(ref := s.qs[q].ref + 1);
    SlotExtra(s.qs, s.holders, q, c, n);
    HolderExtra(s.qs[q := c], s.holders, h, Some(q), n);
  }

  lemma RequestPutExtra(s: State, q: nat, c1: Slot, n: nat)
    requires Inv(s) && Alive(s.qs, q) && c1.Live? && c1.sync == s.qs[q].sync && c1.next == s.qs[q].next
    requires c1.ref == s.qs[q].ref && ProcessRefs(c1) == ProcessRefs(s.qs[q]) + 1 && ProcessRefs(s.qs[q]) >= 0 && SameLists(c1, s.qs[q])
    ensures var s1 := s.(qs := s.qs[q := c1]); |Put(s1, q).qs| == |s.qs| && Put(s1, q).holders == s.holders
    ensures Extra(Put(s.(qs := s.qs[q := c1]), q).qs, s.holders, n) == Extra(s.qs, s.holders, n)
  {
    RequestGone(s, q, c1);
    hide Acyclic, Mid, SlotsOk, Put, Funded, HoldersOk, ServiceOk, Inflow, Attached;
    var s1 := s.(qs := s.qs[q := c1]);
    PutBooks(s1, q);
    PutExtra(s1, q, n);
    SlotExtra(s.qs, s.holders, q, c1, n);
    hide Extra;
  }

  lemma PutRequestExtra(s: State, q: nat, write: bool, n: nat)
    requires Inv(s) && Returnable(s.qs, q, write)
    ensures |PutRequest(s, q, write).qs| == |s.qs|
    ensures Extra(PutRequest(s, q, write).qs, PutRequest(s, q, write).holders, n) == Extra(s.qs, s.holders, n)
  {
    hide Inv, Put, Extra;
    RefsCover(s, q);
    var c := s.qs[q];
    RequestPutExtra(s, q, if write then c.(writeRqs := c.writeRqs - 1) else c.(readRqs := c.readRqs - 1), n);
  }

  lemma LinkExtra(qs: seq<Slot>, hs: seq<Option<nat>>, a: nat, b: nat, n: nat)
    requires Alive(qs, a) && Alive(qs, b) && a != b && qs[a].next.None? && qs[b].next.None?
    ensures Extra(Link(qs, a, b), hs, n) == Extra(qs, hs, n)
  {
    hide Extra;
    var c := qs[a].(next := Some(b));
    SlotExtra(qs, hs, a, c, n);
    SlotExtra(qs[a := c], hs, b, Link(qs, a, b)[b], n);
  }

  lemma SetupMergeExtra(s: State, q: nat, m: nat, n: nat)
    requires Inv(s) && Alive(s.qs, q) && Alive(s.qs, m) && q != m && s.qs[q].next.None?
    ensures var s' := SetupMerge(s, q, m); |s'.qs| == |s.qs| && Extra(s'.qs, s'.holders, n) == Extra(s.qs, s.holders, n)
  {
    assert SlotOk(s.qs, m);
    hide Extra, Link;
    if ProcessRefs(s.qs[m]) != 0 {
      assert Walkable(s.qs, m);
      var k := Depth(s.qs, m);
      var e := Last(s.qs, m, k);
      LastInChain(s.qs, m, k);
      if q !in Chain(s.qs, m, k) {
        LinkExtra(s.qs, s.holders, q, e, n);
        LinkExtra(s.qs, s.holders, e, q, n);
        LinkSize(s.qs, q, e);
        LinkSize(s.qs, e, q);
      }
    }
  }

  lemma LinkSize(qs: seq<Slot>, a: nat, b: nat)
    requires Alive(qs, a) && Alive(qs, b)
    ensures |Link(qs, a, b)| == |qs|
  {}

  lemma QueueExtra(s: State, h: nat, i: nat, sync: bool, n: nat)
    requires Inv(s) && h < |s.holders| && i < |s.qs| && s.qs[i].Free?
    ensures var s' := Queue(s, h, i, sync); |s'.qs| == |s.qs| && Extra(s'.qs, s'.holders, n) == Extra(s.qs, s.holders, n)
  {
    hide Inv, Merge, Extra;
    if s.holders[h].None? {
      GetNewExtra(s, h, i, sync, n);
    } else if Alive(s.qs, s.holders[h].value) && s.qs[s.holders[h].value].next.Some? {
      MergeExtra(s, h, n);
    }
  }

  lemma SetRequestExtra(s: State, h: nat, breakUp: bool, i: nat, sync: bool, write: bool, n: nat)
    requires Inv(s) && Enabled(s, Request(h, breakUp, i, sync, write))
    ensures var s' := SetRequest(s, h, breakUp, i, sync, write);
            |s'.qs| == |s.qs| && Extra(s'.qs, s'.holders, n) == Extra(s.qs, s.holders, n)
  {
    var s1 := if Holds(s, h) && breakUp then Split(s, h) else s;
    if Holds(s, h) && breakUp {
      SplitKeeps(s, h);
      SplitSizes(s, h);
      ReleaseExtra(s, h, n);
      HolderRefs(s, h);
    }
    hide Inv, Split, Queue, Extra;
    InvNoBug(s1);
    QueueKeeps(s1, h, i, sync);
    QueueExtra(s1, h, i, sync, n);
    var s2 := Queue(s1, h, i, sync);
    HolderRefs(s2, h);
    ListsExtra(s2, s2.holders[h].value, GetRequest(s2, h, write).qs[s2.holders[h].value], n);
  }

  // ------------------------------------------------------------------- every run

  /** Whether an action lets go of a queue that is scheduled to merge into n, without giving back what n was given. */
  ghost function Loses(s: State, a: Action, n: nat): nat {
    if a.Leave? && Holds(s, a.h) && Alive(s.qs, s.holders[a.h].value) then One(s.qs[s.holders[a.h].value].next, n) else 0
  }

  lemma NextExtra(s: State, a: Action, n: nat)
    requires Inv(s) && Enabled(s, a)
    ensures var s' := Next(s, a); |s'.qs| == |s.qs| && Extra(s'.qs, s'.holders, n) == Extra(s.qs, s.holders, n) + Loses(s, a, n)
  {
    hide Inv, Drop, Exit, SetRequest, PutRequest, SetupMerge, Extra;
    match a
    case New(h, i, sync) => GetNewExtra(s, h, i, sync, n);
    case Share(h, g) =>
      AsyncEnds(s, s.holders[g].value);
      GetSharedExtra(s, h, s.holders[g].value, n);
    case Leave(h) => DropExtra(s, h, n);
    case ExitHolder(h) => ExitExtra(s, h, n);
    case Request(h, breakUp, i, sync, write) => SetRequestExtra(s, h, breakUp, i, sync, write, n);
    case RequestDone(q, write) => PutRequestExtra(s, q, write, n);
    case Close(q, m) => SetupMergeExtra(s, q, m, n);
    case Sort(q) => ListsExtra(s, q, AddSorted(s, q).qs[q], n);
    case Unsort(q) => ListsExtra(s, q, RemoveSorted(s, q).qs[q], n);
    case Serve(q) =>
    case SliceEnd(q) => ListsExtra(s, q, Expire(s, q).qs[q], n);
  }

  lemma AsyncEnds(s: State, q: nat)
    requires Inv(s) && Alive(s.qs, q) && !s.qs[q].sync
    ensures s.qs[q].next.None?
  {
    assert SlotOk(s.qs, q);
  }

  /** References a run loses at n. */
  ghost function Lost(s: State, run: seq<Action>, n: nat): nat
    requires Legal(s, run)
    decreases |run|
  {
    if run == [] then 0 else Loses(s, run[0], n) + Lost(Next(s, run[0]), run[1..], n)
  }

  lemma {:induction false} RunExtra(s: State, run: seq<Action>, n: nat)
    requires Inv(s) && Legal(s, run)
    ensures var s' := After(s, run);
            && Inv(s') && |s'.qs| == |s.qs| && Extra(s'.qs, s'.holders, n) == Extra(s.qs, s.holders, n) + Lost(s, run, n)
    decreases |run|
  {
    hide Inv, Extra, Loses;
    if run != [] {
      NextKeeps(s, run[0]);
      NextExtra(s, run[0], n);
      RunExtra(Next(s, run[0]), run[1..], n);
    }
  }

  /**
    After every run the process references of a queue are those of its holders, those of the queues merging into it, and
    one for every time a holder let go of such a queue without following the chain.
  */
  lemma BooksExact(slots: nat, holders: nat, run: seq<Action>, n: nat)
    requires Legal(Init(slots, holders), run) && n < slots
    ensures var s := After(Init(slots, holders), run);
            && |s.qs| == slots
            && ProcessRefs(s.qs[n]) == Attached(s.holders, n) + Inflow(s.qs, n) + Lost(Init(slots, holders), run, n)
  {
    var s := Init(slots, holders);
    InitOk(slots, holders);
    InflowFree(s.qs, n);
    AttachedNone(s.holders, n);
    RunExtra(s, run, n);
  }

  function Requests(c: Slot): nat { if c.Free? then 0 else c.readRqs + c.writeRqs }

  /** A queue is freed just when it has no request, no holder, no queue merging into it, and no reference was lost there. */
  lemma FreedWhenUnused(slots: nat, holders: nat, run: seq<Action>, n: nat)
    requires Legal(Init(slots, holders), run) && n < slots
    ensures var s := After(Init(slots, holders), run);
            && |s.qs| == slots
            && (s.qs[n].Free? <==>
                  Requests(s.qs[n]) == 0 && Attached(s.holders, n) == 0 && Inflow(s.qs, n) == 0 && Lost(Init(slots, holders), run, n) == 0)
  {
    var s := After(Init(slots, holders), run);
    BooksExact(slots, holders, run, n);
    InitOk(slots, holders);
    RunKeeps(Init(slots, holders), run);
    assert SlotOk(s.qs, n);
    forall i: nat | i < |s.qs| ensures ProcessRefs(s.qs[i]) >= 0 { assert SlotOk(s.qs, i); }
    InflowAtLeast(s.qs, n, n);
    hide Inflow, Attached, Lost, After, Inv;
  }

  /** The round robin at the end of a list: an emptied queue leaves it unless it is being served, any other stays. */
  lemma UnsortedIs(s: State, q: nat)
    requires Inv(s) && Enabled(s, Unsort(q))
    ensures var s' := RemoveSorted(s, q);
            && s' == s.(qs := s'.qs) && Alive(s'.qs, q) && s'.qs == s.qs[q := s'.qs[q]]
            && s'.qs[q].sorted == s.qs[q].sorted - 1 && (s'.qs[q].onRr <==> s'.qs[q].sorted > 0 || s.active == Some(q))
            && s'.qs[q] == s.qs[q].(sorted := s'.qs[q].sorted, onRr := s'.qs[q].onRr)
  {
    hide Funded, Acyclic, SlotOk, HoldersOk;
  }

  // ------------------------------------------------------ where a request goes

  /** Allocated requests of one kind; a free slot has none. */
  function Of(c: Slot, write: bool): nat { if c.Free? then 0 else if write then c.writeRqs else c.readRqs }

  ghost predicate SameRequests(qs: seq<Slot>, qs': seq<Slot>) {
    |qs'| == |qs| && forall n: nat, w: bool :: n < |qs| ==> Of(qs'[n], w) == Of(qs[n], w)
  }

  lemma PutRequests(s: State, q: nat)
    requires !s.bug && SlotsOk(s.qs) && ServiceOk(s.qs, s.active) && q < |s.qs| && ProcessRefs(s.qs[q]) >= 1
    ensures SameRequests(s.qs, Put(s, q).qs)
  {
    PutIs(s, q);
    assert SlotOk(s.qs, q);
    hide Put, ServiceOk, SlotsOk;
  }

  lemma {:induction false} PutAllRequests(s: State, l: seq<nat>)
    requires !s.bug && SlotsOk(s.qs) && ServiceOk(s.qs, s.active) && Linked(s.qs, l)
    ensures SameRequests(s.qs, PutAll(s, l).qs)
    decreases |l|
  {
    if l != [] {
      assert Alive(s.qs, l[0]);
      hide Put, SlotsOk, ServiceOk;
      PutBooks(s, l[0]);
      PutRequests(s, l[0]);
      LinkedRest(s.qs, Put(s, l[0]).qs, l);
      hide Linked;
      PutAllRequests(Put(s, l[0]), l[1..]);
    }
  }

  lemma ReleaseIs(s: State, h: nat)
    requires Inv(s) && Holds(s, h)
    ensures SameRequests(s.qs, Release(s, h).qs) && Release(s, h).holders == s.holders[h := None]
  {
    HolderRefs(s, h);
    var q := s.holders[h].value;
    var s0 := s.(holders := s.holders[h := None]);
    var l := Chain(s.qs, q, Depth(s.qs, q));
    ChainLinked(s.qs, s.holders, q, Depth(s.qs, q));
    assert Mid(s0.qs, s0.holders, Some(q), Head(l), Head(l));
    PutAllBooks(s0, l, Some(q), Head(l));
    hide Put, PutAll, Chain, Depth, Linked, Inflow, Attached;
    PutAllRequests(s0, l);
    PutBooks(PutAll(s0, l), q);
    PutRequests(PutAll(s0, l), q);
  }

  /** The queue a request of holder h belongs in: a fresh one, the one its queue merges into, or its queue. */
  function Target(s: State, h: nat, breakUp: bool, i: nat): nat
    requires h < |s.holders|
  {
    if s.holders[h].None? || !Alive(s.qs, s.holders[h].value) then i
    else
      var q := s.holders[h].value;
      if breakUp && ProcessRefs(s.qs[q]) > 1 then i
      else if s.qs[q].next.Some? then s.qs[q].next.value
      else q
  }

  lemma QueueIs(s: State, h: nat, i: nat, sync: bool)
    requires Inv(s) && h < |s.holders| && i < |s.qs| && s.qs[i].Free?
    ensures var s' := Queue(s, h, i, sync);
            SameRequests(s.qs, s'.qs) && s'.holders == s.holders[h := Some(Target(s, h, false, i))]
  {
    if s.holders[h].None? {
    } else {
      HolderRefs(s, h);
      var q := s.holders[h].value;
      if s.qs[q].next.Some? {
        NextFunded(s.qs, s.holders, q);
        var s0 := s.(holders := s.holders[h := s.qs[q].next]);
        PutBooks(s0, q);
        hide Put;
        PutRequests(s0, q);
      }
    }
  }

  lemma SplitIs(s: State, h: nat)
    requires Inv(s) && Holds(s, h)
    ensures var (s', q) := (Split(s, h), s.holders[h].value);
            && Alive(s.qs, q) && ProcessRefs(s.qs[q]) >= 1 && SameRequests(s.qs, s'.qs)
            && (if ProcessRefs(s.qs[q]) == 1 then s' == s else s'.holders == s.holders[h := None])
  {
    HolderRefs(s, h);
    hide Inv, Release;
    ReleaseIs(s, h);
  }

  lemma GetRequestIs(s: State, h: nat, write: bool)
    requires Holds(s, h) && Alive(s.qs, s.holders[h].value)
    ensures var (s', q) := (GetRequest(s, h, write), s.holders[h].value);
            && s'.holders == s.holders && |s'.qs| == |s.qs| && Alive(s'.qs, q)
            && (forall n: nat, w: bool :: n < |s.qs| ==> Of(s'.qs[n], w) == Of(s.qs[n], w) + if n == q && w == write then 1 else 0)
  {}

  lemma BrokenUp(s: State, h: nat, breakUp: bool, i: nat)
    requires Inv(s) && h < |s.holders|
    ensures var s1 := if Holds(s, h) && breakUp then Split(s, h) else s;
            && Inv(s1) && !s1.bug && |s1.holders| == |s.holders| && SameRequests(s.qs, s1.qs)
            && var t := Target(s, h, breakUp, i); Target(s1, h, false, i) == t && s1.holders[h := Some(t)] == s.holders[h := Some(t)]
  {
    if Holds(s, h) {
      HolderRefs(s, h);
      if breakUp {
        SplitKeeps(s, h);
        SplitIs(s, h);
      }
    }
    hide Split;
  }

  /**
    cfq_set_request: the request is counted, once and in its direction, with the queue it belongs in, and the context
    holds that queue from then on.
  */
  lemma SetRequestIs(s: State, h: nat, breakUp: bool, i: nat, sync: bool, write: bool)
    requires Inv(s) && Enabled(s, Request(h, breakUp, i, sync, write))
    ensures var (s', t) := (SetRequest(s, h, breakUp, i, sync, write), Target(s, h, breakUp, i));
            && s'.holders == s.holders[h := Some(t)] && |s'.qs| == |s.qs| && Alive(s'.qs, t)
            && (forall n: nat, w: bool :: n < |s.qs| ==> Of(s'.qs[n], w) == Of(s.qs[n], w) + if n == t && w == write then 1 else 0)
  {
    hide Inv, Split, Queue, GetRequest, Of, Target;
    BrokenUp(s, h, breakUp, i);
    var s1 := if Holds(s, h) && breakUp then Split(s, h) else s;
    QueueKeeps(s1, h, i, sync);
    QueueIs(s1, h, i, sync);
    var s2 := Queue(s1, h, i, sync);
    HolderRefs(s2, h);
    GetRequestIs(s2, h, write);
  }

  // ------------------------------------------------------------ a lost queue

  function Idle(ref: int, next: Option<nat>): Slot { Live(true, ref, 0, 0, 0, false, next) }

  lemma Scheduled(s: State)
    requires s == State([Idle(1, None), Idle(1, None)], [Some(0), Some(1)], None, false)
    ensures SetupMerge(s, 0, 1) == s.(qs := [Idle(1, Some(1)), Idle(2, None)])
  {
    assert Ends(s.qs, 1, 0);
    MergeDirection(s, 0, 1, 0);
    hide SetupMerge;
    var s' := SetupMerge(s, 0, 1);
    assert s'.qs == [s'.qs[0], s'.qs[1]];
  }

  lemma LastExit(s: State)
    requires s == State([Free, Idle(2, None)], [None, Some(1)], None, false)
    ensures Exit(s, 1) == s.(qs := [Free, Idle(1, None)], holders := [None, None])
  {
    assert Ends(s.qs, 1, 0);
    EndsUnique(s.qs, 1, 0, Depth(s.qs, 1));
  }

  lemma NobodyThere(s: State)
    requires s.qs == [Free, Idle(1, None)] && s.holders == [None, None]
    ensures Attached(s.holders, 1) == 0 && Inflow(s.qs, 1) == 0
  {
    AttachedNone(s.holders, 1);
    InflowFree([Free], 1);
    assert s.qs[..1] == [Free];
  }

  lemma Steps(a: Action, b: Action, c: Action, d: Action, e: Action, s0: State, s1: State, s2: State, s3: State, s4: State)
    requires Enabled(s0, a) && s1 == Next(s0, a) && Enabled(s1, b) && s2 == Next(s1, b) && Enabled(s2, c) && s3 == Next(s2, c)
    requires Enabled(s3, d) && s4 == Next(s3, d) && Enabled(s4, e)
    ensures Legal(s0, [a, b, c, d, e]) && After(s0, [a, b, c, d, e]) == Next(s4, e)
  {
    hide Next, Enabled;
    assert [a, b, c, d, e][1..] == [b, c, d, e] && [b, c, d, e][1..] == [c, d, e];
    assert [c, d, e][1..] == [d, e] && [d, e][1..] == [e] && [e][1..] == [];
    assert Legal(Next(s4, e), []);
    assert Legal(s4, [e]) && After(s4, [e]) == Next(s4, e);
    assert Legal(s3, [d, e]) && After(s3, [d, e]) == Next(s4, e);
    assert Legal(s2, [c, d, e]) && After(s2, [c, d, e]) == Next(s4, e);
    assert Legal(s1, [b, c, d, e]) && After(s1, [b, c, d, e]) == Next(s4, e);
  }

  lemma Opened(s1: State, s2: State)
    requires s1 == State([Idle(1, None), Free], [Some(0), None], None, false)
    requires s2 == State([Idle(1, None), Idle(1, None)], [Some(0), Some(1)], None, false)
    ensures Enabled(Init(2, 2), New(0, 0, true)) && Next(Init(2, 2), New(0, 0, true)) == s1
    ensures Enabled(s1, New(1, 1, true)) && Next(s1, New(1, 1, true)) == s2 && Enabled(s2, Close(0, 1))
  {
    hide SetRequest, SetupMerge, Exit, Drop;
  }

  lemma Closed(s3: State, s4: State)
    requires s3 == State([Idle(1, Some(1)), Idle(2, None)], [Some(0), Some(1)], None, false)
    requires s4 == State([Free, Idle(2, None)], [None, Some(1)], None, false)
    ensures Enabled(s3, Leave(0)) && Next(s3, Leave(0)) == s4 && Enabled(s4, ExitHolder(1))
  {
    hide SetRequest, SetupMerge, Exit;
  }

  /**
    A run that loses a queue for good: the process of a queue about to merge changes its cgroup, and the process of the
    queue it would have merged into exits.
  */
  lemma CgroupChangeLoses() returns (run: seq<Action>)
    ensures Legal(Init(2, 2), run)
    ensures var s := After(Init(2, 2), run);
            |s.qs| == 2 && s.qs[1].Live? && Requests(s.qs[1]) == 0 && Attached(s.holders, 1) == 0 && Inflow(s.qs, 1) == 0
  {
    hide SetupMerge, SetRequest, Drop, Exit, Inflow, Attached, Legal, After, Init, Enabled;
    var s1 := State([Idle(1, None), Free], [Some(0), None], None, false);
    var s2 := State([Idle(1, None), Idle(1, None)], [Some(0), Some(1)], None, false);
    var s3 := State([Idle(1, Some(1)), Idle(2, None)], [Some(0), Some(1)], None, false);
    var s4 := State([Free, Idle(2, None)], [None, Some(1)], None, false);
    Opened(s1, s2);
    Scheduled(s2);
    Closed(s3, s4);
    LastExit(s4);
    NobodyThere(Exit(s4, 1));
    run := [New(0, 0, true), New(1, 1, true), Close(0, 1), Leave(0), ExitHolder(1)];
    Steps(run[0], run[1], run[2], run[3], run[4], Init(2, 2), s1, s2, s3, s4);
  }
}
