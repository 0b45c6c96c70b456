/**
  Reference counts of cfq queues and the `new_cfqq` links along which close
  cooperators are merged (block/cfq-iosched.c).

  Memory is a sequence of slots, so that a freed queue's slot may be reused.
  `holders` are the places that own one process reference each: the sync and
  async queue pointers of io contexts and the table of shared async queues.
  `active` is the queue being served, which stays on the round robin while empty.
*/
module CfqMerge {
  import opened Lists

  /** `sorted` counts the requests on sort_list, of the `readRqs` and `writeRqs` allocated. */
  datatype Slot = Free | Live(sync: bool, ref: int, readRqs: nat, writeRqs: nat, sorted: nat, onRr: bool, next: Option<nat>)

  datatype State = State(qs: seq<Slot>, holders: seq<Option<nat>>, active: Option<nat>, bug: bool)

  function Init(slots: nat, holders: nat): State {
    State(seq(slots, _ => Free), seq(holders, _ => None), None, false)
  }

  predicate Alive(qs: seq<Slot>, q: nat) { q < |qs| && qs[q].Live? }

  /** cfqq_process_refs; a free slot has none. */
  function ProcessRefs(s: Slot): int {
    if s.Free? then 0 else s.ref - (s.readRqs + s.writeRqs)
  }

  // ------------------------------------------------------------- operations

  /** cfq_put_queue: drop one reference, freeing the queue with the last one. */
  function Put(s: State, q: nat): State {
    if !Alive(s.qs, q) || s.qs[q].ref <= 0 then s.(bug := true)
    else if s.qs[q].ref > 1 then s.(qs := s.qs[q := s.qs[q].(ref := s.qs[q].ref - 1)])
    else if s.qs[q].sorted != 0 || s.qs[q].readRqs + s.qs[q].writeRqs != 0 then s.(bug := true)
    else
      var s1 := if s.active == Some(q) then Expire(s, q) else s;
      if s1.qs[q].onRr then s1.(bug := true) else s1.(qs := s1.qs[q := Free])
  }

  /** __cfq_slice_expired: an empty queue leaves the round robin. */
  function Expire(s: State, q: nat): (s': State)
    requires Alive(s.qs, q)
    ensures Alive(s'.qs, q)
  {
    s.(qs := s.qs[q := s.qs[q].(onRr := s.qs[q].onRr && s.qs[q].sorted > 0)],
       active := if s.active == Some(q) then None else s.active)
  }

  /** cfq_add_rq_rb: a queue with a request on its list is on the round robin. */
  function AddSorted(s: State, q: nat): State
    requires Alive(s.qs, q)
  {
    s.(qs := s.qs[q := s.qs[q].(sorted := s.qs[q].sorted + 1, onRr := true)])
  }

  /** cfq_remove_request; an empty queue leaves the round robin unless it is being served. */
  function RemoveSorted(s: State, q: nat): State
    requires Alive(s.qs, q)
  {
    var c := s.qs[q];
    if c.sorted == 0 then s.(bug := true)
    else s.(qs := s.qs[q := c.(sorted := c.sorted - 1, onRr := c.onRr && (c.sorted > 1 || s.active == Some(q)))])
  }

  /** __cfq_set_active_queue. */
  function Activate(s: State, q: nat): State { s.(active := Some(q)) }

  /** The links from q reach their end in k steps, over live queues of synchronous requests. */
  ghost predicate Ends(qs: seq<Slot>, q: nat, k: nat)
    decreases k
  {
    && Alive(qs, q)
    && if k == 0 then qs[q].next.None?
       else qs[q].next.Some? && Ends(qs, qs[q].next.value, k - 1) && qs[qs[q].next.value].sync
  }

  /** The queues after q on its chain. */
  ghost function Chain(qs: seq<Slot>, q: nat, k: nat): seq<nat>
    requires Ends(qs, q, k)
    decreases k
  {
    if k == 0 then [] else [qs[q].next.value] + Chain(qs, qs[q].next.value, k - 1)
  }

  function PutAll(s: State, l: seq<nat>): State
    decreases |l|
  {
    if l == [] then s else PutAll(Put(s, l[0]), l[1..])
  }

  /** Length of the chain from a queue that can be walked. */
  ghost function Depth(qs: seq<Slot>, q: nat): nat
    requires exists k :: Ends(qs, q, k)
  {
    var k :| Ends(qs, q, k); k
  }

  ghost predicate Walkable(qs: seq<Slot>, q: nat) { exists k :: Ends(qs, q, k) }

  /** The end of the chain. */
  ghost function Last(qs: seq<Slot>, q: nat, k: nat): (e: nat)
    requires Ends(qs, q, k)
    ensures Alive(qs, e) && qs[e].next.None?
    decreases k
  {
    if k == 0 then q else Last(qs, qs[q].next.value, k - 1)
  }

  /** cfq_put_cooperator: drop the references this queue's merge took along its chain. */
  ghost function PutCooperator(s: State, q: nat): State {
    if !Walkable(s.qs, q) then s.(bug := true) else PutAll(s, Chain(s.qs, q, Depth(s.qs, q)))
  }

  predicate Holds(s: State, h: nat) { h < |s.holders| && s.holders[h].Some? }

  /** cfq_get_queue: a fresh queue in slot i, held by h. */
  function GetNew(s: State, h: nat, i: nat, sync: bool): State
    requires h < |s.holders| && i < |s.qs|
  {
    s.(qs := s.qs[i := Live(sync, 1, 0, 0, 0, false, None)], holders := s.holders[h := Some(i)])
  }

  /** cfq_get_queue on a shared async queue: h takes a reference of its own. */
  function GetShared(s: State, h: nat, q: nat): State
    requires h < |s.holders|
  {
    if !Alive(s.qs, q) then s.(bug := true)
    else s.(qs := s.qs[q := s.qs[q].(ref := s.qs[q].ref + 1)], holders := s.holders[h := Some(q)])
  }

  /** check_blkcg_changed, check_ioprio_changed, cfq_put_async_queues: the holder lets go, chains untouched. */
  function Drop(s: State, h: nat): State
    requires Holds(s, h)
  {
    Put(s.(holders := s.holders[h := None]), s.holders[h].value)
  }

  /** The holder goes away and gives back what its merge took. */
  ghost function Release(s: State, h: nat): State
    requires Holds(s, h)
  {
    var q := s.holders[h].value;
    Put(PutCooperator(s.(holders := s.holders[h := None]), q), q)
  }

  /** cfq_exit_cfqq: the slice of the queue ends first, if it is being served. */
  ghost function Exit(s: State, h: nat): State
    requires Holds(s, h)
  {
    var q := s.holders[h].value;
    if s.active == Some(q) && Alive(s.qs, q) then Release(Expire(s, q), h) else Release(s, h)
  }

  /** split_cfqq: the last process keeps the queue, any other one leaves it. */
  ghost function Split(s: State, h: nat): State
    requires Holds(s, h)
  {
    var q := s.holders[h].value;
    if !Alive(s.qs, q) then s.(bug := true)
    else if ProcessRefs(s.qs[q]) == 1 then s
    else Release(s, h)
  }

  /** cfq_merge_cfqqs: move the holder one link up. */
  function Merge(s: State, h: nat): State
    requires Holds(s, h)
  {
    var q := s.holders[h].value;
    if !Alive(s.qs, q) || s.qs[q].next.None? || !Alive(s.qs, s.qs[q].next.value) then s.(bug := true)
    else Put(s.(holders := s.holders[h := s.qs[q].next]), q)
  }

  /** The request part of cfq_set_request. */
  function GetRequest(s: State, h: nat, write: bool): State
    requires Holds(s, h)
  {
    var q := s.holders[h].value;
    if !Alive(s.qs, q) then s.(bug := true)
    else
      var c := s.qs[q];
      var c1 := if write then c.(writeRqs := c.writeRqs + 1) else c.(readRqs := c.readRqs + 1);
      s.(qs := s.qs[q := c1.(ref := c.ref + 1)])
  }

  /** cfq_put_request. */
  function PutRequest(s: State, q: nat, write: bool): State {
    if !Alive(s.qs, q) || (if write then s.qs[q].writeRqs else s.qs[q].readRqs) == 0 then s.(bug := true)
    else
      var c := s.qs[q];
      Put(s.(qs := s.qs[q := if write then c.(writeRqs := c.writeRqs - 1) else c.(readRqs := c.readRqs - 1)]), q)
  }

  /** cfq_setup_merge: link cfqq and the end of new_cfqq's chain, towards the one with more processes. */
  ghost function SetupMerge(s: State, q: nat, n: nat): State {
    if !Alive(s.qs, q) || !Alive(s.qs, n) then s.(bug := true)
    else if ProcessRefs(s.qs[n]) == 0 then s
    else if !Walkable(s.qs, n) then s.(bug := true)
    else
      var k := Depth(s.qs, n);
      if q in Chain(s.qs, n, k) then s
      else
        var e := Last(s.qs, n, k);
        var (p, pe) := (ProcessRefs(s.qs[q]), ProcessRefs(s.qs[e]));
        if p == 0 || pe == 0 then s
        else if pe >= p then s.(qs := Link(s.qs, q, e))
        else s.(qs := Link(s.qs, e, q))
  }

  /** Queue a will merge into b; b takes over a reference for every process of a. */
  function Link(qs: seq<Slot>, a: nat, b: nat): seq<Slot>
    requires Alive(qs, a) && Alive(qs, b)
  {
    var qs1 := qs[a := qs[a].(next := Some(b))];
    qs1[b := qs1[b].(ref := qs1[b].ref + ProcessRefs(qs[a]))]
  }

  // -------------------------------------------------------------- accounting

  /** Process references of the queue in slot i that its merge passed on to n. */
  function Passed(s: Slot, n: nat): int {
    if s.Live? && s.next == Some(n) then ProcessRefs(s) else 0
  }

  /** What all queues merging into n passed on to it. */
  function Inflow(qs: seq<Slot>, n: nat): int {
    if qs == [] then 0 else Inflow(qs[..|qs| - 1], n) + Passed(qs[|qs| - 1], n)
  }

  /** Holders attached to n. */
  function Attached(holders: seq<Option<nat>>, n: nat): nat {
    if holders == [] then 0
    else Attached(holders[..|holders| - 1], n) + if holders[|holders| - 1] == Some(n) then 1 else 0
  }

  lemma {:induction false} InflowUpdate(qs: seq<Slot>, i: nat, c: Slot, n: nat)
    requires i < |qs|
    ensures Inflow(qs[i := c], n) == Inflow(qs, n) - Passed(qs[i], n) + Passed(c, n)
  {
    var l := |qs| - 1;
    if i == l {
      assert qs[i := c][..l] == qs[..l];
    } else {
      assert qs[i := c][..l] == qs[..l][i := c];
      InflowUpdate(qs[..l], i, c, n);
    }
  }

  lemma {:induction false} AttachedUpdate(hs: seq<Option<nat>>, h: nat, v: Option<nat>, n: nat)
    requires h < |hs|
    ensures Attached(hs[h := v], n) == Attached(hs, n) - (if hs[h] == Some(n) then 1 else 0) + if v == Some(n) then 1 else 0
  {
    var l := |hs| - 1;
    if h == l {
      assert hs[h := v][..l] == hs[..l];
    } else {
      assert hs[h := v][..l] == hs[..l][h := v];
      AttachedUpdate(hs[..l], h, v, n);
    }
  }

  predicate SlotOk(qs: seq<Slot>, i: nat)
    requires i < |qs|
  {
    qs[i].Live? ==>
      && qs[i].ref >= 1 && ProcessRefs(qs[i]) >= 0 && qs[i].sorted <= qs[i].readRqs + qs[i].writeRqs
      && (qs[i].next.Some? ==> qs[i].sync && qs[i].next.value < |qs|)
  }

  ghost predicate SlotsOk(qs: seq<Slot>) {
    forall i: nat :: i < |qs| ==> SlotOk(qs, i)
  }

  lemma {:induction false} InflowAtLeast(qs: seq<Slot>, x: nat, n: nat)
    requires x < |qs| && forall i: nat :: i < |qs| ==> ProcessRefs(qs[i]) >= 0
    ensures Inflow(qs, n) >= Passed(qs[x], n)
    ensures Inflow(qs, n) >= 0
  {
    var l := |qs| - 1;
    if l == 0 {
      assert qs[..l] == [];
    } else if x == l {
      InflowAtLeast(qs[..l], 0, n);
    } else {
      InflowAtLeast(qs[..l], x, n);
    }
  }

  lemma {:induction false} AttachedAtLeast(hs: seq<Option<nat>>, h: nat, n: nat)
    requires h < |hs| && hs[h] == Some(n)
    ensures Attached(hs, n) >= 1
  {
    if h < |hs| - 1 {
      AttachedAtLeast(hs[..|hs| - 1], h, n);
    }
  }

  /**
    Every queue has a process reference for each holder attached to it and for
    each process reference of each queue merging into it; the queue named by
    `debt` may be one short.
  */
  ghost predicate Funded(qs: seq<Slot>, hs: seq<Option<nat>>, debt: Option<nat>) {
    forall n: nat :: n < |qs| ==>
      ProcessRefs(qs[n]) + (if debt == Some(n) then 1 else 0) >= Attached(hs, n) + Inflow(qs, n)
  }

  ghost predicate Acyclic(qs: seq<Slot>) {
    forall q: nat :: q < |qs| && ProcessRefs(qs[q]) > 0 ==> Walkable(qs, q)
  }

  ghost predicate HoldersOk(qs: seq<Slot>, hs: seq<Option<nat>>) {
    forall h: nat :: h < |hs| && hs[h].Some? ==> hs[h].value < |qs|
  }

  /** A queue with a request to serve is on the round robin; one without only while it is being served. */
  ghost predicate ServiceOk(qs: seq<Slot>, active: Option<nat>) {
    && (active.Some? ==> Alive(qs, active.value))
    && (forall i: nat :: i < |qs| && qs[i].Live? && qs[i].sorted > 0 ==> qs[i].onRr)
    && (forall i: nat :: i < |qs| && qs[i].Live? && qs[i].onRr ==> qs[i].sorted > 0 || active == Some(i))
  }

  ghost predicate Inv(s: State) {
    && !s.bug && SlotsOk(s.qs) && HoldersOk(s.qs, s.holders) && Funded(s.qs, s.holders, None) && Acyclic(s.qs)
    && ServiceOk(s.qs, s.active)
  }

  /** A queue with a process reference passes it on: everything it merges into is alive and funded. */
  lemma NextFunded(qs: seq<Slot>, hs: seq<Option<nat>>, q: nat)
    requires SlotsOk(qs) && Funded(qs, hs, None) && q < |qs| && qs[q].Live? && qs[q].next.Some?
    ensures qs[q].next.value < |qs| && ProcessRefs(qs[qs[q].next.value]) >= ProcessRefs(qs[q])
  {
    var n := qs[q].next.value;
    assert SlotOk(qs, q);
    forall i: nat | i < |qs| ensures ProcessRefs(qs[i]) >= 0 {
      assert SlotOk(qs, i);
    }
    InflowAtLeast(qs, q, n);
  }

  /** Links survive as long as their owners keep process references. */
  lemma {:induction false} EndsSurvives(qs: seq<Slot>, qs': seq<Slot>, hs: seq<Option<nat>>, q: nat, k: nat)
    requires Ends(qs, q, k) && |qs'| == |qs|
    requires forall i: nat :: i < |qs| && qs'[i].Live? && ProcessRefs(qs'[i]) > 0 ==>
               qs[i].Live? && qs[i].sync == qs'[i].sync && qs[i].next == qs'[i].next
    requires SlotsOk(qs') && Funded(qs', hs, None) && ProcessRefs(qs'[q]) > 0
    ensures Ends(qs', q, k)
    decreases k
  {
    if k > 0 {
      NextFunded(qs', hs, q);
      EndsSurvives(qs, qs', hs, qs[q].next.value, k - 1);
    }
  }

  lemma AcyclicSurvives(qs: seq<Slot>, qs': seq<Slot>, hs: seq<Option<nat>>)
    requires Acyclic(qs) && |qs'| == |qs| && SlotsOk(qs') && Funded(qs', hs, None)
    requires forall i: nat :: i < |qs| && qs'[i].Live? && ProcessRefs(qs'[i]) > 0 ==>
               qs[i].Live? && qs[i].sync == qs'[i].sync && qs[i].next == qs'[i].next && ProcessRefs(qs[i]) > 0
    ensures Acyclic(qs')
  {
    forall q: nat | q < |qs'| && ProcessRefs(qs'[q]) > 0 ensures Walkable(qs', q) {
      assert Walkable(qs, q);
      var k :| Ends(qs, q, k);
      EndsSurvives(qs, qs', hs, q, k);
    }
  }

  // ------------------------------------------------------------ preservation

  /** cfq_put_queue with a process reference to drop: none of its tests fires. */
  lemma PutIs(s: State, q: nat)
    requires !s.bug && SlotsOk(s.qs) && ServiceOk(s.qs, s.active) && q < |s.qs| && ProcessRefs(s.qs[q]) >= 1
    ensures var s' := Put(s, q);
            && !s'.bug && s'.holders == s.holders && s'.qs == s.qs[q := s'.qs[q]] && ServiceOk(s'.qs, s'.active)
            && (s'.qs[q].Live? ==> s'.qs[q] == s.qs[q].(ref := s.qs[q].ref - 1))
            && (s'.qs[q].Live? <==> s.qs[q].ref > 1)
  {
    assert SlotOk(s.qs, q);
    var c := s.qs[q];
    if c.ref == 1 {
      var s' := Put(s, q);
      assert s'.qs == s.qs[q := Free];
    }
  }

  /** What cfq_put_queue does to the books when there is a process reference to drop. */
  lemma PutBooks(s: State, q: nat)
    requires !s.bug && SlotsOk(s.qs) && ServiceOk(s.qs, s.active) && q < |s.qs| && ProcessRefs(s.qs[q]) >= 1
    ensures var s' := Put(s, q);
            && !s'.bug && SlotsOk(s'.qs) && ServiceOk(s'.qs, s'.active) && |s'.qs| == |s.qs| && s'.holders == s.holders
            && ProcessRefs(s'.qs[q]) == ProcessRefs(s.qs[q]) - 1
            && (forall i: nat :: i < |s.qs| && i != q ==> s'.qs[i] == s.qs[i])
            && (s'.qs[q].Live? ==> s'.qs[q].next == s.qs[q].next && s'.qs[q].sync == s.qs[q].sync)
            && (forall n: nat :: Inflow(s'.qs, n) == Inflow(s.qs, n) - if s.qs[q].next == Some(n) then 1 else 0)
  {
    var s' := Put(s, q);
    assert SlotOk(s.qs, q);
    PutIs(s, q);
    hide Put, ServiceOk;
    forall n: nat ensures Inflow(s'.qs, n) == Inflow(s.qs, n) - if s.qs[q].next == Some(n) then 1 else 0 {
      InflowUpdate(s.qs, q, s'.qs[q], n);
    }
    forall i: nat | i < |s'.qs| ensures SlotOk(s'.qs, i) {
      assert SlotOk(s.qs, i);
    }
  }

  /** The books in the middle of an operation: q has one reference too many, y too, and `debt` one too few. */
  ghost predicate Mid(qs: seq<Slot>, hs: seq<Option<nat>>, q: Option<nat>, y: Option<nat>, debt: Option<nat>) {
    forall n: nat :: n < |qs| ==>
      ProcessRefs(qs[n]) + One(debt, n) >= Attached(hs, n) + Inflow(qs, n) + One(q, n) + One(y, n)
  }

  function One(o: Option<nat>, n: nat): nat { if o == Some(n) then 1 else 0 }

  /** Dropping the surplus reference of y hands the surplus to the queue it merges into. */
  lemma PutShifts(s: State, q: Option<nat>, y: nat, debt: Option<nat>)
    requires !s.bug && SlotsOk(s.qs) && ServiceOk(s.qs, s.active) && y < |s.qs| && ProcessRefs(s.qs[y]) >= 1
    requires Mid(s.qs, s.holders, q, Some(y), debt)
    ensures Mid(Put(s, y).qs, s.holders, q, s.qs[y].next, debt)
  {
    PutBooks(s, y);
  }

  ghost predicate Linked(qs: seq<Slot>, l: seq<nat>) {
    && (forall i :: 0 <= i < |l| ==> Alive(qs, l[i]) && ProcessRefs(qs[l[i]]) >= 1)
    && (forall i :: 0 <= i < |l| - 1 ==> qs[l[i]].next == Some(l[i + 1]))
    && (l != [] ==> qs[l[|l| - 1]].next == None)
    && (forall i, j :: 0 <= i < j < |l| ==> l[i] != l[j])
  }

  function Head(l: seq<nat>): Option<nat> { if l == [] then None else Some(l[0]) }

  /** The slots in l lost references or their queue; links of queues that remain are as they were. */
  ghost predicate Dropped(qs: seq<Slot>, qs': seq<Slot>, l: seq<nat>) {
    && |qs'| == |qs|
    && (forall i: nat :: i < |qs| && i !in l ==> qs'[i] == qs[i])
    && (forall i: nat :: i < |qs| && qs'[i].Live? ==>
          qs[i].Live? && qs'[i].sync == qs[i].sync && qs'[i].next == qs[i].next && ProcessRefs(qs'[i]) <= ProcessRefs(qs[i]))
  }

  lemma LinkedRest(qs: seq<Slot>, qs': seq<Slot>, l: seq<nat>)
    requires l != [] && Linked(qs, l) && |qs'| == |qs| && forall i: nat :: i < |qs| && i != l[0] ==> qs'[i] == qs[i]
    ensures Linked(qs', l[1..]) && Head(l[1..]) == qs[l[0]].next
  {}

  lemma DroppedMore(qs: seq<Slot>, qs1: seq<Slot>, qs': seq<Slot>, l: seq<nat>)
    requires l != [] && l[0] < |qs| && |qs1| == |qs| && forall i: nat :: i < |qs| && i != l[0] ==> qs1[i] == qs[i]
    requires qs1[l[0]].Live? ==> qs[l[0]].Live? && qs1[l[0]].sync == qs[l[0]].sync && qs1[l[0]].next == qs[l[0]].next
    requires ProcessRefs(qs1[l[0]]) <= ProcessRefs(qs[l[0]])
    requires Dropped(qs1, qs', l[1..])
    ensures Dropped(qs, qs', l)
  {
    assert forall i: nat :: i !in l ==> i !in l[1..] && i != l[0];
  }

  lemma {:induction false} PutAllBooks(s: State, l: seq<nat>, q: Option<nat>, debt: Option<nat>)
    requires !s.bug && SlotsOk(s.qs) && ServiceOk(s.qs, s.active) && Linked(s.qs, l)
    requires Mid(s.qs, s.holders, q, Head(l), debt)
    ensures var s' := PutAll(s, l);
            && !s'.bug && SlotsOk(s'.qs) && ServiceOk(s'.qs, s'.active) && s'.holders == s.holders && Dropped(s.qs, s'.qs, l)
            && Mid(s'.qs, s.holders, q, None, debt)
    decreases |l|
  {
    if l != [] {
      hide Put, SlotsOk, Mid, ServiceOk;
      var s1 := Put(s, l[0]);
      PutBooks(s, l[0]);
      PutShifts(s, q, l[0], debt);
      LinkedRest(s.qs, s1.qs, l);
      assert Alive(s.qs, l[0]);
      hide Linked, Dropped;
      PutAllBooks(s1, l[1..], q, debt);
      DroppedMore(s.qs, s1.qs, PutAll(s1, l[1..]).qs, l);
    }
  }

  lemma {:induction false} EndsUnique(qs: seq<Slot>, q: nat, k: nat, j: nat)
    requires Ends(qs, q, k) && Ends(qs, q, j)
    ensures k == j
    decreases k
  {
    if k > 0 && j > 0 {
      EndsUnique(qs, qs[q].next.value, k - 1, j - 1);
    }
  }

  lemma {:induction false} ChainEnds(qs: seq<Slot>, q: nat, k: nat, i: nat)
    requires Ends(qs, q, k) && i < k
    ensures |Chain(qs, q, k)| == k && Ends(qs, Chain(qs, q, k)[i], k - 1 - i)
    ensures Alive(qs, Chain(qs, q, k)[i])
    ensures var prev := if i == 0 then q else Chain(qs, q, k)[i - 1];
            Alive(qs, prev) && qs[prev].next == Some(Chain(qs, q, k)[i])
    decreases k
  {
    var n := qs[q].next.value;
    if k > 1 {
      ChainEnds(qs, n, k - 1, if i == 0 then 0 else i - 1);
    }
  }

  lemma {:induction false} ChainLength(qs: seq<Slot>, q: nat, k: nat)
    requires Ends(qs, q, k)
    ensures |Chain(qs, q, k)| == k
    decreases k
  {
    if k > 0 { ChainLength(qs, qs[q].next.value, k - 1); }
  }

  lemma ChainDistinct(qs: seq<Slot>, q: nat, k: nat)
    requires Ends(qs, q, k)
    ensures q !in Chain(qs, q, k)
    ensures forall i, j :: 0 <= i < j < |Chain(qs, q, k)| ==> Chain(qs, q, k)[i] != Chain(qs, q, k)[j]
  {
    hide Ends, Chain;
    var l := Chain(qs, q, k);
    ChainLength(qs, q, k);
    forall i: nat | i < k ensures Ends(qs, l[i], k - 1 - i) && l[i] != q {
      ChainEnds(qs, q, k, i);
      if l[i] == q { EndsUnique(qs, q, k, k - 1 - i); }
    }
    forall i, j | 0 <= i < j < k ensures l[i] != l[j] {
      if l[i] == l[j] { EndsUnique(qs, l[i], k - 1 - i, k - 1 - j); }
    }
  }

  /** The chain of a queue with a process reference: linked, without repetition, funded, not through the queue itself. */
  lemma ChainLinked(qs: seq<Slot>, hs: seq<Option<nat>>, q: nat, k: nat)
    requires Ends(qs, q, k) && SlotsOk(qs) && Funded(qs, hs, None) && q < |qs| && ProcessRefs(qs[q]) >= 1
    ensures Linked(qs, Chain(qs, q, k)) && q !in Chain(qs, q, k)
    ensures qs[q].Live? && Head(Chain(qs, q, k)) == qs[q].next
  {
    var l := Chain(qs, q, k);
    ChainLength(qs, q, k);
    ChainDistinct(qs, q, k);
    assert Alive(qs, q) && (k == 0 ==> qs[q].next == None);
    hide Chain, Funded, SlotsOk;
    forall i: nat | i < k ensures Alive(qs, l[i]) && ProcessRefs(qs[l[i]]) >= 1 {
      ChainEnds(qs, q, k, i);
      ChainRefs(qs, hs, q, k, i);
    }
    forall i: nat | i < k - 1 ensures qs[l[i]].next == Some(l[i + 1]) {
      ChainEnds(qs, q, k, i + 1);
    }
    if k > 0 {
      ChainEnds(qs, q, k, 0);
      ChainEnds(qs, q, k, k - 1);
    }
  }

  lemma {:induction false} ChainRefs(qs: seq<Slot>, hs: seq<Option<nat>>, q: nat, k: nat, i: nat)
    requires Ends(qs, q, k) && i < k && SlotsOk(qs) && Funded(qs, hs, None)
    ensures |Chain(qs, q, k)| == k && Chain(qs, q, k)[i] < |qs|
    ensures ProcessRefs(qs[Chain(qs, q, k)[i]]) >= ProcessRefs(qs[q])
    decreases i
  {
    ChainEnds(qs, q, k, i);
    if i == 0 {
      NextFunded(qs, hs, q);
    } else {
      ChainRefs(qs, hs, q, k, i - 1);
      ChainEnds(qs, q, k, i - 1);
      NextFunded(qs, hs, Chain(qs, q, k)[i - 1]);
    }
  }

  // ------------------------------------------------------------- each operation

  /** The last put of an operation: the surplus at q goes, the debt it left with the queue it merges into is paid. */
  lemma FinalPut(s: State, qs0: seq<Slot>, q: nat, debt: Option<nat>)
    requires !s.bug && SlotsOk(s.qs) && HoldersOk(s.qs, s.holders) && ServiceOk(s.qs, s.active) && q < |s.qs| && ProcessRefs(s.qs[q]) >= 1
    requires Mid(s.qs, s.holders, Some(q), None, debt) && (debt.Some? ==> debt == s.qs[q].next)
    requires Acyclic(qs0) && |s.qs| == |qs0|
    requires forall i: nat :: i < |qs0| && s.qs[i].Live? ==>
               qs0[i].Live? && s.qs[i].sync == qs0[i].sync && s.qs[i].next == qs0[i].next
    requires forall i: nat :: i < |qs0| && s.qs[i].Live? && (if i == q then ProcessRefs(s.qs[i]) > 1 else ProcessRefs(s.qs[i]) > 0)
               ==> ProcessRefs(qs0[i]) > 0
    ensures Inv(Put(s, q))
  {
    var s' := Put(s, q);
    PutBooks(s, q);
    assert Funded(s'.qs, s.holders, None);
    AcyclicSurvives(qs0, s'.qs, s.holders);
  }

  lemma HolderRefs(s: State, h: nat)
    requires Inv(s) && Holds(s, h)
    ensures var q := s.holders[h].value;
            && Alive(s.qs, q) && ProcessRefs(s.qs[q]) >= 1 && Walkable(s.qs, q)
            && Mid(s.qs, s.holders[h := None], Some(q), None, None)
            && HoldersOk(s.qs, s.holders[h := None])
  {
    var q := s.holders[h].value;
    AttachedAtLeast(s.holders, h, q);
    forall i: nat | i < |s.qs| ensures ProcessRefs(s.qs[i]) >= 0 { assert SlotOk(s.qs, i); }
    InflowAtLeast(s.qs, q, q);
    forall n: nat | n < |s.qs|
      ensures ProcessRefs(s.qs[n]) >= Attached(s.holders[h := None], n) + Inflow(s.qs, n) + One(Some(q), n)
    {
      AttachedUpdate(s.holders, h, None, n);
    }
  }

  lemma DropKeeps(s: State, h: nat)
    requires Inv(s) && Holds(s, h)
    ensures Inv(Drop(s, h))
  {
    HolderRefs(s, h);
    FinalPut(s.(holders := s.holders[h := None]), s.qs, s.holders[h].value, None);
  }

  lemma MergeKeeps(s: State, h: nat)
    requires Inv(s) && Holds(s, h) && Alive(s.qs, s.holders[h].value) && s.qs[s.holders[h].value].next.Some?
    ensures Inv(Merge(s, h))
  {
    HolderRefs(s, h);
    var q := s.holders[h].value;
    var next := s.qs[q].next;
    NextFunded(s.qs, s.holders, q);
    var hs := s.holders[h := next];
    forall n: nat | n < |s.qs|
      ensures ProcessRefs(s.qs[n]) + One(next, n) >= Attached(hs, n) + Inflow(s.qs, n) + One(Some(q), n)
    {
      AttachedUpdate(s.holders, h, next, n);
    }
    FinalPut(s.(holders := hs), s.qs, q, next);
  }

  lemma ReleaseKeeps(s: State, h: nat)
    requires Inv(s) && Holds(s, h)
    ensures Inv(Release(s, h))
  {
    HolderRefs(s, h);
    var q := s.holders[h].value;
    var s0 := s.(holders := s.holders[h := None]);
    var l := Chain(s.qs, q, Depth(s.qs, q));
    ChainLinked(s.qs, s.holders, q, Depth(s.qs, q));
    assert Mid(s0.qs, s0.holders, Some(q), Head(l), Head(l));
    PutAllBooks(s0, l, Some(q), Head(l));
    FinalPut(PutAll(s0, l), s.qs, q, Head(l));
  }

  lemma ExitKeeps(s: State, h: nat)
    requires Inv(s) && Holds(s, h)
    ensures Inv(Exit(s, h))
  {
    var q := s.holders[h].value;
    if s.active == Some(q) && Alive(s.qs, q) {
      ExpireKeeps(s, q);
      ReleaseKeeps(Expire(s, q), h);
    } else {
      ReleaseKeeps(s, h);
    }
  }

  lemma SplitKeeps(s: State, h: nat)
    requires Inv(s) && Holds(s, h)
    ensures Inv(Split(s, h))
  {
    HolderRefs(s, h);
    ReleaseKeeps(s, h);
  }

  /** The lists change, and nothing else. */
  lemma ListsChange(s: State, q: nat, c: Slot, active: Option<nat>)
    requires Inv(s) && Alive(s.qs, q) && c.Live? && c.(sorted := s.qs[q].sorted, onRr := s.qs[q].onRr) == s.qs[q]
    requires c.sorted <= c.readRqs + c.writeRqs && ServiceOk(s.qs[q := c], active)
    ensures Inv(s.(qs := s.qs[q := c], active := active))
  {
    var qs := s.qs[q := c];
    forall j: nat | j < |qs| ensures SlotOk(qs, j) { assert SlotOk(s.qs, j); }
    forall n: nat | n < |qs| ensures ProcessRefs(qs[n]) >= Attached(s.holders, n) + Inflow(qs, n) {
      InflowUpdate(s.qs, q, c, n);
    }
    hide Inflow, Attached;
    AcyclicSurvives(s.qs, qs, s.holders);
  }

  lemma ExpireKeeps(s: State, q: nat)
    requires Inv(s) && Alive(s.qs, q)
    ensures Inv(Expire(s, q))
  {
    assert SlotOk(s.qs, q);
    hide Funded, Acyclic, SlotOk, HoldersOk;
    var s' := Expire(s, q);
    ListsChange(s, q, s'.qs[q], s'.active);
  }

  lemma AddSortedKeeps(s: State, q: nat)
    requires Inv(s) && Enabled(s, Sort(q))
    ensures Inv(AddSorted(s, q))
  {
    hide Funded, Acyclic, SlotOk, HoldersOk;
    ListsChange(s, q, AddSorted(s, q).qs[q], s.active);
  }

  lemma RemoveSortedKeeps(s: State, q: nat)
    requires Inv(s) && Enabled(s, Unsort(q))
    ensures Inv(RemoveSorted(s, q))
  {
    assert SlotOk(s.qs, q);
    hide Funded, Acyclic, SlotOk, HoldersOk;
    ListsChange(s, q, RemoveSorted(s, q).qs[q], s.active);
  }

  lemma GetNewKeeps(s: State, h: nat, i: nat, sync: bool)
    requires Inv(s) && h < |s.holders| && s.holders[h].None? && i < |s.qs| && s.qs[i].Free?
    ensures Inv(GetNew(s, h, i, sync))
  {
    var s' := GetNew(s, h, i, sync);
    forall j: nat | j < |s'.qs| ensures SlotOk(s'.qs, j) { assert SlotOk(s.qs, j); }
    forall j: nat | j < |s.qs| ensures ProcessRefs(s.qs[j]) >= 0 { assert SlotOk(s.qs, j); }
    forall n: nat | n < |s.qs| ensures ProcessRefs(s'.qs[n]) >= Attached(s'.holders, n) + Inflow(s'.qs, n) {
      InflowUpdate(s.qs, i, s'.qs[i], n);
      AttachedUpdate(s.holders, h, Some(i), n);
    }
    forall q: nat | q < |s'.qs| && ProcessRefs(s'.qs[q]) > 0 ensures Walkable(s'.qs, q) {
      if q == i {
        assert Ends(s'.qs, i, 0);
      } else {
        assert Walkable(s.qs, q);
        var k :| Ends(s.qs, q, k);
        EndsOverFree(s, s'.qs, q, k);
      }
    }
  }

  lemma {:induction false} EndsOverFree(s: State, qs': seq<Slot>, q: nat, k: nat)
    requires Ends(s.qs, q, k) && |qs'| == |s.qs| && forall i: nat :: i < |qs'| && s.qs[i].Live? ==> qs'[i] == s.qs[i]
    ensures Ends(qs', q, k)
    decreases k
  {
    if k > 0 { EndsOverFree(s, qs', s.qs[q].next.value, k - 1); }
  }

  /** Operations that change counts but neither links nor, except at q, process references. */
  lemma RefsChange(s: State, q: nat, c: Slot, hs: seq<Option<nat>>)
    requires Inv(s) && Alive(s.qs, q) && c.Live? && c.sync == s.qs[q].sync && c.next == s.qs[q].next && c.ref >= 1
    requires c.sorted == s.qs[q].sorted && c.onRr == s.qs[q].onRr && c.sorted <= c.readRqs + c.writeRqs
    requires ProcessRefs(s.qs[q]) >= 1 && ProcessRefs(c) >= 1
    requires HoldersOk(s.qs, hs) && Funded(s.qs[q := c], hs, None)
    ensures Inv(s.(qs := s.qs[q := c], holders := hs))
  {
    var qs := s.qs[q := c];
    forall j: nat | j < |qs| ensures SlotOk(qs, j) { assert SlotOk(s.qs, j) && SlotOk(s.qs, q); }
    AcyclicSurvives(s.qs, qs, hs);
  }

  lemma GetSharedKeeps(s: State, h: nat, g: nat)
    requires Inv(s) && h < |s.holders| && s.holders[h].None? && Holds(s, g)
    requires Alive(s.qs, s.holders[g].value) && !s.qs[s.holders[g].value].sync
    ensures Inv(GetShared(s, h, s.holders[g].value))
  {
    HolderRefs(s, g);
    var q := s.holders[g].value;
    var c := s.qs[q].(ref := s.qs[q].ref + 1);
    var hs := s.holders[h := Some(q)];
    assert SlotOk(s.qs, q);
    forall n: nat | n < |s.qs| ensures ProcessRefs(s.qs[q := c][n]) >= Attached(hs, n) + Inflow(s.qs[q := c], n) {
      InflowUpdate(s.qs, q, c, n);
      AttachedUpdate(s.holders, h, Some(q), n);
    }
    hide Inflow, Attached, Acyclic, SlotOk;
    RefsChange(s, q, c, hs);
  }

  lemma GetRequestKeeps(s: State, h: nat, write: bool)
    requires Inv(s) && Holds(s, h)
    ensures Inv(GetRequest(s, h, write))
  {
    HolderRefs(s, h);
    var q := s.holders[h].value;
    var c := GetRequest(s, h, write).qs[q];
    assert SlotOk(s.qs, q);
    forall n: nat | n < |s.qs| ensures ProcessRefs(s.qs[q := c][n]) >= Attached(s.holders, n) + Inflow(s.qs[q := c], n) {
      InflowUpdate(s.qs, q, c, n);
    }
    RefsChange(s, q, c, s.holders);
  }

  predicate SameLists(c: Slot, was: Slot)
    requires c.Live? && was.Live?
  {
    c.sorted == was.sorted && c.onRr == was.onRr && c.sorted <= c.readRqs + c.writeRqs
  }

  /** The books with one request fewer at q: a process reference too many, owed to the queue it merges into. */
  lemma RequestGone(s: State, q: nat, c1: Slot)
    requires Inv(s) && Alive(s.qs, q) && c1.Live? && c1.sync == s.qs[q].sync && c1.next == s.qs[q].next
    requires c1.ref == s.qs[q].ref && ProcessRefs(c1) == ProcessRefs(s.qs[q]) + 1 && SameLists(c1, s.qs[q])
    ensures ServiceOk(s.qs[q := c1], s.active)
    ensures SlotsOk(s.qs[q := c1]) && HoldersOk(s.qs[q := c1], s.holders)
    ensures Mid(s.qs[q := c1], s.holders, Some(q), None, c1.next)
  {
    var qs := s.qs[q := c1];
    assert SlotOk(s.qs, q);
    forall j: nat | j < |qs| ensures SlotOk(qs, j) { assert SlotOk(s.qs, j); }
    hide Inflow, Attached, Acyclic;
    forall n: nat | n < |qs|
      ensures ProcessRefs(qs[n]) + One(c1.next, n) >= Attached(s.holders, n) + Inflow(qs, n) + One(Some(q), n)
    {
      InflowUpdate(s.qs, q, c1, n);
    }
  }

  lemma PutAfter(s: State, q: nat, c1: Slot)
    requires Inv(s) && Alive(s.qs, q) && c1.Live? && c1.sync == s.qs[q].sync && c1.next == s.qs[q].next
    requires c1.ref == s.qs[q].ref && ProcessRefs(c1) == ProcessRefs(s.qs[q]) + 1 && ProcessRefs(s.qs[q]) >= 0 && SameLists(c1, s.qs[q])
    ensures Inv(Put(s.(qs := s.qs[q := c1]), q))
  {
    RequestGone(s, q, c1);
    hide Acyclic, Mid, SlotsOk, Put, Funded, HoldersOk, ServiceOk;
    FinalPut(s.(qs := s.qs[q := c1]), s.qs, q, c1.next);
  }

  /** A request of the queue that is not on its sort list. */
  predicate Returnable(qs: seq<Slot>, q: nat, write: bool) {
    && Alive(qs, q) && (if write then qs[q].writeRqs else qs[q].readRqs) > 0
    && qs[q].sorted < qs[q].readRqs + qs[q].writeRqs
  }

  lemma RefsCover(s: State, q: nat)
    requires Inv(s) && Alive(s.qs, q)
    ensures ProcessRefs(s.qs[q]) >= 0
  {
    assert SlotOk(s.qs, q);
  }

  lemma PutRequestKeeps(s: State, q: nat, write: bool)
    requires Inv(s) && Returnable(s.qs, q, write)
    ensures Inv(PutRequest(s, q, write))
  {
    hide Inv, Put;
    RefsCover(s, q);
    var c := s.qs[q];
    PutAfter(s, q, if write then c.(writeRqs := c.writeRqs - 1) else c.(readRqs := c.readRqs - 1));
  }

  lemma {:induction false} LinkEnds(qs: seq<Slot>, a: nat, b: nat, x: nat, k: nat)
    requires Alive(qs, a) && Alive(qs, b) && a != b && qs[b].sync && qs[a].next.None? && qs[b].next.None?
    requires Ends(qs, x, k)
    ensures Walkable(Link(qs, a, b), x)
    decreases k
  {
    var qs' := Link(qs, a, b);
    if k == 0 {
      if x == a {
        assert Ends(qs', b, 0);
        assert Ends(qs', a, 1);
      } else {
        assert Ends(qs', x, 0);
      }
    } else {
      var n := qs[x].next.value;
      LinkEnds(qs, a, b, n, k - 1);
      var j: nat :| Ends(qs', n, j);
      assert Ends(qs', x, j + 1);
    }
  }

  lemma LinkFunded(qs: seq<Slot>, hs: seq<Option<nat>>, a: nat, b: nat)
    requires Funded(qs, hs, None) && Alive(qs, a) && Alive(qs, b) && a != b && qs[a].next.None? && qs[b].next.None?
    ensures Funded(Link(qs, a, b), hs, None)
  {
    hide Attached, Inflow;
    var qs1 := qs[a := qs[a].(next := Some(b))];
    var qs' := Link(qs, a, b);
    forall n: nat | n < |qs| ensures ProcessRefs(qs'[n]) >= Attached(hs, n) + Inflow(qs', n) {
      InflowUpdate(qs, a, qs1[a], n);
      InflowUpdate(qs1, b, qs'[b], n);
    }
  }

  lemma LinkKeeps(s: State, a: nat, b: nat)
    requires Inv(s) && Alive(s.qs, a) && Alive(s.qs, b) && a != b && s.qs[a].sync && s.qs[b].sync
    requires s.qs[a].next.None? && s.qs[b].next.None?
    requires ProcessRefs(s.qs[a]) > 0 && ProcessRefs(s.qs[b]) > 0
    ensures Inv(s.(qs := Link(s.qs, a, b)))
  {
    LinkFunded(s.qs, s.holders, a, b);
    hide Funded;
    var qs' := Link(s.qs, a, b);
    assert SlotOk(s.qs, a) && SlotOk(s.qs, b);
    forall j: nat | j < |qs'| ensures SlotOk(qs', j) { assert SlotOk(s.qs, j); }
    forall q: nat | q < |qs'| && ProcessRefs(qs'[q]) > 0 ensures Walkable(qs', q) {
      assert Walkable(s.qs, q);
      var k :| Ends(s.qs, q, k);
      LinkEnds(s.qs, a, b, q, k);
    }
  }

  lemma {:induction false} LastInChain(qs: seq<Slot>, q: nat, k: nat)
    requires Ends(qs, q, k)
    ensures Last(qs, q, k) == q || Last(qs, q, k) in Chain(qs, q, k)
    decreases k
  {
    if k > 0 { LastInChain(qs, qs[q].next.value, k - 1); }
  }

  lemma {:induction false} LastSync(qs: seq<Slot>, q: nat, k: nat)
    requires Ends(qs, q, k) && qs[q].sync
    ensures qs[Last(qs, q, k)].sync
    decreases k
  {
    if k > 0 { LastSync(qs, qs[q].next.value, k - 1); }
  }

  lemma SetupMergeKeeps(s: State, q: nat, n: nat)
    requires Inv(s) && Alive(s.qs, q) && Alive(s.qs, n) && q != n && s.qs[q].next.None? && s.qs[q].sync && s.qs[n].sync
    ensures Inv(SetupMerge(s, q, n))
  {
    assert SlotOk(s.qs, n) && SlotOk(s.qs, q);
    if ProcessRefs(s.qs[n]) != 0 {
      assert Walkable(s.qs, n);
      var k := Depth(s.qs, n);
      var e := Last(s.qs, n, k);
      LastInChain(s.qs, n, k);
      LastSync(s.qs, n, k);
      if q !in Chain(s.qs, n, k) && ProcessRefs(s.qs[q]) > 0 && ProcessRefs(s.qs[e]) > 0 {
        LinkKeeps(s, q, e);
        LinkKeeps(s, e, q);
      }
      assert SlotOk(s.qs, e);
    }
  }

  /**
    The link a merge sets up: between the queue and the end of the chain of the other, from the one with no more process
    references to the one with at least as many, counted before; all other links and counts stay. It is set up just
    when both have process references and the chain does not lead to the queue.
  */
  lemma MergeDirection(s: State, q: nat, n: nat, k: nat)
    requires Alive(s.qs, q) && Alive(s.qs, n) && q != n && Ends(s.qs, n, k) && s.qs[q].next.None?
    ensures var (s', e) := (SetupMerge(s, q, n), Last(s.qs, n, k));
            var link := ProcessRefs(s.qs[n]) != 0 && q !in Chain(s.qs, n, k) && ProcessRefs(s.qs[q]) != 0 && ProcessRefs(s.qs[e]) != 0;
            && s'.holders == s.holders && s'.bug == s.bug && |s'.qs| == |s.qs|
            && (!link ==> s' == s)
            && (link ==>
                  && q != e
                  && var (a, b) := if ProcessRefs(s.qs[q]) <= ProcessRefs(s.qs[e]) then (q, e) else (e, q);
                     && ProcessRefs(s.qs[a]) <= ProcessRefs(s.qs[b])
                     && s'.qs[a] == s.qs[a].(next := Some(b))
                     && s'.qs[b] == s.qs[b].(ref := s.qs[b].ref + ProcessRefs(s.qs[a]))
                     && (forall i: nat :: i < |s.qs| && i != a && i != b ==> s'.qs[i] == s.qs[i]))
  {
    assert Walkable(s.qs, n);
    EndsUnique(s.qs, n, k, Depth(s.qs, n));
    LastInChain(s.qs, n, k);
    hide Ends, Chain, Last;
  }

  // -------------------------------------------------------------------- runs

  datatype Action =
    | New(h: nat, slot: nat, sync: bool)
    | Share(h: nat, with: nat)
    | Leave(h: nat)
    | ExitHolder(h: nat)
    | Request(h: nat, breakUp: bool, slot: nat, sync: bool, write: bool)
    | RequestDone(q: nat, write: bool)
    | Close(q: nat, n: nat)
    | Sort(q: nat)
    | Unsort(q: nat)
    | Serve(q: nat)
    | SliceEnd(q: nat)

  /**
    cfq_set_request: break a queue up that was seeky for too long, allocate one
    if the context has none, move up a scheduled merge, and count the request.
  */
  ghost function SetRequest(s: State, h: nat, breakUp: bool, i: nat, sync: bool, write: bool): State
    requires h < |s.holders| && i < |s.qs|
  {
    var s1 := if Holds(s, h) && breakUp then Split(s, h) else s;
    if s1.bug then s1
    else if h >= |s1.holders| || i >= |s1.qs| then s1.(bug := true)
    else
      var s2 := Queue(s1, h, i, sync);
      if Holds(s2, h) then GetRequest(s2, h, write) else s2.(bug := true)
  }

  /** The queue a request goes to: a new one, the one merged into, or the one the context has. */
  ghost function Queue(s: State, h: nat, i: nat, sync: bool): State
    requires h < |s.holders| && i < |s.qs|
  {
    if s.holders[h].None? then GetNew(s, h, i, sync)
    else if Alive(s.qs, s.holders[h].value) && s.qs[s.holders[h].value].next.Some? then Merge(s, h)
    else s
  }

  /** What callers guarantee: fresh memory is free memory, only queues of synchronous requests are merged, and so on. */
  ghost predicate Enabled(s: State, a: Action) {
    match a
    case New(h, i, _) => h < |s.holders| && s.holders[h].None? && i < |s.qs| && s.qs[i].Free?
    case Share(h, g) =>
      h < |s.holders| && s.holders[h].None? && Holds(s, g) && Alive(s.qs, s.holders[g].value) && !s.qs[s.holders[g].value].sync
    case Leave(h) => Holds(s, h)
    case ExitHolder(h) => Holds(s, h)
    case Request(h, breakUp, i, _, _) =>
      && h < |s.holders| && i < |s.qs|
      && var s1 := if Holds(s, h) && breakUp then Split(s, h) else s; i < |s1.qs| && s1.qs[i].Free?
    case RequestDone(q, write) => Returnable(s.qs, q, write)
    case Sort(q) => Alive(s.qs, q) && s.qs[q].sorted < s.qs[q].readRqs + s.qs[q].writeRqs
    case Unsort(q) => Alive(s.qs, q) && s.qs[q].sorted > 0
    case Serve(q) => Alive(s.qs, q) && s.active.None?
    case SliceEnd(q) => Alive(s.qs, q)
    case Close(q, n) =>
      Alive(s.qs, q) && Alive(s.qs, n) && q != n && s.qs[q].next.None? && s.qs[q].sync && s.qs[n].sync
  }

  ghost function Next(s: State, a: Action): State
    requires Enabled(s, a)
  {
    match a
    case New(h, i, sync) => GetNew(s, h, i, sync)
    case Share(h, g) => GetShared(s, h, s.holders[g].value)
    case Leave(h) => Drop(s, h)
    case ExitHolder(h) => Exit(s, h)
    case Request(h, breakUp, i, sync, write) => SetRequest(s, h, breakUp, i, sync, write)
    case RequestDone(q, write) => PutRequest(s, q, write)
    case Close(q, n) => SetupMerge(s, q, n)
    case Sort(q) => AddSorted(s, q)
    case Unsort(q) => RemoveSorted(s, q)
    case Serve(q) => Activate(s, q)
    case SliceEnd(q) => Expire(s, q)
  }

  lemma PutSizes(s: State, q: nat)
    ensures |Put(s, q).holders| == |s.holders| && |Put(s, q).qs| == |s.qs|
  {}

  lemma {:induction false} PutAllSizes(s: State, l: seq<nat>)
    ensures |PutAll(s, l).holders| == |s.holders| && |PutAll(s, l).qs| == |s.qs|
    decreases |l|
  {
    if l != [] { PutAllSizes(Put(s, l[0]), l[1..]); }
  }

  lemma SplitSizes(s: State, h: nat)
    requires Holds(s, h)
    ensures |Split(s, h).holders| == |s.holders| && |Split(s, h).qs| == |s.qs|
  {
    var q := s.holders[h].value;
    var s0 := s.(holders := s.holders[h := None]);
    if Walkable(s.qs, q) { PutAllSizes(s0, Chain(s.qs, q, Depth(s.qs, q))); }
    PutSizes(PutCooperator(s0, q), q);
  }

  lemma SetRequestKeeps(s: State, h: nat, breakUp: bool, i: nat, sync: bool, write: bool)
    requires Inv(s) && Enabled(s, Request(h, breakUp, i, sync, write))
    ensures Inv(SetRequest(s, h, breakUp, i, sync, write))
  {
    var s1 := if Holds(s, h) && breakUp then Split(s, h) else s;
    if Holds(s, h) && breakUp {
      SplitKeeps(s, h);
      SplitSizes(s, h);
    }
    hide Inv, Split, GetRequest, Queue;
    InvNoBug(s1);
    QueueKeeps(s1, h, i, sync);
    GetRequestKeeps(Queue(s1, h, i, sync), h, write);
  }

  lemma QueueKeeps(s: State, h: nat, i: nat, sync: bool)
    requires Inv(s) && h < |s.holders| && i < |s.qs| && s.qs[i].Free?
    ensures Inv(Queue(s, h, i, sync)) && Holds(Queue(s, h, i, sync), h)
  {
    hide Inv;
    if s.holders[h].None? {
      GetNewKeeps(s, h, i, sync);
    } else if Alive(s.qs, s.holders[h].value) && s.qs[s.holders[h].value].next.Some? {
      MergeKeeps(s, h);
    }
  }

  lemma InvNoBug(s: State)
    requires Inv(s)
    ensures !s.bug
  {}

  lemma ActivateKeeps(s: State, q: nat)
    requires Inv(s) && Alive(s.qs, q) && s.active.None?
    ensures Inv(Activate(s, q))
  {}

  lemma NextKeeps(s: State, a: Action)
    requires Inv(s) && Enabled(s, a)
    ensures Inv(Next(s, a))
  {
    hide Inv, GetNew, GetShared, Drop, Exit, SetRequest, PutRequest, SetupMerge, AddSorted, RemoveSorted, Expire;
    match a
    case New(h, i, sync) => GetNewKeeps(s, h, i, sync);
    case Share(h, g) => GetSharedKeeps(s, h, g);
    case Leave(h) => DropKeeps(s, h);
    case ExitHolder(h) => ExitKeeps(s, h);
    case Request(h, breakUp, i, sync, write) => SetRequestKeeps(s, h, breakUp, i, sync, write);
    case RequestDone(q, write) => PutRequestKeeps(s, q, write);
    case Close(q, n) => SetupMergeKeeps(s, q, n);
    case Sort(q) => AddSortedKeeps(s, q);
    case Unsort(q) => RemoveSortedKeeps(s, q);
    case Serve(q) => ActivateKeeps(s, q);
    case SliceEnd(q) => ExpireKeeps(s, q);
  }

  ghost predicate Legal(s: State, run: seq<Action>)
    decreases |run|
  {
    run != [] ==> Enabled(s, run[0]) && Legal(Next(s, run[0]), run[1..])
  }

  ghost function After(s: State, run: seq<Action>): State
    requires Legal(s, run)
    decreases |run|
  {
    if run == [] then s else After(Next(s, run[0]), run[1..])
  }

  lemma {:induction false} InflowFree(qs: seq<Slot>, n: nat)
    requires forall i :: 0 <= i < |qs| ==> qs[i] == Free
    ensures Inflow(qs, n) == 0
  {
    if qs != [] { InflowFree(qs[..|qs| - 1], n); }
  }

  lemma {:induction false} AttachedNone(hs: seq<Option<nat>>, n: nat)
    requires forall i :: 0 <= i < |hs| ==> hs[i] == None
    ensures Attached(hs, n) == 0
  {
    if hs != [] { AttachedNone(hs[..|hs| - 1], n); }
  }

  lemma InitOk(slots: nat, holders: nat)
    ensures Inv(Init(slots, holders))
  {
    var s := Init(slots, holders);
    forall n: nat ensures Attached(s.holders, n) == 0 && Inflow(s.qs, n) == 0 {
      InflowFree(s.qs, n);
      AttachedNone(s.holders, n);
    }
  }

  lemma {:induction false} RunKeeps(s: State, run: seq<Action>)
    requires Inv(s) && Legal(s, run)
    ensures Inv(After(s, run))
    decreases |run|
  {
    hide Inv;
    if run != [] {
      NextKeeps(s, run[0]);
      RunKeeps(Next(s, run[0]), run[1..]);
    }
  }

  /**
    On every run no freed queue is touched and no count underflows; a queue's
    process references cover its holders and whatever merges into it; from a
    queue with a process reference the whole merge chain is alive and ends; and a
    queue with requests to serve is on the round robin.
  */
  lemma MergeChainsSafe(slots: nat, holders: nat, run: seq<Action>, q: nat)
    requires Legal(Init(slots, holders), run)
    ensures var s := After(Init(slots, holders), run);
            && !s.bug
            && (Alive(s.qs, q) && s.qs[q].sorted > 0 ==> s.qs[q].onRr)
            && (Alive(s.qs, q) && s.qs[q].onRr ==> s.qs[q].sorted > 0 || s.active == Some(q))
            && (q < |s.qs| ==> ProcessRefs(s.qs[q]) >= Attached(s.holders, q) + Inflow(s.qs, q))
            && (q < |s.qs| && ProcessRefs(s.qs[q]) > 0 ==>
                  exists k :: Ends(s.qs, q, k) && |Chain(s.qs, q, k)| == k && q !in Chain(s.qs, q, k))
  {
    InitOk(slots, holders);
    RunKeeps(Init(slots, holders), run);
    var s := After(Init(slots, holders), run);
    if q < |s.qs| && ProcessRefs(s.qs[q]) > 0 {
      assert Walkable(s.qs, q);
      var k :| Ends(s.qs, q, k);
      ChainLength(s.qs, q, k);
      ChainDistinct(s.qs, q, k);
    }
  }
}
