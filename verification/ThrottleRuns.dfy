/**
  Dispatching of throttled bios (block/blk-throttle.c): what one round and one
  call let through, and the rate bound for everything that leaves the queues.
*/
module ThrottleRuns {
  import opened Lists
  import R = ThrottleRate
  import opened ThrottleQueue

  const QUANTUM: nat := 32
  const MAX_READS: nat := 6
  const MAX_WRITES: nat := 2

  ghost predicate Ready(c: R.Clock, s: State, g: nat) { c.Valid() && g < |s.groups| && Inv(s, {g}) }

  lemma Positive(s: State, g: nat, write: bool, loose: set<nat>)
    requires g < |s.groups| && Inv(s, loose)
    ensures var lane := s.groups[g].Of(write);
            lane.rate.bps > 0 && lane.rate.iops > 0 && lane.nr == |lane.list|
  {
    assert LaneOk(s.groups[g].rd, false) && LaneOk(s.groups[g].wr, true);
  }

  /** The head of a lane of a group in a consistent state: may it go, else the wait, and the slice left. */
  ghost function HeadOf(c: R.Clock, s: State, g: nat, write: bool): (bool, nat, R.Dir)
    requires Ready(c, s, g) && s.groups[g].Of(write).list != []
  {
    Positive(s, g, write, {g});
    Head(c, s.groups[g].Of(write), s.now)
  }

  /** tg_may_dispatch on the head of a list: the slice is renewed or extended. */
  ghost function Look(c: R.Clock, s: State, g: nat, write: bool): State
    requires Ready(c, s, g) && s.groups[g].Of(write).list != []
  {
    SetRate(s, g, write, HeadOf(c, s, g, write).2)
  }

  lemma LookReady(c: R.Clock, s: State, g: nat, write: bool)
    requires Ready(c, s, g) && s.groups[g].Of(write).list != []
    ensures Ready(c, Look(c, s, g, write), g)
    ensures var (ok, wait, _) := HeadOf(c, s, g, write);
            !ok ==> wait > 0 && !HeadOf(c, Look(c, s, g, write), g, write).0
  {
    Positive(s, g, write, {g});
    RefusalStands(c, s.groups[g].Of(write), s.now);
    hide Head;
    RateKeeps(s, g, write, HeadOf(c, s, g, write).2, {g});
    hide Inv;
  }

  // --------------------------------------------------------- one list, one group

  /** One of the loops of throtl_dispatch_tg: heads go while they may, up to `max`. */
  ghost function DispatchList(c: R.Clock, s: State, g: nat, write: bool, max: nat): (State, nat)
    requires Ready(c, s, g)
    decreases max
  {
    if max == 0 || s.groups[g].Of(write).list == [] then (s, 0)
    else
      LookReady(c, s, g, write);
      var s1 := Look(c, s, g, write);
      if !HeadOf(c, s, g, write).0 then (s1, 0)
      else
        DispatchOneKeeps(c, s1, g, write);
        var (s2, n) := DispatchList(c, DispatchOne(c, s1, g, write), g, write, max - 1);
        (s2, n + 1)
  }

  /** One turn of that loop. */
  lemma ListStep(c: R.Clock, s: State, g: nat, write: bool, max: nat)
    requires Ready(c, s, g)
    ensures max == 0 || s.groups[g].Of(write).list == [] ==> DispatchList(c, s, g, write, max) == (s, 0)
    ensures max > 0 && s.groups[g].Of(write).list != [] ==>
              var s1 := Look(c, s, g, write);
              && Ready(c, s1, g) && s1.groups[g].Of(write).list != []
              && if !HeadOf(c, s, g, write).0 then DispatchList(c, s, g, write, max) == (s1, 0)
                 else
                   var s2 := DispatchOne(c, s1, g, write);
                   && Ready(c, s2, g)
                   && DispatchList(c, s, g, write, max) ==
                      (DispatchList(c, s2, g, write, max - 1).0, DispatchList(c, s2, g, write, max - 1).1 + 1)
  {
    if max > 0 && s.groups[g].Of(write).list != [] {
      LookReady(c, s, g, write);
      LookAside(c, s, g, write);
      hide Inv, HeadOf, Look, DispatchOne;
      if HeadOf(c, s, g, write).0 { DispatchOneKeeps(c, Look(c, s, g, write), g, write); OneGoes(c, Look(c, s, g, write), g, write); }
    }
  }

  function Entries(g: nat, bios: seq<Bio>): seq<Entry> {
    seq(|bios|, i requires 0 <= i < |bios| => Entry(g, bios[i]))
  }

  /** All but the lists and slices of group g, and what went out, is as it was. */
  ghost predicate Aside(s: State, s': State, g: nat)
    requires g < |s.groups|
  {
    && |s'.groups| == |s.groups| && s'.groups == s.groups[g := s'.groups[g]]
    && s'.groups[g].onRr == s.groups[g].onRr && s'.groups[g].disptime == s.groups[g].disptime
    && s'.tree == s.tree && s'.left == s.left && s'.count == s.count && s'.arrived == s.arrived && s'.now == s.now
  }

  /** What one dispatch changes: the head of one list is out, and no other group or list is touched. */
  lemma OneGoes(c: R.Clock, s: State, g: nat, write: bool)
    requires g < |s.groups| && s.groups[g].Of(write).list != [] && c.Valid()
    ensures var s' := DispatchOne(c, s, g, write);
            && Aside(s, s', g)
            && s'.groups[g].Of(write).list == s.groups[g].Of(write).list[1..]
            && s'.groups[g].Of(!write) == s.groups[g].Of(!write)
            && s'.out == s.out + [Entry(g, s.groups[g].Of(write).list[0])]
  {
    hide R.TrimSlice, R.Charge;
  }

  lemma LookAside(c: R.Clock, s: State, g: nat, write: bool)
    requires Ready(c, s, g) && s.groups[g].Of(write).list != []
    ensures var s' := Look(c, s, g, write);
            && Aside(s, s', g) && s'.out == s.out && s'.groups[g].Of(!write) == s.groups[g].Of(!write)
            && s'.groups[g].Of(write).list == s.groups[g].Of(write).list
  {
    hide Head, HeadOf, Inv;
  }

  /** A list whose head, if it has one, has to wait. */
  ghost predicate Waits(c: R.Clock, s: State, g: nat, write: bool)
    requires Ready(c, s, g)
  {
    s.groups[g].Of(write).list == [] || !HeadOf(c, s, g, write).0
  }

  /**
    Exactly the first n bios of the list go out, in order; the loop stops short of `max` only when the
    list is empty or its head has to wait.
  */
  lemma {:induction false} ListGoes(c: R.Clock, s: State, g: nat, write: bool, max: nat)
    requires Ready(c, s, g)
    ensures var (s', n) := DispatchList(c, s, g, write, max);
            var list := s.groups[g].Of(write).list;
            && Ready(c, s', g) && Aside(s, s', g) && n <= max && n <= |list|
            && s'.groups[g].Of(write).list == list[n..] && s'.groups[g].Of(!write) == s.groups[g].Of(!write)
            && s'.out == s.out + Entries(g, list[..n])
            && (n < max ==> Waits(c, s', g, write))
    decreases max
  {
    hide Inv, Look, HeadOf, DispatchOne;
    var list := s.groups[g].Of(write).list;
    assert Entries(g, list[..0]) == [] && s.out + [] == s.out;
    if max > 0 && list != [] {
      LookReady(c, s, g, write);
      LookAside(c, s, g, write);
      var s1 := Look(c, s, g, write);
      if HeadOf(c, s, g, write).0 {
        DispatchOneKeeps(c, s1, g, write);
        OneGoes(c, s1, g, write);
        var s2 := DispatchOne(c, s1, g, write);
        ListGoes(c, s2, g, write, max - 1);
        var n := DispatchList(c, s2, g, write, max - 1).1;
        EntriesMore(s.out, g, list, n);
      }
    }
  }

  lemma EntriesMore(out: seq<Entry>, g: nat, list: seq<Bio>, n: nat)
    requires list != [] && n < |list|
    ensures out + [Entry(g, list[0])] + Entries(g, list[1..][..n]) == out + Entries(g, list[..n + 1])
    ensures list[1..][n..] == list[n + 1..]
  {}

  /** throtl_dispatch_tg: three quarters reads. */
  ghost function DispatchTg(c: R.Clock, s: State, g: nat): (State, nat)
    requires Ready(c, s, g)
  {
    ListGoes(c, s, g, false, MAX_READS);
    var (s1, rds) := DispatchList(c, s, g, false, MAX_READS);
    var (s2, writes) := DispatchList(c, s1, g, true, MAX_WRITES);
    (s2, rds + writes)
  }

  /**
    At most six reads and two writes go out, each list's first ones in order, reads first; they are n in
    all, and the new head of a list that could have given more has to wait.
  */
  lemma TgGoes(c: R.Clock, s: State, g: nat)
    requires Ready(c, s, g)
    ensures var (s', n) := DispatchTg(c, s, g);
            && Ready(c, s', g) && Aside(s, s', g)
            && var (rd, wr) := (s.groups[g].rd.list, s.groups[g].wr.list);
               var (r, w) := (|rd| - |s'.groups[g].rd.list|, |wr| - |s'.groups[g].wr.list|);
               && 0 <= r <= 6 && 0 <= w <= 2 && n == r + w
               && s'.groups[g].rd.list == rd[r..] && s'.groups[g].wr.list == wr[w..]
               && s'.out == s.out + Entries(g, rd[..r]) + Entries(g, wr[..w])
               && |s'.out| == |s.out| + n
               && (r < 6 ==> Waits(c, s', g, false)) && (w < 2 ==> Waits(c, s', g, true))
  {
    hide Inv, DispatchList, HeadOf;
    ListGoes(c, s, g, false, MAX_READS);
    var s1 := DispatchList(c, s, g, false, MAX_READS).0;
    ListGoes(c, s1, g, true, MAX_WRITES);
    var s2 := DispatchList(c, s1, g, true, MAX_WRITES).0;
    assert s2.groups[g].rd == s1.groups[g].rd && s1.groups[g].wr == s.groups[g].wr;
    HeadSame(c, s1, s2, g, false);
  }

  lemma HeadSame(c: R.Clock, s: State, s': State, g: nat, write: bool)
    requires Ready(c, s, g) && Ready(c, s', g) && s'.groups[g].Of(write) == s.groups[g].Of(write) && s'.now == s.now
    ensures Waits(c, s', g, write) <==> Waits(c, s, g, write)
    ensures s.groups[g].Of(write).list != [] ==> HeadOf(c, s', g, write) == HeadOf(c, s, g, write)
  {
    hide Inv, Head;
  }

  lemma Looser(s: State, g: nat)
    requires Inv(s, {})
    ensures Inv(s, {g})
  {
    hide LanesOk, TreeOk, Queued, Fifo;
  }

  lemma Tighter(s: State, g: nat)
    requires g < |s.groups| && Inv(s, {g}) && !s.groups[g].onRr && !s.groups[g].Busy()
    ensures Inv(s, {})
  {
    hide LanesOk, TreeOk, Queued, Fifo;
  }

  lemma CountIs(s: State, loose: set<nat>)
    requires Inv(s, loose)
    ensures s.count == |s.tree|
  {}

  /** The first group of the tree is due no later than any other that has bios queued. */
  lemma FirstEarliest(s: State)
    requires Inv(s, {})
    ensures forall g :: g in s.tree ==> g < |s.groups| && s.tree[0] < |s.groups|
    ensures forall g :: g in s.tree ==> s.groups[s.tree[0]].disptime <= s.groups[g].disptime
    ensures forall g: nat :: g < |s.groups| && s.groups[g].Busy() ==> g in s.tree
  {
    forall g | g in s.tree
      ensures g < |s.groups| && s.tree[0] < |s.groups| && s.groups[s.tree[0]].disptime <= s.groups[g].disptime
    {
      assert s.tree[0] in s.tree;
      var i :| 0 <= i < |s.tree| && s.tree[i] == g;
      assert i == 0 || Disptime(s.groups, s.tree[0]) <= Disptime(s.groups, s.tree[i]);
    }
  }

  lemma {:induction false} QueuedZero(groups: seq<Group>, write: bool)
    ensures Queued(groups, write) == 0 <==> forall g: nat :: g < |groups| ==> groups[g].Of(write).list == []
  {
    if groups != [] {
      var r := groups[1..];
      QueuedZero(r, write);
      if Queued(groups, write) == 0 {
        forall g: nat | g < |groups| ensures groups[g].Of(write).list == [] { if g > 0 { assert groups[g] == r[g - 1]; } }
      }
      if forall g: nat :: g < |groups| ==> groups[g].Of(write).list == [] {
        forall g: nat | g < |r| ensures r[g].Of(write).list == [] { assert r[g] == groups[g + 1]; }
      }
    }
  }

  /** The device counts are zero just when no group has a bio, and then the tree is empty. */
  lemma NothingQueued(s: State)
    requires Inv(s, {})
    ensures s.nrRead + s.nrWrite == 0 <==> forall g: nat :: g < |s.groups| ==> !s.groups[g].Busy()
    ensures s.nrRead + s.nrWrite == 0 <==> s.tree == []
  {
    QueuedZero(s.groups, false);
    QueuedZero(s.groups, true);
    hide LanesOk, Fifo, Queued;
    if s.tree != [] { assert s.tree[0] in s.tree; }
  }

  lemma Empty(s: State)
    requires Inv(s, {}) && s.tree == []
    ensures s.count == 0 && s.nrRead == 0 && s.nrWrite == 0
    ensures forall g: nat, w: bool :: g < |s.groups| ==> s.groups[g].Of(w).list == [] && Only(s.out, g, w) == Only(s.arrived, g, w)
  {
    NothingQueued(s);
    QueuedZero(s.groups, false);
    QueuedZero(s.groups, true);
    hide Only, Queued, LanesOk;
    forall g: nat, w: bool | g < |s.groups|
      ensures s.groups[g].Of(w).list == [] && Only(s.out, g, w) == Only(s.arrived, g, w)
    {
      assert !s.groups[g].Busy();
      assert Only(s.arrived, g, w) == Only(s.out, g, w) + s.groups[g].Of(w).list;
    }
  }

  // ------------------------------------------------------- the dispatch time

  /** The shorter wait of the two heads. */
  ghost function MinWait(c: R.Clock, s: State, g: nat): nat
    requires Ready(c, s, g) && s.groups[g].Busy()
  {
    if s.groups[g].rd.list == [] then HeadOf(c, s, g, true).1
    else if s.groups[g].wr.list == [] then HeadOf(c, s, g, false).1
    else if HeadOf(c, s, g, true).1 < HeadOf(c, s, g, false).1 then HeadOf(c, s, g, true).1
    else HeadOf(c, s, g, false).1
  }

  /** It is the wait of a head, and no head waits shorter. */
  lemma MinWaitLeast(c: R.Clock, s: State, g: nat)
    requires Ready(c, s, g) && s.groups[g].Busy()
    ensures forall w: bool :: s.groups[g].Of(w).list != [] ==> MinWait(c, s, g) <= HeadOf(c, s, g, w).1
    ensures exists w: bool :: s.groups[g].Of(w).list != [] && MinWait(c, s, g) == HeadOf(c, s, g, w).1
  {
    hide HeadOf, Inv;
    assert s.groups[g].Of(false).list == s.groups[g].rd.list && s.groups[g].Of(true).list == s.groups[g].wr.list;
  }

  ghost function LookIf(c: R.Clock, s: State, g: nat, write: bool): State
    requires Ready(c, s, g)
  {
    if s.groups[g].Of(write).list == [] then s else Look(c, s, g, write)
  }

  lemma LookIfGoes(c: R.Clock, s: State, g: nat, write: bool)
    requires Ready(c, s, g)
    ensures var s' := LookIf(c, s, g, write);
            && Ready(c, s', g) && Aside(s, s', g) && s'.out == s.out && s'.groups[g].Of(!write) == s.groups[g].Of(!write)
            && s'.groups[g].Of(write).list == s.groups[g].Of(write).list
  {
    if s.groups[g].Of(write).list != [] {
      LookReady(c, s, g, write);
      LookAside(c, s, g, write);
      hide Look;
    }
  }

  /** tg_may_dispatch on both heads. */
  ghost function LookBoth(c: R.Clock, s: State, g: nat): State
    requires Ready(c, s, g)
  {
    LookIfGoes(c, s, g, false);
    LookIf(c, LookIf(c, s, g, false), g, true)
  }

  lemma LookBothGoes(c: R.Clock, s: State, g: nat)
    requires Ready(c, s, g)
    ensures var s' := LookBoth(c, s, g);
            && Ready(c, s', g) && Aside(s, s', g) && s'.out == s.out
            && s'.groups[g].rd.list == s.groups[g].rd.list && s'.groups[g].wr.list == s.groups[g].wr.list
  {
    hide Inv, LookIf;
    LookIfGoes(c, s, g, false);
    LookIfGoes(c, LookIf(c, s, g, false), g, true);
  }

  /** Off the tree, if on it, and back by the new time. */
  function Relink(s: State, g: nat, t: nat): State
    requires g < |s.groups|
  {
    Enqueue(SetDisptime(Dequeue(s, g), g, t), g)
  }

  lemma RelinkGoes(s: State, g: nat, t: nat)
    requires g < |s.groups| && Inv(s, {g}) && s.groups[g].Busy()
    ensures var s' := Relink(s, g, t);
            && Inv(s', {}) && s'.groups == s.groups[g := s.groups[g].(onRr := true, disptime := t)]
            && s'.out == s.out && s'.arrived == s.arrived && s'.now == s.now
  {
    hide Inv, Place, Remove;
    DequeueKeeps(s, g);
    DisptimeKeeps(Dequeue(s, g), g, t);
    EnqueueKeeps(SetDisptime(Dequeue(s, g), g, t), g);
  }

  /** tg_update_disptime. */
  ghost function UpdateDisptime(c: R.Clock, s: State, g: nat): State
    requires Ready(c, s, g) && s.groups[g].Busy()
  {
    LookBothGoes(c, s, g);
    Relink(LookBoth(c, s, g), g, s.now + MinWait(c, s, g))
  }

  lemma MinWaitPositive(c: R.Clock, s: State, g: nat)
    requires Ready(c, s, g) && s.groups[g].Busy() && Waits(c, s, g, false) && Waits(c, s, g, true)
    ensures MinWait(c, s, g) > 0
  {
    if s.groups[g].rd.list != [] { LookReady(c, s, g, false); }
    if s.groups[g].wr.list != [] { LookReady(c, s, g, true); }
    hide Inv, HeadOf, Look;
  }

  /** The group is due when the head with the shorter wait is: after now if neither may go. */
  lemma UpdateGoes(c: R.Clock, s: State, g: nat)
    requires Ready(c, s, g) && s.groups[g].Busy()
    ensures var s' := UpdateDisptime(c, s, g);
            && Inv(s', {}) && |s'.groups| == |s.groups| && s'.groups == s.groups[g := s'.groups[g]]
            && s'.groups[g].onRr && s'.groups[g].disptime == s.now + MinWait(c, s, g)
            && s'.groups[g].rd.list == s.groups[g].rd.list && s'.groups[g].wr.list == s.groups[g].wr.list
            && s'.out == s.out && s'.arrived == s.arrived && s'.now == s.now
            && (Waits(c, s, g, false) && Waits(c, s, g, true) ==> s'.groups[g].disptime > s.now)
  {
    hide Inv, HeadOf, LookBoth, Relink, MinWait, Waits;
    if Waits(c, s, g, false) && Waits(c, s, g, true) { MinWaitPositive(c, s, g); }
    LookBothGoes(c, s, g);
    RelinkGoes(LookBoth(c, s, g), g, s.now + MinWait(c, s, g));
  }

  // ------------------------------------------------------------- a whole call

  /** One round of throtl_select_dispatch for a group that is due. */
  ghost function Round(c: R.Clock, s: State, g: nat): (State, nat)
    requires c.Valid() && g < |s.groups| && Inv(s, {})
  {
    Looser(s, g);
    DequeueKeeps(s, g);
    TgGoes(c, Dequeue(s, g), g);
    var (s1, k) := DispatchTg(c, Dequeue(s, g), g);
    (if s1.groups[g].Busy() then UpdateDisptime(c, s1, g) else s1, k)
  }

  lemma DequeueAside(s: State, g: nat)
    requires g < |s.groups|
    ensures var s' := Dequeue(s, g);
            && |s'.groups| == |s.groups| && s'.groups == s.groups[g := s'.groups[g]]
            && s'.groups[g] == s.groups[g].(onRr := false)
            && s'.out == s.out && s'.arrived == s.arrived && s'.now == s.now
  {}

  lemma OnlyOne(a: seq<Group>, b: seq<Group>, c: seq<Group>, d: seq<Group>, g: nat)
    requires g < |a| == |b| == |c| == |d| && b == a[g := b[g]] && c == b[g := c[g]] && d == c[g := d[g]]
    ensures d == a[g := d[g]]
  {}

  /** A round lets k bios through; if it lets none through, its group is no longer due. */
  lemma RoundGoes(c: R.Clock, s: State, g: nat)
    requires c.Valid() && g < |s.groups| && Inv(s, {}) && s.groups[g].onRr && s.groups[g].disptime <= s.now
    ensures var (s', k) := Round(c, s, g);
            && Inv(s', {}) && |s'.groups| == |s.groups| && s'.arrived == s.arrived && s'.now == s.now
            && k <= MAX_READS + MAX_WRITES && s.out <= s'.out && |s'.out| == |s.out| + k
            && (k == 0 ==> Due(s'.groups, s.now) < Due(s.groups, s.now))
  {
    Looser(s, g);
    DequeueKeeps(s, g);
    DequeueAside(s, g);
    hide Inv, Dequeue, DispatchTg, UpdateDisptime, Waits, Entries;
    var s0 := Dequeue(s, g);
    TgGoes(c, s0, g);
    var s1 := DispatchTg(c, s0, g).0;
    var s' := Round(c, s, g).0;
    if s1.groups[g].Busy() { UpdateGoes(c, s1, g); } else { Tighter(s1, g); }
    OnlyOne(s.groups, s0.groups, s1.groups, s'.groups, g);
    DueSet(s.groups, g, s'.groups[g], s.now);
  }

  /** throtl_rb_first fills the cache. */
  function Peeked(s: State): State { if s.tree == [] then s else s.(left := Some(s.tree[0])) }

  lemma PeekedOk(s: State)
    requires Inv(s, {})
    ensures Inv(Peeked(s), {})
    ensures s.tree != [] ==> s.tree[0] < |s.groups| && s.groups[s.tree[0]].onRr && s.groups[s.tree[0]].Busy()
  {
    hide LanesOk, Queued, Fifo;
    if s.tree != [] { assert s.tree[0] in s.tree; }
  }

  ghost predicate FirstDue(s: State) {
    s.tree != [] && s.tree[0] < |s.groups| && s.groups[s.tree[0]].onRr && s.groups[s.tree[0]].disptime <= s.now
  }

  /** The loop of throtl_select_dispatch, n bios having gone out. */
  ghost function Select(c: R.Clock, s: State, n: nat): (State, nat)
    requires c.Valid() && Inv(s, {})
    decreases if n < QUANTUM then QUANTUM - n else 0, Due(s.groups, s.now)
  {
    PeekedOk(s);
    var s1 := Peeked(s);
    if n >= QUANTUM then (s, n)
    else if !FirstDue(s1) then (s1, n)
    else
      RoundGoes(c, s1, s1.tree[0]);
      var (s2, k) := Round(c, s1, s1.tree[0]);
      Select(c, s2, n + k)
  }

  /**
    A call ends; the number it returns is that of the bios that went out; they are at least 32, or
    no group is due any more.
  */
  lemma {:induction false} SelectGoes(c: R.Clock, s: State, n: nat)
    requires c.Valid() && Inv(s, {}) && n < QUANTUM + MAX_READS + MAX_WRITES
    ensures var (s', n') := Select(c, s, n);
            && Inv(s', {}) && |s'.groups| == |s.groups| && s'.arrived == s.arrived && s'.now == s.now
            && s.out <= s'.out && |s'.out| + n == |s.out| + n' && n' < 40
            && (n' >= 32 || forall g: nat :: g < |s'.groups| && s'.groups[g].Busy() ==> s'.groups[g].disptime > s'.now)
    decreases if n < QUANTUM then QUANTUM - n else 0, Due(s.groups, s.now)
  {
    hide Inv, Round, Due, Peeked, FirstDue;
    PeekedOk(s);
    PeekedAside(s);
    var s1 := Peeked(s);
    if n < QUANTUM {
      if FirstDue(s1) {
        DueFirst(s1);
        RoundGoes(c, s1, s1.tree[0]);
        var (s2, k) := Round(c, s1, s1.tree[0]);
        SelectGoes(c, s2, n + k);
      } else {
        NoneDue(s1);
      }
    }
  }

  /** One turn of that loop. */
  lemma SelectStep(c: R.Clock, s: State, n: nat)
    requires c.Valid() && Inv(s, {})
    ensures Inv(Peeked(s), {})
    ensures n >= QUANTUM ==> Select(c, s, n) == (s, n)
    ensures n < QUANTUM && !FirstDue(Peeked(s)) ==> Select(c, s, n) == (Peeked(s), n)
    ensures n < QUANTUM && FirstDue(Peeked(s)) ==>
              var s1 := Peeked(s);
              && s1.tree != [] && s1.tree[0] < |s1.groups|
              && var (s2, k) := Round(c, s1, s1.tree[0]);
                 Inv(s2, {}) && Select(c, s, n) == Select(c, s2, n + k)
  {
    hide Inv, Round, Peeked, FirstDue, Due;
    PeekedOk(s);
    var s1 := Peeked(s);
    if FirstDue(s1) {
      DueFirst(s1);
      RoundGoes(c, s1, s1.tree[0]);
    }
  }

  lemma PeekedAside(s: State)
    ensures Peeked(s) == s.(left := Peeked(s).left)
  {}

  lemma DueFirst(s: State)
    requires FirstDue(s)
    ensures s.tree != [] && s.tree[0] < |s.groups| && s.groups[s.tree[0]].onRr && s.groups[s.tree[0]].disptime <= s.now
  {}

  lemma NoneDue(s: State)
    requires Inv(s, {}) && !FirstDue(s)
    ensures forall g: nat :: g < |s.groups| && s.groups[g].Busy() ==> s.groups[g].disptime > s.now
  {
    FirstEarliest(s);
    PeekedOk(s);
    hide Inv;
  }

  // -------------------------------------------------------------- submission

  /** The verdict on a bio that is offered to an empty list. */
  ghost function Offered(c: R.Clock, s: State, g: nat, bio: Bio): (bool, nat, R.Dir)
    requires c.Valid() && g < |s.groups| && Inv(s, {})
  {
    Positive(s, g, bio.write, {});
    Head(c, s.groups[g].Of(bio.write).(list := [bio]), s.now)
  }

  /** blk_throtl_bio for a group with limits; the flag tells whether the bio is throttled. */
  ghost function Submit(c: R.Clock, s: State, g: nat, bio: Bio): (State, bool)
    requires c.Valid() && g < |s.groups| && Inv(s, {})
  {
    if s.groups[g].Of(bio.write).list != [] then
      (Enqueue(AddBio(s, g, bio), g), true)
    else
      var (ok, _, rate) := Offered(c, s, g, bio);
      if ok then (Pass(s, g, bio, R.TrimSlice(c, R.Charge(rate, bio.size), s.now)), false)
      else
        EnlistGoes(SetRateOf(c, s, g, bio), g, bio);
        var s1 := Enqueue(AddBio(SetRateOf(c, s, g, bio), g, bio), g);
        Looser(s1, g);
        (UpdateDisptime(c, s1, g), true)
  }

  /** The slice as a refusal leaves it. */
  ghost function SetRateOf(c: R.Clock, s: State, g: nat, bio: Bio): (s': State)
    requires c.Valid() && g < |s.groups| && Inv(s, {})
    ensures Inv(s', {}) && |s'.groups| == |s.groups| && s'.out == s.out && s'.arrived == s.arrived && s'.now == s.now
  {
    Positive(s, g, bio.write, {});
    RefusalStands(c, s.groups[g].Of(bio.write).(list := [bio]), s.now);
    RateKeeps(s, g, bio.write, Offered(c, s, g, bio).2, {});
    SetRate(s, g, bio.write, Offered(c, s, g, bio).2)
  }

  lemma EnlistGoes(s: State, g: nat, bio: Bio)
    requires g < |s.groups| && Inv(s, {})
    ensures var s' := Enqueue(AddBio(s, g, bio), g);
            && Inv(s', {}) && |s'.groups| == |s.groups| && s'.groups[g].Busy()
            && s'.out == s.out && s'.arrived == s.arrived + [Entry(g, bio)] && s'.now == s.now
  {
    Looser(s, g);
    AddBioKeeps(s, g, bio);
    hide Inv, Place;
    EnqueueKeeps(AddBio(s, g, bio), g);
  }

  /** A bio is throttled exactly when one of its group and direction waits already, or the limits refuse it. */
  lemma SubmitGoes(c: R.Clock, s: State, g: nat, bio: Bio)
    requires c.Valid() && g < |s.groups| && Inv(s, {})
    ensures var (s', throttled) := Submit(c, s, g, bio);
            && Inv(s', {}) && |s'.groups| == |s.groups| && s'.now == s.now && s'.arrived == s.arrived + [Entry(g, bio)]
            && (throttled <==> s.groups[g].Of(bio.write).list != [] || !Offered(c, s, g, bio).0)
            && s'.out == (if throttled then s.out else s.out + [Entry(g, bio)])
  {
    if s.groups[g].Of(bio.write).list != [] {
      EnlistGoes(s, g, bio);
    } else if Offered(c, s, g, bio).0 {
      PassGoes(c, s, g, bio);
    } else {
      var s0 := SetRateOf(c, s, g, bio);
      EnlistGoes(s0, g, bio);
      var s1 := Enqueue(AddBio(s0, g, bio), g);
      Looser(s1, g);
      hide Inv, Enqueue, AddBio, UpdateDisptime;
      UpdateGoes(c, s1, g);
    }
  }

  lemma PassGoes(c: R.Clock, s: State, g: nat, bio: Bio)
    requires c.Valid() && g < |s.groups| && Inv(s, {}) && s.groups[g].Of(bio.write).list == []
    ensures Inv(Pass(s, g, bio, R.TrimSlice(c, R.Charge(Offered(c, s, g, bio).2, bio.size), s.now)), {})
  {
    Positive(s, g, bio.write, {});
    RefusalStands(c, s.groups[g].Of(bio.write).(list := [bio]), s.now);
    TrimRates(c, Offered(c, s, g, bio).2, bio.size, s.now);
    hide Inv, R.TrimSlice, Head;
    PassKeeps(s, g, bio, R.TrimSlice(c, R.Charge(Offered(c, s, g, bio).2, bio.size), s.now));
  }
}
