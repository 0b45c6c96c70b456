/**
  Queued bios of a throttled device (block/blk-throttle.c): per-group lists,
  their counts, and the service tree of groups by dispatch time.
*/
module ThrottleQueue {
  import opened Lists
  import R = ThrottleRate

  /** bi_size is an unsigned int. */
  type Size = n: nat | n < 0x1_0000_0000

  datatype Bio = Bio(id: nat, write: bool, size: Size)

  /** bio_lists, nr_queued and the slice of one direction. */
  datatype Lane = Lane(list: seq<Bio>, nr: int, rate: R.Dir)

  datatype Group = Group(rd: Lane, wr: Lane, disptime: nat, onRr: bool) {
    function Of(write: bool): Lane { if write then wr else rd }
    function With(write: bool, lane: Lane): Group { if write then this.(wr := lane) else this.(rd := lane) }
    predicate Busy() { rd.list != [] || wr.list != [] }
  }

  /** A bio of group g, on arrival or on its way out. */
  datatype Entry = Entry(g: nat, bio: Bio)

  /** throtl_data; `arrived` and `out` record every bio submitted and every bio let through. */
  datatype State = State(
    groups: seq<Group>, tree: seq<nat>, left: Option<nat>, count: int, nrRead: int, nrWrite: int,
    now: nat, arrived: seq<Entry>, out: seq<Entry>, bug: bool)
  {
    function Nr(write: bool): int { if write then nrWrite else nrRead }
    function AddNr(write: bool, n: int): State {
      if write then this.(nrWrite := nrWrite + n) else this.(nrRead := nrRead + n)
    }
    function Set(g: nat, gr: Group): State
      requires g < |groups|
    {
      this.(groups := groups[g := gr])
    }
  }

  // -------------------------------------------------------------- operations

  function Disptime(groups: seq<Group>, g: nat): nat { if g < |groups| then groups[g].disptime else 0 }

  /** Where tg_service_tree_add links a group: behind every group due no later. */
  function Place(groups: seq<Group>, tree: seq<nat>, t: nat): (i: nat)
    ensures i <= |tree|
  {
    if tree == [] || t < Disptime(groups, tree[0]) then 0 else 1 + Place(groups, tree[1..], t)
  }

  /** throtl_enqueue_tg. */
  function Enqueue(s: State, g: nat): State
    requires g < |s.groups|
  {
    if s.groups[g].onRr then s
    else
      var i := Place(s.groups, s.tree, s.groups[g].disptime);
      s.Set(g, s.groups[g].(onRr := true))
       .(tree := s.tree[..i] + [g] + s.tree[i..], left := if i == 0 then Some(g) else s.left, count := s.count + 1)
  }

  /** throtl_dequeue_tg. */
  function Dequeue(s: State, g: nat): State
    requires g < |s.groups|
  {
    if !s.groups[g].onRr then s
    else
      s.Set(g, s.groups[g].(onRr := false))
       .(tree := Remove(s.tree, g), left := if s.left == Some(g) then None else s.left, count := s.count - 1)
  }

  /** throtl_add_bio_tg, before the group is put on the tree. */
  function AddBio(s: State, g: nat, bio: Bio): State
    requires g < |s.groups|
  {
    var lane := s.groups[g].Of(bio.write);
    s.Set(g, s.groups[g].With(bio.write, lane.(list := lane.list + [bio], nr := lane.nr + 1)))
     .AddNr(bio.write, 1).(arrived := s.arrived + [Entry(g, bio)])
  }

  /** A bio let through at once. */
  function Pass(s: State, g: nat, bio: Bio, rate: R.Dir): State
    requires g < |s.groups|
  {
    s.Set(g, s.groups[g].With(bio.write, s.groups[g].Of(bio.write).(rate := rate)))
     .(arrived := s.arrived + [Entry(g, bio)], out := s.out + [Entry(g, bio)])
  }

  /** The slice of one direction changed, as tg_may_dispatch leaves it. */
  function SetRate(s: State, g: nat, write: bool, rate: R.Dir): State
    requires g < |s.groups|
  {
    s.Set(g, s.groups[g].With(write, s.groups[g].Of(write).(rate := rate)))
  }

  function SetDisptime(s: State, g: nat, t: nat): State
    requires g < |s.groups|
  {
    s.Set(g, s.groups[g].(disptime := t))
  }

  /** tg_dispatch_one_bio: the head of the list is charged and let through. */
  function DispatchOne(c: R.Clock, s: State, g: nat, write: bool): State
    requires g < |s.groups| && s.groups[g].Of(write).list != [] && c.Valid()
  {
    var lane := s.groups[g].Of(write);
    var bio := lane.list[0];
    s.(bug := s.bug || s.Nr(write) <= 0)
     .Set(g, s.groups[g].With(write, Lane(lane.list[1..], lane.nr - 1, R.TrimSlice(c, R.Charge(lane.rate, bio.size), s.now))))
     .AddNr(write, -1).(out := s.out + [Entry(g, bio)])
  }

  // --------------------------------------------------------------- the counts

  function Queued(groups: seq<Group>, write: bool): nat {
    if groups == [] then 0 else |groups[0].Of(write).list| + Queued(groups[1..], write)
  }

  ghost predicate LaneOk(lane: Lane, write: bool) {
    && lane.nr == |lane.list| && lane.rate.bps > 0 && lane.rate.iops > 0
    && (forall i :: 0 <= i < |lane.list| ==> lane.list[i].write == write)
  }

  ghost predicate LanesOk(groups: seq<Group>) {
    forall g: nat :: g < |groups| ==> LaneOk(groups[g].rd, false) && LaneOk(groups[g].wr, true)
  }

  ghost predicate InOrder(groups: seq<Group>, tree: seq<nat>) {
    forall i, j :: 0 <= i < j < |tree| ==> Disptime(groups, tree[i]) <= Disptime(groups, tree[j])
  }

  /** The tree holds the groups marked on it, by dispatch time; its cached first node is the first or absent. */
  ghost predicate TreeOk(groups: seq<Group>, tree: seq<nat>, left: Option<nat>, count: int) {
    && Distinct(tree) && InOrder(groups, tree) && count == |tree|
    && (forall g: nat :: g in tree <==> g < |groups| && groups[g].onRr)
    && (left.Some? ==> tree != [] && left.value == tree[0])
  }

  /** The bios of one group and direction, in order. */
  function Only(log: seq<Entry>, g: nat, write: bool): seq<Bio> {
    if log == [] then []
    else
      var e := log[|log| - 1];
      Only(log[..|log| - 1], g, write) + if e.g == g && e.bio.write == write then [e.bio] else []
  }

  /** First in, first out: what arrived is what went out, followed by what is queued. */
  ghost predicate Fifo(groups: seq<Group>, arrived: seq<Entry>, out: seq<Entry>) {
    forall g: nat, w: bool :: g < |groups| ==> Only(arrived, g, w) == Only(out, g, w) + groups[g].Of(w).list
  }

  /** All but the groups `loose` are on the tree exactly when they have bios queued. */
  ghost predicate OnIffBusy(groups: seq<Group>, loose: set<nat>) {
    forall g: nat :: g < |groups| && g !in loose ==> (groups[g].onRr <==> groups[g].Busy())
  }

  ghost predicate Inv(s: State, loose: set<nat>) {
    && LanesOk(s.groups)
    && s.nrRead == Queued(s.groups, false) && s.nrWrite == Queued(s.groups, true)
    && TreeOk(s.groups, s.tree, s.left, s.count)
    && Fifo(s.groups, s.arrived, s.out)
    && OnIffBusy(s.groups, loose)
    && !s.bug
  }

  // -------------------------------------------------------------- small facts

  lemma {:induction false} QueuedSet(groups: seq<Group>, g: nat, gr: Group, write: bool)
    requires g < |groups|
    ensures Queued(groups[g := gr], write) == Queued(groups, write) - |groups[g].Of(write).list| + |gr.Of(write).list|
  {
    if g == 0 {
      assert groups[g := gr][1..] == groups[1..];
    } else {
      assert groups[g := gr][1..] == groups[1..][g - 1 := gr];
      QueuedSet(groups[1..], g - 1, gr, write);
    }
  }

  lemma {:induction false} QueuedPositive(groups: seq<Group>, g: nat, write: bool)
    requires g < |groups|
    ensures Queued(groups, write) >= |groups[g].Of(write).list|
  {
    if g > 0 { QueuedPositive(groups[1..], g - 1, write); }
  }

  lemma OnlyAppend(log: seq<Entry>, e: Entry, g: nat, write: bool)
    ensures Only(log + [e], g, write) == Only(log, g, write) + if e.g == g && e.bio.write == write then [e.bio] else []
  {
    assert (log + [e])[..|log|] == log;
  }

  lemma {:induction false} PlaceSplits(groups: seq<Group>, tree: seq<nat>, t: nat)
    requires InOrder(groups, tree)
    ensures var i := Place(groups, tree, t);
            && (forall j :: 0 <= j < i ==> Disptime(groups, tree[j]) <= t)
            && (forall j :: i <= j < |tree| ==> t < Disptime(groups, tree[j]))
  {
    if tree != [] && t >= Disptime(groups, tree[0]) {
      var r := tree[1..];
      PlaceSplits(groups, r, t);
      forall j | 0 <= j < |tree|
        ensures j < 1 + Place(groups, r, t) ==> Disptime(groups, tree[j]) <= t
        ensures j >= 1 + Place(groups, r, t) ==> t < Disptime(groups, tree[j])
      {
        if j > 0 { assert tree[j] == r[j - 1]; }
      }
    }
  }

  // ----------------------------------------------------- what each step keeps

  /** A group off the tree may change, but for its mark. */
  lemma TreeFrame(groups: seq<Group>, tree: seq<nat>, left: Option<nat>, count: int, g: nat, gr: Group)
    requires TreeOk(groups, tree, left, count) && g < |groups| && gr.onRr == groups[g].onRr
    requires gr.onRr ==> gr.disptime == groups[g].disptime
    ensures TreeOk(groups[g := gr], tree, left, count)
  {
    var groups' := groups[g := gr];
    forall i | 0 <= i < |tree| ensures Disptime(groups', tree[i]) == Disptime(groups, tree[i]) {
      assert tree[i] in tree;
    }
  }

  lemma InsertAt(groups: seq<Group>, tree: seq<nat>, g: nat, i: nat)
    requires InOrder(groups, tree) && i <= |tree|
    requires forall j :: 0 <= j < i ==> Disptime(groups, tree[j]) <= Disptime(groups, g)
    requires forall j :: i <= j < |tree| ==> Disptime(groups, g) <= Disptime(groups, tree[j])
    ensures InOrder(groups, tree[..i] + [g] + tree[i..])
  {
    hide Disptime;
    var r := tree[..i] + [g] + tree[i..];
    forall a, b | 0 <= a < b < |r| ensures Disptime(groups, r[a]) <= Disptime(groups, r[b]) {
      assert r[a] == if a < i then tree[a] else if a == i then g else tree[a - 1];
      assert r[b] == if b < i then tree[b] else if b == i then g else tree[b - 1];
    }
  }

  lemma InsertOrdered(groups: seq<Group>, tree: seq<nat>, g: nat)
    requires InOrder(groups, tree) && Distinct(tree) && g !in tree
    ensures var i := Place(groups, tree, Disptime(groups, g));
            var r := tree[..i] + [g] + tree[i..];
            && InOrder(groups, r) && Distinct(r) && (forall h :: h in r <==> h in tree || h == g)
            && r[0] == if i == 0 then g else tree[0]
  {
    PlaceSplits(groups, tree, Disptime(groups, g));
    var i := Place(groups, tree, Disptime(groups, g));
    hide Place, Disptime;
    InsertAt(groups, tree, g, i);
    InsertDistinct(tree, g, i);
    InsertMembers(tree, g, i);
  }

  lemma OrderSame(groups: seq<Group>, groups': seq<Group>, tree: seq<nat>)
    requires forall g :: Disptime(groups', g) == Disptime(groups, g)
    ensures InOrder(groups, tree) <==> InOrder(groups', tree)
    ensures forall t :: Place(groups', tree, t) == Place(groups, tree, t)
  {
    forall t ensures Place(groups', tree, t) == Place(groups, tree, t) { PlaceSame(groups, groups', tree, t); }
  }

  lemma {:induction false} PlaceSame(groups: seq<Group>, groups': seq<Group>, tree: seq<nat>, t: nat)
    requires forall g :: Disptime(groups', g) == Disptime(groups, g)
    ensures Place(groups', tree, t) == Place(groups, tree, t)
  {
    if tree != [] { PlaceSame(groups, groups', tree[1..], t); }
  }

  lemma EnqueueTree(s: State, g: nat)
    requires g < |s.groups| && TreeOk(s.groups, s.tree, s.left, s.count)
    ensures var s' := Enqueue(s, g); TreeOk(s'.groups, s'.tree, s'.left, s'.count) && s'.groups[g].onRr
  {
    if !s.groups[g].onRr {
      var s' := Enqueue(s, g);
      InsertOrdered(s.groups, s.tree, g);
      hide Place;
      OrderSame(s.groups, s'.groups, s'.tree);
      hide InOrder, Distinct;
    }
  }

  lemma DequeueTree(s: State, g: nat)
    requires g < |s.groups| && TreeOk(s.groups, s.tree, s.left, s.count)
    ensures var s' := Dequeue(s, g); TreeOk(s'.groups, s'.tree, s'.left, s'.count) && !s'.groups[g].onRr
  {
    if s.groups[g].onRr {
      var s' := Dequeue(s, g);
      var k := RemoveAt(s.tree, g);
      RemoveMembers(s.tree, k);
      RemoveInOrder(s.groups, s.tree, k);
      hide Remove;
      OrderSame(s.groups, s'.groups, s'.tree);
      hide InOrder, Distinct;
    }
  }

  lemma RemoveInOrder(groups: seq<Group>, t: seq<nat>, k: nat)
    requires k < |t| && InOrder(groups, t)
    ensures InOrder(groups, t[..k] + t[k + 1..])
  {
    hide Disptime;
    var r := t[..k] + t[k + 1..];
    assert forall i :: 0 <= i < |r| ==> r[i] == if i < k then t[i] else t[i + 1];
  }

  /** Changes that leave every list and log alone. */
  lemma ListsFrame(groups: seq<Group>, g: nat, gr: Group, arrived: seq<Entry>, out: seq<Entry>)
    requires g < |groups| && gr.rd == groups[g].rd && gr.wr == groups[g].wr
    ensures LanesOk(groups) ==> LanesOk(groups[g := gr])
    ensures Queued(groups[g := gr], false) == Queued(groups, false) && Queued(groups[g := gr], true) == Queued(groups, true)
    ensures Fifo(groups, arrived, out) ==> Fifo(groups[g := gr], arrived, out)
  {
    QueuedSet(groups, g, gr, false);
    QueuedSet(groups, g, gr, true);
    hide Only, LaneOk, Queued;
  }

  lemma EnqueueKeeps(s: State, g: nat)
    requires g < |s.groups| && Inv(s, {g}) && s.groups[g].Busy()
    ensures Inv(Enqueue(s, g), {}) && Enqueue(s, g).groups[g].onRr
  {
    EnqueueTree(s, g);
    ListsFrame(s.groups, g, s.groups[g].(onRr := true), s.arrived, s.out);
    hide Place, TreeOk, Fifo, LanesOk, Queued;
  }

  lemma DequeueKeeps(s: State, g: nat)
    requires g < |s.groups| && Inv(s, {g})
    ensures Inv(Dequeue(s, g), {g}) && !Dequeue(s, g).groups[g].onRr
  {
    DequeueTree(s, g);
    ListsFrame(s.groups, g, s.groups[g].(onRr := false), s.arrived, s.out);
    hide Remove, TreeOk, Fifo, LanesOk, Queued;
  }

  lemma DisptimeKeeps(s: State, g: nat, t: nat)
    requires g < |s.groups| && Inv(s, {g}) && !s.groups[g].onRr
    ensures Inv(SetDisptime(s, g, t), {g})
  {
    TreeFrame(s.groups, s.tree, s.left, s.count, g, s.groups[g].(disptime := t));
    ListsFrame(s.groups, g, s.groups[g].(disptime := t), s.arrived, s.out);
    hide TreeOk, Fifo, LanesOk, Queued;
  }

  lemma LanesSet(groups: seq<Group>, g: nat, write: bool, lane: Lane)
    requires g < |groups| && LanesOk(groups) && LaneOk(lane, write)
    ensures LanesOk(groups[g := groups[g].With(write, lane)])
  {
    hide LaneOk;
  }

  /** A new value of one lane: what follows for everything but the logs. */
  lemma SetLane(groups: seq<Group>, tree: seq<nat>, left: Option<nat>, count: int, g: nat, write: bool, lane: Lane)
    requires g < |groups| && LanesOk(groups) && TreeOk(groups, tree, left, count) && LaneOk(lane, write)
    ensures var groups' := groups[g := groups[g].With(write, lane)];
            && LanesOk(groups') && TreeOk(groups', tree, left, count)
            && Queued(groups', write) == Queued(groups, write) - |groups[g].Of(write).list| + |lane.list|
            && Queued(groups', !write) == Queued(groups, !write)
  {
    var gr := groups[g].With(write, lane);
    LanesSet(groups, g, write, lane);
    TreeFrame(groups, tree, left, count, g, gr);
    QueuedSet(groups, g, gr, write);
    QueuedSet(groups, g, gr, !write);
  }

  /** New slices do not touch the queues. */
  lemma RateKeeps(s: State, g: nat, write: bool, rate: R.Dir, loose: set<nat>)
    requires g < |s.groups| && Inv(s, loose) && rate.bps > 0 && rate.iops > 0
    ensures Inv(SetRate(s, g, write, rate), loose)
  {
    hide TreeOk, Queued, Only;
    var lane := s.groups[g].Of(write).(rate := rate);
    assert LaneOk(s.groups[g].Of(write), write);
    SetLane(s.groups, s.tree, s.left, s.count, g, write, lane);
    hide LanesOk;
  }

  lemma AddBioFifo(s: State, g: nat, bio: Bio)
    requires g < |s.groups| && Fifo(s.groups, s.arrived, s.out)
    ensures var s' := AddBio(s, g, bio); Fifo(s'.groups, s'.arrived, s'.out)
  {
    hide Only;
    var s' := AddBio(s, g, bio);
    forall h: nat, w: bool | h < |s'.groups|
      ensures Only(s'.arrived, h, w) == Only(s'.out, h, w) + s'.groups[h].Of(w).list
    {
      assert Only(s.arrived, h, w) == Only(s.out, h, w) + s.groups[h].Of(w).list;
      OnlyAppend(s.arrived, Entry(g, bio), h, w);
    }
  }

  lemma AddBioKeeps(s: State, g: nat, bio: Bio)
    requires g < |s.groups| && Inv(s, {g})
    ensures Inv(AddBio(s, g, bio), {g}) && AddBio(s, g, bio).groups[g].Busy()
    ensures AddBio(s, g, bio).groups[g].onRr == s.groups[g].onRr
  {
    hide TreeOk, Queued, Fifo;
    var was := s.groups[g].Of(bio.write);
    assert LaneOk(was, bio.write);
    SetLane(s.groups, s.tree, s.left, s.count, g, bio.write, was.(list := was.list + [bio], nr := was.nr + 1));
    AddBioFifo(s, g, bio);
    hide LanesOk;
  }

  lemma PassFifo(s: State, g: nat, bio: Bio, rate: R.Dir)
    requires g < |s.groups| && Fifo(s.groups, s.arrived, s.out) && s.groups[g].Of(bio.write).list == []
    ensures var s' := Pass(s, g, bio, rate); Fifo(s'.groups, s'.arrived, s'.out)
  {
    hide Only;
    var s' := Pass(s, g, bio, rate);
    forall h: nat, w: bool | h < |s'.groups|
      ensures Only(s'.arrived, h, w) == Only(s'.out, h, w) + s'.groups[h].Of(w).list
    {
      assert s'.groups[h].Of(w).list == s.groups[h].Of(w).list;
      assert Only(s.arrived, h, w) == Only(s.out, h, w) + s.groups[h].Of(w).list;
      OnlyAppend(s.arrived, Entry(g, bio), h, w);
      OnlyAppend(s.out, Entry(g, bio), h, w);
    }
  }

  /** A bio passes by only if none of its group and direction is waiting, so the order is kept. */
  lemma PassKeeps(s: State, g: nat, bio: Bio, rate: R.Dir)
    requires g < |s.groups| && Inv(s, {}) && rate.bps > 0 && rate.iops > 0
    requires s.groups[g].Of(bio.write).list == []
    ensures Inv(Pass(s, g, bio, rate), {})
  {
    hide LanesOk, TreeOk, Queued, Fifo;
    RateKeeps(s, g, bio.write, rate, {});
    PassFifo(s, g, bio, rate);
  }

  lemma DispatchFifo(c: R.Clock, s: State, g: nat, write: bool)
    requires g < |s.groups| && Fifo(s.groups, s.arrived, s.out) && c.Valid()
    requires s.groups[g].Of(write).list != [] && s.groups[g].Of(write).list[0].write == write
    ensures var s' := DispatchOne(c, s, g, write); Fifo(s'.groups, s'.arrived, s'.out)
  {
    hide Only, R.TrimSlice;
    var s' := DispatchOne(c, s, g, write);
    var list := s.groups[g].Of(write).list;
    assert list == [list[0]] + list[1..];
    forall h: nat, w: bool | h < |s'.groups|
      ensures Only(s'.arrived, h, w) == Only(s'.out, h, w) + s'.groups[h].Of(w).list
    {
      assert Only(s.arrived, h, w) == Only(s.out, h, w) + s.groups[h].Of(w).list;
      OnlyAppend(s.out, Entry(g, list[0]), h, w);
    }
  }

  lemma TrimRates(c: R.Clock, d: R.Dir, size: nat, now: nat)
    requires c.Valid()
    ensures var t := R.TrimSlice(c, R.Charge(d, size), now); t.bps == d.bps && t.iops == d.iops
  {
    hide R.RoundUp, R.U64, R.U32;
  }

  /** Letting one bio through: counted off everywhere, the next in line, and never an empty count. */
  lemma DispatchOneKeeps(c: R.Clock, s: State, g: nat, write: bool)
    requires g < |s.groups| && Inv(s, {g}) && c.Valid() && s.groups[g].Of(write).list != []
    ensures var s' := DispatchOne(c, s, g, write);
            Inv(s', {g}) && s'.groups[g].onRr == s.groups[g].onRr && s'.groups[g].disptime == s.groups[g].disptime
  {
    hide R.TrimSlice, R.Charge, TreeOk, Queued, Fifo;
    var was := s.groups[g].Of(write);
    var bio := was.list[0];
    assert LaneOk(was, write);
    TrimRates(c, was.rate, bio.size, s.now);
    var lane := Lane(was.list[1..], was.nr - 1, R.TrimSlice(c, R.Charge(was.rate, bio.size), s.now));
    SetLane(s.groups, s.tree, s.left, s.count, g, write, lane);
    QueuedPositive(s.groups, g, write);
    DispatchFifo(c, s, g, write);
    hide LanesOk;
  }

  // ------------------------------------------------------- the dispatch time

  /** Whether the head of a lane may go now, and else how long it has to wait. */
  function Head(c: R.Clock, lane: Lane, now: nat): (bool, nat, R.Dir)
    requires c.Valid() && lane.list != [] && lane.rate.bps > 0 && lane.rate.iops > 0
  {
    R.MayDispatch(c, lane.rate, lane.list[0].size, now)
  }

  /** tg_may_dispatch keeps the limits, and its refusal stands until the clock moves on. */
  lemma RefusalStands(c: R.Clock, lane: Lane, now: nat)
    requires c.Valid() && lane.list != [] && lane.rate.bps > 0 && lane.rate.iops > 0
    ensures var (ok, wait, rate) := Head(c, lane, now);
            && rate.bps == lane.rate.bps && rate.iops == lane.rate.iops
            && (!ok ==> wait > 0 && !Head(c, lane.(rate := rate), now).0)
  {
    var d := lane.rate;
    if !R.Unlimited(d) {
      var d1 := R.Renew(c, d, now);
      R.RoundUpBounds(now + c.Slice(), c.Slice());
      var (ok, wait, rate) := Head(c, lane, now);
      R.RoundUpBounds(now + wait, c.Slice());
      hide R.RoundUp;
      if !ok { SameBooks(c, d1, rate, lane.list[0].size, now); }
    }
  }

  /** The verdict does not depend on where the slice ends. */
  lemma SameBooks(c: R.Clock, d: R.Dir, e: R.Dir, size: nat, now: nat)
    requires c.Valid() && d.bps > 0 && d.iops > 0 && d.start <= now <= d.end
    requires e == d.(end := e.end) && d.end <= e.end && now + c.Slice() <= d.end
    ensures R.Renew(c, e, now) == e
    ensures R.BpsWait(c, e, size, now) == R.BpsWait(c, d, size, now)
    ensures R.IopsWait(c, e, now) == R.IopsWait(c, d, now)
  {
    hide R.Times, R.Over, R.U64, R.U32;
  }

  /** Groups on the tree whose time has come. */
  function Due(groups: seq<Group>, now: nat): nat {
    if groups == [] then 0 else (if groups[0].onRr && groups[0].disptime <= now then 1 else 0) + Due(groups[1..], now)
  }

  lemma {:induction false} DueSet(groups: seq<Group>, g: nat, gr: Group, now: nat)
    requires g < |groups|
    ensures Due(groups[g := gr], now) ==
            Due(groups, now) - (if groups[g].onRr && groups[g].disptime <= now then 1 else 0)
            + (if gr.onRr && gr.disptime <= now then 1 else 0)
  {
    if g == 0 {
      assert groups[g := gr][1..] == groups[1..];
    } else {
      assert groups[g := gr][1..] == groups[1..][g - 1 := gr];
      DueSet(groups[1..], g - 1, gr, now);
    }
  }
}
