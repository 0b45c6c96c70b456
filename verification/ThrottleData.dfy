/**
  throtl_data of block/blk-throttle.c as it is updated in place, with its
  dispatch and drain loops.
*/
module ThrottleData {
  import opened Lists
  import R = ThrottleRate
  import opened ThrottleQueue
  import opened ThrottleRuns

  class Throttle {
    const clock: R.Clock
    var groups: seq<Group>
    var tree: seq<nat>
    var left: Option<nat>
    var count: int
    var nrRead: int
    var nrWrite: int
    var now: nat
    var arrived: seq<Entry>
    var out: seq<Entry>
    var bug: bool

    /** Idle groups with limits, and an empty tree. */
    constructor (clock: R.Clock, groups: seq<Group>)
      requires clock.Valid()
      requires forall g: nat :: g < |groups| ==> LaneOk(groups[g].rd, false) && LaneOk(groups[g].wr, true)
      requires forall g: nat :: g < |groups| ==> !groups[g].Busy() && !groups[g].onRr
      ensures Valid({}) && this.clock == clock && this.groups == groups && arrived == out == []
    {
      this.clock, this.groups, tree, left, count := clock, groups, [], None, 0;
      nrRead, nrWrite, now, arrived, out, bug := 0, 0, 0, [], [], false;
      new;
      QueuedZero(groups, false);
      QueuedZero(groups, true);
      hide Queued, LaneOk;
    }

    function St(): State reads this {
      State(groups, tree, left, count, nrRead, nrWrite, now, arrived, out, bug)
    }

    /** The state is consistent but for the tree membership of `loose`. */
    ghost predicate Valid(loose: set<nat>) reads this { clock.Valid() && Inv(St(), loose) }

    /** Time passes. */
    method Tick(jiffies: nat)
      requires Valid({})
      modifies `now
      ensures Valid({}) && St() == old(St()).(now := old(now) + jiffies)
    {
      hide LanesOk, TreeOk, Fifo, Queued, OnIffBusy;
      now := now + jiffies;
    }

    /** throtl_enqueue_tg: a walk from the front stands for the descent of the tree. */
    method EnqueueTg(g: nat)
      requires g < |groups|
      modifies this
      ensures St() == Enqueue(old(St()), g)
    {
      if groups[g].onRr {
        return;
      }
      var i := 0;
      var key := groups[g].disptime;
      assert tree[0..] == tree;
      while i < |tree| && key >= Disptime(groups, tree[i])
        invariant i <= |tree| && Place(groups, tree, key) == i + Place(groups, tree[i..], key)
        invariant St() == old(St())
      {
        assert tree[i..][1..] == tree[i + 1..];
        i := i + 1;
      }
      hide Disptime;
      if i == 0 {
        left := Some(g);
      }
      tree := tree[..i] + [g] + tree[i..];
      groups := groups[g := groups[g].(onRr := true)];
      count := count + 1;
    }

    /** throtl_dequeue_tg. */
    method DequeueTg(g: nat)
      requires g < |groups|
      modifies this
      ensures St() == Dequeue(old(St()), g)
    {
      if groups[g].onRr {
        if left == Some(g) {
          left := None;
        }
        tree := Remove(tree, g);
        count := count - 1;
        groups := groups[g := groups[g].(onRr := false)];
      }
    }

    /** throtl_rb_first: the group due first. */
    method RbFirst() returns (g: Option<nat>)
      requires Valid({})
      modifies `left
      ensures Valid({}) && St() == old(St()).(left := left)
      ensures St() == Peeked(old(St())) && g == (if tree == [] then None else Some(tree[0]))
      ensures g.Some? ==> g.value < |groups| && groups[g.value].onRr && groups[g.value].Busy()
    {
      PeekedOk(St());
      hide LanesOk, Fifo, InOrder, Distinct, Queued;
      if count == 0 {
        return None;
      }
      if left.None? {
        left := Some(tree[0]);
      }
      g := left;
      assert tree[0] in tree;
    }

    /** tg_may_dispatch for the head of a list; the slice is renewed or extended. */
    method MayDispatch(g: nat, write: bool) returns (ok: bool, wait: nat)
      requires Ready(clock, St(), g) && groups[g].Of(write).list != []
      modifies `groups
      ensures St() == Look(clock, old(St()), g, write) && Ready(clock, St(), g)
      ensures ok == HeadOf(clock, old(St()), g, write).0 && wait == HeadOf(clock, old(St()), g, write).1
    {
      Positive(St(), g, write, {g});
      LookReady(clock, St(), g, write);
      hide Inv, Head;
      var lane := groups[g].Of(write);
      var rate;
      ok, wait, rate := Head(clock, lane, now).0, Head(clock, lane, now).1, Head(clock, lane, now).2;
      groups := groups[g := groups[g].With(write, lane.(rate := rate))];
    }

    /** tg_dispatch_one_bio: exactly the head of one list goes out. */
    method DispatchOneBio(g: nat, write: bool)
      requires Ready(clock, St(), g) && groups[g].Of(write).list != []
      modifies this
      ensures St() == DispatchOne(clock, old(St()), g, write) && Ready(clock, St(), g)
      ensures Aside(old(St()), St(), g) && groups[g].Of(!write) == old(groups[g].Of(!write))
      ensures groups[g].Of(write).list == old(groups[g].Of(write).list)[1..]
      ensures out == old(out) + [Entry(g, old(groups[g].Of(write).list[0]))]
    {
      DispatchOneKeeps(clock, St(), g, write);
      OneGoes(clock, St(), g, write);
      hide Inv, R.TrimSlice, R.Charge;
      var lane := groups[g].Of(write);
      var bio := lane.list[0];
      bug := bug || (if write then nrWrite else nrRead) <= 0;
      var rate := R.TrimSlice(clock, R.Charge(lane.rate, bio.size), now);
      groups := groups[g := groups[g].With(write, Lane(lane.list[1..], lane.nr - 1, rate))];
      if write { nrWrite := nrWrite - 1; } else { nrRead := nrRead - 1; }
      out := out + [Entry(g, bio)];
      assert St() == DispatchOne(clock, old(St()), g, write);
      hide DispatchOne;
    }

    /** One of the loops of throtl_dispatch_tg: the first n bios of a list go out, n at most `max`. */
    method DispatchLane(g: nat, write: bool, max: nat) returns (n: nat)
      requires Ready(clock, St(), g) && max > 0
      modifies this
      ensures (St(), n) == DispatchList(clock, old(St()), g, write, max)
      ensures Ready(clock, St(), g) && Aside(old(St()), St(), g) && n <= max && n <= |old(groups[g].Of(write).list)|
      ensures out == old(out) + Entries(g, old(groups[g].Of(write).list)[..n])
      ensures groups[g].Of(write).list == old(groups[g].Of(write).list)[n..]
      ensures n < max ==> Waits(clock, St(), g, write)
    {
      hide Inv, Look, HeadOf, DispatchOne, DispatchList, Aside, Entries, Waits;
      ListGoes(clock, St(), g, write, max);
      ghost var all := DispatchList(clock, St(), g, write, max);
      n := 0;
      while n < max && groups[g].Of(write).list != []
        invariant n <= max && Ready(clock, St(), g)
        invariant all.0 == DispatchList(clock, St(), g, write, max - n).0
        invariant all.1 == n + DispatchList(clock, St(), g, write, max - n).1
        decreases max - n
      {
        ListStep(clock, St(), g, write, max - n);
        var ok, _ := MayDispatch(g, write);
        if !ok {
          return;
        }
        DispatchOneBio(g, write);
        n := n + 1;
      }
      ListStep(clock, St(), g, write, max - n);
    }

    /**
      throtl_dispatch_tg: the first r <= 6 reads and the first w <= 2 writes go out, in order, n == r + w
      of them; the new head of a list that could have given more has to wait.
    */
    method DispatchGroup(g: nat) returns (n: nat)
      requires Ready(clock, St(), g)
      modifies this
      ensures (St(), n) == DispatchTg(clock, old(St()), g) && Ready(clock, St(), g) && Aside(old(St()), St(), g)
      ensures |out| == |old(out)| + n
      ensures var (rd, wr) := (old(groups[g].rd.list), old(groups[g].wr.list));
              var (r, w) := (|rd| - |groups[g].rd.list|, |wr| - |groups[g].wr.list|);
              && 0 <= r <= 6 && 0 <= w <= 2 && n == r + w
              && groups[g].rd.list == rd[r..] && groups[g].wr.list == wr[w..]
              && out == old(out) + Entries(g, rd[..r]) + Entries(g, wr[..w])
              && (r < 6 ==> Waits(clock, St(), g, false)) && (w < 2 ==> Waits(clock, St(), g, true))
    {
      hide Inv, DispatchList, Entries, Waits;
      TgGoes(clock, St(), g);
      var r := DispatchLane(g, false, MAX_READS);
      var w := DispatchLane(g, true, MAX_WRITES);
      n := r + w;
      assert (St(), n) == DispatchTg(clock, old(St()), g);
      hide DispatchTg, Aside;
    }

    /** The shorter wait of the two heads. */
    method FindWait(g: nat) returns (wait: nat)
      requires Ready(clock, St(), g) && groups[g].Busy()
      modifies `groups
      ensures wait == MinWait(clock, old(St()), g)
      ensures St() == LookBoth(clock, old(St()), g) && Ready(clock, St(), g)
      ensures groups[g].Busy() && |groups| == |old(groups)|
    {
      ghost var s := St();
      LookIfGoes(clock, s, g, false);
      LookIfGoes(clock, LookIf(clock, s, g, false), g, true);
      if s.groups[g].wr.list != [] { HeadSame(clock, s, LookIf(clock, s, g, false), g, true); }
      hide Inv, HeadOf, Look;
      if groups[g].rd.list != [] {
        var _, w := MayDispatch(g, false);
        wait := w;
      }
      if groups[g].wr.list != [] {
        var _, w := MayDispatch(g, true);
        if groups[g].rd.list == [] || w < wait {
          wait := w;
        }
      }
    }

    /** Takes the group off the tree, if it is there, and puts it back by its new time. */
    method Requeue(g: nat, t: nat)
      requires g < |groups|
      modifies this
      ensures St() == Relink(old(St()), g, t)
    {
      hide Place, Remove;
      DequeueTg(g);
      groups := groups[g := groups[g].(disptime := t)];
      EnqueueTg(g);
    }

    /** tg_update_disptime: the group is due when the head with the shorter wait is. */
    method UpdateDispatchTime(g: nat)
      requires Ready(clock, St(), g) && groups[g].Busy()
      modifies this
      ensures St() == UpdateDisptime(clock, old(St()), g) && Valid({})
      ensures |groups| == |old(groups)| && groups == old(groups)[g := groups[g]] && groups[g].onRr
      ensures groups[g].disptime == now + MinWait(clock, old(St()), g)
      ensures out == old(out) && arrived == old(arrived) && now == old(now)
    {
      hide Inv, HeadOf, LookBoth, Relink, MinWait, Waits;
      UpdateGoes(clock, St(), g);
      var wait := FindWait(g);
      Requeue(g, now + wait);
    }

    /** One round of throtl_select_dispatch, for a group that is due. */
    method DispatchFirst(g: nat) returns (k: nat)
      requires Valid({}) && g < |groups| && groups[g].onRr && groups[g].disptime <= now
      modifies this
      ensures (St(), k) == Round(clock, old(St()), g)
      ensures Valid({}) && |out| == |old(out)| + k
    {
      RoundGoes(clock, St(), g);
      Looser(St(), g);
      DequeueKeeps(St(), g);
      hide Inv, Dequeue, DispatchTg, UpdateDisptime, Due, Entries, Waits, Aside;
      DequeueTg(g);
      k := DispatchGroup(g);
      if groups[g].Busy() {
        UpdateDispatchTime(g);
      }
    }

    /**
      throtl_select_dispatch: ends, having let n bios through; n is at least 32, or no group with bios
      queued is due.
    */
    method SelectDispatch() returns (n: nat)
      requires Valid({})
      modifies this
      ensures (St(), n) == Select(clock, old(St()), 0)
      ensures Valid({}) && arrived == old(arrived) && |groups| == |old(groups)| && now == old(now)
      ensures old(out) <= out && |out| == |old(out)| + n && n < 40
      ensures n >= 32 || forall g: nat :: g < |groups| && groups[g].Busy() ==> groups[g].disptime > now
    {
      hide Inv, Round, Due, Peeked, Select;
      SelectGoes(clock, St(), 0);
      ghost var all := Select(clock, St(), 0);
      n := 0;
      while n < QUANTUM
        invariant Valid({}) && all == Select(clock, St(), n)
        decreases QUANTUM - n, Due(groups, now)
      {
        SelectStep(clock, St(), n);
        var first := RbFirst();
        if first.None? || now < groups[first.value].disptime {
          return;
        }
        RoundGoes(clock, St(), first.value);
        var k := DispatchFirst(first.value);
        n := n + k;
      }
      SelectStep(clock, St(), n);
    }

    /** blk_throtl_drain: ends with nothing queued, every bio out, each group's in the order they came. */
    method Drain()
      requires Valid({})
      modifies this
      ensures Valid({}) && arrived == old(arrived) && |groups| == old(|groups|)
      ensures tree == [] && count == 0 && nrRead == 0 && nrWrite == 0
      ensures forall g: nat, w: bool :: g < |groups| ==> groups[g].Of(w).list == [] && Only(out, g, w) == Only(arrived, g, w)
    {
      var first := RbFirst();
      while first.Some?
        invariant Valid({}) && arrived == old(arrived) && |groups| == old(|groups|)
        invariant first == if tree == [] then None else Some(tree[0])
        invariant first.Some? ==> first.value < |groups| && groups[first.value].onRr
        decreases |tree|
      {
        DrainGroup(first.value);
        first := RbFirst();
      }
      Empty(St());
    }

    method DrainGroup(g: nat)
      requires Valid({}) && g < |groups| && groups[g].onRr
      modifies this
      ensures Valid({}) && arrived == old(arrived) && |groups| == old(|groups|) && |tree| < old(|tree|)
    {
      Looser(St(), g);
      CountIs(St(), {g});
      hide Inv, Place, Remove;
      DequeueKeeps(St(), g);
      DequeueTg(g);
      CountIs(St(), {g});
      DrainLane(g, false);
      DrainLane(g, true);
      Tighter(St(), g);
    }

    method DrainLane(g: nat, write: bool)
      requires Ready(clock, St(), g)
      modifies this
      ensures Ready(clock, St(), g) && Aside(old(St()), St(), g)
      ensures groups[g].Of(write).list == [] && groups[g].Of(!write) == old(groups[g].Of(!write))
    {
      hide Inv, R.TrimSlice;
      while groups[g].Of(write).list != []
        invariant Ready(clock, St(), g) && Aside(old(St()), St(), g)
        invariant groups[g].Of(!write) == old(groups[g].Of(!write))
        decreases |groups[g].Of(write).list|
      {
        DispatchOneBio(g, write);
      }
    }

    /**
      blk_throtl_bio for a group with limits: a bio is throttled exactly when one of its group and direction
      waits already or the limits refuse it, and goes out at once otherwise.
    */
    method ThrotlBio(g: nat, bio: Bio) returns (throttled: bool)
      requires Valid({}) && g < |groups|
      modifies this
      ensures (St(), throttled) == Submit(clock, old(St()), g, bio) && Valid({})
      ensures throttled <==> old(groups[g].Of(bio.write).list) != [] || !Offered(clock, old(St()), g, bio).0
      ensures |groups| == |old(groups)| && arrived == old(arrived) + [Entry(g, bio)]
      ensures out == if throttled then old(out) else old(out) + [Entry(g, bio)]
    {
      SubmitGoes(clock, St(), g, bio);
      Positive(St(), g, bio.write, {});
      hide Inv, Head, Enqueue, UpdateDisptime, AddBio, Pass;
      ghost var s := St();
      var lane := groups[g].Of(bio.write);
      if lane.nr != 0 {
        Enlist(g, bio);
        return true;
      }
      var (ok, _, rate) := Head(clock, lane.(list := [bio]), now);
      assert Offered(clock, s, g, bio) == Head(clock, lane.(list := [bio]), now);
      throttled := !ok;
      if ok {
        LetPass(g, bio, rate);
      } else {
        Refuse(g, bio, rate);
      }
    }

    /** A bio its slice lets through at once: charged, and the slice trimmed. */
    method LetPass(g: nat, bio: Bio, rate: R.Dir)
      requires Valid({}) && g < |groups| && groups[g].Of(bio.write).list == []
      requires Offered(clock, St(), g, bio).0 && rate == Offered(clock, St(), g, bio).2
      modifies this
      ensures (St(), false) == Submit(clock, old(St()), g, bio) && Valid({})
    {
      SubmitGoes(clock, St(), g, bio);
      hide Inv, Offered, R.TrimSlice, R.Charge;
      var lane := groups[g].Of(bio.write);
      groups := groups[g := groups[g].With(bio.write, lane.(rate := R.TrimSlice(clock, R.Charge(rate, bio.size), now)))];
      arrived, out := arrived + [Entry(g, bio)], out + [Entry(g, bio)];
    }

    /** A bio its slice refuses, and the slice as the refusal leaves it. */
    method Refuse(g: nat, bio: Bio, rate: R.Dir)
      requires Valid({}) && g < |groups| && groups[g].Of(bio.write).list == []
      requires !Offered(clock, St(), g, bio).0 && rate == Offered(clock, St(), g, bio).2
      modifies this
      ensures (St(), true) == Submit(clock, old(St()), g, bio) && Valid({})
    {
      hide Inv, Offered, Enqueue, UpdateDisptime, AddBio;
      ghost var s := St();
      groups := groups[g := groups[g].With(bio.write, groups[g].Of(bio.write).(rate := rate))];
      assert St() == SetRateOf(clock, s, g, bio);
      Hold(g, bio);
    }

    /** The first bio of a direction to be held back. */
    method Hold(g: nat, bio: Bio)
      requires Valid({}) && g < |groups|
      modifies this
      ensures Ready(clock, Enqueue(AddBio(old(St()), g, bio), g), g) && Enqueue(AddBio(old(St()), g, bio), g).groups[g].Busy()
      ensures St() == UpdateDisptime(clock, Enqueue(AddBio(old(St()), g, bio), g), g) && Valid({})
    {
      hide Inv, Enqueue, UpdateDisptime;
      Enlist(g, bio);
      Looser(St(), g);
      UpdateDispatchTime(g);
    }

    /** throtl_add_bio_tg. */
    method Enlist(g: nat, bio: Bio)
      requires Valid({}) && g < |groups|
      modifies this
      ensures St() == Enqueue(AddBio(old(St()), g, bio), g) && Valid({})
      ensures |groups| == |old(groups)| && groups[g].Busy()
    {
      hide Inv, Enqueue;
      EnlistGoes(St(), g, bio);
      var lane := groups[g].Of(bio.write);
      groups := groups[g := groups[g].With(bio.write, lane.(list := lane.list + [bio], nr := lane.nr + 1))];
      if bio.write { nrWrite := nrWrite + 1; } else { nrRead := nrRead + 1; }
      arrived := arrived + [Entry(g, bio)];
      EnqueueTg(g);
    }

    /**
      throtl_schedule_next_dispatch: the delay is exactly the time to the earliest group that has bios
      queued, none if there is no such group; the BUG_ON cannot fire.
    */
    method NextDispatch() returns (delay: Option<nat>, broken: bool)
      requires Valid({})
      modifies `left
      ensures Valid({}) && St() == old(St()).(left := left) && !broken
      ensures delay.None? <==> forall g: nat :: g < |groups| ==> !groups[g].Busy()
      ensures delay.Some? ==>
                && tree != [] && tree[0] < |groups| && groups[tree[0]].Busy()
                && (forall g: nat :: g < |groups| && groups[g].Busy() ==> groups[tree[0]].disptime <= groups[g].disptime)
                && delay.value == if groups[tree[0]].disptime <= now then 0 else groups[tree[0]].disptime - now
    {
      broken := false;
      NothingQueued(St());
      if nrRead + nrWrite == 0 {
        return None, false;
      }
      FirstEarliest(St());
      CountIs(St(), {});
      hide Inv;
      if count == 0 {
        broken := true;
      }
      var first := RbFirst();
      var t := if first.Some? then groups[first.value].disptime else 0;
      delay := Some(if t <= now then 0 else t - now);
    }
  }
}
