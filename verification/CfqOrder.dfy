/**
  The order of the CFQ group service tree (block/cfq-iosched.c) across 64-bit
  wrap-around: the tree is compared with the vdisktimes as they would be in
  unbounded integers.
*/
module CfqOrder {
  import opened Lists
  import opened CfqGroups

  // ------------------------------------------- times as they are, unwrapped

  /** v and m are the times of which the state holds the low 64 bits. */
  ghost predicate Tells(s: State, v: map<nat, int>, m: int) {
    && s.minVdisktime == m % U64
    && (forall g :: g in s.tree ==> g in v && g in s.groups && s.groups[g].vdisktime == v[g] % U64)
  }

  ghost predicate Ordered(tree: seq<nat>, v: map<nat, int>) {
    && (forall i :: 0 <= i < |tree| ==> tree[i] in v)
    && (forall i, j :: 0 <= i < j < |tree| ==> v[tree[i]] <= v[tree[j]])
  }

  /** No group on the tree is behind min_vdisktime. */
  ghost predicate Above(tree: seq<nat>, v: map<nat, int>, m: int) {
    forall g :: g in tree ==> g in v && m <= v[g]
  }

  /** Keys are compared as signed 64-bit differences, so times must stay this close. */
  ghost predicate Close(tree: seq<nat>, v: map<nat, int>, m: int) {
    forall g :: g in tree ==> g in v && v[g] - m < S64_MAX
  }

  ghost predicate Timed(s: State, v: map<nat, int>, m: int) {
    Inv(s) && Tells(s, v, m) && Ordered(s.tree, v) && Above(s.tree, v, m)
  }

  lemma ModShift(x: int, q: int)
    ensures (x + q * U64) % U64 == x % U64
  {
    assert x + q * U64 == x % U64 + (x / U64 + q) * U64;
  }

  lemma ModDiff(a: int, b: int)
    ensures (a % U64 - b % U64) % U64 == (a - b) % U64
  {
    var q := a / U64 - b / U64;
    assert a - b == (a % U64 - b % U64) + q * U64;
    ModShift(a % U64 - b % U64, q);
  }

  lemma ModAdd(a: int, c: nat)
    ensures (a % U64 + c) % U64 == (a + c) % U64
  {
    assert a + c == (a % U64 + c) + (a / U64) * U64;
    ModShift(a % U64 + c, a / U64);
  }

  /** The wrapped key is the true distance below 2^63, and negative from there to 2^64. */
  lemma DiffIs(a: int, b: int)
    requires 0 <= a - b < U64
    ensures Diff(a % U64, b % U64) == if a - b < S64_MAX then a - b else a - b - U64
  {
    ModDiff(a, b);
  }

  lemma KeyIs(s: State, v: map<nat, int>, m: int, g: nat)
    requires g in s.groups && g in v && s.groups[g].vdisktime == v[g] % U64 && s.minVdisktime == m % U64
    requires 0 <= v[g] - m < S64_MAX
    ensures Key(s, g) == v[g] - m
  {
    DiffIs(v[g], m);
  }

  // ------------------------------------------------------------ linking in

  lemma {:induction false} PlaceSplits(s: State, tree: seq<nat>, v: map<nat, int>, m: int, x: int)
    requires Ordered(tree, v) && forall g :: g in tree ==> Key(s, g) == v[g] - m
    ensures var k := Place(s, tree, x);
            && (forall i :: 0 <= i < k ==> v[tree[i]] - m <= x)
            && (forall i :: k <= i < |tree| ==> x < v[tree[i]] - m)
  {
    hide Key;
    if tree != [] {
      assert tree[0] in tree;
      var r := tree[1..];
      if x >= Key(s, tree[0]) {
        PlaceSplits(s, r, v, m, x);
        forall i | 0 <= i < |tree|
          ensures i < 1 + Place(s, r, x) ==> v[tree[i]] - m <= x
          ensures i >= 1 + Place(s, r, x) ==> x < v[tree[i]] - m
        {
          if i > 0 { assert tree[i] == r[i - 1]; }
        }
      }
    }
  }

  lemma InsertAt(tree: seq<nat>, v: map<nat, int>, g: nat, i: nat)
    requires Ordered(tree, v) && g in v && i <= |tree|
    requires forall j :: 0 <= j < i ==> v[tree[j]] <= v[g]
    requires forall j :: i <= j < |tree| ==> v[g] <= v[tree[j]]
    ensures Ordered(tree[..i] + [g] + tree[i..], v)
  {
    var r := tree[..i] + [g] + tree[i..];
    forall a | 0 <= a < |r| ensures r[a] in v {
      assert r[a] == if a < i then tree[a] else if a == i then g else tree[a - 1];
    }
    forall a, b | 0 <= a < b < |r| ensures v[r[a]] <= v[r[b]] {
      assert r[a] == if a < i then tree[a] else if a == i then g else tree[a - 1];
      assert r[b] == if b < i then tree[b] else if b == i then g else tree[b - 1];
    }
  }

  /** All the tree is ready for g to be linked in: it is in order, and its times are known. */
  ghost predicate Ready(s: State, v: map<nat, int>, m: int, g: nat) {
    && Tells(s, v, m) && Ordered(s.tree, v) && Above(s.tree, v, m) && Close(s.tree, v, m)
    && g in s.groups && g in v && s.groups[g].vdisktime == v[g] % U64 && m <= v[g]
  }

  lemma ReadyKeys(s: State, v: map<nat, int>, m: int, g: nat)
    requires Ready(s, v, m, g)
    ensures forall h :: h in s.tree ==> Key(s, h) == v[h] - m
  {
    forall h | h in s.tree ensures Key(s, h) == v[h] - m { KeyIs(s, v, m, h); }
  }

  lemma AddOrdered(s: State, v: map<nat, int>, m: int, g: nat)
    requires Ready(s, v, m, g) && v[g] - m < S64_MAX
    ensures Ordered(TreeAdd(s, g).tree, v)
  {
    ReadyKeys(s, v, m, g);
    KeyIs(s, v, m, g);
    hide Key, Place, Ordered, Tells, Above, Close;
    PlaceSplits(s, s.tree, v, m, v[g] - m);
    InsertAt(s.tree, v, g, Place(s, s.tree, Key(s, g)));
  }

  /** A group less than 2^64 ahead is linked in order if and only if it is less than 2^63 ahead or alone. */
  lemma LinkedInOrder(s: State, v: map<nat, int>, m: int, g: nat)
    requires Ready(s, v, m, g) && v[g] - m < U64
    ensures Ordered(TreeAdd(s, g).tree, v) <==> v[g] - m < S64_MAX || s.tree == []
  {
    if v[g] - m < S64_MAX {
      AddOrdered(s, v, m, g);
    } else {
      ReadyKeys(s, v, m, g);
      DiffIs(v[g], m);
      var t := TreeAdd(s, g).tree;
      if s.tree != [] {
        assert s.tree[0] in s.tree;
        assert Place(s, s.tree, Key(s, g)) == 0;
        assert t == [g] + s.tree && t[0] == g && t[1] == s.tree[0];
      } else {
        assert t == [g];
      }
    }
  }

  lemma AddTimes(s: State, v: map<nat, int>, m: int, g: nat)
    requires Ready(s, v, m, g) && v[g] - m < S64_MAX
    ensures var s' := TreeAdd(s, g);
            Tells(s', v, m) && Ordered(s'.tree, v) && Above(s'.tree, v, m)
    ensures forall h :: h in TreeAdd(s, g).tree <==> h in s.tree || h == g
  {
    AddOrdered(s, v, m, g);
    hide Key, Ordered;
    var i := Place(s, s.tree, Key(s, g));
    hide Place;
    InsertMembers(s.tree, g, i);
  }

  // ------------------------------------------------------------ each action

  /** Times after group g is charged c. */
  function Charge(v: map<nat, int>, g: nat, c: nat): map<nat, int> {
    if g in v then v[g := v[g] + c] else v
  }

  /** The time a group joins the tree at. */
  function Joining(tree: seq<nat>, v: map<nat, int>, m: int): int {
    if tree == [] || tree[|tree| - 1] !in v then m else v[tree[|tree| - 1]] + IDLE_DELAY
  }

  function Times(s: State, v: map<nat, int>, m: int, a: Action): map<nat, int>
    requires Enabled(s, a)
  {
    match a
    case AddQueue(g) => if g in s.tree then v else v[g := Joining(s.tree, v, m)]
    case Serve(g, charge) => Charge(v, g, Scale(charge, s.groups[g].weight))
    case _ => v
  }

  function Floor(s: State, v: map<nat, int>, m: int, a: Action): int {
    if a.ChooseGroup? && s.tree != [] && s.tree[0] in v && v[s.tree[0]] > m then v[s.tree[0]] else m
  }

  /** The first group of an ordered tree is one that is furthest behind. */
  lemma FirstLeast(tree: seq<nat>, v: map<nat, int>)
    requires Ordered(tree, v) && tree != []
    ensures tree[0] in v && forall g :: g in tree ==> g in v && v[tree[0]] <= v[g]
  {
    forall g | g in tree ensures g in v && v[tree[0]] <= v[g] {
      var i :| 0 <= i < |tree| && tree[i] == g;
    }
  }

  /** The group picked is one that is furthest behind, and min_vdisktime becomes its time. */
  lemma ChooseLeast(s: State, v: map<nat, int>, m: int)
    requires Timed(s, v, m) && Close(s.tree, v, m) && s.tree != []
    ensures var f := s.tree[0];
            && f in v && (forall g :: g in s.tree ==> g in v && v[f] <= v[g])
            && Choose(s) == s.(left := Some(f), serving := Some(f), minVdisktime := v[f] % U64)
            && Floor(s, v, m, ChooseGroup) == v[f]
    ensures Timed(Choose(s), v, v[s.tree[0]])
  {
    var f := s.tree[0];
    assert f in s.tree;
    FirstLeast(s.tree, v);
    DiffIs(v[f], m);
    assert Inv(Choose(s)) by { NextKeeps(s, ChooseGroup); }
    hide Inv, Ordered, Diff;
  }

  /** The state just before cfq_group_notify_queue_add links the group in, at time x. */
  function Joined(s: State, g: nat, x: int): State
    requires g in s.groups
  {
    s.(groups := s.groups[g := s.groups[g].(nr := s.groups[g].nr + 1, vdisktime := x % U64)])
  }

  lemma JoinIs(s: State, v: map<nat, int>, m: int, g: nat)
    requires Tells(s, v, m) && g in s.groups && g !in s.tree
    ensures QueueAdd(s, g) == TreeAdd(Joined(s, g, Joining(s.tree, v, m)), g)
  {
    hide TreeAdd;
    if s.tree != [] {
      var last := s.tree[|s.tree| - 1];
      assert last in s.tree;
      ModAdd(v[last], IDLE_DELAY);
    }
  }

  lemma JoinAbove(tree: seq<nat>, v: map<nat, int>, m: int)
    requires Above(tree, v, m)
    ensures m <= Joining(tree, v, m)
  {
    if tree != [] { assert tree[|tree| - 1] in tree; }
  }

  lemma JoinTimes(s: State, v: map<nat, int>, m: int, g: nat)
    requires Timed(s, v, m) && Close(s.tree, v, m) && g in s.groups && g !in s.tree
    requires Joining(s.tree, v, m) - m < S64_MAX
    ensures var s' := QueueAdd(s, g);
            var v' := v[g := Joining(s.tree, v, m)];
            Tells(s', v', m) && Ordered(s'.tree, v') && Above(s'.tree, v', m)
  {
    hide Inv, Ordered, TreeAdd, QueueAdd, Joining;
    var x := Joining(s.tree, v, m);
    JoinIs(s, v, m, g);
    JoinAbove(s.tree, v, m);
    SameTimes(s.tree, v, v[g := x]);
    var s1 := Joined(s, g, x);
    assert Ready(s1, v[g := x], m, g);
    AddTimes(s1, v[g := x], m, g);
  }

  lemma JoiningPast(tree: seq<nat>, v: map<nat, int>, m: int, i: nat)
    requires Ordered(tree, v) && i < |tree|
    ensures tree[i] in v && v[tree[i]] + 200 <= Joining(tree, v, m)
  {}

  /** A group that gets its first queue joins behind all others, 200 ticks after the last of them. */
  lemma JoinsLast(s: State, v: map<nat, int>, m: int, g: nat)
    requires Timed(s, v, m) && Close(s.tree, v, m) && g in s.groups && g !in s.tree
    requires Joining(s.tree, v, m) - m < S64_MAX
    ensures var s' := QueueAdd(s, g);
            && s'.tree == s.tree + [g] && g in s'.groups
            && (s.tree == [] ==> s'.groups[g].vdisktime == s.minVdisktime)
            && (s.tree != [] ==>
                  var l := s.tree[|s.tree| - 1];
                  l in v && s'.groups[g].vdisktime == (v[l] + 200) % U64 && forall h :: h in s.tree ==> h in v && v[h] <= v[l])
  {
    hide Inv, Ordered, TreeAdd, QueueAdd, Joining;
    var x := Joining(s.tree, v, m);
    JoinIs(s, v, m, g);
    JoinAbove(s.tree, v, m);
    SameTimes(s.tree, v, v[g := x]);
    var s1 := Joined(s, g, x);
    assert Ready(s1, v[g := x], m, g);
    forall i: nat | i < |s.tree| ensures s.tree[i] in v && v[s.tree[i]] + 200 <= x { JoiningPast(s.tree, v, m, i); }
    AddedLast(s1, v[g := x], m, g);
    if s.tree != [] { LastMost(s.tree, v, m); }
    JoiningIs(s.tree, v, m);
  }

  lemma JoiningIs(tree: seq<nat>, v: map<nat, int>, m: int)
    requires tree == [] || tree[|tree| - 1] in v
    ensures Joining(tree, v, m) == if tree == [] then m else v[tree[|tree| - 1]] + 200
  {}

  lemma LastMost(tree: seq<nat>, v: map<nat, int>, m: int)
    requires Ordered(tree, v) && tree != []
    ensures var l := tree[|tree| - 1]; l in v && forall h :: h in tree ==> h in v && v[h] <= v[l]
  {
    var l := tree[|tree| - 1];
    forall h | h in tree ensures h in v && v[h] <= v[l] {
      var i :| 0 <= i < |tree| && tree[i] == h;
    }
  }

  lemma {:induction false} PlaceLast(s: State, tree: seq<nat>, x: int)
    requires forall h :: h in tree ==> Key(s, h) <= x
    ensures Place(s, tree, x) == |tree|
  {
    hide Key;
    if tree != [] {
      assert tree[0] in tree;
      PlaceLast(s, tree[1..], x);
    }
  }

  lemma AddedLast(s: State, v: map<nat, int>, m: int, g: nat)
    requires Ready(s, v, m, g) && v[g] - m < S64_MAX && forall i: nat :: i < |s.tree| ==> s.tree[i] in v && v[s.tree[i]] < v[g]
    ensures TreeAdd(s, g).tree == s.tree + [g] && g in TreeAdd(s, g).groups && TreeAdd(s, g).groups[g].vdisktime == s.groups[g].vdisktime
  {
    ReadyKeys(s, v, m, g);
    KeyIs(s, v, m, g);
    hide Key, Place, Ordered, Tells, Above, Close;
    PlaceLast(s, s.tree, Key(s, g));
  }

  lemma SameTimes(tree: seq<nat>, v: map<nat, int>, v': map<nat, int>)
    requires Ordered(tree, v) && forall g :: g in tree && g in v ==> g in v' && v'[g] == v[g]
    ensures Ordered(tree, v')
  {
    forall i | 0 <= i < |tree| ensures tree[i] in v' && v'[tree[i]] == v[tree[i]] { assert tree[i] in tree; }
  }

  /** A group leaves an ordered tree. */
  lemma RemoveOrdered(tree: seq<nat>, v: map<nat, int>, g: nat)
    requires Ordered(tree, v) && Distinct(tree) && g in tree
    ensures Ordered(Remove(tree, g), v) && forall h :: h in Remove(tree, g) <==> h in tree && h != g
  {
    hide Remove;
    var k := RemoveAt(tree, g);
    RemoveMembers(tree, k);
    var r := tree[..k] + tree[k + 1..];
    assert forall i :: 0 <= i < |r| ==> r[i] == if i < k then tree[i] else tree[i + 1];
  }

  lemma DelTimes(s: State, v: map<nat, int>, m: int, g: nat)
    requires Timed(s, v, m) && Enabled(s, DelQueue(g))
    ensures var s' := QueueDel(s, g);
            Tells(s', v, m) && Ordered(s'.tree, v) && Above(s'.tree, v, m)
  {
    assert g in s.tree;
    RemoveOrdered(s.tree, v, g);
    hide Remove, Ordered;
  }

  /** The state just before cfq_group_served links the group in again. */
  function Charged(s: State, g: nat, c: nat): State
    requires g in s.groups
  {
    var s1 := TreeDel(s, g);
    s1.(groups := s1.groups[g := s1.groups[g].(vdisktime := (s1.groups[g].vdisktime + c) % U64)])
  }

  lemma ServeTimes(s: State, v: map<nat, int>, m: int, g: nat, c: nat)
    requires Timed(s, v, m) && Close(s.tree, v, m) && g in s.tree && g in v && g in s.groups
    requires v[g] + c - m < S64_MAX
    ensures var s' := TreeAdd(Charged(s, g, c), g);
            && Tells(s', Charge(v, g, c), m) && Ordered(s'.tree, Charge(v, g, c)) && Above(s'.tree, Charge(v, g, c), m)
            && (forall h :: h in s'.tree <==> h in s.tree)
  {
    var s1, v1 := Charged(s, g, c), Charge(v, g, c);
    RemoveOrdered(s.tree, v, g);
    SameTimes(s1.tree, v, v1);
    ModAdd(v[g], c);
    hide Ordered, Remove;
    assert Ready(s1, v1, m, g);
    AddTimes(s1, v1, m, g);
    hide TreeAdd;
  }

  lemma ServedIs(s: State, g: nat, charge: nat)
    requires Enabled(s, Serve(g, charge))
    ensures Served(s, g, charge) == TreeAdd(Charged(s, g, Scale(charge, s.groups[g].weight)), g)
  {
    hide Scale, TreeAdd;
  }

  /** Every action keeps the tree in the order of the true times, if it leaves them close to min_vdisktime. */
  lemma NextTimed(s: State, v: map<nat, int>, m: int, a: Action)
    requires Timed(s, v, m) && Close(s.tree, v, m) && Enabled(s, a)
    requires Close(Next(s, a).tree, Times(s, v, m, a), Floor(s, v, m, a))
    ensures Timed(Next(s, a), Times(s, v, m, a), Floor(s, v, m, a))
  {
    NextKeeps(s, a);
    match a
    case AddQueue(g) =>
      if g !in s.tree {
        assert g in Next(s, a).tree;
        JoinTimes(s, v, m, g);
      }
    case DelQueue(g) => DelTimes(s, v, m, g);
    case ChooseGroup => if s.tree != [] { ChooseLeast(s, v, m); }
    case Serve(g, charge) =>
      assert g in Next(s, a).tree;
      ServedIs(s, g, charge);
      ServeTimes(s, v, m, g, Scale(charge, s.groups[g].weight));
    case Weigh(_, _) =>
  }

  // ------------------------------------------------------------- every run

  /** The true times stay close to min_vdisktime all along the run. */
  ghost predicate StaysClose(s: State, v: map<nat, int>, m: int, run: seq<Action>)
    requires Legal(s, run)
    decreases |run|
  {
    && Close(s.tree, v, m)
    && (run != [] ==> StaysClose(Next(s, run[0]), Times(s, v, m, run[0]), Floor(s, v, m, run[0]), run[1..]))
  }

  function TimesAfter(s: State, v: map<nat, int>, m: int, run: seq<Action>): map<nat, int>
    requires Legal(s, run)
    decreases |run|
  {
    if run == [] then v else TimesAfter(Next(s, run[0]), Times(s, v, m, run[0]), Floor(s, v, m, run[0]), run[1..])
  }

  function FloorAfter(s: State, v: map<nat, int>, m: int, run: seq<Action>): int
    requires Legal(s, run)
    decreases |run|
  {
    if run == [] then m else FloorAfter(Next(s, run[0]), Times(s, v, m, run[0]), Floor(s, v, m, run[0]), run[1..])
  }

  lemma {:induction false} RunTimed(s: State, v: map<nat, int>, m: int, run: seq<Action>)
    requires Timed(s, v, m) && Legal(s, run) && StaysClose(s, v, m, run)
    ensures Timed(After(s, run), TimesAfter(s, v, m, run), FloorAfter(s, v, m, run))
    ensures Close(After(s, run).tree, TimesAfter(s, v, m, run), FloorAfter(s, v, m, run))
    decreases |run|
  {
    hide Timed, Close, Next, Times, Floor;
    if run != [] {
      NextTimed(s, v, m, run[0]);
      RunTimed(Next(s, run[0]), Times(s, v, m, run[0]), Floor(s, v, m, run[0]), run[1..]);
    }
  }

  /**
    Groups joining, leaving, charged and reweighed in any order: while the true times stay within 2^63 of
    min_vdisktime the tree is in their order, and the group chosen next is one that is furthest behind.
  */
  lemma TreeInOrder(s: State, run: seq<Action>)
    requires Init(s) && s.minVdisktime < U64 && Legal(s, run) && StaysClose(s, map[], s.minVdisktime, run)
    ensures var (s', v) := (After(s, run), TimesAfter(s, map[], s.minVdisktime, run));
            && Ordered(s'.tree, v)
            && (s'.tree != [] ==>
                  && Choose(s').serving == Some(s'.tree[0]) && s'.tree[0] in v
                  && (forall g :: g in s'.tree ==> g in v && v[s'.tree[0]] <= v[g]))
  {
    RunTimed(s, map[], s.minVdisktime, run);
    var s', v, m := After(s, run), TimesAfter(s, map[], s.minVdisktime, run), FloorAfter(s, map[], s.minVdisktime, run);
    hide After, TimesAfter, FloorAfter, StaysClose, Legal;
    if s'.tree != [] { ChooseLeast(s', v, m); }
  }
}
