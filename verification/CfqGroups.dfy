/**
  The group service tree of the CFQ scheduler (block/cfq-iosched.c): groups
  ordered by virtual disk time, charged by weight for the service they get.
*/
module CfqGroups {
  import opened Lists

  const U64: nat := 0x1_0000_0000_0000_0000
  const S64_MAX: nat := 0x8000_0000_0000_0000
  const WEIGHT_DEFAULT: nat := 500

  /** vdisktime, weight, new_weight (0 when none is pending) and nr_cfqq. */
  datatype Group = Group(vdisktime: nat, weight: nat, newWeight: nat, nr: nat)

  /** grp_service_tree in key order, with its cached first node, and the group being served. */
  datatype State = State(
    groups: map<nat, Group>, tree: seq<nat>, left: Option<nat>, minVdisktime: nat, totalWeight: int,
    serving: Option<nat>, bug: bool)

  /** cfq_scale_slice. */
  function Scale(charge: nat, weight: nat): nat
    requires weight > 0
  {
    charge * 4096 * WEIGHT_DEFAULT % U64 / weight
  }

  /** The difference of two 64-bit times, read as a signed number. */
  function Diff(v: nat, m: nat): int {
    var d := (v - m) % U64;
    if d < S64_MAX then d else d - U64
  }

  /** cfqg_key. */
  function Key(s: State, g: nat): int {
    if g in s.groups then Diff(s.groups[g].vdisktime, s.minVdisktime) else 0
  }

  /** Where a group with key k goes: behind every group with a key no larger. */
  function Place(s: State, tree: seq<nat>, k: int): (i: nat)
    ensures i <= |tree|
  {
    if tree == [] || k < Key(s, tree[0]) then 0 else 1 + Place(s, tree[1..], k)
  }

  /** cfq_group_service_tree_add, with cfq_update_group_weight. */
  function TreeAdd(s: State, g: nat): State
    requires g in s.groups
  {
    var gr := s.groups[g];
    var w := if gr.newWeight != 0 then gr.newWeight else gr.weight;
    var i := Place(s, s.tree, Key(s, g));
    s.(groups := s.groups[g := gr.(weight := w, newWeight := 0)],
       tree := s.tree[..i] + [g] + s.tree[i..],
       left := if i == 0 then Some(g) else s.left,
       totalWeight := s.totalWeight + w,
       bug := s.bug || g in s.tree)
  }

  /** cfq_group_service_tree_del. */
  function TreeDel(s: State, g: nat): State
    requires g in s.groups
  {
    s.(tree := Remove(s.tree, g),
       left := if s.left == Some(g) then None else s.left,
       totalWeight := s.totalWeight - s.groups[g].weight)
  }

  /** CFQ_IDLE_DELAY, HZ / 5, in ticks of HZ = 1000. */
  const IDLE_DELAY: nat := 200

  /** cfq_group_notify_queue_add: a group with its first queue joins behind the last. */
  function QueueAdd(s: State, g: nat): State
    requires g in s.groups
  {
    var gr := s.groups[g].(nr := s.groups[g].nr + 1);
    if g in s.tree then s.(groups := s.groups[g := gr])
    else
      var v := if s.tree == [] || s.tree[|s.tree| - 1] !in s.groups then s.minVdisktime
               else (s.groups[s.tree[|s.tree| - 1]].vdisktime + IDLE_DELAY) % U64;
      TreeAdd(s.(groups := s.groups[g := gr.(vdisktime := v)]), g)
  }

  /** cfq_group_notify_queue_del. */
  function QueueDel(s: State, g: nat): State
    requires g in s.groups
  {
    if s.groups[g].nr < 1 then s.(bug := true)
    else
      var s1 := s.(groups := s.groups[g := s.groups[g].(nr := s.groups[g].nr - 1)]);
      if s1.groups[g].nr > 0 then s1 else TreeDel(s1, g)
  }

  /** cfq_choose_cfqg: the first group, found through the cache, and update_min_vdisktime. */
  function Choose(s: State): State {
    if s.tree == [] then s.(serving := None)
    else
      var first := if s.left.Some? then s.left.value else s.tree[0];
      s.(left := Some(first), serving := Some(first),
         minVdisktime := if first in s.groups && Diff(s.groups[first].vdisktime, s.minVdisktime) > 0
                         then s.groups[first].vdisktime else s.minVdisktime)
  }

  /** cfq_group_served: the charge is scaled by the weight the group had while it was served. */
  function Served(s: State, g: nat, charge: nat): State
    requires g in s.groups && s.groups[g].weight > 0
  {
    var s1 := TreeDel(s, g);
    var gr := s1.groups[g];
    TreeAdd(s1.(groups := s1.groups[g := gr.(vdisktime := (gr.vdisktime + Scale(charge, gr.weight)) % U64)]), g)
  }

  /** A new weight, taken over when the group is next put on the tree. */
  function SetWeight(s: State, g: nat, weight: nat): State
    requires g in s.groups
  {
    s.(groups := s.groups[g := s.groups[g].(newWeight := weight)])
  }

  // ------------------------------------------------------------ any operation

  datatype Action =
    | AddQueue(g: nat)
    | DelQueue(g: nat)
    | ChooseGroup
    | Serve(g: nat, charge: nat)
    | Weigh(g: nat, weight: nat)

  predicate Enabled(s: State, a: Action) {
    match a
    case AddQueue(g) => g in s.groups
    case DelQueue(g) => g in s.groups && s.groups[g].nr > 0
    case ChooseGroup => true
    case Serve(g, _) => g in s.tree && g in s.groups && s.groups[g].weight > 0
    case Weigh(g, weight) => g in s.groups && weight > 0
  }

  function Next(s: State, a: Action): State
    requires Enabled(s, a)
  {
    match a
    case AddQueue(g) => QueueAdd(s, g)
    case DelQueue(g) => QueueDel(s, g)
    case ChooseGroup => Choose(s)
    case Serve(g, charge) => Served(s, g, charge)
    case Weigh(g, weight) => SetWeight(s, g, weight)
  }

  predicate Legal(s: State, run: seq<Action>)
    decreases |run|
  {
    run == [] || (Enabled(s, run[0]) && Legal(Next(s, run[0]), run[1..]))
  }

  function After(s: State, run: seq<Action>): State
    requires Legal(s, run)
    decreases |run|
  {
    if run == [] then s else After(Next(s, run[0]), run[1..])
  }

  // ------------------------------------------------- the tree, after every run

  function WeightOf(groups: map<nat, Group>, g: nat): nat { if g in groups then groups[g].weight else 0 }

  function Weights(groups: map<nat, Group>, t: seq<nat>): nat {
    if t == [] then 0 else WeightOf(groups, t[0]) + Weights(groups, t[1..])
  }

  /** On the tree exactly the groups with queues; the cache empty or the first; the weights added up. */
  ghost predicate TreeOk(groups: map<nat, Group>, tree: seq<nat>, left: Option<nat>, total: int) {
    && Distinct(tree)
    && (forall g :: g in tree <==> g in groups && groups[g].nr > 0)
    && (forall g :: g in groups ==> groups[g].weight > 0)
    && (left.Some? ==> tree != [] && left.value == tree[0])
    && total == Weights(groups, tree)
  }

  ghost predicate Inv(s: State) {
    TreeOk(s.groups, s.tree, s.left, s.totalWeight) && !s.bug
  }

  lemma {:induction false} WeightsSplit(groups: map<nat, Group>, a: seq<nat>, b: seq<nat>)
    ensures Weights(groups, a + b) == Weights(groups, a) + Weights(groups, b)
  {
    if a == [] {
      assert a + b == b;
    } else {
      assert (a + b)[1..] == a[1..] + b;
      WeightsSplit(groups, a[1..], b);
    }
  }

  lemma {:induction false} WeightsSame(groups: map<nat, Group>, groups': map<nat, Group>, t: seq<nat>)
    requires forall g :: g in t ==> WeightOf(groups', g) == WeightOf(groups, g)
    ensures Weights(groups', t) == Weights(groups, t)
  {
    if t != [] { WeightsSame(groups, groups', t[1..]); }
  }

  lemma WeightsOne(groups: map<nat, Group>, g: nat)
    ensures Weights(groups, [g]) == WeightOf(groups, g)
  {
    assert [g][1..] == [];
  }

  lemma RemoveWeights(groups: map<nat, Group>, t: seq<nat>, k: nat)
    requires k < |t|
    ensures Weights(groups, t[..k] + t[k + 1..]) == Weights(groups, t) - WeightOf(groups, t[k])
  {
    hide Weights, WeightOf;
    var a, b := t[..k], t[k + 1..];
    assert t == a + [t[k]] + b;
    WeightsSplit(groups, a + [t[k]], b);
    WeightsSplit(groups, a, [t[k]]);
    WeightsSplit(groups, a, b);
    WeightsOne(groups, t[k]);
  }

  lemma RemoveKeeps(groups: map<nat, Group>, t: seq<nat>, g: nat)
    requires g in t && Distinct(t)
    ensures var r := Remove(t, g);
            && Distinct(r) && (forall h :: h in r <==> h in t && h != g)
            && Weights(groups, r) == Weights(groups, t) - WeightOf(groups, g)
            && (t[0] != g ==> r != [] && r[0] == t[0])
  {
    hide Weights, Remove, Distinct;
    var k := RemoveAt(t, g);
    RemoveMembers(t, k);
    RemoveWeights(groups, t, k);
  }

  lemma InsertKeeps(groups: map<nat, Group>, t: seq<nat>, i: nat, g: nat)
    requires g !in t && Distinct(t) && i <= |t|
    ensures var r := t[..i] + [g] + t[i..];
            && Distinct(r) && (forall h :: h in r <==> h in t || h == g)
            && Weights(groups, r) == Weights(groups, t) + WeightOf(groups, g)
            && r[0] == if i == 0 then g else t[0]
  {
    hide Weights, WeightOf, Distinct;
    assert t == t[..i] + t[i..];
    WeightsSplit(groups, t[..i] + [g], t[i..]);
    WeightsSplit(groups, t[..i], [g]);
    WeightsSplit(groups, t[..i], t[i..]);
    WeightsOne(groups, g);
    InsertDistinct(t, g, i);
    InsertMembers(t, g, i);
  }

  /** Linking in a group whose queue count is already positive. */
  lemma TreeAddKeeps(s: State, g: nat)
    requires g in s.groups && g !in s.tree && s.groups[g].nr > 0
    requires Distinct(s.tree) && forall h :: h in s.tree <==> h in s.groups && s.groups[h].nr > 0 && h != g
    requires forall h :: h in s.groups ==> s.groups[h].weight > 0
    requires s.left.Some? ==> s.tree != [] && s.left.value == s.tree[0]
    requires s.totalWeight == Weights(s.groups, s.tree)
    ensures var s' := TreeAdd(s, g);
            TreeOk(s'.groups, s'.tree, s'.left, s'.totalWeight) && s'.bug == s.bug && g in s'.tree
  {
    hide Key, Weights, Distinct;
    var s' := TreeAdd(s, g);
    var i := Place(s, s.tree, Key(s, g));
    hide Place;
    InsertKeeps(s'.groups, s.tree, i, g);
    WeightsSame(s.groups, s'.groups, s.tree);
  }

  lemma TreeDelKeeps(s: State, g: nat)
    requires TreeOk(s.groups, s.tree, s.left, s.totalWeight) && g in s.tree
    ensures var s' := TreeDel(s, g);
            && Distinct(s'.tree) && (forall h :: h in s'.tree <==> h in s.tree && h != g)
            && (s'.left.Some? ==> s'.tree != [] && s'.left.value == s'.tree[0])
            && s'.totalWeight == Weights(s'.groups, s'.tree)
  {
    hide Weights;
    RemoveKeeps(s.groups, s.tree, g);
  }

  lemma QueueAddKeeps(s: State, g: nat)
    requires Inv(s) && g in s.groups
    ensures Inv(QueueAdd(s, g))
  {
    hide Weights, TreeAdd;
    if g in s.tree {
      WeightsSame(s.groups, QueueAdd(s, g).groups, s.tree);
    } else {
      var gr := s.groups[g].(nr := s.groups[g].nr + 1);
      var v := if s.tree == [] || s.tree[|s.tree| - 1] !in s.groups then s.minVdisktime
               else (s.groups[s.tree[|s.tree| - 1]].vdisktime + IDLE_DELAY) % U64;
      var s1 := s.(groups := s.groups[g := gr.(vdisktime := v)]);
      WeightsSame(s.groups, s1.groups, s.tree);
      TreeAddKeeps(s1, g);
    }
  }

  lemma QueueDelKeeps(s: State, g: nat)
    requires Inv(s) && Enabled(s, DelQueue(g))
    ensures Inv(QueueDel(s, g))
  {
    hide Weights;
    var s1 := s.(groups := s.groups[g := s.groups[g].(nr := s.groups[g].nr - 1)]);
    WeightsSame(s.groups, s1.groups, s.tree);
    RemoveKeeps(s1.groups, s.tree, g);
  }

  lemma ServedKeeps(s: State, g: nat, charge: nat)
    requires Inv(s) && Enabled(s, Serve(g, charge))
    ensures Inv(Served(s, g, charge))
  {
    hide Weights, TreeAdd, Scale, Remove;
    TreeDelKeeps(s, g);
    var s1 := TreeDel(s, g);
    var gr := s1.groups[g];
    var s2 := s1.(groups := s1.groups[g := gr.(vdisktime := (gr.vdisktime + Scale(charge, gr.weight)) % U64)]);
    WeightsSame(s1.groups, s2.groups, s1.tree);
    TreeAddKeeps(s2, g);
  }

  lemma NextKeeps(s: State, a: Action)
    requires Inv(s) && Enabled(s, a)
    ensures Inv(Next(s, a))
  {
    hide Weights;
    match a
    case AddQueue(g) => QueueAddKeeps(s, g);
    case DelQueue(g) => QueueDelKeeps(s, g);
    case ChooseGroup =>
    case Serve(g, charge) => ServedKeeps(s, g, charge);
    case Weigh(g, weight) => WeightsSame(s.groups, SetWeight(s, g, weight).groups, s.tree);
  }

  /** A tree without groups, all of which are idle. */
  predicate Init(s: State) {
    && s.tree == [] && s.left.None? && s.totalWeight == 0 && !s.bug
    && (forall g :: g in s.groups ==> s.groups[g].nr == 0 && s.groups[g].weight > 0)
  }

  /**
    After every run: the groups on the tree are those with queues, the cached first node is the first
    or absent, total_weight is the sum of their weights, and no BUG_ON fires.
  */
  lemma {:induction false} TreeSafe(s: State, run: seq<Action>)
    requires (Init(s) || Inv(s)) && Legal(s, run)
    ensures Inv(After(s, run))
    decreases |run|
  {
    assert Inv(s);
    hide Inv, Init;
    if run != [] {
      NextKeeps(s, run[0]);
      TreeSafe(Next(s, run[0]), run[1..]);
    }
  }
}
