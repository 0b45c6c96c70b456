/**
  grp_service_tree of block/cfq-iosched.c and the groups on it, as they are
  updated in place.
*/
module CfqTree {
  import opened Lists
  import opened CfqGroups

  class GroupTree {
    var groups: map<nat, Group>
    var tree: seq<nat>
    var left: Option<nat>
    var minVdisktime: nat
    var totalWeight: int
    var serving: Option<nat>
    var bug: bool

    /** Idle groups, and an empty tree. */
    constructor (groups: map<nat, Group>)
      requires forall g :: g in groups ==> groups[g].nr == 0 && groups[g].weight > 0
      ensures Init(St()) && Inv(St()) && this.groups == groups
    {
      this.groups, tree, left, minVdisktime, totalWeight, serving, bug := groups, [], None, 0, 0, None, false;
    }

    function St(): State reads this {
      State(groups, tree, left, minVdisktime, totalWeight, serving, bug)
    }

    /** The search of __cfq_group_service_tree_add: a walk from the front stands for the descent of the tree. */
    method FindPlace(k: int) returns (i: nat)
      ensures i == Place(St(), tree, k)
    {
      hide Key;
      i := 0;
      assert tree[0..] == tree;
      while i < |tree| && k >= Key(St(), tree[i])
        invariant i <= |tree|
        invariant Place(St(), tree, k) == i + Place(St(), tree[i..], k)
      {
        assert tree[i..][1..] == tree[i + 1..];
        i := i + 1;
      }
    }

    /** cfq_group_service_tree_add. */
    method ServiceTreeAdd(g: nat)
      requires g in groups
      modifies this
      ensures St() == TreeAdd(old(St()), g)
    {
      hide Key;
      var i := FindPlace(Key(St(), g));
      hide Place;
      if g in tree {
        bug := true;
      }
      if i == 0 {
        left := Some(g);
      }
      tree := tree[..i] + [g] + tree[i..];
      var gr := groups[g];
      if gr.newWeight != 0 {
        gr := gr.(weight := gr.newWeight, newWeight := 0);
      }
      groups := groups[g := gr];
      totalWeight := totalWeight + gr.weight;
    }

    /** cfq_group_service_tree_del. */
    method ServiceTreeDel(g: nat)
      requires g in groups && (left == Some(g) ==> g in tree)
      modifies this
      ensures St() == TreeDel(old(St()), g)
    {
      totalWeight := totalWeight - groups[g].weight;
      if g in tree {
        if left == Some(g) {
          left := None;
        }
        tree := Remove(tree, g);
      } else {
        RemoveAbsent(tree, g);
      }
    }

    /** cfq_group_notify_queue_add. */
    method NotifyQueueAdd(g: nat)
      requires Inv(St()) && g in groups
      modifies this
      ensures St() == QueueAdd(old(St()), g) && Inv(St())
    {
      hide TreeAdd, TreeOk;
      QueueAddKeeps(St(), g);
      groups := groups[g := groups[g].(nr := groups[g].nr + 1)];
      if g in tree {
        return;
      }
      var v := minVdisktime;
      if tree != [] {
        var last := tree[|tree| - 1];
        assert last in tree;
        if last in groups {
          v := (groups[last].vdisktime + IDLE_DELAY) % U64;
        }
      }
      ghost var gr := groups[g].(vdisktime := v);
      groups := groups[g := groups[g].(vdisktime := v)];
      assert groups == old(groups)[g := gr];
      ServiceTreeAdd(g);
    }

    /** cfq_group_notify_queue_del. */
    method NotifyQueueDel(g: nat)
      requires Inv(St()) && Enabled(St(), DelQueue(g))
      modifies this
      ensures St() == QueueDel(old(St()), g) && Inv(St())
    {
      QueueDelKeeps(St(), g);
      groups := groups[g := groups[g].(nr := groups[g].nr - 1)];
      if groups[g].nr > 0 {
        return;
      }
      hide TreeOk;
      ServiceTreeDel(g);
    }

    /** cfq_choose_cfqg: serves the group at the front of the tree. */
    method ChooseGroup() returns (g: Option<nat>)
      requires Inv(St())
      modifies this
      ensures St() == Choose(old(St())) && Inv(St())
      ensures g == (if tree == [] then None else Some(tree[0])) && g == serving
    {
      NextKeeps(St(), Action.ChooseGroup);
      if tree == [] {
        serving := None;
        return None;
      }
      if left.None? {
        left := Some(tree[0]);
      }
      assert tree[0] in tree;
      var first := left.value;
      if Diff(groups[first].vdisktime, minVdisktime) > 0 {
        minVdisktime := groups[first].vdisktime;
      }
      serving := left;
      g := serving;
    }

    /** cfq_group_served. */
    method GroupServed(g: nat, charge: nat)
      requires Inv(St()) && Enabled(St(), Serve(g, charge))
      modifies this
      ensures St() == Served(old(St()), g, charge) && Inv(St())
    {
      hide TreeAdd, TreeOk, Scale, Remove;
      ServedKeeps(St(), g, charge);
      var c := Scale(charge, groups[g].weight);
      ServiceTreeDel(g);
      groups := groups[g := groups[g].(vdisktime := (groups[g].vdisktime + c) % U64)];
      ServiceTreeAdd(g);
    }
  }
}
