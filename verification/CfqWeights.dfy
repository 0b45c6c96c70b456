/**
  When a new weight of a CFQ group counts (cfq_update_group_weight in
  block/cfq-iosched.c): only once the group is off the tree, and at the first
  chance.
*/
module CfqWeights {
  import opened Lists
  import opened CfqGroups

  /** The action neither takes over nor replaces a pending weight of g: it does not charge g, link it in or reweigh it. */
  predicate Leaves(s: State, a: Action, g: nat) {
    match a
    case Weigh(h, _) => h != g
    case Serve(h, _) => h != g
    case AddQueue(h) => h != g || g in s.tree
    case _ => true
  }

  predicate AllLeave(s: State, run: seq<Action>, g: nat)
    requires Legal(s, run)
    decreases |run|
  {
    run == [] || (Leaves(s, run[0], g) && AllLeave(Next(s, run[0]), run[1..], g))
  }

  /** Weight, and pending weight if any, of a group. */
  function Weighing(s: State, g: nat): (nat, nat)
    requires g in s.groups
  {
    (s.groups[g].weight, s.groups[g].newWeight)
  }

  lemma LeavesWeight(s: State, a: Action, g: nat)
    requires Enabled(s, a) && g in s.groups && Leaves(s, a, g)
    ensures g in Next(s, a).groups && Weighing(Next(s, a), g) == Weighing(s, g)
  {
    hide Place, Key, Scale, Remove, Diff;
  }

  lemma {:induction false} RunLeavesWeight(s: State, run: seq<Action>, g: nat)
    requires g in s.groups && Legal(s, run) && AllLeave(s, run, g)
    ensures g in After(s, run).groups && Weighing(After(s, run), g) == Weighing(s, g)
    decreases |run|
  {
    hide Next, Enabled, Leaves, Weighing;
    if run != [] {
      LeavesWeight(s, run[0], g);
      RunLeavesWeight(Next(s, run[0]), run[1..], g);
    }
  }

  /** A charge is scaled by the weight the group has, and after it a pending weight counts. */
  lemma ServeTakesOver(s: State, g: nat, charge: nat)
    requires Enabled(s, Serve(g, charge))
    ensures var (w, pending) := Weighing(s, g);
            var s' := Next(s, Serve(g, charge));
            && g in s'.groups && w > 0 && Weighing(s', g) == (if pending != 0 then pending else w, 0)
            && s'.groups[g].vdisktime == (s.groups[g].vdisktime + charge * 2048000 % 0x1_0000_0000_0000_0000 / w) % 0x1_0000_0000_0000_0000
  {
    hide Place, Key, Remove, Diff;
    assert charge * 4096 * 500 == charge * 2048000;
  }

  /** So it does when the group joins the tree. */
  lemma JoinTakesOver(s: State, g: nat)
    requires g in s.groups && g !in s.tree
    ensures var (w, pending) := Weighing(s, g);
            var s' := QueueAdd(s, g);
            g in s'.groups && Weighing(s', g) == (if pending != 0 then pending else w, 0)
  {
    hide Place, Key, Diff;
  }

  /**
    After a new weight w is set, over any run that neither charges the group, links it in nor reweighs it, the old
    weight counts. The next charge is scaled by it and leaves w, and so does the next joining of the tree.
  */
  lemma NewWeightCounts(s: State, g: nat, w: nat, run: seq<Action>, charge: nat)
    requires g in s.groups && w > 0 && Legal(s, [Weigh(g, w)] + run) && AllLeave(Next(s, Weigh(g, w)), run, g)
    ensures var (was, s1) := (s.groups[g].weight, After(s, [Weigh(g, w)] + run));
            && g in s1.groups && Weighing(s1, g) == (was, w)
            && (Enabled(s1, Serve(g, charge)) ==>
                  var s2 := Next(s1, Serve(g, charge));
                  && g in s2.groups && Weighing(s2, g) == (w, 0) && was > 0
                  && s2.groups[g].vdisktime == (s1.groups[g].vdisktime + charge * 2048000 % 0x1_0000_0000_0000_0000 / was) % 0x1_0000_0000_0000_0000)
            && (g !in s1.tree ==> g in QueueAdd(s1, g).groups && Weighing(QueueAdd(s1, g), g) == (w, 0))
  {
    var s0 := Next(s, Weigh(g, w));
    assert ([Weigh(g, w)] + run)[1..] == run;
    RunLeavesWeight(s0, run, g);
    var s1 := After(s0, run);
    hide After, Legal, AllLeave, Enabled, QueueAdd;
    if Enabled(s1, Serve(g, charge)) { ServeTakesOver(s1, g, charge); }
    if g !in s1.tree { JoinTakesOver(s1, g); }
  }
}
