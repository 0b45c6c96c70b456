/**
  Weighted fairness of CFQ groups: while the same groups stay on the service
  tree, no group gets ahead of another by more than the largest charges.
*/
module CfqFairness {
  import opened CfqGroups
  import opened CfqOrder

  /** One turn of the group that cfq_choose_cfqg picks, or a change of weight. */
  datatype Item = Turn(charge: nat) | Reweigh(g: nat, weight: nat)

  /** A charge, with the weight it was scaled by. */
  datatype Entry = Entry(g: nat, charge: nat, weight: nat)

  predicate Possible(s: State, i: Item) {
    match i
    case Turn(charge) => Choose(s).serving.Some? && Enabled(Choose(s), Serve(Choose(s).serving.value, charge))
    case Reweigh(g, weight) => Enabled(s, Weigh(g, weight))
  }

  function Do(s: State, i: Item): State
    requires Possible(s, i)
  {
    match i
    case Turn(charge) => Next(Choose(s), Serve(Choose(s).serving.value, charge))
    case Reweigh(g, weight) => Next(s, Weigh(g, weight))
  }

  function Bill(s: State, i: Item): seq<Entry>
    requires Possible(s, i)
  {
    match i
    case Turn(charge) => var g := Choose(s).serving.value; [Entry(g, charge, s.groups[g].weight)]
    case Reweigh(_, _) => []
  }

  predicate AllPossible(s: State, items: seq<Item>)
    decreases |items|
  {
    items == [] || (Possible(s, items[0]) && AllPossible(Do(s, items[0]), items[1..]))
  }

  function Final(s: State, items: seq<Item>): State
    requires AllPossible(s, items)
    decreases |items|
  {
    if items == [] then s else Final(Do(s, items[0]), items[1..])
  }

  /** Every charge made along the way. */
  function Log(s: State, items: seq<Item>): seq<Entry>
    requires AllPossible(s, items)
    decreases |items|
  {
    if items == [] then [] else Bill(s, items[0]) + Log(Do(s, items[0]), items[1..])
  }

  function Scaled(e: Entry): nat { if e.weight > 0 then Scale(e.charge, e.weight) else 0 }

  /** Service of group g in virtual time. */
  function Service(log: seq<Entry>, g: nat): nat {
    if log == [] then 0 else (if log[0].g == g then Scaled(log[0]) else 0) + Service(log[1..], g)
  }

  ghost predicate ChargesWithin(log: seq<Entry>, k: nat) {
    forall i :: 0 <= i < |log| ==> Scaled(log[i]) <= k
  }

  // ------------------------------------------------------------- one turn

  /** No two groups on the tree are further apart than k. */
  ghost predicate Spread(tree: seq<nat>, v: map<nat, int>, k: int) {
    forall g, h :: g in tree && h in tree ==> g in v && h in v && v[g] - v[h] <= k
  }

  ghost predicate Fair(s: State, v: map<nat, int>, m: int, k: nat) {
    Timed(s, v, m) && Close(s.tree, v, m) && Spread(s.tree, v, k)
  }

  /** Serving a group that is furthest behind, by at most k, keeps the spread. */
  lemma ServeSpread(tree: seq<nat>, tree': seq<nat>, v: map<nat, int>, g: nat, c: nat, k: nat)
    requires Spread(tree, v, k) && g in tree && g in v && c <= k < S64_MAX
    requires forall h :: h in tree ==> h in v && v[g] <= v[h]
    requires forall h :: h in tree' <==> h in tree
    ensures Spread(tree', Charge(v, g, c), k) && Close(tree', Charge(v, g, c), v[g])
  {}

  lemma ServeFair(s: State, v: map<nat, int>, k: nat, charge: nat)
    requires s.tree != [] && s.tree[0] in v && Fair(s, v, v[s.tree[0]], k) && k < S64_MAX
    requires Enabled(s, Serve(s.tree[0], charge)) && Scale(charge, s.groups[s.tree[0]].weight) <= k
    ensures var g := s.tree[0];
            Fair(Served(s, g, charge), Charge(v, g, Scale(charge, s.groups[g].weight)), v[g], k)
    ensures forall h :: h in Served(s, s.tree[0], charge).tree <==> h in s.tree
  {
    hide Scale, Inv, Tells, Served;
    var g := s.tree[0];
    var c := Scale(charge, s.groups[g].weight);
    FirstLeast(s.tree, v);
    assert g in s.tree;
    ServedIs(s, g, charge);
    ServeTimes(s, v, v[g], g, c);
    NextKeeps(s, Serve(g, charge));
    hide Ordered, TreeAdd;
    ServeSpread(s.tree, Served(s, g, charge).tree, v, g, c, k);
  }

  /** One turn: the charge goes to a group that is furthest behind, and all stay within k of each other. */
  lemma TurnFair(s: State, v: map<nat, int>, m: int, k: nat, charge: nat)
    requires Fair(s, v, m, k) && k < S64_MAX && Possible(s, Turn(charge))
    requires ChargesWithin(Bill(s, Turn(charge)), k)
    ensures s.tree != [] && s.tree[0] in v && s.tree[0] in s.groups
    ensures Bill(s, Turn(charge)) == [Entry(s.tree[0], charge, s.groups[s.tree[0]].weight)]
    ensures var g := s.tree[0];
            var s' := Do(s, Turn(charge));
            && Fair(s', Charge(v, g, Scaled(Bill(s, Turn(charge))[0])), v[g], k)
            && (forall h :: h in s'.tree <==> h in s.tree)
  {
    assert s.tree != [];
    ChooseLeast(s, v, m);
    assert s.tree[0] in s.tree;
    hide Tells, Ordered, Spread, Inv, Scale, Served;
    var e := Bill(s, Turn(charge))[0];
    assert Scaled(e) <= k;
    ServeFair(Choose(s), v, k, charge);
  }

  // ------------------------------------------------------------- every run

  lemma ReweighFair(s: State, v: map<nat, int>, m: int, k: nat, g: nat, weight: nat)
    requires Fair(s, v, m, k) && Possible(s, Reweigh(g, weight))
    ensures Fair(Do(s, Reweigh(g, weight)), v, m, k) && Do(s, Reweigh(g, weight)).tree == s.tree
  {
    NextKeeps(s, Weigh(g, weight));
    hide Inv;
  }

  ghost function Advanced(v: map<nat, int>, log: seq<Entry>): map<nat, int> {
    map g | g in v :: v[g] + Service(log, g)
  }

  /** Over any run without groups joining or leaving, the spread of virtual times stays within k. */
  lemma {:induction false} FairRun(s: State, v: map<nat, int>, m: int, k: nat, items: seq<Item>) returns (m': int)
    requires Fair(s, v, m, k) && k < S64_MAX && AllPossible(s, items) && ChargesWithin(Log(s, items), k)
    ensures Fair(Final(s, items), Advanced(v, Log(s, items)), m', k)
    ensures forall h :: h in Final(s, items).tree <==> h in s.tree
    decreases |items|
  {
    hide Inv, Scale, Possible, Do, Bill, Choose, Tells, Ordered, Spread;
    if items == [] {
      assert Advanced(v, []) == v;
      m' := m;
    } else {
      var i, rest := items[0], items[1..];
      var s1 := Do(s, i);
      var (first, later) := (Bill(s, i), Log(s1, rest));
      WithinSplit(first, later, k);
      if i.Turn? {
        TurnFair(s, v, m, k, i.charge);
        var g := s.tree[0];
        var v1 := Charge(v, g, Scaled(first[0]));
        m' := FairRun(s1, v1, v[g], k, rest);
        AdvancedTurn(v, g, first[0], later);
      } else {
        ReweighFair(s, v, m, k, i.g, i.weight);
        assert Bill(s, i) == [] by { NoCharge(s, i); }
        assert first + later == later;
        m' := FairRun(s1, v, m, k, rest);
      }
    }
  }

  lemma NoCharge(s: State, i: Item)
    requires Possible(s, i) && i.Reweigh?
    ensures Bill(s, i) == []
  {}

  lemma WithinSplit(a: seq<Entry>, b: seq<Entry>, k: nat)
    requires ChargesWithin(a + b, k)
    ensures ChargesWithin(a, k) && ChargesWithin(b, k)
  {
    assert forall i :: 0 <= i < |a| ==> (a + b)[i] == a[i];
    assert forall i :: 0 <= i < |b| ==> (a + b)[|a| + i] == b[i];
  }

  lemma AdvancedTurn(v: map<nat, int>, g: nat, e: Entry, log: seq<Entry>)
    requires g in v && e.g == g
    ensures Advanced(Charge(v, g, Scaled(e)), log) == Advanced(v, [e] + log)
  {
    hide Scaled;
    assert ([e] + log)[1..] == log;
  }

  /** The virtual service of any two groups differs by at most 2 k, however long the run. */
  lemma ServiceWithin(s: State, v: map<nat, int>, m: int, k: nat, items: seq<Item>, g: nat, h: nat)
    requires Fair(s, v, m, k) && k < S64_MAX && AllPossible(s, items) && ChargesWithin(Log(s, items), k)
    requires g in s.tree && h in s.tree
    ensures -2 * k <= Service(Log(s, items), g) - Service(Log(s, items), h) <= 2 * k
  {
    var m' := FairRun(s, v, m, k, items);
    hide Inv, Final, Log, AllPossible, Service;
    var v' := Advanced(v, Log(s, items));
    assert v'[g] - v'[h] <= k && v'[h] - v'[g] <= k;
  }

  // ------------------------------------------------------- shares by weight

  const UNIT: nat := 4096 * WEIGHT_DEFAULT

  /** Service of group g as charged, before scaling. */
  function Total(log: seq<Entry>, g: nat): nat {
    if log == [] then 0 else (if log[0].g == g then log[0].charge else 0) + Total(log[1..], g)
  }

  function Count(log: seq<Entry>, g: nat): nat {
    if log == [] then 0 else (if log[0].g == g then 1 else 0) + Count(log[1..], g)
  }

  /** Group g had weight w throughout, and no charge overflowed when scaled. */
  ghost predicate Weighs(log: seq<Entry>, g: nat, w: nat) {
    forall i :: 0 <= i < |log| && log[i].g == g ==> log[i].weight == w && log[i].charge * UNIT < U64
  }

  function Mul(a: int, b: int): int { a * b }

  lemma MulAdd(a: int, b: int, c: int)
    ensures Mul(a, b + c) == Mul(a, b) + Mul(a, c)
  {}

  lemma ScaleBounds(charge: nat, w: nat)
    requires w > 0 && charge * UNIT < U64
    ensures Mul(w, Scale(charge, w)) <= Mul(UNIT, charge) <= Mul(w, Scale(charge, w) + 1)
  {
    var x := charge * UNIT;
    assert charge * 4096 * WEIGHT_DEFAULT % U64 == x;
    assert x == w * (x / w) + x % w;
  }

  /** Scaling each charge loses less than one unit a time. */
  lemma {:induction false} TotalBounds(log: seq<Entry>, g: nat, w: nat)
    requires w > 0 && Weighs(log, g, w)
    ensures Mul(w, Service(log, g)) <= Mul(UNIT, Total(log, g)) <= Mul(w, Service(log, g) + Count(log, g))
  {
    if log != [] {
      var rest := log[1..];
      assert forall i :: 0 <= i < |rest| ==> rest[i] == log[i + 1];
      TotalBounds(rest, g, w);
      if log[0].g == g {
        var c := log[0].charge;
        ScaleBounds(c, w);
        hide Mul, Scale;
        MulAdd(w, Scale(c, w), Service(rest, g));
        MulAdd(UNIT, c, Total(rest, g));
        MulAdd(w, Scale(c, w) + 1, Service(rest, g) + Count(rest, g));
      }
    }
  }

  /**
    Two groups that stay on the tree get service in proportion to their weights: Total / weight differs
    by at most 2 k and the rounding of one unit a charge, in units of 1 / UNIT.
  */
  lemma SharesByWeight(
    s: State, v: map<nat, int>, m: int, k: nat, items: seq<Item>, g: nat, wg: nat, h: nat, wh: nat)
    requires Fair(s, v, m, k) && k < S64_MAX && AllPossible(s, items) && ChargesWithin(Log(s, items), k)
    requires g in s.tree && h in s.tree && wg > 0 && wh > 0
    requires Weighs(Log(s, items), g, wg) && Weighs(Log(s, items), h, wh)
    ensures var log := Log(s, items);
            wh * (UNIT * Total(log, g)) - wg * (UNIT * Total(log, h)) <= wg * wh * (2 * k + Count(log, g))
  {
    hide Fair, Log, AllPossible;
    ServiceWithin(s, v, m, k, items, g, h);
    SharesFrom(Log(s, items), k, g, wg, h, wh);
  }

  lemma SharesFrom(log: seq<Entry>, k: nat, g: nat, wg: nat, h: nat, wh: nat)
    requires wg > 0 && wh > 0 && Weighs(log, g, wg) && Weighs(log, h, wh)
    requires Service(log, g) - Service(log, h) <= 2 * k
    ensures wh * (UNIT * Total(log, g)) - wg * (UNIT * Total(log, h)) <= wg * wh * (2 * k + Count(log, g))
  {
    TotalBounds(log, g, wg);
    TotalBounds(log, h, wh);
    hide Service, Total, Count, Weighs, Mul;
    var x, y, n := Total(log, g), Total(log, h), Count(log, g);
    CrossBound(Mul(UNIT, x), Mul(UNIT, y), wg, wh, Service(log, g) + n, Service(log, h), 2 * k + n);
    assert wh * (UNIT * x) - wg * (UNIT * y) <= wg * wh * (2 * k + n) by { Unfold(x, y, wg, wh, 2 * k + n); }
  }

  lemma Unfold(x: nat, y: nat, wg: nat, wh: nat, d: int)
    requires Mul(wh, Mul(UNIT, x)) - Mul(wg, Mul(UNIT, y)) <= Mul(Mul(wg, wh), d)
    ensures wh * (UNIT * x) - wg * (UNIT * y) <= wg * wh * d
  {}

  lemma CrossBound(x: int, y: int, wg: nat, wh: nat, a: int, b: int, d: int)
    requires x <= Mul(wg, a) && Mul(wh, b) <= y && a - b <= d
    ensures Mul(wh, x) - Mul(wg, y) <= Mul(Mul(wg, wh), d)
  {
    MulMono(x, wg * a, wh);
    MulMono(wh * b, y, wg);
    MulMono(a - b, d, wg * wh);
    assert wh * (wg * a) - wg * (wh * b) == wg * wh * (a - b);
  }

  lemma MulMono(a: int, b: int, n: nat)
    requires a <= b
    ensures n * a <= n * b
  {}
}
