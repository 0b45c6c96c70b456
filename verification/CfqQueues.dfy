/**
  The walks over `new_cfqq` links, as loops over the queues' fields, proved to
  do what the model of the merge chains describes.
*/
module CfqQueues {
  import opened Lists
  import opened CfqMerge

  class Queues {
    var qs: seq<Slot>
    var holders: seq<Option<nat>>
    var active: Option<nat>
    var bug: bool

    function St(): State
      reads this
    {
      State(qs, holders, active, bug)
    }

    constructor (slots: nat, owners: nat)
      ensures St() == Init(slots, owners)
    {
      qs, holders, active, bug := seq(slots, _ => Free), seq(owners, _ => None), None, false;
    }

    /** __cfq_slice_expired. */
    method SliceExpired(q: nat)
      requires Alive(qs, q)
      modifies `qs, `active
      ensures St() == Expire(old(St()), q)
    {
      if qs[q].onRr && qs[q].sorted == 0 {
        qs := qs[q := qs[q].(onRr := false)];
      }
      if active == Some(q) {
        active := None;
      }
    }

    /** cfq_put_queue; a failed BUG_ON test stops it. */
    method PutQueue(q: nat)
      modifies this
      ensures St() == Put(old(St()), q)
    {
      if q >= |qs| || qs[q].Free? || qs[q].ref <= 0 {
        bug := true;
        return;
      }
      if qs[q].ref > 1 {
        qs := qs[q := qs[q].(ref := qs[q].ref - 1)];
        return;
      }
      if qs[q].sorted != 0 || qs[q].readRqs + qs[q].writeRqs != 0 {
        bug := true;
        return;
      }
      if active == Some(q) {
        SliceExpired(q);
      }
      if qs[q].onRr {
        bug := true;
      } else {
        qs := qs[q := Free];
      }
    }

    /** cfq_put_cooperator. */
    method PutCooperators(q: nat)
      requires Walkable(qs, q)
      modifies this
      ensures St() == PutCooperator(old(St()), q)
    {
      ghost var k := Depth(qs, q);
      ghost var rest: seq<nat> := Chain(qs, q, k);
      ChainDistinct(qs, q, k);
      Links(qs, q, k);
      var cur := qs[q].next;
      while cur.Some?
        invariant cur == Head(rest)
        invariant |qs| == |old(qs)| && forall x :: x in rest && x < |qs| ==> qs[x] == old(qs)[x]
        invariant Path(old(qs), rest) && forall i, j :: 0 <= i < j < |rest| ==> rest[i] != rest[j]
        invariant q !in rest
        invariant PutAll(St(), rest) == PutCooperator(old(St()), q)
        decreases |rest|
      {
        assert rest[0] in rest;
        if cur.value == q {
          break;
        }
        assert Follows(old(qs), rest, 0);
        var next := qs[cur.value].next;
        PutOthers(St(), rest);
        PathRest(old(qs), rest);
        PutQueue(cur.value);
        cur := next;
        rest := rest[1..];
      }
    }

    /** cfq_setup_merge; the caller found cfqq without a scheduled merge. */
    method SetupMerging(q: nat, n: nat)
      requires Alive(qs, q) && Alive(qs, n) && q != n
      requires ProcessRefs(qs[n]) != 0 ==> Walkable(qs, n)
      modifies this
      ensures St() == SetupMerge(old(St()), q, n)
    {
      if ProcessRefs(qs[n]) == 0 {
        return;
      }
      ghost var k := Depth(qs, n);
      ghost var j := k;
      var end := n;
      while qs[end].next.Some?
        invariant Ends(qs, end, j) && Last(qs, end, j) == Last(qs, n, k)
        invariant q in Chain(qs, n, k) <==> q in Chain(qs, end, j)
        decreases j
      {
        if qs[end].next.value == q {
          return;
        }
        end := qs[end].next.value;
        j := j - 1;
      }
      var processRefs, newProcessRefs := ProcessRefs(qs[q]), ProcessRefs(qs[end]);
      if processRefs == 0 || newProcessRefs == 0 {
        return;
      }
      if newProcessRefs >= processRefs {
        qs := qs[q := qs[q].(next := Some(end))];
        qs := qs[end := qs[end].(ref := qs[end].ref + processRefs)];
      } else {
        qs := qs[end := qs[end].(next := Some(q))];
        qs := qs[q := qs[q].(ref := qs[q].ref + newProcessRefs)];
      }
    }
  }

  /** The queue at position i of l merges into the one at the next position, the last one into none. */
  predicate Follows(qs: seq<Slot>, l: seq<nat>, i: nat)
    requires i < |l|
  {
    Alive(qs, l[i]) && (if i + 1 < |l| then qs[l[i]].next == Some(l[i + 1]) else qs[l[i]].next == None)
  }

  ghost predicate Path(qs: seq<Slot>, l: seq<nat>) {
    forall i: nat :: i < |l| ==> Follows(qs, l, i)
  }

  lemma PathRest(qs: seq<Slot>, l: seq<nat>)
    requires l != [] && Path(qs, l)
    ensures Path(qs, l[1..]) && Alive(qs, l[0]) && qs[l[0]].next == Head(l[1..])
  {
    assert Follows(qs, l, 0);
    forall i: nat | i < |l| - 1 ensures Follows(qs, l[1..], i) {
      assert Follows(qs, l, i + 1);
    }
  }

  lemma PathGrows(qs: seq<Slot>, x: nat, l: seq<nat>)
    requires Path(qs, l) && Alive(qs, x) && qs[x].next == Head(l)
    ensures Path(qs, [x] + l)
  {
    forall i: nat | i < |l| + 1 ensures Follows(qs, [x] + l, i) {
      if i > 0 { assert Follows(qs, l, i - 1); }
    }
  }

  lemma {:induction false} Links(qs: seq<Slot>, q: nat, k: nat)
    requires Ends(qs, q, k)
    ensures qs[q].next == Head(Chain(qs, q, k)) && Path(qs, Chain(qs, q, k))
    decreases k
  {
    if k > 0 {
      var n := qs[q].next.value;
      Links(qs, n, k - 1);
      PathGrows(qs, n, Chain(qs, n, k - 1));
    }
  }

  lemma PutOthers(s: State, l: seq<nat>)
    requires l != []
    ensures forall x :: x in l[1..] && x != l[0] && x < |s.qs| ==> Put(s, l[0]).qs[x] == s.qs[x]
    ensures |Put(s, l[0]).qs| == |s.qs|
  {}
}
