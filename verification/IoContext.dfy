/**
  io_cq lookup, creation and destruction (block/blk-ioc.c) by threads that hold
  queue locks and context locks. Each shared read or write is a step of its own;
  steps of different threads interleave.
*/
module IoContext {
  import opened Lists

  /** An io_cq links a context to a queue. */
  datatype Icq = Icq(c: nat, q: nat)

  /** What a thread is about to do; nothing, before a call or with the answer of a lookup for context c. */
  datatype Op =
    | Nothing
    | Answer(c: nat, found: Option<nat>)
    | ReadHint(c: nat)
    | ReadTree(c: nat)
    | WriteHint(c: nat, i: nat)
    | LinkContext(i: nat)
    | LinkQueue(i: nat)
    | UnlinkTree(i: nat)
    | UnlinkContext(i: nat)
    | UnlinkQueue(i: nat)
    | CheckHint(i: nat)
    | ClearHint(i: nat)

  /** The locks a thread holds, and where it is. */
  datatype Thread = Thread(q: Option<nat>, c: Option<nat>, op: Op)

  /**
    All io_cqs ever made, and those destroyed; the radix trees, keyed by context and queue; the lists of
    contexts and of queues; icq_hint.
  */
  datatype State = State(
    icqs: map<nat, Icq>, gone: set<nat>, tree: map<(nat, nat), nat>,
    ofContext: set<nat>, ofQueue: set<nat>, hint: map<nat, nat>, threads: seq<Thread>)

  function Init(threads: nat): State {
    State(map[], {}, map[], {}, {}, map[], seq(threads, _ => Thread(None, None, Nothing)))
  }

  datatype Step =
    | LockQueue(t: nat, q: nat)
    | LockContext(t: nat, c: nat)
    | UnlockQueue(t: nat)
    | UnlockContext(t: nat)
    | Lookup(t: nat, c: nat)
    | Create(t: nat, i: nat)
    | Destroy(t: nat, i: nat)
    | Go(t: nat)

  predicate Free(s: State, a: Step) {
    match a
    case LockQueue(_, q) => forall u: nat :: u < |s.threads| ==> s.threads[u].q != Some(q)
    case LockContext(_, c) => forall u: nat :: u < |s.threads| ==> s.threads[u].c != Some(c)
    case _ => true
  }

  predicate Enabled(s: State, a: Step) {
    && a.t < |s.threads| && Free(s, a)
    && var th := s.threads[a.t];
       match a
       case LockQueue(t, q) => Idle(th.op) && th.q.None?
       case LockContext(t, c) => Idle(th.op) && th.c.None?
       case UnlockQueue(t) => Idle(th.op)
       case UnlockContext(t) => Idle(th.op)
       case Lookup(t, c) => Idle(th.op) && th.q.Some?
       case Create(t, i) =>
         Idle(th.op) && th.q.Some? && th.c.Some? && i !in s.icqs && (th.c.value, th.q.value) !in s.tree
       case Destroy(t, i) =>
         && Idle(th.op) && i in s.icqs && th.q == Some(s.icqs[i].q) && th.c == Some(s.icqs[i].c)
         && (i in s.ofQueue || i in s.ofContext)
       case Go(t) => !Idle(th.op)
  }

  predicate Idle(op: Op) { op.Nothing? || op.Answer? }

  function To(s: State, t: nat, op: Op): State
    requires t < |s.threads|
  {
    s.(threads := s.threads[t := s.threads[t].(op := op)])
  }

  /** The next access of thread t. */
  function Run(s: State, t: nat): State
    requires t < |s.threads|
  {
    var th := s.threads[t];
    match th.op
    case Nothing => s
    case Answer(_, _) => s
    case ReadHint(c) =>
      if th.q.Some? && c in s.hint && s.hint[c] in s.icqs && s.icqs[s.hint[c]].q == th.q.value then
        To(s, t, Answer(c, Some(s.hint[c])))
      else To(s, t, ReadTree(c))
    case ReadTree(c) =>
      if th.q.Some? && (c, th.q.value) in s.tree then To(s, t, WriteHint(c, s.tree[(c, th.q.value)]))
      else To(s, t, Answer(c, None))
    case WriteHint(c, i) => To(s.(hint := s.hint[c := i]), t, Answer(c, Some(i)))
    case LinkContext(i) => To(s.(ofContext := s.ofContext + {i}), t, LinkQueue(i))
    case LinkQueue(i) => To(s.(ofQueue := s.ofQueue + {i}), t, Nothing)
    case UnlinkTree(i) =>
      if i in s.icqs then To(s.(tree := s.tree - {(s.icqs[i].c, s.icqs[i].q)}), t, UnlinkContext(i)) else To(s, t, Nothing)
    case UnlinkContext(i) => To(s.(ofContext := s.ofContext - {i}), t, UnlinkQueue(i))
    case UnlinkQueue(i) => To(s.(ofQueue := s.ofQueue - {i}), t, CheckHint(i))
    case CheckHint(i) =>
      if i in s.icqs && s.icqs[i].c in s.hint && s.hint[s.icqs[i].c] == i then To(s, t, ClearHint(i))
      else To(s.(gone := s.gone + {i}), t, Nothing)
    case ClearHint(i) =>
      if i in s.icqs then To(s.(hint := s.hint - {s.icqs[i].c}, gone := s.gone + {i}), t, Nothing) else To(s, t, Nothing)
  }

  function Next(s: State, a: Step): State
    requires Enabled(s, a)
  {
    var th := s.threads[a.t];
    match a
    case LockQueue(t, q) => s.(threads := s.threads[t := th.(q := Some(q))])
    case LockContext(t, c) => s.(threads := s.threads[t := th.(c := Some(c))])
    case UnlockQueue(t) => s.(threads := s.threads[t := th.(q := None)])
    case UnlockContext(t) => s.(threads := s.threads[t := th.(c := None)])
    case Lookup(t, c) => To(s, t, ReadHint(c))
    case Create(t, i) =>
      var icq := Icq(th.c.value, th.q.value);
      To(s.(icqs := s.icqs[i := icq], tree := s.tree[(icq.c, icq.q) := i]), t, LinkContext(i))
    case Destroy(t, i) => To(s, t, UnlinkTree(i))
    case Go(t) => Run(s, t)
  }

  // ----------------------------------------------------------- what is kept

  /** Locks exclude. */
  ghost predicate Exclusive(threads: seq<Thread>) {
    forall t: nat, u: nat :: t < |threads| && u < |threads| && t != u ==>
      (threads[t].q.Some? ==> threads[t].q != threads[u].q) && (threads[t].c.Some? ==> threads[t].c != threads[u].c)
  }

  /** The io_cq a thread is destroying, its hint not yet cleared for certain. */
  predicate Destroying(op: Op, i: nat) {
    (op.UnlinkTree? || op.UnlinkContext? || op.UnlinkQueue? || op.CheckHint? || op.ClearHint?) && op.i == i
  }

  predicate InTree(icqs: map<nat, Icq>, tree: map<(nat, nat), nat>, i: nat) {
    i in icqs && (icqs[i].c, icqs[i].q) in tree && tree[(icqs[i].c, icqs[i].q)] == i
  }

  predicate Both(s: State, th: Thread, i: nat) {
    i in s.icqs && th.q == Some(s.icqs[i].q) && th.c == Some(s.icqs[i].c)
  }

  predicate Removed(s: State, th: Thread, i: nat) {
    Both(s, th, i) && !InTree(s.icqs, s.tree, i)
  }

  /** A thread in a call holds the locks the call needs, and what it works on is what it takes it for. */
  ghost predicate ThreadOk(s: State, th: Thread) {
    match th.op
    case Nothing => true
    case Answer(_, _) => true
    case ReadHint(c) => th.q.Some?
    case ReadTree(c) => th.q.Some?
    case WriteHint(c, i) => i in s.icqs && InTree(s.icqs, s.tree, i) && s.icqs[i].c == c && th.q == Some(s.icqs[i].q)
    case LinkContext(i) => InTree(s.icqs, s.tree, i) && Both(s, th, i) && i !in s.ofContext && i !in s.ofQueue
    case LinkQueue(i) => InTree(s.icqs, s.tree, i) && Both(s, th, i) && i in s.ofContext && i !in s.ofQueue
    case UnlinkTree(i) => InTree(s.icqs, s.tree, i) && Both(s, th, i) && i in s.ofContext && i in s.ofQueue
    case UnlinkContext(i) => Removed(s, th, i) && i in s.ofContext && i in s.ofQueue
    case UnlinkQueue(i) => Removed(s, th, i) && i !in s.ofContext && i in s.ofQueue
    case CheckHint(i) => Removed(s, th, i) && i !in s.ofContext && i !in s.ofQueue
    case ClearHint(i) => Removed(s, th, i) && i !in s.ofContext && i !in s.ofQueue
  }

  ghost predicate ThreadsOk(s: State) {
    forall t: nat :: t < |s.threads| ==> ThreadOk(s, s.threads[t])
  }

  ghost predicate TreeOk(s: State) {
    && (forall k :: k in s.tree ==> s.tree[k] in s.icqs && k == (s.icqs[s.tree[k]].c, s.icqs[s.tree[k]].q))
    && (forall i :: i in s.gone ==> i in s.icqs && !InTree(s.icqs, s.tree, i))
  }

  /** A hint names an io_cq of its context that is in the tree, or about to be unhinted by the thread destroying it. */
  ghost predicate HintsOk(s: State) {
    forall c :: c in s.hint ==>
      var i := s.hint[c];
      && i in s.icqs && s.icqs[i].c == c && i !in s.gone
      && (InTree(s.icqs, s.tree, i) || exists t: nat :: t < |s.threads| && Destroying(s.threads[t].op, i))
  }

  function Members(s: State, queue: bool): set<nat> { if queue then s.ofQueue else s.ofContext }

  /** The thread is between the tree and the list, of queues or of contexts, with io_cq i. */
  predicate Between(op: Op, i: nat, queue: bool) {
    || op == LinkContext(i) || op == UnlinkContext(i)
    || (queue && (op == LinkQueue(i) || op == UnlinkQueue(i)))
  }

  /** A list agrees with the tree on every io_cq that no thread is between the two with. */
  ghost predicate ListOk(s: State, queue: bool) {
    && (forall i :: i in Members(s, queue) ==> i in s.icqs)
    && (forall i :: i in s.icqs && (i in Members(s, queue) <==> !InTree(s.icqs, s.tree, i)) ==>
          exists t: nat :: t < |s.threads| && Between(s.threads[t].op, i, queue))
  }

  ghost predicate ListsOk(s: State) { ListOk(s, false) && ListOk(s, true) }

  ghost predicate Inv(s: State) {
    Exclusive(s.threads) && ThreadsOk(s) && TreeOk(s) && HintsOk(s) && ListsOk(s)
  }

  lemma InitOk(threads: nat)
    ensures Inv(Init(threads))
  {}

  lemma LockKeeps(s: State, a: Step)
    requires Inv(s) && Enabled(s, a) && (a.LockQueue? || a.LockContext? || a.UnlockQueue? || a.UnlockContext? || a.Lookup?)
    ensures Inv(Next(s, a))
  {
    var s' := Next(s, a);
    var t := a.t;
    forall u: nat | u < |s.threads| ensures ThreadOk(s', s'.threads[u]) {
      assert ThreadOk(s, s.threads[u]);
    }
    assert forall u: nat, i :: u < |s.threads| ==> (Destroying(s.threads[u].op, i) <==> Destroying(s'.threads[u].op, i));
    ThreadsFrame(s, s');
  }

  /** Hints and lists depend on threads only through what they link, unlink and destroy. */
  lemma ThreadsFrame(s: State, s': State)
    requires HintsOk(s) && ListsOk(s) && TreeOk(s) && s' == s.(threads := s'.threads) && |s'.threads| == |s.threads|
    requires forall u: nat, i: nat :: u < |s.threads| && Destroying(s.threads[u].op, i) ==> Destroying(s'.threads[u].op, i)
    requires forall u: nat, i: nat, queue :: u < |s.threads| && Between(s.threads[u].op, i, queue) ==> Between(s'.threads[u].op, i, queue)
    ensures HintsOk(s') && ListsOk(s') && TreeOk(s')
  {
    forall c | c in s'.hint && !InTree(s.icqs, s.tree, s.hint[c])
      ensures exists t: nat :: t < |s'.threads| && Destroying(s'.threads[t].op, s.hint[c])
    {
      var t: nat :| t < |s.threads| && Destroying(s.threads[t].op, s.hint[c]);
      assert Destroying(s'.threads[t].op, s.hint[c]);
    }
    forall queue: bool, i | i in s'.icqs && (i in Members(s', queue) <==> !InTree(s'.icqs, s'.tree, i))
      ensures exists t: nat :: t < |s'.threads| && Between(s'.threads[t].op, i, queue)
    {
      assert ListOk(s, queue);
      var t: nat :| t < |s.threads| && Between(s.threads[t].op, i, queue);
      assert Between(s'.threads[t].op, i, queue);
    }
  }

  /** A step that only moves thread t on: a read, or the start of a call. */
  lemma MoveKeeps(s: State, t: nat, op: Op)
    requires Inv(s) && t < |s.threads| && ThreadOk(s, s.threads[t].(op := op))
    requires forall i, queue :: !Between(s.threads[t].op, i, queue)
    requires forall i :: Destroying(s.threads[t].op, i) ==> Destroying(op, i)
    ensures Inv(To(s, t, op))
  {
    var s' := To(s, t, op);
    forall u: nat | u < |s.threads| ensures ThreadOk(s', s'.threads[u]) {
      assert u != t ==> ThreadOk(s, s.threads[u]);
    }
    ThreadsFrame(s, s');
  }

  /** Hints that are kept, of io_cqs other than x, are as good as they were. */
  lemma HintsStay(s: State, s': State, t: nat, x: nat)
    requires HintsOk(s) && t < |s.threads| == |s'.threads|
    requires forall u: nat :: u < |s.threads| && u != t ==> s'.threads[u].op == s.threads[u].op
    requires forall i :: Destroying(s.threads[t].op, i) ==> i == x
    requires forall i :: i in s.icqs && i != x ==> i in s'.icqs && s'.icqs[i] == s.icqs[i] && (i in s'.gone <==> i in s.gone)
    requires forall i :: i in s.icqs && i != x && InTree(s.icqs, s.tree, i) ==> InTree(s'.icqs, s'.tree, i)
    requires forall c :: c in s'.hint ==> c in s.hint && s'.hint[c] == s.hint[c] && s.hint[c] != x
    ensures HintsOk(s')
  {
    hide InTree;
    forall c | c in s'.hint && !InTree(s'.icqs, s'.tree, s'.hint[c])
      ensures exists u: nat :: u < |s'.threads| && Destroying(s'.threads[u].op, s'.hint[c])
    {
      var u: nat :| u < |s.threads| && Destroying(s.threads[u].op, s.hint[c]);
      assert Destroying(s'.threads[u].op, s.hint[c]);
    }
  }

  /** A list agrees with the tree as before on every io_cq but x, for which it agrees or its thread is between the two. */
  lemma ListStays(s: State, s': State, t: nat, x: nat, queue: bool)
    requires ListOk(s, queue) && t < |s.threads| == |s'.threads|
    requires forall u: nat :: u < |s.threads| && u != t ==> s'.threads[u].op == s.threads[u].op
    requires forall i :: Between(s.threads[t].op, i, queue) ==> i == x
    requires forall i :: i in s'.icqs && i != x ==> i in s.icqs
    requires forall i :: i in Members(s', queue) ==> i in s'.icqs
    requires forall i :: i in s.icqs && i != x ==>
               (i in Members(s', queue) <==> i in Members(s, queue)) && (InTree(s'.icqs, s'.tree, i) <==> InTree(s.icqs, s.tree, i))
    requires x in s'.icqs && (x in Members(s', queue) <==> !InTree(s'.icqs, s'.tree, x)) ==> Between(s'.threads[t].op, x, queue)
    ensures ListOk(s', queue)
  {
    hide InTree, Members;
    forall j | j in s'.icqs && (j in Members(s', queue) <==> !InTree(s'.icqs, s'.tree, j))
      ensures exists u: nat :: u < |s'.threads| && Between(s'.threads[u].op, j, queue)
    {
      if j != x {
        var u: nat :| u < |s.threads| && Between(s.threads[u].op, j, queue);
        assert u != t && s'.threads[u].op == s.threads[u].op;
      }
    }
  }

  lemma WriteHintKeeps(s: State, t: nat)
    requires Inv(s) && t < |s.threads| && s.threads[t].op.WriteHint?
    ensures Inv(Run(s, t))
  {
    var (c, i) := (s.threads[t].op.c, s.threads[t].op.i);
    assert ThreadOk(s, s.threads[t]);
    MoveKeeps(s, t, Answer(c, Some(i)));
    var s1 := To(s, t, Answer(c, Some(i)));
    var s' := s1.(hint := s1.hint[c := i]);
    forall u: nat | u < |s'.threads| ensures ThreadOk(s', s'.threads[u]) { assert ThreadOk(s1, s1.threads[u]); }
    forall d | d in s'.hint ensures
      var j := s'.hint[d];
      && j in s'.icqs && s'.icqs[j].c == d && j !in s'.gone
      && (InTree(s'.icqs, s'.tree, j) || exists u: nat :: u < |s'.threads| && Destroying(s'.threads[u].op, j))
    {
      if d != c { assert s1.hint[d] == s'.hint[d]; }
    }
  }

  /** The io_cq a thread takes for being in the tree, or for being its own to link, unlink and destroy. */
  predicate About(op: Op, i: nat) {
    ((op.WriteHint? || op.LinkContext? || op.LinkQueue?) && op.i == i) || Destroying(op, i)
  }

  /** Any other thread at work on i would hold the queue lock of thread t. */
  lemma Alone(s: State, t: nat, u: nat, i: nat)
    requires Exclusive(s.threads) && t < |s.threads| && u < |s.threads|
    requires i in s.icqs && s.threads[t].q == Some(s.icqs[i].q) && ThreadOk(s, s.threads[u]) && About(s.threads[u].op, i)
    ensures u == t
  {}

  /** A thread in a call about another io_cq than x notices no change of x. */
  lemma ThreadStays(s: State, s': State, th: Thread, x: nat)
    requires ThreadOk(s, th) && !About(th.op, x)
    requires forall j :: j in s.icqs && j != x ==>
               && j in s'.icqs && s'.icqs[j] == s.icqs[j] && (InTree(s'.icqs, s'.tree, j) <==> InTree(s.icqs, s.tree, j))
               && (j in s'.ofContext <==> j in s.ofContext) && (j in s'.ofQueue <==> j in s.ofQueue)
    ensures ThreadOk(s', th)
  {
    hide InTree;
  }

  /** Thread t changes only x, whose queue it has locked. */
  lemma ThreadsStay(s: State, s': State, t: nat, x: nat)
    requires Exclusive(s.threads) && ThreadsOk(s) && t < |s.threads| == |s'.threads|
    requires forall u: nat :: u < |s.threads| && u != t ==> s'.threads[u] == s.threads[u]
    requires s'.threads[t].q == s.threads[t].q && s'.threads[t].c == s.threads[t].c && ThreadOk(s', s'.threads[t])
    requires x in s.icqs ==> s.threads[t].q == Some(s.icqs[x].q)
    requires forall j :: j in s.icqs && j != x ==>
               && j in s'.icqs && s'.icqs[j] == s.icqs[j] && (InTree(s'.icqs, s'.tree, j) <==> InTree(s.icqs, s.tree, j))
               && (j in s'.ofContext <==> j in s.ofContext) && (j in s'.ofQueue <==> j in s.ofQueue)
    ensures Exclusive(s'.threads) && ThreadsOk(s')
  {
    hide InTree, Exclusive;
    forall u: nat | u < |s.threads| ensures ThreadOk(s', s'.threads[u]) {
      if u != t {
        assert ThreadOk(s, s.threads[u]);
        if About(s.threads[u].op, x) { Alone(s, t, u, x); }
        hide About, ThreadOk;
        ThreadStays(s, s', s.threads[u], x);
      }
    }
    SameLocks(s.threads, s'.threads);
  }

  lemma SameLocks(threads: seq<Thread>, threads': seq<Thread>)
    requires Exclusive(threads) && |threads'| == |threads|
    requires forall u: nat :: u < |threads| ==> threads'[u].q == threads[u].q && threads'[u].c == threads[u].c
    ensures Exclusive(threads')
  {}

  predicate Listing(op: Op) { op.LinkContext? || op.LinkQueue? || op.UnlinkContext? || op.UnlinkQueue? }

  /** What writing a list changes: the list, of io_cq x, and the place of thread t. */
  lemma ListWritten(s: State, t: nat)
    requires t < |s.threads| && Listing(s.threads[t].op) && ThreadOk(s, s.threads[t])
    ensures var (s', x) := (Run(s, t), s.threads[t].op.i);
            && s' == s.(threads := s.threads[t := s.threads[t].(op := s'.threads[t].op)], ofContext := s'.ofContext, ofQueue := s'.ofQueue)
            && |s'.threads| == |s.threads| && ThreadOk(s', s'.threads[t])
            && (forall j :: j != x ==> (j in s'.ofContext <==> j in s.ofContext) && (j in s'.ofQueue <==> j in s.ofQueue))
            && (forall i :: Destroying(s.threads[t].op, i) ==> Destroying(s'.threads[t].op, i))
            && (InTree(s.icqs, s.tree, x) <==> !Destroying(s.threads[t].op, x))
            && (x in s'.ofContext <==> InTree(s.icqs, s.tree, x))
            && ((x in s'.ofQueue <==> InTree(s.icqs, s.tree, x)) || Between(s'.threads[t].op, x, true))
  {
    hide InTree;
  }

  lemma ListKeeps(s: State, t: nat)
    requires Inv(s) && t < |s.threads| && Listing(s.threads[t].op)
    ensures Inv(Run(s, t))
  {
    hide InTree, Exclusive, ThreadsOk, ThreadOk, Run, HintsOk, ListOk;
    var i := s.threads[t].op.i;
    ThreadIs(s, t);
    ListWritten(s, t);
    ListMembers(s);
    var s' := Run(s, t);
    ThreadsStay(s, s', t, i);
    HintsFrame(s, s', t);
    ListStays(s, s', t, i, false);
    ListStays(s, s', t, i, true);
    assert TreeOk(s');
  }

  lemma ListMembers(s: State)
    requires ListsOk(s)
    ensures forall j :: j in s.ofContext || j in s.ofQueue ==> j in s.icqs
  {
    assert Members(s, false) == s.ofContext && Members(s, true) == s.ofQueue;
    assert ListOk(s, false) && ListOk(s, true);
  }

  /** Hints are as good as before where trees are, and no thread gives up a destruction. */
  lemma HintsFrame(s: State, s': State, t: nat)
    requires HintsOk(s) && t < |s.threads| == |s'.threads|
    requires s'.icqs == s.icqs && s'.gone == s.gone && s'.tree == s.tree && s'.hint == s.hint
    requires forall u: nat :: u < |s.threads| && u != t ==> s'.threads[u].op == s.threads[u].op
    requires forall i :: Destroying(s.threads[t].op, i) ==> Destroying(s'.threads[t].op, i)
    ensures HintsOk(s')
  {
    forall c | c in s'.hint && !InTree(s.icqs, s.tree, s.hint[c])
      ensures exists u: nat :: u < |s'.threads| && Destroying(s'.threads[u].op, s.hint[c])
    {
      var u: nat :| u < |s.threads| && Destroying(s.threads[u].op, s.hint[c]);
      assert Destroying(s'.threads[u].op, s.hint[c]);
    }
  }

  /** Taking i out of the tree concerns no other thread: any that works on i would hold a lock of this one. */
  lemma UnlinkTreeKeeps(s: State, t: nat)
    requires Inv(s) && t < |s.threads| && s.threads[t].op.UnlinkTree?
    ensures Inv(Run(s, t))
  {
    var i := s.threads[t].op.i;
    assert ThreadOk(s, s.threads[t]);
    var s' := Run(s, t);
    assert forall j :: InTree(s'.icqs, s'.tree, j) <==> InTree(s.icqs, s.tree, j) && j != i;
    assert TreeOk(s');
    hide InTree, TreeOk, ThreadsOk, Exclusive;
    ThreadsStay(s, s', t, i);
    hide ThreadOk;
    assert Destroying(s'.threads[t].op, i);
    forall c | c in s'.hint && !InTree(s'.icqs, s'.tree, s'.hint[c])
      ensures exists u: nat :: u < |s'.threads| && Destroying(s'.threads[u].op, s'.hint[c])
    {
      if s.hint[c] != i {
        var u: nat :| u < |s.threads| && Destroying(s.threads[u].op, s.hint[c]);
        assert Destroying(s'.threads[u].op, s.hint[c]);
      }
    }
    hide HintsOk, Destroying;
    ListStays(s, s', t, i, false);
    ListStays(s, s', t, i, true);
  }

  /** The end of a destruction: the hint of the context is not i, and will not be again. */
  lemma GoneKeeps(s: State, t: nat, i: nat, hint: map<nat, nat>)
    requires Inv(s) && t < |s.threads| && (s.threads[t].op == CheckHint(i) || s.threads[t].op == ClearHint(i))
    requires forall c :: c in hint ==> c in s.hint && hint[c] == s.hint[c] && hint[c] != i
    ensures Inv(To(s.(hint := hint, gone := s.gone + {i}), t, Nothing))
  {
    assert ThreadOk(s, s.threads[t]);
    var s' := To(s.(hint := hint, gone := s.gone + {i}), t, Nothing);
    forall u: nat | u < |s.threads| ensures ThreadOk(s', s'.threads[u]) {
      assert ThreadOk(s, s.threads[u]);
    }
    HintsStay(s, s', t, i);
    ListStays(s, s', t, i, false);
    ListStays(s, s', t, i, true);
  }

  /** A new io_cq is in the tree, and changes nothing for the others. */
  lemma CreateTree(s: State, t: nat, i: nat)
    requires Inv(s) && Enabled(s, Create(t, i))
    ensures var s' := Next(s, Create(t, i));
            && (forall j :: j in s.icqs ==> j in s'.icqs && s'.icqs[j] == s.icqs[j])
            && (forall j :: j in s'.icqs ==> j in s.icqs || j == i)
            && (forall j :: InTree(s'.icqs, s'.tree, j) <==> InTree(s.icqs, s.tree, j) || j == i)
            && i !in s.icqs && i !in s.ofContext && i !in s.ofQueue && i !in s.gone && TreeOk(s')
  {
    ListMembers(s);
  }

  /** And all a creation changes otherwise is where its thread is. */
  lemma CreateShape(s: State, t: nat, i: nat)
    requires Inv(s) && Enabled(s, Create(t, i))
    ensures var s' := Next(s, Create(t, i));
            && t < |s.threads| && s'.threads == s.threads[t := s.threads[t].(op := LinkContext(i))] && Idle(s.threads[t].op)
            && s'.ofContext == s.ofContext && s'.ofQueue == s.ofQueue && s'.hint == s.hint && s'.gone == s.gone
            && ThreadOk(s', s'.threads[t])
  {}

  lemma CreateKeeps(s: State, t: nat, i: nat)
    requires Inv(s) && Enabled(s, Create(t, i))
    ensures Inv(Next(s, Create(t, i)))
  {
    hide InTree, TreeOk, ThreadsOk, Exclusive, Next, Enabled, ThreadOk, HintsOk, ListOk;
    CreateTree(s, t, i);
    CreateShape(s, t, i);
    ListMembers(s);
    var s' := Next(s, Create(t, i));
    ThreadsStay(s, s', t, i);
    assert forall j :: j in s.icqs ==> j != i;
    HintsStayed(s, s', t, i);
    ListStays(s, s', t, i, false);
    ListStays(s, s', t, i, true);
  }

  lemma HintsStayed(s: State, s': State, t: nat, i: nat)
    requires HintsOk(s) && t < |s.threads| && i !in s.icqs && Idle(s.threads[t].op)
    requires s'.threads == s.threads[t := s.threads[t].(op := LinkContext(i))] && s'.hint == s.hint && s'.gone == s.gone
    requires forall j :: j in s.icqs ==> j in s'.icqs && s'.icqs[j] == s.icqs[j]
    requires forall j :: InTree(s'.icqs, s'.tree, j) <==> InTree(s.icqs, s.tree, j) || j == i
    ensures HintsOk(s')
  {
    hide InTree;
    HintsStay(s, s', t, i);
  }

  lemma ThreadIs(s: State, t: nat)
    requires Inv(s) && t < |s.threads|
    ensures ThreadOk(s, s.threads[t])
    ensures s.threads[t].op.ReadHint? || s.threads[t].op.ReadTree? ==> s.threads[t].q.Some?
    ensures Listing(s.threads[t].op) ==> Both(s, s.threads[t], s.threads[t].op.i)
  {}

  lemma TreeEntry(s: State, c: nat, q: nat)
    requires Inv(s) && (c, q) in s.tree
    ensures var i := s.tree[(c, q)]; i in s.icqs && InTree(s.icqs, s.tree, i) && s.icqs[i] == Icq(c, q)
  {}

  lemma ReadKeeps(s: State, t: nat)
    requires Inv(s) && t < |s.threads| && (s.threads[t].op.ReadHint? || s.threads[t].op.ReadTree?)
    ensures Inv(Run(s, t))
  {
    hide Inv, InTree;
    var th := s.threads[t];
    ThreadIs(s, t);
    MoveKeeps(s, t, Answer(th.op.c, None));
    if th.op.ReadHint? {
      MoveKeeps(s, t, ReadTree(th.op.c));
      if th.op.c in s.hint { MoveKeeps(s, t, Answer(th.op.c, Some(s.hint[th.op.c]))); }
    } else if (th.op.c, th.q.value) in s.tree {
      TreeEntry(s, th.op.c, th.q.value);
      MoveKeeps(s, t, WriteHint(th.op.c, s.tree[(th.op.c, th.q.value)]));
    }
  }

  lemma HintCheckKeeps(s: State, t: nat)
    requires Inv(s) && t < |s.threads| && (s.threads[t].op.CheckHint? || s.threads[t].op.ClearHint?)
    ensures Inv(Run(s, t))
  {
    var i := s.threads[t].op.i;
    assert ThreadOk(s, s.threads[t]);
    var c := s.icqs[i].c;
    if s.threads[t].op.ClearHint? {
      GoneKeeps(s, t, i, s.hint - {c});
    } else if c in s.hint && s.hint[c] == i {
      MoveKeeps(s, t, ClearHint(i));
    } else {
      GoneKeeps(s, t, i, s.hint);
      assert s.(hint := s.hint, gone := s.gone + {i}) == s.(gone := s.gone + {i});
    }
  }

  /** With both locks held and no call under way, the tree and the lists agree on an io_cq. */
  lemma Settled(s: State, t: nat, i: nat)
    requires Inv(s) && t < |s.threads| && Idle(s.threads[t].op) && Both(s, s.threads[t], i)
    ensures (i in s.ofContext <==> InTree(s.icqs, s.tree, i)) && (i in s.ofQueue <==> InTree(s.icqs, s.tree, i))
  {
    hide InTree, HintsOk, TreeOk, Exclusive;
    forall u: nat, queue | u < |s.threads| ensures !Between(s.threads[u].op, i, queue) {
      assert ThreadOk(s, s.threads[u]);
      if Between(s.threads[u].op, i, queue) { Alone(s, t, u, i); }
    }
    assert ListOk(s, false) && ListOk(s, true);
  }

  lemma NextKeeps(s: State, a: Step)
    requires Inv(s) && Enabled(s, a)
    ensures Inv(Next(s, a))
  {
    if a.Go? {
      match s.threads[a.t].op
      case ReadHint(_) => ReadKeeps(s, a.t);
      case ReadTree(_) => ReadKeeps(s, a.t);
      case WriteHint(_, _) => WriteHintKeeps(s, a.t);
      case LinkContext(_) => ListKeeps(s, a.t);
      case LinkQueue(_) => ListKeeps(s, a.t);
      case UnlinkTree(_) => UnlinkTreeKeeps(s, a.t);
      case UnlinkContext(_) => ListKeeps(s, a.t);
      case UnlinkQueue(_) => ListKeeps(s, a.t);
      case CheckHint(_) => HintCheckKeeps(s, a.t);
      case ClearHint(_) => HintCheckKeeps(s, a.t);
    } else if a.Create? {
      CreateKeeps(s, a.t, a.i);
    } else if a.Destroy? {
      Settled(s, a.t, a.i);
      MoveKeeps(s, a.t, UnlinkTree(a.i));
    } else {
      LockKeeps(s, a);
    }
  }

  // ------------------------------------------------------- every interleaving

  predicate Legal(s: State, run: seq<Step>)
    decreases |run|
  {
    run == [] || (Enabled(s, run[0]) && Legal(Next(s, run[0]), run[1..]))
  }

  function After(s: State, run: seq<Step>): State
    requires Legal(s, run)
    decreases |run|
  {
    if run == [] then s else After(Next(s, run[0]), run[1..])
  }

  lemma {:induction false} RunKeeps(s: State, run: seq<Step>)
    requires Inv(s) && Legal(s, run)
    ensures Inv(After(s, run))
    decreases |run|
  {
    hide Inv, Next;
    if run != [] {
      NextKeeps(s, run[0]);
      RunKeeps(Next(s, run[0]), run[1..]);
    }
  }

  /** In every interleaving the hint of a context never names a destroyed io_cq. */
  lemma HintNotGone(threads: nat, run: seq<Step>, c: nat)
    requires Legal(Init(threads), run)
    ensures var s := After(Init(threads), run);
            c in s.hint ==> s.hint[c] in s.icqs && s.icqs[s.hint[c]].c == c && s.hint[c] !in s.gone
  {
    InitOk(threads);
    RunKeeps(Init(threads), run);
  }

  /** A hint of this queue is in the tree: a thread destroying it would hold the queue lock. */
  lemma HintHere(s: State, t: nat, c: nat)
    requires Inv(s) && t < |s.threads| && s.threads[t].op == ReadHint(c) && c in s.hint
    ensures var (i, q) := (s.hint[c], s.threads[t].q);
            && q.Some? && i in s.icqs && s.icqs[i].c == c
            && (s.icqs[i].q == q.value ==> InTree(s.icqs, s.tree, i))
  {
    hide InTree, ListsOk, TreeOk, Exclusive;
    var i := s.hint[c];
    assert ThreadOk(s, s.threads[t]);
    if s.icqs[i].q == s.threads[t].q.value {
      forall u: nat | u < |s.threads| ensures !Destroying(s.threads[u].op, i) {
        assert ThreadOk(s, s.threads[u]);
        if Destroying(s.threads[u].op, i) { Alone(s, t, u, i); }
      }
    }
  }

  /** With the queue locked, an io_cq for it found through the hint is the one the tree holds. */
  lemma HintIsTree(threads: nat, run: seq<Step>, t: nat)
    requires Legal(Init(threads), run)
    ensures var s := After(Init(threads), run);
            t < |s.threads| && s.threads[t].op.ReadHint? && s.threads[t].op.c in s.hint ==>
              var (c, th) := (s.threads[t].op.c, s.threads[t]);
              && th.q.Some? && s.hint[c] in s.icqs
              && (s.icqs[s.hint[c]].q == th.q.value ==> (c, th.q.value) in s.tree && s.tree[(c, th.q.value)] == s.hint[c])
  {
    InitOk(threads);
    RunKeeps(Init(threads), run);
    var s := After(Init(threads), run);
    hide After, Legal, Inv;
    if t < |s.threads| && s.threads[t].op.ReadHint? && s.threads[t].op.c in s.hint {
      HintHere(s, t, s.threads[t].op.c);
    }
  }

  /** If thread t comes by an answer between s and s', it looked a context up and the tree of both states holds the answer. */
  predicate Answered(s: State, s': State, t: nat) {
    t < |s.threads| == |s'.threads| && !Idle(s.threads[t].op) && s'.threads[t].op.Answer? ==>
      var (th, a) := (s.threads[t], s'.threads[t].op);
      && (th.op.ReadHint? || th.op.ReadTree? || th.op.WriteHint?) && th.op.c == a.c && th.q.Some?
      && a.found == (if (a.c, th.q.value) in s.tree then Some(s.tree[(a.c, th.q.value)]) else None)
      && s'.tree == s.tree
  }

  lemma ReadAnswers(s: State, t: nat)
    requires Inv(s) && t < |s.threads| && (s.threads[t].op.ReadHint? || s.threads[t].op.ReadTree? || s.threads[t].op.WriteHint?)
    ensures Answered(s, Run(s, t), t)
  {
    assert ThreadOk(s, s.threads[t]);
    var op := s.threads[t].op;
    hide Exclusive, ListsOk, HintsOk, TreeOk, ThreadsOk;
    if op.ReadHint? && op.c in s.hint { HintHere(s, t, op.c); }
  }

  lemma OthersAnswer(s: State, t: nat)
    requires t < |s.threads| && !(s.threads[t].op.ReadHint? || s.threads[t].op.ReadTree? || s.threads[t].op.WriteHint?)
    ensures Idle(s.threads[t].op) || (|Run(s, t).threads| == |s.threads| && !Run(s, t).threads[t].op.Answer?)
  {}

  /**
    In every interleaving a lookup for a context, with the queue locked, answers with the io_cq of that context and
    queue in the tree, and with none if and only if there is none.
  */
  lemma LookupExact(threads: nat, run: seq<Step>, t: nat)
    requires Legal(Init(threads), run)
    ensures var s := After(Init(threads), run); t < |s.threads| ==> Answered(s, Run(s, t), t)
  {
    InitOk(threads);
    RunKeeps(Init(threads), run);
    var s := After(Init(threads), run);
    hide After, Legal, Inv, Run;
    if t < |s.threads| {
      if s.threads[t].op.ReadHint? || s.threads[t].op.ReadTree? || s.threads[t].op.WriteHint? {
        hide Answered;
        ReadAnswers(s, t);
      } else {
        OthersAnswer(s, t);
      }
    }
  }

  /** Tree, context list and queue list agree on every io_cq that no thread is linking or unlinking. */
  lemma SameEntries(threads: nat, run: seq<Step>, i: nat)
    requires Legal(Init(threads), run)
    ensures var s := After(Init(threads), run);
            i in s.icqs && (forall t: nat :: t < |s.threads| ==> !Between(s.threads[t].op, i, true)) ==>
              (i in s.ofContext <==> i in s.ofQueue) && (i in s.ofContext <==> InTree(s.icqs, s.tree, i))
  {
    InitOk(threads);
    RunKeeps(Init(threads), run);
    var s := After(Init(threads), run);
    hide After, Legal, InTree;
    assert ListOk(s, false) && ListOk(s, true);
    assert forall op, j :: Between(op, j, false) ==> Between(op, j, true);
  }

  /**
    Whoever holds both locks of an io_cq and no call of its own under way finds it on both lists and in
    the tree, or in none of the three: what ioc_clear_queue and ioc_release_fn take off a list is still in the tree.
  */
  lemma AllOrNone(threads: nat, run: seq<Step>, t: nat, i: nat)
    requires Legal(Init(threads), run)
    ensures var s := After(Init(threads), run);
            t < |s.threads| && Idle(s.threads[t].op) && Both(s, s.threads[t], i) ==>
              (i in s.ofContext <==> i in s.ofQueue) && (i in s.ofContext <==> InTree(s.icqs, s.tree, i))
  {
    InitOk(threads);
    RunKeeps(Init(threads), run);
    var s := After(Init(threads), run);
    hide After, Legal, InTree, Inv;
    if t < |s.threads| && Idle(s.threads[t].op) && Both(s, s.threads[t], i) {
      Settled(s, t, i);
    }
  }
}
