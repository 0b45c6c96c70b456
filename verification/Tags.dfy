/**
  A tag map shared between request queues (block/blk-tag.c). Each queue runs one
  call of blk_queue_start_tag or blk_queue_end_tag at a time, under its own
  lock; the bitmap and the slots are shared, and the calls of different queues
  interleave bit by bit.
*/
module Tags {
  import opened Lists

  /** A request, with the queue it belongs to; rq_is_sync. */
  datatype Request = Request(q: nat, n: nat, sync: bool)

  /** Where a queue is in a call. */
  datatype Pc =
    | Idle
    | Scanning(rq: Request, depth: nat, i: nat)   // find_first_zero_bit, about to read bit i
    | Found(rq: Request, depth: nat, tag: nat)    // about to test and set the bit
    | Won(rq: Request, tag: nat)                  // about to store the slot
    | Ending(rq: Request, tag: nat)               // about to clear the slot
    | Cleared(rq: Request, tag: nat)              // about to clear the bit

  /** The bitmap, tag_index, the queues, and the tag of every REQ_QUEUED request. `bug` is any complaint of the code. */
  datatype State = State(bits: seq<bool>, slots: seq<Option<Request>>, pcs: seq<Pc>, tags: map<Request, nat>, bug: bool)

  function Init(depth: nat, queues: nat): State {
    State(seq(depth, _ => false), seq(depth, _ => None), seq(queues, _ => Idle), map[], false)
  }

  /** The part of the map a request may use: all but two tags for an async one, but at least one. */
  function Depth(depth: nat, sync: bool): nat {
    if sync || depth <= 1 then depth else if depth == 2 then 1 else depth - 2
  }

  datatype Step =
    | Start(rq: Request)
    | Scan(q: nat)
    | TestAndSet(q: nat)
    | Store(q: nat)
    | End(rq: Request)
    | ClearSlot(q: nat)
    | ClearBit(q: nat)

  predicate Enabled(s: State, a: Step) {
    match a
    case Start(rq) => rq.q < |s.pcs| && s.pcs[rq.q].Idle? && rq !in s.tags
    case Scan(q) => q < |s.pcs| && s.pcs[q].Scanning?
    case TestAndSet(q) => q < |s.pcs| && s.pcs[q].Found?
    case Store(q) => q < |s.pcs| && s.pcs[q].Won?
    case End(rq) => rq.q < |s.pcs| && s.pcs[rq.q].Idle? && rq in s.tags
    case ClearSlot(q) => q < |s.pcs| && s.pcs[q].Ending?
    case ClearBit(q) => q < |s.pcs| && s.pcs[q].Cleared?
  }

  function Move(s: State, q: nat, pc: Pc): State
    requires q < |s.pcs|
  {
    s.(pcs := s.pcs[q := pc])
  }

  function Next(s: State, a: Step): State
    requires Enabled(s, a)
  {
    match a
    case Start(rq) => Move(s, rq.q, Scanning(rq, Depth(|s.bits|, rq.sync), 0))
    case Scan(q) =>
      var pc := s.pcs[q];
      if pc.i >= pc.depth || pc.i >= |s.bits| then Move(s, q, Idle)
      else if s.bits[pc.i] then Move(s, q, pc.(i := pc.i + 1))
      else Move(s, q, Found(pc.rq, pc.depth, pc.i))
    case TestAndSet(q) =>
      var pc := s.pcs[q];
      if pc.tag >= |s.bits| then s.(bug := true)
      else if s.bits[pc.tag] then Move(s, q, Scanning(pc.rq, pc.depth, 0))
      else Move(s.(bits := s.bits[pc.tag := true]), q, Won(pc.rq, pc.tag))
    case Store(q) =>
      var pc := s.pcs[q];
      if pc.tag >= |s.slots| then s.(bug := true)
      else Move(s.(slots := s.slots[pc.tag := Some(pc.rq)], tags := s.tags[pc.rq := pc.tag]), q, Idle)
    case End(rq) => Move(s.(tags := s.tags - {rq}, bug := s.bug || s.tags[rq] >= |s.bits|), rq.q, Ending(rq, s.tags[rq]))
    case ClearSlot(q) =>
      var pc := s.pcs[q];
      if pc.tag >= |s.slots| then s.(bug := true)
      else
        Move(s.(slots := s.slots[pc.tag := None], bug := s.bug || s.slots[pc.tag].None?), q, Cleared(pc.rq, pc.tag))
    case ClearBit(q) =>
      var pc := s.pcs[q];
      if pc.tag >= |s.bits| || !s.bits[pc.tag] then Move(s.(bug := true), q, Idle)
      else Move(s.(bits := s.bits[pc.tag := false]), q, Idle)
  }

  // --------------------------------------------------------------- ownership

  /** An owner of a tag: a queue in the middle of a call, or a started request. */
  datatype Owner = Queue(q: nat) | Started(rq: Request)

  predicate Holds(pc: Pc, tag: nat) { (pc.Won? || pc.Ending? || pc.Cleared?) && pc.tag == tag }

  predicate Owns(s: State, o: Owner, tag: nat) {
    match o
    case Queue(q) => q < |s.pcs| && Holds(s.pcs[q], tag)
    case Started(rq) => rq in s.tags && s.tags[rq] == tag
  }

  /** What the slot of a tag holds, given its owner. */
  function Slot(s: State, o: Owner): Option<Request> {
    match o
    case Started(rq) => Some(rq)
    case Queue(q) => if q < |s.pcs| && s.pcs[q].Ending? then Some(s.pcs[q].rq) else None
  }

  ghost predicate OneOwner(s: State) {
    forall o, p, tag: nat :: Owns(s, o, tag) && Owns(s, p, tag) ==> o == p
  }

  /** A bit is set exactly when its tag has an owner. */
  ghost predicate BitsOwned(s: State) {
    && (forall o, tag: nat :: Owns(s, o, tag) ==> tag < |s.bits| && s.bits[tag])
    && (forall tag: nat :: tag < |s.bits| && s.bits[tag] ==> exists o :: Owns(s, o, tag))
  }

  /** A slot holds what its owner put there, and is null without one. */
  ghost predicate SlotsOwned(s: State) {
    && (forall o, tag: nat :: Owns(s, o, tag) && tag < |s.slots| ==> s.slots[tag] == Slot(s, o))
    && (forall tag: nat :: tag < |s.slots| && tag < |s.bits| && !s.bits[tag] ==> s.slots[tag].None?)
  }

  /** Queues handle their own requests, and none that is started already. */
  ghost predicate OwnRequests(s: State) {
    forall q: nat :: q < |s.pcs| && !s.pcs[q].Idle? ==> s.pcs[q].rq.q == q && s.pcs[q].rq !in s.tags
  }

  ghost predicate Inv(s: State) {
    && |s.slots| == |s.bits|
    && OneOwner(s) && BitsOwned(s) && SlotsOwned(s) && OwnRequests(s)
    && (forall rq :: rq in s.tags ==> rq.q < |s.pcs|)
    && (forall q: nat :: q < |s.pcs| && s.pcs[q].Found? ==> s.pcs[q].tag < |s.bits|)
    && !s.bug
  }

  lemma InitOk(depth: nat, queues: nat)
    ensures Inv(Init(depth, queues))
  {}

  /** A step that changes no bit, slot or started request, and by which no queue gains or gives up a tag. */
  lemma QuietKeeps(s: State, q: nat, pc: Pc)
    requires Inv(s) && q < |s.pcs| && !(s.pcs[q].Won? || s.pcs[q].Ending? || s.pcs[q].Cleared?)
    requires !(pc.Won? || pc.Ending? || pc.Cleared?)
    requires !pc.Idle? ==> pc.rq.q == q && pc.rq !in s.tags
    requires pc.Found? ==> pc.tag < |s.bits|
    ensures Inv(Move(s, q, pc))
  {
    var s' := Move(s, q, pc);
    assert forall o, tag: nat :: Owns(s', o, tag) <==> Owns(s, o, tag);
    assert forall o, tag: nat :: Owns(s, o, tag) ==> Slot(s', o) == Slot(s, o);
  }

  /** Winning a clear bit makes the queue its first and only owner. */
  lemma WinKeeps(s: State, q: nat)
    requires Inv(s) && Enabled(s, TestAndSet(q)) && !s.bits[s.pcs[q].tag]
    ensures Inv(Next(s, TestAndSet(q)))
  {
    var t := s.pcs[q].tag;
    var s' := Next(s, TestAndSet(q));
    assert forall o, tag: nat :: Owns(s', o, tag) <==> Owns(s, o, tag) || (o == Queue(q) && tag == t);
    assert forall o, tag: nat :: Owns(s, o, tag) ==> tag != t && Slot(s', o) == Slot(s, o);
    assert Owns(s', Queue(q), t);
  }

  /** Storing the slot passes the tag from the queue to the request, over a null slot. */
  lemma StoreKeeps(s: State, q: nat)
    requires Inv(s) && Enabled(s, Store(q))
    ensures Inv(Next(s, Store(q)))
    ensures s.pcs[q].tag < |s.slots| && s.slots[s.pcs[q].tag].None?
  {
    var rq, t := s.pcs[q].rq, s.pcs[q].tag;
    assert Owns(s, Queue(q), t);
    var s' := Next(s, Store(q));
    assert forall o, tag: nat :: Owns(s', o, tag) <==> (Owns(s, o, tag) && o != Queue(q)) || (o == Started(rq) && tag == t);
    assert forall o, tag: nat :: Owns(s, o, tag) && o != Queue(q) ==> tag != t && o != Started(rq) && Slot(s', o) == Slot(s, o);
    assert Owns(s', Started(rq), t);
    forall p: nat | p < |s'.pcs| && !s'.pcs[p].Idle? ensures s'.pcs[p].rq.q == p && s'.pcs[p].rq !in s'.tags {
      assert s'.pcs[p] == s.pcs[p];
    }
  }

  /** Ending a request passes its tag back to the queue. */
  lemma EndKeeps(s: State, rq: Request)
    requires Inv(s) && Enabled(s, End(rq))
    ensures Inv(Next(s, End(rq)))
  {
    var t, q := s.tags[rq], rq.q;
    assert Owns(s, Started(rq), t);
    var s' := Next(s, End(rq));
    assert forall o, tag: nat :: Owns(s', o, tag) <==> (Owns(s, o, tag) && o != Started(rq)) || (o == Queue(q) && tag == t);
    assert forall o, tag: nat :: Owns(s, o, tag) && o != Started(rq) ==> tag != t && o != Queue(q) && Slot(s', o) == Slot(s, o);
    assert Owns(s', Queue(q), t) && Slot(s', Queue(q)) == Some(rq);
    forall tag: nat | tag < |s'.bits| && s'.bits[tag] ensures exists o :: Owns(s', o, tag) {
      var o :| Owns(s, o, tag);
      if o != Started(rq) { assert Owns(s', o, tag); }
    }
  }

  lemma ClearSlotKeeps(s: State, q: nat)
    requires Inv(s) && Enabled(s, ClearSlot(q))
    ensures Inv(Next(s, ClearSlot(q)))
    ensures s.pcs[q].tag < |s.slots| && s.slots[s.pcs[q].tag] == Some(s.pcs[q].rq)
  {
    var t := s.pcs[q].tag;
    assert Owns(s, Queue(q), t);
    var s' := Next(s, ClearSlot(q));
    assert forall o, tag: nat :: Owns(s', o, tag) <==> Owns(s, o, tag);
    assert forall o, tag: nat :: Owns(s, o, tag) && o != Queue(q) ==> tag != t && Slot(s', o) == Slot(s, o);
  }

  lemma ClearBitKeeps(s: State, q: nat)
    requires Inv(s) && Enabled(s, ClearBit(q))
    ensures Inv(Next(s, ClearBit(q)))
  {
    var t := s.pcs[q].tag;
    assert Owns(s, Queue(q), t);
    var s' := Next(s, ClearBit(q));
    assert forall o, tag: nat :: Owns(s', o, tag) <==> Owns(s, o, tag) && o != Queue(q);
    assert forall o, tag: nat :: Owns(s, o, tag) && o != Queue(q) ==> tag != t && Slot(s', o) == Slot(s, o);
    forall tag: nat | tag < |s'.bits| && s'.bits[tag] ensures exists o :: Owns(s', o, tag) {
      var o :| Owns(s, o, tag);
      assert Owns(s', o, tag);
    }
  }

  lemma NextKeeps(s: State, a: Step)
    requires Inv(s) && Enabled(s, a)
    ensures Inv(Next(s, a))
  {
    match a
    case Start(rq) => QuietKeeps(s, rq.q, Scanning(rq, Depth(|s.bits|, rq.sync), 0));
    case Scan(q) =>
      var pc := s.pcs[q];
      if pc.i >= pc.depth || pc.i >= |s.bits| { QuietKeeps(s, q, Idle); }
      else if s.bits[pc.i] { QuietKeeps(s, q, pc.(i := pc.i + 1)); }
      else { QuietKeeps(s, q, Found(pc.rq, pc.depth, pc.i)); }
    case TestAndSet(q) =>
      var pc := s.pcs[q];
      if s.bits[pc.tag] { QuietKeeps(s, q, Scanning(pc.rq, pc.depth, 0)); } else { WinKeeps(s, q); }
    case Store(q) => StoreKeeps(s, q);
    case End(rq) => EndKeeps(s, rq);
    case ClearSlot(q) => ClearSlotKeeps(s, q);
    case ClearBit(q) => ClearBitKeeps(s, q);
  }

  // ------------------------------------------------------- every interleaving

  predicate Legal(s: State, run: seq<Step>)
    decreases |run|
  {
    run == [] || (Enabled(s, run[0]) && Legal(Next(s, run[0]), run[1..]))
  }

  function After(s: State, run: seq<Step>): State
    requires Legal(s, run)
    decreases |run|
  {
    if run == [] then s else After(Next(s, run[0]), run[1..])
  }

  lemma {:induction false} RunKeeps(s: State, run: seq<Step>)
    requires Inv(s) && Legal(s, run)
    ensures Inv(After(s, run))
    decreases |run|
  {
    hide Inv, Next;
    if run != [] {
      NextKeeps(s, run[0]);
      RunKeeps(Next(s, run[0]), run[1..]);
    }
  }

  /**
    After any interleaving: a set bit has exactly one owner, a clear bit has a null slot, a started
    request is in its slot, and none of the code's complaints was made.
  */
  lemma TagsSafe(depth: nat, queues: nat, run: seq<Step>, tag: nat)
    requires Legal(Init(depth, queues), run) && tag < depth
    ensures var s := After(Init(depth, queues), run);
            && |s.bits| == |s.slots| == depth && !s.bug
            && (s.bits[tag] <==> exists o :: Owns(s, o, tag))
            && (forall o, p :: Owns(s, o, tag) && Owns(s, p, tag) ==> o == p)
            && (!s.bits[tag] ==> s.slots[tag].None?)
            && (forall rq :: rq in s.tags && s.tags[rq] == tag ==> s.slots[tag] == Some(rq))
  {
    InitOk(depth, queues);
    RunKeeps(Init(depth, queues), run);
    Lengths(Init(depth, queues), run);
    var s := After(Init(depth, queues), run);
    hide After, Legal, Init;
    forall rq | rq in s.tags && s.tags[rq] == tag ensures s.slots[tag] == Some(rq) {
      assert Owns(s, Started(rq), tag);
    }
  }

  lemma {:induction false} Lengths(s: State, run: seq<Step>)
    requires Legal(s, run)
    ensures |After(s, run).bits| == |s.bits|
    decreases |run|
  {
    if run != [] { Lengths(Next(s, run[0]), run[1..]); }
  }

  /** A started request stays in its slot through every step but its own end: nothing overwrites it. */
  lemma NeverOverwritten(s: State, a: Step, rq: Request)
    requires Inv(s) && Enabled(s, a) && rq in s.tags && a != End(rq)
    ensures var s' := Next(s, a);
            rq in s'.tags && s'.tags[rq] == s.tags[rq] && s.tags[rq] < |s'.slots| && s'.slots[s.tags[rq]] == Some(rq)
  {
    NextKeeps(s, a);
    var s' := Next(s, a);
    if a.Store? { assert s.pcs[a.q].rq !in s.tags; }
    assert rq in s'.tags && s'.tags[rq] == s.tags[rq];
    assert Owns(s', Started(rq), s.tags[rq]);
  }

  // ------------------------------------------------------- which tag is taken

  /** A queue about to start a request keeps to the request's part of the map. */
  predicate Keeping(pc: Pc, n: nat) {
    && (pc.Scanning? || pc.Found? ==> pc.depth == Depth(n, pc.rq.sync))
    && (pc.Found? || pc.Won? ==> pc.tag < Depth(n, pc.rq.sync))
  }

  ghost predicate Reserved(s: State) {
    && (forall rq :: rq in s.tags ==> s.tags[rq] < Depth(|s.bits|, rq.sync))
    && (forall q: nat :: q < |s.pcs| ==> Keeping(s.pcs[q], |s.bits|))
  }

  lemma MoveReserved(s: State, s': State, q: nat)
    requires Reserved(s) && q < |s.pcs| == |s'.pcs| && s'.pcs == s.pcs[q := s'.pcs[q]] && |s'.bits| == |s.bits|
    requires Keeping(s'.pcs[q], |s.bits|)
    requires forall rq :: rq in s'.tags ==> (rq in s.tags && s'.tags[rq] == s.tags[rq]) || s'.tags[rq] < Depth(|s.bits|, rq.sync)
    ensures Reserved(s')
  {
    hide Keeping, Depth;
  }

  lemma NextReserved(s: State, a: Step)
    requires Reserved(s) && Enabled(s, a)
    ensures Reserved(Next(s, a)) && |Next(s, a).bits| == |s.bits|
  {
    var q := if a.Start? || a.End? then a.rq.q else a.q;
    assert Keeping(s.pcs[q], |s.bits|);
    hide Reserved, Depth;
    MoveReserved(s, Next(s, a), q);
  }

  lemma {:induction false} RunReserved(s: State, run: seq<Step>)
    requires Reserved(s) && Legal(s, run)
    ensures Reserved(After(s, run)) && |After(s, run).bits| == |s.bits|
    decreases |run|
  {
    if run != [] {
      hide Reserved, Next, Enabled;
      NextReserved(s, run[0]);
      RunReserved(Next(s, run[0]), run[1..]);
    }
  }

  /** In every interleaving the last two tags are for synchronous requests, of a map with more than two. */
  lemma AsyncReserve(depth: nat, queues: nat, run: seq<Step>, rq: Request)
    requires Legal(Init(depth, queues), run) && depth > 1 && !rq.sync
    ensures var s := After(Init(depth, queues), run);
            rq in s.tags ==> if depth > 2 then s.tags[rq] < depth - 2 else s.tags[rq] == 0
  {
    RunReserved(Init(depth, queues), run);
    hide After, Legal;
  }

  /** Bit k is clear, and the bits from i up to it are set. */
  predicate FirstClear(bits: seq<bool>, i: nat, k: nat) {
    i <= k < |bits| && !bits[k] && forall j :: i <= j < k ==> bits[j]
  }

  lemma {:induction false} ScanFinds(s: State, q: nat, k: nat) returns (run: seq<Step>)
    requires q < |s.pcs| && s.pcs[q].Scanning? && FirstClear(s.bits, s.pcs[q].i, k) && k < s.pcs[q].depth
    ensures Legal(s, run) && After(s, run) == Move(s, q, Found(s.pcs[q].rq, s.pcs[q].depth, k))
    decreases k - s.pcs[q].i
  {
    var s1 := Next(s, Scan(q));
    if s.pcs[q].i == k {
      run := [Scan(q)];
    } else {
      var rest := ScanFinds(s1, q, k);
      run := [Scan(q)] + rest;
      assert s1.pcs[q := Found(s.pcs[q].rq, s.pcs[q].depth, k)] == s.pcs[q := Found(s.pcs[q].rq, s.pcs[q].depth, k)];
    }
  }

  lemma {:induction false} ScanFails(s: State, q: nat) returns (run: seq<Step>)
    requires q < |s.pcs| && s.pcs[q].Scanning? && forall j :: s.pcs[q].i <= j < |s.bits| && j < s.pcs[q].depth ==> s.bits[j]
    ensures Legal(s, run) && After(s, run) == Move(s, q, Idle)
    decreases |s.bits| - s.pcs[q].i
  {
    var s1 := Next(s, Scan(q));
    if s.pcs[q].i >= s.pcs[q].depth || s.pcs[q].i >= |s.bits| {
      run := [Scan(q)];
    } else {
      var rest := ScanFails(s1, q);
      run := [Scan(q)] + rest;
      assert s1.pcs[q := Idle] == s.pcs[q := Idle];
    }
  }

  lemma {:induction false} Joined(s: State, a: seq<Step>, b: seq<Step>)
    requires Legal(s, a) && Legal(After(s, a), b)
    ensures Legal(s, a + b) && After(s, a + b) == After(After(s, a), b)
    decreases |a|
  {
    hide Next, Enabled;
    if a == [] {
      assert a + b == b;
    } else {
      Joined(Next(s, a[0]), a[1..], b);
      assert (a + b)[1..] == a[1..] + b;
    }
  }

  lemma TwoSteps(s: State, a: Step, b: Step)
    requires Enabled(s, a) && Enabled(Next(s, a), b)
    ensures Legal(s, [a, b]) && After(s, [a, b]) == Next(Next(s, a), b)
  {
    hide Next, Enabled;
    var s1 := Next(s, a);
    assert [a, b][1..] == [b] && [b][1..] == [];
    assert Legal(Next(s1, b), []) && After(Next(s1, b), []) == Next(s1, b);
    assert Legal(s1, [b]) && After(s1, [b]) == Next(s1, b);
  }

  lemma Wins(s: State, q: nat) returns (run: seq<Step>)
    requires |s.slots| == |s.bits| && q < |s.pcs| && s.pcs[q].Found? && s.pcs[q].tag < |s.bits| && !s.bits[s.pcs[q].tag]
    ensures var (rq, t) := (s.pcs[q].rq, s.pcs[q].tag);
            && Legal(s, run)
            && After(s, run) == Move(s, q, Idle).(bits := s.bits[t := true], slots := s.slots[t := Some(rq)], tags := s.tags[rq := t])
  {
    run := [TestAndSet(q), Store(q)];
    var s1 := Next(s, TestAndSet(q));
    assert Enabled(s1, Store(q));
    var s2 := Next(s1, Store(q));
    assert s2.pcs == s.pcs[q := Idle];
    TwoSteps(s, TestAndSet(q), Store(q));
  }

  /**
    A start that no other queue gets in between of takes the first clear bit of its part of the map, all of it for a
    synchronous request and all but two bits for another, at least one.
  */
  lemma StartTakesFirst(s: State, rq: Request, k: nat) returns (run: seq<Step>)
    requires |s.slots| == |s.bits| && Enabled(s, Start(rq)) && FirstClear(s.bits, 0, k)
    requires rq.sync || k == 0 || k + 2 < |s.bits|
    ensures Legal(s, run)
    ensures After(s, run) == s.(bits := s.bits[k := true], slots := s.slots[k := Some(rq)], tags := s.tags[rq := k])
  {
    var q := rq.q;
    var s1 := Next(s, Start(rq));
    var a := ScanFinds(s1, q, k);
    var s2 := After(s1, a);
    var b := Wins(s2, q);
    Joined(s1, a, b);
    run := [Start(rq)] + (a + b);
    assert run[1..] == a + b;
    assert s2.pcs[q := Idle] == s.pcs;
  }

  /** Such a start fails, and changes nothing, if every bit of its part is set. */
  lemma StartFails(s: State, rq: Request) returns (run: seq<Step>)
    requires Enabled(s, Start(rq))
    requires forall k :: 0 <= k < |s.bits| && (rq.sync || k == 0 || k + 2 < |s.bits|) ==> s.bits[k]
    ensures Legal(s, run) && After(s, run) == s
  {
    var s1 := Next(s, Start(rq));
    var a := ScanFails(s1, rq.q);
    run := [Start(rq)] + a;
    assert run[1..] == a;
    assert s1.pcs[rq.q := Idle] == s.pcs;
  }
}
