/**
  The deadline scheduler (block/deadline-iosched.c): requests indexed by sector
  and by expiry, dispatched in batches, with reads preferred to writes.
*/
module Deadline {
  import opened Lists

  datatype Dir = Read | Write

  datatype Request = Request(pos: nat, sectors: nat, dir: Dir, expire: nat)

  /** sort_list, fifo_list and next_rq of one direction, over request identities. */
  datatype Side = Side(sort: seq<nat>, fifo: seq<nat>, next: Option<nat>)

  /** Tunables. */
  datatype Tuning = Tuning(readExpire: nat, writeExpire: nat, fifoBatch: nat, writesStarved: nat) {
    function Expire(d: Dir): nat { if d == Read then readExpire else writeExpire }
  }

  /** deadline_data, with the dispatch queue, nr_sorted and the jiffies; `bug` is set on a BUG_ON or a stale pointer. */
  datatype State = State(
    rqs: map<nat, Request>, rd: Side, wr: Side, batching: nat, starved: nat, lastSector: nat,
    nrSorted: int, out: seq<nat>, now: nat, bug: bool)
  {
    function Of(d: Dir): Side { if d == Read then rd else wr }
    function With(d: Dir, side: Side): State { if d == Read then this.(rd := side) else this.(wr := side) }
  }

  const INIT := State(map[], Side([], [], None), Side([], [], None), 0, 0, 0, 0, [], 0, false)

  // --------------------------------------------------------------- sequences

  function Pos(rqs: map<nat, Request>, x: nat): nat { if x in rqs then rqs[x].pos else 0 }

  function Expiry(rqs: map<nat, Request>, x: nat): nat { if x in rqs then rqs[x].expire else 0 }

  /** Where elv_rb_add links a request at sector p: after every request at or before p. */
  function Place(rqs: map<nat, Request>, s: seq<nat>, p: nat): (k: nat)
    ensures k <= |s|
  {
    if s == [] || p < Pos(rqs, s[0]) then 0 else 1 + Place(rqs, s[1..], p)
  }

  function RbAdd(rqs: map<nat, Request>, s: seq<nat>, x: nat): seq<nat> {
    var k := Place(rqs, s, Pos(rqs, x));
    s[..k] + [x] + s[k..]
  }

  /** rb_next. */
  function Latter(s: seq<nat>, x: nat): Option<nat> {
    if |s| < 2 then None else if s[0] == x then Some(s[1]) else Latter(s[1..], x)
  }

  /** list_move of x to just behind y. */
  function MoveBehind(s: seq<nat>, x: nat, y: nat): seq<nat> { InsertBehind(Remove(s, x), x, y) }

  function InsertBehind(s: seq<nat>, x: nat, y: nat): seq<nat> {
    if s == [] then [x] else if s[0] == y then [y, x] + s[1..] else [s[0]] + InsertBehind(s[1..], x, y)
  }

  // -------------------------------------------------------------- operations

  /** deadline_del_rq_rb with rq_fifo_clear: deadline_remove_request. */
  function RemoveFrom(side: Side, x: nat): Side {
    Side(Remove(side.sort, x), Remove(side.fifo, x),
         if side.next == Some(x) then Latter(side.sort, x) else side.next)
  }

  /** Sorted insertion: __elv_add_request and deadline_add_request. */
  function Add(t: Tuning, s: State, x: nat, pos: nat, sectors: nat, d: Dir): State {
    var rqs := s.rqs[x := Request(pos, sectors, d, s.now + t.Expire(d))];
    var side := s.Of(d);
    s.(rqs := rqs, nrSorted := s.nrSorted + 1)
     .With(d, side.(sort := RbAdd(rqs, side.sort, x), fifo := side.fifo + [x]))
  }

  /** A bio of n sectors put before x: deadline_merged_request repositions it. */
  function FrontMerge(s: State, x: nat, n: nat): State
    requires x in s.rqs && n <= s.rqs[x].pos
  {
    var rq := s.rqs[x];
    var rqs := s.rqs[x := rq.(pos := rq.pos - n, sectors := rq.sectors + n)];
    var side := s.Of(rq.dir);
    s.(rqs := rqs).With(rq.dir, side.(sort := RbAdd(rqs, Remove(side.sort, x), x)))
  }

  /** A bio of n sectors put behind x. */
  function BackMerge(s: State, x: nat, n: nat): State
    requires x in s.rqs
  {
    s.(rqs := s.rqs[x := s.rqs[x].(sectors := s.rqs[x].sectors + n)])
  }

  /** Request y, adjacent behind x, merged into it: deadline_merged_requests within elv_merge_requests. */
  function MergeRequests(s: State, x: nat, y: nat): State
    requires x in s.rqs && y in s.rqs
  {
    var (rq, nx) := (s.rqs[x], s.rqs[y]);
    var sooner := nx.expire < rq.expire;
    var side := s.Of(nx.dir);
    var moved := if sooner then side.(fifo := MoveBehind(side.fifo, x, y)) else side;
    var rq' := rq.(sectors := rq.sectors + nx.sectors, expire := if sooner then nx.expire else rq.expire);
    s.(rqs := s.rqs[x := rq'] - {y}, nrSorted := s.nrSorted - 1).With(nx.dir, RemoveFrom(moved, y))
  }

  /** deadline_move_request. */
  function MoveRequest(s: State, x: nat): State
    requires x in s.rqs
  {
    var d := s.rqs[x].dir;
    var side := s.Of(d);
    var s1 := s.(rd := s.rd.(next := None), wr := s.wr.(next := None),
                 lastSector := s.rqs[x].pos + s.rqs[x].sectors, nrSorted := s.nrSorted - 1, out := s.out + [x]);
    s1.With(d, RemoveFrom(side.(next := Latter(side.sort, x)), x))
  }

  /** The request next in sort order, if a batch is running and may go on. */
  function Batch(t: Tuning, s: State): Option<nat> {
    var next := if s.wr.next.Some? then s.wr.next else s.rd.next;
    if s.batching < t.fifoBatch then next else None
  }

  /** The direction of a new batch, with the starvation count it leaves. */
  function Choose(t: Tuning, s: State): Option<(Dir, nat)> {
    if s.rd.fifo != [] && s.wr.fifo == [] then Some((Read, s.starved))
    else if s.rd.fifo != [] && s.starved < t.writesStarved then Some((Read, s.starved + 1))
    else if s.wr.fifo != [] then Some((Write, 0))
    else None
  }

  /** The request a new batch starts with: the oldest, unless it has time left and the last batch can go on. */
  function First(s: State, d: Dir): nat
    requires s.Of(d).fifo != []
  {
    var side := s.Of(d);
    if s.now > Expiry(s.rqs, side.fifo[0]) || side.next.None? then side.fifo[0] else side.next.value
  }

  /** deadline_dispatch_requests; the flag tells whether a request was dispatched. */
  function Dispatch(t: Tuning, s: State): (State, bool) {
    match Batch(t, s)
    case Some(x) =>
      if x in s.rqs then (MoveRequest(s.(batching := s.batching + 1), x), true) else (s.(bug := true), false)
    case None =>
      match Choose(t, s)
      case None => (s, false)
      case Some((d, starved)) =>
        if s.Of(d).sort == [] || First(s, d) !in s.rqs then (s.(bug := true), false)
        else (MoveRequest(s.(batching := 1, starved := starved), First(s, d)), true)
  }

  // ---------------------------------------------------------------- the runs

  datatype Action =
    | AddRequest(x: nat, pos: nat, sectors: nat, dir: Dir)
    | MergeFront(x: nat, n: nat)
    | MergeBack(x: nat, n: nat)
    | MergeNext(x: nat, y: nat)
    | DispatchOne
    | Tick(jiffies: nat)

  predicate Queued(s: State, x: nat) { x in s.rqs && x in s.Of(s.rqs[x].dir).sort }

  predicate Enabled(s: State, a: Action) {
    match a
    case AddRequest(x, _, _, _) => x !in s.rqs && x !in s.out
    case MergeFront(x, n) => Queued(s, x) && n <= s.rqs[x].pos
    case MergeBack(x, n) => Queued(s, x)
    case MergeNext(x, y) =>
      && Queued(s, x) && Queued(s, y) && x != y && s.rqs[x].dir == s.rqs[y].dir
      && s.rqs[x].pos + s.rqs[x].sectors == s.rqs[y].pos
    case DispatchOne => true
    case Tick(_) => true
  }

  function Next(t: Tuning, s: State, a: Action): State
    requires Enabled(s, a)
  {
    match a
    case AddRequest(x, pos, sectors, dir) => Add(t, s, x, pos, sectors, dir)
    case MergeFront(x, n) => FrontMerge(s, x, n)
    case MergeBack(x, n) => BackMerge(s, x, n)
    case MergeNext(x, y) => MergeRequests(s, x, y)
    case DispatchOne => Dispatch(t, s).0
    case Tick(jiffies) => s.(now := s.now + jiffies)
  }

  predicate Legal(t: Tuning, s: State, run: seq<Action>)
    decreases |run|
  {
    run == [] || (Enabled(s, run[0]) && Legal(t, Next(t, s, run[0]), run[1..]))
  }

  function After(t: Tuning, s: State, run: seq<Action>): State
    requires Legal(t, s, run)
    decreases |run|
  {
    if run == [] then s else After(t, Next(t, s, run[0]), run[1..])
  }
}
