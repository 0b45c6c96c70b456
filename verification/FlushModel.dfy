/**
  The FLUSH/FUA sequencer of the block layer (block/blk-flush.c) as a state
  machine over one request queue.

  A sequenced request runs through up to three steps, PREFLUSH, DATA and
  POSTFLUSH.  Requests waiting for a flush sit on one of two lists; one shared
  flush command serves a whole list.  Every function below is one critical
  section of the source, or a part of one.  `log` is a history of the events the
  durability theorems talk about; no step reads it.
*/
module FlushModel {

  type Id = nat

  /** The low three bits of a REQ_FSEQ_* mask. */
  datatype Mask = Mask(pre: bool, data: bool, post: bool) {
    predicate Empty() { !pre && !data && !post }
    predicate Overlaps(m: Mask) { (pre && m.pre) || (data && m.data) || (post && m.post) }
    function Or(m: Mask): Mask { Mask(pre || m.pre, data || m.data, post || m.post) }
    function Not(): Mask { Mask(!pre, !data, !post) }
  }

  datatype Step = Preflush | Data | Postflush | Done

  /** blk_flush_cur_seq: the lowest step not yet recorded. */
  function CurSeq(m: Mask): Step {
    if !m.pre then Preflush else if !m.data then Data else if !m.post then Postflush else Done
  }

  function Bit(s: Step): Mask {
    Mask(s == Preflush, s == Data, s == Postflush)
  }

  /** What a request asked for, of which queue: its flags and length, and what the queue was able to do. */
  datatype Asked = Asked(flush: bool, fua: bool, rqFlush: bool, rqFua: bool, sectors: nat)

  /** blk_flush_policy. */
  function Policy(a: Asked): Mask {
    Mask(a.flush && a.rqFlush, a.sectors != 0, a.flush && !a.fua && a.rqFua)
  }

  /**
    A request and its bio, if it has one.  `hasBio` is biotail != NULL,
    `attached` is bio != NULL, `size` is bi_size, `len` is __data_len and `done`
    is flush.seq; `fua` is what is left of REQ_FUA for the driver.  `ends`,
    `endedOk` record calls of bio_endio; `asked`, `policy`, `failed`,
    `since` and `ended` are history: what it asked for, the steps that takes,
    whether a driver reported an error for any of its bytes, the log position its
    current flush has to come after, and whether the request was finished.
  */
  datatype Request = Request(
    asked: Asked, policy: Mask, fua: bool, done: Mask, sequenced: bool,
    hasBio: bool, attached: bool, size: nat, len: nat, uptodate: bool,
    ends: nat, endedOk: bool, failed: bool, since: nat, ended: bool)

  /** What sits on the dispatch list or with the driver. */
  datatype Cmd = FlushCmd | DataCmd(id: Id) | NormalCmd(id: Id)

  datatype Event =
    | Inserted(id: Id, asked: Asked)
    | DataStart(id: Id)
    | DataDone(id: Id)
    | FlushIssue
    | FlushDone(error: bool)
    | Ended(id: Id, error: bool)

  datatype State = State(
    pending: nat, running: nat, queues: seq<seq<Id>>, inFlight: seq<Id>,
    pendingSince: int, timeout: int, now: int,
    head: seq<Cmd>, driver: multiset<Cmd>,
    rqs: map<Id, Request>, log: seq<Event>, issuedAt: nat, bug: bool)

  function Init(timeout: int, now: int): State {
    State(0, 0, [[], []], [], 0, timeout, now, [], multiset{}, map[], [], 0, false)
  }

  // ------------------------------------------------------------------ lists

  /** list_del: take every occurrence of x out of a list. */
  function Remove<T(==)>(l: seq<T>, x: T): seq<T> {
    if l == [] then [] else if l[0] == x then Remove(l[1..], x) else [l[0]] + Remove(l[1..], x)
  }

  predicate Shaped(s: State) {
    |s.queues| == 2 && s.pending < 2 && s.running < 2
  }

  /** list_del_init(&rq->flush.list), whichever list it is on. */
  function Unlink(s: State, id: Id): State
    requires Shaped(s)
  {
    s.(queues := [Remove(s.queues[0], id), Remove(s.queues[1], id)], inFlight := Remove(s.inFlight, id))
  }

  predicate Queued(s: State, id: Id) {
    DataCmd(id) in s.head || NormalCmd(id) in s.head
  }

  // ------------------------------------------------------- request completion

  /**
    blk_update_request on a request with at most one bio: returns the request
    and whether it still has data.  bio_endio is withheld while REQ_FLUSH_SEQ
    is set.
  */
  function UpdateRequest(rq: Request, error: bool, bytes: nat): (Request, bool) {
    if !rq.attached then (rq, false)
    else if bytes >= rq.size then
      var ok := !error && rq.uptodate;
      var rq1 := rq.(attached := false, size := 0, len := 0, uptodate := rq.uptodate && !error);
      (if rq.sequenced then rq1 else rq1.(ends := rq.ends + 1, endedOk := ok), false)
    else
      (rq.(size := rq.size - bytes, len := if rq.len >= bytes then rq.len - bytes else 0,
           uptodate := rq.uptodate && (bytes == 0 || !error)), true)
  }

  /** blk_flush_restore_request. */
  function Restore(rq: Request): Request {
    rq.(attached := rq.hasBio, sequenced := false)
  }

  /** __blk_end_request_all followed by the normal end of the request. */
  function EndAll(s: State, id: Id, error: bool): State
    requires id in s.rqs
  {
    var (rq, pending) := UpdateRequest(s.rqs[id], error, s.rqs[id].len);
    if pending then s.(bug := true)
    else s.(rqs := s.rqs[id := rq.(ended := true)], log := s.log + [Ended(id, error)])
  }

  // ----------------------------------------------------------- the sequencer

  /** blk_kick_flush: issue the flush command for the pending list when C1, C2 and C3 allow it. */
  function Kick(s: State): (r: State)
    requires Shaped(s)
    ensures Shaped(r) && r.queues == s.queues && r.inFlight == s.inFlight && r.rqs == s.rqs && r.bug == s.bug
  {
    if s.pending != s.running || s.queues[s.pending] == [] then s
    else if s.inFlight != [] && s.now < s.pendingSince + s.timeout then s
    else s.(pending := 1 - s.pending, head := s.head + [FlushCmd],
            log := s.log + [FlushIssue], issuedAt := |s.log|)
  }

  /** The switch of blk_flush_complete_seq: put the request where its next step is served. */
  function Route(s: State, id: Id, step: Step, error: bool): State
    requires Shaped(s) && id in s.rqs
  {
    match step
    case Preflush | Postflush =>
      var u := Unlink(s, id);
      u.(pendingSince := if s.queues[s.pending] == [] then s.now else s.pendingSince,
         queues := u.queues[s.pending := u.queues[s.pending] + [id]])
    case Data =>
      var u := Unlink(s, id);
      u.(inFlight := u.inFlight + [id], head := [DataCmd(id)] + s.head, log := s.log + [DataStart(id)])
    case Done =>
      if Queued(s, id) then s.(bug := true)
      else EndAll(Unlink(s, id).(rqs := s.rqs[id := Restore(s.rqs[id])]), id, error)
  }

  /** blk_flush_complete_seq. */
  function CompleteSeq(s: State, id: Id, part: Mask, error: bool): State
    requires Shaped(s)
  {
    if id !in s.rqs || s.rqs[id].done.Overlaps(part) then s.(bug := true)
    else
      var m := s.rqs[id].done.Or(part);
      var s1 := Route(s.(rqs := s.rqs[id := s.rqs[id].(done := m)]), id, if error then Done else CurSeq(m), error);
      if s1.bug then s1 else Kick(s1)
  }

  /** Flush steps a request on a flush list may still go through; bounds the walk below. */
  ghost function StepsLeft(s: State, id: Id): nat {
    if id in s.rqs && !s.rqs[id].done.pre then 2 else 1
  }

  ghost function Work(s: State, l: seq<Id>): nat {
    if l == [] then 0 else StepsLeft(s, l[0]) + Work(s, l[1..])
  }

  /**
    The list_for_each_entry_safe loop of flush_end_io over list r.  The element
    being visited is always the first one, because every visited element is
    moved away or to the tail; the element after it is fetched before the visit,
    so a visit of a sole element is the last one even if it re-queues itself.
  */
  function Walk(s: State, r: nat, error: bool): State
    requires Shaped(s) && r < 2
    decreases Work(s, s.queues[r])
  {
    if s.bug || s.queues[r] == [] then s
    else
      var id := s.queues[r][0];
      var step := if id in s.rqs then CurSeq(s.rqs[id].done) else Done;
      if step != Preflush && step != Postflush then s.(bug := true)
      else
        var s1 := CompleteSeq(s, id, Bit(step), error);
        if s1.bug || |s.queues[r]| == 1 then s1
        else
          WalkShrinks(s, r, error);
          Walk(s1, r, error)
  }

  /** The state in which flush_end_io starts its walk. */
  function FlushBegins(s: State, error: bool): State
    requires Shaped(s)
  {
    s.(running := 1 - s.running, log := s.log + [FlushDone(error)])
  }

  /** flush_end_io: the flush command completed. */
  function FlushEnd(s: State, error: bool): State
    requires Shaped(s)
  {
    if s.pending == s.running then s.(bug := true)
    else Walk(FlushBegins(s, error), s.running, error)
  }

  /** flush_data_end_io. */
  function DataEnd(s: State, id: Id, error: bool): State
    requires Shaped(s)
  {
    if id !in s.rqs then s.(bug := true)
    else
      var s1 := s.(rqs := s.rqs[id := s.rqs[id].(since := |s.log|)], log := s.log + [DataDone(id)]);
      CompleteSeq(s1, id, Bit(Data), error)
  }

  /** A request of `bytes` bytes in at most one bio, as blk_insert_flush leaves its flags. */
  function NewRequest(asked: Asked, hasBio: bool, bytes: nat, at: nat): Request {
    Request(asked, Policy(asked), asked.fua && asked.rqFua, Mask(false, false, false), false, hasBio, hasBio, bytes, bytes, true, 0, false, false, at, false)
  }

  /** blk_insert_flush. */
  function Insert(s: State, id: Id, asked: Asked, hasBio: bool, bytes: nat): State
    requires Shaped(s)
  {
    var rq := NewRequest(asked, hasBio, bytes, |s.log|);
    var policy := Policy(asked);
    var s1 := s.(rqs := s.rqs[id := rq], log := s.log + [Inserted(id, asked)]);
    if policy.Empty() then
      var (rq1, more) := UpdateRequest(rq, false, 0);
      if more then s1.(rqs := s1.rqs[id := rq1])
      else s1.(rqs := s1.rqs[id := rq1.(ended := true)], log := s1.log + [Ended(id, false)])
    else if policy.data && !policy.pre && !policy.post then
      s1.(head := s1.head + [NormalCmd(id)])
    else
      CompleteSeq(s1.(rqs := s1.rqs[id := rq.(sequenced := true)]), id, policy.Not(), false)
  }

  // ------------------------------------------------------------------- lemmas

  lemma {:induction l} RemoveCount<T>(l: seq<T>, x: T)
    ensures multiset(Remove(l, x)) == multiset(l)[x := 0]
    ensures |Remove(l, x)| <= |l|
  {
    if l != [] {
      assert l == [l[0]] + l[1..];
      assert multiset(l) == multiset{l[0]} + multiset(l[1..]);
    }
  }

  lemma RemoveAbsent<T>(l: seq<T>, x: T)
    requires x !in l
    ensures Remove(l, x) == l
  {
    if l != [] { assert l == [l[0]] + l[1..]; }
  }

  lemma {:induction l} WorkRemove(s: State, s1: State, l: seq<Id>, x: Id)
    requires forall y :: y in l && y != x ==> StepsLeft(s1, y) == StepsLeft(s, y)
    ensures Work(s1, Remove(l, x)) + (if x in l then StepsLeft(s, x) else 0) <= Work(s, l)
  {
    if l != [] {
      assert l == [l[0]] + l[1..];
    }
  }

  lemma {:induction l} WorkAppend(s: State, l: seq<Id>, x: Id)
    ensures Work(s, l + [x]) == Work(s, l) + StepsLeft(s, x)
  {
    if l != [] {
      assert (l + [x])[1..] == l[1..] + [x];
    }
  }

  /** Where a routed request ends up, as far as list r is concerned. */
  lemma RouteLists(s: State, r: nat, id: Id, step: Step, error: bool)
    requires Shaped(s) && r < 2 && id in s.rqs
    ensures var s1 := Route(s, id, step, error);
            && Shaped(s1) && s1.pending == s.pending && s1.running == s.running
            && (s1.bug || s1.queues[r] == Remove(s.queues[r], id)
                || ((step == Preflush || step == Postflush) && r == s.pending
                    && s1.queues[r] == Remove(s.queues[r], id) + [id]))
  {
    hide Remove, Queued, Restore;
  }

  lemma RouteRecords(s: State, id: Id, step: Step, error: bool, y: Id)
    requires Shaped(s) && id in s.rqs
    ensures var s1 := Route(s, id, step, error);
            (y in s1.rqs <==> y in s.rqs)
            && (y in s.rqs ==> s1.rqs[y].done == s.rqs[y].done && s1.rqs[y].since == s.rqs[y].since)
  {
    hide Remove, Queued;
  }

  /** Each visit leaves less work on the list, even when the element re-queues itself there. */
  lemma WalkShrinks(s: State, r: nat, error: bool)
    requires Shaped(s) && r < 2 && s.queues[r] != [] && !s.bug
    requires s.queues[r][0] in s.rqs
    requires CurSeq(s.rqs[s.queues[r][0]].done) in {Preflush, Postflush}
    ensures var id := s.queues[r][0];
            var s1 := CompleteSeq(s, id, Bit(CurSeq(s.rqs[id].done)), error);
            Shaped(s1) && (s1.bug || Work(s1, s1.queues[r]) < Work(s, s.queues[r]))
  {
    var id, l := s.queues[r][0], s.queues[r];
    var step := CurSeq(s.rqs[id].done);
    var m := s.rqs[id].done.Or(Bit(step));
    var s0 := s.(rqs := s.rqs[id := s.rqs[id].(done := m)]);
    var next := if error then Done else CurSeq(m);
    var routed := Route(s0, id, next, error);
    var s1 := CompleteSeq(s, id, Bit(step), error);
    assert s1 == if routed.bug then routed else Kick(routed);
    RouteLists(s0, r, id, next, error);
    if !s1.bug {
      forall y ensures y != id ==> StepsLeft(s1, y) == StepsLeft(s, y) {
        RouteRecords(s0, id, next, error, y);
      }
      assert next == Preflush || next == Postflush ==> StepsLeft(s1, id) < StepsLeft(s, id) by {
        RouteRecords(s0, id, next, error, id);
      }
      WorkRemove(s, s1, l, id);
      WorkAppend(s1, Remove(l, id), id);
    }
  }

  /** The walk, one visit at a time. */
  lemma WalkStep(s: State, r: nat, error: bool)
    requires Shaped(s) && r < 2
    ensures s.bug || s.queues[r] == [] ==> Walk(s, r, error) == s
    ensures !s.bug && s.queues[r] != [] ==>
              var id := s.queues[r][0];
              var step := if id in s.rqs then CurSeq(s.rqs[id].done) else Done;
              if step != Preflush && step != Postflush then Walk(s, r, error) == s.(bug := true)
              else var s1 := CompleteSeq(s, id, Bit(step), error);
                   && Shaped(s1)
                   && (s1.bug || |s.queues[r]| == 1 ==> Walk(s, r, error) == s1)
                   && (!s1.bug && |s.queues[r]| != 1 ==>
                         Walk(s, r, error) == Walk(s1, r, error) && Work(s1, s1.queues[r]) < Work(s, s.queues[r]))
  {
    hide CompleteSeq, Work;
    if !s.bug && s.queues[r] != [] {
      var id := s.queues[r][0];
      if id in s.rqs && CurSeq(s.rqs[id].done) in {Preflush, Postflush} {
        WalkShrinks(s, r, error);
      }
    }
  }
}
