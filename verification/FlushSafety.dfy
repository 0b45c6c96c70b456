/**
  What every run of the FLUSH/FUA sequencer keeps: the shape of its lists, the
  one outstanding flush command, progress, and the durability of data.
*/
module FlushSafety {
  import opened FlushModel

  // ---------------------------------------------------------------- coverage

  predicate FlushEvent(e: Event) { e.FlushIssue? || e.FlushDone? }

  /** A flush issued after `from` completed without error before `to`. */
  ghost predicate Covered(log: seq<Event>, from: nat, to: nat) {
    exists j, k :: FlushSpan(log, from, j, k, to)
  }

  /** log[k] is the successful completion of the flush issued at log[j]. */
  ghost predicate FlushSpan(log: seq<Event>, from: nat, j: int, k: int, to: nat) {
    && from < j < k < to <= |log|
    && log[j] == FlushIssue && log[k] == FlushDone(false)
    && forall x :: j < x < k ==> !FlushEvent(log[x])
  }

  /** The event sits in the log before `to` and a flush covers the stretch from it to `to`. */
  ghost predicate CoveredSince(log: seq<Event>, e: Event, to: nat) {
    exists i: nat :: i < to <= |log| && log[i] == e && Covered(log, i, to)
  }

  ghost predicate Before(log: seq<Event>, e: Event, to: nat) {
    exists i: nat :: i < to <= |log| && log[i] == e
  }

  /** What a request keeps from its insertion on. */
  predicate Kept(rq: Request, rq': Request) { rq'.asked == rq.asked && rq'.policy == rq.policy && rq'.fua == rq.fua }

  /** The durability promise, read off one event of the history. */
  ghost predicate EventOk(log: seq<Event>, rqs: map<Id, Request>, k: nat)
    requires k < |log|
  {
    match log[k]
    case Inserted(id, asked) =>
      id in rqs && rqs[id].asked == asked && rqs[id].policy == Policy(asked) && rqs[id].fua == (asked.fua && asked.rqFua)
    case DataStart(id) =>
      id in rqs && (rqs[id].policy.pre ==> CoveredSince(log, Inserted(id, rqs[id].asked), k))
    case Ended(id, error) =>
      id in rqs && (!error ==>
        && (rqs[id].policy.data && (rqs[id].policy.pre || rqs[id].policy.post) ==> Before(log, DataDone(id), k))
        && (rqs[id].policy.data && rqs[id].policy.post ==> CoveredSince(log, DataDone(id), k))
        && (!rqs[id].policy.data && !rqs[id].policy.Empty() ==> CoveredSince(log, Inserted(id, rqs[id].asked), k)))
    case _ => true
  }

  lemma CoveredExtends(log: seq<Event>, log': seq<Event>, from: nat, to: nat, to': nat)
    requires log <= log' && to <= |log| && to <= to' <= |log'|
    requires Covered(log, from, to)
    ensures Covered(log', from, to')
  {
    var j, k :| FlushSpan(log, from, j, k, to);
    assert FlushSpan(log', from, j, k, to');
  }

  lemma CoveredSinceExtends(log: seq<Event>, log': seq<Event>, e: Event, to: nat)
    requires log <= log' && to <= |log|
    requires CoveredSince(log, e, to)
    ensures CoveredSince(log', e, to)
  {
    var i: nat :| i < to <= |log| && log[i] == e && Covered(log, i, to);
    CoveredExtends(log, log', i, to, to);
    assert log'[i] == e;
  }

  lemma EventStaysOk(log: seq<Event>, log': seq<Event>, rqs: map<Id, Request>, rqs': map<Id, Request>, k: nat)
    requires log <= log' && k < |log|
    requires forall id :: id in rqs ==> id in rqs' && Kept(rqs'[id], rqs[id])
    requires EventOk(log, rqs, k)
    ensures EventOk(log', rqs', k)
  {
    assert log'[k] == log[k];
    match log[k]
    case DataStart(id) =>
      if rqs[id].policy.pre { CoveredSinceExtends(log, log', Inserted(id, rqs[id].asked), k); }
    case Ended(id, error) =>
      if !error {
        if rqs[id].policy.data && (rqs[id].policy.pre || rqs[id].policy.post) {
          var i: nat :| i < k <= |log| && log[i] == DataDone(id);
          assert log'[i] == DataDone(id);
        }
        if rqs[id].policy.data && rqs[id].policy.post { CoveredSinceExtends(log, log', DataDone(id), k); }
        if !rqs[id].policy.data && !rqs[id].policy.Empty() { CoveredSinceExtends(log, log', Inserted(id, rqs[id].asked), k); }
      }
    case _ =>
  }

  // --------------------------------------------------------------- invariant

  type Requests = map<Id, Request>

  predicate Sequenced(rqs: Requests, id: Id) { id in rqs && rqs[id].sequenced }

  predicate Normal(rqs: Requests, id: Id) { id in rqs && !rqs[id].sequenced && !rqs[id].ended }

  /** The recorded steps: everything outside the policy, plus an initial part of it. */
  predicate StepsOk(rq: Request) {
    && (rq.policy.pre || rq.policy.post)
    && (rq.policy.pre || rq.done.pre) && (rq.policy.data || rq.done.data) && (rq.policy.post || rq.done.post)
    && Bit(CurSeq(rq.done)).Overlaps(rq.policy)
    && (CurSeq(rq.done) == Preflush ==> !(rq.policy.data && rq.done.data) && !(rq.policy.post && rq.done.post))
    && (CurSeq(rq.done) == Data ==> !(rq.policy.post && rq.done.post))
  }

  /** Bytes left in the bio and in the request agree, and the bio is ended exactly when the request is. */
  predicate BioOk(rq: Request) {
    && (rq.policy.data ==> rq.hasBio)
    && (rq.hasBio ==> rq.size == rq.len)
    && (rq.ended ==> !rq.sequenced && rq.ends == if rq.hasBio then 1 else 0)
    && (!rq.ended ==> rq.ends == 0)
    && (rq.failed ==> !rq.uptodate) && (rq.ended && rq.hasBio && rq.endedOk ==> !rq.failed)
    && (!rq.ended && !rq.done.data ==> rq.attached == rq.hasBio)
    && (!rq.ended && !rq.sequenced ==> rq.policy == Mask(false, true, false) && rq.attached == rq.hasBio)
  }

  predicate RqOk(rq: Request) {
    BioOk(rq) && (rq.sequenced ==> StepsOk(rq))
  }

  predicate AtFlush(rqs: Requests, id: Id) {
    id in rqs && CurSeq(rqs[id].done) in {Preflush, Postflush}
  }

  predicate AtData(rqs: Requests, id: Id) {
    id in rqs && CurSeq(rqs[id].done) == Data
  }

  function Places(queues: seq<seq<Id>>, inFlight: seq<Id>): multiset<Id>
    requires |queues| == 2
  {
    multiset(queues[0]) + multiset(queues[1]) + multiset(inFlight)
  }

  // Each of the following speaks of all requests but those in `hole`, which a
  // critical section is about to move.

  /** Every sequenced request is on exactly one list, the one for its current step. */
  ghost predicate ListsOk(queues: seq<seq<Id>>, inFlight: seq<Id>, rqs: Requests, hole: set<Id>) {
    && |queues| == 2
    && (forall id :: id !in hole ==> Places(queues, inFlight)[id] == if Sequenced(rqs, id) then 1 else 0)
    && (forall id :: id !in hole && id in queues[0] ==> AtFlush(rqs, id))
    && (forall id :: id !in hole && id in queues[1] ==> AtFlush(rqs, id))
    && (forall id :: id !in hole && id in inFlight ==> AtData(rqs, id))
  }

  predicate CmdCount(cmds: multiset<Cmd>, outstanding: bool, inFlight: seq<Id>, rqs: Requests, c: Cmd) {
    match c
    case FlushCmd => cmds[c] == if outstanding then 1 else 0
    case DataCmd(id) => cmds[c] == if id in inFlight then 1 else 0
    case NormalCmd(id) => cmds[c] == if Normal(rqs, id) then 1 else 0
  }

  /** One flush command while a flush is outstanding; one data command per request in its DATA step. */
  ghost predicate CmdsOk(cmds: multiset<Cmd>, outstanding: bool, inFlight: seq<Id>, rqs: Requests, hole: set<Id>) {
    && (forall c: Cmd :: c == FlushCmd || c.id !in hole ==> CmdCount(cmds, outstanding, inFlight, rqs, c))
    && (forall c: Cmd :: c != FlushCmd && c.id in hole ==> cmds[c] == 0)
  }

  ghost predicate RqsOk(rqs: Requests, hole: set<Id>) {
    forall id :: id in rqs && id !in hole ==> RqOk(rqs[id])
  }

  /** `since` marks the event the request's next flush must follow. */
  predicate SinceOk(log: seq<Event>, rqs: Requests, id: Id)
    requires id in rqs
  {
    var rq := rqs[id];
    rq.since < |log| && log[rq.since] == if rq.policy.data && rq.done.data then DataDone(id) else Inserted(id, rq.asked)
  }

  ghost predicate WaitsOk(log: seq<Event>, rqs: Requests, hole: set<Id>) {
    forall id :: Sequenced(rqs, id) && id !in hole ==> SinceOk(log, rqs, id)
  }

  ghost predicate LogOk(log: seq<Event>, rqs: Requests) {
    forall k: nat :: k < |log| ==> EventOk(log, rqs, k)
  }

  /** The outstanding flush was issued after everything on the running list began to wait. */
  ghost predicate OpenOk(log: seq<Event>, issuedAt: nat, running: seq<Id>, rqs: Requests) {
    && running != []
    && issuedAt < |log| && log[issuedAt] == FlushIssue
    && (forall x :: issuedAt < x < |log| ==> !FlushEvent(log[x]))
    && (forall id :: id in running ==> id in rqs && rqs[id].since < issuedAt)
  }

  function Cmds(s: State): multiset<Cmd> { multiset(s.head) + s.driver }

  ghost predicate Base(s: State, hole: set<Id>) {
    && Shaped(s) && !s.bug
    && ListsOk(s.queues, s.inFlight, s.rqs, hole)
    && CmdsOk(Cmds(s), s.pending != s.running, s.inFlight, s.rqs, hole)
    && RqsOk(s.rqs, hole)
    && WaitsOk(s.log, s.rqs, hole)
    && LogOk(s.log, s.rqs)
    && (s.pending != s.running ==> OpenOk(s.log, s.issuedAt, s.queues[s.running], s.rqs))
  }

  predicate NoStall(s: State)
    requires Shaped(s)
  {
    s.pending == s.running && s.queues[s.pending] != [] ==> s.inFlight != []
  }

  /** What holds between critical sections. */
  ghost predicate Inv(s: State) {
    && Base(s, {})
    && NoStall(s)
    && (s.pending == s.running ==> s.queues[1 - s.pending] == [])
  }

  // ------------------------------------------------------------ preservation

  /** The log grows by one event that is fine by itself; requests keep their policies. */
  lemma LogGrows(log: seq<Event>, e: Event, rqs: Requests, rqs': Requests)
    requires LogOk(log, rqs)
    requires forall id :: id in rqs ==> id in rqs' && Kept(rqs'[id], rqs[id])
    requires EventOk(log + [e], rqs', |log|)
    ensures LogOk(log + [e], rqs')
  {
    forall k: nat | k < |log + [e]| ensures EventOk(log + [e], rqs', k) {
      if k < |log| { EventStaysOk(log, log + [e], rqs, rqs', k); }
    }
  }

  lemma CmdAppended(s: State, c: Cmd)
    ensures multiset(s.head + [c]) + s.driver == Cmds(s)[c := Cmds(s)[c] + 1]
    ensures multiset([c] + s.head) + s.driver == Cmds(s)[c := Cmds(s)[c] + 1]
  {}

  lemma OnListSequenced(queues: seq<seq<Id>>, inFlight: seq<Id>, rqs: Requests, id: Id)
    requires ListsOk(queues, inFlight, rqs, {}) && (id in queues[0] || id in queues[1] || id in inFlight)
    ensures Sequenced(rqs, id)
  {
    assert Places(queues, inFlight)[id] > 0;
  }

  lemma IssueOpens(log: seq<Event>, queues: seq<seq<Id>>, p: nat, inFlight: seq<Id>, rqs: Requests)
    requires ListsOk(queues, inFlight, rqs, {}) && WaitsOk(log, rqs, {})
    requires p < 2 && queues[p] != []
    ensures OpenOk(log + [FlushIssue], |log|, queues[p], rqs)
  {
    forall id | id in queues[p] ensures id in rqs && rqs[id].since < |log| {
      OnListSequenced(queues, inFlight, rqs, id);
      assert SinceOk(log, rqs, id);
    }
  }

  lemma CmdsIssue(cmds: multiset<Cmd>, inFlight: seq<Id>, rqs: Requests)
    requires CmdsOk(cmds, false, inFlight, rqs, {})
    ensures CmdsOk(cmds[FlushCmd := cmds[FlushCmd] + 1], true, inFlight, rqs, {})
  {
    var cmds' := cmds[FlushCmd := cmds[FlushCmd] + 1];
    forall c: Cmd ensures CmdCount(cmds', true, inFlight, rqs, c) {
      assert CmdCount(cmds, false, inFlight, rqs, c);
    }
  }

  lemma WaitsGrow(log: seq<Event>, log': seq<Event>, rqs: Requests, hole: set<Id>)
    requires WaitsOk(log, rqs, hole) && log <= log'
    ensures WaitsOk(log', rqs, hole)
  {
    forall id | Sequenced(rqs, id) && id !in hole ensures SinceOk(log', rqs, id) {
      assert SinceOk(log, rqs, id);
    }
  }

  /** When blk_kick_flush issues a flush: none is out, some request waits, and no data are in flight or the wait is too long. */
  lemma KickWhen(s: State)
    requires Shaped(s)
    ensures var issued := && s.pending == s.running && s.queues[s.pending] != []
                          && (s.inFlight == [] || s.now >= s.pendingSince + s.timeout);
            && (Kick(s).pending != s.pending <==> issued)
            && Kick(s).log == (if issued then s.log + [FlushIssue] else s.log)
            && Kick(s).head == (if issued then s.head + [FlushCmd] else s.head)
  {}

  lemma KickKeeps(s: State)
    requires Base(s, {})
    ensures Base(Kick(s), {}) && NoStall(Kick(s)) && s.log <= Kick(s).log
  {
    hide ListsOk, CmdsOk, RqsOk, WaitsOk, LogOk, OpenOk;
    if Kick(s) != s {
      CmdAppended(s, FlushCmd);
      CmdsIssue(Cmds(s), s.inFlight, s.rqs);
      LogGrows(s.log, FlushIssue, s.rqs, s.rqs);
      WaitsGrow(s.log, s.log + [FlushIssue], s.rqs, {});
      IssueOpens(s.log, s.queues, s.pending, s.inFlight, s.rqs);
    }
  }

  lemma RemoveMembers<T>(l: seq<T>, x: T)
    ensures forall y :: y in Remove(l, x) <==> y in l && y != x
  {
    RemoveCount(l, x);
    assert forall y :: y in Remove(l, x) <==> multiset(Remove(l, x))[y] > 0;
  }

  lemma Unlinked(queues: seq<seq<Id>>, inFlight: seq<Id>, rqs: Requests, x: Id)
    requires ListsOk(queues, inFlight, rqs, {x})
    ensures var qs, fl := [Remove(queues[0], x), Remove(queues[1], x)], Remove(inFlight, x);
            ListsOk(qs, fl, rqs, {x}) && Places(qs, fl)[x] == 0
  {
    RemoveCount(queues[0], x);
    RemoveCount(queues[1], x);
    RemoveCount(inFlight, x);
    var qs, fl := [Remove(queues[0], x), Remove(queues[1], x)], Remove(inFlight, x);
    assert Places(qs, fl) == Places(queues, inFlight)[x := 0];
    assert forall id :: id in qs[0] ==> multiset(qs[0])[id] > 0;
    assert forall id :: id in qs[1] ==> multiset(qs[1])[id] > 0;
    assert forall id :: id in fl ==> multiset(fl)[id] > 0;
  }

  lemma Waits(queues: seq<seq<Id>>, inFlight: seq<Id>, rqs: Requests, x: Id, p: nat)
    requires ListsOk(queues, inFlight, rqs, {x}) && Places(queues, inFlight)[x] == 0
    requires p < 2 && Sequenced(rqs, x) && AtFlush(rqs, x)
    ensures ListsOk(queues[p := queues[p] + [x]], inFlight, rqs, {})
  {
    var qs := queues[p := queues[p] + [x]];
    assert Places(qs, inFlight) == Places(queues, inFlight)[x := 1];
  }

  lemma Flies(queues: seq<seq<Id>>, inFlight: seq<Id>, rqs: Requests, x: Id)
    requires ListsOk(queues, inFlight, rqs, {x}) && Places(queues, inFlight)[x] == 0
    requires Sequenced(rqs, x) && AtData(rqs, x)
    ensures ListsOk(queues, inFlight + [x], rqs, {})
  {
    assert Places(queues, inFlight + [x]) == Places(queues, inFlight)[x := 1];
  }

  lemma Leaves(queues: seq<seq<Id>>, inFlight: seq<Id>, rqs: Requests, x: Id, rq: Request)
    requires ListsOk(queues, inFlight, rqs, {x}) && Places(queues, inFlight)[x] == 0
    requires !rq.sequenced
    ensures ListsOk(queues, inFlight, rqs[x := rq], {})
  {
    assert Places(queues, inFlight)[x] == 0;
  }

  /** Commands after request x left the hole without a command, or with a new data command. */
  lemma CmdsSettle(cmds: multiset<Cmd>, out: bool, inFlight: seq<Id>, inFlight': seq<Id>, rqs: Requests, rqs': Requests, x: Id)
    requires CmdsOk(cmds, out, inFlight, rqs, {x})
    requires forall id :: id != x ==> (id in inFlight' <==> id in inFlight) && (Normal(rqs', id) <==> Normal(rqs, id))
    requires !Normal(rqs', x)
    ensures CmdsOk(if x in inFlight' then cmds[DataCmd(x) := cmds[DataCmd(x)] + 1] else cmds, out, inFlight', rqs', {})
  {
    var cmds' := if x in inFlight' then cmds[DataCmd(x) := cmds[DataCmd(x)] + 1] else cmds;
    forall c: Cmd ensures CmdCount(cmds', out, inFlight', rqs', c) {
      assert c == FlushCmd || c.id != x ==> CmdCount(cmds, out, inFlight, rqs, c);
    }
  }

  /** The request handed to Route: sequenced, its recorded steps a part of the policy, its flush behind it. */
  ghost predicate Moving(s: State, id: Id, step: Step, error: bool) {
    && Shaped(s) && Sequenced(s.rqs, id) && BioOk(s.rqs[id]) && SinceOk(s.log, s.rqs, id)
    && (s.rqs[id].policy.pre || s.rqs[id].policy.post)
    && (if error then step == Done else step == CurSeq(s.rqs[id].done))
    && (step != Done ==> StepsOk(s.rqs[id]))
    && (s.pending != s.running ==> id !in s.queues[s.running])
    && (NeedsFlush(s.rqs[id].policy, step, error) ==> Covered(s.log, s.rqs[id].since, |s.log|))
  }

  /** Moves that are only allowed behind a completed flush. */
  predicate NeedsFlush(policy: Mask, step: Step, error: bool) {
    !error && ((step == Data && policy.pre) || (step == Done && (policy.post || !policy.data)))
  }

  ghost predicate SameBut(rqs: Requests, rqs': Requests, x: Id) {
    forall id :: id != x ==> (id in rqs <==> id in rqs') && (id in rqs ==> rqs[id] == rqs'[id])
  }

  lemma RequestsSettle(log: seq<Event>, log': seq<Event>, rqs: Requests, rqs': Requests, x: Id)
    requires RqsOk(rqs, {x}) && WaitsOk(log, rqs, {x}) && log <= log'
    requires SameBut(rqs, rqs', x) && x in rqs' && RqOk(rqs'[x])
    requires rqs'[x].sequenced ==> SinceOk(log', rqs', x)
    ensures RqsOk(rqs', {}) && WaitsOk(log', rqs', {})
  {
    forall id | Sequenced(rqs', id) ensures SinceOk(log', rqs', id) {
      assert id != x ==> SinceOk(log, rqs, id);
    }
  }

  lemma OpenGrows(log: seq<Event>, e: Event, issuedAt: nat, running: seq<Id>, rqs: Requests, rqs': Requests, x: Id)
    requires OpenOk(log, issuedAt, running, rqs) && !FlushEvent(e)
    requires x !in running && SameBut(rqs, rqs', x)
    ensures OpenOk(log + [e], issuedAt, running, rqs')
  {}

  lemma OtherListKept(queues: seq<seq<Id>>, x: Id, r: nat)
    requires |queues| == 2 && r < 2 && x !in queues[r]
    ensures [Remove(queues[0], x), Remove(queues[1], x)][r] == queues[r]
  {
    RemoveAbsent(queues[r], x);
  }

  lemma ToFlushParts(queues: seq<seq<Id>>, inFlight: seq<Id>, rqs: Requests, cmds: multiset<Cmd>, out: bool, x: Id, p: nat)
    requires ListsOk(queues, inFlight, rqs, {x}) && CmdsOk(cmds, out, inFlight, rqs, {x})
    requires p < 2 && Sequenced(rqs, x) && AtFlush(rqs, x)
    ensures var qs, fl := [Remove(queues[0], x), Remove(queues[1], x)], Remove(inFlight, x);
            ListsOk(qs[p := qs[p] + [x]], fl, rqs, {}) && CmdsOk(cmds, out, fl, rqs, {})
  {
    var qs, fl := [Remove(queues[0], x), Remove(queues[1], x)], Remove(inFlight, x);
    assert ListsOk(qs[p := qs[p] + [x]], fl, rqs, {}) by {
      Unlinked(queues, inFlight, rqs, x);
      Waits(qs, fl, rqs, x, p);
    }
    RemoveMembers(inFlight, x);
    CmdsSettle(cmds, out, inFlight, fl, rqs, rqs, x);
  }

  lemma ToDataParts(queues: seq<seq<Id>>, inFlight: seq<Id>, rqs: Requests, cmds: multiset<Cmd>, out: bool, x: Id)
    requires ListsOk(queues, inFlight, rqs, {x}) && CmdsOk(cmds, out, inFlight, rqs, {x})
    requires Sequenced(rqs, x) && AtData(rqs, x)
    ensures var qs, fl := [Remove(queues[0], x), Remove(queues[1], x)], Remove(inFlight, x);
            ListsOk(qs, fl + [x], rqs, {}) && CmdsOk(cmds[DataCmd(x) := cmds[DataCmd(x)] + 1], out, fl + [x], rqs, {})
  {
    var qs, fl := [Remove(queues[0], x), Remove(queues[1], x)], Remove(inFlight, x);
    assert ListsOk(qs, fl + [x], rqs, {}) by {
      Unlinked(queues, inFlight, rqs, x);
      Flies(qs, fl, rqs, x);
    }
    RemoveMembers(inFlight, x);
    CmdsSettle(cmds, out, inFlight, fl + [x], rqs, rqs, x);
  }

  lemma ToDoneParts(queues: seq<seq<Id>>, inFlight: seq<Id>, rqs: Requests, cmds: multiset<Cmd>, out: bool, x: Id, rq: Request)
    requires ListsOk(queues, inFlight, rqs, {x}) && CmdsOk(cmds, out, inFlight, rqs, {x})
    requires !rq.sequenced && rq.ended
    ensures var qs, fl := [Remove(queues[0], x), Remove(queues[1], x)], Remove(inFlight, x);
            ListsOk(qs, fl, rqs[x := rq], {}) && CmdsOk(cmds, out, fl, rqs[x := rq], {})
  {
    var qs, fl := [Remove(queues[0], x), Remove(queues[1], x)], Remove(inFlight, x);
    assert ListsOk(qs, fl, rqs[x := rq], {}) by {
      Unlinked(queues, inFlight, rqs, x);
      Leaves(qs, fl, rqs, x, rq);
    }
    RemoveMembers(inFlight, x);
    CmdsSettle(cmds, out, inFlight, fl, rqs, rqs[x := rq], x);
  }

  lemma RouteToFlush(s: State, id: Id, step: Step)
    requires Base(s, {id}) && Moving(s, id, step, false) && (step == Preflush || step == Postflush)
    ensures Base(Route(s, id, step, false), {}) && s.log == Route(s, id, step, false).log
  {
    hide ListsOk, CmdsOk, RqsOk, WaitsOk, LogOk, OpenOk, Remove;
    var qs, fl := [Remove(s.queues[0], id), Remove(s.queues[1], id)], Remove(s.inFlight, id);
    var since := if s.queues[s.pending] == [] then s.now else s.pendingSince;
    var s1 := s.(queues := qs[s.pending := qs[s.pending] + [id]], inFlight := fl, pendingSince := since);
    assert s1 == Route(s, id, step, false);
    ToFlushParts(s.queues, s.inFlight, s.rqs, Cmds(s), s.pending != s.running, id, s.pending);
    RequestsSettle(s.log, s.log, s.rqs, s.rqs, id);
    if s.pending != s.running {
      OtherListKept(s.queues, id, s.running);
      assert s1.queues[s1.running] == s.queues[s.running];
    }
  }

  lemma DataStartLog(log: seq<Event>, rqs: Requests, id: Id)
    requires LogOk(log, rqs) && id in rqs && SinceOk(log, rqs, id) && !rqs[id].done.data
    requires rqs[id].policy.pre ==> Covered(log, rqs[id].since, |log|)
    ensures LogOk(log + [DataStart(id)], rqs)
  {
    var log' := log + [DataStart(id)];
    if rqs[id].policy.pre {
      CoveredExtends(log, log', rqs[id].since, |log|, |log|);
      assert log'[rqs[id].since] == Inserted(id, rqs[id].asked);
    }
    LogGrows(log, DataStart(id), rqs, rqs);
  }

  lemma RouteToData(s: State, id: Id)
    requires Base(s, {id}) && Moving(s, id, Data, false)
    ensures Base(Route(s, id, Data, false), {}) && s.log <= Route(s, id, Data, false).log
  {
    hide ListsOk, CmdsOk, RqsOk, WaitsOk, LogOk, OpenOk, Remove;
    var qs, fl := [Remove(s.queues[0], id), Remove(s.queues[1], id)], Remove(s.inFlight, id);
    var s1 := s.(queues := qs, inFlight := fl + [id], head := [DataCmd(id)] + s.head, log := s.log + [DataStart(id)]);
    assert s1 == Route(s, id, Data, false);
    ToDataParts(s.queues, s.inFlight, s.rqs, Cmds(s), s.pending != s.running, id);
    CmdAppended(s, DataCmd(id));
    DataStartLog(s.log, s.rqs, id);
    RequestsSettle(s.log, s.log + [DataStart(id)], s.rqs, s.rqs, id);
    if s.pending != s.running {
      OtherListKept(s.queues, id, s.running);
      assert s1.queues[s1.running] == s.queues[s.running];
      OpenGrows(s.log, DataStart(id), s.issuedAt, s.queues[s.running], s.rqs, s.rqs, id);
    }
  }

  /** At DONE the bio, restored, is ended for the first and only time. */
  lemma EndsOnce(rq: Request, error: bool)
    requires rq.sequenced && BioOk(rq)
    ensures var (rq1, more) := UpdateRequest(Restore(rq), error, Restore(rq).len);
            !more && RqOk(rq1.(ended := true)) && !rq1.sequenced && Kept(rq1, rq)
  {}

  lemma EndedLog(log: seq<Event>, rqs: Requests, id: Id, error: bool, rq: Request)
    requires LogOk(log, rqs) && id in rqs && SinceOk(log, rqs, id) && Kept(rq, rqs[id])
    requires !error ==> rqs[id].done == Mask(true, true, true)
    requires NeedsFlush(rq.policy, Done, error) ==> Covered(log, rqs[id].since, |log|)
    ensures LogOk(log + [Ended(id, error)], rqs[id := rq])
  {
    var log' := log + [Ended(id, error)];
    assert log'[rqs[id].since] == log[rqs[id].since];
    if NeedsFlush(rq.policy, Done, error) {
      CoveredExtends(log, log', rqs[id].since, |log|, |log|);
    }
    LogGrows(log, Ended(id, error), rqs, rqs[id := rq]);
  }

  lemma RouteToDone(s: State, id: Id, error: bool)
    requires Base(s, {id}) && Moving(s, id, Done, error)
    ensures Base(Route(s, id, Done, error), {}) && s.log <= Route(s, id, Done, error).log
  {
    hide ListsOk, RqsOk, WaitsOk, LogOk, OpenOk, Remove;
    EndsOnce(s.rqs[id], error);
    assert !Queued(s, id) by {
      assert Cmds(s)[DataCmd(id)] == 0 && Cmds(s)[NormalCmd(id)] == 0;
    }
    hide CmdsOk;
    var rq := UpdateRequest(Restore(s.rqs[id]), error, s.rqs[id].len).0.(ended := true);
    var s1 := Unlink(s, id).(rqs := s.rqs[id := rq], log := s.log + [Ended(id, error)]);
    assert s1 == Route(s, id, Done, error);
    ToDoneParts(s.queues, s.inFlight, s.rqs, Cmds(s), s.pending != s.running, id, rq);
    EndedLog(s.log, s.rqs, id, error, rq);
    RequestsSettle(s.log, s1.log, s.rqs, s1.rqs, id);
    if s.pending != s.running {
      OtherListKept(s.queues, id, s.running);
      assert s1.queues[s1.running] == s.queues[s.running];
      OpenGrows(s.log, Ended(id, error), s.issuedAt, s.queues[s.running], s.rqs, s1.rqs, id);
    }
  }

  // -------------------------------------------------------- critical sections

  lemma ListsHole(queues: seq<seq<Id>>, inFlight: seq<Id>, rqs: Requests, x: Id)
    requires ListsOk(queues, inFlight, rqs, {})
    ensures ListsOk(queues, inFlight, rqs, {x})
  {}

  lemma HoleLists(queues: seq<seq<Id>>, inFlight: seq<Id>, rqs: Requests, rqs': Requests, x: Id)
    requires ListsOk(queues, inFlight, rqs, {x}) && SameBut(rqs, rqs', x)
    ensures ListsOk(queues, inFlight, rqs', {x})
  {}

  lemma HoleCmds(cmds: multiset<Cmd>, out: bool, inFlight: seq<Id>, rqs: Requests, rqs': Requests, x: Id)
    requires CmdsOk(cmds, out, inFlight, rqs, {x}) && SameBut(rqs, rqs', x)
    ensures CmdsOk(cmds, out, inFlight, rqs', {x})
  {
    forall c: Cmd | c == FlushCmd || c.id != x ensures CmdCount(cmds, out, inFlight, rqs', c) {
      assert CmdCount(cmds, out, inFlight, rqs, c);
    }
  }

  lemma HoleHistory(log: seq<Event>, rqs: Requests, rqs': Requests, x: Id)
    requires WaitsOk(log, rqs, {x}) && LogOk(log, rqs) && RqsOk(rqs, {x}) && SameBut(rqs, rqs', x)
    requires x in rqs' && (x in rqs ==> Kept(rqs[x], rqs'[x]))
    ensures WaitsOk(log, rqs', {x}) && LogOk(log, rqs') && RqsOk(rqs', {x})
  {
    forall k: nat | k < |log| ensures EventOk(log, rqs', k) {
      EventStaysOk(log, log, rqs, rqs', k);
    }
    forall id | Sequenced(rqs', id) && id != x ensures SinceOk(log, rqs', id) {
      assert SinceOk(log, rqs, id);
    }
  }

  /** While a request is in the hole its own record may change. */
  lemma HoleChanges(s: State, x: Id, rq: Request)
    requires Base(s, {x})
    requires x in s.rqs ==> Kept(s.rqs[x], rq)
    requires s.pending != s.running ==> x !in s.queues[s.running]
    ensures Base(s.(rqs := s.rqs[x := rq]), {x})
  {
    var rqs := s.rqs[x := rq];
    HoleLists(s.queues, s.inFlight, s.rqs, rqs, x);
    HoleCmds(Cmds(s), s.pending != s.running, s.inFlight, s.rqs, rqs, x);
    HoleHistory(s.log, s.rqs, rqs, x);
  }

  lemma RouteKeeps(s: State, id: Id, step: Step, error: bool)
    requires Base(s, {id}) && Moving(s, id, step, error)
    ensures Base(Route(s, id, step, error), {}) && s.log <= Route(s, id, step, error).log
  {
    if step == Done {
      RouteToDone(s, id, error);
    } else if step == Data {
      RouteToData(s, id);
    } else {
      RouteToFlush(s, id, step);
    }
  }

  lemma CompleteKeeps(s: State, id: Id, part: Mask, error: bool)
    requires Base(s, {id}) && id in s.rqs && !s.rqs[id].done.Overlaps(part)
    requires s.pending != s.running ==> id !in s.queues[s.running]
    requires var m := s.rqs[id].done.Or(part);
             Moving(s.(rqs := s.rqs[id := s.rqs[id].(done := m)]), id, if error then Done else CurSeq(m), error)
    ensures var s1 := CompleteSeq(s, id, part, error);
            Shaped(s1) && !s1.bug && Base(s1, {}) && NoStall(s1) && s.log <= s1.log
  {
    hide ListsOk, CmdsOk, LogOk, WaitsOk, RqsOk, OpenOk;
    var m := s.rqs[id].done.Or(part);
    var rq := s.rqs[id].(done := m);
    var step := if error then Done else CurSeq(m);
    HoleChanges(s, id, rq);
    var s0 := s.(rqs := s.rqs[id := rq]);
    RouteKeeps(s0, id, step, error);
    KickKeeps(Route(s0, id, step, error));
  }

  lemma LiveHole(queues: seq<seq<Id>>, inFlight: seq<Id>, rqs: Requests, cmds: multiset<Cmd>, out: bool, x: Id)
    requires ListsOk(queues, inFlight, rqs, {}) && CmdsOk(cmds, out, inFlight, rqs, {})
    requires x !in inFlight && !Normal(rqs, x)
    ensures ListsOk(queues, inFlight, rqs, {x}) && CmdsOk(cmds, out, inFlight, rqs, {x})
  {
    assert CmdCount(cmds, out, inFlight, rqs, DataCmd(x)) && CmdCount(cmds, out, inFlight, rqs, NormalCmd(x));
    forall c: Cmd | c != FlushCmd && c.id == x ensures cmds[c] == 0 {
      assert c == DataCmd(x) || c == NormalCmd(x);
    }
  }

  /** What a request on a flush list shares with no other place. */
  lemma OnlyThere(queues: seq<seq<Id>>, inFlight: seq<Id>, rqs: Requests, r: nat, x: Id)
    requires ListsOk(queues, inFlight, rqs, {}) && r < 2 && x in queues[r]
    ensures Sequenced(rqs, x) && AtFlush(rqs, x) && x !in queues[1 - r] && x !in inFlight
    ensures multiset(queues[r])[x] == 1
  {
    assert multiset(queues[r])[x] > 0;
    assert Places(queues, inFlight)[x] == 1;
    assert multiset(inFlight)[x] == 0 && multiset(queues[1 - r])[x] == 0;
  }

  /** The walk of flush_end_io over list r: the flush it waited for is behind every member. */
  ghost predicate WalkInv(s: State, r: nat, error: bool) {
    && Base(s, {}) && r < 2 && s.running == 1 - r
    && (!error ==> forall id :: id in s.queues[r] ==> id in s.rqs && Covered(s.log, s.rqs[id].since, |s.log|))
  }

  lemma NextStep(rq: Request, error: bool)
    requires rq.sequenced && !rq.ended && RqOk(rq) && CurSeq(rq.done) in {Preflush, Postflush}
    ensures var part := Bit(CurSeq(rq.done)); var rq1 := rq.(done := rq.done.Or(part));
            && !rq.done.Overlaps(part) && BioOk(rq1) && rq1.done.data == rq.done.data
            && (CurSeq(rq1.done) != Done ==> StepsOk(rq1))
  {}

  /** One visit of the walk. */
  lemma VisitKeeps(s: State, r: nat, error: bool)
    requires WalkInv(s, r, error) && s.queues[r] != []
    ensures var id := s.queues[r][0];
            && id in s.rqs && CurSeq(s.rqs[id].done) in {Preflush, Postflush}
            && var s1 := CompleteSeq(s, id, Bit(CurSeq(s.rqs[id].done)), error);
               Base(s1, {}) && NoStall(s1) && s.log <= s1.log
  {
    hide CompleteSeq;
    var id := s.queues[r][0];
    OnlyThere(s.queues, s.inFlight, s.rqs, r, id);
    var rq := s.rqs[id];
    assert RqOk(rq) && SinceOk(s.log, s.rqs, id);
    NextStep(rq, error);
    LiveHole(s.queues, s.inFlight, s.rqs, Cmds(s), s.pending != s.running, id);
    hide RqsOk, LogOk, OpenOk, ListsOk, CmdsOk;
    CompleteKeeps(s, id, Bit(CurSeq(rq.done)), error);
  }

  /** What one visit does to the list being walked, and to the indices. */
  ghost predicate Visited(s: State, s1: State, r: nat, id: Id) {
    && Shaped(s) && Shaped(s1) && r < 2
    && s1.running == s.running
    && (s.pending == r ==> s1.pending == r)
    && (s1.queues[r] == Remove(s.queues[r], id) || (s.pending == r && s1.queues[r] == Remove(s.queues[r], id) + [id]))
    && (forall y :: y in s.rqs ==> y in s1.rqs && s1.rqs[y].since == s.rqs[y].since)
  }

  lemma VisitLists(s: State, r: nat, id: Id, part: Mask, error: bool)
    requires Shaped(s) && r < 2 && s.running == 1 - r && !s.bug
    requires !CompleteSeq(s, id, part, error).bug
    ensures Visited(s, CompleteSeq(s, id, part, error), r, id)
  {
    var m := s.rqs[id].done.Or(part);
    var s0 := s.(rqs := s.rqs[id := s.rqs[id].(done := m)]);
    var step := if error then Done else CurSeq(m);
    RouteLists(s0, r, id, step, error);
    forall y | y in s.rqs ensures y in Route(s0, id, step, error).rqs && Route(s0, id, step, error).rqs[y].since == s.rqs[y].since {
      RouteRecords(s0, id, step, error, y);
    }
  }

  lemma RemoveHead<T>(l: seq<T>)
    requires l != [] && multiset(l)[l[0]] == 1
    ensures Remove(l, l[0]) == l[1..]
  {
    assert l == [l[0]] + l[1..];
    assert multiset(l[1..])[l[0]] == 0;
    RemoveAbsent(l[1..], l[0]);
  }

  lemma LastVisit(s: State, s1: State, r: nat)
    requires Shaped(s) && r < 2 && |s.queues[r]| == 1 && s.running == 1 - r
    requires Visited(s, s1, r, s.queues[r][0])
    requires Base(s1, {}) && NoStall(s1)
    ensures Inv(s1)
  {
    assert Remove(s.queues[r], s.queues[r][0]) == [];
  }

  /** The list walked has lost its head, or has it at its end. */
  lemma VisitedList(s: State, s1: State, r: nat)
    requires Base(s, {}) && r < 2 && |s.queues[r]| > 1 && Visited(s, s1, r, s.queues[r][0])
    ensures s1.queues[r] != [] && forall y :: y in s1.queues[r] ==> y in s.queues[r]
  {
    OnlyThere(s.queues, s.inFlight, s.rqs, r, s.queues[r][0]);
    RemoveHead(s.queues[r]);
    hide Base, Remove;
    assert s.queues[r] == [s.queues[r][0]] + s.queues[r][1..];
  }

  lemma NextVisit(s: State, s1: State, r: nat, error: bool)
    requires WalkInv(s, r, error) && |s.queues[r]| > 1 && Visited(s, s1, r, s.queues[r][0])
    requires Base(s1, {}) && s.log <= s1.log
    ensures WalkInv(s1, r, error) && s1.queues[r] != []
  {
    VisitedList(s, s1, r);
    hide Base, Covered, Remove;
    if !error {
      forall y | y in s1.queues[r] ensures y in s1.rqs && Covered(s1.log, s1.rqs[y].since, |s1.log|) {
        CoveredExtends(s.log, s1.log, s.rqs[y].since, |s.log|, |s1.log|);
      }
    }
  }

  lemma {:induction false} WalkKeeps(s: State, r: nat, error: bool)
    requires WalkInv(s, r, error) && s.queues[r] != []
    ensures Inv(Walk(s, r, error)) && s.log <= Walk(s, r, error).log
    decreases Work(s, s.queues[r])
  {
    var id := s.queues[r][0];
    VisitKeeps(s, r, error);
    var part := Bit(CurSeq(s.rqs[id].done));
    var s1 := CompleteSeq(s, id, part, error);
    VisitLists(s, r, id, part, error);
    if |s.queues[r]| == 1 {
      assert Walk(s, r, error) == s1;
      LastVisit(s, s1, r);
    } else {
      WalkShrinks(s, r, error);
      assert Walk(s, r, error) == Walk(s1, r, error);
      NextVisit(s, s1, r, error);
      WalkKeeps(s1, r, error);
    }
  }
}
