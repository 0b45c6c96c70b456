/**
  Runs of the FLUSH/FUA sequencer: any interleaving of submissions, the driver's
  fetches, requeues and completions, and the passing of time.
*/
module FlushRuns {
  import opened FlushModel
  import opened FlushSafety

  datatype Action =
    | InsertRq(id: Id, flush: bool, fua: bool, rqFlush: bool, rqFua: bool, hasBio: bool, sectors: nat)
    | Fetch
    | Requeue(cmd: Cmd)
    | FlushComplete(error: bool)
    | DataComplete(did: Id, bytes: nat, derror: bool)
    | NormalComplete(nid: Id, nbytes: nat, nerror: bool)
    | Tick(now: int)

  /** What the environment may do: submit a new request, or act as a driver on a command it holds. */
  predicate Enabled(s: State, a: Action) {
    match a
    case InsertRq(id, _, _, _, _, hasBio, sectors) => id !in s.rqs && (sectors != 0 ==> hasBio)
    case Fetch => s.head != []
    case Requeue(c) => c in s.driver
    case FlushComplete(_) => FlushCmd in s.driver
    case DataComplete(id, _, _) => DataCmd(id) in s.driver
    case NormalComplete(id, _, _) => NormalCmd(id) in s.driver
    case Tick(now) => s.now <= now
  }

  /** blk_update_request as a driver calls it, with what it reports on record. */
  function Driven(rq: Request, error: bool, bytes: nat): (Request, bool) {
    UpdateRequest(rq.(failed := rq.failed || (error && bytes > 0)), error, bytes)
  }

  /** __blk_end_request on a request whose end_io is flush_data_end_io. */
  function CompleteData(s: State, id: Id, bytes: nat, error: bool): State
    requires Shaped(s)
  {
    if id !in s.rqs then s.(bug := true)
    else
      var (rq, more) := Driven(s.rqs[id], error, bytes);
      var s1 := s.(rqs := s.rqs[id := rq]);
      if more then s1 else DataEnd(s1.(driver := s.driver - multiset{DataCmd(id)}), id, error)
  }

  function CompleteNormal(s: State, id: Id, bytes: nat, error: bool): State {
    if id !in s.rqs then s.(bug := true)
    else
      var (rq, more) := Driven(s.rqs[id], error, bytes);
      if more then s.(rqs := s.rqs[id := rq])
      else s.(rqs := s.rqs[id := rq.(ended := true)], driver := s.driver - multiset{NormalCmd(id)},
              log := s.log + [Ended(id, error)])
  }

  function Next(s: State, a: Action): State
    requires Shaped(s) && Enabled(s, a)
  {
    match a
    case InsertRq(id, flush, fua, rqFlush, rqFua, hasBio, sectors) =>
      Insert(s, id, Asked(flush, fua, rqFlush, rqFua, sectors), hasBio, 512 * sectors)
    case Fetch => s.(head := s.head[1..], driver := s.driver + multiset{s.head[0]})
    case Requeue(c) => s.(head := [c] + s.head, driver := s.driver - multiset{c})
    case FlushComplete(error) => FlushEnd(s.(driver := s.driver - multiset{FlushCmd}), error)
    case DataComplete(id, bytes, error) => CompleteData(s, id, bytes, error)
    case NormalComplete(id, bytes, error) => CompleteNormal(s, id, bytes, error)
    case Tick(now) => s.(now := now)
  }

  ghost predicate Legal(s: State, run: seq<Action>)
    decreases |run|
  {
    run != [] ==> Shaped(s) && Enabled(s, run[0]) && Legal(Next(s, run[0]), run[1..])
  }

  ghost function After(s: State, run: seq<Action>): State
    requires Legal(s, run)
    decreases |run|
  {
    if run == [] then s else After(Next(s, run[0]), run[1..])
  }

  // ------------------------------------------------------------------- steps

  lemma FlushBeginsOk(s: State, error: bool)
    requires Inv(s) && FlushCmd in s.driver
    ensures s.pending != s.running && s.queues[s.running] != []
    ensures WalkInv(FlushBegins(s.(driver := s.driver - multiset{FlushCmd}), error), s.running, error)
  {
    assert CmdCount(Cmds(s), s.pending != s.running, s.inFlight, s.rqs, FlushCmd);
    var s1 := FlushBegins(s.(driver := s.driver - multiset{FlushCmd}), error);
    assert CmdsOk(Cmds(s1), false, s.inFlight, s.rqs, {}) by {
      forall c: Cmd ensures CmdCount(Cmds(s1), false, s.inFlight, s.rqs, c) {
        assert CmdCount(Cmds(s), true, s.inFlight, s.rqs, c);
      }
    }
    LogGrows(s.log, FlushDone(error), s.rqs, s.rqs);
    WaitsGrow(s.log, s1.log, s.rqs, {});
    if !error {
      forall id | id in s.queues[s.running] ensures id in s.rqs && Covered(s1.log, s.rqs[id].since, |s1.log|) {
        assert FlushSpan(s1.log, s.rqs[id].since, s.issuedAt, |s.log|, |s1.log|);
      }
    }
  }

  lemma FlushEndKeeps(s: State, s': State, error: bool)
    requires Inv(s) && FlushCmd in s.driver && s' == Next(s, FlushComplete(error))
    ensures Inv(s') && s.log <= s'.log
  {
    FlushBeginsOk(s, error);
    var s0 := s.(driver := s.driver - multiset{FlushCmd});
    assert s' == FlushEnd(s0, error);
    WalkKeeps(FlushBegins(s0, error), s0.running, error);
  }

  lemma InData(s: State, id: Id)
    requires Inv(s) && Cmds(s)[DataCmd(id)] > 0
    ensures Sequenced(s.rqs, id) && AtData(s.rqs, id) && RqOk(s.rqs[id]) && SinceOk(s.log, s.rqs, id)
    ensures id in s.inFlight && id !in s.queues[0] && id !in s.queues[1]
    ensures Cmds(s)[DataCmd(id)] == 1 && Cmds(s)[NormalCmd(id)] == 0
  {
    assert CmdCount(Cmds(s), s.pending != s.running, s.inFlight, s.rqs, DataCmd(id));
    assert CmdCount(Cmds(s), s.pending != s.running, s.inFlight, s.rqs, NormalCmd(id));
    assert multiset(s.inFlight)[id] > 0;
    assert Places(s.queues, s.inFlight)[id] == 1;
    assert multiset(s.queues[0])[id] == 0 && multiset(s.queues[1])[id] == 0;
  }

  /** A driver's partial completion changes only how many bytes are left. */
  ghost predicate Touched(rqs: Requests, rqs': Requests, id: Id) {
    && SameBut(rqs, rqs', id) && id in rqs && id in rqs'
    && Kept(rqs'[id], rqs[id]) && rqs'[id].done == rqs[id].done
    && rqs'[id].sequenced == rqs[id].sequenced && rqs'[id].ended == rqs[id].ended && rqs'[id].since == rqs[id].since
    && RqOk(rqs'[id])
  }

  lemma TouchedCmds(cmds: multiset<Cmd>, out: bool, inFlight: seq<Id>, rqs: Requests, rqs': Requests, id: Id)
    requires CmdsOk(cmds, out, inFlight, rqs, {}) && Touched(rqs, rqs', id)
    ensures CmdsOk(cmds, out, inFlight, rqs', {})
  {
    forall c: Cmd ensures CmdCount(cmds, out, inFlight, rqs', c) {
      assert CmdCount(cmds, out, inFlight, rqs, c);
    }
  }

  lemma TouchedHistory(log: seq<Event>, rqs: Requests, rqs': Requests, id: Id)
    requires WaitsOk(log, rqs, {}) && LogOk(log, rqs) && RqsOk(rqs, {}) && Touched(rqs, rqs', id)
    ensures WaitsOk(log, rqs', {}) && LogOk(log, rqs') && RqsOk(rqs', {})
  {
    forall k: nat | k < |log| ensures EventOk(log, rqs', k) {
      EventStaysOk(log, log, rqs, rqs', k);
    }
    forall y | Sequenced(rqs', y) ensures SinceOk(log, rqs', y) {
      assert SinceOk(log, rqs, y);
    }
  }

  lemma TouchedLists(queues: seq<seq<Id>>, inFlight: seq<Id>, rqs: Requests, rqs': Requests, id: Id)
    requires ListsOk(queues, inFlight, rqs, {}) && Touched(rqs, rqs', id)
    ensures ListsOk(queues, inFlight, rqs', {})
  {
    assert forall y :: Sequenced(rqs', y) <==> Sequenced(rqs, y);
  }

  lemma TouchedOpen(log: seq<Event>, issuedAt: nat, running: seq<Id>, rqs: Requests, rqs': Requests, id: Id)
    requires OpenOk(log, issuedAt, running, rqs) && Touched(rqs, rqs', id)
    ensures OpenOk(log, issuedAt, running, rqs')
  {}

  lemma TouchKeeps(s: State, rqs: Requests, id: Id)
    requires Inv(s) && Touched(s.rqs, rqs, id)
    ensures Inv(s.(rqs := rqs))
  {
    hide CmdsOk, ListsOk, WaitsOk, LogOk, RqsOk, OpenOk, Touched;
    TouchedCmds(Cmds(s), s.pending != s.running, s.inFlight, s.rqs, rqs, id);
    TouchedHistory(s.log, s.rqs, rqs, id);
    TouchedLists(s.queues, s.inFlight, s.rqs, rqs, id);
    if s.pending != s.running { TouchedOpen(s.log, s.issuedAt, s.queues[s.running], s.rqs, rqs, id); }
  }

  lemma UpdateKept(rq: Request, error: bool, bytes: nat)
    ensures var (rq1, more) := Driven(rq, error, bytes);
            && Kept(rq1, rq) && rq1.done == rq.done && rq1.sequenced == rq.sequenced
            && rq1.since == rq.since && rq1.ended == rq.ended && rq1.hasBio == rq.hasBio
  {
    if !rq.attached {
    } else if bytes < rq.size {
    } else if rq.sequenced {
    } else {
    }
  }

  lemma UpdateBio(rq: Request, error: bool, bytes: nat)
    requires rq.attached && BioOk(rq) && !rq.ended
    ensures Driven(rq, error, bytes).1 ==> BioOk(Driven(rq, error, bytes).0)
  {}

  lemma UpdateOk(rq: Request, error: bool, bytes: nat)
    requires rq.attached && RqOk(rq) && !rq.ended
    ensures var (rq1, more) := Driven(rq, error, bytes);
            && Kept(rq1, rq) && rq1.done == rq.done && rq1.sequenced == rq.sequenced
            && rq1.since == rq.since && rq1.ended == rq.ended && rq1.hasBio == rq.hasBio
            && (more ==> RqOk(rq1))
  {
    hide Driven, CurSeq, BioOk;
    UpdateKept(rq, error, bytes);
    UpdateBio(rq, error, bytes);
  }

  lemma DriverDrops(head: seq<Cmd>, driver: multiset<Cmd>, c: Cmd)
    requires c in driver
    ensures multiset(head) + (driver - multiset{c}) == multiset(head) + driver - multiset{c}
  {}

  lemma CmdsDrop(cmds: multiset<Cmd>, out: bool, inFlight: seq<Id>, rqs: Requests, id: Id)
    requires CmdsOk(cmds, out, inFlight, rqs, {}) && id in inFlight && !Normal(rqs, id)
    ensures CmdsOk(cmds - multiset{DataCmd(id)}, out, inFlight, rqs, {id})
  {
    var cmds' := cmds - multiset{DataCmd(id)};
    assert CmdCount(cmds, out, inFlight, rqs, DataCmd(id)) && CmdCount(cmds, out, inFlight, rqs, NormalCmd(id));
    forall c: Cmd ensures c == FlushCmd || c.id != id ==> CmdCount(cmds', out, inFlight, rqs, c) {
      assert CmdCount(cmds, out, inFlight, rqs, c);
    }
    forall c: Cmd | c != FlushCmd && c.id == id ensures cmds'[c] == 0 {
      assert c == DataCmd(id) || c == NormalCmd(id);
    }
  }

  lemma DoneLog(log: seq<Event>, rqs: Requests, rqs': Requests, id: Id)
    requires WaitsOk(log, rqs, {}) && LogOk(log, rqs) && RqsOk(rqs, {}) && SameBut(rqs, rqs', id)
    requires id in rqs && id in rqs' && Kept(rqs[id], rqs'[id])
    ensures var log' := log + [DataDone(id)]; WaitsOk(log', rqs', {id}) && LogOk(log', rqs') && RqsOk(rqs', {id})
  {
    LogGrows(log, DataDone(id), rqs, rqs);
    WaitsGrow(log, log + [DataDone(id)], rqs, {});
    HoleHistory(log + [DataDone(id)], rqs, rqs', id);
  }

  /** The state handed to blk_flush_complete_seq when DATA completed: its request is in the hole. */
  lemma DataHole(s: State, s2: State, id: Id)
    requires Inv(s) && DataCmd(id) in s.driver && id in s.rqs && id in s2.rqs && Kept(s2.rqs[id], s.rqs[id])
    requires SameBut(s.rqs, s2.rqs, id)
    requires s2 == s.(rqs := s2.rqs, driver := s.driver - multiset{DataCmd(id)}, log := s.log + [DataDone(id)])
    ensures Shaped(s2) && !s2.bug && Base(s2, {id}) && (s2.pending != s2.running ==> id !in s2.queues[s2.running])
  {
    hide ListsOk, CmdsOk, LogOk, WaitsOk, RqsOk, OpenOk;
    InData(s, id);
    var out := s.pending != s.running;
    ListsHole(s.queues, s.inFlight, s.rqs, id);
    HoleLists(s.queues, s.inFlight, s.rqs, s2.rqs, id);
    assert Cmds(s2) == Cmds(s) - multiset{DataCmd(id)} by {
      DriverDrops(s.head, s.driver, DataCmd(id));
    }
    CmdsDrop(Cmds(s), out, s.inFlight, s.rqs, id);
    HoleCmds(Cmds(s2), out, s.inFlight, s.rqs, s2.rqs, id);
    DoneLog(s.log, s.rqs, s2.rqs, id);
    if out {
      OpenGrows(s.log, DataDone(id), s.issuedAt, s.queues[s.running], s.rqs, s2.rqs, id);
    }
  }

  lemma DataStep(rq: Request, error: bool, bytes: nat, at: nat)
    requires rq.sequenced && !rq.ended && RqOk(rq) && CurSeq(rq.done) == Data
    requires !Driven(rq, error, bytes).1
    ensures var rq1 := Driven(rq, error, bytes).0.(since := at, done := rq.done.Or(Bit(Data)));
            && BioOk(rq1) && rq1.sequenced && Kept(rq1, rq) && rq1.policy.data && rq1.done.data
            && (CurSeq(rq1.done) != Done ==> StepsOk(rq1)) && CurSeq(rq1.done) != Data
            && (CurSeq(rq1.done) == Done ==> !rq.policy.post)
            && !rq.done.Overlaps(Bit(Data))
  {}

  /** The last completion of DATA: blk_flush_complete_seq is entered as it expects. */
  lemma DataEndKeeps(s: State, s2: State, id: Id, bytes: nat, error: bool)
    requires Inv(s) && DataCmd(id) in s.driver && id in s.rqs && !Driven(s.rqs[id], error, bytes).1
    requires id in s2.rqs && SameBut(s.rqs, s2.rqs, id)
    requires s2.rqs[id] == Driven(s.rqs[id], error, bytes).0.(since := |s.log|)
    requires s2 == s.(rqs := s2.rqs, driver := s.driver - multiset{DataCmd(id)}, log := s.log + [DataDone(id)])
    ensures Shaped(s2) && var s' := CompleteSeq(s2, id, Bit(Data), error); Inv(s') && s2.log <= s'.log
  {
    hide Base, CompleteSeq, Driven;
    InData(s, id);
    UpdateOk(s.rqs[id], error, bytes);
    DataStep(s.rqs[id], error, bytes, |s.log|);
    DataHole(s, s2, id);
    CompleteKeeps(s2, id, Bit(Data), error);
    CompleteOthers(s2, id, Bit(Data), error);
  }

  /** The state in which blk_flush_complete_seq is entered when the last byte of DATA is done. */
  function DataOver(s: State, id: Id, rq: Request): State {
    s.(rqs := s.rqs[id := rq.(since := |s.log|)], driver := s.driver - multiset{DataCmd(id)}, log := s.log + [DataDone(id)])
  }

  lemma DataIs(s: State, id: Id, bytes: nat, error: bool)
    requires Shaped(s) && id in s.rqs && DataCmd(id) in s.driver
    ensures var (rq, more) := Driven(s.rqs[id], error, bytes);
            Next(s, DataComplete(id, bytes, error)) ==
            if more then s.(rqs := s.rqs[id := rq]) else CompleteSeq(DataOver(s, id, rq), id, Bit(Data), error)
  {
    hide CompleteSeq, Driven;
    var rq := Driven(s.rqs[id], error, bytes).0;
    assert s.rqs[id := rq][id := rq.(since := |s.log|)] == s.rqs[id := rq.(since := |s.log|)];
  }

  lemma DataTouches(s: State, id: Id, bytes: nat, error: bool)
    requires Inv(s) && DataCmd(id) in s.driver && id in s.rqs && Driven(s.rqs[id], error, bytes).1
    ensures Inv(s.(rqs := s.rqs[id := Driven(s.rqs[id], error, bytes).0]))
  {
    InData(s, id);
    hide Inv, Driven;
    UpdateOk(s.rqs[id], error, bytes);
    hide RqOk;
    TouchKeeps(s, s.rqs[id := Driven(s.rqs[id], error, bytes).0], id);
  }

  lemma DataEnds(s: State, id: Id, bytes: nat, error: bool)
    requires Inv(s) && DataCmd(id) in s.driver && id in s.rqs && !Driven(s.rqs[id], error, bytes).1
    ensures var s2 := DataOver(s, id, Driven(s.rqs[id], error, bytes).0);
            Shaped(s2) && var s' := CompleteSeq(s2, id, Bit(Data), error); Inv(s') && s.log <= s'.log
  {
    hide Inv, CompleteSeq, Driven, RqOk, Bit;
    var s2 := DataOver(s, id, Driven(s.rqs[id], error, bytes).0);
    DataEndKeeps(s, s2, id, bytes, error);
    assert s.log <= s2.log;
  }

  lemma DataKeeps(s: State, id: Id, bytes: nat, error: bool)
    requires Inv(s) && DataCmd(id) in s.driver
    ensures Shaped(s) && var s' := Next(s, DataComplete(id, bytes, error)); Inv(s') && s.log <= s'.log
  {
    InData(s, id);
    hide Inv, CompleteSeq, Driven, Next;
    DataIs(s, id, bytes, error);
    if Driven(s.rqs[id], error, bytes).1 {
      DataTouches(s, id, bytes, error);
    } else {
      DataEnds(s, id, bytes, error);
    }
  }

  /** Outside the walk, completing one request leaves the idle flush list empty. */
  lemma CompleteOthers(s: State, id: Id, part: Mask, error: bool)
    requires Shaped(s) && !s.bug && !CompleteSeq(s, id, part, error).bug
    requires s.pending == s.running ==> s.queues[1 - s.pending] == []
    ensures var s1 := CompleteSeq(s, id, part, error);
            Shaped(s1) && (s1.pending == s1.running ==> s1.queues[1 - s1.pending] == [])
  {
    hide Route, Kick, CurSeq;
    var m := s.rqs[id].done.Or(part);
    var s0 := s.(rqs := s.rqs[id := s.rqs[id].(done := m)]);
    var step := if error then Done else CurSeq(m);
    RouteLists(s0, 1 - s.pending, id, step, error);
    KickOthers(Route(s0, id, step, error));
  }

  lemma KickOthers(s: State)
    requires Shaped(s) && (s.pending == s.running ==> s.queues[1 - s.pending] == [])
    ensures var s1 := Kick(s); Shaped(s1) && (s1.pending == s1.running ==> s1.queues[1 - s1.pending] == [])
  {}

  // --------------------------------------------------------------- insertion

  lemma NewCmds(cmds: multiset<Cmd>, out: bool, inFlight: seq<Id>, rqs: Requests, id: Id)
    requires CmdsOk(cmds, out, inFlight, rqs, {}) && id !in rqs && id !in inFlight
    ensures CmdsOk(cmds, out, inFlight, rqs, {id})
  {
    assert CmdCount(cmds, out, inFlight, rqs, DataCmd(id)) && CmdCount(cmds, out, inFlight, rqs, NormalCmd(id));
    forall c: Cmd | c != FlushCmd && c.id == id ensures cmds[c] == 0 {
      assert c == DataCmd(id) || c == NormalCmd(id);
    }
  }

  predicate AsAsked(rq: Request) {
    rq.policy == Policy(rq.asked) && rq.fua == (rq.asked.fua && rq.asked.rqFua)
  }

  lemma NewLog(log: seq<Event>, rqs: Requests, id: Id, rq: Request)
    requires WaitsOk(log, rqs, {}) && LogOk(log, rqs) && RqsOk(rqs, {}) && id !in rqs && AsAsked(rq)
    ensures var log', rqs' := log + [Inserted(id, rq.asked)], rqs[id := rq];
            WaitsOk(log', rqs', {id}) && LogOk(log', rqs') && RqsOk(rqs', {id})
  {
    var rqs' := rqs[id := rq];
    HoleHistory(log, rqs, rqs', id);
    LogGrows(log, Inserted(id, rq.asked), rqs', rqs');
    WaitsGrow(log, log + [Inserted(id, rq.asked)], rqs', {id});
  }

  lemma NotListed(queues: seq<seq<Id>>, inFlight: seq<Id>, rqs: Requests, id: Id)
    requires ListsOk(queues, inFlight, rqs, {}) && !Sequenced(rqs, id)
    ensures id !in queues[0] && id !in queues[1] && id !in inFlight
  {
    assert Places(queues, inFlight)[id] == 0;
    assert multiset(queues[0])[id] == 0 && multiset(queues[1])[id] == 0 && multiset(inFlight)[id] == 0;
  }

  /** A fresh request, recorded and logged, is in the hole. */
  lemma NewHole(s: State, id: Id, rq: Request)
    requires Inv(s) && id !in s.rqs && AsAsked(rq)
    ensures var s1 := s.(rqs := s.rqs[id := rq], log := s.log + [Inserted(id, rq.asked)]);
            && Shaped(s1) && !s1.bug && Base(s1, {id})
            && id !in s1.queues[0] && id !in s1.queues[1] && id !in s1.inFlight
  {
    hide ListsOk, CmdsOk, LogOk, WaitsOk, RqsOk, OpenOk;
    var out, rqs := s.pending != s.running, s.rqs[id := rq];
    NotListed(s.queues, s.inFlight, s.rqs, id);
    ListsHole(s.queues, s.inFlight, s.rqs, id);
    HoleLists(s.queues, s.inFlight, s.rqs, rqs, id);
    NewCmds(Cmds(s), out, s.inFlight, s.rqs, id);
    HoleCmds(Cmds(s), out, s.inFlight, s.rqs, rqs, id);
    NewLog(s.log, s.rqs, id, rq);
    if out {
      OpenGrows(s.log, Inserted(id, rq.asked), s.issuedAt, s.queues[s.running], s.rqs, rqs, id);
    }
  }

  /** A request that goes through the flush machinery. */
  lemma InsertSequenced(s: State, s': State, id: Id, asked: Asked, hasBio: bool, bytes: nat)
    requires Inv(s) && id !in s.rqs && (Policy(asked).data ==> hasBio) && (Policy(asked).pre || Policy(asked).post)
    requires s' == Insert(s, id, asked, hasBio, bytes)
    ensures Inv(s') && s.log + [Inserted(id, asked)] <= s'.log
  {
    hide Base, CompleteSeq;
    var rq := NewRequest(asked, hasBio, bytes, |s.log|);
    NewHole(s, id, rq.(sequenced := true));
    var s1 := s.(rqs := s.rqs[id := rq], log := s.log + [Inserted(id, rq.asked)]);
    var s2 := s1.(rqs := s1.rqs[id := rq.(sequenced := true)]);
    assert s2.rqs == s.rqs[id := rq.(sequenced := true)];
    assert s' == CompleteSeq(s2, id, Policy(asked).Not(), false);
    CompleteKeeps(s2, id, Policy(asked).Not(), false);
    CompleteOthers(s2, id, Policy(asked).Not(), false);
  }

  // ------------------------------------------- requests outside the sequencer

  lemma NormalCmds(cmds: multiset<Cmd>, out: bool, inFlight: seq<Id>, rqs: Requests, rqs': Requests, id: Id)
    requires CmdsOk(cmds, out, inFlight, rqs, {id}) && id !in inFlight && SameBut(rqs, rqs', id)
    ensures CmdsOk(if Normal(rqs', id) then cmds[NormalCmd(id) := cmds[NormalCmd(id)] + 1] else cmds, out, inFlight, rqs', {})
  {
    var cmds' := if Normal(rqs', id) then cmds[NormalCmd(id) := cmds[NormalCmd(id)] + 1] else cmds;
    forall c: Cmd ensures CmdCount(cmds', out, inFlight, rqs', c) {
      assert c == FlushCmd || c.id != id ==> CmdCount(cmds, out, inFlight, rqs, c);
    }
  }

  lemma PlainLists(queues: seq<seq<Id>>, inFlight: seq<Id>, rqs: Requests, rqs': Requests, id: Id)
    requires ListsOk(queues, inFlight, rqs, {id}) && SameBut(rqs, rqs', id) && !Sequenced(rqs', id)
    requires id !in queues[0] && id !in queues[1] && id !in inFlight
    ensures ListsOk(queues, inFlight, rqs', {})
  {
    assert Places(queues, inFlight)[id] == 0;
  }

  /** A request that is not sequenced leaves the hole: queued as a normal command, or ended. */
  lemma PlainSettles(s: State, s': State, id: Id)
    requires Base(s, {id}) && Shaped(s) && id !in s.queues[0] && id !in s.queues[1] && id !in s.inFlight
    requires SameBut(s.rqs, s'.rqs, id) && id in s'.rqs && id in s.rqs && Kept(s'.rqs[id], s.rqs[id])
    requires RqOk(s'.rqs[id]) && !s'.rqs[id].sequenced
    requires s' == s.(rqs := s'.rqs, head := s'.head, log := s'.log)
    requires s'.log == s.log || exists e :: s'.log == s.log + [Ended(id, e)]
    requires s'.log != s.log ==> s.rqs[id].policy.Empty() || s.rqs[id].policy == Mask(false, true, false)
    requires s'.head == if Normal(s'.rqs, id) then s.head + [NormalCmd(id)] else s.head
    ensures Base(s', {})
  {
    hide ListsOk, CmdsOk, RqsOk, OpenOk, LogOk, WaitsOk;
    var out := s.pending != s.running;
    PlainLists(s.queues, s.inFlight, s.rqs, s'.rqs, id);
    CmdAppended(s, NormalCmd(id));
    NormalCmds(Cmds(s), out, s.inFlight, s.rqs, s'.rqs, id);
    RequestsSettle(s.log, s'.log, s.rqs, s'.rqs, id);
    if s'.log != s.log {
      var e :| s'.log == s.log + [Ended(id, e)];
      LogGrows(s.log, Ended(id, e), s.rqs, s'.rqs);
    } else {
      HoleHistory(s.log, s.rqs, s'.rqs, id);
    }
    if out {
      PlainOpen(s.log, s'.log, s.issuedAt, s.queues[s.running], s.rqs, s'.rqs, id);
    }
  }

  lemma PlainOpen(log: seq<Event>, log': seq<Event>, issuedAt: nat, running: seq<Id>, rqs: Requests, rqs': Requests, id: Id)
    requires OpenOk(log, issuedAt, running, rqs) && id !in running && SameBut(rqs, rqs', id)
    requires log' == log || exists e :: log' == log + [Ended(id, e)]
    ensures OpenOk(log', issuedAt, running, rqs')
  {}

  lemma InsertPlain(s: State, s': State, id: Id, asked: Asked, hasBio: bool, bytes: nat)
    requires Inv(s) && id !in s.rqs && (Policy(asked).data ==> hasBio) && !Policy(asked).pre && !Policy(asked).post
    requires !Policy(asked).data ==> bytes == 0
    requires s' == Insert(s, id, asked, hasBio, bytes)
    ensures Inv(s') && s.log + [Inserted(id, asked)] <= s'.log
  {
    hide Base;
    var rq := NewRequest(asked, hasBio, bytes, |s.log|);
    NewHole(s, id, rq);
    var s1 := s.(rqs := s.rqs[id := rq], log := s.log + [Inserted(id, rq.asked)]);
    assert s'.log == s1.log || s'.log == s1.log + [Ended(id, false)];
    PlainSettles(s1, s', id);
  }

  lemma IsNormal(s: State, id: Id)
    requires Inv(s) && Cmds(s)[NormalCmd(id)] > 0
    ensures Shaped(s) && Normal(s.rqs, id) && RqOk(s.rqs[id]) && Cmds(s)[NormalCmd(id)] == 1 && Cmds(s)[DataCmd(id)] == 0
    ensures id !in s.queues[0] && id !in s.queues[1] && id !in s.inFlight
  {
    assert CmdCount(Cmds(s), s.pending != s.running, s.inFlight, s.rqs, DataCmd(id));
    assert CmdCount(Cmds(s), s.pending != s.running, s.inFlight, s.rqs, NormalCmd(id));
    NotListed(s.queues, s.inFlight, s.rqs, id);
  }

  lemma NormalDrop(cmds: multiset<Cmd>, out: bool, inFlight: seq<Id>, rqs: Requests, id: Id)
    requires CmdsOk(cmds, out, inFlight, rqs, {}) && id !in inFlight
    ensures CmdsOk(cmds - multiset{NormalCmd(id)}, out, inFlight, rqs, {id})
  {
    var cmds' := cmds - multiset{NormalCmd(id)};
    assert CmdCount(cmds, out, inFlight, rqs, DataCmd(id)) && CmdCount(cmds, out, inFlight, rqs, NormalCmd(id));
    forall c: Cmd ensures c == FlushCmd || c.id != id ==> CmdCount(cmds', out, inFlight, rqs, c) {
      assert CmdCount(cmds, out, inFlight, rqs, c);
    }
    forall c: Cmd | c != FlushCmd && c.id == id ensures cmds'[c] == 0 {
      assert c == DataCmd(id) || c == NormalCmd(id);
    }
  }

  lemma NormalHole(s: State, id: Id)
    requires Inv(s) && NormalCmd(id) in s.driver
    ensures Base(s.(driver := s.driver - multiset{NormalCmd(id)}), {id})
  {
    hide ListsOk, CmdsOk, OpenOk, LogOk;
    IsNormal(s, id);
    ListsHole(s.queues, s.inFlight, s.rqs, id);
    DriverDrops(s.head, s.driver, NormalCmd(id));
    NormalDrop(Cmds(s), s.pending != s.running, s.inFlight, s.rqs, id);
  }

  lemma NormalStep(rq: Request, error: bool, bytes: nat)
    requires RqOk(rq) && !rq.sequenced && !rq.ended
    ensures rq.attached && rq.policy == Mask(false, true, false)
    ensures var (rq1, more) := Driven(rq, error, bytes);
            !more ==> RqOk(rq1.(ended := true)) && !rq1.sequenced && Kept(rq1.(ended := true), rq)
  {
    hide CurSeq;
  }

  lemma NormalTouches(s: State, id: Id, bytes: nat, error: bool)
    requires Inv(s) && NormalCmd(id) in s.driver && id in s.rqs && Driven(s.rqs[id], error, bytes).1
    ensures Inv(s.(rqs := s.rqs[id := Driven(s.rqs[id], error, bytes).0]))
  {
    IsNormal(s, id);
    hide Inv, Driven;
    NormalStep(s.rqs[id], error, bytes);
    UpdateOk(s.rqs[id], error, bytes);
    hide RqOk;
    TouchKeeps(s, s.rqs[id := Driven(s.rqs[id], error, bytes).0], id);
  }

  lemma NormalEnds(s: State, s': State, id: Id, bytes: nat, error: bool)
    requires Inv(s) && NormalCmd(id) in s.driver && id in s.rqs && !Driven(s.rqs[id], error, bytes).1
    requires s' == CompleteNormal(s, id, bytes, error)
    ensures Inv(s') && s.log <= s'.log
  {
    hide Base, Driven;
    IsNormal(s, id);
    NormalStep(s.rqs[id], error, bytes);
    NormalHole(s, id);
    hide RqOk;
    var s1 := s.(driver := s.driver - multiset{NormalCmd(id)});
    assert s'.log == s1.log + [Ended(id, error)];
    PlainSettles(s1, s', id);
  }

  lemma NormalKeeps(s: State, id: Id, bytes: nat, error: bool)
    requires Inv(s) && NormalCmd(id) in s.driver
    ensures var s' := CompleteNormal(s, id, bytes, error); Inv(s') && s.log <= s'.log
  {
    IsNormal(s, id);
    hide Inv, Driven;
    if Driven(s.rqs[id], error, bytes).1 {
      NormalTouches(s, id, bytes, error);
    } else {
      NormalEnds(s, CompleteNormal(s, id, bytes, error), id, bytes, error);
    }
  }

  // -------------------------------------------------------------- whole runs

  /** Moving a command between the dispatch list and the driver changes nothing else. */
  lemma MoveKeeps(s: State, s': State)
    requires Inv(s) && s' == s.(head := s'.head, driver := s'.driver, now := s'.now) && Cmds(s') == Cmds(s)
    ensures Inv(s')
  {
    hide ListsOk, CmdsOk, RqsOk, OpenOk, LogOk, WaitsOk;
  }

  /** The flags and length a submission comes with. */
  function Flags(a: Action): Asked
    requires a.InsertRq?
  {
    Asked(a.flush, a.fua, a.rqFlush, a.rqFua, a.sectors)
  }

  lemma InsertRqKeeps(s: State, a: Action)
    requires Inv(s) && Enabled(s, a) && a.InsertRq?
    ensures Inv(Next(s, a)) && s.log + [Inserted(a.id, Flags(a))] <= Next(s, a).log
  {
    assert Shaped(s);
    hide Base, CompleteData, CompleteNormal, Insert, FlushEnd, Policy;
    var asked := Flags(a);
    if Policy(asked).pre || Policy(asked).post {
      InsertSequenced(s, Next(s, a), a.id, asked, a.hasBio, 512 * a.sectors);
    } else {
      InsertPlain(s, Next(s, a), a.id, asked, a.hasBio, 512 * a.sectors);
    }
  }

  /** Fetching, requeueing and the passing of time. */
  lemma IdleKeeps(s: State, a: Action)
    requires Inv(s) && Enabled(s, a) && (a.Fetch? || a.Requeue? || a.Tick?)
    ensures Inv(Next(s, a)) && s.log <= Next(s, a).log
  {
    assert Shaped(s);
    hide Base, CompleteData, CompleteNormal, Insert, FlushEnd, Policy;
    if a.Fetch? {
      assert s.head == [s.head[0]] + s.head[1..];
    }
    MoveKeeps(s, Next(s, a));
  }

  lemma NextKeeps(s: State, a: Action)
    requires Inv(s) && Enabled(s, a)
    ensures Inv(Next(s, a)) && s.log <= Next(s, a).log
  {
    assert Shaped(s);
    hide Inv, CompleteData, CompleteNormal, Insert, FlushEnd, Policy;
    match a
    case FlushComplete(error) => FlushEndKeeps(s, Next(s, a), error);
    case DataComplete(id, bytes, error) => DataKeeps(s, id, bytes, error);
    case NormalComplete(id, bytes, error) => NormalKeeps(s, id, bytes, error);
    case InsertRq(_, _, _, _, _, _, _) => InsertRqKeeps(s, a);
    case _ => IdleKeeps(s, a);
  }

  lemma InitOk(timeout: int, now: int)
    ensures Inv(Init(timeout, now))
  {
    var s := Init(timeout, now);
    assert Places(s.queues, s.inFlight) == multiset{};
    assert Cmds(s) == multiset{};
  }

  lemma {:induction false} RunKeeps(s: State, run: seq<Action>)
    requires Inv(s) && Legal(s, run)
    ensures Inv(After(s, run))
    decreases |run|
  {
    hide Base;
    if run != [] {
      NextKeeps(s, run[0]);
      RunKeeps(Next(s, run[0]), run[1..]);
    }
  }

  lemma {:induction false} RunLogs(s: State, run: seq<Action>)
    requires Inv(s) && Legal(s, run)
    ensures s.log <= After(s, run).log
    decreases |run|
  {
    hide Inv, Next;
    if run != [] {
      NextKeeps(s, run[0]);
      RunLogs(Next(s, run[0]), run[1..]);
    }
  }

  lemma PrefixAt(a: seq<Event>, e: Event, b: seq<Event>, c: seq<Event>)
    requires a + [e] <= b && b <= c
    ensures |a| < |c| && c[|a|] == e
  {}

  /** The history tells what each submission of a run asked for. */
  lemma {:induction false} AskedRecorded(s: State, run: seq<Action>, i: nat) returns (j: nat)
    requires Inv(s) && Legal(s, run) && i < |run| && run[i].InsertRq?
    ensures j < |After(s, run).log| && After(s, run).log[j] == Inserted(run[i].id, Flags(run[i]))
    decreases |run|
  {
    hide Inv, Next, Enabled, Flags, Shaped;
    var s1 := Next(s, run[0]);
    NextKeeps(s, run[0]);
    if i == 0 {
      InsertRqKeeps(s, run[0]);
      RunLogs(s1, run[1..]);
      j := |s.log|;
      PrefixAt(s.log, Inserted(run[0].id, Flags(run[0])), s1.log, After(s1, run[1..]).log);
    } else {
      j := AskedRecorded(s1, run[1..], i - 1);
    }
  }

  /** A state some run of the queue reaches. */
  ghost predicate Reachable(s: State) {
    exists timeout, now, run :: Legal(Init(timeout, now), run) && After(Init(timeout, now), run) == s
  }

  lemma ReachableOk(s: State)
    requires Reachable(s)
    ensures Inv(s)
  {
    var timeout, now, run :| Legal(Init(timeout, now), run) && After(Init(timeout, now), run) == s;
    InitOk(timeout, now);
    RunKeeps(Init(timeout, now), run);
  }

  /** No BUG is reached, at most one flush is out, and a pending flush always has something to trigger it. */
  lemma OneFlushNoStall(s: State)
    requires Reachable(s)
    ensures Shaped(s) && !s.bug
    ensures Cmds(s)[FlushCmd] == if s.pending != s.running then 1 else 0
    ensures s.pending == s.running && s.queues[s.pending] != [] ==>
              exists id :: id in s.inFlight && Cmds(s)[DataCmd(id)] == 1
    ensures s.pending == s.running ==> s.queues[1 - s.pending] == []
  {
    ReachableOk(s);
    assert CmdCount(Cmds(s), s.pending != s.running, s.inFlight, s.rqs, FlushCmd);
    if s.inFlight != [] {
      assert s.inFlight[0] in s.inFlight;
      assert CmdCount(Cmds(s), s.pending != s.running, s.inFlight, s.rqs, DataCmd(s.inFlight[0]));
    }
  }

  /** A sequenced request is on one list only, the one for its current step; other requests are on none. */
  lemma OneListPerRequest(s: State, id: Id)
    requires Reachable(s)
    ensures Shaped(s)
    ensures Places(s.queues, s.inFlight)[id] == if Sequenced(s.rqs, id) then 1 else 0
    ensures id in s.queues[0] || id in s.queues[1] ==> AtFlush(s.rqs, id)
    ensures id in s.inFlight ==> AtData(s.rqs, id)
    ensures Cmds(s)[DataCmd(id)] == if id in s.inFlight then 1 else 0
  {
    ReachableOk(s);
    assert CmdCount(Cmds(s), s.pending != s.running, s.inFlight, s.rqs, DataCmd(id));
  }

  /** DATA of a request that asked for a preflush starts only behind a flush issued after its insertion. */
  lemma PreflushDurable(s: State, k: nat, id: Id)
    requires Reachable(s) && k < |s.log| && s.log[k] == DataStart(id)
    ensures id in s.rqs
    ensures s.rqs[id].policy.pre ==> CoveredSince(s.log, Inserted(id, s.rqs[id].asked), k)
  {
    ReachableOk(s);
    assert EventOk(s.log, s.rqs, k);
  }

  /**
    A request that wrote data and asked for a postflush ends without error only
    behind a flush issued after its DATA completed; a request without data, only
    behind a flush issued after its insertion.
  */
  lemma PostflushDurable(s: State, k: nat, id: Id)
    requires Reachable(s) && k < |s.log| && s.log[k] == Ended(id, false)
    ensures id in s.rqs
    ensures s.rqs[id].policy.data && s.rqs[id].policy.post ==> CoveredSince(s.log, DataDone(id), k)
    ensures !s.rqs[id].policy.data && !s.rqs[id].policy.Empty() ==> CoveredSince(s.log, Inserted(id, s.rqs[id].asked), k)
  {
    ReachableOk(s);
    assert EventOk(s.log, s.rqs, k);
  }

  /**
    From the flags alone, on a queue with a write-back cache: DATA of a request with REQ_FLUSH starts only
    behind a flush issued after its insertion.
  */
  lemma FlushBeforeData(s: State, i: nat, k: nat, id: Id, a: Asked)
    requires Reachable(s) && i < |s.log| && s.log[i] == Inserted(id, a) && k < |s.log| && s.log[k] == DataStart(id)
    ensures a.flush && a.rqFlush ==> CoveredSince(s.log, Inserted(id, a), k)
  {
    ReachableOk(s);
    assert EventOk(s.log, s.rqs, i) && EventOk(s.log, s.rqs, k);
  }

  /**
    From the flags alone: a request with REQ_FUA, on a queue with a cache but no FUA, ends without error only behind
    a flush issued after its data were written; an empty one that asks for a flush, behind a flush issued after its
    insertion; and one with data that asks for any flush, only after its data were written.
  */
  lemma FlushBeforeEnd(s: State, i: nat, k: nat, id: Id, a: Asked)
    requires Reachable(s) && i < |s.log| && s.log[i] == Inserted(id, a) && k < |s.log| && s.log[k] == Ended(id, false)
    ensures a.flush && !a.fua && a.rqFua && a.sectors != 0 ==> CoveredSince(s.log, DataDone(id), k)
    ensures a.flush && (a.rqFlush || (!a.fua && a.rqFua)) && a.sectors == 0 ==> CoveredSince(s.log, Inserted(id, a), k)
    ensures a.flush && a.rqFlush && a.sectors != 0 ==> Before(s.log, DataDone(id), k)
  {
    ReachableOk(s);
    assert EventOk(s.log, s.rqs, i) && EventOk(s.log, s.rqs, k);
  }

  /**
    From the flags alone: a request that needs no flush is on no list and never in the sequence; with data it is one
    normal command until it has ended, without data it has ended. One that needs a flush is never a normal command.
    REQ_FUA reaches the driver just when the request has it and the queue can do it.
  */
  lemma NoFlushNormal(s: State, i: nat, id: Id, a: Asked)
    requires Reachable(s) && i < |s.log| && s.log[i] == Inserted(id, a)
    ensures Shaped(s) && id in s.rqs && (s.rqs[id].fua <==> a.fua && a.rqFua)
    ensures !(a.flush && a.rqFlush) && !(a.flush && !a.fua && a.rqFua) ==>
              && !s.rqs[id].sequenced && Cmds(s)[DataCmd(id)] == 0
              && id !in s.queues[0] && id !in s.queues[1] && id !in s.inFlight
              && Cmds(s)[NormalCmd(id)] == (if s.rqs[id].ended then 0 else 1)
              && (a.sectors == 0 ==> s.rqs[id].ended)
    ensures (a.flush && a.rqFlush) || (a.flush && !a.fua && a.rqFua) ==>
              Cmds(s)[NormalCmd(id)] == 0 && (s.rqs[id].sequenced <==> !s.rqs[id].ended)
  {
    ReachableOk(s);
    assert EventOk(s.log, s.rqs, i) && RqOk(s.rqs[id]);
    assert CmdCount(Cmds(s), s.pending != s.running, s.inFlight, s.rqs, NormalCmd(id));
    assert CmdCount(Cmds(s), s.pending != s.running, s.inFlight, s.rqs, DataCmd(id));
    if !s.rqs[id].sequenced { NotListed(s.queues, s.inFlight, s.rqs, id); }
  }

  /** A bio of which a driver reported any byte as failed is not ended as good. */
  lemma FailureReported(s: State, id: Id)
    requires Reachable(s) && id in s.rqs && s.rqs[id].failed && s.rqs[id].ended && s.rqs[id].hasBio
    ensures s.rqs[id].ends == 1 && !s.rqs[id].endedOk
  {
    ReachableOk(s);
    assert RqOk(s.rqs[id]);
  }

  /** bio_endio is called exactly once per bio, and not before the request is finished. */
  lemma BioEndedOnce(s: State, id: Id)
    requires Reachable(s) && id in s.rqs
    ensures s.rqs[id].ends == if s.rqs[id].ended && s.rqs[id].hasBio then 1 else 0
  {
    ReachableOk(s);
    assert RqOk(s.rqs[id]);
  }
}
