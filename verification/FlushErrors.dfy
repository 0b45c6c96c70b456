/**
  Errors of the flush sequencer (block/blk-flush.c) come from the driver: a run
  in which it reports none fails no request and no bio.
*/
module FlushErrors {
  import opened FlushModel
  import opened FlushRuns

  /** Nothing went wrong with a request: its bio is up to date, and was ended as good if it was. */
  predicate Good(rq: Request) { rq.uptodate && (rq.ends > 0 ==> rq.endedOk) }

  predicate Fine(e: Event) { e.Ended? ==> !e.error }

  ghost predicate Clean(s: State) {
    (forall id :: id in s.rqs ==> Good(s.rqs[id])) && (forall k :: 0 <= k < |s.log| ==> Fine(s.log[k]))
  }

  lemma UpdateGood(rq: Request, bytes: nat)
    requires Good(rq)
    ensures Good(UpdateRequest(rq, false, bytes).0) && Good(UpdateRequest(rq, false, bytes).0.(ended := true))
  {}

  /** One request changes, for one as good, and the log grows by fine events. */
  lemma CleanStep(s: State, s': State, id: Id, more: seq<Event>)
    requires Clean(s) && id in s'.rqs && Good(s'.rqs[id]) && s'.rqs == s.rqs[id := s'.rqs[id]]
    requires s'.log == s.log + more && forall k :: 0 <= k < |more| ==> Fine(more[k])
    ensures Clean(s')
  {
    hide Good, Fine;
  }

  lemma EndAllClean(s: State, id: Id)
    requires Clean(s) && id in s.rqs
    ensures Clean(EndAll(s, id, false))
  {
    UpdateGood(s.rqs[id], s.rqs[id].len);
    hide Clean, UpdateRequest;
    if !UpdateRequest(s.rqs[id], false, s.rqs[id].len).1 { CleanStep(s, EndAll(s, id, false), id, [Ended(id, false)]); }
    else { CleanSame(s, EndAll(s, id, false)); }
  }

  lemma CleanSame(s: State, s': State)
    requires Clean(s) && s'.rqs == s.rqs && s'.log == s.log
    ensures Clean(s')
  {}

  lemma RouteClean(s: State, id: Id, step: Step)
    requires Shaped(s) && id in s.rqs && Clean(s)
    ensures Clean(Route(s, id, step, false))
  {
    hide Clean, EndAll, Remove, Queued;
    var s' := Route(s, id, step, false);
    match step
    case Data =>
      assert s.rqs[id := s.rqs[id]] == s.rqs;
      GoodOf(s, id);
      CleanStep(s, s', id, [DataStart(id)]);
    case Done =>
      if Queued(s, id) {
        CleanSame(s, s');
      } else {
        var s1 := Unlink(s, id).(rqs := s.rqs[id := Restore(s.rqs[id])]);
        GoodOf(s, id);
        CleanStep(s, s1, id, []);
        EndAllClean(s1, id);
      }
    case _ => CleanSame(s, s');
  }

  lemma GoodOf(s: State, id: Id)
    requires Clean(s) && id in s.rqs
    ensures Good(s.rqs[id]) && Good(Restore(s.rqs[id]))
  {}

  lemma KickClean(s: State)
    requires Shaped(s) && Clean(s)
    ensures Clean(Kick(s))
  {}

  lemma CompleteClean(s: State, id: Id, part: Mask)
    requires Shaped(s) && Clean(s)
    ensures Clean(CompleteSeq(s, id, part, false))
  {
    hide Clean, Route, Kick;
    if id !in s.rqs || s.rqs[id].done.Overlaps(part) {
      CleanSame(s, s.(bug := true));
    } else {
      var m := s.rqs[id].done.Or(part);
      var s0 := s.(rqs := s.rqs[id := s.rqs[id].(done := m)]);
      GoodOf(s, id);
      CleanStep(s, s0, id, []);
      RouteClean(s0, id, CurSeq(m));
      RouteLists(s0, 0, id, CurSeq(m), false);
      KickClean(Route(s0, id, CurSeq(m), false));
    }
  }

  lemma {:induction false} WalkClean(s: State, r: nat)
    requires Shaped(s) && r < 2 && Clean(s)
    ensures Clean(Walk(s, r, false))
    decreases Work(s, s.queues[r])
  {
    hide Clean, CompleteSeq;
    if !s.bug && s.queues[r] != [] {
      var id := s.queues[r][0];
      var step := if id in s.rqs then CurSeq(s.rqs[id].done) else Done;
      if step != Preflush && step != Postflush {
        CleanSame(s, s.(bug := true));
      } else {
        var s1 := CompleteSeq(s, id, Bit(step), false);
        CompleteClean(s, id, Bit(step));
        if !s1.bug && |s.queues[r]| != 1 {
          WalkShrinks(s, r, false);
          WalkClean(s1, r);
        }
      }
    }
  }

  lemma InsertClean(s: State, id: Id, asked: Asked, hasBio: bool, bytes: nat)
    requires Shaped(s) && Clean(s)
    ensures Clean(Insert(s, id, asked, hasBio, bytes))
  {
    hide Clean, CompleteSeq, UpdateRequest, Policy;
    var rq := NewRequest(asked, hasBio, bytes, |s.log|);
    UpdateGood(rq, 0);
    var s1 := s.(rqs := s.rqs[id := rq], log := s.log + [Inserted(id, asked)]);
    CleanStep(s, s1, id, [Inserted(id, asked)]);
    var s' := Insert(s, id, asked, hasBio, bytes);
    var (rq1, more) := UpdateRequest(rq, false, 0);
    if Policy(asked).Empty() {
      assert s1.rqs[id := s'.rqs[id]] == s'.rqs;
      CleanStep(s1, s', id, if more then [] else [Ended(id, false)]);
    } else if Policy(asked).data && !Policy(asked).pre && !Policy(asked).post {
      CleanSame(s1, s');
    } else {
      var s2 := s1.(rqs := s1.rqs[id := rq.(sequenced := true)]);
      CleanStep(s1, s2, id, []);
      CompleteClean(s2, id, Policy(asked).Not());
    }
  }

  /** A completion the driver reports as failed. */
  predicate Fails(a: Action) {
    match a
    case FlushComplete(error) => error
    case DataComplete(_, _, error) => error
    case NormalComplete(_, _, error) => error
    case _ => false
  }

  lemma DataClean(s: State, id: Id, bytes: nat)
    requires Shaped(s) && Clean(s)
    ensures Clean(CompleteData(s, id, bytes, false))
  {
    hide Clean, CompleteSeq, UpdateRequest;
    if id !in s.rqs {
      CleanSame(s, s.(bug := true));
    } else {
      GoodOf(s, id);
      var rq0 := s.rqs[id].(failed := s.rqs[id].failed || false);
      UpdateGood(rq0, bytes);
      var (rq, more) := Driven(s.rqs[id], false, bytes);
      var s1 := s.(rqs := s.rqs[id := rq]);
      CleanStep(s, s1, id, []);
      if !more {
        var s2 := s1.(driver := s.driver - multiset{DataCmd(id)});
        var s3 := s2.(rqs := s2.rqs[id := s2.rqs[id].(since := |s2.log|)], log := s2.log + [DataDone(id)]);
        CleanStep(s1, s3, id, [DataDone(id)]);
        CompleteClean(s3, id, Bit(Data));
      }
    }
  }

  lemma NormalClean(s: State, id: Id, bytes: nat)
    requires Clean(s)
    ensures Clean(CompleteNormal(s, id, bytes, false))
  {
    hide Clean, UpdateRequest;
    var s' := CompleteNormal(s, id, bytes, false);
    if id !in s.rqs {
      CleanSame(s, s');
    } else {
      GoodOf(s, id);
      UpdateGood(s.rqs[id].(failed := s.rqs[id].failed || false), bytes);
      var (rq, more) := Driven(s.rqs[id], false, bytes);
      CleanStep(s, s', id, if more then [] else [Ended(id, false)]);
    }
  }

  lemma NextClean(s: State, a: Action)
    requires Shaped(s) && Enabled(s, a) && !Fails(a) && Clean(s)
    ensures Clean(Next(s, a))
  {
    hide Clean, Insert, Walk, CompleteData, CompleteNormal;
    match a
    case InsertRq(id, flush, fua, rqFlush, rqFua, hasBio, sectors) =>
      InsertClean(s, id, Asked(flush, fua, rqFlush, rqFua, sectors), hasBio, 512 * sectors);
    case FlushComplete(_) =>
      var s1 := s.(driver := s.driver - multiset{FlushCmd});
      if s1.pending == s1.running {
        CleanSame(s, s1.(bug := true));
      } else {
        CleanSame(s, s1);
        DoneClean(s1);
        WalkClean(FlushBegins(s1, false), s1.running);
      }
    case DataComplete(id, bytes, _) => DataClean(s, id, bytes);
    case NormalComplete(id, bytes, _) => NormalClean(s, id, bytes);
    case _ => CleanSame(s, Next(s, a));
  }

  lemma DoneClean(s: State)
    requires Shaped(s) && Clean(s)
    ensures Clean(FlushBegins(s, false))
  {}

  lemma {:induction false} RunClean(s: State, run: seq<Action>)
    requires Legal(s, run) && Clean(s) && forall i :: 0 <= i < |run| ==> !Fails(run[i])
    ensures Clean(After(s, run))
    decreases |run|
  {
    hide Clean, Next, Fails;
    if run != [] {
      NextClean(s, run[0]);
      RunClean(Next(s, run[0]), run[1..]);
    }
  }

  /** If no completion of a run fails, no request of it ends with an error, and every bio ended was ended as good. */
  lemma NoErrorNoFailure(timeout: int, now: int, run: seq<Action>)
    requires Legal(Init(timeout, now), run) && forall i :: 0 <= i < |run| ==> !Fails(run[i])
    ensures var s := After(Init(timeout, now), run);
            && (forall k :: 0 <= k < |s.log| && s.log[k].Ended? ==> !s.log[k].error)
            && (forall id :: id in s.rqs && s.rqs[id].ended && s.rqs[id].hasBio ==> s.rqs[id].ends == 1 && s.rqs[id].endedOk)
  {
    var s := After(Init(timeout, now), run);
    RunClean(Init(timeout, now), run);
    assert Reachable(s);
    hide After, Legal, Reachable;
    forall id | id in s.rqs && s.rqs[id].ended && s.rqs[id].hasBio ensures s.rqs[id].ends == 1 && s.rqs[id].endedOk {
      BioEndedOnce(s, id);
    }
    assert forall k :: 0 <= k < |s.log| ==> Fine(s.log[k]);
  }
}
