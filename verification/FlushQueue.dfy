/**
  The flush fields of struct request_queue and the functions of blk-flush.c that
  update them in place, each proved to take the step the model describes.
*/
module FlushQueue {
  import opened FlushModel

  class Queue {
    var pendingIdx: nat
    var runningIdx: nat
    var flushQueue: seq<seq<Id>>
    var dataInFlight: seq<Id>
    var pendingSince: int
    var timeout: int
    var jiffies: int
    var queueHead: seq<Cmd>
    var driver: multiset<Cmd>
    var requests: map<Id, Request>
    var log: seq<Event>
    var issuedAt: nat
    var bug: bool

    function St(): State
      reads this
    {
      State(pendingIdx, runningIdx, flushQueue, dataInFlight, pendingSince, timeout, jiffies, queueHead, driver,
            requests, log, issuedAt, bug)
    }

    constructor (timeout: int, now: int)
      ensures St() == Init(timeout, now)
    {
      pendingIdx, runningIdx, flushQueue, dataInFlight := 0, 0, [[], []], [];
      pendingSince, this.timeout, jiffies := 0, timeout, now;
      queueHead, driver, requests, log, issuedAt, bug := [], multiset{}, map[], [], 0, false;
    }

    method KickFlush()
      requires Shaped(St())
      modifies this
      ensures St() == Kick(old(St()))
    {
      if pendingIdx != runningIdx || flushQueue[pendingIdx] == [] {
        return;
      }
      if dataInFlight != [] && jiffies < pendingSince + timeout {
        return;
      }
      pendingIdx := 1 - pendingIdx;
      queueHead := queueHead + [FlushCmd];
      issuedAt, log := |log|, log + [FlushIssue];
    }

    method Unlinks(id: Id)
      requires Shaped(St())
      modifies this
      ensures St() == Unlink(old(St()), id)
    {
      flushQueue := [Remove(flushQueue[0], id), Remove(flushQueue[1], id)];
      dataInFlight := Remove(dataInFlight, id);
    }

    method EndRequestAll(id: Id, error: bool)
      requires id in requests
      modifies this
      ensures St() == EndAll(old(St()), id, error)
    {
      var (rq, more) := UpdateRequest(requests[id], error, requests[id].len);
      if more {
        bug := true;
      } else {
        requests := requests[id := rq.(ended := true)];
        log := log + [Ended(id, error)];
      }
    }

    /** The switch in blk_flush_complete_seq. */
    method Advance(id: Id, step: Step, error: bool)
      requires Shaped(St()) && id in requests
      modifies this
      ensures St() == Route(old(St()), id, step, error)
    {
      match step
      case Preflush | Postflush => AwaitFlush(id, step, error);
      case Data => IssueData(id, error);
      case Done => Finish(id, error);
    }

    method AwaitFlush(id: Id, step: Step, error: bool)
      requires Shaped(St()) && id in requests && (step.Preflush? || step.Postflush?)
      modifies this
      ensures St() == Route(old(St()), id, step, error)
    {
      if flushQueue[pendingIdx] == [] {
        pendingSince := jiffies;
      }
      Unlinks(id);
      flushQueue := flushQueue[pendingIdx := flushQueue[pendingIdx] + [id]];
    }

    method IssueData(id: Id, error: bool)
      requires Shaped(St()) && id in requests
      modifies this
      ensures St() == Route(old(St()), id, Data, error)
    {
      Unlinks(id);
      dataInFlight := dataInFlight + [id];
      queueHead := [DataCmd(id)] + queueHead;
      log := log + [DataStart(id)];
    }

    method Finish(id: Id, error: bool)
      requires Shaped(St()) && id in requests
      modifies this
      ensures St() == Route(old(St()), id, Done, error)
    {
      if DataCmd(id) in queueHead || NormalCmd(id) in queueHead {
        bug := true;
      } else {
        Unlinks(id);
        requests := requests[id := Restore(requests[id])];
        EndRequestAll(id, error);
      }
    }

    method FlushCompleteSeq(id: Id, part: Mask, error: bool)
      requires Shaped(St())
      modifies this
      ensures St() == CompleteSeq(old(St()), id, part, error)
    {
      hide Route, Kick;
      if id !in requests || requests[id].done.Overlaps(part) {
        bug := true;
        return;
      }
      var m := requests[id].done.Or(part);
      requests := requests[id := requests[id].(done := m)];
      RouteLists(St(), 0, id, if error then Done else CurSeq(m), error);
      Advance(id, if error then Done else CurSeq(m), error);
      if !bug {
        KickFlush();
      }
    }

    method FlushEndIo(error: bool)
      requires Shaped(St()) && !bug
      modifies this
      ensures St() == FlushEnd(old(St()), error)
    {
      hide Walk, CompleteSeq, Work;
      if pendingIdx == runningIdx {
        bug := true;
        return;
      }
      var r := runningIdx;
      runningIdx := 1 - runningIdx;
      log := log + [FlushDone(error)];
      var last := false;
      while !bug && !last && flushQueue[r] != []
        invariant Shaped(St()) && r < 2
        invariant (if bug || last then St() else Walk(St(), r, error)) == FlushEnd(old(St()), error)
        decreases !bug && !last, Work(St(), flushQueue[r])
      {
        WalkStep(St(), r, error);
        var id := flushQueue[r][0];
        var step := if id in requests then CurSeq(requests[id].done) else Done;
        if step != Preflush && step != Postflush {
          bug := true;
        } else {
          last := |flushQueue[r]| == 1;
          FlushCompleteSeq(id, Bit(step), error);
        }
      }
      WalkStep(St(), r, error);
    }

    method FlushDataEndIo(id: Id, error: bool)
      requires Shaped(St())
      modifies this
      ensures St() == DataEnd(old(St()), id, error)
    {
      if id !in requests {
        bug := true;
        return;
      }
      requests := requests[id := requests[id].(since := |log|)];
      log := log + [DataDone(id)];
      FlushCompleteSeq(id, Bit(Data), error);
    }

    method InsertFlush(id: Id, flush: bool, fua: bool, rqFlush: bool, rqFua: bool, hasBio: bool, bytes: nat)
      requires Shaped(St())
      modifies this
      ensures St() == Insert(old(St()), id, Asked(flush, fua, rqFlush, rqFua, bytes / 512), hasBio, bytes)
    {
      hide CompleteSeq;
      var asked := Asked(flush, fua, rqFlush, rqFua, bytes / 512);
      var policy := Policy(asked);
      var rq := NewRequest(asked, hasBio, bytes, |log|);
      log := log + [Inserted(id, asked)];
      if policy.Empty() {
        var (rq1, more) := UpdateRequest(rq, false, 0);
        requests := requests[id := rq];
        if more {
          requests := requests[id := rq1];
        } else {
          requests := requests[id := rq1.(ended := true)];
          log := log + [Ended(id, false)];
        }
      } else if policy.data && !policy.pre && !policy.post {
        requests := requests[id := rq];
        queueHead := queueHead + [NormalCmd(id)];
      } else {
        requests := requests[id := rq];
        requests := requests[id := rq.(sequenced := true)];
        FlushCompleteSeq(id, policy.Not(), false);
      }
    }
  }
}
