/**
  How long reads can hold up a write in the deadline scheduler.
*/
module DeadlineStarvation {
  import opened Lists
  import opened Deadline
  import opened DeadlineIndices

  function Max(a: nat, b: nat): nat { if a > b then a else b }

  /** A dispatch while a write is queued, that takes no write. */
  predicate Bypasses(t: Tuning, s: State) {
    s.wr.fifo != [] && Dispatch(t, s).0.wr.fifo == s.wr.fifo
  }

  /** At every dispatch of the run a write is queued, and none is taken. */
  predicate Starves(t: Tuning, s: State, run: seq<Action>)
    requires Legal(t, s, run)
    decreases |run|
  {
    run == [] || ((run[0].DispatchOne? ==> Bypasses(t, s)) && Starves(t, Next(t, s, run[0]), run[1..]))
  }

  function Dispatches(run: seq<Action>): nat {
    if run == [] then 0 else (if run[0].DispatchOne? then 1 else 0) + Dispatches(run[1..])
  }

  /** Reads still entitled to the running batch. */
  function BatchLeft(t: Tuning, s: State): nat {
    if s.wr.next.None? && s.rd.next.Some? && s.batching < t.fifoBatch then t.fifoBatch - s.batching else 0
  }

  /** Read batches that may still be started past a waiting write. */
  function BatchesLeft(t: Tuning, s: State): nat {
    if s.starved < t.writesStarved then t.writesStarved - s.starved else 0
  }

  function Times(k: nat, m: nat): nat { k * m }

  lemma TimesOne(k: nat, m: nat)
    requires k > 0
    ensures Times(k, m) == Times(k - 1, m) + m
  {}

  lemma TimesMono(k: nat, l: nat, m: nat)
    requires k <= l
    ensures Times(k, m) <= Times(l, m)
  {}

  /** Reads that can still be dispatched before a write is. */
  function ReadsLeft(t: Tuning, s: State): nat {
    Times(BatchesLeft(t, s), Max(1, t.fifoBatch)) + BatchLeft(t, s)
  }

  /** Nothing but a dispatch can lengthen the read batch, and merging can only end it. */
  lemma OthersKeep(t: Tuning, s: State, a: Action)
    requires Inv(t, s) && Enabled(s, a) && !a.DispatchOne?
    ensures ReadsLeft(t, Next(t, s, a)) <= ReadsLeft(t, s)
  {
    hide Inv, RbAdd, Remove, MoveBehind, Times;
    var s' := Next(t, s, a);
    assert s'.starved == s.starved && s'.batching == s.batching;
    assert s'.wr.next.None? ==> s'.rd.next.Some? ==> s.wr.next.None? && s.rd.next.Some? by { NextsKept(t, s, a); }
  }

  lemma NextsKept(t: Tuning, s: State, a: Action)
    requires Inv(t, s) && Enabled(s, a) && !a.DispatchOne?
    ensures var s' := Next(t, s, a);
            (s'.rd.next.Some? ==> s.rd.next.Some?) && (s.rd.next.Some? ==> s.wr.next.None?)
  {
    hide RbAdd, Remove, MoveBehind, SideOk, Partition;
  }

  lemma DispatchWrite(t: Tuning, s: State, x: nat)
    requires Inv(t, s) && Queued(s, x) && s.rqs[x].dir == Write
    ensures MoveRequest(s, x).wr.fifo != s.wr.fifo
  {
    assert SideOk(s.rqs, Write, s.Of(Write), s.now + t.Expire(Write));
    RemoveKeeps(s.wr.fifo, x);
  }

  /** Every read that passes a waiting write uses up one. */
  lemma BypassCosts(t: Tuning, s: State)
    requires Inv(t, s) && Bypasses(t, s)
    ensures ReadsLeft(t, Dispatch(t, s).0) < ReadsLeft(t, s)
  {
    hide SideOk, Partition, Times, RemoveFrom;
    SideQueued(t, s, Read);
    SideQueued(t, s, Write);
    match Batch(t, s)
    case Some(x) =>
      var s1 := s.(batching := s.batching + 1);
      if s.rqs[x].dir == Write { DispatchWrite(t, s1, x); }
      assert s.wr.next.None? by { if s.wr.next.Some? { NextDir(t, s, Write); } }
    case None =>
      var (d, starved) := Choose(t, s).value;
      var s1 := s.(batching := 1, starved := starved);
      FirstDir(t, s, d);
      if d == Write { DispatchWrite(t, s1, First(s, d)); }
      TimesOne(BatchesLeft(t, s), Max(1, t.fifoBatch));
  }

  lemma NextDir(t: Tuning, s: State, d: Dir)
    requires Inv(t, s) && s.Of(d).next.Some?
    ensures s.Of(d).next.value in s.rqs && s.rqs[s.Of(d).next.value].dir == d
  {
    assert SideOk(s.rqs, d, s.Of(d), s.now + t.Expire(d));
  }

  lemma FirstDir(t: Tuning, s: State, d: Dir)
    requires Inv(t, s) && s.Of(d).fifo != []
    ensures First(s, d) in s.rqs && s.rqs[First(s, d)].dir == d && Queued(s, First(s, d))
  {
    assert SideOk(s.rqs, d, s.Of(d), s.now + t.Expire(d));
    assert s.Of(d).fifo[0] in s.Of(d).fifo;
  }

  lemma {:induction false} StarvesWithin(t: Tuning, s: State, run: seq<Action>)
    requires Inv(t, s) && Legal(t, s, run) && Starves(t, s, run)
    ensures Dispatches(run) <= ReadsLeft(t, s)
    decreases |run|
  {
    hide Inv, ReadsLeft, Bypasses;
    if run != [] {
      NextKeeps(t, s, run[0]);
      StarvesWithin(t, Next(t, s, run[0]), run[1..]);
      if run[0].DispatchOne? { BypassCosts(t, s); } else { OthersKeep(t, s, run[0]); }
    }
  }

  /**
    Whatever is added and merged meanwhile, while a write stays queued at most
    (writes_starved + 1) * max(1, fifo_batch) requests are dispatched before a write is.
  */
  lemma WritesNotStarved(t: Tuning, before: seq<Action>, run: seq<Action>)
    requires Legal(t, INIT, before) && Legal(t, After(t, INIT, before), run)
    requires Starves(t, After(t, INIT, before), run)
    ensures Dispatches(run) <= (t.writesStarved + 1) * Max(1, t.fifoBatch)
  {
    var s := After(t, INIT, before);
    InitOk(t);
    RunKeeps(t, INIT, before);
    StarvesWithin(t, s, run);
    hide Inv, Legal, After, Starves, Dispatches;
    var m := Max(1, t.fifoBatch);
    TimesMono(BatchesLeft(t, s), t.writesStarved, m);
    TimesOne(t.writesStarved + 1, m);
  }

  // ------------------------------------------------------- nor are the reads

  /** A dispatch while a read is queued, that takes no read. */
  predicate BypassesReads(t: Tuning, s: State) {
    s.rd.fifo != [] && Dispatch(t, s).0.rd.fifo == s.rd.fifo
  }

  predicate StarvesReads(t: Tuning, s: State, run: seq<Action>)
    requires Legal(t, s, run)
    decreases |run|
  {
    run == [] || ((run[0].DispatchOne? ==> BypassesReads(t, s)) && StarvesReads(t, Next(t, s, run[0]), run[1..]))
  }

  /** Writes that can still be dispatched before a read is: the running batch, and one more if writes have waited enough. */
  function WritesLeft(t: Tuning, s: State): nat {
    (if s.wr.next.Some? && s.batching < t.fifoBatch then t.fifoBatch - s.batching else 0)
    + (if s.starved < t.writesStarved then 0 else Max(1, t.fifoBatch))
  }

  lemma OthersKeepWrites(t: Tuning, s: State, a: Action)
    requires Inv(t, s) && Enabled(s, a) && !a.DispatchOne?
    ensures WritesLeft(t, Next(t, s, a)) <= WritesLeft(t, s)
  {
    hide Inv, RbAdd, Remove, MoveBehind, Latter;
  }

  lemma DispatchRead(t: Tuning, s: State, x: nat)
    requires Inv(t, s) && Queued(s, x) && s.rqs[x].dir == Read
    ensures MoveRequest(s, x).rd.fifo != s.rd.fifo
  {
    assert SideOk(s.rqs, Read, s.Of(Read), s.now + t.Expire(Read));
    RemoveKeeps(s.rd.fifo, x);
  }

  lemma BypassReadsCosts(t: Tuning, s: State)
    requires Inv(t, s) && BypassesReads(t, s) && t.writesStarved > 0
    ensures WritesLeft(t, Dispatch(t, s).0) < WritesLeft(t, s)
  {
    hide SideOk, Partition, RemoveFrom;
    SideQueued(t, s, Read);
    SideQueued(t, s, Write);
    match Batch(t, s)
    case Some(x) =>
      var s1 := s.(batching := s.batching + 1);
      if s.rqs[x].dir == Read { DispatchRead(t, s1, x); }
      assert s.wr.next.Some? by { if s.rd.next.Some? { NextDir(t, s, Read); } }
    case None =>
      var (d, starved) := Choose(t, s).value;
      var s1 := s.(batching := 1, starved := starved);
      FirstDir(t, s, d);
      if d == Read { DispatchRead(t, s1, First(s, d)); }
  }

  lemma {:induction false} StarvesReadsWithin(t: Tuning, s: State, run: seq<Action>)
    requires Inv(t, s) && Legal(t, s, run) && StarvesReads(t, s, run) && t.writesStarved > 0
    ensures Dispatches(run) <= WritesLeft(t, s)
    decreases |run|
  {
    hide Inv, WritesLeft, BypassesReads;
    if run != [] {
      NextKeeps(t, s, run[0]);
      StarvesReadsWithin(t, Next(t, s, run[0]), run[1..]);
      if run[0].DispatchOne? { BypassReadsCosts(t, s); } else { OthersKeepWrites(t, s, run[0]); }
    }
  }

  /** While a read stays queued, and writes_starved is not zero, at most two batches of writes are dispatched before a read is. */
  lemma ReadsNotStarved(t: Tuning, before: seq<Action>, run: seq<Action>)
    requires Legal(t, INIT, before) && Legal(t, After(t, INIT, before), run) && t.writesStarved > 0
    requires StarvesReads(t, After(t, INIT, before), run)
    ensures Dispatches(run) <= 2 * Max(1, t.fifoBatch)
  {
    InitOk(t);
    RunKeeps(t, INIT, before);
    StarvesReadsWithin(t, After(t, INIT, before), run);
  }

  /** With writes_starved zero a new batch is one of writes whenever there is one: reads wait for all of them. */
  lemma ZeroStarvesReads(t: Tuning, s: State)
    requires Inv(t, s) && t.writesStarved == 0 && s.rd.fifo != [] && s.wr.fifo != [] && s.batching >= t.fifoBatch
    ensures BypassesReads(t, s)
  {
    SideQueued(t, s, Write);
    FirstDir(t, s, Write);
    hide Inv, Remove, Latter, First;
  }
}
