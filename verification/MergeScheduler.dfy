/**
  elv_merge over the deadline scheduler (block/elevator.c with
  block/deadline-iosched.c): the request hash, last_merge and the scheduler's
  indices together, through every submission, unplug and dispatch.
*/
module MergeScheduler {
  import opened Lists
  import M = MergeLookup
  import E = MergeElevator
  import D = Deadline
  import I = DeadlineIndices
  import S = DeadlineScheduler

  datatype State = State(m: M.State, d: D.State)

  const INIT := State(M.INIT, D.INIT)

  /** The direction is the lowest bit of what keeps unlike bios apart. */
  function DirOf(kind: nat): D.Dir { if kind % 2 == 1 then D.Write else D.Read }

  predicate Alike(a: M.Request, b: D.Request) { a.pos == b.pos && a.sectors == b.sectors && DirOf(a.kind) == b.dir }

  /** Both sides hold the same requests, at the same sectors. */
  ghost predicate Matches(a: map<nat, M.Request>, b: map<nat, D.Request>, out: seq<nat>) {
    && (forall x :: x in a <==> x in b && x !in out)
    && (forall x :: x in a ==> Alike(a[x], b[x]))
  }

  ghost predicate Coupled(m: M.State, d: D.State) { Matches(m.rqs, d.rqs, d.out) }

  ghost predicate Inv(t: D.Tuning, s: State) { M.Inv(s.m) && I.Inv(t, s.d) && Coupled(s.m, s.d) }

  // --------------------------------------------------------------- the lookup

  /** What elv_rb_find answers. */
  ghost predicate Finds(d: D.State, dir: D.Dir, sector: nat, x: Option<nat>) {
    && (x.Some? ==> x.value in d.Of(dir).sort && D.Pos(d.rqs, x.value) == sector)
    && (x.None? ==> forall y :: y in d.Of(dir).sort ==> D.Pos(d.rqs, y) != sector)
  }

  /** deadline_merge up to the tests of the request: a lookup by the end of the bio, unless front_merges is off. */
  ghost predicate Looks(d: D.State, bio: M.Bio, frontMerges: bool, front: Option<nat>) {
    if frontMerges then Finds(d, DirOf(bio.kind), bio.sector + bio.sectors, front) else front.None?
  }

  lemma QueuedIs(t: D.Tuning, d: D.State, x: nat)
    requires I.Inv(t, d)
    ensures D.Queued(d, x) <==> x in d.rqs && x !in d.out
    ensures forall dir: D.Dir :: x in d.Of(dir).sort <==> D.Queued(d, x) && d.rqs[x].dir == dir
  {
    if D.Queued(d, x) { I.OnlyThere(t, d, x); }
    assert d.Of(D.Read) == d.rd && d.Of(D.Write) == d.wr;
    if x in d.rd.sort { I.SideMember(d.rqs, D.Read, d.rd, d.now + t.Expire(D.Read), x); }
    if x in d.wr.sort { I.SideMember(d.rqs, D.Write, d.wr, d.now + t.Expire(D.Write), x); }
  }

  /** The lookup finds a request of the direction that starts where the bio ends, just when there is one. */
  lemma FrontFound(t: D.Tuning, s: State, bio: M.Bio, frontMerges: bool, front: Option<nat>)
    requires Inv(t, s) && Looks(s.d, bio, frontMerges, front)
    ensures M.FrontAnswer(s.m, bio, front)
    ensures frontMerges ==>
              (front.None? <==> forall x :: x in s.m.rqs && DirOf(s.m.rqs[x].kind) == DirOf(bio.kind) ==>
                                              s.m.rqs[x].pos != bio.sector + bio.sectors)
    ensures front.Some? ==> DirOf(s.m.rqs[front.value].kind) == DirOf(bio.kind)
  {
    hide M.Inv, I.Inv;
    if front.Some? { QueuedIs(t, s.d, front.value); }
    if frontMerges && front.None? {
      forall x | x in s.m.rqs && DirOf(s.m.rqs[x].kind) == DirOf(bio.kind)
        ensures s.m.rqs[x].pos != bio.sector + bio.sectors
      {
        QueuedIs(t, s.d, x);
        assert x in s.d.Of(DirOf(bio.kind)).sort;
      }
    }
  }

  /** Every verdict of elv_merge names a queued, mergeable request of the same kind that adjoins the bio. */
  lemma VerdictAdjoins(
    t: D.Tuning, s: State, bio: M.Bio, mode: M.Mode, allowed: set<nat>, frontMerges: bool, front: Option<nat>)
    requires Inv(t, s) && M.BioOk(bio) && Looks(s.d, bio, frontMerges, front)
    ensures var (verdict, m') := M.ElvMerge(s.m, bio, mode, allowed, front);
            && Inv(t, s.(m := m')) && m'.rqs == s.m.rqs
            && (verdict.Back? ==>
                  && verdict.x in s.m.rqs && M.MergeOk(s.m, verdict.x, bio, allowed)
                  && M.EndOf(s.m.rqs[verdict.x]) == bio.sector)
            && (verdict.Front? ==>
                  && verdict.x in s.m.rqs && M.MergeOk(s.m, verdict.x, bio, allowed)
                  && bio.sector + bio.sectors == s.m.rqs[verdict.x].pos)
  {
    hide M.Inv, I.Inv, M.ElvMerge;
    FrontFound(t, s, bio, frontMerges, front);
    M.VerdictAdjoins(s.m, bio, mode, allowed, front);
  }

  /** A request that adjoins the bio, in a place where elv_merge looks. */
  predicate Candidate(s: M.State, bio: M.Bio, x: nat) {
    && x in s.rqs
    && ((s.rqs[x].mergeable && M.EndOf(s.rqs[x]) == bio.sector)
        || (DirOf(s.rqs[x].kind) == DirOf(bio.kind) && s.rqs[x].pos == bio.sector + bio.sectors))
  }

  /** If none of the requests that adjoin the bio is barred from taking it, a merge is refused just when there is none. */
  lemma NoneMissed(t: D.Tuning, s: State, bio: M.Bio, allowed: set<nat>, front: Option<nat>)
    requires Inv(t, s) && M.BioOk(bio) && Looks(s.d, bio, true, front)
    requires forall x :: Candidate(s.m, bio, x) ==> M.MergeOk(s.m, x, bio, allowed)
    ensures M.ElvMerge(s.m, bio, M.AllMerges, allowed, front).0.NoMerge? <==> forall x :: !Candidate(s.m, bio, x)
  {
    hide I.Inv;
    FrontFound(t, s, bio, true, front);
    VerdictAdjoins(t, s, bio, M.AllMerges, allowed, true, front);
    M.FindExact(s.m, bio.sector);
    hide M.Inv, M.Find;
    var verdict := M.ElvMerge(s.m, bio, M.AllMerges, allowed, front).0;
    var found := M.Find(s.m.rqs, s.m.hash, bio.sector).0;
    if !verdict.NoMerge? { assert Candidate(s.m, bio, verdict.x); }
    if x :| Candidate(s.m, bio, x) {
      if M.Mergeable(s.m.rqs, x) && M.EndOf(s.m.rqs[x]) == bio.sector {
        assert found.Some? && Candidate(s.m, bio, found.value);
      } else {
        assert front.Some? && Candidate(s.m, bio, front.value);
      }
      assert !verdict.NoMerge?;
    }
  }

  // ------------------------------------------------------------ joint actions

  /** One call into the scheduler; a call it is not ready for would be a bug. */
  function Call(t: D.Tuning, d: D.State, a: D.Action): D.State {
    if D.Enabled(d, a) then D.Next(t, d, a) else d.(bug := true)
  }

  function Calls(t: D.Tuning, d: D.State, calls: seq<D.Action>): D.State
    decreases |calls|
  {
    if calls == [] then d else Calls(t, Call(t, d, calls[0]), calls[1..])
  }

  function AddCall(x: nat, rq: M.Request): D.Action { D.AddRequest(x, rq.pos, rq.sectors, DirOf(rq.kind)) }

  /** The calls of a back merge into r, with the neighbour behind it if they now adjoin, */
  function BackCalls(s: M.State, r: nat, bio: M.Bio, c: M.Choice): seq<D.Action>
    requires r in s.rqs
  {
    var s2 := s.(rqs := s.rqs[r := M.AddBack(s.rqs[r], bio)]);
    [D.MergeBack(r, bio.sectors)]
    + if c.neighbour.Some? && M.CanJoin(s2, r, c.neighbour.value, c.fitsNext) then [D.MergeNext(r, c.neighbour.value)] else []
  }

  /** of a front merge, with the neighbour before it, */
  function FrontCalls(s: M.State, r: nat, bio: M.Bio, c: M.Choice): seq<D.Action>
    requires r in s.rqs
  {
    var s2 := s.(rqs := s.rqs[r := M.AddFront(s.rqs[r], bio)]);
    [D.MergeFront(r, bio.sectors)]
    + if c.neighbour.Some? && M.CanJoin(s2, c.neighbour.value, r, c.fitsNext) then [D.MergeNext(c.neighbour.value, r)] else []
  }

  /** and of a submission. */
  function QueueCalls(s: M.State, x: nat, bio: M.Bio, c: M.Choice): seq<D.Action> {
    var (verdict, s1) := M.ElvMerge(s, bio, c.mode, c.allowed, c.front);
    if verdict.NoMerge? || verdict.x !in s1.rqs || !c.fitsBio then [AddCall(x, M.FromBio(bio, c.mergeable))]
    else if verdict.Back? then BackCalls(s1, verdict.x, bio, c)
    else FrontCalls(s1, verdict.x, bio, c)
  }

  /** The request an unplugged one is put behind, if any: elv_attempt_insert_merge. */
  function Taker(s: M.State, rq: M.Request, mode: M.Mode, fits: bool): Option<nat> {
    if mode == M.NoMerges || !fits then None
    else if s.last.Some? && s.last.value in s.rqs && M.Adjoining(s.rqs[s.last.value], rq) then s.last
    else if mode == M.OneHit then None
    else
      var found := M.Find(s.rqs, s.hash, rq.pos).0;
      if found.Some? && found.value in s.rqs && M.Adjoining(s.rqs[found.value], rq) then found else None
  }

  datatype Action =
    | Queue(x: nat, bio: M.Bio, frontMerges: bool, choice: M.Choice)
    | Unplug(x: nat, rq: M.Request, mode: M.Mode, fits: bool)
    | Send
    | Pass(jiffies: nat)

  ghost predicate Enabled(s: State, a: Action) {
    match a
    case Queue(x, bio, frontMerges, c) =>
      x !in s.d.rqs && x !in s.d.out && M.BioOk(bio) && Looks(s.d, bio, frontMerges, c.front)
    case Unplug(x, rq, _, _) => x !in s.d.rqs && x !in s.d.out && M.Whole(rq) && rq.pos < M.U64
    case Send => true
    case Pass(_) => true
  }

  function Next(t: D.Tuning, s: State, a: Action): State {
    match a
    case Queue(x, bio, _, c) => State(M.QueueBio(s.m, x, bio, c), Calls(t, s.d, QueueCalls(s.m, x, bio, c)))
    case Unplug(x, rq, mode, fits) =>
      var taker := Taker(s.m, rq, mode, fits);
      State(M.InsertMerge(s.m, x, rq, mode, fits),
            Call(t, s.d, if taker.Some? then D.MergeBack(taker.value, rq.sectors) else AddCall(x, rq)))
    case Send =>
      var (d, some) := D.Dispatch(t, s.d);
      State(if some && d.out != [] then M.Dispatch(s.m, d.out[|d.out| - 1]) else s.m, d)
    case Pass(jiffies) => s.(d := Call(t, s.d, D.Tick(jiffies)))
  }

  // ------------------------------------------------------- they stay coupled

  /** What each call does to the requests. */
  lemma AddIs(t: D.Tuning, d: D.State, x: nat, pos: nat, sectors: nat, dir: D.Dir)
    ensures var d' := D.Add(t, d, x, pos, sectors, dir);
            d'.out == d.out && d'.rqs == d.rqs[x := D.Request(pos, sectors, dir, d.now + t.Expire(dir))]
  {
    hide D.RbAdd;
  }

  lemma FrontIs(d: D.State, x: nat, n: nat)
    requires x in d.rqs && n <= d.rqs[x].pos
    ensures var d' := D.FrontMerge(d, x, n);
            d'.out == d.out && d'.rqs == d.rqs[x := d.rqs[x].(pos := d.rqs[x].pos - n, sectors := d.rqs[x].sectors + n)]
  {
    hide D.RbAdd, Lists.Remove;
  }

  lemma JoinIs(d: D.State, x: nat, y: nat)
    requires x in d.rqs && y in d.rqs && x != y
    ensures var d' := D.MergeRequests(d, x, y);
            && d'.out == d.out && x in d'.rqs && d'.rqs == d.rqs[x := d'.rqs[x]] - {y}
            && d'.rqs[x].(expire := d.rqs[x].expire) == d.rqs[x].(sectors := d.rqs[x].sectors + d.rqs[y].sectors)
  {
    hide D.RemoveFrom, D.MoveBehind;
  }

  lemma MatchesUpdate(a: map<nat, M.Request>, b: map<nat, D.Request>, out: seq<nat>, x: nat, rq: M.Request, rq': D.Request)
    requires Matches(a, b, out) && x !in out && Alike(rq, rq')
    ensures Matches(a[x := rq], b[x := rq'], out)
  {
    hide Alike;
  }

  lemma MatchesDrop(a: map<nat, M.Request>, b: map<nat, D.Request>, out: seq<nat>, y: nat)
    requires Matches(a, b, out)
    ensures Matches(a - {y}, b - {y}, out) && Matches(a - {y}, b, out + [y])
  {
    hide Alike;
  }

  lemma AddCoupled(t: D.Tuning, m: M.State, m': M.State, d: D.State, x: nat, rq: M.Request)
    requires I.Inv(t, d) && Coupled(m, d) && x !in d.rqs && x !in d.out && m'.rqs == m.rqs[x := rq]
    ensures var d' := Call(t, d, AddCall(x, rq)); I.Inv(t, d') && Coupled(m', d')
  {
    var dir := DirOf(rq.kind);
    I.AddKeeps(t, d, x, rq.pos, rq.sectors, dir);
    AddIs(t, d, x, rq.pos, rq.sectors, dir);
    hide I.Inv, D.Add, DirOf, Matches;
    MatchesUpdate(m.rqs, d.rqs, d.out, x, rq, D.Request(rq.pos, rq.sectors, dir, d.now + t.Expire(dir)));
  }

  predicate Grows(rq: M.Request, rq': M.Request, n: nat) { rq'.sectors == rq.sectors + n && rq'.kind == rq.kind }

  lemma BackCall(t: D.Tuning, d: D.State, r: nat, n: nat)
    requires I.Inv(t, d) && r in d.rqs && r !in d.out
    ensures Call(t, d, D.MergeBack(r, n)) == D.BackMerge(d, r, n) && I.Inv(t, D.BackMerge(d, r, n))
  {
    QueuedIs(t, d, r);
    I.BackKeeps(t, d, r, n);
    hide I.Inv, D.Queued;
  }

  lemma FrontCall(t: D.Tuning, d: D.State, r: nat, n: nat)
    requires I.Inv(t, d) && r in d.rqs && r !in d.out && n <= d.rqs[r].pos
    ensures Call(t, d, D.MergeFront(r, n)) == D.FrontMerge(d, r, n) && I.Inv(t, D.FrontMerge(d, r, n))
  {
    QueuedIs(t, d, r);
    I.FrontKeeps(t, d, r, n);
    hide I.Inv, D.Queued, D.FrontMerge;
  }

  lemma JoinCall(t: D.Tuning, d: D.State, x: nat, y: nat)
    requires I.Inv(t, d) && x in d.rqs && x !in d.out && y in d.rqs && y !in d.out && x != y
    requires d.rqs[x].dir == d.rqs[y].dir && d.rqs[x].pos + d.rqs[x].sectors == d.rqs[y].pos
    ensures Call(t, d, D.MergeNext(x, y)) == D.MergeRequests(d, x, y) && I.Inv(t, D.MergeRequests(d, x, y))
  {
    QueuedIs(t, d, x);
    QueuedIs(t, d, y);
    I.MergeKeeps(t, d, x, y);
    hide I.Inv, D.Queued, D.MergeRequests;
  }

  /** A request grows at its end, */
  lemma BackCoupled(t: D.Tuning, m: M.State, m': M.State, d: D.State, r: nat, rq: M.Request, n: nat)
    requires I.Inv(t, d) && Coupled(m, d) && r in m.rqs && m'.rqs == m.rqs[r := rq]
    requires Grows(m.rqs[r], rq, n) && rq.pos == m.rqs[r].pos
    ensures var d' := Call(t, d, D.MergeBack(r, n)); I.Inv(t, d') && Coupled(m', d')
  {
    assert Alike(m.rqs[r], d.rqs[r]) && r !in d.out;
    hide I.Inv, DirOf, Matches, Call;
    BackCall(t, d, r, n);
    MatchesUpdate(m.rqs, d.rqs, d.out, r, rq, d.rqs[r].(sectors := d.rqs[r].sectors + n));
  }

  /** or at its start. */
  lemma FrontCoupled(t: D.Tuning, m: M.State, m': M.State, d: D.State, r: nat, rq: M.Request, n: nat)
    requires I.Inv(t, d) && Coupled(m, d) && r in m.rqs && m'.rqs == m.rqs[r := rq]
    requires Grows(m.rqs[r], rq, n) && rq.pos + n == m.rqs[r].pos
    ensures var d' := Call(t, d, D.MergeFront(r, n)); I.Inv(t, d') && Coupled(m', d')
  {
    assert Alike(m.rqs[r], d.rqs[r]) && r !in d.out;
    hide I.Inv, D.FrontMerge, DirOf, Matches, Call;
    FrontCall(t, d, r, n);
    FrontIs(d, r, n);
    MatchesUpdate(m.rqs, d.rqs, d.out, r, rq, d.rqs[r].(pos := d.rqs[r].pos - n, sectors := d.rqs[r].sectors + n));
  }

  lemma JoinedAlike(a: M.Request, b: M.Request, a': D.Request, b': D.Request, c': D.Request)
    requires Alike(a, a') && Alike(b, b') && c'.(expire := a'.expire) == a'.(sectors := a'.sectors + b'.sectors)
    ensures Alike(M.Joined(a, b), c')
  {}

  lemma JoinCoupled(t: D.Tuning, m: M.State, m': M.State, d: D.State, x: nat, y: nat)
    requires I.Inv(t, d) && Coupled(m, d) && x in m.rqs && y in m.rqs && x != y && M.Adjoining(m.rqs[x], m.rqs[y])
    requires m'.rqs == m.rqs[x := M.Joined(m.rqs[x], m.rqs[y])] - {y}
    ensures var d' := Call(t, d, D.MergeNext(x, y)); I.Inv(t, d') && Coupled(m', d')
  {
    assert Alike(m.rqs[x], d.rqs[x]) && Alike(m.rqs[y], d.rqs[y]) && x !in d.out && y !in d.out;
    hide I.Inv, D.MergeRequests, DirOf, Matches, Call, M.Joined;
    JoinCall(t, d, x, y);
    JoinIs(d, x, y);
    var d' := D.MergeRequests(d, x, y);
    var rq := M.Joined(m.rqs[x], m.rqs[y]);
    JoinedAlike(m.rqs[x], m.rqs[y], d.rqs[x], d.rqs[y], d'.rqs[x]);
    hide Alike;
    MatchesUpdate(m.rqs, d.rqs, d.out, x, rq, d'.rqs[x]);
    MatchesDrop(m.rqs[x := rq], d.rqs[x := d'.rqs[x]], d.out, y);
  }

  /** A refused merge changes nothing the scheduler knows of. */
  lemma RefuseCoupled(m: M.State, d: D.State, r: nat)
    requires Coupled(m, d) && r in m.rqs
    ensures Coupled(M.Refuse(m, r), d)
  {}

  lemma OneCall(t: D.Tuning, d: D.State, a: D.Action)
    ensures Calls(t, d, [a]) == Call(t, d, a)
  {
    assert [a][1..] == [];
  }

  lemma TwoCalls(t: D.Tuning, d: D.State, a: D.Action, b: D.Action)
    ensures Calls(t, d, [a] + [b]) == Call(t, Call(t, d, a), b)
  {
    assert ([a] + [b])[1..] == [b];
    OneCall(t, Call(t, d, a), b);
  }

  lemma InsertCoupled(t: D.Tuning, m: M.State, d: D.State, x: nat, rq: M.Request)
    requires I.Inv(t, d) && Coupled(m, d) && x !in d.rqs && x !in d.out
    ensures var d' := Calls(t, d, [AddCall(x, rq)]); I.Inv(t, d') && Coupled(M.Insert(m, x, rq), d')
  {
    hide I.Inv, Call, Coupled, M.Bucket, M.OnHash;
    OneCall(t, d, AddCall(x, rq));
    AddCoupled(t, m, M.Insert(m, x, rq), d, x, rq);
  }

  lemma BackStep(t: D.Tuning, m: M.State, d: D.State, r: nat, bio: M.Bio, c: M.Choice)
    requires I.Inv(t, d) && Coupled(m, d) && r in m.rqs
    ensures var s2 := m.(rqs := m.rqs[r := M.AddBack(m.rqs[r], bio)]);
            var m' := if c.neighbour.Some? && M.CanJoin(s2, r, c.neighbour.value, c.fitsNext)
                      then M.MergeRequests(s2, r, c.neighbour.value) else M.Rehash(s2, r).(last := Some(r));
            var d' := Calls(t, d, BackCalls(m, r, bio, c));
            I.Inv(t, d') && Coupled(m', d')
  {
    hide I.Inv, Call, Calls, M.Bucket, M.OnHash, M.Unhash, M.Adjoining, Matches;
    var grown := M.AddBack(m.rqs[r], bio);
    var s2 := m.(rqs := m.rqs[r := grown]);
    var a := D.MergeBack(r, bio.sectors);
    BackCoupled(t, m, s2, d, r, grown, bio.sectors);
    if c.neighbour.Some? && M.CanJoin(s2, r, c.neighbour.value, c.fitsNext) {
      var y := c.neighbour.value;
      TwoCalls(t, d, a, D.MergeNext(r, y));
      JoinCoupled(t, s2, M.MergeRequests(s2, r, y), Call(t, d, a), r, y);
    } else {
      OneCall(t, d, a);
      assert BackCalls(m, r, bio, c) == [a];
    }
  }

  lemma FrontStep(t: D.Tuning, m: M.State, d: D.State, r: nat, bio: M.Bio, c: M.Choice)
    requires I.Inv(t, d) && Coupled(m, d) && r in m.rqs && bio.sector + bio.sectors == m.rqs[r].pos
    ensures var s2 := m.(rqs := m.rqs[r := M.AddFront(m.rqs[r], bio)]);
            var m' := if c.neighbour.Some? && M.CanJoin(s2, c.neighbour.value, r, c.fitsNext)
                      then M.MergeRequests(s2, c.neighbour.value, r) else s2.(last := Some(r));
            var d' := Calls(t, d, FrontCalls(m, r, bio, c));
            I.Inv(t, d') && Coupled(m', d')
  {
    hide I.Inv, Call, Calls, M.Bucket, M.OnHash, M.Unhash, M.Adjoining, Matches;
    var grown := M.AddFront(m.rqs[r], bio);
    var s2 := m.(rqs := m.rqs[r := grown]);
    var a := D.MergeFront(r, bio.sectors);
    FrontCoupled(t, m, s2, d, r, grown, bio.sectors);
    if c.neighbour.Some? && M.CanJoin(s2, c.neighbour.value, r, c.fitsNext) {
      var y := c.neighbour.value;
      TwoCalls(t, d, a, D.MergeNext(y, r));
      JoinCoupled(t, s2, M.MergeRequests(s2, y, r), Call(t, d, a), y, r);
    } else {
      OneCall(t, d, a);
      assert FrontCalls(m, r, bio, c) == [a];
    }
  }

  lemma QueueKeeps(t: D.Tuning, s: State, x: nat, bio: M.Bio, frontMerges: bool, c: M.Choice)
    requires Inv(t, s) && Enabled(s, Queue(x, bio, frontMerges, c))
    ensures Inv(t, Next(t, s, Queue(x, bio, frontMerges, c)))
  {
    VerdictAdjoins(t, s, bio, c.mode, c.allowed, frontMerges, c.front);
    FrontFound(t, s, bio, frontMerges, c.front);
    M.QueueBioKeeps(s.m, x, bio, c);
    hide M.Inv, I.Inv, M.ElvMerge, M.Insert, M.MergeRequests, M.Rehash, Calls, BackCalls, FrontCalls, Matches, M.CanJoin;
    var (verdict, s1) := M.ElvMerge(s.m, bio, c.mode, c.allowed, c.front);
    var rq := M.FromBio(bio, c.mergeable);
    if verdict.NoMerge? {
      InsertCoupled(t, s1, s.d, x, rq);
    } else if !c.fitsBio {
      RefuseCoupled(s1, s.d, verdict.x);
      InsertCoupled(t, M.Refuse(s1, verdict.x), s.d, x, rq);
    } else if verdict.Back? {
      BackStep(t, s1, s.d, verdict.x, bio, c);
    } else {
      FrontStep(t, s1, s.d, verdict.x, bio, c);
    }
  }

  lemma UnplugIs(s: M.State, x: nat, rq: M.Request, mode: M.Mode, fits: bool)
    ensures var taker := Taker(s, rq, mode, fits);
            && (taker.Some? ==> taker.value in s.rqs && M.Adjoining(s.rqs[taker.value], rq))
            && M.InsertMerge(s, x, rq, mode, fits).rqs ==
               if taker.Some? then s.rqs[taker.value := M.Joined(s.rqs[taker.value], rq)] else s.rqs[x := rq]
  {
    hide M.Find, M.Bucket, M.OnHash, M.Unhash, M.Adjoining;
  }

  lemma UnplugKeeps(t: D.Tuning, s: State, x: nat, rq: M.Request, mode: M.Mode, fits: bool)
    requires Inv(t, s) && Enabled(s, Unplug(x, rq, mode, fits))
    ensures Inv(t, Next(t, s, Unplug(x, rq, mode, fits)))
  {
    M.InsertMergeKeeps(s.m, x, rq, mode, fits);
    UnplugIs(s.m, x, rq, mode, fits);
    hide M.Inv, I.Inv, Taker, M.InsertMerge, Call, Matches;
    var m' := M.InsertMerge(s.m, x, rq, mode, fits);
    var taker := Taker(s.m, rq, mode, fits);
    if taker.Some? {
      BackCoupled(t, s.m, m', s.d, taker.value, M.Joined(s.m.rqs[taker.value], rq), rq.sectors);
    } else {
      AddCoupled(t, s.m, m', s.d, x, rq);
    }
  }

  lemma MoveIs(d: D.State, x: nat)
    requires x in d.rqs
    ensures var d' := D.MoveRequest(d, x); d'.rqs == d.rqs && d'.out == d.out + [x]
  {
    hide D.RemoveFrom, D.Latter;
  }

  lemma DispatchIs(t: D.Tuning, d: D.State)
    requires I.Inv(t, d)
    ensures var (d', some) := D.Dispatch(t, d);
            && I.Inv(t, d') && d'.rqs == d.rqs
            && (some ==> d'.out != [] && d'.out == d.out + [d'.out[|d'.out| - 1]]) && (!some ==> d' == d)
  {
    I.DispatchKeeps(t, d);
    S.DispatchIs(t, d);
    hide I.Inv, D.MoveRequest, D.Batch, D.Choose, D.First, D.Dispatch;
    if D.Batch(t, d).Some? {
      MoveIs(d.(batching := d.batching + 1), D.Batch(t, d).value);
    } else if D.Choose(t, d).Some? {
      var (dir, starved) := D.Choose(t, d).value;
      MoveIs(d.(batching := 1, starved := starved), D.First(d, dir));
    }
  }

  lemma SendKeeps(t: D.Tuning, s: State)
    requires Inv(t, s)
    ensures Inv(t, Next(t, s, Send))
  {
    DispatchIs(t, s.d);
    hide I.Inv, M.Inv, D.Dispatch, M.Unhash, Matches;
    var (d, some) := D.Dispatch(t, s.d);
    if some {
      var x := d.out[|d.out| - 1];
      M.DispatchKeeps(s.m, x);
      MatchesDrop(s.m.rqs, s.d.rqs, s.d.out, x);
    }
  }

  lemma NextKeeps(t: D.Tuning, s: State, a: Action)
    requires Inv(t, s) && Enabled(s, a)
    ensures Inv(t, Next(t, s, a))
  {
    match a
    case Queue(x, bio, frontMerges, c) => QueueKeeps(t, s, x, bio, frontMerges, c);
    case Unplug(x, rq, mode, fits) => UnplugKeeps(t, s, x, rq, mode, fits);
    case Send => SendKeeps(t, s);
    case Pass(n) => I.TickKeeps(t, s.d, n);
  }

  // --------------------------------------------------------------- every run

  ghost predicate Legal(t: D.Tuning, s: State, run: seq<Action>)
    decreases |run|
  {
    run == [] || (Enabled(s, run[0]) && Legal(t, Next(t, s, run[0]), run[1..]))
  }

  function After(t: D.Tuning, s: State, run: seq<Action>): State
    decreases |run|
  {
    if run == [] then s else After(t, Next(t, s, run[0]), run[1..])
  }

  lemma {:induction false} RunKeeps(t: D.Tuning, s: State, run: seq<Action>)
    requires Inv(t, s) && Legal(t, s, run)
    ensures Inv(t, After(t, s, run))
    decreases |run|
  {
    hide Inv, Next, Enabled;
    if run != [] {
      NextKeeps(t, s, run[0]);
      RunKeeps(t, Next(t, s, run[0]), run[1..]);
    }
  }

  /**
    Through any mix of submissions, unplugs, dispatches and time: elevator and scheduler hold the same requests
    at the same sectors, no call finds the scheduler unprepared, and the next lookup by the end of a bio, whatever it
    answers, names a request of the bio's direction that starts there, or there is none.
  */
  lemma StayCoupled(t: D.Tuning, run: seq<Action>, bio: M.Bio, front: Option<nat>)
    requires Legal(t, INIT, run)
    ensures var s := After(t, INIT, run);
            && Coupled(s.m, s.d) && !s.m.bug && !s.d.bug
            && (Looks(s.d, bio, true, front) ==>
                  && M.FrontAnswer(s.m, bio, front)
                  && (front.None? <==> forall x :: x in s.m.rqs && DirOf(s.m.rqs[x].kind) == DirOf(bio.kind) ==>
                                                     s.m.rqs[x].pos != bio.sector + bio.sectors))
  {
    I.InitOk(t);
    assert Inv(t, INIT);
    RunKeeps(t, INIT, run);
    var s := After(t, INIT, run);
    hide After, Legal;
    if Looks(s.d, bio, true, front) { FrontFound(t, s, bio, true, front); }
  }

  // ---------------------------------------------------------------- in place

  /** elv_merge with deadline_merge: the verdict adjoins the bio, whatever the two hold. */
  method Merge(el: E.Elevator, dl: S.Scheduler, bio: M.Bio, mode: M.Mode, allowed: set<nat>, frontMerges: bool)
    returns (verdict: M.Verdict)
    requires Inv(dl.tuning, State(el.St(), dl.St())) && M.BioOk(bio)
    modifies el`hash
    ensures Inv(dl.tuning, State(el.St(), dl.St()))
    ensures verdict.Back? ==> verdict.x in el.rqs && M.EndOf(el.rqs[verdict.x]) == bio.sector
    ensures verdict.Front? ==> verdict.x in el.rqs && bio.sector + bio.sectors == el.rqs[verdict.x].pos
  {
    ghost var s := State(el.St(), dl.St());
    var front := None;
    if frontMerges {
      front := Lookup(dl, bio);
    }
    FrontFound(dl.tuning, s, bio, frontMerges, front);
    VerdictAdjoins(dl.tuning, s, bio, mode, allowed, frontMerges, front);
    hide M.Inv, I.Inv, M.ElvMerge, Looks;
    verdict := el.Merge(bio, mode, allowed, front);
  }

  /** deadline_merge. */
  method Lookup(dl: S.Scheduler, bio: M.Bio) returns (front: Option<nat>)
    requires I.Inv(dl.tuning, dl.St())
    ensures Looks(dl.St(), bio, true, front)
  {
    assert I.SideOk(dl.rqs, DirOf(bio.kind), dl.St().Of(DirOf(bio.kind)), dl.now + dl.tuning.Expire(DirOf(bio.kind)));
    hide I.Inv;
    front := dl.RbFind(DirOf(bio.kind), bio.sector + bio.sectors);
  }
}
