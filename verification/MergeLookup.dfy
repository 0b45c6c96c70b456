/**
  Finding a request to merge with, and merging (elv_merge and the request hash
  in block/elevator.c, attempt_merge and blk_try_merge in block/blk-merge.c, the
  bio merges of block/blk-core.c).
*/
module MergeLookup {
  import opened Lists

  const U64: nat := 0x1_0000_0000_0000_0000

  /** A bio: where it starts, its length in sectors, and what keeps unlike bios apart (direction, discard, disk, ...). */
  datatype Bio = Bio(sector: nat, sectors: nat, kind: nat)

  /** __sector, the length in sectors, the bio list, and whether none of the no-merge flags is set. */
  datatype Request = Request(pos: nat, sectors: nat, bios: seq<Bio>, kind: nat, mergeable: bool)

  /** rq_hash_key. */
  function EndOf(rq: Request): nat { rq.pos + rq.sectors }

  /** ELV_HASH_FN: hash_long of the sector block on six bits. */
  function Bucket(sector: nat): nat { sector / 8 * 0x9e37_ffff_fffc_0001 % U64 / 0x0400_0000_0000_0000 }

  /** A request linked into a hash bucket. */
  datatype Link = Link(x: nat, bucket: nat)

  /** The requests the scheduler holds, the hash (the links of each bucket in list order), and last_merge. */
  datatype State = State(rqs: map<nat, Request>, hash: seq<Link>, last: Option<nat>, bug: bool)

  const INIT := State(map[], [], None, false)

  // ---------------------------------------------------------------- the hash

  predicate OnHash(hash: seq<Link>, x: nat) {
    hash != [] && (hash[0].x == x || OnHash(hash[1..], x))
  }

  /** __elv_rqhash_del: off whatever bucket it is in. */
  function Unhash(hash: seq<Link>, x: nat): seq<Link> {
    if hash == [] then [] else if hash[0].x == x then hash[1..] else [hash[0]] + Unhash(hash[1..], x)
  }

  /** elv_rqhash_add. */
  function Hash(s: State, x: nat): State
    requires x in s.rqs
  {
    s.(hash := [Link(x, Bucket(EndOf(s.rqs[x])))] + s.hash, bug := s.bug || OnHash(s.hash, x))
  }

  /** elv_rqhash_reposition. */
  function Rehash(s: State, x: nat): State
    requires x in s.rqs
  {
    Hash(s.(hash := Unhash(s.hash, x)), x)
  }

  predicate Mergeable(rqs: map<nat, Request>, x: nat) { x in rqs && rqs[x].mergeable }

  /** elv_rqhash_find: the first mergeable request of the bucket that ends at `sector`; others are dropped on the way. */
  function Find(rqs: map<nat, Request>, hash: seq<Link>, sector: nat): (Option<nat>, seq<Link>) {
    if hash == [] then (None, [])
    else
      var l := hash[0];
      if l.bucket == Bucket(sector) && Mergeable(rqs, l.x) && EndOf(rqs[l.x]) == sector then (Some(l.x), hash)
      else
        var (found, rest) := Find(rqs, hash[1..], sector);
        (found, if l.bucket == Bucket(sector) && !Mergeable(rqs, l.x) then rest else [l] + rest)
  }

  // ----------------------------------------------------------------- verdicts

  datatype Verdict = NoMerge | Back(x: nat) | Front(x: nat)

  /** elv_rq_merge_ok, where the scheduler allows merging into the requests `allowed`. */
  predicate MergeOk(s: State, x: nat, bio: Bio, allowed: set<nat>) {
    Mergeable(s.rqs, x) && s.rqs[x].kind == bio.kind && x in allowed
  }

  /** blk_try_merge, on 64-bit sectors. */
  function TryMerge(s: State, x: nat, bio: Bio): Verdict
    requires x in s.rqs
  {
    if EndOf(s.rqs[x]) == bio.sector then Back(x)
    else if (s.rqs[x].pos - bio.sectors) % U64 == bio.sector then Front(x)
    else NoMerge
  }

  datatype Mode = NoMerges | OneHit | AllMerges

  /** elv_merge; `front` is what the scheduler's own lookup by start sector finds. */
  function ElvMerge(s: State, bio: Bio, mode: Mode, allowed: set<nat>, front: Option<nat>): (Verdict, State) {
    if mode == NoMerges then (NoMerge, s)
    else
      var cached := if s.last.Some? && MergeOk(s, s.last.value, bio, allowed) then TryMerge(s, s.last.value, bio) else NoMerge;
      if cached != NoMerge then (cached, s)
      else if mode == OneHit then (NoMerge, s)
      else
        var (found, hash) := Find(s.rqs, s.hash, bio.sector);
        var s1 := s.(hash := hash);
        if found.Some? && MergeOk(s1, found.value, bio, allowed) then (Back(found.value), s1)
        else if front.Some? && MergeOk(s1, front.value, bio, allowed) then (Front(front.value), s1)
        else (NoMerge, s1)
  }

  // ------------------------------------------------------------------ merges

  /** bio_attempt_back_merge. */
  function AddBack(rq: Request, bio: Bio): Request {
    rq.(bios := rq.bios + [bio], sectors := rq.sectors + bio.sectors)
  }

  /** bio_attempt_front_merge. */
  function AddFront(rq: Request, bio: Bio): Request {
    rq.(bios := [bio] + rq.bios, pos := bio.sector, sectors := rq.sectors + bio.sectors)
  }

  /** A merge refused for want of segments or sectors: REQ_NOMERGE. */
  function Refuse(s: State, x: nat): State
    requires x in s.rqs
  {
    s.(rqs := s.rqs[x := s.rqs[x].(mergeable := false)], last := if s.last == Some(x) then None else s.last)
  }

  /** The tests of attempt_merge. */
  predicate Adjoining(rq: Request, next: Request) {
    rq.mergeable && next.mergeable && rq.kind == next.kind && EndOf(rq) == next.pos
  }

  function Joined(rq: Request, next: Request): Request {
    rq.(bios := rq.bios + next.bios, sectors := rq.sectors + next.sectors)
  }

  /** attempt_merge of y into x, both held by the scheduler, with elv_merge_requests. */
  function MergeRequests(s: State, x: nat, y: nat): State
    requires x in s.rqs && y in s.rqs && x != y
  {
    var s1 := Rehash(s.(rqs := s.rqs[x := Joined(s.rqs[x], s.rqs[y])]), x);
    s1.(rqs := s1.rqs - {y}, hash := Unhash(s1.hash, y), last := Some(x))
  }

  /** Whether x may take over y: they adjoin, and the segment limits allow it. */
  predicate CanJoin(s: State, x: nat, y: nat, fits: bool) {
    x in s.rqs && y in s.rqs && x != y && Adjoining(s.rqs[x], s.rqs[y]) && fits
  }

  /** Sorted insertion of a new request. */
  function Insert(s: State, x: nat, rq: Request): State {
    var s1 := s.(rqs := s.rqs[x := rq]);
    if !rq.mergeable then s1
    else
      var s2 := Hash(s1, x);
      s2.(last := if s.last.None? then Some(x) else s.last)
  }

  function FromBio(bio: Bio, mergeable: bool): Request { Request(bio.sector, bio.sectors, [bio], bio.kind, mergeable) }

  /**
    The choices the model leaves open in one call of blk_queue_bio: what the scheduler allows and finds,
    the neighbour it names, and whether limits allow the bio and the neighbour.
  */
  datatype Choice = Choice(
    mode: Mode, allowed: set<nat>, front: Option<nat>, neighbour: Option<nat>, fitsBio: bool, fitsNext: bool,
    mergeable: bool)

  /** blk_queue_bio from the merge attempt on; x is the identity of a request it may allocate. */
  function QueueBio(s: State, x: nat, bio: Bio, c: Choice): State {
    var (verdict, s1) := ElvMerge(s, bio, c.mode, c.allowed, c.front);
    match verdict
    case NoMerge => Insert(s1, x, FromBio(bio, c.mergeable))
    case Back(r) =>
      if r !in s1.rqs then s1.(bug := true)
      else if !c.fitsBio then Insert(Refuse(s1, r), x, FromBio(bio, c.mergeable))
      else
        var s2 := s1.(rqs := s1.rqs[r := AddBack(s1.rqs[r], bio)]);
        if c.neighbour.Some? && CanJoin(s2, r, c.neighbour.value, c.fitsNext) then MergeRequests(s2, r, c.neighbour.value)
        else Rehash(s2, r).(last := Some(r))
    case Front(r) =>
      if r !in s1.rqs then s1.(bug := true)
      else if !c.fitsBio then Insert(Refuse(s1, r), x, FromBio(bio, c.mergeable))
      else
        var s2 := s1.(rqs := s1.rqs[r := AddFront(s1.rqs[r], bio)]);
        if c.neighbour.Some? && CanJoin(s2, c.neighbour.value, r, c.fitsNext) then MergeRequests(s2, c.neighbour.value, r)
        else s2.(last := Some(r))
  }

  /** A new request put behind x without entering the scheduler. */
  function Absorb(s: State, x: nat, rq: Request): State
    requires x in s.rqs
  {
    Rehash(s.(rqs := s.rqs[x := Joined(s.rqs[x], rq)]), x).(last := Some(x))
  }

  /** Insertion from a plug list: elv_attempt_insert_merge, else sorted insertion. */
  function InsertMerge(s: State, x: nat, rq: Request, mode: Mode, fits: bool): State {
    if mode == NoMerges then Insert(s, x, rq)
    else if s.last.Some? && s.last.value in s.rqs && Adjoining(s.rqs[s.last.value], rq) && fits then Absorb(s, s.last.value, rq)
    else if mode == OneHit then Insert(s, x, rq)
    else
      var (found, hash) := Find(s.rqs, s.hash, rq.pos);
      var s1 := s.(hash := hash);
      if found.Some? && found.value in s.rqs && Adjoining(s.rqs[found.value], rq) && fits then Absorb(s1, found.value, rq)
      else Insert(s1, x, rq)
  }

  /** elv_dispatch_sort and elv_dispatch_add_tail: the request leaves the scheduler. */
  function Dispatch(s: State, x: nat): State {
    State(s.rqs - {x}, Unhash(s.hash, x), if s.last == Some(x) then None else s.last, s.bug)
  }

  // ------------------------------------------------------ requests are whole

  function Sum(bios: seq<Bio>): nat {
    if bios == [] then 0 else bios[0].sectors + Sum(bios[1..])
  }

  /** An ascending run without gaps. */
  ghost predicate GapFree(bios: seq<Bio>) {
    forall i :: 0 <= i < |bios| - 1 ==> bios[i].sector + bios[i].sectors == bios[i + 1].sector
  }

  /** A request is a gap-free run of like bios that starts at its position and is as long as they are. */
  ghost predicate Whole(rq: Request) {
    && rq.bios != [] && rq.pos == rq.bios[0].sector && rq.sectors == Sum(rq.bios) && GapFree(rq.bios)
    && (forall i :: 0 <= i < |rq.bios| ==> rq.bios[i].kind == rq.kind)
  }

  lemma {:induction false} SumAppend(a: seq<Bio>, b: seq<Bio>)
    ensures Sum(a + b) == Sum(a) + Sum(b)
  {
    if a == [] {
      assert a + b == b;
    } else {
      assert (a + b)[1..] == a[1..] + b;
      SumAppend(a[1..], b);
    }
  }

  /** A run ends where its last bio ends. */
  lemma {:induction false} RunEnd(bios: seq<Bio>)
    requires bios != [] && GapFree(bios)
    ensures bios[0].sector + Sum(bios) == bios[|bios| - 1].sector + bios[|bios| - 1].sectors
  {
    if |bios| == 1 {
      assert bios[1..] == [];
    } else {
      RunEnd(bios[1..]);
    }
  }

  lemma JoinWhole(rq: Request, next: Request)
    requires Whole(rq) && Whole(next) && rq.kind == next.kind && EndOf(rq) == next.pos
    ensures Whole(Joined(rq, next)) && EndOf(Joined(rq, next)) == EndOf(next)
  {
    RunEnd(rq.bios);
    SumAppend(rq.bios, next.bios);
    var all := rq.bios + next.bios;
    forall i | 0 <= i < |all| - 1 ensures all[i].sector + all[i].sectors == all[i + 1].sector {
      if i < |rq.bios| - 1 {
        assert all[i] == rq.bios[i] && all[i + 1] == rq.bios[i + 1];
      } else if i >= |rq.bios| {
        assert all[i] == next.bios[i - |rq.bios|] && all[i + 1] == next.bios[i + 1 - |rq.bios|];
      }
    }
  }

  lemma FromBioWhole(bio: Bio, mergeable: bool)
    ensures Whole(FromBio(bio, mergeable)) && EndOf(FromBio(bio, mergeable)) == bio.sector + bio.sectors
  {
    assert [bio][1..] == [];
  }

  lemma BackWhole(rq: Request, bio: Bio)
    requires Whole(rq) && EndOf(rq) == bio.sector && rq.kind == bio.kind
    ensures Whole(AddBack(rq, bio))
  {
    FromBioWhole(bio, true);
    JoinWhole(rq, FromBio(bio, true));
  }

  lemma FrontWhole(rq: Request, bio: Bio)
    requires Whole(rq) && bio.sector + bio.sectors == rq.pos && rq.kind == bio.kind
    ensures Whole(AddFront(rq, bio)) && EndOf(AddFront(rq, bio)) == EndOf(rq)
  {
    FromBioWhole(bio, rq.mergeable);
    JoinWhole(FromBio(bio, rq.mergeable), rq);
    SumAppend([bio], rq.bios);
  }

  // ---------------------------------------------------- the hash is current

  ghost predicate Distinct(hash: seq<Link>) {
    forall i, j :: 0 <= i < j < |hash| ==> hash[i].x != hash[j].x
  }

  ghost predicate Linked(hash: seq<Link>, x: nat) { exists l :: l in hash && l.x == x }

  /** Links, but for those of `loose`, are in the bucket of the request's current end; mergeable requests are linked. */
  ghost predicate Current(rqs: map<nat, Request>, hash: seq<Link>, loose: set<nat>) {
    && Distinct(hash)
    && (forall l :: l in hash && l.x !in loose ==> l.x in rqs && l.bucket == Bucket(EndOf(rqs[l.x])))
    && (forall x :: x in rqs && rqs[x].mergeable && x !in loose ==> Linked(hash, x))
  }

  ghost predicate AllWhole(rqs: map<nat, Request>) { forall x :: x in rqs ==> Whole(rqs[x]) && rqs[x].pos < U64 }

  ghost predicate Inv(s: State) {
    AllWhole(s.rqs) && Current(s.rqs, s.hash, {}) && (s.last.Some? ==> s.last.value in s.rqs) && !s.bug
  }

  lemma {:induction false} OnHashIs(hash: seq<Link>, x: nat)
    ensures OnHash(hash, x) <==> Linked(hash, x)
  {
    if hash != [] {
      OnHashIs(hash[1..], x);
      assert hash == [hash[0]] + hash[1..];
    }
  }

  lemma DistinctTail(hash: seq<Link>)
    requires hash != [] && Distinct(hash)
    ensures Distinct(hash[1..]) && forall l :: l in hash[1..] ==> l.x != hash[0].x
  {}

  lemma DistinctCons(l: Link, u: seq<Link>)
    requires Distinct(u) && forall m :: m in u ==> m.x != l.x
    ensures Distinct([l] + u)
  {
    assert forall j :: 0 <= j < |u| ==> u[j] in u;
  }

  lemma {:induction false} UnhashKeeps(hash: seq<Link>, x: nat)
    requires Distinct(hash)
    ensures var r := Unhash(hash, x);
            Distinct(r) && forall l :: l in r <==> l in hash && l.x != x
  {
    hide Distinct;
    if hash != [] {
      var t := hash[1..];
      DistinctTail(hash);
      UnhashKeeps(t, x);
      assert hash == [hash[0]] + t;
      if hash[0].x != x { DistinctCons(hash[0], Unhash(t, x)); }
    }
  }

  lemma UnhashCurrent(rqs: map<nat, Request>, hash: seq<Link>, loose: set<nat>, x: nat)
    requires Current(rqs, hash, loose)
    ensures Current(rqs, Unhash(hash, x), loose + {x}) && !Linked(Unhash(hash, x), x)
  {
    hide Bucket, Unhash;
    UnhashKeeps(hash, x);
    var r := Unhash(hash, x);
    forall y | Linked(hash, y) && y != x ensures Linked(r, y) {
      var l :| l in hash && l.x == y;
      assert l in r;
    }
  }

  /** Linking in a request repairs its place in the hash, and never finds it linked. */
  lemma RehashCurrent(s: State, x: nat)
    requires x in s.rqs && Current(s.rqs, s.hash, {x})
    ensures Current(s.rqs, Rehash(s, x).hash, {}) && Rehash(s, x).bug == s.bug
  {
    hide Bucket, Unhash, OnHash;
    UnhashCurrent(s.rqs, s.hash, {x}, x);
    assert {x} + {x} == {x};
    HashCurrent(s.(hash := Unhash(s.hash, x)), x);
  }

  lemma HashCurrent(s: State, x: nat)
    requires x in s.rqs && Current(s.rqs, s.hash, {x}) && !Linked(s.hash, x)
    ensures Current(s.rqs, Hash(s, x).hash, {}) && Hash(s, x).bug == s.bug
  {
    hide Bucket, OnHash;
    OnHashIs(s.hash, x);
    var l := Link(x, Bucket(EndOf(s.rqs[x])));
    var r := [l] + s.hash;
    assert l in r;
    forall y | y in s.rqs && s.rqs[y].mergeable ensures Linked(r, y) {
      if y != x { var k :| k in s.hash && k.x == y; assert k in r; }
    }
    forall j | 0 <= j < |s.hash| ensures s.hash[j].x != x { assert s.hash[j] in s.hash; }
  }

  /** A changed request leaves all other links current. */
  lemma ChangeCurrent(rqs: map<nat, Request>, hash: seq<Link>, x: nat, rq: Request)
    requires Current(rqs, hash, {})
    ensures Current(rqs[x := rq], hash, {x})
    ensures x in rqs && EndOf(rq) == EndOf(rqs[x]) && (rq.mergeable ==> rqs[x].mergeable) ==> Current(rqs[x := rq], hash, {})
  {
    hide Bucket;
  }

  lemma DropCurrent(rqs: map<nat, Request>, hash: seq<Link>, y: nat)
    requires Current(rqs, hash, {})
    ensures Current(rqs - {y}, Unhash(hash, y), {})
  {
    hide Bucket, Unhash;
    UnhashCurrent(rqs, hash, {}, y);
    var r := Unhash(hash, y);
    forall l | l in r ensures l.x != y {}
  }

  /** The lookup finds a mergeable request that ends at the sector just when there is one. */
  lemma {:induction false} FindSound(rqs: map<nat, Request>, hash: seq<Link>, sector: nat)
    requires forall l :: l in hash ==> l.x in rqs && l.bucket == Bucket(EndOf(rqs[l.x]))
    ensures var (found, rest) := Find(rqs, hash, sector);
            && (found.Some? ==> Mergeable(rqs, found.value) && EndOf(rqs[found.value]) == sector)
            && (found.None? ==> forall l :: l in hash && Mergeable(rqs, l.x) ==> EndOf(rqs[l.x]) != sector)
            && (forall l :: l in rest ==> l in hash)
            && (forall l :: l in hash && Mergeable(rqs, l.x) ==> l in rest)
  {
    hide Bucket;
    if hash != [] {
      assert hash == [hash[0]] + hash[1..];
      FindSound(rqs, hash[1..], sector);
    }
  }

  lemma {:induction false} FindDistinct(rqs: map<nat, Request>, hash: seq<Link>, sector: nat)
    requires Distinct(hash)
    ensures Distinct(Find(rqs, hash, sector).1) && forall l :: l in Find(rqs, hash, sector).1 ==> l in hash
  {
    hide Bucket;
    if hash != [] {
      var t := hash[1..];
      assert hash == [hash[0]] + t;
      FindDistinct(rqs, t, sector);
      var r := Find(rqs, t, sector).1;
      forall j | 0 <= j < |r| ensures r[j].x != hash[0].x {
        assert r[j] in t;
        var k :| 0 <= k < |t| && t[k] == r[j];
        assert hash[k + 1] == t[k];
      }
    }
  }

  lemma FindExact(s: State, sector: nat)
    requires Current(s.rqs, s.hash, {})
    ensures var (found, rest) := Find(s.rqs, s.hash, sector);
            && Current(s.rqs, rest, {})
            && (found.Some? <==> exists x :: Mergeable(s.rqs, x) && EndOf(s.rqs[x]) == sector)
            && (found.Some? ==> Mergeable(s.rqs, found.value) && EndOf(s.rqs[found.value]) == sector)
  {
    hide Find, Bucket;
    FindSound(s.rqs, s.hash, sector);
    FindDistinct(s.rqs, s.hash, sector);
    var (found, rest) := Find(s.rqs, s.hash, sector);
    forall x | x in s.rqs && s.rqs[x].mergeable
      ensures Linked(rest, x) && (found.None? ==> EndOf(s.rqs[x]) != sector)
    {
      assert Linked(s.hash, x);
      var l :| l in s.hash && l.x == x;
      assert l in rest;
    }
    if x :| Mergeable(s.rqs, x) && EndOf(s.rqs[x]) == sector { assert found.Some?; }
  }

  // -------------------------------------------------------- verdicts are exact

  predicate BioOk(bio: Bio) { bio.sector + bio.sectors < U64 }

  /** What a lookup by start sector answers. */
  predicate FrontAnswer(s: State, bio: Bio, front: Option<nat>) {
    front.Some? ==> front.value in s.rqs && s.rqs[front.value].pos == bio.sector + bio.sectors
  }

  lemma Unwrapped(pos: nat, sector: nat, n: nat)
    requires pos < U64 && sector + n < U64 && (pos - n) % U64 == sector
    ensures pos == sector + n
  {}

  /** Every verdict of elv_merge names a queued, mergeable request of the same kind that adjoins the bio. */
  lemma VerdictAdjoins(s: State, bio: Bio, mode: Mode, allowed: set<nat>, front: Option<nat>)
    requires Inv(s) && BioOk(bio) && FrontAnswer(s, bio, front)
    ensures var (verdict, s') := ElvMerge(s, bio, mode, allowed, front);
            && Inv(s') && s'.rqs == s.rqs && s'.last == s.last
            && (verdict.Back? ==>
                  verdict.x in s.rqs && MergeOk(s, verdict.x, bio, allowed) && EndOf(s.rqs[verdict.x]) == bio.sector)
            && (verdict.Front? ==>
                  && verdict.x in s.rqs && MergeOk(s, verdict.x, bio, allowed)
                  && bio.sector + bio.sectors == s.rqs[verdict.x].pos)
  {
    FindExact(s, bio.sector);
    if s.last.Some? && MergeOk(s, s.last.value, bio, allowed) { TryMergeAdjoins(s, s.last.value, bio); }
    hide Find, Current, Whole, TryMerge;
  }

  /**
    The order of the lookups: last_merge before all others, and nothing else with QUEUE_FLAG_NOXMERGES; no lookup at all
    with QUEUE_FLAG_NOMERGES.
  */
  lemma LastMergeFirst(s: State, bio: Bio, mode: Mode, allowed: set<nat>, front: Option<nat>)
    requires Inv(s) && BioOk(bio)
    ensures var verdict := ElvMerge(s, bio, mode, allowed, front).0;
            var hit := s.last.Some? && MergeOk(s, s.last.value, bio, allowed);
            && (mode == NoMerges ==> verdict == NoMerge)
            && (mode != NoMerges && hit && EndOf(s.rqs[s.last.value]) == bio.sector ==> verdict == Back(s.last.value))
            && (mode != NoMerges && hit && EndOf(s.rqs[s.last.value]) != bio.sector && bio.sector + bio.sectors == s.rqs[s.last.value].pos ==>
                  verdict == Front(s.last.value))
            && (mode == OneHit && verdict != NoMerge ==> hit && (verdict == Back(s.last.value) || verdict == Front(s.last.value)))
  {
    if s.last.Some? && MergeOk(s, s.last.value, bio, allowed) { TryMergeAdjoins(s, s.last.value, bio); }
    hide Find, Current, Whole, TryMerge;
  }

  /** blk_try_merge, for all its unsigned subtraction, answers just when bio and request adjoin. */
  lemma TryMergeAdjoins(s: State, x: nat, bio: Bio)
    requires x in s.rqs && s.rqs[x].pos < U64 && BioOk(bio)
    ensures var v := TryMerge(s, x, bio);
            && (v == Back(x) <==> EndOf(s.rqs[x]) == bio.sector)
            && (v == Front(x) <==> EndOf(s.rqs[x]) != bio.sector && bio.sector + bio.sectors == s.rqs[x].pos)
            && (v.NoMerge? || v == Back(x) || v == Front(x))
  {
    if (s.rqs[x].pos - bio.sectors) % U64 == bio.sector { Unwrapped(s.rqs[x].pos, bio.sector, bio.sectors); }
  }

  // --------------------------------------------------------------- every run

  lemma MergeRequestsKeeps(s: State, x: nat, y: nat)
    requires x in s.rqs && y in s.rqs && x != y && Current(s.rqs, s.hash, {x}) && AllWhole(s.rqs) && !s.bug
    requires Adjoining(s.rqs[x], s.rqs[y])
    ensures Inv(MergeRequests(s, x, y))
  {
    hide Find, Whole, Unhash, OnHash;
    JoinWhole(s.rqs[x], s.rqs[y]);
    var s0 := s.(rqs := s.rqs[x := Joined(s.rqs[x], s.rqs[y])]);
    assert Current(s0.rqs, s0.hash, {x}) by { LooseChange(s.rqs, s.hash, x, s0.rqs[x]); }
    hide Current;
    RehashCurrent(s0, x);
    var s1 := Rehash(s0, x);
    DropCurrent(s1.rqs, s1.hash, y);
  }

  lemma LooseChange(rqs: map<nat, Request>, hash: seq<Link>, x: nat, rq: Request)
    requires Current(rqs, hash, {x})
    ensures Current(rqs[x := rq], hash, {x})
  {
    hide Bucket;
  }

  lemma InsertKeeps(s: State, x: nat, rq: Request)
    requires Inv(s) && x !in s.rqs && Whole(rq) && rq.pos < U64
    ensures Inv(Insert(s, x, rq))
  {
    hide Whole, Hash;
    var s1 := s.(rqs := s.rqs[x := rq]);
    ChangeCurrent(s.rqs, s.hash, x, rq);
    assert !Linked(s.hash, x);
    if rq.mergeable {
      HashCurrent(s1, x);
      assert Hash(s1, x).rqs == s1.rqs && Hash(s1, x).last == s.last by { HashFrame(s1, x); }
      hide Current;
    } else {
      hide Bucket;
    }
  }

  lemma HashFrame(s: State, x: nat)
    requires x in s.rqs
    ensures Hash(s, x).rqs == s.rqs && Hash(s, x).last == s.last
  {}

  lemma AbsorbKeeps(s: State, x: nat, rq: Request)
    requires Inv(s) && x in s.rqs && Adjoining(s.rqs[x], rq) && Whole(rq)
    ensures Inv(Absorb(s, x, rq))
  {
    hide Whole, OnHash, Unhash, Current;
    JoinWhole(s.rqs[x], rq);
    var s1 := s.(rqs := s.rqs[x := Joined(s.rqs[x], rq)]);
    ChangeCurrent(s.rqs, s.hash, x, s1.rqs[x]);
    RehashCurrent(s1, x);
  }

  lemma RefuseKeeps(s: State, x: nat)
    requires Inv(s) && x in s.rqs
    ensures Inv(Refuse(s, x)) && Refuse(s, x).rqs.Keys == s.rqs.Keys
  {
    hide Current;
    ChangeCurrent(s.rqs, s.hash, x, s.rqs[x].(mergeable := false));
  }

  lemma BackKeeps(s: State, r: nat, bio: Bio, c: Choice)
    requires Inv(s) && r in s.rqs && s.rqs[r].kind == bio.kind && EndOf(s.rqs[r]) == bio.sector
    ensures var s2 := s.(rqs := s.rqs[r := AddBack(s.rqs[r], bio)]);
            if c.neighbour.Some? && CanJoin(s2, r, c.neighbour.value, c.fitsNext)
            then Inv(MergeRequests(s2, r, c.neighbour.value))
            else Inv(Rehash(s2, r).(last := Some(r)))
  {
    hide Whole, Current, Unhash, OnHash, MergeRequests;
    BackWhole(s.rqs[r], bio);
    var s2 := s.(rqs := s.rqs[r := AddBack(s.rqs[r], bio)]);
    ChangeCurrent(s.rqs, s.hash, r, s2.rqs[r]);
    if c.neighbour.Some? && CanJoin(s2, r, c.neighbour.value, c.fitsNext) {
      MergeRequestsKeeps(s2, r, c.neighbour.value);
    } else {
      RehashCurrent(s2, r);
    }
  }

  lemma FrontKeeps(s: State, r: nat, bio: Bio, c: Choice)
    requires Inv(s) && BioOk(bio) && r in s.rqs && s.rqs[r].kind == bio.kind
    requires bio.sector + bio.sectors == s.rqs[r].pos
    ensures var s2 := s.(rqs := s.rqs[r := AddFront(s.rqs[r], bio)]);
            if c.neighbour.Some? && CanJoin(s2, c.neighbour.value, r, c.fitsNext)
            then Inv(MergeRequests(s2, c.neighbour.value, r))
            else Inv(s2.(last := Some(r)))
  {
    hide Whole, Current, Unhash, OnHash, MergeRequests;
    FrontWhole(s.rqs[r], bio);
    var s2 := s.(rqs := s.rqs[r := AddFront(s.rqs[r], bio)]);
    ChangeCurrent(s.rqs, s.hash, r, s2.rqs[r]);
    if c.neighbour.Some? && CanJoin(s2, c.neighbour.value, r, c.fitsNext) {
      var x := c.neighbour.value;
      ChangeCurrent(s2.rqs, s2.hash, x, s2.rqs[x]);
      assert s2.rqs[x := s2.rqs[x]] == s2.rqs;
      MergeRequestsKeeps(s2, x, r);
    }
  }

  lemma QueueBioKeeps(s: State, x: nat, bio: Bio, c: Choice)
    requires Inv(s) && x !in s.rqs && BioOk(bio) && FrontAnswer(s, bio, c.front)
    ensures Inv(QueueBio(s, x, bio, c))
  {
    VerdictAdjoins(s, bio, c.mode, c.allowed, c.front);
    FromBioWhole(bio, c.mergeable);
    hide ElvMerge, Inv, Insert, MergeRequests, Rehash, Whole;
    var (verdict, s1) := ElvMerge(s, bio, c.mode, c.allowed, c.front);
    match verdict
    case NoMerge => InsertKeeps(s1, x, FromBio(bio, c.mergeable));
    case Back(r) =>
      if c.fitsBio {
        BackKeeps(s1, r, bio, c);
      } else {
        RefuseKeeps(s1, r);
        assert x !in Refuse(s1, r).rqs;
        InsertKeeps(Refuse(s1, r), x, FromBio(bio, c.mergeable));
      }
    case Front(r) =>
      if c.fitsBio {
        FrontKeeps(s1, r, bio, c);
      } else {
        RefuseKeeps(s1, r);
        assert x !in Refuse(s1, r).rqs;
        InsertKeeps(Refuse(s1, r), x, FromBio(bio, c.mergeable));
      }
  }

  lemma InsertMergeKeeps(s: State, x: nat, rq: Request, mode: Mode, fits: bool)
    requires Inv(s) && x !in s.rqs && Whole(rq) && rq.pos < U64
    ensures Inv(InsertMerge(s, x, rq, mode, fits))
  {
    FindExact(s, rq.pos);
    hide Current, Whole, Find, Insert, Absorb;
    var s1 := s.(hash := Find(s.rqs, s.hash, rq.pos).1);
    InsertKeeps(s, x, rq);
    InsertKeeps(s1, x, rq);
    if s.last.Some? && Adjoining(s.rqs[s.last.value], rq) { AbsorbKeeps(s, s.last.value, rq); }
    var found := Find(s.rqs, s.hash, rq.pos).0;
    if found.Some? && Adjoining(s.rqs[found.value], rq) { AbsorbKeeps(s1, found.value, rq); }
  }

  lemma DispatchKeeps(s: State, x: nat)
    requires Inv(s)
    ensures Inv(Dispatch(s, x))
  {
    hide Current, Whole, Unhash;
    DropCurrent(s.rqs, s.hash, x);
  }

  datatype Action =
    | Queue(x: nat, bio: Bio, choice: Choice)
    | Unplug(x: nat, rq: Request, mode: Mode, fits: bool)
    | Send(x: nat)

  ghost predicate Enabled(s: State, a: Action) {
    match a
    case Queue(x, bio, c) => x !in s.rqs && BioOk(bio) && FrontAnswer(s, bio, c.front)
    case Unplug(x, rq, _, _) => x !in s.rqs && Whole(rq) && rq.pos < U64
    case Send(x) => true
  }

  function Next(s: State, a: Action): State {
    match a
    case Queue(x, bio, c) => QueueBio(s, x, bio, c)
    case Unplug(x, rq, mode, fits) => InsertMerge(s, x, rq, mode, fits)
    case Send(x) => Dispatch(s, x)
  }

  ghost predicate Legal(s: State, run: seq<Action>)
    decreases |run|
  {
    run == [] || (Enabled(s, run[0]) && Legal(Next(s, run[0]), run[1..]))
  }

  function After(s: State, run: seq<Action>): State
    decreases |run|
  {
    if run == [] then s else After(Next(s, run[0]), run[1..])
  }

  lemma {:induction false} RunKeeps(s: State, run: seq<Action>)
    requires Inv(s) && Legal(s, run)
    ensures Inv(After(s, run))
    decreases |run|
  {
    hide Inv, QueueBio, InsertMerge, Dispatch;
    if run != [] {
      match run[0] {
        case Queue(x, bio, c) => QueueBioKeeps(s, x, bio, c);
        case Unplug(x, rq, mode, fits) => InsertMergeKeeps(s, x, rq, mode, fits);
        case Send(x) => DispatchKeeps(s, x);
      }
      RunKeeps(Next(s, run[0]), run[1..]);
    }
  }

  /**
    Through any mix of insertion, bio merges, request merges and dispatch: every request is a gap-free
    ascending run of its bios, every hashed one is in the bucket of its current end, every mergeable one
    is hashed, and no request is ever hashed twice.
  */
  lemma MergesExact(run: seq<Action>)
    requires Legal(INIT, run)
    ensures var s := After(INIT, run);
            && (forall x :: x in s.rqs ==> Whole(s.rqs[x]))
            && (forall l :: l in s.hash ==> l.x in s.rqs && l.bucket == Bucket(EndOf(s.rqs[l.x])))
            && (forall x :: Mergeable(s.rqs, x) ==> Linked(s.hash, x))
            && Distinct(s.hash) && !s.bug
  {
    assert Inv(INIT);
    RunKeeps(INIT, run);
    hide Bucket;
  }
}
