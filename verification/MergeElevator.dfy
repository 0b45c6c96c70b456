/**
  The request hash and the merge entry points of block/elevator.c as they are
  updated in place.
*/
module MergeElevator {
  import opened Lists
  import opened MergeLookup

  /** The walk through `hash` has reached i, on the way to the outcome `all`. */
  predicate Walking(all: (Option<nat>, seq<Link>), rqs: map<nat, Request>, hash: seq<Link>, i: nat, sector: nat) {
    i <= |hash| && all.0 == Find(rqs, hash[i..], sector).0 && all.1 == hash[..i] + Find(rqs, hash[i..], sector).1
  }

  predicate Stale(rqs: map<nat, Request>, l: Link, sector: nat) { l.bucket == Bucket(sector) && !Mergeable(rqs, l.x) }

  predicate Hit(rqs: map<nat, Request>, l: Link, sector: nat) {
    l.bucket == Bucket(sector) && Mergeable(rqs, l.x) && EndOf(rqs[l.x]) == sector
  }

  lemma WalkStart(rqs: map<nat, Request>, hash: seq<Link>, sector: nat)
    ensures Walking(Find(rqs, hash, sector), rqs, hash, 0, sector)
  {
    assert hash[0..] == hash && hash[..0] == [];
  }

  /** What one step of the walk does to the outcome. */
  lemma WalkStep(all: (Option<nat>, seq<Link>), rqs: map<nat, Request>, hash: seq<Link>, i: nat, sector: nat)
    requires i < |hash| && Walking(all, rqs, hash, i, sector)
    ensures Stale(rqs, hash[i], sector) ==> Walking(all, rqs, hash[..i] + hash[i + 1..], i, sector)
    ensures Hit(rqs, hash[i], sector) ==> all == (Some(hash[i].x), hash)
    ensures !Stale(rqs, hash[i], sector) && !Hit(rqs, hash[i], sector) ==> Walking(all, rqs, hash, i + 1, sector)
  {
    hide Bucket;
    var l := hash[i];
    assert hash[i..][0] == l && hash[i..][1..] == hash[i + 1..];
    var rest := Find(rqs, hash[i + 1..], sector).1;
    if Stale(rqs, l, sector) {
      var h := hash[..i] + hash[i + 1..];
      assert h[i..] == hash[i + 1..] && h[..i] == hash[..i];
    } else if Hit(rqs, l, sector) {
      assert hash == hash[..i] + hash[i..];
    } else {
      assert hash[..i] + ([l] + rest) == hash[..i + 1] + rest;
    }
  }

  lemma WalkEnd(all: (Option<nat>, seq<Link>), rqs: map<nat, Request>, hash: seq<Link>, sector: nat)
    requires Walking(all, rqs, hash, |hash|, sector)
    ensures all == (None, hash)
  {
    assert hash[|hash|..] == [] && hash[..|hash|] + [] == hash;
  }

  class Elevator {
    var rqs: map<nat, Request>
    var hash: seq<Link>
    var last: Option<nat>
    var bug: bool

    constructor ()
      ensures St() == INIT && Inv(St())
    {
      rqs, hash, last, bug := map[], [], None, false;
    }

    function St(): State reads this { State(rqs, hash, last, bug) }

    /** elv_rqhash_add. */
    method RqhashAdd(x: nat)
      requires x in rqs
      modifies `hash, `bug
      ensures St() == Hash(old(St()), x)
    {
      if OnHash(hash, x) {
        bug := true;
      }
      hash := [Link(x, Bucket(EndOf(rqs[x])))] + hash;
    }

    /** elv_rqhash_reposition. */
    method RqhashReposition(x: nat)
      requires x in rqs
      modifies `hash, `bug
      ensures St() == Rehash(old(St()), x)
    {
      hash := Unhash(hash, x);
      RqhashAdd(x);
    }

    /**
      elv_rqhash_find: finds a mergeable request that ends at `sector` just when there is one, and drops
      requests of the bucket that are no longer mergeable.
    */
    method RqhashFind(sector: nat) returns (found: Option<nat>)
      requires Current(rqs, hash, {})
      modifies `hash
      ensures (found, hash) == Find(rqs, old(hash), sector)
      ensures Current(rqs, hash, {})
      ensures found.Some? <==> exists x :: Mergeable(rqs, x) && EndOf(rqs[x]) == sector
    {
      FindExact(St(), sector);
      WalkStart(rqs, hash, sector);
      hide Bucket, Current, Find, Walking;
      ghost var all := Find(rqs, hash, sector);
      var i := 0;
      while i < |hash|
        invariant i <= |hash| && Walking(all, rqs, hash, i, sector)
        decreases |hash| - i
      {
        WalkStep(all, rqs, hash, i, sector);
        if Stale(rqs, hash[i], sector) {
          hash := hash[..i] + hash[i + 1..];
        } else if Hit(rqs, hash[i], sector) {
          return Some(hash[i].x);
        } else {
          i := i + 1;
        }
      }
      WalkEnd(all, rqs, hash, sector);
      found := None;
    }

    /** elv_merge. */
    method Merge(bio: Bio, mode: Mode, allowed: set<nat>, front: Option<nat>) returns (verdict: Verdict)
      requires Inv(St()) && BioOk(bio) && FrontAnswer(St(), bio, front)
      modifies `hash
      ensures (verdict, St()) == ElvMerge(old(St()), bio, mode, allowed, front)
      ensures Inv(St())
      ensures verdict.Back? ==> verdict.x in rqs && EndOf(rqs[verdict.x]) == bio.sector
      ensures verdict.Front? ==> verdict.x in rqs && bio.sector + bio.sectors == rqs[verdict.x].pos
    {
      VerdictAdjoins(St(), bio, mode, allowed, front);
      hide Current, Find, TryMerge, AllWhole;
      if mode == NoMerges {
        return NoMerge;
      }
      if last.Some? && MergeOk(St(), last.value, bio, allowed) {
        verdict := TryMerge(St(), last.value, bio);
        if verdict != NoMerge {
          return;
        }
      }
      if mode == OneHit {
        return NoMerge;
      }
      var found := RqhashFind(bio.sector);
      if found.Some? && MergeOk(St(), found.value, bio, allowed) {
        return Back(found.value);
      }
      if front.Some? && MergeOk(St(), front.value, bio, allowed) {
        return Front(front.value);
      }
      verdict := NoMerge;
    }

    /** attempt_merge of y into x, with elv_merge_requests. */
    method AttemptMerge(x: nat, y: nat, fits: bool) returns (merged: bool)
      requires x in rqs && y in rqs && x != y && AllWhole(rqs) && Current(rqs, hash, {x}) && !bug
      modifies this
      ensures merged <==> CanJoin(old(St()), x, y, fits)
      ensures merged ==> St() == MergeRequests(old(St()), x, y) && Inv(St())
      ensures !merged ==> St() == old(St())
    {
      if !Adjoining(rqs[x], rqs[y]) || !fits {
        return false;
      }
      MergeRequestsKeeps(St(), x, y);
      hide Current, AllWhole, Unhash, Hash;
      rqs := rqs[x := Joined(rqs[x], rqs[y])];
      RqhashReposition(x);
      rqs := rqs - {y};
      hash := Unhash(hash, y);
      last := Some(x);
      merged := true;
    }
  }
}
