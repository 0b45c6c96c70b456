/**
  The rate limit of block/blk-throttle.c on what leaves the queues: over every
  run, whatever is submitted and however dispatching interleaves, the bios of
  one group and direction that went out keep to its limits.
*/
module ThrottleBound {
  import R = ThrottleRate
  import X = ThrottleExact
  import opened ThrottleQueue
  import opened ThrottleRuns

  const WORD: nat := 0x1_0000_0000_0000_0000

  /** No product of the code for times up to `now` leaves its width: a bound a caller can compute. */
  predicate Horizon(c: R.Clock, d: R.Dir, now: nat, s0: nat, bytes: bool)
    requires c.Valid() && s0 <= now
  {
    var span := now - s0 + 2 * c.Slice();
    if bytes then R.Times(d.bps, span) < WORD
    else R.Times(d.iops, span) < WORD && R.Times(d.iops, span) < R.Times(R.UINT_MAX, c.hz)
  }

  /** b bytes and i bios let through since the slice start s0 are paid for. */
  ghost predicate Metered(c: R.Clock, d: R.Dir, b: nat, i: nat, now: nat, bytes: bool, s0: nat)
    requires c.Valid()
  {
    && s0 <= now && d.bps > 0 && d.iops > 0 && !R.Unlimited(d) && d.bytesDisp <= b && d.ioDisp <= i
    && (Horizon(c, d, now, s0, bytes) ==> exists last :: R.Inv(c, R.Meter(d, b, i, now, last), bytes, s0))
  }

  lemma HorizonEarlier(c: R.Clock, d: R.Dir, now: nat, later: nat, s0: nat, bytes: bool)
    requires c.Valid() && s0 <= now <= later && Horizon(c, d, later, s0, bytes)
    ensures Horizon(c, d, now, s0, bytes)
  {
    var n, l := now - s0 + 2 * c.Slice(), later - s0 + 2 * c.Slice();
    R.MulMono(if bytes then d.bps else d.iops, n, l);
    hide R.Times;
  }

  lemma MeteredLater(c: R.Clock, d: R.Dir, b: nat, i: nat, now: nat, later: nat, bytes: bool, s0: nat)
    requires c.Valid() && Metered(c, d, b, i, now, bytes, s0) && now <= later
    ensures Metered(c, d, b, i, later, bytes, s0)
  {
    hide R.Paid, R.Times;
    if Horizon(c, d, later, s0, bytes) {
      HorizonEarlier(c, d, now, later, s0, bytes);
      var last :| R.Inv(c, R.Meter(d, b, i, now, last), bytes, s0);
      assert R.Inv(c, R.Meter(d, b, i, later, last), bytes, s0);
    }
  }

  lemma LookRates(c: R.Clock, d: R.Dir, size: nat, now: nat)
    requires c.Valid() && d.bps > 0 && d.iops > 0
    ensures var e := R.MayDispatch(c, d, size, now).2;
            e.bps == d.bps && e.iops == d.iops && e.bytesDisp <= d.bytesDisp && e.ioDisp <= d.ioDisp
  {
    hide R.Times, R.Over, R.U64, R.U32, R.RoundUp;
  }

  /** A look renews or extends the slice, and nothing else. */
  lemma LookMeter(c: R.Clock, d: R.Dir, b: nat, i: nat, now: nat, size: nat, bytes: bool, s0: nat)
    requires c.Valid() && Metered(c, d, b, i, now, bytes, s0)
    ensures Metered(c, R.MayDispatch(c, d, size, now).2, b, i, now, bytes, s0)
  {
    LookRates(c, d, size, now);
    hide R.MayDispatch, R.Paid, R.Times;
    var e := R.MayDispatch(c, d, size, now).2;
    if Horizon(c, e, now, s0, bytes) {
      var last :| R.Inv(c, R.Meter(d, b, i, now, last), bytes, s0);
      var m := R.Meter(d, b, i, now, last);
      R.LookKeeps(c, m, R.Look(size, now), bytes, s0);
      assert R.Inv(c, R.Meter(e, b, i, now, last), bytes, s0);
    }
  }

  lemma TimesLess(a: nat, b: nat, k: nat)
    requires R.Times(a, k) < R.Times(b, k)
    ensures a < b
  {
    if a >= b { R.MulMono(k, b, a); }
  }

  /** Within the horizon no arithmetic of a step overflows. */
  lemma Fits(c: R.Clock, m: R.Meter, size: Size, bytes: bool, s0: nat)
    requires c.Valid() && R.Inv(c, m, bytes, s0) && s0 <= m.now && Horizon(c, m.d, m.now, s0, bytes)
    requires m.d.bytesDisp <= m.bytes && m.d.ioDisp <= m.ios
    ensures if bytes then R.BytesFit(c, m, R.Offer(size, m.now)) else R.IosFit(c, m, R.Offer(size, m.now))
  {
    R.RenewKeeps(c, m, m.now, bytes, s0);
    var d := R.Renew(c, m.d, m.now);
    assert d.bytesDisp <= m.d.bytesDisp && d.ioDisp <= m.d.ioDisp by { hide R.RoundUp; }
    assert s0 <= d.start <= m.now && m.last + c.Slice() - s0 <= m.now - s0 + 2 * c.Slice();
    R.ElapsedBounds(c, d, m.now);
    hide R.Renew, R.RoundUp, R.Elapsed;
    var rate := if bytes then d.bps else d.iops;
    var span := m.now - s0 + 2 * c.Slice();
    R.MulMono(rate, R.Elapsed(c, d, m.now), span);
    R.MulMono(rate, m.last + c.Slice() - s0, span);
    assert R.Times(if bytes then m.bytes else m.ios, c.hz) <= R.Times(rate, span);
    if bytes {
      assert R.Times(m.bytes, 10) <= R.Times(m.bytes, c.hz) by { R.MulMono(m.bytes, 10, c.hz); }
    } else {
      hide R.Times;
      TimesLess(m.ios, R.UINT_MAX, c.hz);
    }
  }

  lemma ChargedDisp(c: R.Clock, d: R.Dir, size: nat, now: nat)
    requires c.Valid()
    ensures var t := R.TrimSlice(c, R.Charge(d, size), now);
            t.bps == d.bps && t.iops == d.iops && t.bytesDisp <= d.bytesDisp + size && t.ioDisp <= d.ioDisp + 1
  {
    assert R.U64(d.bytesDisp + size) <= d.bytesDisp + size && R.U32(d.ioDisp + 1) <= d.ioDisp + 1;
    hide R.Times, R.Over, R.RoundUp, R.U64, R.U32;
  }

  /** A bio the limits allow, charged and trimmed for. */
  lemma OfferMeter(c: R.Clock, d: R.Dir, b: nat, i: nat, now: nat, size: Size, bytes: bool, s0: nat)
    requires c.Valid() && Metered(c, d, b, i, now, bytes, s0) && R.MayDispatch(c, d, size, now).0
    ensures Metered(c, R.TrimSlice(c, R.Charge(R.MayDispatch(c, d, size, now).2, size), now), b + size, i + 1, now, bytes, s0)
  {
    LookRates(c, d, size, now);
    var e := R.MayDispatch(c, d, size, now).2;
    ChargedDisp(c, e, size, now);
    hide R.MayDispatch, R.TrimSlice, R.Charge, R.Paid, R.Times, R.BytesFit, R.IosFit;
    var t := R.TrimSlice(c, R.Charge(e, size), now);
    if Horizon(c, t, now, s0, bytes) {
      var last :| R.Inv(c, R.Meter(d, b, i, now, last), bytes, s0);
      var m := R.Meter(d, b, i, now, last);
      Fits(c, m, size, bytes, s0);
      R.NextKeeps(c, m, R.Offer(size, now), bytes, s0);
      assert R.Next(c, m, R.Offer(size, now)) == R.Meter(t, b + size, i + 1, now, now);
    }
  }

  // -------------------------------------------------------------- of the queues

  function Bytes(bios: seq<Bio>): nat {
    if bios == [] then 0 else Bytes(bios[..|bios| - 1]) + bios[|bios| - 1].size
  }

  /** A group and direction watched from position p of the output on, its slice having started at s0; and its limits. */
  datatype Watch = Watch(g: nat, write: bool, p: nat, s0: nat, bytes: bool, bps: nat, iops: nat)

  /** What went out of it since. */
  function Gone(s: State, k: Watch): seq<Bio> { if k.p <= |s.out| then Only(s.out[k.p..], k.g, k.write) else [] }

  ghost predicate Kept(c: R.Clock, s: State, k: Watch)
    requires c.Valid()
  {
    && k.g < |s.groups| && k.p <= |s.out|
    && s.groups[k.g].Of(k.write).rate.bps == k.bps && s.groups[k.g].Of(k.write).rate.iops == k.iops
    && Metered(c, s.groups[k.g].Of(k.write).rate, Bytes(Gone(s, k)), |Gone(s, k)|, s.now, k.bytes, k.s0)
  }

  lemma BytesMore(bios: seq<Bio>, bio: Bio)
    ensures Bytes(bios + [bio]) == Bytes(bios) + bio.size
  {
    assert (bios + [bio])[..|bios|] == bios;
  }

  lemma GoneMore(s: State, s': State, k: Watch, e: Entry)
    requires k.p <= |s.out| && s'.out == s.out + [e]
    ensures Gone(s', k) == Gone(s, k) + if e.g == k.g && e.bio.write == k.write then [e.bio] else []
  {
    assert s'.out[k.p..] == s.out[k.p..] + [e];
    OnlyAppend(s.out[k.p..], e, k.g, k.write);
  }

  /** Steps that touch neither the slice watched nor the output. */
  lemma Untouched(c: R.Clock, s: State, s': State, k: Watch)
    requires c.Valid() && Kept(c, s, k) && k.g < |s'.groups| && s'.out == s.out && s'.now == s.now
    requires s'.groups[k.g].Of(k.write).rate == s.groups[k.g].Of(k.write).rate
    ensures Kept(c, s', k)
  {
    hide Metered;
  }

  lemma LookKept(c: R.Clock, s: State, g: nat, write: bool, k: Watch)
    requires Ready(c, s, g) && s.groups[g].Of(write).list != [] && Kept(c, s, k)
    ensures Kept(c, Look(c, s, g, write), k)
  {
    hide Inv, Metered;
    var s' := Look(c, s, g, write);
    if g == k.g && write == k.write {
      LookMeter(c, s.groups[g].Of(write).rate, Bytes(Gone(s, k)), |Gone(s, k)|, s.now,
                s.groups[g].Of(write).list[0].size, k.bytes, k.s0);
      HeadIs(c, s, g, write);
      LookRates(c, s.groups[g].Of(write).rate, s.groups[g].Of(write).list[0].size, s.now);
    } else {
      hide HeadOf;
      Untouched(c, s, s', k);
    }
  }

  lemma HeadIs(c: R.Clock, s: State, g: nat, write: bool)
    requires Ready(c, s, g) && s.groups[g].Of(write).list != []
    ensures var lane := s.groups[g].Of(write);
            && lane.rate.bps > 0 && lane.rate.iops > 0 && lane.list[0].write == write
            && HeadOf(c, s, g, write) == R.MayDispatch(c, lane.rate, lane.list[0].size, s.now)
            && Look(c, s, g, write).groups[g].Of(write).rate == HeadOf(c, s, g, write).2
            && Look(c, s, g, write).now == s.now
  {
    Positive(s, g, write, {g});
    assert LaneOk(s.groups[g].rd, false) && LaneOk(s.groups[g].wr, true);
    hide R.MayDispatch, Inv;
  }

  /** Letting a head through that may go. */
  lemma OneKept(c: R.Clock, s: State, g: nat, write: bool, k: Watch)
    requires Ready(c, s, g) && s.groups[g].Of(write).list != [] && HeadOf(c, s, g, write).0 && Kept(c, s, k)
    ensures Look(c, s, g, write).groups[g].Of(write).list != []
    ensures Kept(c, DispatchOne(c, Look(c, s, g, write), g, write), k)
  {
    HeadIs(c, s, g, write);
    LookAside(c, s, g, write);
    var s1 := Look(c, s, g, write);
    OneGoes(c, s1, g, write);
    OneRate(c, s1, g, write);
    hide Inv, HeadOf, Look, Kept, DispatchOne, R.MayDispatch, R.TrimSlice, R.Charge;
    var s' := DispatchOne(c, s1, g, write);
    assert forall h: nat, w: bool :: h < |s.groups| && (h != g || w != write) ==> s'.groups[h].Of(w) == s.groups[h].Of(w);
    OutKept(c, s, s', g, s.groups[g].Of(write).list[0], k);
  }

  /** An allowed bio goes out: the slice watched is charged, or another is. */
  lemma OutKept(c: R.Clock, s: State, s': State, g: nat, bio: Bio, k: Watch)
    requires c.Valid() && g < |s.groups| == |s'.groups| && Kept(c, s, k)
    requires s'.now == s.now && s'.out == s.out + [Entry(g, bio)]
    requires var d := s.groups[g].Of(bio.write).rate;
             && d.bps > 0 && d.iops > 0 && R.MayDispatch(c, d, bio.size, s.now).0
             && s'.groups[g].Of(bio.write).rate ==
                R.TrimSlice(c, R.Charge(R.MayDispatch(c, d, bio.size, s.now).2, bio.size), s.now)
    requires forall h: nat, w: bool :: h < |s.groups| && (h != g || w != bio.write) ==>
               s'.groups[h].Of(w).rate == s.groups[h].Of(w).rate
    ensures Kept(c, s', k)
  {
    hide Metered, R.MayDispatch, R.TrimSlice, R.Charge, Gone, Bytes;
    GoneMore(s, s', k, Entry(g, bio));
    if g == k.g && bio.write == k.write {
      LookRates(c, s.groups[g].Of(bio.write).rate, bio.size, s.now);
      ChargedDisp(c, R.MayDispatch(c, s.groups[g].Of(bio.write).rate, bio.size, s.now).2, bio.size, s.now);
      OfferMeter(c, s.groups[g].Of(bio.write).rate, Bytes(Gone(s, k)), |Gone(s, k)|, s.now, bio.size, k.bytes, k.s0);
      BytesMore(Gone(s, k), bio);
    } else {
      assert Gone(s', k) == Gone(s, k);
    }
  }

  lemma OneRate(c: R.Clock, s: State, g: nat, write: bool)
    requires g < |s.groups| && s.groups[g].Of(write).list != [] && c.Valid()
    ensures var lane := s.groups[g].Of(write);
            DispatchOne(c, s, g, write).groups[g].Of(write).rate ==
            R.TrimSlice(c, R.Charge(lane.rate, lane.list[0].size), s.now)
  {
    hide R.TrimSlice, R.Charge;
  }

  lemma {:induction false} ListKept(c: R.Clock, s: State, g: nat, write: bool, max: nat, k: Watch)
    requires Ready(c, s, g) && Kept(c, s, k)
    ensures Kept(c, DispatchList(c, s, g, write, max).0, k)
    decreases max
  {
    hide Inv, Look, HeadOf, DispatchOne, Kept;
    if max > 0 && s.groups[g].Of(write).list != [] {
      LookReady(c, s, g, write);
      LookKept(c, s, g, write, k);
      LookAside(c, s, g, write);
      if HeadOf(c, s, g, write).0 {
        OneKept(c, s, g, write, k);
        var s1 := Look(c, s, g, write);
        DispatchOneKeeps(c, s1, g, write);
        OneGoes(c, s1, g, write);
        ListKept(c, DispatchOne(c, s1, g, write), g, write, max - 1, k);
      }
    }
  }

  lemma TgKept(c: R.Clock, s: State, g: nat, k: Watch)
    requires Ready(c, s, g) && Kept(c, s, k)
    ensures Kept(c, DispatchTg(c, s, g).0, k)
  {
    hide Inv, DispatchList, Kept;
    ListGoes(c, s, g, false, MAX_READS);
    ListKept(c, s, g, false, MAX_READS, k);
    ListKept(c, DispatchList(c, s, g, false, MAX_READS).0, g, true, MAX_WRITES, k);
  }

  lemma LookIfKept(c: R.Clock, s: State, g: nat, write: bool, k: Watch)
    requires Ready(c, s, g) && Kept(c, s, k)
    ensures Kept(c, LookIf(c, s, g, write), k)
  {
    hide Inv, Look, Kept;
    if s.groups[g].Of(write).list != [] { LookKept(c, s, g, write, k); }
  }

  lemma LookBothKept(c: R.Clock, s: State, g: nat, k: Watch)
    requires Ready(c, s, g) && Kept(c, s, k)
    ensures Kept(c, LookBoth(c, s, g), k)
  {
    hide Inv, LookIf, Kept;
    LookIfGoes(c, s, g, false);
    LookIfKept(c, s, g, false, k);
    LookIfKept(c, LookIf(c, s, g, false), g, true, k);
  }

  lemma UpdateKept(c: R.Clock, s: State, g: nat, k: Watch)
    requires Ready(c, s, g) && s.groups[g].Busy() && Kept(c, s, k)
    ensures Kept(c, UpdateDisptime(c, s, g), k)
  {
    hide Inv, LookBoth, Relink, MinWait, Kept;
    LookBothGoes(c, s, g);
    LookBothKept(c, s, g, k);
    RelinkKept(c, LookBoth(c, s, g), g, s.now + MinWait(c, s, g), k);
  }

  lemma RelinkKept(c: R.Clock, s: State, g: nat, t: nat, k: Watch)
    requires Ready(c, s, g) && s.groups[g].Busy() && Kept(c, s, k)
    ensures Kept(c, Relink(s, g, t), k)
  {
    RelinkGoes(s, g, t);
    hide Inv, Metered, Relink;
    Untouched(c, s, Relink(s, g, t), k);
  }

  lemma RoundKept(c: R.Clock, s: State, g: nat, k: Watch)
    requires c.Valid() && g < |s.groups| && Inv(s, {}) && Kept(c, s, k)
    ensures Kept(c, Round(c, s, g).0, k)
  {
    Looser(s, g);
    DequeueKeeps(s, g);
    DequeueAside(s, g);
    hide Inv, Dequeue, DispatchTg, UpdateDisptime, Metered;
    var s0 := Dequeue(s, g);
    Untouched(c, s, s0, k);
    hide Kept;
    TgGoes(c, s0, g);
    TgKept(c, s0, g, k);
    var s1 := DispatchTg(c, s0, g).0;
    if s1.groups[g].Busy() { UpdateKept(c, s1, g, k); }
  }

  lemma PeekedKept(c: R.Clock, s: State, k: Watch)
    requires c.Valid() && Kept(c, s, k)
    ensures Kept(c, Peeked(s), k)
  {
    hide Metered;
    Untouched(c, s, Peeked(s), k);
  }

  lemma {:induction false} SelectKept(c: R.Clock, s: State, n: nat, k: Watch)
    requires c.Valid() && Inv(s, {}) && Kept(c, s, k)
    ensures Kept(c, Select(c, s, n).0, k)
    decreases if n < QUANTUM then QUANTUM - n else 0, Due(s.groups, s.now)
  {
    hide Inv, Round, Due, Peeked, FirstDue, Kept;
    PeekedOk(s);
    PeekedAside(s);
    PeekedKept(c, s, k);
    var s1 := Peeked(s);
    if n < QUANTUM && FirstDue(s1) {
      DueFirst(s1);
      RoundGoes(c, s1, s1.tree[0]);
      RoundKept(c, s1, s1.tree[0], k);
      var (s2, m) := Round(c, s1, s1.tree[0]);
      SelectKept(c, s2, n + m, k);
    }
  }

  lemma PassKept(c: R.Clock, s: State, g: nat, bio: Bio, k: Watch)
    requires c.Valid() && g < |s.groups| && Inv(s, {}) && Offered(c, s, g, bio).0 && Kept(c, s, k)
    ensures Kept(c, Pass(s, g, bio, R.TrimSlice(c, R.Charge(Offered(c, s, g, bio).2, bio.size), s.now)), k)
  {
    Positive(s, g, bio.write, {});
    hide Inv, Metered, R.MayDispatch, R.TrimSlice, R.Charge;
    var d := s.groups[g].Of(bio.write).rate;
    assert Offered(c, s, g, bio) == R.MayDispatch(c, d, bio.size, s.now);
    var s' := Pass(s, g, bio, R.TrimSlice(c, R.Charge(Offered(c, s, g, bio).2, bio.size), s.now));
    hide Offered, Kept;
    OutKept(c, s, s', g, bio, k);
  }

  lemma RefuseKept(c: R.Clock, s: State, g: nat, bio: Bio, k: Watch)
    requires c.Valid() && g < |s.groups| && Inv(s, {}) && Kept(c, s, k)
    ensures Kept(c, SetRateOf(c, s, g, bio), k)
  {
    Positive(s, g, bio.write, {});
    hide Inv, Metered, R.MayDispatch;
    var d := s.groups[g].Of(bio.write).rate;
    assert Offered(c, s, g, bio) == R.MayDispatch(c, d, bio.size, s.now);
    if g == k.g && bio.write == k.write {
      LookMeter(c, d, Bytes(Gone(s, k)), |Gone(s, k)|, s.now, bio.size, k.bytes, k.s0);
      LookRates(c, d, bio.size, s.now);
    } else {
      Untouched(c, s, SetRateOf(c, s, g, bio), k);
    }
  }

  lemma EnlistKept(c: R.Clock, s: State, g: nat, bio: Bio, k: Watch)
    requires c.Valid() && g < |s.groups| && Kept(c, s, k)
    ensures Kept(c, Enqueue(AddBio(s, g, bio), g), k)
  {
    hide Metered, Place;
    Untouched(c, s, Enqueue(AddBio(s, g, bio), g), k);
  }

  lemma SubmitKept(c: R.Clock, s: State, g: nat, bio: Bio, k: Watch)
    requires c.Valid() && g < |s.groups| && Inv(s, {}) && Kept(c, s, k)
    ensures Kept(c, Submit(c, s, g, bio).0, k)
  {
    hide Inv, Kept, Offered, Enqueue, Pass, UpdateDisptime;
    if s.groups[g].Of(bio.write).list != [] {
      EnlistKept(c, s, g, bio, k);
    } else if Offered(c, s, g, bio).0 {
      PassKept(c, s, g, bio, k);
    } else {
      RefuseKept(c, s, g, bio, k);
      var s0 := SetRateOf(c, s, g, bio);
      EnlistKept(c, s0, g, bio, k);
      EnlistGoes(s0, g, bio);
      var s1 := Enqueue(AddBio(s0, g, bio), g);
      Looser(s1, g);
      UpdateKept(c, s1, g, k);
    }
  }

  // ---------------------------------------------------------------- every run

  datatype Action = Tick(jiffies: nat) | SubmitBio(g: nat, bio: Bio) | Dispatch

  ghost function Next(c: R.Clock, s: State, a: Action): (s': State)
    requires c.Valid() && Inv(s, {})
    ensures Inv(s', {}) && |s'.groups| == |s.groups| && s.out <= s'.out && s.now <= s'.now
  {
    match a
    case Tick(n) => TickOk(s, n); s.(now := s.now + n)
    case SubmitBio(g, bio) => if g < |s.groups| then SubmitGoes(c, s, g, bio); Submit(c, s, g, bio).0 else s
    case Dispatch => SelectGoes(c, s, 0); Select(c, s, 0).0
  }

  lemma TickOk(s: State, n: nat)
    requires Inv(s, {})
    ensures Inv(s.(now := s.now + n), {})
  {
    hide LanesOk, TreeOk, Fifo, Queued, OnIffBusy;
  }

  ghost function After(c: R.Clock, s: State, run: seq<Action>): (s': State)
    requires c.Valid() && Inv(s, {})
    ensures Inv(s', {}) && |s'.groups| == |s.groups| && s.out <= s'.out && s.now <= s'.now
    decreases |run|
  {
    if run == [] then s else After(c, Next(c, s, run[0]), run[1..])
  }

  lemma NextKept(c: R.Clock, s: State, a: Action, k: Watch)
    requires c.Valid() && Inv(s, {}) && Kept(c, s, k)
    ensures Kept(c, Next(c, s, a), k)
  {
    match a
    case Tick(n) =>
      hide Inv, Metered;
      MeteredLater(c, s.groups[k.g].Of(k.write).rate, Bytes(Gone(s, k)), |Gone(s, k)|, s.now, s.now + n, k.bytes, k.s0);
    case SubmitBio(g, bio) =>
      hide Inv, Kept, Submit;
      if g < |s.groups| { SubmitKept(c, s, g, bio, k); }
    case Dispatch =>
      hide Inv, Kept, Select;
      SelectKept(c, s, 0, k);
  }

  lemma {:induction false} RunKept(c: R.Clock, s: State, run: seq<Action>, k: Watch)
    requires c.Valid() && Inv(s, {}) && Kept(c, s, k)
    ensures Kept(c, After(c, s, run), k)
    decreases |run|
  {
    hide Inv, Kept, Next;
    if run != [] {
      NextKept(c, s, run[0], k);
      RunKept(c, Next(c, s, run[0]), run[1..], k);
    }
  }

  /** A slice just started at s0: nothing on its books. */
  ghost predicate Fresh(c: R.Clock, d: R.Dir, s0: nat)
    requires c.Valid()
  {
    d == R.StartNewSlice(c, d, s0) && d.bps > 0 && d.iops > 0 && !R.Unlimited(d)
  }

  lemma FreshMetered(c: R.Clock, d: R.Dir, s0: nat, now: nat, bytes: bool)
    requires c.Valid() && Fresh(c, d, s0) && s0 <= now
    ensures Metered(c, d, 0, 0, now, bytes, s0)
  {
    assert R.Times(0, c.hz) == 0;
    hide R.Times;
    assert R.Inv(c, R.Meter(d, 0, 0, now, s0), bytes, s0);
  }

  lemma WatchStarts(c: R.Clock, s: State, g: nat, write: bool, s0: nat, bytes: bool)
    requires c.Valid() && g < |s.groups| && s0 <= s.now && Fresh(c, s.groups[g].Of(write).rate, s0)
    ensures var d := s.groups[g].Of(write).rate;
            Kept(c, s, Watch(g, write, |s.out|, s0, bytes, d.bps, d.iops))
  {
    assert s.out[|s.out|..] == [];
    FreshMetered(c, s.groups[g].Of(write).rate, s0, s.now, bytes);
    hide Metered;
  }

  lemma PaidBy(c: R.Clock, s: State, k: Watch, d: R.Dir)
    requires c.Valid() && Kept(c, s, k) && k.s0 <= s.now && d.bps == k.bps && d.iops == k.iops
    requires Horizon(c, d, s.now, k.s0, k.bytes)
    ensures R.Times(if k.bytes then Bytes(Gone(s, k)) else |Gone(s, k)|, c.hz) <=
            R.Times(if k.bytes then k.bps else k.iops, s.now - k.s0 + c.Slice())
  {
    var e := s.groups[k.g].Of(k.write).rate;
    assert Horizon(c, e, s.now, k.s0, k.bytes);
    var last: nat :| R.Inv(c, R.Meter(e, Bytes(Gone(s, k)), |Gone(s, k)|, s.now, last), k.bytes, k.s0);
    R.MulMono(if k.bytes then e.bps else e.iops, last + c.Slice() - k.s0, s.now - k.s0 + c.Slice());
    hide R.Times, Gone, Bytes;
  }

  lemma RunPaid(c: R.Clock, s: State, run: seq<Action>, k: Watch)
    requires c.Valid() && Inv(s, {}) && k.g < |s.groups| && k.s0 <= s.now && k.p == |s.out|
    requires Fresh(c, s.groups[k.g].Of(k.write).rate, k.s0)
    requires s.groups[k.g].Of(k.write).rate.bps == k.bps && s.groups[k.g].Of(k.write).rate.iops == k.iops
    requires Horizon(c, s.groups[k.g].Of(k.write).rate, After(c, s, run).now, k.s0, k.bytes)
    ensures var s' := After(c, s, run);
            R.Times(if k.bytes then Bytes(Gone(s', k)) else |Gone(s', k)|, c.hz) <=
            R.Times(if k.bytes then k.bps else k.iops, s'.now - k.s0 + c.Slice())
  {
    hide Inv, Kept, After, R.Times, Horizon, Gone, Bytes;
    WatchStarts(c, s, k.g, k.write, k.s0, k.bytes);
    RunKept(c, s, run, k);
    PaidBy(c, After(c, s, run), k, s.groups[k.g].Of(k.write).rate);
  }

  /**
    From any slice start s0, over any run of submissions, dispatch calls and time: the bytes of one group
    and direction that went out, times HZ, are at most bps * (t - s0 + throtl_slice).
  */
  lemma OutBytesBounded(c: R.Clock, s: State, run: seq<Action>, g: nat, write: bool, s0: nat)
    requires c.Valid() && Inv(s, {}) && g < |s.groups| && s0 <= s.now && Fresh(c, s.groups[g].Of(write).rate, s0)
    requires Horizon(c, s.groups[g].Of(write).rate, After(c, s, run).now, s0, true)
    ensures var s' := After(c, s, run);
            Bytes(Only(s'.out[|s.out|..], g, write)) * c.hz <= s.groups[g].Of(write).rate.bps * (s'.now - s0 + c.Slice())
  {
    hide Inv, After, Bytes, Only, Horizon, Fresh;
    var d := s.groups[g].Of(write).rate;
    RunPaid(c, s, run, Watch(g, write, |s.out|, s0, true, d.bps, d.iops));
  }

  /** The same for the number of bios. */
  lemma OutIosBounded(c: R.Clock, s: State, run: seq<Action>, g: nat, write: bool, s0: nat)
    requires c.Valid() && Inv(s, {}) && g < |s.groups| && s0 <= s.now && Fresh(c, s.groups[g].Of(write).rate, s0)
    requires Horizon(c, s.groups[g].Of(write).rate, After(c, s, run).now, s0, false)
    ensures var s' := After(c, s, run);
            |Only(s'.out[|s.out|..], g, write)| * c.hz <= s.groups[g].Of(write).rate.iops * (s'.now - s0 + c.Slice())
  {
    hide Inv, After, Bytes, Only, Horizon, Fresh;
    var d := s.groups[g].Of(write).rate;
    RunPaid(c, s, run, Watch(g, write, |s.out|, s0, false, d.bps, d.iops));
  }

  /**
    An idle direction whose slice has run out takes a bio exactly as one whose slice starts now, so the
    bound counts from its first bio.
  */
  lemma FirstBioStartsSlice(c: R.Clock, s: State, g: nat, bio: Bio)
    requires c.Valid() && Inv(s, {}) && g < |s.groups| && s.groups[g].Of(bio.write).list == []
    requires R.SliceUsed(s.groups[g].Of(bio.write).rate, s.now) && !R.Unlimited(s.groups[g].Of(bio.write).rate)
    ensures var d := R.StartNewSlice(c, s.groups[g].Of(bio.write).rate, s.now);
            var s0 := SetRate(s, g, bio.write, d);
            Inv(s0, {}) && Fresh(c, d, s.now) && Submit(c, s, g, bio) == Submit(c, s0, g, bio)
  {
    Positive(s, g, bio.write, {});
    var d := R.StartNewSlice(c, s.groups[g].Of(bio.write).rate, s.now);
    RateKeeps(s, g, bio.write, d, {});
    var s0 := SetRate(s, g, bio.write, d);
    hide Inv, Head, R.TrimSlice, R.Charge;
    RestartSame(c, s.groups[g].Of(bio.write).(list := [bio]), s.now);
    assert Offered(c, s, g, bio) == Offered(c, s0, g, bio);
    hide Offered, UpdateDisptime, Enqueue;
    var (_, _, rate) := Offered(c, s, g, bio);
    assert SetRate(s0, g, bio.write, rate) == SetRate(s, g, bio.write, rate);
    var t := R.TrimSlice(c, R.Charge(rate, bio.size), s.now);
    assert Pass(s0, g, bio, t) == Pass(s, g, bio, t);
  }

  lemma RestartSame(c: R.Clock, lane: Lane, now: nat)
    requires c.Valid() && lane.list != [] && lane.rate.bps > 0 && lane.rate.iops > 0
    requires R.SliceUsed(lane.rate, now) && !R.Unlimited(lane.rate)
    ensures Head(c, lane, now) == Head(c, lane.(rate := R.StartNewSlice(c, lane.rate, now)), now)
  {
    hide R.BpsWait, R.IopsWait, R.RoundUp;
  }

  /**
    A bio to a group with none waiting, whose slice is used up or just started, goes out at once if and only if one
    slice of both limits pays for it.
  */
  lemma FreshGoesOut(c: R.Clock, s: State, g: nat, bio: Bio)
    requires c.Valid() && Inv(s, {}) && g < |s.groups| && s.groups[g].Of(bio.write).list == []
    requires var d := s.groups[g].Of(bio.write).rate;
             && (!(d.start <= s.now <= d.end) || (d.bytesDisp == d.ioDisp == 0 && d.start == s.now && d.end == s.now + c.Slice()))
             && !R.Unlimited(d)
             && d.bps * c.Slice() < WORD && d.iops * c.Slice() < WORD
    ensures var d := s.groups[g].Of(bio.write).rate;
            var (s', throttled) := Submit(c, s, g, bio);
            && (!throttled <==> bio.size * c.hz <= d.bps * c.Slice() && c.hz <= d.iops * c.Slice())
            && (!throttled ==> s'.out == s.out + [Entry(g, bio)])
  {
    Positive(s, g, bio.write, {});
    SubmitGoes(c, s, g, bio);
    hide Inv, Submit, R.MayDispatch;
    X.FreshGoes(c, s.groups[g].Of(bio.write).rate, bio.size, s.now);
  }

  lemma KeptFits(c: R.Clock, s: State, k: Watch, size: Size)
    requires c.Valid() && Kept(c, s, k) && k.s0 <= s.now && Horizon(c, s.groups[k.g].Of(k.write).rate, s.now, k.s0, k.bytes)
    ensures var d := s.groups[k.g].Of(k.write).rate;
            var m := R.Meter(d, 0, 0, s.now, 0);
            && d.bytesDisp <= Bytes(Gone(s, k)) && d.ioDisp <= |Gone(s, k)|
            && if k.bytes then R.BytesFit(c, m, R.Offer(size, s.now)) else R.IosFit(c, m, R.Offer(size, s.now))
  {
    var d, b, i := s.groups[k.g].Of(k.write).rate, Bytes(Gone(s, k)), |Gone(s, k)|;
    var last: nat :| R.Inv(c, R.Meter(d, b, i, s.now, last), k.bytes, k.s0);
    hide Horizon, Gone, Bytes, R.Inv, R.Renew, R.Elapsed, R.Times;
    Fits(c, R.Meter(d, b, i, s.now, last), size, k.bytes, k.s0);
  }

  /**
    From any slice start, over any run: a bio to a group with none waiting is throttled only if it and what went out
    since are together more than one slice of the limits allows.
  */
  lemma ThrottledWhenUsed(c: R.Clock, s: State, run: seq<Action>, g: nat, bio: Bio, s0: nat)
    requires c.Valid() && Inv(s, {}) && g < |s.groups| && s0 <= s.now && Fresh(c, s.groups[g].Of(bio.write).rate, s0)
    requires var d := s.groups[g].Of(bio.write).rate;
             Horizon(c, d, After(c, s, run).now, s0, true) && Horizon(c, d, After(c, s, run).now, s0, false)
    requires After(c, s, run).groups[g].Of(bio.write).list == [] && Submit(c, After(c, s, run), g, bio).1
    ensures var (d, out) := (s.groups[g].Of(bio.write).rate, Only(After(c, s, run).out[|s.out|..], g, bio.write));
            (Bytes(out) + bio.size) * c.hz > d.bps * c.Slice() || (|out| + 1) * c.hz > d.iops * c.Slice()
  {
    hide Inv, Kept, After, Horizon, Bytes, Only, Submit, R.MayDispatch;
    var d0 := s.groups[g].Of(bio.write).rate;
    var kb, ki := Watch(g, bio.write, |s.out|, s0, true, d0.bps, d0.iops), Watch(g, bio.write, |s.out|, s0, false, d0.bps, d0.iops);
    WatchStarts(c, s, g, bio.write, s0, true);
    WatchStarts(c, s, g, bio.write, s0, false);
    RunKept(c, s, run, kb);
    RunKept(c, s, run, ki);
    var s' := After(c, s, run);
    RatesKept(c, s', kb);
    var d := s'.groups[g].Of(bio.write).rate;
    HorizonSame(c, d0, d, s'.now, s0);
    KeptFits(c, s', kb, bio.size);
    KeptFits(c, s', ki, bio.size);
    SubmitGoes(c, s', g, bio);
    X.RefusedWhenUsed(c, d, bio.size, s'.now, Bytes(Gone(s', kb)), |Gone(s', kb)|, R.Meter(d, 0, 0, s'.now, 0));
  }

  lemma RatesKept(c: R.Clock, s: State, k: Watch)
    requires c.Valid() && Kept(c, s, k)
    ensures k.g < |s.groups| && k.p <= |s.out|
    ensures var d := s.groups[k.g].Of(k.write).rate; d.bps == k.bps > 0 && d.iops == k.iops > 0 && !R.Unlimited(d)
  {}

  lemma HorizonSame(c: R.Clock, d: R.Dir, d': R.Dir, now: nat, s0: nat)
    requires c.Valid() && s0 <= now && d'.bps == d.bps && d'.iops == d.iops
    ensures forall bytes :: Horizon(c, d, now, s0, bytes) == Horizon(c, d', now, s0, bytes)
  {}
}
