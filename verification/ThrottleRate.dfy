/**
  The rate limiter of one throttled group in one direction
  (block/blk-throttle.c): slices, trimming and the two per-slice limits.
  Jiffies are a non-decreasing integer that each critical section reads once;
  the widths of the source's counters are written out with U64 and U32.
*/
module ThrottleRate {

  const UINT_MAX: nat := 0xffff_ffff

  function U64(x: nat): nat { x % 0x1_0000_0000_0000_0000 }
  function U32(x: nat): nat { x % 0x1_0000_0000 }

  /** HZ and throtl_slice = HZ / 10. */
  datatype Clock = Clock(hz: nat) {
    predicate Valid() { hz >= 10 }
    function Slice(): (s: nat)
      requires Valid()
      ensures s > 0
    {
      hz / 10
    }
  }

  /** bps, iops, bytes_disp, io_disp, slice_start and slice_end of one direction. */
  datatype Dir = Dir(bps: nat, iops: nat, bytesDisp: nat, ioDisp: nat, start: nat, end: nat)

  function Times(a: nat, b: nat): nat { a * b }

  function Over(a: nat, b: nat): nat
    requires b > 0
  {
    a / b
  }

  /** The roundup macro. */
  function RoundUp(x: nat, y: nat): nat
    requires y > 0
  {
    Times(Over(x + (y - 1), y), y)
  }

  function Max(a: nat, b: nat): nat { if a < b then b else a }

  function StartNewSlice(c: Clock, d: Dir, now: nat): Dir
    requires c.Valid()
  {
    d.(bytesDisp := 0, ioDisp := 0, start := now, end := now + c.Slice())
  }

  predicate SliceUsed(d: Dir, now: nat) { !(d.start <= now <= d.end) }

  function ExtendSlice(c: Clock, d: Dir, until: nat): Dir
    requires c.Valid()
  {
    d.(end := RoundUp(until, c.Slice()))
  }

  function Minus(used: nat, trim: nat): nat { if used >= trim then used - trim else 0 }

  /** throtl_trim_slice: forget whole elapsed slices together with their allowance. */
  function TrimSlice(c: Clock, d: Dir, now: nat): Dir
    requires c.Valid()
  {
    if SliceUsed(d, now) then d
    else
      var d1 := ExtendSlice(c, d, now + c.Slice());
      var slices := Over(now - d.start, c.Slice());
      if slices == 0 then d1
      else
        var time := Times(slices, c.Slice());
        var bytesTrim := Over(U64(Times(d.bps, time)), c.hz);
        var ioTrim := Over(U64(Times(d.iops, time)), c.hz);
        if bytesTrim == 0 && ioTrim == 0 then d1
        else d1.(bytesDisp := Minus(d.bytesDisp, bytesTrim), ioDisp := Minus(d.ioDisp, ioTrim),
                 start := d.start + time)
  }

  /** The rounded time both limits are computed for. */
  function Elapsed(c: Clock, d: Dir, now: nat): nat
    requires c.Valid() && d.start <= now
  {
    RoundUp(if now == d.start then c.Slice() else now - d.start, c.Slice())
  }

  /** tg_with_in_bps_limit: None if the bio may go, else the time to wait. */
  function BpsWait(c: Clock, d: Dir, size: nat, now: nat): (w: (bool, nat))
    requires c.Valid() && d.start <= now && d.bps > 0
  {
    var allowed := Over(U64(Times(d.bps, Elapsed(c, d, now))), c.hz);
    if U64(d.bytesDisp + size) <= allowed then (true, 0)
    else
      var extra := U64(d.bytesDisp + size) - allowed;
      (false, Max(Over(U64(Times(extra, c.hz)), d.bps), 1) + Minus(Elapsed(c, d, now), now - d.start))
  }

  /** tg_with_in_iops_limit. */
  function IopsWait(c: Clock, d: Dir, now: nat): (w: (bool, nat))
    requires c.Valid() && d.start <= now && d.iops > 0
  {
    var tmp := Over(U64(Times(d.iops, Elapsed(c, d, now))), c.hz);
    var allowed := if tmp > UINT_MAX then UINT_MAX else tmp;
    if U32(d.ioDisp + 1) <= allowed then (true, 0)
    else
      var wait := Over(U32(Times(U32(d.ioDisp + 1), c.hz)), d.iops) + 1;
      (false, if wait > now - d.start then wait - (now - d.start) else 1)
  }

  /** tg_may_dispatch up to its verdict: a used slice is replaced, a short one extended. */
  function Renew(c: Clock, d: Dir, now: nat): (r: Dir)
    requires c.Valid()
  {
    if SliceUsed(d, now) then StartNewSlice(c, d, now)
    else if d.end < now + c.Slice() then ExtendSlice(c, d, now + c.Slice())
    else d
  }

  predicate Unlimited(d: Dir) { d.bps == 0xffff_ffff_ffff_ffff && d.iops == UINT_MAX }

  /** tg_may_dispatch: the verdict, the time to wait and the slice as it leaves it. */
  function MayDispatch(c: Clock, d: Dir, size: nat, now: nat): (bool, nat, Dir)
    requires c.Valid() && d.bps > 0 && d.iops > 0
  {
    if Unlimited(d) then (true, 0, d)
    else
      var d1 := Renew(c, d, now);
      var (bpsOk, bpsWait) := BpsWait(c, d1, size, now);
      var (iopsOk, iopsWait) := if bpsOk then IopsWait(c, d1, now) else (false, 0);
      if bpsOk && iopsOk then (true, 0, d1)
      else
        var wait := Max(bpsWait, iopsWait);
        (false, wait, if d1.end < now + wait then ExtendSlice(c, d1, now + wait) else d1)
  }

  /** throtl_charge_bio. */
  function Charge(d: Dir, size: nat): Dir {
    d.(bytesDisp := U64(d.bytesDisp + size), ioDisp := U32(d.ioDisp + 1))
  }

  // -------------------------------------------------------------------- runs

  /** One bio offered at time `now`, or a mere look at the head bio (tg_update_disptime). */
  datatype Action = Offer(size: nat, now: nat) | Look(size: nat, now: nat)

  /** A direction with what it has let through so far: bytes, bios, and when last. */
  datatype Meter = Meter(d: Dir, bytes: nat, ios: nat, now: nat, last: nat)

  function Next(c: Clock, m: Meter, a: Action): Meter
    requires c.Valid() && m.d.bps > 0 && m.d.iops > 0 && !Unlimited(m.d) && m.now <= a.now
  {
    var (ok, _, d1) := MayDispatch(c, m.d, a.size, a.now);
    if a.Offer? && ok then
      Meter(TrimSlice(c, Charge(d1, a.size), a.now), m.bytes + a.size, m.ios + 1, a.now, a.now)
    else Meter(d1, m.bytes, m.ios, a.now, m.last)
  }

  /** No product or sum in the byte arithmetic of a step leaves 64 bits. */
  predicate BytesFit(c: Clock, m: Meter, a: Action)
    requires c.Valid() && m.now <= a.now
  {
    var d := Renew(c, m.d, a.now);
    && d.start <= a.now
    && Times(d.bps, Elapsed(c, d, a.now)) < 0x1_0000_0000_0000_0000
    && d.bytesDisp + a.size < 0x1_0000_0000_0000_0000
  }

  /** The request arithmetic of a step stays within 64 bits and the counter within 32. */
  predicate IosFit(c: Clock, m: Meter, a: Action)
    requires c.Valid() && m.now <= a.now
  {
    var d := Renew(c, m.d, a.now);
    && d.start <= a.now
    && Times(d.iops, Elapsed(c, d, a.now)) < 0x1_0000_0000_0000_0000
    && d.ioDisp < UINT_MAX
  }

  predicate Legal(c: Clock, m: Meter, run: seq<Action>, bytes: bool)
    requires c.Valid() && m.d.bps > 0 && m.d.iops > 0 && !Unlimited(m.d)
    decreases |run|
  {
    run != [] ==>
      && m.now <= run[0].now
      && (if bytes then BytesFit(c, m, run[0]) else IosFit(c, m, run[0]))
      && Legal(c, Next(c, m, run[0]), run[1..], bytes)
  }

  function After(c: Clock, m: Meter, run: seq<Action>, bytes: bool): Meter
    requires c.Valid() && m.d.bps > 0 && m.d.iops > 0 && !Unlimited(m.d) && Legal(c, m, run, bytes)
    decreases |run|
  {
    if run == [] then m else After(c, Next(c, m, run[0]), run[1..], bytes)
  }

  // ------------------------------------------------------------- the invariant

  lemma MulMono(a: nat, b: nat, c: nat)
    requires b <= c
    ensures Times(a, b) <= Times(a, c) && Times(b, a) <= Times(c, a)
  {}

  lemma MulAdd(a: nat, b: nat, c: nat)
    ensures Times(a, b + c) == Times(a, b) + Times(a, c)
    ensures Times(b + c, a) == Times(b, a) + Times(c, a)
  {}

  lemma OverBounds(a: nat, b: nat)
    requires b > 0
    ensures Times(Over(a, b), b) <= a < Times(Over(a, b), b) + b
  {
    assert a == (a / b) * b + a % b;
  }

  lemma RoundUpBounds(x: nat, y: nat)
    requires y > 0
    ensures x <= RoundUp(x, y) < x + y
  {
    OverBounds(x + (y - 1), y);
  }

  lemma ElapsedBounds(c: Clock, d: Dir, now: nat)
    requires c.Valid() && d.start <= now
    ensures now - d.start <= Elapsed(c, d, now) <= now - d.start + c.Slice()
  {
    RoundUpBounds(if now == d.start then c.Slice() else now - d.start, c.Slice());
    if now == d.start {
      assert RoundUp(c.Slice(), c.Slice()) == c.Slice() by { RoundUpSelf(c.Slice()); }
    }
  }

  lemma RoundUpSelf(y: nat)
    requires y > 0
    ensures RoundUp(y, y) == y
  {
    OverBounds(y + (y - 1), y);
    var q := Over(y + (y - 1), y);
    assert Times(0, y) == 0 && Times(1, y) == y && Times(2, y) == 2 * y;
    if q >= 2 { MulMono(y, 2, q); }
  }

  /**
    `total` units at `rate` per second were let through since s0, the last at
    `last`: they are paid for by the time before the slice plus what the slice
    has on its books, and by the time up to one slice after the last one.
  */
  ghost predicate Paid(c: Clock, rate: nat, total: nat, disp: nat, start: nat, end: nat, last: nat, s0: nat)
    requires c.Valid()
  {
    && s0 <= start && s0 <= last && last + c.Slice() <= end
    && Times(total, c.hz) <= Times(rate, start - s0) + Times(disp, c.hz)
    && Times(total, c.hz) <= Times(rate, last + c.Slice() - s0)
  }

  /** A new slice writes the books off, which the idle time since the last dispatch pays for. */
  lemma PaidRestart(c: Clock, rate: nat, total: nat, disp: nat, start: nat, end: nat, last: nat, s0: nat, now: nat)
    requires c.Valid() && Paid(c, rate, total, disp, start, end, last, s0) && end < now
    ensures Paid(c, rate, total, 0, now, now + c.Slice(), last, s0)
  {
    MulMono(rate, last + c.Slice() - s0, now - s0);
  }

  lemma PaidDispatch(c: Clock, rate: nat, total: nat, disp: nat, d: Dir, last: nat, s0: nat, size: nat, now: nat)
    requires c.Valid() && Paid(c, rate, total, disp, d.start, d.end, last, s0)
    requires d.start <= now && now + c.Slice() <= d.end
    requires disp + size <= Over(Times(rate, Elapsed(c, d, now)), c.hz)
    ensures Paid(c, rate, total + size, disp + size, d.start, d.end, now, s0)
  {
    var e := Elapsed(c, d, now);
    ElapsedBounds(c, d, now);
    MulAdd(c.hz, total, size);
    MulAdd(c.hz, disp, size);
    OverBounds(Times(rate, e), c.hz);
    MulMono(c.hz, disp + size, Over(Times(rate, e), c.hz));
    MulAdd(rate, d.start - s0, e);
    MulMono(rate, d.start - s0 + e, now + c.Slice() - s0);
  }

  /** Trimming moves an allowance from the books to the past, rounding in the group's disfavour. */
  lemma PaidTrim(c: Clock, rate: nat, total: nat, disp: nat, start: nat, end: nat, last: nat, s0: nat,
                 time: nat, trim: nat, end': nat)
    requires c.Valid() && Paid(c, rate, total, disp, start, end, last, s0)
    requires Times(trim, c.hz) <= Times(rate, time) && last + c.Slice() <= end'
    ensures Paid(c, rate, total, Minus(disp, trim), start + time, end', last, s0)
  {
    MulAdd(rate, start - s0, time);
    if disp >= trim {
      MulAdd(c.hz, disp - trim, trim);
    } else {
      MulMono(c.hz, disp, trim);
    }
  }

  ghost predicate Inv(c: Clock, m: Meter, bytes: bool, s0: nat)
    requires c.Valid()
  {
    && m.d.bps > 0 && m.d.iops > 0 && !Unlimited(m.d)
    && m.d.start <= m.now && m.last <= m.now
    && Paid(c, if bytes then m.d.bps else m.d.iops, if bytes then m.bytes else m.ios,
            if bytes then m.d.bytesDisp else m.d.ioDisp, m.d.start, m.d.end, m.last, s0)
  }

  lemma RenewKeeps(c: Clock, m: Meter, now: nat, bytes: bool, s0: nat)
    requires c.Valid() && Inv(c, m, bytes, s0) && m.now <= now
    ensures var d := Renew(c, m.d, now);
            Inv(c, m.(d := d, now := now), bytes, s0) && d.bps == m.d.bps && d.iops == m.d.iops && now + c.Slice() <= d.end
  {
    if SliceUsed(m.d, now) {
      PaidRestart(c, if bytes then m.d.bps else m.d.iops, if bytes then m.bytes else m.ios,
                  if bytes then m.d.bytesDisp else m.d.ioDisp, m.d.start, m.d.end, m.last, s0, now);
    } else {
      RoundUpBounds(now + c.Slice(), c.Slice());
    }
  }

  lemma TrimKeeps(c: Clock, m: Meter, bytes: bool, s0: nat)
    requires c.Valid() && Inv(c, m, bytes, s0) && m.last == m.now && m.now + c.Slice() <= m.d.end
    requires Times(if bytes then m.d.bps else m.d.iops, m.now - m.d.start) < 0x1_0000_0000_0000_0000
    ensures Inv(c, m.(d := TrimSlice(c, m.d, m.now)), bytes, s0)
  {
    hide Paid;
    var d, now := m.d, m.now;
    RoundUpBounds(now + c.Slice(), c.Slice());
    OverBounds(now - d.start, c.Slice());
    var rate := if bytes then d.bps else d.iops;
    var time := Times(Over(now - d.start, c.Slice()), c.Slice());
    MulMono(rate, time, now - d.start);
    assert U64(Times(rate, time)) == Times(rate, time);
    var trim := Over(Times(rate, time), c.hz);
    OverBounds(Times(rate, time), c.hz);
    var end' := RoundUp(now + c.Slice(), c.Slice());
    var total := if bytes then m.bytes else m.ios;
    var disp := if bytes then d.bytesDisp else d.ioDisp;
    PaidTrim(c, rate, total, disp, d.start, d.end, m.last, s0, time, trim, end');
    PaidTrim(c, rate, total, disp, d.start, d.end, m.last, s0, 0, 0, end');
  }

  /** What an accepted bio does to the books, before the trim. */
  lemma ChargeKeeps(c: Clock, m: Meter, d: Dir, size: nat, now: nat, bytes: bool, s0: nat)
    requires c.Valid() && Inv(c, m.(d := d, now := now), bytes, s0) && now + c.Slice() <= d.end
    requires bytes ==> Times(d.bps, Elapsed(c, d, now)) < 0x1_0000_0000_0000_0000 && d.bytesDisp + size < 0x1_0000_0000_0000_0000
    requires !bytes ==> Times(d.iops, Elapsed(c, d, now)) < 0x1_0000_0000_0000_0000 && d.ioDisp < UINT_MAX
    requires BpsWait(c, d, size, now).0 && IopsWait(c, d, now).0
    ensures Inv(c, Meter(Charge(d, size), m.bytes + size, m.ios + 1, now, now), bytes, s0)
  {
    hide Paid, Times, Elapsed, Over;
    if bytes {
      PaidDispatch(c, d.bps, m.bytes, d.bytesDisp, d, m.last, s0, size, now);
    } else {
      PaidDispatch(c, d.iops, m.ios, d.ioDisp, d, m.last, s0, 1, now);
    }
  }

  lemma LookKeeps(c: Clock, m: Meter, a: Action, bytes: bool, s0: nat)
    requires c.Valid() && Inv(c, m, bytes, s0) && m.now <= a.now
    ensures var (ok, _, d1) := MayDispatch(c, m.d, a.size, a.now);
            && Inv(c, m.(d := d1, now := a.now), bytes, s0)
            && (ok ==> d1 == Renew(c, m.d, a.now) && BpsWait(c, d1, a.size, a.now).0 && IopsWait(c, d1, a.now).0)
  {
    RenewKeeps(c, m, a.now, bytes, s0);
    var d := Renew(c, m.d, a.now);
    hide BpsWait, IopsWait, Renew, RoundUp;
    var wait := MayDispatch(c, m.d, a.size, a.now).1;
    RoundUpBounds(a.now + wait, c.Slice());
  }

  lemma NextKeeps(c: Clock, m: Meter, a: Action, bytes: bool, s0: nat)
    requires c.Valid() && Inv(c, m, bytes, s0) && m.now <= a.now
    requires if bytes then BytesFit(c, m, a) else IosFit(c, m, a)
    ensures Inv(c, Next(c, m, a), bytes, s0) && Next(c, m, a).now == a.now
    ensures Next(c, m, a).d.bps == m.d.bps && Next(c, m, a).d.iops == m.d.iops
  {
    LookKeeps(c, m, a, bytes, s0);
    var (ok, wait, d1) := MayDispatch(c, m.d, a.size, a.now);
    RenewKeeps(c, m, a.now, bytes, s0);
    hide Paid, BpsWait, IopsWait;
    if a.Offer? && ok {
      ChargeKeeps(c, m, d1, a.size, a.now, bytes, s0);
      var m1 := Meter(Charge(d1, a.size), m.bytes + a.size, m.ios + 1, a.now, a.now);
      ElapsedBounds(c, d1, a.now);
      MulMono(if bytes then d1.bps else d1.iops, a.now - d1.start, Elapsed(c, d1, a.now));
      TrimKeeps(c, m1, bytes, s0);
    }
  }

  lemma {:induction false} RunKeeps(c: Clock, m: Meter, run: seq<Action>, bytes: bool, s0: nat)
    requires c.Valid() && Inv(c, m, bytes, s0) && Legal(c, m, run, bytes)
    ensures var m' := After(c, m, run, bytes);
            Inv(c, m', bytes, s0) && m'.d.bps == m.d.bps && m'.d.iops == m.d.iops
    decreases |run|
  {
    hide Paid, Next, BytesFit, IosFit;
    if run != [] {
      NextKeeps(c, m, run[0], bytes, s0);
      RunKeeps(c, Next(c, m, run[0]), run[1..], bytes, s0);
    }
  }

  /** A direction whose first slice starts at s0. */
  function First(c: Clock, bps: nat, iops: nat, s0: nat): Meter
    requires c.Valid()
  {
    Meter(StartNewSlice(c, Dir(bps, iops, 0, 0, 0, 0), s0), 0, 0, s0, s0)
  }

  lemma FirstOk(c: Clock, bps: nat, iops: nat, s0: nat, bytes: bool)
    requires c.Valid() && bps > 0 && iops > 0 && !Unlimited(First(c, bps, iops, s0).d)
    ensures Inv(c, First(c, bps, iops, s0), bytes, s0)
  {
    assert Times(0, c.hz) == 0;
  }

  /** Over every run, the bytes let through by time t are at most bps per second of t - s0 plus one slice. */
  lemma BytesBounded(c: Clock, bps: nat, iops: nat, s0: nat, run: seq<Action>, t: nat)
    requires c.Valid() && bps > 0 && iops > 0 && !Unlimited(First(c, bps, iops, s0).d)
    requires Legal(c, First(c, bps, iops, s0), run, true)
    requires After(c, First(c, bps, iops, s0), run, true).now <= t
    ensures After(c, First(c, bps, iops, s0), run, true).bytes * c.hz <= bps * (t - s0 + c.Slice())
  {
    FirstOk(c, bps, iops, s0, true);
    RunKeeps(c, First(c, bps, iops, s0), run, true, s0);
    var m := After(c, First(c, bps, iops, s0), run, true);
    MulMono(bps, m.last + c.Slice() - s0, t - s0 + c.Slice());
  }

  /** The same bound for the number of bios. */
  lemma IosBounded(c: Clock, bps: nat, iops: nat, s0: nat, run: seq<Action>, t: nat)
    requires c.Valid() && bps > 0 && iops > 0 && !Unlimited(First(c, bps, iops, s0).d)
    requires Legal(c, First(c, bps, iops, s0), run, false)
    requires After(c, First(c, bps, iops, s0), run, false).now <= t
    ensures After(c, First(c, bps, iops, s0), run, false).ios * c.hz <= iops * (t - s0 + c.Slice())
  {
    FirstOk(c, bps, iops, s0, false);
    RunKeeps(c, First(c, bps, iops, s0), run, false, s0);
    var m := After(c, First(c, bps, iops, s0), run, false);
    MulMono(iops, m.last + c.Slice() - s0, t - s0 + c.Slice());
  }
}
