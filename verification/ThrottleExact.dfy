/**
  The verdict of the rate limiter (block/blk-throttle.c) in plain arithmetic:
  when a bio may go, how long it has to wait if not, and that the wait is enough.
*/
module ThrottleExact {
  import opened ThrottleRate

  const W64: nat := 0x1_0000_0000_0000_0000
  const W32: nat := 0x1_0000_0000

  /** e is the least positive multiple of y that is at least x. */
  ghost predicate Least(e: nat, x: nat, y: nat)
    requires y > 0
  {
    && e > 0 && e % y == 0 && e >= x
    && forall m: nat :: m > 0 && m % y == 0 && m >= x ==> e <= m
  }

  lemma MultipleIs(k: nat, y: nat)
    requires y > 0
    ensures (k * y) % y == 0
  {
    assert k * y == k * y + 0;
    ModOf(k * y, k, 0, y);
  }

  lemma ModOf(x: nat, q: nat, r: nat, y: nat)
    requires 0 <= r < y && x == q * y + r
    ensures x % y == r && x / y == q
  {
    var q', r' := x / y, x % y;
    assert x == q' * y + r';
    if q' < q { MulStep(q', q, y); }
    if q < q' { MulStep(q, q', y); }
  }

  lemma MulStep(a: nat, b: nat, y: nat)
    requires a < b
    ensures a * y + y <= b * y
  {
    MulMono(y, a + 1, b);
    MulAdd(y, a, 1);
  }

  /** Two multiples of y less than y apart are equal. */
  lemma Multiples(a: nat, b: nat, y: nat)
    requires y > 0 && a % y == 0 && b % y == 0 && a < b
    ensures a + y <= b
  {
    assert a == (a / y) * y && b == (b / y) * y;
    if b / y < a / y { MulStep(b / y, a / y, y); }
    MulStep(a / y, b / y, y);
  }

  lemma RoundUpLeast(x: nat, y: nat)
    requires y > 0 && x > 0
    ensures Least(RoundUp(x, y), x, y)
  {
    var e := RoundUp(x, y);
    RoundUpBounds(x, y);
    MultipleIs(Over(x + (y - 1), y), y);
    forall m: nat | m > 0 && m % y == 0 && m >= x ensures e <= m {
      if m < e { Multiples(m, e, y); }
    }
  }

  lemma ElapsedLeast(c: Clock, d: Dir, now: nat)
    requires c.Valid() && d.start <= now
    ensures Least(Elapsed(c, d, now), now - d.start, c.Slice())
  {
    var x := if now == d.start then c.Slice() else now - d.start;
    RoundUpLeast(x, c.Slice());
    if now == d.start {
      forall m: nat | m > 0 && m % c.Slice() == 0 ensures m >= c.Slice() {
        assert 0 % c.Slice() == 0;
        Multiples(0, m, c.Slice());
      }
    }
  }

  lemma LeastOnce(e: nat, e': nat, x: nat, y: nat)
    requires y > 0 && Least(e, x, y) && Least(e', x, y)
    ensures e == e'
  {}

  lemma AtMostOver(n: nat, a: nat, b: nat)
    requires b > 0
    ensures n <= Over(a, b) <==> n * b <= a
  {
    OverBounds(a, b);
    if n <= Over(a, b) { MulMono(b, n, Over(a, b)); } else { MulStep(Over(a, b), n, b); }
  }

  /** The byte test: a bio passes just when what the slice has let through, and the bio, are paid for by its rounded time. */
  lemma BytesExact(c: Clock, d: Dir, size: nat, now: nat, e: nat)
    requires c.Valid() && d.start <= now && d.bps > 0 && Least(e, now - d.start, c.Slice())
    requires d.bps * e < W64 && d.bytesDisp + size < W64
    ensures BpsWait(c, d, size, now).0 <==> (d.bytesDisp + size) * c.hz <= d.bps * e
  {
    ElapsedLeast(c, d, now);
    LeastOnce(e, Elapsed(c, d, now), now - d.start, c.Slice());
    hide Least, Elapsed, Times, Over, U64;
    TimesIs(d.bps, e);
    Fits64(Times(d.bps, e));
    Fits64(d.bytesDisp + size);
    AtMostOver(d.bytesDisp + size, Times(d.bps, e), c.hz);
  }

  lemma TimesIs(a: nat, b: nat)
    ensures Times(a, b) == a * b
  {}

  lemma Fits64(x: nat)
    requires x < W64
    ensures U64(x) == x
  {}

  lemma Fits32(x: nat)
    requires x < W32
    ensures U32(x) == x
  {}

  /** The request test, likewise. */
  lemma IosExact(c: Clock, d: Dir, now: nat, e: nat)
    requires c.Valid() && d.start <= now && d.iops > 0 && Least(e, now - d.start, c.Slice())
    requires d.iops * e < W64 && d.ioDisp + 1 < W32
    ensures IopsWait(c, d, now).0 <==> (d.ioDisp + 1) * c.hz <= d.iops * e
  {
    ElapsedLeast(c, d, now);
    LeastOnce(e, Elapsed(c, d, now), now - d.start, c.Slice());
    hide Least, Elapsed, Times, Over, U64, U32;
    TimesIs(d.iops, e);
    Fits64(Times(d.iops, e));
    Fits32(d.ioDisp + 1);
    AtMostOver(d.ioDisp + 1, Times(d.iops, e), c.hz);
  }

  // ----------------------------------------------------------------- the wait

  /**
    A bio over the byte limit waits for the rest of the rounded time and for as long as bps takes to pay for the
    bytes over the allowance, in whole jiffies and at least one.
  */
  lemma BytesWaitIs(c: Clock, d: Dir, size: nat, now: nat, e: nat, extra: nat)
    requires c.Valid() && d.start <= now && d.bps > 0 && Least(e, now - d.start, c.Slice())
    requires d.bps * e < W64 && d.bytesDisp + size < W64 && !BpsWait(c, d, size, now).0
    requires d.bytesDisp + size == d.bps * e / c.hz + extra && extra * c.hz < W64
    ensures var r := BpsWait(c, d, size, now).1 - (e - (now - d.start));
            extra > 0 && r >= 1 && extra * c.hz < (r + 1) * d.bps && (r * d.bps <= extra * c.hz || r == 1)
  {
    ElapsedLeast(c, d, now);
    LeastOnce(e, Elapsed(c, d, now), now - d.start, c.Slice());
    OverIs(d.bps * e, c.hz);
    hide Least, Elapsed, Times, Over, BpsWait;
    TimesIs(d.bps, e);
    TimesIs(extra, c.hz);
    BytesWaitSum(c, d, size, now, e, extra);
    Bracket(extra * c.hz, d.bps);
    MulMono(d.bps, 1, 2);
    TimesIs(1, d.bps);
    TimesIs(2, d.bps);
  }

  lemma OverIs(a: nat, b: nat)
    requires b > 0
    ensures Over(a, b) == a / b
  {}

  lemma BytesWaitSum(c: Clock, d: Dir, size: nat, now: nat, e: nat, extra: nat)
    requires c.Valid() && d.start <= now && d.bps > 0 && e == Elapsed(c, d, now) && !BpsWait(c, d, size, now).0
    requires Times(d.bps, e) < W64 && d.bytesDisp + size < W64
    requires d.bytesDisp + size == Over(Times(d.bps, e), c.hz) + extra && Times(extra, c.hz) < W64
    ensures extra > 0 && e >= now - d.start
    ensures BpsWait(c, d, size, now).1 == Max(Over(Times(extra, c.hz), d.bps), 1) + (e - (now - d.start))
  {
    hide Elapsed, Over, Times, U64;
    ElapsedBounds(c, d, now);
    Fits64(Times(d.bps, e));
    Fits64(d.bytesDisp + size);
    Fits64(Times(extra, c.hz));
  }

  /** Once that wait is over the bio passes the byte test, if the slice is still the same. */
  lemma BytesWaitEnough(c: Clock, d: Dir, size: nat, now: nat, e: nat, extra: nat, t: nat, e': nat)
    requires c.Valid() && d.start <= now && d.bps > 0 && Least(e, now - d.start, c.Slice())
    requires d.bps * e < W64 && d.bytesDisp + size < W64 && !BpsWait(c, d, size, now).0
    requires d.bytesDisp + size == d.bps * e / c.hz + extra && extra * c.hz < W64
    requires t > now + BpsWait(c, d, size, now).1 && Least(e', t - d.start, c.Slice()) && d.bps * e' < W64
    ensures BpsWait(c, d, size, t).0
  {
    BytesWaitIs(c, d, size, now, e, extra);
    BytesExact(c, d, size, t, e');
    hide BpsWait, Least;
    OverIs(d.bps * e, c.hz);
    TimesIs(d.bps, e);
    Pays(d.bytesDisp + size, d.bps, c.hz, e, e', BpsWait(c, d, size, now).1 - (e - (now - d.start)), extra);
  }

  lemma Pays(n: nat, bps: nat, hz: nat, e: nat, e': nat, r: nat, extra: nat)
    requires hz > 0 && n == Over(Times(bps, e), hz) + extra && extra * hz < (r + 1) * bps && e + r + 1 <= e'
    ensures n * hz <= bps * e'
  {
    OverBounds(Times(bps, e), hz);
    MulAdd(hz, Over(Times(bps, e), hz), extra);
    MulAdd(bps, e, r + 1);
    MulMono(bps, e + (r + 1), e');
  }

  /** A bio over the request limit waits until just past the jiffy by which iops has paid for it. */
  lemma IosWaitIs(c: Clock, d: Dir, now: nat, e: nat)
    requires c.Valid() && d.start <= now && d.iops > 0 && Least(e, now - d.start, c.Slice())
    requires d.iops * e < W64 && (d.ioDisp + 1) * c.hz < W32 && !IopsWait(c, d, now).0
    ensures var r := IopsWait(c, d, now).1 + (now - d.start);
            (r - 1) * d.iops <= (d.ioDisp + 1) * c.hz < r * d.iops
  {
    var n, q := d.ioDisp + 1, Over(Times(d.ioDisp + 1, c.hz), d.iops);
    assert n <= n * c.hz by { MulMono(n, 1, c.hz); }
    IosExact(c, d, now, e);
    IosWaitSum(c, d, now);
    hide Least, IopsWait, Over;
    Bracket(n * c.hz, d.iops);
    if q + 1 <= e { MulMono(d.iops, q + 1, e); }
  }

  lemma Bracket(a: nat, b: nat)
    requires b > 0
    ensures Over(a, b) * b <= a < (Over(a, b) + 1) * b
  {
    OverBounds(a, b);
    MulAdd(b, Over(a, b), 1);
  }

  lemma IosWaitSum(c: Clock, d: Dir, now: nat)
    requires c.Valid() && d.start <= now && d.iops > 0 && !IopsWait(c, d, now).0
    requires (d.ioDisp + 1) * c.hz < W32 && d.ioDisp + 1 < W32
    ensures var q := Over(Times(d.ioDisp + 1, c.hz), d.iops);
            IopsWait(c, d, now).1 == if q + 1 > now - d.start then q + 1 - (now - d.start) else 1
  {
    hide Elapsed, Over;
    assert U32(d.ioDisp + 1) == d.ioDisp + 1 && U32(Times(d.ioDisp + 1, c.hz)) == Times(d.ioDisp + 1, c.hz);
  }

  /** Once that wait is over it passes the request test, if the slice is still the same. */
  lemma IosWaitEnough(c: Clock, d: Dir, now: nat, e: nat, t: nat, e': nat)
    requires c.Valid() && d.start <= now && d.iops > 0 && Least(e, now - d.start, c.Slice())
    requires d.iops * e < W64 && (d.ioDisp + 1) * c.hz < W32 && !IopsWait(c, d, now).0
    requires t >= now + IopsWait(c, d, now).1 && Least(e', t - d.start, c.Slice()) && d.iops * e' < W64
    ensures IopsWait(c, d, t).0
  {
    var n := d.ioDisp + 1;
    assert n <= n * c.hz by { MulMono(n, 1, c.hz); }
    IosWaitIs(c, d, now, e);
    IosExact(c, d, t, e');
    hide IopsWait;
    MulMono(d.iops, IopsWait(c, d, now).1 + (now - d.start), e');
  }

  // ------------------------------------------------------------- a fresh slice

  lemma SliceLeast(c: Clock)
    requires c.Valid()
    ensures Least(c.Slice(), 0, c.Slice())
  {
    ElapsedLeast(c, Dir(0, 0, 0, 0, 0, 0), 0);
    RoundUpSelf(c.Slice());
  }

  /** A used slice, or one just started, lets a bio go at once if one slice of both limits pays for it. */
  lemma FreshGoes(c: Clock, d: Dir, size: nat, now: nat)
    requires c.Valid() && d.bps > 0 && d.iops > 0
    requires !(d.start <= now <= d.end) || d == d.(bytesDisp := 0, ioDisp := 0, start := now, end := now + c.Slice())
    requires d.bps * c.Slice() < W64 && d.iops * c.Slice() < W64 && size < W64
    ensures !Unlimited(d) ==>
              (MayDispatch(c, d, size, now).0 <==> size * c.hz <= d.bps * c.Slice() && c.hz <= d.iops * c.Slice())
    ensures Unlimited(d) ==> MayDispatch(c, d, size, now).0
  {
    var d1 := Renew(c, d, now);
    assert d1 == StartNewSlice(c, d, now);
    SliceLeast(c);
    BytesExact(c, d1, size, now, c.Slice());
    IosExact(c, d1, now, c.Slice());
    hide BpsWait, IopsWait, Least, RoundUp;
  }

  lemma LeastPays(rate: nat, e: nat, x: nat, y: nat, used: nat, hz: nat)
    requires y > 0 && Least(e, x, y) && used * hz <= rate * y
    ensures used * hz <= rate * e
  {
    assert e >= y by {
      assert e / y >= 1;
      assert e == e / y * y + e % y;
      MulMono(y, 1, e / y);
    }
    hide Least;
    MulMono(rate, y, e);
  }

  /** A refusal means that b bytes and i bios, at least those on the books, and this bio are more than one slice pays for. */
  lemma RefusedWhenUsed(c: Clock, d: Dir, size: nat, now: nat, b: nat, i: nat, m: Meter)
    requires c.Valid() && d.bps > 0 && d.iops > 0 && !Unlimited(d) && d.bytesDisp <= b && d.ioDisp <= i
    requires m.d == d && m.now == now && BytesFit(c, m, Offer(size, now)) && IosFit(c, m, Offer(size, now))
    requires !MayDispatch(c, d, size, now).0
    ensures (b + size) * c.hz > d.bps * c.Slice() || (i + 1) * c.hz > d.iops * c.Slice()
  {
    var d1 := Renew(c, d, now);
    assert d1.bytesDisp <= b && d1.ioDisp <= i && d1.bps == d.bps && d1.iops == d.iops by { hide RoundUp; }
    var e := Elapsed(c, d1, now);
    ElapsedLeast(c, d1, now);
    assert Times(d.bps, e) == d.bps * e && Times(d.iops, e) == d.iops * e;
    BytesExact(c, d1, size, now, e);
    IosExact(c, d1, now, e);
    hide BpsWait, IopsWait, RoundUp, Renew, Elapsed, Least, BytesFit, IosFit, Times;
    if (b + size) * c.hz <= d.bps * c.Slice() && (i + 1) * c.hz <= d.iops * c.Slice() {
      LeastPays(d.bps, e, now - d1.start, c.Slice(), b + size, c.hz);
      LeastPays(d.iops, e, now - d1.start, c.Slice(), i + 1, c.hz);
      MulMono(c.hz, d1.bytesDisp + size, b + size);
      MulMono(c.hz, d1.ioDisp + 1, i + 1);
    }
  }

  /** The wait of a refused bio is that of the limit that refuses it, bytes before bios, and nothing more. */
  lemma RefusalWait(c: Clock, d: Dir, size: nat, now: nat)
    requires c.Valid() && d.bps > 0 && d.iops > 0 && !Unlimited(d)
    ensures var (ok, wait, d1) := MayDispatch(c, d, size, now);
            && d1.start <= now
            && var (b, i) := (BpsWait(c, d1, size, now), IopsWait(c, d1, now));
               && (ok <==> b.0 && i.0)
               && (!ok ==> wait == if b.0 then i.1 else b.1)
  {
    hide RoundUp, Times, Over, U64, U32;
  }

  /**
    How long a slice lasts: at least one slice from the last look at it, and less than two from the last bio let
    through, or from the end of the wait a bio was refused with.
  */
  lemma SliceLasts(c: Clock, d: Dir, size: nat, now: nat)
    requires c.Valid() && d.bps > 0 && d.iops > 0 && !Unlimited(d)
    ensures var (ok, wait, d1) := MayDispatch(c, d, size, now);
            && d1.start <= now && now + c.Slice() <= d1.end
            && (ok ==> now + c.Slice() <= TrimSlice(c, Charge(d1, size), now).end < now + 2 * c.Slice())
            && (!ok ==> now + wait <= d1.end)
            && (d1.end <= Max(d.end, now + 2 * c.Slice()) || d1.end < now + wait + c.Slice())
  {
    hide BpsWait, IopsWait, RoundUp, Times, Over;
    RoundUpBounds(now + c.Slice(), c.Slice());
    var wait := MayDispatch(c, d, size, now).1;
    RoundUpBounds(now + wait, c.Slice());
  }

  // ------------------------------------------------------------------ the trim

  /** What a trim forgets: whole slices of the past, all that have elapsed, and what the limit allows for them. */
  lemma TrimIs(c: Clock, d: Dir, now: nat)
    requires c.Valid() && !SliceUsed(d, now)
    requires d.bps * (now - d.start) < W64 && d.iops * (now - d.start) < W64
    ensures var d' := TrimSlice(c, d, now);
            var time := d'.start - d.start;
            && 0 <= time <= now - d.start && time % c.Slice() == 0
            && (time == 0 ==>
                  && d'.bytesDisp == d.bytesDisp && d'.ioDisp == d.ioDisp
                  && var whole := now - d.start - (now - d.start) % c.Slice();
                     d.bps * whole < c.hz && d.iops * whole < c.hz)
            && (time > 0 ==> now - d.start < time + c.Slice())
            && Forgives(c.hz, d.bps, d.bytesDisp, d'.bytesDisp, time) && Forgives(c.hz, d.iops, d.ioDisp, d'.ioDisp, time)
  {
    hide Times, Over, U64, RoundUp, Forgives;
    var x, y := now - d.start, c.Slice();
    var time := Times(Over(x, y), y);
    SlicesPassed(x, y);
    PassedPays(d.bps, time, x, c.hz, d.bytesDisp);
    PassedPays(d.iops, time, x, c.hz, d.ioDisp);
    NothingForgiven(d.bps, c.hz, d.bytesDisp);
    NothingForgiven(d.iops, c.hz, d.ioDisp);
  }

  /** The whole slices of y jiffies among x. */
  lemma SlicesPassed(x: nat, y: nat)
    requires y > 0
    ensures var time := Times(Over(x, y), y); time <= x < time + y && time % y == 0 && time == x - x % y && (Over(x, y) == 0 ==> time == 0)
    ensures 0 % y == 0 && (Over(x, y) > 0 ==> Times(Over(x, y), y) > 0)
  {
    OverBounds(x, y);
    MultipleIs(Over(x, y), y);
    assert x == x / y * y + x % y;
  }

  /** What `time` pays for at a rate, and what that leaves of disp. */
  lemma PassedPays(rate: nat, time: nat, x: nat, hz: nat, disp: nat)
    requires hz > 0 && time <= x && rate * x < W64
    ensures U64(Times(rate, time)) == Times(rate, time) == rate * time
    ensures Over(Times(rate, time), hz) == 0 <==> rate * time < hz
    ensures Forgives(hz, rate, disp, Minus(disp, Over(Times(rate, time), hz)), time)
  {
    MulMono(rate, time, x);
    TimesIs(rate, x);
    Fits64(Times(rate, time));
    TimesIs(rate, time);
    Bracket(Times(rate, time), hz);
    Forgotten(hz, rate, disp, time);
  }

  lemma NothingForgiven(rate: nat, hz: nat, disp: nat)
    requires hz > 0
    ensures Forgives(hz, rate, disp, disp, 0)
  {
    TimesIs(rate, 0);
    OverZero(hz);
    Forgotten(hz, rate, disp, 0);
  }

  lemma OverZero(b: nat)
    requires b > 0
    ensures Over(0, b) == 0
  {}

  /** disp' is disp less what `rate` allows for `time`, rounded down, or nothing. */
  predicate Forgives(hz: nat, rate: nat, disp: nat, disp': nat, time: nat) {
    if disp * hz >= rate * time then disp' <= disp && (disp - disp') * hz <= rate * time < (disp - disp' + 1) * hz
    else disp' == 0
  }

  lemma Forgotten(hz: nat, rate: nat, disp: nat, time: nat)
    requires hz > 0
    ensures Forgives(hz, rate, disp, Minus(disp, Over(Times(rate, time), hz)), time)
  {
    var q := Over(Times(rate, time), hz);
    Bracket(Times(rate, time), hz);
    if disp < q { MulMono(hz, disp + 1, q); MulAdd(hz, disp, 1); }
    if disp > q { MulMono(hz, q + 1, disp); }
  }

  /** A bio that would pass without the trim passes after it, or is less than one byte over, if the allowance was used up. */
  lemma TrimCosts(c: Clock, d: Dir, now: nat, size: nat, t: nat, e: nat, e': nat)
    requires c.Valid() && !SliceUsed(d, now) && now <= t
    requires d.bps * (now - d.start) < W64 && d.iops * (now - d.start) < W64
    requires var d' := TrimSlice(c, d, now);
             && 0 <= d'.start - d.start && d'.start <= t
             && Least(e, t - d.start, c.Slice()) && Least(e', t - d'.start, c.Slice())
             && d.bytesDisp * c.hz >= d.bps * (d'.start - d.start) && (d.bytesDisp + size) * c.hz <= d.bps * e
    ensures (TrimSlice(c, d, now).bytesDisp + size) * c.hz < d.bps * e' + c.hz
  {
    TrimIs(c, d, now);
    var d' := TrimSlice(c, d, now);
    var time := d'.start - d.start;
    hide TrimSlice, SliceUsed;
    LeastShift(e, e', t - d.start, time, c.Slice());
    Costs(c.hz, d.bps, d.bytesDisp, d'.bytesDisp, size, time, e, e');
  }

  lemma LeastShift(e: nat, e': nat, x: nat, time: nat, y: nat)
    requires y > 0 && time % y == 0 && time <= x && Least(e, x, y) && Least(e', x - time, y)
    ensures e <= e' + time
  {
    assert (e' + time) % y == 0 by {
      assert e' + time == (e' / y + time / y) * y;
      MultipleIs(e' / y + time / y, y);
    }
  }

  lemma Costs(hz: nat, rate: nat, disp: nat, disp': nat, size: nat, time: nat, e: nat, e': nat)
    requires hz > 0 && disp' <= disp && rate * time < (disp - disp' + 1) * hz
    requires (disp + size) * hz <= rate * e && e <= e' + time
    ensures (disp' + size) * hz < rate * e' + hz
  {
    MulMono(rate, e, e' + time);
    MulAdd(rate, e', time);
    MulAdd(hz, disp' + size, disp - disp');
    MulAdd(hz, disp - disp', 1);
  }
}
