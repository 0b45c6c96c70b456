/**
  The slice of one direction of a throttled group (block/blk-throttle.c) as it
  is updated in place, each operation proved equal to its function on values.
*/
module ThrottleSlice {
  import opened ThrottleRate
  import opened ThrottleExact

  class Slice {
    const clock: Clock
    const bps: nat
    const iops: nat
    var bytesDisp: nat
    var ioDisp: nat
    var start: nat
    var end: nat

    function St(): Dir reads this { Dir(bps, iops, bytesDisp, ioDisp, start, end) }

    constructor (clock: Clock, bps: nat, iops: nat, now: nat)
      requires clock.Valid()
      ensures St() == First(clock, bps, iops, now).d && this.clock == clock
    {
      this.clock, this.bps, this.iops := clock, bps, iops;
      bytesDisp, ioDisp, start, end := 0, 0, now, now + clock.Slice();
    }

    /** throtl_start_new_slice. */
    method RestartSlice(now: nat)
      requires clock.Valid()
      modifies this
      ensures St() == StartNewSlice(clock, old(St()), now)
    {
      bytesDisp, ioDisp, start, end := 0, 0, now, now + clock.Slice();
    }

    /** throtl_trim_slice. */
    method Trim(now: nat)
      requires clock.Valid()
      modifies this
      ensures St() == TrimSlice(clock, old(St()), now)
    {
      hide Times, Over, U64;
      if SliceUsed(St(), now) {
        return;
      }
      end := RoundUp(now + clock.Slice(), clock.Slice());
      var slices := Over(now - start, clock.Slice());
      if slices == 0 {
        return;
      }
      var time := Times(slices, clock.Slice());
      var bytesTrim := Over(U64(Times(bps, time)), clock.hz);
      var ioTrim := Over(U64(Times(iops, time)), clock.hz);
      if bytesTrim == 0 && ioTrim == 0 {
        return;
      }
      if bytesDisp >= bytesTrim { bytesDisp := bytesDisp - bytesTrim; } else { bytesDisp := 0; }
      if ioDisp >= ioTrim { ioDisp := ioDisp - ioTrim; } else { ioDisp := 0; }
      start := start + time;
    }

    /** tg_with_in_bps_limit. */
    method WithinBps(size: nat, now: nat) returns (ok: bool, wait: nat)
      requires clock.Valid() && start <= now && bps > 0
      ensures (ok, wait) == BpsWait(clock, St(), size, now)
      ensures forall e: nat :: Least(e, now - start, clock.Slice()) && bps * e < W64 && bytesDisp + size < W64 ==>
                (ok <==> (bytesDisp + size) * clock.hz <= bps * e)
    {
      forall e: nat | Least(e, now - start, clock.Slice()) && bps * e < W64 && bytesDisp + size < W64
        ensures BpsWait(clock, St(), size, now).0 <==> (bytesDisp + size) * clock.hz <= bps * e
      {
        BytesExact(clock, St(), size, now, e);
      }
      hide Times, Over, U64;
      var elapsed := now - start;
      var rounded := RoundUp(if elapsed == 0 then clock.Slice() else elapsed, clock.Slice());
      var allowed := Over(U64(Times(bps, rounded)), clock.hz);
      if U64(bytesDisp + size) <= allowed {
        return true, 0;
      }
      var extra := U64(bytesDisp + size) - allowed;
      wait := Over(U64(Times(extra, clock.hz)), bps);
      if wait == 0 {
        wait := 1;
      }
      ok, wait := false, wait + Minus(rounded, elapsed);
    }

    /** tg_with_in_iops_limit. */
    method WithinIops(now: nat) returns (ok: bool, wait: nat)
      requires clock.Valid() && start <= now && iops > 0
      ensures (ok, wait) == IopsWait(clock, St(), now)
      ensures forall e: nat :: Least(e, now - start, clock.Slice()) && iops * e < W64 && ioDisp + 1 < W32 ==>
                (ok <==> (ioDisp + 1) * clock.hz <= iops * e)
    {
      forall e: nat | Least(e, now - start, clock.Slice()) && iops * e < W64 && ioDisp + 1 < W32
        ensures IopsWait(clock, St(), now).0 <==> (ioDisp + 1) * clock.hz <= iops * e
      {
        IosExact(clock, St(), now, e);
      }
      hide Times, Over, U64, U32;
      var elapsed := now - start;
      var rounded := RoundUp(if elapsed == 0 then clock.Slice() else elapsed, clock.Slice());
      var allowed := Over(U64(Times(iops, rounded)), clock.hz);
      if allowed > UINT_MAX {
        allowed := UINT_MAX;
      }
      if U32(ioDisp + 1) <= allowed {
        return true, 0;
      }
      wait := Over(U32(Times(U32(ioDisp + 1), clock.hz)), iops) + 1;
      if wait > elapsed {
        wait := wait - elapsed;
      } else {
        wait := 1;
      }
      ok := false;
    }

    /** tg_may_dispatch. */
    method May(size: nat, now: nat) returns (ok: bool, wait: nat)
      requires clock.Valid() && bps > 0 && iops > 0
      modifies this
      ensures (ok, wait, St()) == MayDispatch(clock, old(St()), size, now)
    {
      hide BpsWait, IopsWait, RoundUp;
      if Unlimited(St()) {
        return true, 0;
      }
      if SliceUsed(St(), now) {
        RestartSlice(now);
      } else if end < now + clock.Slice() {
        end := RoundUp(now + clock.Slice(), clock.Slice());
      }
      var bpsWait, iopsWait := 0, 0;
      ok, bpsWait := WithinBps(size, now);
      if ok {
        ok, iopsWait := WithinIops(now);
        if ok {
          return true, 0;
        }
      }
      wait := Max(bpsWait, iopsWait);
      if end < now + wait {
        end := RoundUp(now + wait, clock.Slice());
      }
    }

    /** A bio offered now: let through, charged and trimmed for, or refused. */
    method Offer(size: nat, now: nat, ghost m: Meter) returns (ok: bool)
      requires clock.Valid() && bps > 0 && iops > 0 && !Unlimited(St()) && m.d == St() && m.now <= now
      modifies this
      ensures ok == MayDispatch(clock, old(St()), size, now).0
      ensures St() == Next(clock, m, Action.Offer(size, now)).d
    {
      hide TrimSlice, MayDispatch;
      var wait;
      ok, wait := May(size, now);
      if ok {
        bytesDisp := U64(bytesDisp + size);
        ioDisp := U32(ioDisp + 1);
        Trim(now);
      }
    }
  }
}
