/**
  Where a partly completed request is on disk (blk_update_request in
  block/blk-core.c): its position and failfast flags follow its first bio.
*/
module CompletionPlace {
  import opened Completion

  /** Bios of whole sectors, one behind the other on disk from `sector` on. */
  predicate InLine(bios: seq<Bio>, sector: nat) {
    bios == [] ||
    (bios[0].sector == sector && bios[0].size % 512 == 0 && InLine(bios[1..], sector + bios[0].size / 512))
  }

  lemma {:induction false} ConsumeInLine(bios: seq<Bio>, sector: nat, n: nat, error: nat)
    requires InLine(bios, sector) && n % 512 == 0
    ensures InLine(Consume(bios, n, error).0, sector + n / 512)
  {
    if bios != [] {
      var b, rest := bios[0], bios[1..];
      if n < b.size {
        var a := Advance(b, n, error);
        AdvanceIs(b, n, error);
        assert n / 512 + a.size / 512 == b.size / 512;
        assert ([a] + rest)[1..] == rest;
      } else if n > b.size {
        ConsumeInLine(rest, sector + b.size / 512, n - b.size, error);
        assert b.size / 512 + (n - b.size) / 512 == n / 512;
      }
    }
  }

  lemma AdvanceIs(b: Bio, n: nat, error: nat)
    requires n < b.size
    ensures var a := Advance(b, n, error); a.size == b.size - n && a.sector == b.sector + n / 512 && a.failfast == b.failfast
  {}

  /** A request whose position, and if attributes are mixed whose failfast flags, are those of its first bio. */
  predicate Placed(rq: Request) {
    rq.bios != [] ==> InLine(rq.bios, rq.sector) && (rq.mixed ==> rq.failfast == rq.bios[0].failfast)
  }

  predicate WholeSectors(calls: seq<Call>) { forall c :: 0 <= c < |calls| ==> calls[c].bytes % 512 == 0 }

  lemma CallPlaced(rq: Request, n: nat, error: nat)
    requires Ok(rq) && Placed(rq) && rq.positional && n % 512 == 0
    ensures var r := Update(rq, error, n).0;
            && Ok(r) && Placed(r) && r.positional && r.mixed == rq.mixed
            && (r.bios != [] ==>
                  && rq.bios != [] && r.sector * 512 + r.dataLen == rq.sector * 512 + rq.dataLen
                  && (!rq.mixed ==> r.failfast == rq.failfast))
  {
    UpdateShape(rq, error, n);
    if rq.bios != [] { ConsumeInLine(rq.bios, rq.sector, n, error); }
    hide Ok, Consume, InLine, Update;
  }

  /**
    However a request of whole sectors is completed, in whole sectors: while bytes are left it starts where its first
    bio does, ends where it did, its bios lie one behind the other, and its failfast flags are the first bio's if
    attributes are mixed, else what they were.
  */
  lemma {:induction false} StaysPlaced(rq: Request, calls: seq<Call>)
    requires Ok(rq) && Placed(rq) && rq.positional && WholeSectors(calls)
    ensures var r := After(rq, calls);
            r.bios != [] ==>
              && rq.bios != [] && InLine(r.bios, r.sector) && r.bios[0].sector == r.sector
              && r.sector * 512 + r.dataLen == rq.sector * 512 + rq.dataLen
              && r.failfast == if rq.mixed then r.bios[0].failfast else rq.failfast
    decreases |calls|
  {
    if calls != [] {
      CallPlaced(rq, calls[0].bytes, calls[0].error);
      hide Update, Ok, Placed, InLine;
      StaysPlaced(Update(rq, calls[0].error, calls[0].bytes).0, calls[1..]);
    }
  }
}
