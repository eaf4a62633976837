/** When a scanner lets workers see what it has scanned. */
module ScanCommit {

  /** How many of the newest batches busy workers need not see: none while each has
      at most two to take, four for each when each has ten, and in between what half
      of the pending ones, or those not shown yet, have over one for each. */
  function HeldBack(pending: nat, unseen: nat, w: nat): (h: nat)
    requires w > 0
    ensures pending <= 2 * w ==> h == 0
    ensures pending >= 10 * w ==> h == 4 * w
    ensures 2 * w < pending < 10 * w && h > 0 ==>
      (h + w == unseen <= pending / 2) || (h + w == pending / 2 < unseen)
    ensures h <= 4 * w && 2 * h <= pending
  {
    if pending >= 10 * w then 4 * w
    else if pending > 2 * w then
      var intermediate := if pending / 2 < unseen then pending / 2 else unseen;
      if intermediate > w then intermediate - w else 0
    else 0
  }

  /** A busier ring holds back no fewer. */
  lemma HeldBackGrows(pending: nat, more: nat, unseen: nat, w: nat)
    requires w > 0 && pending <= more
    ensures HeldBack(pending, unseen, w) <= HeldBack(more, unseen, w)
  {
  }

  function AtLeastOne(w: nat): nat {
    if w < 1 then 1 else w
  }

  function Less(a: nat, b: nat): nat {
    if a > b then a - b else 0
  }

  class Window {
    var scanned: nat    // batches written to the ring
    var visible: nat    // write_idx: batches workers may take

    ghost predicate Valid()
      reads this
    {
      visible <= scanned
    }

    constructor ()
      ensures Valid() && scanned == visible == 0
    {
      scanned, visible := 0, 0;
    }

    /** One more batch in the ring. */
    method Wrote()
      requires Valid()
      modifies this`scanned
      ensures Valid() && scanned == old(scanned) + 1
    {
      scanned := scanned + 1;
    }

    /** Publish all on demand, otherwise hold some back while workers have plenty.
        `taken` is read_idx, which may run ahead of both counters. */
    method Commit(force: bool, waiters: nat, activeWorkers: nat, taken: nat)
      requires Valid()
      modifies this`visible
      ensures Valid() && old(visible) <= visible
      ensures force || waiters > 0 ==> visible == scanned
      // Otherwise everything but what may be held back is shown, and nothing more.
      ensures !force && waiters == 0 ==>
        var target := Less(scanned, HeldBack(Less(scanned, taken), scanned - old(visible), AtLeastOne(activeWorkers)));
        visible == if target > old(visible) then target else old(visible)
      // Something is held back from everyone only while each worker has more
      // than two batches to take, and then no more than half of those.
      ensures visible < scanned && visible > old(visible) ==>
        var w := if activeWorkers < 1 then 1 else activeWorkers;
        taken < scanned && scanned - taken > 2 * w && 2 * (scanned - visible) <= scanned - taken
      // Never more than four batches for each worker.
      ensures visible + 4 * (if activeWorkers < 1 then 1 else activeWorkers) >= scanned
      ensures taken + 2 * (if activeWorkers < 1 then 1 else activeWorkers) >= scanned ==> visible == scanned
    {
      if scanned <= visible { return; }
      var w := if activeWorkers < 1 then 1 else activeWorkers;
      if force || waiters > 0 {
        visible := scanned;
      } else {
        var pending := if scanned > taken then scanned - taken else 0;
        var buffer := 0;
        if pending >= 10 * w {
          buffer := 4 * w;
        } else if pending > 2 * w {
          var linear := pending / 2;
          var intermediate := if linear < scanned - visible then linear else scanned - visible;
          if intermediate > w { buffer := intermediate - w; }
        }
        var target := if scanned > buffer then scanned - buffer else 0;
        if target > visible { visible := target; }
      }
    }
  }
}
