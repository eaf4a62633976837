/** One chunk of the NUMA line path with its -n budget. */
module LineChain {
  import opened Stream
  import opened VectorScan
  import opened LineScan

  /** What a round cannot know in advance: the batch size then in force, whether
      the timers ask for an early flush, which vector scan is at hand. */
  datatype Tick = Tick(L: nat, early: bool, simd: Simd)

  /** Where delivery stops for good: line `limit` ends here. */
  ghost predicate LineEnd(input: Input, x: nat, limit: nat) {
    RecordEnd(input, x) && LinesTo(input, x) == limit
  }

  /** Each batch says how many lines it closes. */
  ghost predicate LinesRight(input: Input, fs: seq<Flush>) {
    forall i :: 0 <= i < |fs| ==> LinesOf(input, fs[i])
  }

  ghost predicate LinesOf(input: Input, f: Flush) {
    f.start <= f.end <= |input.bytes| && LinesTo(input, f.end) == LinesTo(input, f.start) + f.lines
  }

  /** Batches end where records end. */
  ghost predicate WholeRecords(input: Input, fs: seq<Flush>) {
    forall i :: 0 <= i < |fs| ==> RecordEnd(input, fs[i].end)
  }

  /** What the chunk of records [from, to) publishes when `prev` lines precede
      it: everything below the limit, up to `stop`. */
  ghost predicate LineScanned(input: Input, from: nat, to: nat, limit: nat, prev: nat, fs: seq<Flush>, stop: nat,
                              cum: nat)
    requires from <= to <= |input.bytes|
  {
    && Numbered(fs) && Tiles(fs, from, stop) && LinesRight(input, fs)
    && |fs| <= LinesTo(input, to) - LinesTo(input, from) + 1
    && if Reached(limit, prev) then stop == from && cum == prev
       else if Reached(limit, prev + LinesTo(input, to) - LinesTo(input, from))
       then stop <= to && LineEnd(input, stop, LinesTo(input, from) + limit - prev) && cum == limit
       else stop == to && (limit > 0 ==> cum == prev + LinesTo(input, to) - LinesTo(input, from))
  }

  /** Mid-chunk state: flushed up to `batchStart`, scanned up to `p`. */
  ghost predicate Mid(input: Input, from: nat, to: nat, fs: seq<Flush>, batchStart: nat, p: nat, pending: nat)
    requires to <= |input.bytes|
  {
    && from <= batchStart <= p <= to
    && Counting(fs) && Tiles(fs, from, batchStart) && LinesRight(input, fs)
    && LinesTo(input, p) == LinesTo(input, batchStart) + pending
    && LinesTo(input, from) + |fs| <= LinesTo(input, batchStart)
  }

  lemma MidStart(input: Input, from: nat, to: nat)
    requires from <= to <= |input.bytes|
    ensures Mid(input, from, to, [], from, from, 0)
  {
  }

  /** The scan of a round moves `p` on by the lines it found. */
  lemma MidGather(input: Input, from: nat, to: nat, window: nat, target: nat, bytesMax: nat, fs: seq<Flush>,
                  batchStart: nat, p: nat, end: nat, pending: nat, g: Got)
    requires from <= batchStart <= p < to && p <= end <= to <= |input.bytes| && window > 0 && target > 0
    requires Mid(input, from, to, fs, batchStart, p, pending) && RecordEnd(input, to)
    requires g == Gathered(input, batchStart, to, window, target, bytesMax, p, end, 0)
    ensures p < g.p <= g.end <= to && 0 < g.found <= target && (g.capped ==> g.found < target && g.p < to)
    ensures Mid(input, from, to, fs, batchStart, g.p, pending + g.found)
    ensures LinesTo(input, g.p) == LinesTo(input, p) + g.found
    ensures g.found < target ==> g.capped || g.p == to
    ensures !g.capped ==> RecordEnd(input, g.p)
  {
    GatheredLines(input, batchStart, to, window, target, bytesMax, p, end, 0);
    hide Gathered, Tiles, LinesRight, Counting;
    LinesGap(input, p, to);
  }

  /** Before a record end there is a line. */
  lemma LinesGap(input: Input, p: nat, to: nat)
    requires p < to <= |input.bytes| && RecordEnd(input, to)
    ensures LinesTo(input, p) < LinesTo(input, to)
  {
    input.CountMono(p, to);
    if input.Edge(to) { input.CountMono(p, to - 1); }
  }

  /** While one read covers the chunk, every round stops where a record ends. */
  ghost predicate Whole(input: Input, upTo: nat, fs: seq<Flush>, p: nat, end: nat) {
    WholeRecords(input, fs) && RecordEnd(input, p) && (p < upTo ==> end == upTo || p == end)
  }

  lemma WholeGather(input: Input, from: nat, upTo: nat, window: nat, target: nat, bytesMax: nat, fs: seq<Flush>,
                    batchStart: nat, p: nat, end: nat, g: Got)
    requires from <= batchStart <= p < upTo && p <= end <= upTo <= |input.bytes| && target > 0
    requires 0 < upTo - from <= window && RecordEnd(input, upTo) && Whole(input, upTo, fs, p, end)
    requires g == Gathered(input, batchStart, upTo, window, target, bytesMax, p, end, 0)
    ensures Whole(input, upTo, fs, g.p, g.end)
  {
    GatheredLines(input, batchStart, upTo, window, target, bytesMax, p, end, 0);
    CapBetweenRecords(input, batchStart, upTo, window, target, bytesMax, p, end, 0);
  }

  lemma WholeIs(input: Input, upTo: nat, fs: seq<Flush>, p: nat, end: nat)
    requires Whole(input, upTo, fs, p, end)
    ensures WholeRecords(input, fs)
  {
  }

  lemma WholeFlush(input: Input, upTo: nat, fs: seq<Flush>, p: nat, end: nat, f: Flush)
    requires Whole(input, upTo, fs, p, end) && f.end == p
    ensures Whole(input, upTo, fs + [f], p, end)
  {
  }

  /** Flushing the pending lines. */
  lemma MidFlush(input: Input, from: nat, to: nat, fs: seq<Flush>, batchStart: nat, p: nat, pending: nat)
    requires to <= |input.bytes| && Mid(input, from, to, fs, batchStart, p, pending) && pending > 0
    ensures Mid(input, from, to, fs + [Flush(batchStart, p, pending, |fs|, false)], p, p, 0)
    ensures var gs := fs + [Flush(batchStart, p, pending, |fs|, true)];
      Numbered(gs) && Tiles(gs, from, p) && LinesRight(input, gs) && LinesTo(input, from) + |gs| <= LinesTo(input, p)
  {
    hide LinesTo;
    var f, g := Flush(batchStart, p, pending, |fs|, false), Flush(batchStart, p, pending, |fs|, true);
    NumberedAppend(fs, f);
    NumberedAppend(fs, g);
    TilesAppend(fs, from, batchStart, f);
    TilesAppend(fs, from, batchStart, g);
    LinesRightAppend(input, fs, f);
    LinesRightAppend(input, fs, g);
  }

  lemma LinesRightAppend(input: Input, fs: seq<Flush>, f: Flush)
    requires LinesRight(input, fs) && LinesOf(input, f)
    ensures LinesRight(input, fs + [f])
  {
  }

  /** One empty marker: for a chunk without records or past the limit. */
  lemma MarkerScanned(input: Input, from: nat, to: nat, limit: nat, prev: nat)
    requires from <= to <= |input.bytes| && (from == to || Reached(limit, prev))
    ensures LineScanned(input, from, to, limit, prev, [Flush(from, from, 0, 0, true)], from, prev)
  {
    LinesMono(input, from, to);
    assert [Flush(from, from, 0, 0, true)][..0] == [];
  }

  /** The lines a round may take: what the batch still needs, within the budget,
      and at least one. */
  method RoundTarget(L: nat, pending: nat, limit: nat, consumed: nat) returns (target: nat)
    requires !Reached(limit, consumed)
    ensures target > 0 && (limit > 0 ==> consumed + target <= limit)
    ensures if L > pending then pending + target <= L else target == 1
    ensures pending + target < L ==> limit > 0 && consumed + target == limit
  {
    target := if L > pending then L - pending else 0;
    if limit > 0 && target > limit - consumed { target := limit - consumed; }
    if target == 0 { target := 1; }
  }

  /** How many lines a batch of size L is to have. */
  function Quota(L: nat): (q: nat)
    ensures q > 0
  {
    if L == 0 then 1 else L
  }

  /** A batch has its size in lines, no more.  It has fewer only at the end of the
      chunk, at the limit's last line, or where one more record would take it over
      the byte cap; but for its first, no record in it does. */
  ghost predicate Filled(input: Input, from: nat, to: nat, limit: nat, prev: nat, bytesMax: nat, L: nat, f: Flush) {
    && from <= f.start <= f.end <= to <= |input.bytes| && f.lines <= Quota(L)
    && (f.lines < Quota(L) ==>
          || f.end == to
          || (limit > 0 && prev + LinesTo(input, f.end) >= limit + LinesTo(input, from))
          || exists j: nat, x: nat :: j == f.lines + 1 && x <= to && Over(input, f.start, bytesMax, f.start, j, x))
    && forall j: nat, x: nat :: 1 < j <= f.lines && x <= to ==> !Over(input, f.start, bytesMax, f.start, j, x)
  }

  /** Batch k has the size that was in force in round k. */
  ghost predicate Sized(input: Input, from: nat, to: nat, limit: nat, prev: nat, bytesMax: nat, tick: nat -> Tick,
                        fs: seq<Flush>)
  {
    forall k :: 0 <= k < |fs| ==> Filled(input, from, to, limit, prev, bytesMax, tick(k).L, fs[k])
  }

  lemma SizedAppend(input: Input, from: nat, to: nat, limit: nat, prev: nat, bytesMax: nat, tick: nat -> Tick,
                    fs: seq<Flush>, f: Flush)
    requires Sized(input, from, to, limit, prev, bytesMax, tick, fs)
    requires Filled(input, from, to, limit, prev, bytesMax, tick(|fs|).L, f)
    ensures Sized(input, from, to, limit, prev, bytesMax, tick, fs + [f])
  {
    hide Filled;
  }

  /** One round of the scan fills one batch. */
  lemma RoundFills(input: Input, from: nat, to: nat, limit: nat, prev: nat, bytesMax: nat, L: nat, window: nat,
                   p: nat, end: nat, target: nat, g: Got, f: Flush)
    requires from <= p < to && p <= end <= to <= |input.bytes| && window > 0 && RecordEnd(input, to)
    requires g == Gathered(input, p, to, window, target, bytesMax, p, end, 0)
    requires 0 < target <= Quota(L) && f.start == p && f.end == g.p && f.lines == g.found
    requires target < Quota(L) ==> limit > 0 && prev + LinesTo(input, p) + target >= limit + LinesTo(input, from)
    ensures Filled(input, from, to, limit, prev, bytesMax, L, f)
  {
    GatheredLines(input, p, to, window, target, bytesMax, p, end, 0);
    var ls, x := CapExact(input, p, to, window, target, bytesMax, p, end);
    hide LinesTo, Gathered, Over, RecordEnd;
    if g.capped {
      assert Over(input, p, bytesMax, p, f.lines + 1, x);
    } else {
      forall j: nat, y: nat | 1 < j <= f.lines && y <= to ensures !Over(input, p, bytesMax, p, j, y) {}
    }
  }

  lemma MarkerSized(input: Input, from: nat, to: nat, limit: nat, prev: nat, bytesMax: nat, tick: nat -> Tick)
    requires from <= to <= |input.bytes| && (from == to || Reached(limit, prev))
    ensures Sized(input, from, to, limit, prev, bytesMax, tick, [Flush(from, from, 0, 0, true)])
  {
  }

  /** The line loop over one chunk of records. */
  method ScanLines(input: Input, from: nat, to: nat, window: nat, limit: nat, prev: nat, bytesMax: nat,
                   tick: nat -> Tick)
    returns (fs: seq<Flush>, stop: nat, cum: nat, limitHit: bool)
    requires from <= to <= |input.bytes| && window > 0 && input.Edge(from) && RecordEnd(input, to)
    ensures LineScanned(input, from, to, limit, prev, fs, stop, cum)
    ensures to - from <= window ==> WholeRecords(input, fs)
    ensures Sized(input, from, to, limit, prev, bytesMax, tick, fs)
    ensures limitHit <==> !Reached(limit, prev) && Reached(limit, prev + LinesTo(input, to) - LinesTo(input, from))
  {
    if from >= to || Reached(limit, prev) {
      MarkerScanned(input, from, to, limit, prev);
      MarkerSized(input, from, to, limit, prev, bytesMax, tick);
      return [Flush(from, from, 0, 0, true)], from, prev, false;
    }
    MidStart(input, from, to);
    hide Mid, Whole, Numbered, LinesTo, RecordEnd, Gathered, Tiles, LinesRight, Filled, Sized;
    var batchStart, p, end := from, from, from;
    var pending: nat, lines: nat, round: nat := 0, 0, 0;
    fs, limitHit := [], false;
    while true
      invariant from <= batchStart <= p < to && p <= end <= to
      invariant Mid(input, from, to, fs, batchStart, p, pending)
      invariant lines == LinesTo(input, p) - LinesTo(input, from) && !Reached(limit, prev + lines)
      // Every round flushes, so the timers never matter here.
      invariant !limitHit && pending == 0 && batchStart == p && round == |fs|
      invariant Sized(input, from, to, limit, prev, bytesMax, tick, fs)
      invariant to - from <= window ==> Whole(input, to, fs, p, end)
      decreases |input.bytes| - p
    {
      var now := tick(round);
      var target := RoundTarget(now.L, pending, limit, prev + lines);
      var found, capped;
      ghost var before, bufEnd := p, end;
      found, p, end, capped := Gather(input, batchStart, to, window, target, bytesMax, p, end, now.simd);
      MidGather(input, from, to, window, target, bytesMax, fs, batchStart, before, bufEnd, pending,
                Got(found, p, end, capped));
      if to - from <= window {
        WholeGather(input, from, to, window, target, bytesMax, fs, batchStart, before, bufEnd,
                    Got(found, p, end, capped));
      }
      limitHit := limit > 0 && prev + lines + found >= limit;
      // The budget is never overrun, so the rewind arm never runs.
      assert limitHit ==> prev + lines + found == limit;
      RoundFills(input, from, to, limit, prev, bytesMax, now.L, window, before, bufEnd, target,
                 Got(found, p, end, capped), Flush(batchStart, p, found, |fs|, p >= to || limitHit));
      lines, pending, round := lines + found, pending + found, round + 1;
      if pending >= now.L || limitHit || capped || p >= to || now.early {
        var last := p >= to || limitHit;
        MidFlush(input, from, to, fs, batchStart, p, pending);
        if to - from <= window { WholeFlush(input, to, fs, p, end, Flush(batchStart, p, pending, |fs|, last)); }
        SizedAppend(input, from, to, limit, prev, bytesMax, tick, fs, Flush(batchStart, p, pending, |fs|, last));
        fs := fs + [Flush(batchStart, p, pending, |fs|, last)];
        batchStart, pending := p, 0;
        if last { break; }
      }
    }
    if to - from <= window { WholeIs(input, to, fs, p, end); }
    LinesMonoBoth(input, from, p, to);
    stop, cum := p, prev + lines;
  }

  lemma LinesMonoBoth(input: Input, from: nat, p: nat, to: nat)
    requires from <= p <= to <= |input.bytes|
    ensures LinesTo(input, from) <= LinesTo(input, p) <= LinesTo(input, to)
  {
    LinesMono(input, from, p);
    LinesMono(input, p, to);
  }
}
