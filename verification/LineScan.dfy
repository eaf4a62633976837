/** Line batches within one chunk of records: the NUMA line path. */
module LineScan {
  import opened Stream
  import opened VectorScan

  /** Where a scan of a chunk's buffer stands after a round. */
  datatype Got = Got(found: nat, p: nat, end: nat, capped: bool)

  /** One past the first delimiter in [p, end). */
  ghost function FirstHit(input: Input, p: nat, end: nat): (hit: Hit)
    requires p <= end <= |input.bytes|
    ensures NthHit(input, p, end, 1, hit)
    ensures hit.At? ==> p < hit.pos <= end
    decreases end - p
  {
    if p == end then Fewer else if input.Mark(p) then At(p + 1) else FirstHit(input, p + 1, end)
  }

  /** The line-by-line scan: up to `target` lines from `p`, reading `window` bytes
      at a time up to `chunkEnd`, stopping before a line that would take the batch
      begun at `batchStart` over the byte cap. */
  ghost function Gathered(input: Input, batchStart: nat, chunkEnd: nat, window: nat, target: nat, bytesMax: nat,
                          p: nat, end: nat, found: nat): Got
    requires batchStart <= p <= end <= chunkEnd <= |input.bytes| && window > 0
    decreases chunkEnd - p, chunkEnd - end
  {
    if found >= target then Got(found, p, end, false)
    else if p >= end then
      var toRead := if p + window > chunkEnd then chunkEnd - p else window;
      if toRead == 0 then Got(found, p, end, false)
      else Gathered(input, batchStart, chunkEnd, window, target, bytesMax, p, p + toRead, found)
    else
      match FirstHit(input, p, end)
      case At(x) =>
        if bytesMax > 0 && found > 0 && (x - batchStart) + (found + 1) * 8 > bytesMax then Got(found, p, end, true)
        else Gathered(input, batchStart, chunkEnd, window, target, bytesMax, x, end, found + 1)
      case Fewer =>
        if end >= chunkEnd then Got(found + 1, end, end, false)
        else Gathered(input, batchStart, chunkEnd, window, target, bytesMax, end, end, found)
  }

  /** Lines wholly before `x`; the unterminated tail of the stream is a line. */
  ghost function LinesTo(input: Input, x: nat): nat
    requires x <= |input.bytes|
  {
    input.Count(x) + if x == |input.bytes| && !input.Edge(x) then 1 else 0
  }

  /** A record ends here: at an edge or at the end of the stream. */
  ghost predicate RecordEnd(input: Input, x: nat) {
    x <= |input.bytes| && (input.Edge(x) || x == |input.bytes|)
  }

  lemma LinesMono(input: Input, x: nat, y: nat)
    requires x <= y <= |input.bytes|
    ensures LinesTo(input, x) <= LinesTo(input, y)
  {
    input.CountMono(x, y);
  }

  lemma {:induction false} GatheredLines(input: Input, batchStart: nat, chunkEnd: nat, window: nat, target: nat,
                                         bytesMax: nat, p: nat, end: nat, found: nat)
    requires batchStart <= p <= end <= chunkEnd <= |input.bytes| && window > 0 && RecordEnd(input, chunkEnd)
    requires found <= target
    ensures var g := Gathered(input, batchStart, chunkEnd, window, target, bytesMax, p, end, found);
      && p <= g.p <= g.end <= chunkEnd && found <= g.found <= target
      && LinesTo(input, g.p) == LinesTo(input, p) + (g.found - found)
      && (g.found < target ==> g.capped || g.p == chunkEnd)
      && (g.capped ==> g.found > 0 && g.found < target && g.p < chunkEnd)
      && (!g.capped && found < g.found ==> RecordEnd(input, g.p))
    decreases chunkEnd - p, chunkEnd - end
  {
    hide Input.Count, LinesTo, FirstHit;
    if found < target {
      if p >= end {
        var toRead := if p + window > chunkEnd then chunkEnd - p else window;
        if toRead > 0 {
          GatheredLines(input, batchStart, chunkEnd, window, target, bytesMax, p, p + toRead, found);
        }
      } else {
        match FirstHit(input, p, end)
        case At(x) =>
          NextLine(input, p, end, x);
          GatheredLines(input, batchStart, chunkEnd, window, target, bytesMax, x, end, found + 1);
        case Fewer =>
          if end < chunkEnd {
            SameLine(input, p, end);
            GatheredLines(input, batchStart, chunkEnd, window, target, bytesMax, end, end, found);
          } else {
            TailLine(input, p, end);
          }
      }
    }
  }

  lemma NextLine(input: Input, p: nat, end: nat, x: nat)
    requires p <= end <= |input.bytes| && NthHit(input, p, end, 1, At(x))
    ensures input.Edge(x) && LinesTo(input, x) == LinesTo(input, p) + 1
  {
  }

  lemma SameLine(input: Input, p: nat, end: nat)
    requires p < end < |input.bytes| && NthHit(input, p, end, 1, Fewer)
    ensures LinesTo(input, end) == LinesTo(input, p)
  {
    input.CountMono(p, end);
  }

  /** Without a delimiter before a record end, that end is the stream's, and what
      lies before it is its unterminated last line. */
  lemma TailLine(input: Input, p: nat, end: nat)
    requires p < end <= |input.bytes| && RecordEnd(input, end) && NthHit(input, p, end, 1, Fewer)
    ensures end == |input.bytes| && LinesTo(input, end) == LinesTo(input, p) + 1
  {
    input.CountMono(p, end);
    input.CountSame(p, end, end - 1);
  }

  /** If the rest of the chunk is in the buffer, or one read away, the byte cap
      cuts between records. */
  lemma {:induction false} CapBetweenRecords(input: Input, batchStart: nat, chunkEnd: nat, window: nat, target: nat,
                                             bytesMax: nat, p: nat, end: nat, found: nat)
    requires batchStart <= p <= end <= chunkEnd <= |input.bytes| && window > 0 && input.Edge(p)
    requires end == chunkEnd || (p == end && chunkEnd - p <= window)
    ensures var g := Gathered(input, batchStart, chunkEnd, window, target, bytesMax, p, end, found);
      (g.capped ==> input.Edge(g.p)) && (p < chunkEnd && found < target ==> g.end == chunkEnd)
    decreases chunkEnd - p, chunkEnd - end
  {
    hide Input.Count, FirstHit;
    if found < target {
      if p >= end {
        var toRead := if p + window > chunkEnd then chunkEnd - p else window;
        if toRead > 0 {
          CapBetweenRecords(input, batchStart, chunkEnd, window, target, bytesMax, p, p + toRead, found);
        }
      } else {
        match FirstHit(input, p, end)
        case At(x) =>
          CapBetweenRecords(input, batchStart, chunkEnd, window, target, bytesMax, x, end, found + 1);
        case Fewer =>
      }
    }
  }

  /** Reads end at `end` and every `window` bytes after it. */
  predicate ReadAt(end: nat, window: nat, w: nat)
    requires window > 0
    decreases w
  {
    w == end || (w >= end + window && ReadAt(end, window, w - window))
  }

  /** No read ends between two consecutive ones. */
  lemma {:induction false} ReadGap(end: nat, window: nat, a: nat, w: nat)
    requires window > 0 && ReadAt(end, window, a) && ReadAt(end, window, w) && a < w
    ensures w >= a + window
    decreases w
  {
    if a >= end + window { ReadGap(end, window, a - window, w - window); }
  }

  /** Record number j of the batch begun at p0 ends at x, and is over the cap. */
  ghost predicate Over(input: Input, batchStart: nat, bytesMax: nat, p0: nat, j: nat, x: nat)
    requires p0 <= |input.bytes|
  {
    input.EdgeOf(x, input.Count(p0) + j) && (x - batchStart) + j * 8 > bytesMax > 0
  }

  /** A scan never passes a record over the cap, other than the first. */
  lemma {:induction false} StopsAtOver(input: Input, batchStart: nat, chunkEnd: nat, window: nat, target: nat,
                                       bytesMax: nat, p0: nat, p: nat, end: nat, found: nat, j: nat, x: nat)
    requires batchStart <= p0 <= p <= end <= chunkEnd <= |input.bytes| && window > 0
    requires input.Count(p) == input.Count(p0) + found && found < j && 1 < j <= target && x <= chunkEnd
    requires Over(input, batchStart, bytesMax, p0, j, x)
    ensures var g := Gathered(input, batchStart, chunkEnd, window, target, bytesMax, p, end, found);
      g.capped && g.found < j
    decreases chunkEnd - p, chunkEnd - end
  {
    input.EdgeOrder(x, p);
    if p == end {
      var e := if p + window > chunkEnd then chunkEnd else p + window;
      StopsAtOver(input, batchStart, chunkEnd, window, target, bytesMax, p0, p, e, found, j, x);
    } else {
      input.EdgeOrder(x, end);
      var hit := FirstHit(input, p, end);
      hide FirstHit;
      if hit.At? {
        if found + 1 < j {
          StopsAtOver(input, batchStart, chunkEnd, window, target, bytesMax, p0, hit.pos, end, found + 1, j, x);
        } else {
          input.EdgeUnique(x, hit.pos, input.Count(p0) + j);
        }
      } else {
        input.CountMono(p, end);
        StopsAtOver(input, batchStart, chunkEnd, window, target, bytesMax, p0, end, end, found, j, x);
      }
    }
  }

  /** Mid-scan of a batch begun at p0 with the buffer filled up to end0: the scan
      stands at an edge or where a read ended, if it has found a record, and no
      read ended since. */
  ghost predicate MidScan(input: Input, window: nat, p0: nat, end0: nat, chunkEnd: nat, p: nat, end: nat, found: nat)
    requires chunkEnd <= |input.bytes| && window > 0
  {
    && p0 <= p <= end <= chunkEnd && input.Count(p) == input.Count(p0) + found
    && (found > 0 ==> input.Edge(p) || ReadAt(end0, window, p)) && (end == chunkEnd || ReadAt(end0, window, end))
    && forall w: nat :: ReadAt(end0, window, w) && p < w ==> w >= end
  }

  /** The next record is over the cap. */
  ghost predicate NextOver(input: Input, batchStart: nat, bytesMax: nat, p0: nat, g: Got)
    requires p0 <= |input.bytes|
  {
    g.p <= g.end <= |input.bytes| && FirstHit(input, g.p, g.end).At?
    && Over(input, batchStart, bytesMax, p0, g.found + 1, FirstHit(input, g.p, g.end).pos)
  }

  lemma {:induction false} MidScanCut(input: Input, batchStart: nat, chunkEnd: nat, window: nat, target: nat,
                                      bytesMax: nat, p0: nat, end0: nat, p: nat, end: nat, found: nat)
    requires batchStart <= p0 && chunkEnd <= |input.bytes| && window > 0
    requires MidScan(input, window, p0, end0, chunkEnd, p, end, found)
    ensures var g := Gathered(input, batchStart, chunkEnd, window, target, bytesMax, p, end, found);
      g.capped ==> MidScan(input, window, p0, end0, chunkEnd, g.p, g.end, g.found) && 0 < g.found < target
                   && NextOver(input, batchStart, bytesMax, p0, g)
    decreases chunkEnd - p, chunkEnd - end
  {
    if found < target {
      if p == end {
        if end < chunkEnd {
          var e := if p + window > chunkEnd then chunkEnd else p + window;
          MidScanRead(input, window, p0, end0, chunkEnd, p, found, e);
          MidScanCut(input, batchStart, chunkEnd, window, target, bytesMax, p0, end0, p, e, found);
        }
      } else {
        var hit := FirstHit(input, p, end);
        MidScanMoves(input, window, p0, end0, chunkEnd, p, end, found);
        hide FirstHit, ReadAt, MidScan, Input.Count, Input.Edge;
        if hit.At? {
          MidScanCut(input, batchStart, chunkEnd, window, target, bytesMax, p0, end0, hit.pos, end, found + 1);
        } else if end < chunkEnd {
          MidScanCut(input, batchStart, chunkEnd, window, target, bytesMax, p0, end0, end, end, found);
        }
      }
    }
  }

  /** On to the next record, or past the part of it that has been read. */
  lemma MidScanMoves(input: Input, window: nat, p0: nat, end0: nat, chunkEnd: nat, p: nat, end: nat, found: nat)
    requires chunkEnd <= |input.bytes| && window > 0 && p < end
    requires MidScan(input, window, p0, end0, chunkEnd, p, end, found)
    ensures var hit := FirstHit(input, p, end);
      && (hit.At? ==> MidScan(input, window, p0, end0, chunkEnd, hit.pos, end, found + 1)
                      && input.EdgeOf(hit.pos, input.Count(p0) + (found + 1)))
      && (hit.Fewer? && end < chunkEnd ==> MidScan(input, window, p0, end0, chunkEnd, end, end, found))
  {
    input.CountMono(p, end);
    hide FirstHit, ReadAt;
  }

  lemma MidScanRead(input: Input, window: nat, p0: nat, end0: nat, chunkEnd: nat, p: nat, found: nat, e: nat)
    requires chunkEnd <= |input.bytes| && window > 0 && p < chunkEnd
    requires MidScan(input, window, p0, end0, chunkEnd, p, p, found)
    requires e == if p + window > chunkEnd then chunkEnd else p + window
    ensures MidScan(input, window, p0, end0, chunkEnd, p, e, found)
  {
    forall w: nat | ReadAt(end0, window, w) && p < w ensures w >= p + window { ReadGap(end0, window, p, w); }
    ReadLater(end0, window, p);
  }

  lemma {:induction false} ReadLater(end: nat, window: nat, w: nat)
    requires window > 0 && ReadAt(end, window, w)
    ensures w >= end && ReadAt(end, window, w + window)
    decreases w
  {
    if w >= end + window { ReadLater(end, window, w - window); }
  }

  /** A read ends inside the record [ls, x). */
  ghost predicate ReadInside(end: nat, window: nat, ls: nat, x: nat)
    requires window > 0
  {
    exists w: nat :: ls < w < x && ReadAt(end, window, w)
  }

  /** The byte cap exactly.  A batch is cut by it if and only if one of the records
      it could still take, not its first, is over the cap.  The cut is before the
      first such record [ls, x), and inside it if and only if a read ends inside
      it; then the cut is where the last such read ended. */
  lemma CapExact(input: Input, batchStart: nat, chunkEnd: nat, window: nat, target: nat, bytesMax: nat, p: nat,
                 end: nat)
    returns (ls: nat, x: nat)
    requires batchStart <= p <= end <= chunkEnd <= |input.bytes| && window > 0
    ensures var g := Gathered(input, batchStart, chunkEnd, window, target, bytesMax, p, end, 0);
      && (g.capped
          <==> exists j: nat, y: nat :: 1 < j <= target && y <= chunkEnd && Over(input, batchStart, bytesMax, p, j, y))
      && (g.capped ==>
            && 0 < g.found < target && ls <= g.p < x <= chunkEnd
            && input.EdgeOf(ls, input.Count(p) + g.found) && Over(input, batchStart, bytesMax, p, g.found + 1, x)
            && (forall j: nat, y: nat :: 1 < j <= g.found && y <= chunkEnd ==>
                !Over(input, batchStart, bytesMax, p, j, y))
            && (!input.Edge(g.p) <==> ReadInside(end, window, ls, x))
            && (g.p == ls || ReadAt(end, window, g.p)) && !ReadInside(end, window, g.p, x))
  {
    var g := Gathered(input, batchStart, chunkEnd, window, target, bytesMax, p, end, 0);
    ls, x := 0, 0;
    MidScanStart(input, window, p, end, chunkEnd);
    MidScanCut(input, batchStart, chunkEnd, window, target, bytesMax, p, end, p, end, 0);
    hide Gathered, FirstHit, Over;
    forall j: nat, y: nat | 1 < j <= target && y <= chunkEnd && Over(input, batchStart, bytesMax, p, j, y)
      ensures g.capped && g.found < j
    {
      StopsAtOver(input, batchStart, chunkEnd, window, target, bytesMax, p, p, end, 0, j, y);
    }
    if g.capped {
      x := FirstHit(input, g.p, g.end).pos;
      ls := input.LastEdge(g.p);
      CutWhere(input, window, p, end, chunkEnd, g.p, g.end, g.found, ls, x);
    }
  }

  lemma MidScanStart(input: Input, window: nat, p: nat, end: nat, chunkEnd: nat)
    requires p <= end <= chunkEnd <= |input.bytes| && window > 0
    ensures MidScan(input, window, p, end, chunkEnd, p, end, 0)
  {
    forall w: nat | ReadAt(end, window, w) ensures w >= end { ReadLater(end, window, w); }
  }

  lemma CutWhere(input: Input, window: nat, p0: nat, end0: nat, chunkEnd: nat, p: nat, end: nat, found: nat, ls: nat,
                 x: nat)
    requires chunkEnd <= |input.bytes| && window > 0 && MidScan(input, window, p0, end0, chunkEnd, p, end, found)
    requires found > 0 && ls == input.LastEdge(p) && p < x <= end
    ensures !input.Edge(p) <==> ReadInside(end0, window, ls, x)
    ensures (p == ls || ReadAt(end0, window, p)) && !ReadInside(end0, window, p, x)
  {
    hide ReadAt, Input.LastEdge;
    if input.Edge(p) { input.EdgeUnique(ls, p, input.Count(p)); }
  }

  /** A record of one byte before a read ends, and one of two around that end. */
  function CutInput(window: nat): Input
    requires window >= 2
  {
    Input([98, 10] + seq(window - 2, _ => 98) + [10, 98, 10], 10)
  }

  lemma {:induction false} CutCounts(window: nat, x: nat)
    requires window >= 2 && x <= window + 3
    ensures var input := CutInput(window);
      && |input.bytes| == window + 3
      && input.Count(x) == (if x < 2 then 0 else if x <= window then 1 else if x < window + 3 then 2 else 3)
      && (input.Mark(x) <==> x in {1, window, window + 2})
  {
    if x > 0 { CutCounts(window, x - 1); }
  }

  /** Whatever the window, there are records the cap cuts: the chunk
      [2, window + 3) of this input has two, and the batch of the first ends
      inside the second. */
  lemma CapCutsRecord(window: nat, target: nat, bytesMax: nat)
    requires window >= 2 && target >= 2 && 0 < bytesMax < window + 17
    ensures var input, g := CutInput(window),
      Gathered(CutInput(window), 2, window + 3, window, target, bytesMax, 2, 2, 0);
      g.capped && g.found == 1 && g.p == window + 2 && !input.Edge(g.p) && RecordEnd(input, window + 3)
  {
    var input := CutInput(window);
    CutCounts(window, 1);
    CutCounts(window, 2);
    CutCounts(window, window);
    CutCounts(window, window + 1);
    CutCounts(window, window + 2);
    CutCounts(window, window + 3);
    hide Gathered, Input.Count, CutInput;
    assert Over(input, 2, bytesMax, 2, 2, window + 3);
    var ls, x := CapExact(input, 2, window + 3, window, target, bytesMax, 2, 2);
    var g := Gathered(input, 2, window + 3, window, target, bytesMax, 2, 2, 0);
    assert g.found == 1;
    input.EdgeUnique(ls, window + 1, 2);
    input.EdgeUnique(x, window + 3, 3);
    assert ReadAt(2, window, 2 + window);
    assert ReadInside(2, window, ls, x);
  }

  /** How far the vector shortcut may look without risking the byte cap. */
  function SafeEnd(bytesMax: nat, target: nat, batchStart: nat, p: nat, end: nat): (e: nat)
    requires batchStart <= p <= end
    ensures p <= e <= end
    ensures bytesMax > 0 && e > p ==> e - batchStart + (target + 1) * 8 <= bytesMax
  {
    if bytesMax == 0 then end
    else if bytesMax <= (target + 1) * 8 then p
    else
      var maxPayload := bytesMax - (target + 1) * 8;
      if p - batchStart >= maxPayload then p
      else if maxPayload - (p - batchStart) < end - p then p + (maxPayload - (p - batchStart))
      else end
  }

  /** A jump that succeeds below the safe end is what line by line would do. */
  lemma {:induction false} JumpAgrees(input: Input, batchStart: nat, chunkEnd: nat, window: nat, target: nat,
                                      bytesMax: nat, p: nat, end: nat, found: nat, safeEnd: nat, x: nat)
    requires batchStart <= p <= safeEnd <= end <= chunkEnd <= |input.bytes| && window > 0 && found <= target
    requires bytesMax > 0 ==> safeEnd - batchStart + (target + 1) * 8 <= bytesMax
    requires if found < target then NthHit(input, p, safeEnd, target - found, At(x)) else x == p
    ensures Gathered(input, batchStart, chunkEnd, window, target, bytesMax, p, end, found) == Got(target, x, end, false)
    decreases chunkEnd - p
  {
    if found < target {
      FirstBefore(input, p, end, safeEnd, target - found, x);
      var y := FirstHit(input, p, end).pos;
      hide Input.Count, FirstHit;
      JumpAgrees(input, batchStart, chunkEnd, window, target, bytesMax, y, end, found + 1, safeEnd, x);
    }
  }

  lemma FirstBefore(input: Input, p: nat, end: nat, safeEnd: nat, n: nat, x: nat)
    requires p <= safeEnd <= end <= |input.bytes| && n > 0 && NthHit(input, p, safeEnd, n, At(x))
    ensures var h := FirstHit(input, p, end);
      h.At? && p < h.pos <= x && if n > 1 then NthHit(input, h.pos, safeEnd, n - 1, At(x)) else x == h.pos
  {
    input.CountMono(x, end);
    var h := FirstHit(input, p, end);
    input.EdgeOrder(x, h.pos);
    input.EdgeOrder(h.pos, x);
    if n == 1 { input.EdgeUnique(x, h.pos, input.Count(x)); }
  }

  /** The scan of one round: the vector jump if it is available and safe,
      otherwise line by line over as many reads as it takes. */
  method Gather(input: Input, batchStart: nat, chunkEnd: nat, window: nat, target: nat, bytesMax: nat,
                p0: nat, end0: nat, simd: Simd)
    returns (found: nat, p: nat, end: nat, capped: bool)
    requires batchStart <= p0 <= end0 <= chunkEnd <= |input.bytes| && window > 0 && target > 0
    ensures Got(found, p, end, capped) == Gathered(input, batchStart, chunkEnd, window, target, bytesMax, p0, end0, 0)
  {
    var safeEnd := SafeEnd(bytesMax, target, batchStart, p0, end0);
    var hit := TrySimdScan(simd, input, p0, safeEnd, target);
    if hit.At? {
      JumpAgrees(input, batchStart, chunkEnd, window, target, bytesMax, p0, end0, 0, safeEnd, hit.pos);
      return target, hit.pos, end0, false;
    }
    found, p, end, capped := LineByLine(input, batchStart, chunkEnd, window, target, bytesMax, p0, end0);
  }

  /** The scan of one round without the jump. */
  method LineByLine(input: Input, batchStart: nat, chunkEnd: nat, window: nat, target: nat, bytesMax: nat, p0: nat,
                    end0: nat)
    returns (found: nat, p: nat, end: nat, capped: bool)
    requires batchStart <= p0 <= end0 <= chunkEnd <= |input.bytes| && window > 0
    ensures Got(found, p, end, capped) == Gathered(input, batchStart, chunkEnd, window, target, bytesMax, p0, end0, 0)
  {
    found, p, end, capped := 0, p0, end0, false;
    hide FirstHit, NthHit;
    while found < target
      invariant batchStart <= p <= end <= chunkEnd && !capped
      invariant Gathered(input, batchStart, chunkEnd, window, target, bytesMax, p, end, found)
             == Gathered(input, batchStart, chunkEnd, window, target, bytesMax, p0, end0, 0)
      decreases chunkEnd - p, chunkEnd - end
    {
      if p >= end {
        var toRead := if p + window > chunkEnd then chunkEnd - p else window;
        if toRead == 0 { break; }
        end := p + toRead;
      }
      var hit := FindFirst(input, p, end);
      if hit.At? {
        if bytesMax > 0 && found > 0 && (hit.pos - batchStart) + (found + 1) * 8 > bytesMax {
          capped := true;
          break;
        }
        found, p := found + 1, hit.pos;
      } else {
        if end >= chunkEnd {
          found, p := found + 1, end;
          break;
        }
        p := end;
      }
    }
  }

  /** memchr. */
  method FindFirst(input: Input, p: nat, end: nat) returns (hit: Hit)
    requires p <= end <= |input.bytes|
    ensures hit == FirstHit(input, p, end) && (hit.At? ==> p < hit.pos <= end)
  {
    var x := p;
    while x < end
      invariant p <= x <= end && FirstHit(input, x, end) == FirstHit(input, p, end)
    {
      if input.bytes[x] == input.delim { return At(x + 1); }
      x := x + 1;
    }
    hit := Fewer;
  }
}
