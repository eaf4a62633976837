/** Checkpoint and resume: dumping the completion ledger, reading it back, and
    the scanner's filter that keeps completed input from being published again. */
module Resume {
  import opened MinHeap
  import opened Coalescer
  import opened Stream

  /** How many islands the shared ledger has room for. */
  const SLOTS: nat := 1024

  ghost predicate Covers(q: seq<Interval>, b: nat) {
    exists k :: 0 <= k < |q| && Within(q[k], b)
  }

  ghost predicate SortedByStart(q: seq<Interval>) {
    forall j, k :: 0 <= j < k < |q| ==> q[j].s <= q[k].s
  }

  /** Disjoint and not even touching, in order. */
  ghost predicate Separated(q: seq<Interval>) {
    forall j, k :: 0 <= j < k < |q| ==> q[j].e < q[k].s
  }

  ghost predicate Proper(q: seq<Interval>) {
    forall k :: 0 <= k < |q| ==> q[k].s < q[k].e
  }

  ghost predicate Forward(q: seq<Interval>) {
    forall k :: 0 <= k < |q| ==> q[k].s <= q[k].e
  }

  lemma CoversAppend(q: seq<Interval>, i: Interval, b: nat)
    ensures Covers(q + [i], b) <==> Covers(q, b) || Within(i, b)
  {
    var more := q + [i];
    assert more[|q|] == i;
    if Covers(q, b) {
      var k :| 0 <= k < |q| && Within(q[k], b);
      assert more[k] == q[k];
    }
  }

  /** Two touching intervals as one. */
  lemma MergeCovers(q: seq<Interval>, last: Interval, i: Interval, b: nat)
    requires last.s <= i.s <= last.e
    ensures Covers(q + [Interval(last.s, if i.e > last.e then i.e else last.e)], b)
       <==> Covers(q + [last], b) || Within(i, b)
  {
    CoversAppend(q, last, b);
    CoversAppend(q, Interval(last.s, if i.e > last.e then i.e else last.e), b);
  }

  /** State of the collapse after the sorted prefix `done`. */
  ghost predicate Collapsed(done: seq<Interval>, q: seq<Interval>) {
    && (forall b: nat :: Covers(q, b) <==> Covers(done, b))
    && Separated(q) && Forward(q)
    && |q| <= |done| && (q != [] <==> done != [])
    && (done != [] ==> q[|q| - 1].s <= done[|done| - 1].s)
  }

  lemma CollapseMerges(done: seq<Interval>, q: seq<Interval>, i: Interval)
    requires q != [] && Collapsed(done, q) && done[|done| - 1].s <= i.s <= q[|q| - 1].e && i.s <= i.e
    ensures var last := q[|q| - 1];
      Collapsed(done + [i], q[..|q| - 1] + [Interval(last.s, if i.e > last.e then i.e else last.e)])
  {
    var n := |q| - 1;
    assert q == q[..n] + [q[n]];
    hide Covers;
    var merged := q[..n] + [Interval(q[n].s, if i.e > q[n].e then i.e else q[n].e)];
    forall b: nat ensures Covers(merged, b) <==> Covers(done + [i], b) {
      MergeCovers(q[..n], q[n], i, b);
      CoversAppend(done, i, b);
    }
  }

  lemma CollapseExtends(done: seq<Interval>, q: seq<Interval>, i: Interval)
    requires Collapsed(done, q) && (q != [] ==> q[|q| - 1].e < i.s) && i.s <= i.e
    ensures Collapsed(done + [i], q + [i])
  {
    hide Covers;
    forall b: nat ensures Covers(q + [i], b) <==> Covers(done + [i], b) {
      CoversAppend(q, i, b);
      CoversAppend(done, i, b);
    }
    ChainBelow(q, i);
  }

  lemma ChainBelow(q: seq<Interval>, i: Interval)
    requires Separated(q) && Forward(q) && (q != [] ==> q[|q| - 1].e < i.s)
    ensures Separated(q + [i])
  {
    var n := |q| - 1;
    forall k | 0 <= k < |q| ensures q[k].e < i.s {
      if k < n { assert q[k].e < q[n].s; }
    }
  }

  /** The collapse loop of the checkpoint dump, over the sorted snapshot. */
  method Collapse(sorted: seq<Interval>) returns (collapsed: seq<Interval>)
    requires SortedByStart(sorted) && Forward(sorted)
    ensures |collapsed| <= |sorted| && forall b: nat :: Covers(collapsed, b) <==> Covers(sorted, b)
    ensures Separated(collapsed) && Forward(collapsed)
  {
    collapsed := [];
    if |sorted| == 0 { return; }
    CollapseExtends([], [], sorted[0]);
    collapsed := [sorted[0]];
    assert [] + [sorted[0]] == [sorted[0]] == sorted[..1];
    hide Covers;
    for i := 1 to |sorted|
      invariant Collapsed(sorted[..i], collapsed)
    {
      var last := collapsed[|collapsed| - 1];
      assert sorted[..i + 1] == sorted[..i] + [sorted[i]];
      if sorted[i].s <= last.e {
        CollapseMerges(sorted[..i], collapsed, sorted[i]);
        var joined := Interval(last.s, if sorted[i].e > last.e then sorted[i].e else last.e);
        collapsed := collapsed[..|collapsed| - 1] + [joined];
      } else {
        CollapseExtends(sorted[..i], collapsed, sorted[i]);
        collapsed := collapsed + [sorted[i]];
      }
    }
    assert sorted[..|sorted|] == sorted;
  }

  /** Outcome of the filter for one batch. */
  datatype Filtered = Skipped | Kept(s: nat, e: nat)

  /** What a checkpoint declares complete. */
  ghost predicate Done(horizon: nat, islands: seq<Interval>, b: nat) {
    b < horizon || Covers(islands, b)
  }

  /** The scanner's resume filter for the batch [start, end): what of it is
      published, and where it leaves batch_start. */
  method Filter(start: nat, end: nat, horizon: nat, islands: seq<Interval>) returns (r: Filtered, moved: nat)
    ensures r == FilterSpec(start, end, horizon, islands)
    ensures moved == MovedStart(start, end, horizon, islands)
  {
    var e: nat := end;
    moved := start;
    if moved < horizon {
      if e <= horizon { return Skipped, moved; }
      moved := horizon;
    }
    ghost var s := moved;
    for i := 0 to |islands|
      invariant IslandFilter(moved, e, islands, i) == IslandFilter(s, end, islands, 0)
      invariant IslandStart(moved, e, islands, i) == IslandStart(s, end, islands, 0)
    {
      if islands[i].s <= moved < islands[i].e {
        if e <= islands[i].e { return Skipped, moved; }
        moved := islands[i].e;
      } else if moved < islands[i].s && e > islands[i].s {
        return Kept(moved, islands[i].s), moved;
      }
    }
    r := Kept(moved, e);
  }

  function FilterSpec(start: nat, end: nat, horizon: nat, islands: seq<Interval>): Filtered {
    if start < horizon then
      if end <= horizon then Skipped else IslandFilter(horizon, end, islands, 0)
    else IslandFilter(start, end, islands, 0)
  }

  function IslandFilter(s: nat, e: nat, islands: seq<Interval>, i: nat): Filtered
    requires i <= |islands|
    decreases |islands| - i
  {
    if i == |islands| then Kept(s, e)
    else if islands[i].s <= s < islands[i].e then
      if e <= islands[i].e then Skipped else IslandFilter(islands[i].e, e, islands, i + 1)
    else if s < islands[i].s && e > islands[i].s then Kept(s, islands[i].s)
    else IslandFilter(s, e, islands, i + 1)
  }

  /** Islands as a dump leaves them and a load takes them back. */
  ghost predicate Loaded(islands: seq<Interval>) {
    Separated(islands) && Proper(islands)
  }

  /** The island whose start cuts the batch, if any, and otherwise |islands|. */
  function CutBy(s: nat, e: nat, islands: seq<Interval>, i: nat): (k: nat)
    requires i <= |islands|
    ensures i <= k <= |islands|
    decreases |islands| - i
  {
    if i == |islands| then i
    else if islands[i].s <= s < islands[i].e then
      if e <= islands[i].e then |islands| else CutBy(islands[i].e, e, islands, i + 1)
    else if s < islands[i].s && e > islands[i].s then i
    else CutBy(s, e, islands, i + 1)
  }

  /** The first i islands and [s, e) have no byte in common. */
  ghost predicate Clear(s: nat, e: nat, islands: seq<Interval>, i: nat)
    requires i <= |islands|
  {
    forall k :: 0 <= k < i ==> islands[k].e <= s || e <= islands[k].s
  }

  /** What is kept of a batch lies inside it and meets no island. */
  lemma {:induction false} KeptIsClear(s: nat, e: nat, islands: seq<Interval>, i: nat)
    requires Loaded(islands) && i <= |islands| && s <= e && Clear(s, e, islands, i)
    ensures var r := IslandFilter(s, e, islands, i);
      r.Kept? ==> s <= r.s <= r.e <= e && Clear(r.s, r.e, islands, |islands|)
    decreases |islands| - i
  {
    if i < |islands| {
      if islands[i].s <= s < islands[i].e {
        if e > islands[i].e { KeptIsClear(islands[i].e, e, islands, i + 1); }
      } else if !(s < islands[i].s && e > islands[i].s) {
        KeptIsClear(s, e, islands, i + 1);
      }
    }
  }

  /** What is dropped of a batch is complete, but for the rest behind a cut. */
  lemma {:induction false} DroppedIsDone(s: nat, e: nat, islands: seq<Interval>, i: nat, b: nat)
    requires i <= |islands| && s <= b < e
    ensures var r, c := IslandFilter(s, e, islands, i), CutBy(s, e, islands, i);
      && (r.Skipped? ==> Covers(islands, b) && c == |islands|)
      && (r.Kept? && b < r.s ==> Covers(islands, b))
      && (r.Kept? ==> r.e == if c < |islands| then islands[c].s else e)
      && (c < |islands| ==> r.Kept? && r.s < islands[c].s < e)
    decreases |islands| - i
  {
    if i < |islands| {
      if islands[i].s <= s < islands[i].e {
        assert b < islands[i].e ==> Within(islands[i], b);
        if e > islands[i].e {
          DroppedIsDone(islands[i].e, e, islands, i + 1, if b < islands[i].e then islands[i].e else b);
        }
      } else if !(s < islands[i].s && e > islands[i].s) {
        DroppedIsDone(s, e, islands, i + 1, b);
      }
    }
  }

  ghost predicate Publishes(f: Filtered, b: nat) {
    f.Kept? && f.s <= b < f.e
  }

  /** The filter cut this batch short of its end at an island, and the batch
      reaches beyond that island.  A caller can tell before publishing. */
  predicate Torn(start: nat, end: nat, horizon: nat, islands: seq<Interval>) {
    var s := if start < horizon then horizon else start;
    s < end && var c := CutBy(s, end, islands, 0); c < |islands| && islands[c].e < end
  }

  /** Nothing complete is published again. */
  lemma FilterAvoids(start: nat, end: nat, horizon: nat, islands: seq<Interval>, b: nat)
    requires Loaded(islands) && start <= end && Publishes(FilterSpec(start, end, horizon, islands), b)
    ensures start <= b < end && !Done(horizon, islands, b)
  {
    KeptIsClear(if start < horizon then horizon else start, end, islands, 0);
  }

  /** Of an untorn batch every byte is complete or published. */
  lemma FilterCovers(start: nat, end: nat, horizon: nat, islands: seq<Interval>, b: nat)
    requires Loaded(islands) && start <= b < end && !Torn(start, end, horizon, islands)
    ensures Done(horizon, islands, b) || Publishes(FilterSpec(start, end, horizon, islands), b)
  {
    var s := if start < horizon then horizon else start;
    if b >= horizon {
      DroppedIsDone(s, end, islands, 0, b);
      var c := CutBy(s, end, islands, 0);
      if c < |islands| && islands[c].s <= b { assert Within(islands[c], b); }
    }
  }

  /** Of a torn batch the byte behind the island is lost. */
  lemma TornLoses(start: nat, end: nat, horizon: nat, islands: seq<Interval>) returns (b: nat)
    requires Loaded(islands) && start <= end && Torn(start, end, horizon, islands)
    ensures start <= b < end && !Done(horizon, islands, b) && !Publishes(FilterSpec(start, end, horizon, islands), b)
  {
    var s := if start < horizon then horizon else start;
    var c := CutBy(s, end, islands, 0);
    DroppedIsDone(s, end, islands, 0, s);
    KeptIsClear(s, end, islands, 0);
    b := islands[c].e;
    JustBehind(islands, c);
  }

  lemma JustBehind(islands: seq<Interval>, c: nat)
    requires Loaded(islands) && c < |islands|
    ensures !Covers(islands, islands[c].e)
  {
    forall k | 0 <= k < |islands| ensures !Within(islands[k], islands[c].e) {
      if k < c { assert islands[k].e < islands[c].s; }
      if k > c { assert islands[c].e < islands[k].s; }
    }
  }

  /** Bytes the resumed run publishes, over all its batches. */
  ghost predicate Republished(fs: seq<Flush>, horizon: nat, islands: seq<Interval>, b: nat) {
    exists k :: 0 <= k < |fs| && PublishedBy(fs[k], horizon, islands, b)
  }

  ghost predicate PublishedBy(f: Flush, horizon: nat, islands: seq<Interval>, b: nat) {
    f.start <= f.end && Publishes(FilterSpec(f.start, f.end, horizon, islands), b)
  }

  /** The resumed run never publishes a completed byte, and no byte twice. */
  lemma ResumeNeverRepeats(fs: seq<Flush>, total: nat, horizon: nat, islands: seq<Interval>, j: nat, k: nat, b: nat)
    requires Loaded(islands) && Tiles(fs, 0, total) && j < |fs| && k < |fs|
    requires PublishedBy(fs[j], horizon, islands, b) && PublishedBy(fs[k], horizon, islands, b)
    ensures j == k && !Done(horizon, islands, b) && b < total
  {
    FilterAvoids(fs[j].start, fs[j].end, horizon, islands, b);
    FilterAvoids(fs[k].start, fs[k].end, horizon, islands, b);
    TilesOnce(fs, 0, total, j, k, b);
    TilesInside(fs, 0, total, j);
  }

  /** Completed and republished input together are everything exactly when no
      batch is torn. */
  lemma ResumeCoversIff(fs: seq<Flush>, total: nat, horizon: nat, islands: seq<Interval>)
    requires Loaded(islands) && Tiles(fs, 0, total)
    ensures (forall b: nat :: b < total ==> Done(horizon, islands, b) || Republished(fs, horizon, islands, b))
       <==> (forall k :: 0 <= k < |fs| ==> !Torn(fs[k].start, fs[k].end, horizon, islands))
  {
    if k: nat :| k < |fs| && Torn(fs[k].start, fs[k].end, horizon, islands) {
      var b := TornIsLost(fs, total, horizon, islands, k);
      assert b < total && !Done(horizon, islands, b) && !Republished(fs, horizon, islands, b);
    } else {
      forall b: nat | b < total ensures Done(horizon, islands, b) || Republished(fs, horizon, islands, b) {
        var k := TilesFind(fs, 0, total, b);
        FilterCovers(fs[k].start, fs[k].end, horizon, islands, b);
        assert PublishedBy(fs[k], horizon, islands, b) ==> Republished(fs, horizon, islands, b);
      }
    }
  }

  lemma TornIsLost(fs: seq<Flush>, total: nat, horizon: nat, islands: seq<Interval>, k: nat) returns (b: nat)
    requires Loaded(islands) && Tiles(fs, 0, total) && k < |fs|
    requires Torn(fs[k].start, fs[k].end, horizon, islands)
    ensures b < total && !Done(horizon, islands, b) && !Republished(fs, horizon, islands, b)
  {
    TilesInside(fs, 0, total, k);
    b := TornLoses(fs[k].start, fs[k].end, horizon, islands);
    forall j | 0 <= j < |fs| ensures !PublishedBy(fs[j], horizon, islands, b) {
      if PublishedBy(fs[j], horizon, islands, b) {
        FilterAvoids(fs[j].start, fs[j].end, horizon, islands, b);
        TilesOnce(fs, 0, total, j, k, b);
      }
    }
  }

  /** A concrete loss: bytes 7 to 9 of the batch [0, 10) are neither complete nor
      published when [5, 7) is an island. */
  lemma TornBatch()
    ensures Torn(0, 10, 0, [Interval(5, 7)]) && FilterSpec(0, 10, 0, [Interval(5, 7)]) == Kept(0, 5)
    ensures !Done(0, [Interval(5, 7)], 7)
  {
    JustBehind([Interval(5, 7)], 0);
    assert CutBy(0, 10, [Interval(5, 7)], 0) == 0;
  }

  /** The islands the ledger publishes: the first slots of the heap's table. */
  function Jagged(q: seq<Node<nat>>): (r: seq<Interval>)
    ensures |r| == (if |q| < SLOTS then |q| else SLOTS)
    ensures forall k :: 0 <= k < |r| ==> r[k] == Interval(q[k].key, q[k].value)
  {
    seq(if |q| < SLOTS then |q| else SLOTS, k requires 0 <= k < |q| => Interval(q[k].key, q[k].value))
  }

  /** Published horizon and islands are complete input, and all of it as long as
      the islands fit. */
  lemma JaggedExact(from: nat, reported: seq<Interval>, limit: nat, q: seq<Node<nat>>, b: nat)
    requires Exact(from, reported, limit, multiset(q))
    ensures Done(limit, Jagged(q), b) ==> Reported(from, reported, b)
    ensures |q| <= SLOTS && Reported(from, reported, b) ==> Done(limit, Jagged(q), b)
  {
    var r := Jagged(q);
    if Covers(r, b) {
      var k :| 0 <= k < |r| && Within(r[k], b);
      assert q[k] in multiset(q);
      assert Heaped(multiset(q), b);
    }
    if |q| <= SLOTS && Heaped(multiset(q), b) {
      var n :| n in multiset(q) && n.key <= b < n.value;
      var k :| 0 <= k < |q| && q[k] == n;
      assert Within(r[k], b);
    }
  }

  /** Reading a dump back: empty intervals and those past the table are dropped. */
  method Load(dump: seq<Interval>) returns (islands: seq<Interval>)
    requires Separated(dump)
    ensures Loaded(islands) && |islands| <= SLOTS
    ensures forall b: nat :: Covers(islands, b) ==> Covers(dump, b)
    ensures |dump| <= SLOTS ==> forall b: nat :: Covers(dump, b) ==> Covers(islands, b)
  {
    islands := [];
    var i := 0;
    while i < |dump| && |islands| < SLOTS
      invariant 0 <= i <= |dump| && |islands| <= i && |islands| <= SLOTS && Loaded(islands)
      invariant islands != [] ==> exists k :: 0 <= k < i && islands[|islands| - 1] == dump[k]
      invariant forall b: nat :: Covers(islands, b) <==> Covers(dump[..i], b)
    {
      var more := LoadOne(dump, islands, i);
      islands := more;
      i := i + 1;
    }
    assert dump[..|dump|] == dump;
    PrefixCovers(dump, i);
  }

  lemma PrefixCovers(q: seq<Interval>, i: nat)
    requires i <= |q|
    ensures forall b: nat :: Covers(q[..i], b) ==> Covers(q, b)
  {
    forall b: nat | Covers(q[..i], b) ensures Covers(q, b) {
      var k :| 0 <= k < i && Within(q[..i][k], b);
      assert q[k] == q[..i][k];
    }
  }

  method LoadOne(dump: seq<Interval>, islands: seq<Interval>, i: nat) returns (more: seq<Interval>)
    requires Separated(dump) && i < |dump| && Loaded(islands)
    requires islands != [] ==> exists k :: 0 <= k < i && islands[|islands| - 1] == dump[k]
    requires forall b: nat :: Covers(islands, b) <==> Covers(dump[..i], b)
    ensures Loaded(more) && |more| <= |islands| + 1
    ensures more != [] ==> exists k :: 0 <= k < i + 1 && more[|more| - 1] == dump[k]
    ensures forall b: nat :: Covers(more, b) <==> Covers(dump[..i + 1], b)
  {
    more := if dump[i].e > dump[i].s then islands + [dump[i]] else islands;
    assert dump[..i + 1] == dump[..i] + [dump[i]];
    forall b: nat ensures Covers(more, b) <==> Covers(dump[..i + 1], b) {
      CoversAppend(dump[..i], dump[i], b);
      CoversAppend(islands, dump[i], b);
    }
    hide Covers;
    if dump[i].e > dump[i].s {
      if islands != [] { var k :| 0 <= k < i && islands[|islands| - 1] == dump[k]; }
      ChainBelow(islands, dump[i]);
    }
  }

  lemma SameCovers(p: seq<Interval>, q: seq<Interval>, b: nat)
    requires multiset(p) == multiset(q)
    ensures Covers(p, b) ==> Covers(q, b)
  {
    if Covers(p, b) {
      var k :| 0 <= k < |p| && Within(p[k], b);
      assert p[k] in multiset(q);
      var j :| 0 <= j < |q| && q[j] == p[k];
    }
  }

  lemma SnapshotForward(limit: nat, q: seq<Node<nat>>, sorted: seq<Interval>)
    requires Above(limit, multiset(q)) && multiset(sorted) == multiset(Jagged(q))
    ensures Forward(sorted)
  {
    var r := Jagged(q);
    forall k | 0 <= k < |sorted| ensures sorted[k].s <= sorted[k].e {
      assert sorted[k] in multiset(r);
      var j :| 0 <= j < |r| && r[j] == sorted[k];
      assert q[j] in multiset(q);
    }
  }

  lemma CheckpointExact(from: nat, reported: seq<Interval>, limit: nat, q: seq<Node<nat>>, sorted: seq<Interval>,
                        dump: seq<Interval>, islands: seq<Interval>, b: nat)
    requires Exact(from, reported, limit, multiset(q)) && multiset(sorted) == multiset(Jagged(q))
    requires Covers(dump, b) <==> Covers(sorted, b)
    requires (Covers(islands, b) ==> Covers(dump, b)) && (|q| <= SLOTS && Covers(dump, b) ==> Covers(islands, b))
    ensures Done(limit, islands, b) ==> Reported(from, reported, b)
    ensures |q| <= SLOTS && Reported(from, reported, b) ==> Done(limit, islands, b)
  {
    SameCovers(sorted, Jagged(q), b);
    SameCovers(Jagged(q), sorted, b);
    JaggedExact(from, reported, limit, q, b);
  }

  /** What a byte hole puncher gives the dump to fall back on: below its frontier
      every byte was acknowledged. */
  lemma FallowAcked(p: Puncher, b: nat)
    requires p.Valid() && b < p.tracker.limit
    ensures Reported(0, p.tracker.reported, b)
  {
  }

  /** The same for the index hole puncher, whose frontier is a batch count: the
      byte is one of an acknowledged batch. */
  lemma {:induction false} FallowBatchAcked(p: IndexPuncher, ends: seq<nat>, n: nat, b: nat) returns (k: nat)
    requires p.Valid(ends) && n <= p.tracker.limit && b < BatchStart(ends, n)
    ensures k < |ends| && BatchStart(ends, k) <= b < ends[k] && Reported(0, p.tracker.reported, k)
  {
    if b < BatchStart(ends, n - 1) { k := FallowBatchAcked(p, ends, n - 1, b); } else { k := n - 1; }
  }

  /** Abort, dump, load: `sorted` is the sorted snapshot.  With an empty ledger the
      dump falls back on the hole puncher's frontier; `acked` are the bytes that
      one saw acknowledged. */
  method Checkpoint(t: Tracker, sorted: seq<Interval>, fallow: nat, ghost acked: iset<nat>)
    returns (horizon: nat, islands: seq<Interval>)
    requires t.Valid() && SortedByStart(sorted)
    requires multiset(sorted) == multiset(Jagged(t.islands.nodes[..t.islands.size]))
    requires forall b: nat :: b < fallow ==> b in acked
    ensures Loaded(islands)
    ensures forall b: nat :: Done(horizon, islands, b) ==> Reported(t.from, t.reported, b) || b in acked
    ensures horizon == if t.limit > 0 then t.limit else fallow
    ensures t.limit == 0 ==> forall b: nat :: b < fallow ==> Done(horizon, islands, b)
    ensures t.limit > 0 ==> forall b: nat :: Done(horizon, islands, b) ==> Reported(t.from, t.reported, b)
    ensures t.islands.size <= SLOTS ==> forall b: nat :: Reported(t.from, t.reported, b) ==> Done(horizon, islands, b)
  {
    horizon := t.limit;
    if horizon == 0 && fallow > 0 { horizon := fallow; }
    ghost var q := t.islands.nodes[..t.islands.size];
    SnapshotForward(t.limit, q, sorted);
    assert |multiset(sorted)| == |sorted| && |multiset(Jagged(q))| == |Jagged(q)|;
    var dump := Collapse(sorted);
    islands := Load(dump);
    hide Exact, Above, HeapOrdered, Covers, Reported, Jagged;
    forall b: nat
      ensures Done(t.limit, islands, b) ==> Reported(t.from, t.reported, b)
      ensures t.islands.size <= SLOTS && Reported(t.from, t.reported, b) ==> Done(t.limit, islands, b)
    {
      CheckpointExact(t.from, t.reported, t.limit, q, sorted, dump, islands, b);
    }
  }

  /** batch_start as the filter leaves it. */
  function MovedStart(start: nat, end: nat, horizon: nat, islands: seq<Interval>): (s: nat)
    ensures s >= start
  {
    if start < horizon && end <= horizon then start
    else IslandStart(if start < horizon then horizon else start, end, islands, 0)
  }

  function IslandStart(s: nat, e: nat, islands: seq<Interval>, i: nat): (r: nat)
    requires i <= |islands|
    ensures r >= s
    decreases |islands| - i
  {
    if i == |islands| then s
    else if islands[i].s <= s < islands[i].e then
      if e <= islands[i].e then s else IslandStart(islands[i].e, e, islands, i + 1)
    else if s < islands[i].s && e > islands[i].s then s
    else IslandStart(s, e, islands, i + 1)
  }

  lemma {:induction false} KeptFromMovedStart(s: nat, e: nat, islands: seq<Interval>, i: nat)
    requires i <= |islands|
    ensures var r := IslandFilter(s, e, islands, i); r.Kept? ==> r.s == IslandStart(s, e, islands, i)
    decreases |islands| - i
  {
    if i < |islands| {
      if islands[i].s <= s < islands[i].e {
        KeptFromMovedStart(islands[i].e, e, islands, i + 1);
      } else {
        KeptFromMovedStart(s, e, islands, i + 1);
      }
    }
  }
}
