/** The NUMA byte path under resume: its two cursors drift apart once the filter
    has moved a batch's start, and exactly which bytes that loses. */
module ResumeBytes {
  import opened Coalescer
  import opened Resume

  /** A raw chunk [from, end) of the byte path under resume, cut every L bytes; the
      cursors start afresh in each chunk. */
  datatype ByteChunk = ByteChunk(from: nat, end: nat, L: nat, horizon: nat, islands: seq<Interval>) {

    ghost predicate Ok() {
      L > 0 && from <= end && Loaded(islands)
    }

    /** Where the k-th batch starts by scan position; `end` past the last. */
    function At(k: nat): (p: nat)
      requires from <= end
      ensures from <= p <= end
    {
      if k == 0 then from else if end - At(k - 1) >= L then At(k - 1) + L else end
    }

    /** batch_start before the k-th batch: each batch adds its length to wherever
        the filter left it, rather than taking the scan position. */
    function StartAt(k: nat): (s: nat)
      requires from <= end
    {
      if k == 0 then from else MovedStart(StartAt(k - 1), At(k), horizon, islands) + Take(k - 1)
    }

    function Take(k: nat): nat
      requires from <= end
    {
      if end - At(k) >= L then L else end - At(k)
    }

    /** What the run publishes of its k-th batch. */
    function Output(k: nat): Filtered
      requires from <= end
    {
      FilterSpec(StartAt(k), At(k + 1), horizon, islands)
    }

    /** How far into the k-th batch its first incomplete byte is. */
    function Lead(k: nat): nat
      requires from <= end
    {
      MovedStart(At(k), At(k + 1), horizon, islands) - At(k)
    }

    /** The k-th batch has an incomplete byte. */
    predicate Open(k: nat)
      requires from <= end
    {
      FilterSpec(At(k), At(k + 1), horizon, islands).Kept?
    }

    /** The k-th batch is cut at no island it reaches beyond, and if it has an
        incomplete byte, none is deeper inside an earlier batch of the chunk.  It
        takes only the checkpoint and the chunk's bounds to tell. */
    predicate Aligned(k: nat)
      requires from <= end
    {
      !Torn(At(k), At(k + 1), horizon, islands) && (Open(k) ==> NoneDeeper(k, k))
    }

    predicate NoneDeeper(k: nat, upTo: nat)
      requires from <= end
    {
      forall j: nat :: j < upTo ==> Lead(j) <= Lead(k)
    }

    ghost predicate AllAligned()
      requires from <= end
    {
      forall k: nat :: At(k) < end ==> Aligned(k)
    }

    ghost predicate Published(b: nat)
      requires from <= end
    {
      exists k: nat :: At(k) < end && Publishes(Output(k), b)
    }

    lemma Next(k: nat)
      requires Ok()
      ensures At(k) <= At(k + 1) == At(k) + Take(k)
      ensures At(k) < end ==> At(k) < At(k + 1)
    {
    }

    lemma {:induction false} AtMono(j: nat, k: nat)
      requires Ok() && j <= k
      ensures At(j) <= At(k)
    {
      if j < k {
        AtMono(j, k - 1);
        Next(k - 1);
      }
    }

    /** One round of the loop. */
    lemma ScanStep(k: nat)
      requires L > 0 && from <= end
      ensures At(0) == StartAt(0) == from && At(k + 1) == At(k) + Take(k)
      ensures Output(k) == FilterSpec(StartAt(k), At(k + 1), horizon, islands)
      ensures StartAt(k + 1) == MovedStart(StartAt(k), At(k + 1), horizon, islands) + Take(k)
    {
    }

    /** The start never falls behind the scan position. */
    lemma {:induction false} StartAhead(k: nat)
      requires Ok()
      ensures StartAt(k) >= At(k)
    {
      if k > 0 {
        StartAhead(k - 1);
        Next(k - 1);
      }
    }

    /** A batch publishes only bytes of its own. */
    lemma OutputInside(k: nat, b: nat)
      requires Ok() && Publishes(Output(k), b)
      ensures StartAt(k) <= b < At(k + 1) && At(k) <= b && !Done(horizon, islands, b)
    {
      StartAhead(k);
      KeptInside(StartAt(k), At(k + 1), horizon, islands);
      FilterAvoids(StartAt(k), At(k + 1), horizon, islands, b);
    }

    /** The furthest lead of the first k batches. */
    function Drift(k: nat): (d: nat)
      requires from <= end
      ensures forall j: nat :: j < k ==> Lead(j) <= d
      ensures d == 0 || exists j: nat :: j < k && Lead(j) == d
    {
      if k == 0 then 0 else if Lead(k - 1) > Drift(k - 1) then Lead(k - 1) else Drift(k - 1)
    }

    lemma DriftIs(k: nat)
      requires from <= end
      ensures NoneDeeper(k, k) <==> Drift(k) <= Lead(k)
    {
    }

    /** As long as no lead is lost the start is ahead by the furthest of them. */
    lemma {:induction false} StartIs(k: nat)
      requires Ok() && forall i: nat :: i < k && At(i) < end ==> (Open(i) ==> NoneDeeper(i, i))
      requires k > 0 ==> At(k - 1) < end
      ensures StartAt(k) == At(k) + Drift(k)
    {
      if k > 0 {
        AtMono(if k > 1 then k - 2 else 0, k - 1);
        StartIs(k - 1);
        DriftIs(k - 1);
        Next(k - 1);
        StartMoves(At(k - 1), At(k), horizon, islands, StartAt(k - 1));
        assert Drift(k) == if Lead(k - 1) > Drift(k - 1) then Lead(k - 1) else Drift(k - 1);
        hide MovedStart, Drift, FilterSpec;
      }
    }

    /** A batch the drift has not passed publishes all it should. */
    lemma AlignedCovers(k: nat, b: nat)
      requires Ok() && At(k) <= b < At(k + 1) && Aligned(k) && StartAt(k) == At(k) + Drift(k)
      ensures Done(horizon, islands, b) || Publishes(Output(k), b)
    {
      DriftIs(k);
      FirstTodo(At(k), At(k + 1), horizon, islands);
      if Open(k) {
        SameFilter(At(k), At(k + 1), horizon, islands, StartAt(k));
        if b >= StartAt(k) { FilterCovers(StartAt(k), At(k + 1), horizon, islands, b); }
      }
    }

    /** The first batch that is not aligned loses a byte. */
    lemma FirstLoses(k: nat) returns (b: nat)
      requires Ok() && At(k) < end && !Aligned(k) && StartAt(k) == At(k) + Drift(k)
      ensures At(k) <= b < At(k + 1) && !Done(horizon, islands, b) && !Publishes(Output(k), b)
    {
      Next(k);
      DriftIs(k);
      FirstTodo(At(k), At(k + 1), horizon, islands);
      if Open(k) && !NoneDeeper(k, k) {
        b := At(k) + Lead(k);
        if Publishes(Output(k), b) { OutputInside(k, b); }
      } else {
        b := TornLoses(At(k), At(k + 1), horizon, islands);
        TornIsOpen(At(k), At(k + 1), horizon, islands);
        SameFilter(At(k), At(k + 1), horizon, islands, StartAt(k));
      }
    }

    lemma FirstIsLost(k: nat) returns (b: nat)
      requires Ok() && At(k) < end && !Aligned(k) && forall i: nat :: i < k && At(i) < end ==> Aligned(i)
      ensures from <= b < end && !Done(horizon, islands, b) && !Published(b)
    {
      if k > 0 { AtMono(k - 1, k); }
      StartIs(k);
      hide Published, Done, Aligned, At, Output;
      b := FirstLoses(k);
      if Published(b) { OnlyItsBatch(k, b); }
    }

    lemma {:induction false} FindUnaligned(k: nat, bad: nat) returns (b: nat)
      requires Ok() && k <= bad && At(bad) < end && !Aligned(bad)
      requires forall i: nat :: i < k && At(i) < end ==> Aligned(i)
      ensures from <= b < end && !Done(horizon, islands, b) && !Published(b)
      decreases bad - k
    {
      hide *;
      AtMono(k, bad);
      if Aligned(k) { b := FindUnaligned(k + 1, bad); } else { b := FirstIsLost(k); }
    }

    /** A byte is published by its own batch if at all. */
    lemma OnlyItsBatch(k: nat, b: nat)
      requires Ok() && At(k) <= b < At(k + 1) && Published(b)
      ensures Publishes(Output(k), b)
    {
      var i: nat :| At(i) < end && Publishes(Output(i), b);
      OutputInside(i, b);
      SameBatch(i, k, b);
    }

    lemma SameBatch(j: nat, k: nat, b: nat)
      requires Ok() && At(j) <= b < At(j + 1) && At(k) <= b < At(k + 1)
      ensures j == k
    {
      hide *;
      if j < k { AtMono(j + 1, k); } else if k < j { AtMono(k + 1, j); }
    }

    lemma {:induction false} FindBatch(b: nat, k: nat) returns (i: nat)
      requires Ok() && At(k) <= b < end
      ensures At(i) <= b < At(i + 1) && At(i) < end
      decreases end - At(k)
    {
      Next(k);
      if b < At(k + 1) { i := k; } else { i := FindBatch(b, k + 1); }
    }

    lemma AlignedAll(b: nat)
      requires Ok() && AllAligned() && from <= b < end
      ensures Done(horizon, islands, b) || Published(b)
    {
      var k := FindBatch(b, 0);
      forall i: nat | i < k ensures At(i) < end { AtMono(i, k); }
      StartIs(k);
      AlignedCovers(k, b);
    }

    /** Completed and published bytes are the whole chunk exactly when every batch
        is aligned. */
    lemma CoversIff()
      requires Ok()
      ensures (forall b: nat :: from <= b < end ==> Done(horizon, islands, b) || Published(b)) <==> AllAligned()
    {
      if AllAligned() {
        forall b: nat | from <= b < end ensures Done(horizon, islands, b) || Published(b) { AlignedAll(b); }
      } else {
        var k: nat :| At(k) < end && !Aligned(k);
        var b := FindUnaligned(0, k);
      }
    }

    /** Whatever the drift: no completed byte is published, and no byte twice. */
    lemma NeverRepeats(j: nat, k: nat, b: nat)
      requires Ok() && Publishes(Output(j), b) && Publishes(Output(k), b)
      ensures !Done(horizon, islands, b) && from <= b < end && j == k
    {
      OutputInside(j, b);
      OutputInside(k, b);
      SameBatch(j, k, b);
    }

    /** A lead is a batch that reaches over the horizon, or starts inside an island
        that ends before the batch does. */
    lemma LeadIff(k: nat)
      requires Ok() && At(k) < end
      ensures Lead(k) > 0 <==> Straddles(At(k), At(k + 1), horizon, islands)
    {
      Next(k);
      if At(k) >= horizon || At(k + 1) > horizon {
        MovedIff(if At(k) < horizon then horizon else At(k), At(k + 1), islands, 0);
      }
    }

    /** The k-th batch is the last one. */
    predicate Last(k: nat)
      requires from <= end
    {
      At(k) < end && At(k + 1) == end
    }

    /** Without islands: nothing is lost exactly when no batch but the last reaches
        over the horizon. */
    lemma CoversIffHorizon()
      requires Ok() && islands == []
      ensures (forall b: nat :: from <= b < end ==> Done(horizon, islands, b) || Published(b))
         <==> (forall j: nat :: At(j) < horizon < At(j + 1) && At(j) < end ==> Last(j))
    {
      CoversIff();
      hide *;
      if AllAligned() {
        forall j: nat | At(j) < horizon < At(j + 1) && At(j) < end ensures Last(j) { LeadLost(j); }
      } else {
        var k := SomeUnaligned();
        var j := UnalignedHorizon(k);
      }
    }

    lemma SomeUnaligned() returns (k: nat)
      requires from <= end && !AllAligned()
      ensures At(k) < end && !Aligned(k)
    {
      k :| At(k) < end && !Aligned(k);
    }

    lemma PlainLead(k: nat)
      requires Ok() && islands == [] && At(k) < end
      ensures Lead(k) == (if At(k) < horizon < At(k + 1) then horizon - At(k) else 0)
      ensures Open(k) <==> At(k + 1) > horizon
      ensures !Torn(At(k), At(k + 1), horizon, islands)
    {
      Next(k);
    }

    lemma FollowedLead(j: nat)
      requires Ok() && islands == [] && At(j) < horizon < At(j + 1) < end
      ensures !Aligned(j + 1)
    {
      Next(j + 1);
      PlainLead(j);
      PlainLead(j + 1);
      hide Torn, Open, Lead, At;
      assert Lead(j) > Lead(j + 1);
    }

    lemma LeadLost(j: nat)
      requires Ok() && islands == [] && AllAligned() && At(j) < horizon < At(j + 1) && At(j) < end
      ensures Last(j)
    {
      Next(j);
      if At(j + 1) < end { FollowedLead(j); }
    }

    lemma UnalignedHorizon(k: nat) returns (j: nat)
      requires Ok() && islands == [] && At(k) < end && !Aligned(k)
      ensures At(j) < horizon < At(j + 1) && At(j) < end && !Last(j)
    {
      PlainLead(k);
      hide Lead, Open, Torn, At;
      j :| j < k && Lead(j) > Lead(k);
      AtMono(j, k);
      AtMono(j + 1, k);
      PlainLead(j);
    }

    lemma PlainMove(start: nat, k: nat)
      requires from <= end && islands == []
      ensures MovedStart(start, At(k), horizon, islands) == if start < horizon < At(k) then horizon else start
    {
    }

    lemma {:induction false} HorizonDrift(j: nat, k: nat)
      requires Ok() && islands == [] && j < k && At(j) < horizon < At(j + 1) && At(k - 1) < end
      ensures StartAt(k) == At(k) + (horizon - At(j))
      decreases k
    {
      hide *;
      if j + 1 < k {
        AtMono(k - 2, k - 1);
        AtMono(j + 1, k - 1);
        HorizonDrift(j, k - 1);
      } else {
        BelowHorizon(j);
      }
      StartStep(k - 1);
    }

    lemma StartStep(k: nat)
      requires Ok() && islands == []
      ensures StartAt(k + 1) - At(k + 1) == (if StartAt(k) < horizon < At(k + 1) then horizon else StartAt(k)) - At(k)
    {
      Next(k);
      PlainMove(StartAt(k), k + 1);
    }

    lemma {:induction false} BelowHorizon(j: nat)
      requires Ok() && islands == [] && At(j) < horizon
      ensures StartAt(j) == At(j)
    {
      hide *;
      if j > 0 {
        AtMono(j - 1, j);
        BelowHorizon(j - 1);
        StartStep(j - 1);
      } else {
        StartFresh();
      }
    }

    lemma StartFresh()
      requires Ok()
      ensures StartAt(0) == At(0)
    {
    }

    lemma {:induction false} PastHorizon(k: nat)
      requires Ok() && islands == [] && forall j: nat :: j < k ==> !(At(j) < horizon < At(j + 1))
      ensures StartAt(k) == At(k)
    {
      hide *;
      if k > 0 {
        PastHorizon(k - 1);
        StartStep(k - 1);
      } else {
        StartFresh();
      }
    }

    /** The k-th batch is published with its start past its end: a length below 0. */
    predicate Inverted(k: nat)
      requires from <= end
    {
      Output(k).Kept? && Output(k).s > Output(k).e
    }

    /** A batch is published that way exactly when the drift has carried its start
        past its end, to an incomplete byte. */
    lemma InvertedIff(k: nat)
      requires Ok()
      ensures Inverted(k) <==> StartAt(k) > At(k + 1) && !Done(horizon, islands, StartAt(k))
    {
      PastEnd(StartAt(k), At(k + 1), horizon, islands);
    }

    /** The k-th batch is the chunk's last, and shorter than the lead of the j-th,
        which reaches over the horizon. */
    predicate Overtaken(j: nat, k: nat)
      requires from <= end
    {
      j < k && At(j) < horizon < At(j + 1) && Last(k) && horizon - At(j) > end - At(k)
    }

    /** Without islands that is the case exactly for such a last batch. */
    lemma InvertedIffShort(k: nat)
      requires Ok() && islands == [] && At(k) < end
      ensures Inverted(k) <==> exists j: nat :: Overtaken(j, k)
    {
      hide *;
      if j: nat :| j < k && At(j) < horizon < At(j + 1) {
        OvertakenIff(j, k);
      } else {
        NotInverted(k);
      }
    }

    lemma NotInverted(k: nat)
      requires Ok() && islands == [] && forall j: nat :: j < k ==> !(At(j) < horizon < At(j + 1))
      ensures !Inverted(k) && forall j: nat :: !Overtaken(j, k)
    {
      PastHorizon(k);
      InvertedIff(k);
      Next(k);
      hide Output, Done, At;
    }

    lemma OvertakenIff(j: nat, k: nat)
      requires Ok() && islands == [] && At(k) < end && j < k && At(j) < horizon < At(j + 1)
      ensures Inverted(k) <==> Overtaken(j, k)
      ensures forall i: nat :: Overtaken(i, k) ==> i == j
    {
      InvertedIff(k);
      AfterHorizon(j, k);
      LastIs(k);
      hide Output, Done, At, Last;
      forall i: nat | Overtaken(i, k) ensures i == j { SameBatch(i, j, horizon); }
    }

    lemma LastIs(k: nat)
      requires Ok() && At(k) < end
      ensures Last(k) <==> At(k + 1) == end
      ensures !Last(k) ==> At(k + 1) == At(k) + L
    {
    }

    /** After the batch that reaches over the horizon the start is ahead by its
        lead, at an incomplete byte. */
    lemma AfterHorizon(j: nat, k: nat)
      requires Ok() && islands == [] && j < k && At(j) < horizon < At(j + 1) && At(k) < end
      ensures StartAt(k) == At(k) + (horizon - At(j)) && !Done(horizon, islands, StartAt(k)) && horizon - At(j) < L
    {
      AtMono(j + 1, k);
      AtMono(k - 1, k);
      HorizonDrift(j, k);
    }
  }

  /** The filter moves this batch's start. */
  ghost predicate Straddles(start: nat, end: nat, horizon: nat, islands: seq<Interval>) {
    start < horizon < end || (start >= horizon && InIsland(start, end, islands, 0))
  }

  ghost predicate InIsland(s: nat, e: nat, islands: seq<Interval>, i: nat) {
    exists k :: i <= k < |islands| && islands[k].s <= s < islands[k].e < e
  }

  lemma {:induction false} MovedIff(s: nat, e: nat, islands: seq<Interval>, i: nat)
    requires Loaded(islands) && i <= |islands| && s < e
    ensures IslandStart(s, e, islands, i) > s <==> InIsland(s, e, islands, i)
    decreases |islands| - i
  {
    if i < |islands| {
      if islands[i].s <= s < islands[i].e {
      } else if s < islands[i].s && e > islands[i].s {
      } else {
        MovedIff(s, e, islands, i + 1);
      }
    }
  }

  /** What is kept starts no earlier than the batch and ends no later. */
  lemma KeptInside(start: nat, end: nat, horizon: nat, islands: seq<Interval>)
    ensures var r := FilterSpec(start, end, horizon, islands); r.Kept? ==> start <= r.s && r.e <= end
  {
    KeptFromMovedStart(if start < horizon then horizon else start, end, islands, 0);
    KeptEnd(if start < horizon then horizon else start, end, islands, 0);
  }

  lemma {:induction false} KeptEnd(s: nat, e: nat, islands: seq<Interval>, i: nat)
    requires i <= |islands|
    ensures var r := IslandFilter(s, e, islands, i); r.Kept? ==> r.e <= e
    decreases |islands| - i
  {
    if i < |islands| {
      if islands[i].s <= s < islands[i].e {
        KeptEnd(islands[i].e, e, islands, i + 1);
      } else {
        KeptEnd(s, e, islands, i + 1);
      }
    }
  }

  /** The filter moves a start to the batch's first incomplete byte. */
  lemma FirstTodo(p: nat, e: nat, horizon: nat, islands: seq<Interval>)
    requires Loaded(islands) && p < e
    ensures var r, m := FilterSpec(p, e, horizon, islands), MovedStart(p, e, horizon, islands);
      && p <= m < e
      && (r.Kept? ==> r.s == m && !Done(horizon, islands, m)
                      && forall b: nat :: p <= b < m ==> Done(horizon, islands, b))
      && (r.Skipped? ==> forall b: nat :: p <= b < e ==> Done(horizon, islands, b))
  {
    if p >= horizon || e > horizon {
      var s := if p < horizon then horizon else p;
      var r := FilterSpec(p, e, horizon, islands);
      StartBeforeEnd(s, e, islands, 0);
      KeptFromMovedStart(s, e, islands, 0);
      KeptIsClear(s, e, islands, 0);
      forall b: nat | s <= b < e && (r.Kept? ==> b < r.s) ensures Done(horizon, islands, b) {
        DroppedIsDone(s, e, islands, 0, b);
      }
      if r.Kept? {
        DroppedIsDone(s, e, islands, 0, s);
        ClearIsTodo(r.s, r.e, islands);
      }
    }
  }

  lemma ClearIsTodo(s: nat, e: nat, islands: seq<Interval>)
    requires s < e && Clear(s, e, islands, |islands|)
    ensures !Covers(islands, s)
  {
  }

  lemma {:induction false} StartBeforeEnd(s: nat, e: nat, islands: seq<Interval>, i: nat)
    requires i <= |islands| && s < e
    ensures IslandStart(s, e, islands, i) < e
    decreases |islands| - i
  {
    if i < |islands| {
      if islands[i].s <= s < islands[i].e {
        if e > islands[i].e { StartBeforeEnd(islands[i].e, e, islands, i + 1); }
      } else if !(s < islands[i].s && e > islands[i].s) {
        StartBeforeEnd(s, e, islands, i + 1);
      }
    }
  }

  /** The filter does the same to every start up to the one it moves to. */
  lemma {:induction false} SameIslands(s: nat, e: nat, islands: seq<Interval>, i: nat, t: nat)
    requires Loaded(islands) && i <= |islands| && s < e
    requires IslandFilter(s, e, islands, i).Kept? && s <= t <= IslandStart(s, e, islands, i)
    ensures IslandFilter(t, e, islands, i) == IslandFilter(s, e, islands, i)
    ensures IslandStart(t, e, islands, i) == IslandStart(s, e, islands, i)
    ensures CutBy(t, e, islands, i) == CutBy(s, e, islands, i)
    decreases |islands| - i
  {
    if i < |islands| {
      StartBeforeEnd(s, e, islands, i);
      if islands[i].s <= s < islands[i].e {
        if t >= islands[i].e { SameIslands(islands[i].e, e, islands, i + 1, t); }
      } else if !(s < islands[i].s && e > islands[i].s) {
        SameIslands(s, e, islands, i + 1, t);
      }
    }
  }

  lemma SameFilter(p: nat, e: nat, horizon: nat, islands: seq<Interval>, start: nat)
    requires Loaded(islands) && p < e && FilterSpec(p, e, horizon, islands).Kept?
    requires p <= start <= MovedStart(p, e, horizon, islands)
    ensures FilterSpec(start, e, horizon, islands) == FilterSpec(p, e, horizon, islands)
    ensures MovedStart(start, e, horizon, islands) == MovedStart(p, e, horizon, islands)
    ensures Torn(start, e, horizon, islands) <==> Torn(p, e, horizon, islands)
  {
    var s := if p < horizon then horizon else p;
    FirstTodo(p, e, horizon, islands);
    SameIslands(s, e, islands, 0, if start < horizon then horizon else start);
  }

  /** Past the end of a batch no start is moved by an island. */
  lemma {:induction false} StaysPastEnd(s: nat, e: nat, islands: seq<Interval>, i: nat)
    requires i <= |islands| && e <= s
    ensures IslandStart(s, e, islands, i) == s
    ensures IslandFilter(s, e, islands, i)
         == if exists k :: i <= k < |islands| && Within(islands[k], s) then Skipped else Kept(s, e)
    decreases |islands| - i
  {
    if i < |islands| { StaysPastEnd(s, e, islands, i + 1); }
  }

  /** No island of a separated list joins on to another. */
  lemma {:induction false} JumpKeeps(s: nat, e: nat, islands: seq<Interval>, i: nat)
    requires Loaded(islands) && i <= |islands| && s < e && forall k :: i <= k < |islands| ==> s < islands[k].s
    ensures IslandFilter(s, e, islands, i).Kept?
    decreases |islands| - i
  {
    if i < |islands| && islands[i].s >= e { JumpKeeps(s, e, islands, i + 1); }
  }

  /** Inside a batch that is wholly in an island no start is moved. */
  lemma {:induction false} StaysInside(s: nat, e: nat, islands: seq<Interval>, i: nat, t: nat)
    requires Loaded(islands) && i <= |islands| && s < e && s <= t && IslandFilter(s, e, islands, i).Skipped?
    ensures IslandStart(s, e, islands, i) == s && IslandStart(t, e, islands, i) == t
    decreases |islands| - i
  {
    if i < |islands| {
      if islands[i].s <= s < islands[i].e {
        if e > islands[i].e { JumpKeeps(islands[i].e, e, islands, i + 1); }
        if t >= islands[i].e { StaysPastEnd(t, e, islands, i); }
      } else {
        StaysInside(s, e, islands, i + 1, t);
        if t >= e { StaysPastEnd(t, e, islands, i); }
      }
    }
  }

  /** Where the filter moves a start that is ahead of the batch's own: to the
      further of the two, unless it has passed an incomplete byte. */
  lemma StartMoves(p: nat, e: nat, horizon: nat, islands: seq<Interval>, start: nat)
    requires Loaded(islands) && p < e && p <= start
    requires FilterSpec(p, e, horizon, islands).Kept? ==> start <= MovedStart(p, e, horizon, islands)
    ensures MovedStart(start, e, horizon, islands)
         == if start > MovedStart(p, e, horizon, islands) then start else MovedStart(p, e, horizon, islands)
  {
    if FilterSpec(p, e, horizon, islands).Kept? {
      SameFilter(p, e, horizon, islands, start);
    } else if start >= e {
      StaysPastEnd(start, e, islands, 0);
      FirstTodo(p, e, horizon, islands);
    } else if e > horizon {
      StaysInside(if p < horizon then horizon else p, e, islands, 0, if start < horizon then horizon else start);
    }
  }

  lemma TornIsOpen(start: nat, end: nat, horizon: nat, islands: seq<Interval>)
    requires Loaded(islands) && start <= end && Torn(start, end, horizon, islands)
    ensures FilterSpec(start, end, horizon, islands).Kept?
  {
    var s := if start < horizon then horizon else start;
    DroppedIsDone(s, end, islands, 0, s);
  }

  lemma PastEnd(start: nat, end: nat, horizon: nat, islands: seq<Interval>)
    requires Loaded(islands)
    ensures var r := FilterSpec(start, end, horizon, islands);
      r.Kept? && r.s > r.e <==> start > end && !Done(horizon, islands, start)
  {
    if start > end {
      StaysPastEnd(start, end, islands, 0);
    } else if start >= horizon || end > horizon {
      KeptIsClear(if start < horizon then horizon else start, end, islands, 0);
    }
  }

  /** The raw chunks [bounds[m], bounds[m + 1]) of a resumed run. */
  function ChunkOf(bounds: seq<nat>, L: nat, horizon: nat, islands: seq<Interval>, m: nat): ByteChunk
    requires m + 1 < |bounds|
  {
    ByteChunk(bounds[m], bounds[m + 1], L, horizon, islands)
  }

  ghost predicate Rising(bounds: seq<nat>) {
    |bounds| > 0 && forall j, k :: 0 <= j <= k < |bounds| ==> bounds[j] <= bounds[k]
  }

  ghost predicate PublishedInRun(bounds: seq<nat>, L: nat, horizon: nat, islands: seq<Interval>, b: nat)
    requires Rising(bounds)
  {
    exists m: nat :: m + 1 < |bounds| && ChunkOf(bounds, L, horizon, islands, m).Published(b)
  }

  /** Over all chunks: the resumed byte path publishes every incomplete byte
      exactly when every batch of every chunk is aligned. */
  lemma ResumedBytesCoverIff(bounds: seq<nat>, L: nat, horizon: nat, islands: seq<Interval>)
    requires L > 0 && Rising(bounds) && Loaded(islands)
    ensures (forall b: nat :: bounds[0] <= b < bounds[|bounds| - 1] ==>
               Done(horizon, islands, b) || PublishedInRun(bounds, L, horizon, islands, b))
       <==> (forall m: nat :: m + 1 < |bounds| ==> ChunkOf(bounds, L, horizon, islands, m).AllAligned())
  {
    if m: nat :| m + 1 < |bounds| && !ChunkOf(bounds, L, horizon, islands, m).AllAligned() {
      var c := ChunkOf(bounds, L, horizon, islands, m);
      c.CoversIff();
      var b: nat :| c.from <= b < c.end && !Done(horizon, islands, b) && !c.Published(b);
      if PublishedInRun(bounds, L, horizon, islands, b) { OwnChunk(bounds, L, horizon, islands, m, b); }
      assert bounds[0] <= b < bounds[|bounds| - 1];
    } else {
      forall b: nat | bounds[0] <= b < bounds[|bounds| - 1]
        ensures Done(horizon, islands, b) || PublishedInRun(bounds, L, horizon, islands, b)
      {
        var m := FindChunk(bounds, b, 0);
        ChunkOf(bounds, L, horizon, islands, m).CoversIff();
      }
    }
  }

  lemma {:induction false} FindChunk(bounds: seq<nat>, b: nat, from: nat) returns (m: nat)
    requires Rising(bounds) && from < |bounds| && bounds[from] <= b < bounds[|bounds| - 1]
    ensures m + 1 < |bounds| && bounds[m] <= b < bounds[m + 1]
    decreases |bounds| - from
  {
    if b < bounds[from + 1] { m := from; } else { m := FindChunk(bounds, b, from + 1); }
  }

  lemma PublishedInside(c: ByteChunk, b: nat)
    requires c.Ok() && c.Published(b)
    ensures c.from <= b < c.end
  {
    var k: nat :| c.At(k) < c.end && Publishes(c.Output(k), b);
    c.OutputInside(k, b);
  }

  /** A byte is published by its own chunk if at all. */
  lemma OwnChunk(bounds: seq<nat>, L: nat, horizon: nat, islands: seq<Interval>, m: nat, b: nat)
    requires L > 0 && Rising(bounds) && Loaded(islands) && m + 1 < |bounds| && bounds[m] <= b < bounds[m + 1]
    requires PublishedInRun(bounds, L, horizon, islands, b)
    ensures ChunkOf(bounds, L, horizon, islands, m).Published(b)
  {
    hide ByteChunk.Published, Loaded;
    var n: nat :| n + 1 < |bounds| && ChunkOf(bounds, L, horizon, islands, n).Published(b);
    PublishedInside(ChunkOf(bounds, L, horizon, islands, n), b);
  }

  /** The byte loop of one chunk under resume. */
  method ScanResumed(c: ByteChunk) returns (out: seq<Filtered>)
    requires c.L > 0 && c.from <= c.end
    ensures c.At(|out|) == c.end && (out != [] ==> c.At(|out| - 1) < c.end)
    ensures forall k :: 0 <= k < |out| ==> out[k] == c.Output(k)
  {
    out := [];
    var p, batchStart := c.from, c.from;
    hide FilterSpec, MovedStart, ByteChunk.At, ByteChunk.StartAt, ByteChunk.Output;
    c.ScanStep(0);
    while p < c.end
      invariant p == c.At(|out|) && batchStart == c.StartAt(|out|)
      invariant out != [] ==> c.At(|out| - 1) < c.end
      invariant forall k :: 0 <= k < |out| ==> out[k] == c.Output(k)
      decreases c.end - p
    {
      c.ScanStep(|out|);
      var take := if c.end - p >= c.L then c.L else c.end - p;
      p := p + take;
      var r, moved := Filter(batchStart, p, c.horizon, c.islands);
      batchStart := moved + take;
      out := out + [r];
    }
  }

  /** Concrete losses: resuming 4-byte batches at horizon 2, the second batch is
      published as [6, 8), so bytes 4 and 5 are neither complete nor published; at
      horizon 3 the third batch of a 10-byte chunk is published from 11 to 10. */
  lemma ByteDriftLoses()
    ensures var c := ByteChunk(0, 8, 4, 2, []);
      c.Ok() && c.Output(0) == Kept(2, 4) && c.Output(1) == Kept(6, 8) && c.At(2) == 8 && !Done(2, [], 4)
    ensures var c := ByteChunk(0, 10, 4, 3, []);
      c.Ok() && c.Output(2) == Kept(11, 10) && c.At(3) == 10
  {
    var c := ByteChunk(0, 8, 4, 2, []);
    assert c.At(1) == 4 && c.StartAt(1) == 6;
    var d := ByteChunk(0, 10, 4, 3, []);
    assert d.At(1) == 4 && d.At(2) == 8 && d.StartAt(1) == 7 && d.StartAt(2) == 11;
  }
}
