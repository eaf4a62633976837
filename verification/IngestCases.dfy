/** Runs of NUMA ingest that break what the code intends: a held ticket that is
    overtaken, and a resumed run whose depth limit drops to nothing. */
module IngestCases {
  import opened IngestLimit
  import opened IngestRun
  import opened IngestTuning
  import opened IngestHeld

  /** A run that ends in s. */
  ghost predicate Ends(c: Config, states: seq<State>, s: State) {
    Run(c, states) && states[|states| - 1] == s
  }

  lemma Extend(c: Config, states: seq<State>, s: State, a: Action) returns (more: seq<State>)
    requires Ends(c, states, s) && Enabled(c, s, a)
    ensures Ends(c, more, Do(c, s, a))
  {
    hide Do, Enabled, Start, Config.Ok;
    more := states + [Do(c, s, a)];
    assert Next(c, s, Do(c, s, a));
    forall i | 0 <= i < |more| - 1 ensures Next(c, more[i], more[i + 1]) {
      if i < |states| - 1 { assert Next(c, states[i], states[i + 1]); }
    }
  }

  /** Ingest can publish to node t: it may aim there, the gate has room and every
      node lets it past the pin. */
  ghost predicate Open(c: Config, s: State, t: nat) {
    && c.Ok() && |s.nodes| == |s.scanners| == c.nodes && t < c.nodes && !s.eof && !s.untuned && MayAim(s, t)
    && |s.nodes[t].queue| - s.nodes[t].tail < s.limit
    && forall i :: 0 <= i < |s.nodes| ==> Unpinned(s.nodes[i], s.major) && Behind(c, s, i)
  }

  function AllUpTo(n: nat): (r: set<nat>)
    ensures forall i: nat :: i in r <==> i < n
  {
    if n == 0 then {} else AllUpTo(n - 1) + {n - 1}
  }

  /** Aimed at t and let past both gates. */
  function Passed(c: Config, s: State, t: nat, n: nat): State {
    Aimed(c, s, t).(room := true, cleared := AllUpTo(n))
  }

  lemma {:induction false} PassGates(c: Config, states: seq<State>, s: State, t: nat, n: nat) returns (more: seq<State>)
    requires Ends(c, states, s) && Open(c, s, t) && n <= c.nodes
    ensures Ends(c, more, Passed(c, s, t, n))
  {
    if n == 0 {
      more := Extend(c, states, s, Aim(t));
      var a := Aimed(c, s, t);
      assert Do(c, s, Aim(t)) == a;
      more := Extend(c, more, a, Room);
      assert Do(c, a, Room) == Passed(c, s, t, 0);
    } else {
      more := PassGates(c, states, s, t, n - 1);
      more := ClearNode(c, more, s, t, n - 1);
    }
  }

  lemma ClearNode(c: Config, states: seq<State>, s: State, t: nat, n: nat) returns (more: seq<State>)
    requires Ends(c, states, Passed(c, s, t, n)) && Open(c, s, t) && n < c.nodes
    ensures Ends(c, more, Passed(c, s, t, n + 1))
  {
    hide Ends;
    var p := Passed(c, s, t, n);
    assert Behind(c, p, n) by { SameHeld(c, s, p, n); }
    more := Extend(c, states, p, Clear(n));
    assert AllUpTo(n) + {n} == AllUpTo(n + 1);
    assert Do(c, p, Clear(n)) == Passed(c, s, t, n + 1);
  }

  lemma SameHeld(c: Config, s: State, p: State, n: nat)
    requires Behind(c, s, n) && p.nodes == s.nodes && p.scanners == s.scanners && p.major == s.major
    requires n < |s.nodes|
    ensures Behind(c, p, n)
  {
    forall t: nat | Waits(p, n, t) ensures Waits(s, n, t) { SameWaits(s, p, n, t); }
    hide Waits;
  }

  /** One chunk published to node t, tuned and indexed. */
  function Fed(c: Config, s: State, t: nat, len: nat, workers: nat): State
    requires t < |s.nodes| && c.nodes > 0
  {
    var p := Sent(c, s, t, len);
    var q := if c.lines then Retuned(c, p, SampleOf(c, p, workers, false, 0, false)) else p;
    q.(nodes := q.nodes[t := Node(q.nodes[t].queue, s.nodes[t].ready + 1, s.nodes[t].tail, s.major,
                                  s.nodes[t].claimed)],
       untuned := false)
  }

  function Sent(c: Config, s: State, t: nat, len: nat): State
    requires t < |s.nodes|
  {
    var p := Passed(c, s, t, c.nodes);
    Closed(p, t).(offset := s.offset + len, last := t, here := p.here + len, untuned := c.lines)
  }

  lemma Feed(c: Config, states: seq<State>, s: State, t: nat, len: nat, workers: nat) returns (more: seq<State>)
    requires Ends(c, states, s) && Open(c, s, t) && 0 < len <= c.chunk
    requires s.nodes[t].ready == |s.nodes[t].queue|
    requires workers <= 8192 && (c.lines ==> Fits64(c, Sent(c, s, t, len), workers))
    ensures Ends(c, more, Fed(c, s, t, len, workers))
  {
    more := PassGates(c, states, s, t, c.nodes);
    more := Send(c, more, s, t, len);
    assert c.Ok() && |s.nodes| == |s.scanners| == c.nodes && t < c.nodes && !s.eof;
    hide Ends, Open, Unpinned, Behind;
    var p := Sent(c, s, t, len);
    SentNode(c, s, t, len);
    var q := if c.lines then Retuned(c, p, SampleOf(c, p, workers, false, 0, false)) else p;
    if c.lines {
      var a := Tune(workers, false, 0, false);
      more := Extend(c, more, p, a);
      assert Do(c, p, a) == q;
    }
    hide Sent, SampleOf, Tuned, StealThreshold, MinBuf, GlobalMax;
    more := Index(c, more, q, t);
    assert q.nodes[t].queue[s.nodes[t].ready] == s.major;
    assert Node(q.nodes[t].queue, s.nodes[t].ready + 1, s.nodes[t].tail, s.major, s.nodes[t].claimed)
        == q.nodes[t].(ready := q.nodes[t].ready + 1, indexed := q.nodes[t].queue[q.nodes[t].ready]);
    assert !q.untuned;
    assert Fed(c, s, t, len, workers) == q.(nodes := Fed(c, s, t, len, workers).nodes);
  }

  lemma SentNode(c: Config, s: State, t: nat, len: nat)
    requires t < |s.nodes|
    ensures var p := Sent(c, s, t, len);
      && |p.nodes| == |s.nodes| && p.nodes[t].queue == s.nodes[t].queue + [s.major] && p.eof == s.eof
      && p.scanners == s.scanners
      && p.nodes[t] == s.nodes[t].(queue := p.nodes[t].queue) && p.untuned == c.lines
  {
  }

  lemma Send(c: Config, states: seq<State>, s: State, t: nat, len: nat) returns (more: seq<State>)
    requires Ends(c, states, Passed(c, s, t, c.nodes)) && Open(c, s, t) && 0 < len <= c.chunk
    ensures Ends(c, more, Sent(c, s, t, len))
  {
    hide Ends, Behind, Unpinned;
    var p := Passed(c, s, t, c.nodes);
    more := Extend(c, states, p, Publish(len));
  }

  /** Every queue is drained and nobody holds a ticket of a published chunk. */
  ghost predicate NothingWaits(s: State) {
    && (forall i :: 0 <= i < |s.nodes| ==> |s.nodes[i].queue| == s.nodes[i].ready == s.nodes[i].tail)
    && (forall i: nat, t: nat :: !Waits(s, i, t))
  }

  /** Ingest alone goes on: when nothing waits, the tuning is done and the depth limit
      is not 0, it passes both gates and publishes what it has read. */
  lemma IngestGoesOn(c: Config, states: seq<State>, s: State, len: nat) returns (more: seq<State>, u: State)
    requires Ends(c, states, s) && NothingWaits(s)
    requires !s.eof && !s.untuned && s.limit > 0 && 0 < len <= c.chunk
    ensures Ends(c, more, u) && u.major == s.major + 1 && u.offset == s.offset + len
    ensures exists t :: 0 <= t < |s.nodes| == |u.nodes| && u.nodes[t].queue == s.nodes[t].queue + [s.major]
  {
    assert Inv(c, s) by {
      RunInv(c, states, |states| - 1);
    }
    var t := NextAim(c, s);
    DrainedOpen(c, s);
    hide Ends, Open, NextAim, NothingWaits;
    more := PassGates(c, states, s, t, c.nodes);
    more := Send(c, more, s, t, len);
    u := Sent(c, s, t, len);
    SentNode(c, s, t, len);
  }

  /** With all queues empty ingest stays with a node for its share of bytes and then
      takes the next one. */
  function NextAim(c: Config, s: State): (t: nat)
    requires c.nodes > 0 && -1 <= s.last < c.nodes
    ensures t < c.nodes
  {
    if s.last == -1 then 0 else if s.here >= s.accum || s.here >= 0x1_0000 then (s.last + 1) % c.nodes else s.last
  }

  lemma DrainedOpen(c: Config, s: State)
    requires c.Ok() && |s.nodes| == |s.scanners| == c.nodes && NothingWaits(s)
    requires !s.eof && !s.untuned && s.limit > 0 && -1 <= s.last < c.nodes
    ensures Open(c, s, NextAim(c, s))
  {
    hide Waits;
  }

  /** The indexer of node t consumes and advertises the newest entry. */
  lemma Index(c: Config, states: seq<State>, p: State, t: nat) returns (more: seq<State>)
    requires Ends(c, states, p) && c.Ok() && |p.nodes| == |p.scanners| == c.nodes && t < c.nodes
    requires p.nodes[t].ready + 1 == |p.nodes[t].queue|
    ensures Ends(c, more, p.(nodes := p.nodes[t :=
      p.nodes[t].(ready := p.nodes[t].ready + 1, indexed := p.nodes[t].queue[p.nodes[t].ready])]))
  {
    hide Ends;
    more := Extend(c, states, p, Consume(t));
    var q := p.(nodes := p.nodes[t := p.nodes[t].(ready := p.nodes[t].ready + 1)]);
    assert Do(c, p, Consume(t)) == q;
    more := Extend(c, more, q, Advertise(t));
    assert Do(c, q, Advertise(t)).nodes == p.nodes[t :=
      p.nodes[t].(ready := p.nodes[t].ready + 1, indexed := p.nodes[t].queue[p.nodes[t].ready])];
  }

  /** Scanner t takes, reads and scans a chunk of its own queue; on a resumed run it
      need not write a batch. */
  function Worked(s: State, t: nat, writes: bool): State
    requires t < |s.nodes| == |s.scanners| && s.nodes[t].tail < |s.nodes[t].queue|
  {
    var n, x := s.nodes[t], s.scanners[t];
    s.(nodes := s.nodes[t := n.(tail := n.tail + 1, claimed := Slot(n.queue, n.tail))],
       scanners := s.scanners[t := Scanner(Free, x.taken + 1, x.finished + 1,
                                           x.scanned + (if writes then 1 else 0),
                                           x.scanned + (if writes then 1 else 0))])
  }

  function Grabbed(s: State, t: nat): State
    requires t < |s.nodes| == |s.scanners| && s.nodes[t].tail < |s.nodes[t].queue|
  {
    var n := s.nodes[t];
    s.(nodes := s.nodes[t := n.(tail := n.tail + 1, claimed := Slot(n.queue, n.tail))],
       scanners := s.scanners[t := s.scanners[t].(duty := Busy(false), taken := s.scanners[t].taken + 1)])
  }

  lemma Grab(c: Config, states: seq<State>, s: State, t: nat) returns (more: seq<State>)
    requires Ends(c, states, s) && c.Ok() && |s.nodes| == |s.scanners| == c.nodes && t < c.nodes
    requires s.scanners[t].duty == Free && s.nodes[t].tail < s.nodes[t].ready <= |s.nodes[t].queue|
    ensures Ends(c, more, Grabbed(s, t))
  {
    hide Ends, Slot;
    var s1 := s.(scanners := s.scanners[t := s.scanners[t].(duty := Decided(t))]);
    more := Extend(c, states, s, Decide(t, t));
    assert Do(c, s, Decide(t, t)) == s1;
    var s2 := Taken(s1, t, t);
    more := Extend(c, more, s1, Take(t));
    more := Extend(c, more, s2, Read(t));
    assert Do(c, s2, Read(t)) == Grabbed(s, t);
  }

  lemma Work(c: Config, states: seq<State>, s: State, t: nat, writes: bool) returns (more: seq<State>)
    requires Ends(c, states, s) && c.Ok() && |s.nodes| == |s.scanners| == c.nodes && t < c.nodes
    requires s.scanners[t].duty == Free && s.scanners[t].written == s.scanners[t].scanned && (writes || c.resumed)
    requires s.nodes[t].tail < s.nodes[t].ready <= |s.nodes[t].queue|
    ensures Ends(c, more, Worked(s, t, writes))
  {
    hide Ends, Slot;
    var v := s.scanners[t].scanned;
    var g := Grabbed(s, t);
    more := Grab(c, states, s, t);
    if writes {
      var f := Do(c, g, Flush(t, v + 1));
      more := Extend(c, more, g, Flush(t, v + 1));
      more := Extend(c, more, f, Finish(t, v + 1));
      assert Do(c, f, Finish(t, v + 1)) == Worked(s, t, writes);
    } else {
      more := Extend(c, more, g, Finish(t, v));
      assert Do(c, g, Finish(t, v)) == Worked(s, t, writes);
    }
  }

  /** Scanner k, with nothing indexed in its own queue, alone gets the next chunk of
      node i once that has as many as the tuned threshold asks for. */
  lemma Steals(c: Config, states: seq<State>, s: State, k: nat, i: nat) returns (more: seq<State>, u: State)
    requires Ends(c, states, s) && c.Ok() && |s.nodes| == |s.scanners| == c.nodes && k < c.nodes && i < c.nodes
    requires i != k && s.scanners[k].duty == Free && s.nodes[k].ready <= s.nodes[k].tail && s.steal > 0
    requires s.nodes[i].tail + s.steal <= s.nodes[i].ready <= |s.nodes[i].queue|
    ensures Ends(c, more, u) && |u.nodes| == |u.scanners| == c.nodes
    ensures u.scanners[k].duty == Busy(false) && u.nodes[i].tail == s.nodes[i].tail + 1
    ensures u.nodes[k].claimed == Slot(s.nodes[i].queue, s.nodes[i].tail) && u.major == s.major
  {
    hide Ends, Slot;
    var s1 := s.(scanners := s.scanners[k := s.scanners[k].(duty := Decided(i))]);
    more := Extend(c, states, s, Decide(k, i));
    assert Do(c, s, Decide(k, i)) == s1;
    var s2 := Taken(s1, k, i);
    more := Extend(c, more, s1, Take(k));
    more := Extend(c, more, s2, Read(k));
    u := Do(c, s2, Read(k));
  }

  // ---- A held ticket is overtaken ----

  /** Chunk numbers 1..k - 1. */
  function Others(k: nat): (q: seq<nat>)
    requires k > 0
    ensures |q| == k - 1 && forall j :: 0 <= j < k - 1 ==> q[j] == j + 1
  {
    seq(k - 1, j requires 0 <= j < k - 1 => j + 1)
  }

  /** How much goes to a node before ingest turns to the next. */
  function FirstStay(c: Config): nat {
    if c.chunk < 0x1_0000 then c.chunk else 0x1_0000
  }

  /** The scanner of node 0 has claimed the first chunk and is held up; the other
      k - 1 chunks, of one byte each, went to node 1, which is drained. */
  ghost predicate Lane(c: Config, s: State, k: nat) {
    && c.Ok() && c.nodes >= 2 && k > 0 && |s.nodes| == |s.scanners| == c.nodes
    && s.nodes[0] == Node([0], 1, 1, 0, s.nodes[0].claimed) && s.scanners[0].duty == Holding(0, 0)
    && s.nodes[1].queue == Others(k) && s.nodes[1].ready == s.nodes[1].tail == k - 1
    && (forall i :: 2 <= i < c.nodes ==> s.nodes[i] == Node([], 0, 0, 0, 0))
    && (forall j :: 1 <= j < c.nodes ==> s.scanners[j].duty == Free)
    && s.scanners[1].written == s.scanners[1].scanned == Sum(Visible(s.scanners)) == k - 1
    && s.major == k && s.offset == FirstStay(c) + k - 1 && s.accum == FirstStay(c)
    && (if k == 1 then s.last == 0 && s.here == s.accum && s.count == 0 else s.last == 1 && s.here == k - 1)
    && s.limit == 4 && s.steal == c.base && !s.untuned && !s.eof
  }

  /** Nothing but the held ticket waits, and no pin of more than a ring minds it. */
  lemma LaneBehind(c: Config, s: State, k: nat, i: nat)
    requires Lane(c, s, k) && !Guarded(c) && k <= RING && i < c.nodes
    ensures Behind(c, s, i)
  {
    forall t: nat | Waits(s, i, t) ensures i == 0 && t == 0 {
      if s.nodes[i].tail > t {
        var x: nat :| Unread(s, x, i, t);
        assert s.scanners[x].duty.Holding?;
      }
    }
  }

  lemma LaneOpen(c: Config, s: State, k: nat)
    requires Lane(c, s, k) && !Guarded(c) && k <= RING
    ensures Open(c, s, 1) && s.nodes[1].ready == |s.nodes[1].queue|
  {
    forall i | 0 <= i < c.nodes ensures Unpinned(s.nodes[i], s.major) && Behind(c, s, i) {
      LaneBehind(c, s, k, i);
    }
    hide Behind, Unpinned;
  }

  /** Tuning a young run leaves the limit and the threshold where they are. */
  lemma YoungTuned(c: Config, p: State)
    requires c.Ok() && c.lines && p.offset <= 2 * c.chunk && p.limit == 4 && Sum(Visible(p.scanners)) <= RING
    ensures Fits64(c, p, 0) && StillYoung(c, p)
  {
    var batches := Sum(Visible(p.scanners));
    Scaled(batches, RING, c.chunk);
    FloorIs(c, p, 0, false, 0, false);
    YoungFloor(p.offset, c.chunk, batches);
    ShareFits(c.nodes);
    hide Sum, MinBuf, GlobalMax;
    FourStays(p.meter, GlobalMax(c.nodes), false, 0);
  }

  ghost predicate StillYoung(c: Config, p: State)
    requires c.nodes > 0
  {
    var q := Retuned(c, p, SampleOf(c, p, 0, false, 0, false));
    q == p.(limit := 4, meter := q.meter, untuned := false, steal := c.base)
  }

  lemma YoungFloor(offset: nat, chunk: nat, batches: nat)
    requires offset <= 2 * chunk && chunk > 0
    ensures batches > 0 ==> chunk * batches * 2 > 0 && offset * 1 / (chunk * batches * 2) < 4
  {
    if batches > 0 {
      Scaled(1, batches, chunk);
      Quotients(offset, chunk * batches * 2, 1);
    }
  }

  /** The first chunk goes to node 0; its scanner claims it and stops. */
  lemma LaneStarts(c: Config) returns (states: seq<State>, s: State)
    requires c.Ok() && c.nodes >= 2
    ensures Ends(c, states, s) && Lane(c, s, 1)
  {
    var u := Start(c);
    states := [u];
    assert Open(c, u, 0) by { StartOpen(c); }
    FirstFed(c);
    hide Fed, Open, Fits64, Start;
    states := Feed(c, states, u, 0, FirstStay(c), 0);
    states, s := FirstClaimed(c, states, Fed(c, u, 0, FirstStay(c), 0));
  }

  /** The first chunk is with node 0 and indexed; everything else is fresh. */
  ghost predicate Opening(c: Config, u: State)
    requires c.nodes > 0
  {
    && u.nodes == Start(c).nodes[0 := Node([0], 1, 0, 0, 0)] && u.scanners == Start(c).scanners
    && u.major == 1 && u.offset == FirstStay(c) == u.accum == u.here && u.last == 0 && u.count == 0
    && u.limit == 4 && u.steal == c.base && !u.untuned && !u.eof
  }

  lemma FirstClaimed(c: Config, states: seq<State>, u: State) returns (more: seq<State>, s: State)
    requires Ends(c, states, u) && c.Ok() && c.nodes >= 2 && Opening(c, u)
    ensures Ends(c, more, s) && Lane(c, s, 1)
  {
    hide Ends;
    AllZero(Visible(u.scanners));
    more := Extend(c, states, u, Decide(0, 0));
    var v := u.(scanners := u.scanners[0 := u.scanners[0].(duty := Decided(0))]);
    assert Do(c, u, Decide(0, 0)) == v;
    more := Extend(c, more, v, Take(0));
    s := Taken(v, 0, 0);
    assert Visible(s.scanners) == Visible(u.scanners);
    hide Sum;
  }

  lemma StartOpen(c: Config)
    requires c.Ok()
    ensures Open(c, Start(c), 0)
  {
    var u := Start(c);
    forall i | 0 <= i < c.nodes ensures Unpinned(u.nodes[i], u.major) && Behind(c, u, i) {
      forall t: nat ensures !Waits(u, i, t) {}
    }
  }

  lemma FirstFed(c: Config)
    requires c.Ok()
    ensures c.lines ==> Fits64(c, Sent(c, Start(c), 0, FirstStay(c)), 0)
    ensures Opening(c, Fed(c, Start(c), 0, FirstStay(c), 0))
  {
    var s := Start(c);
    var p := Sent(c, s, 0, FirstStay(c));
    assert s.nodes[0].queue + [0] == [0];
    assert p.nodes == s.nodes[0 := Node([0], 0, 0, 0, 0)];
    assert p.offset == FirstStay(c) && p.limit == 4 && p.scanners == s.scanners;
    AllZero(Visible(s.scanners));
    if c.lines {
      hide Fits64, Retuned, SampleOf, Sum;
      YoungTuned(c, p);
    }
  }

  lemma LaneSent(c: Config, s: State, k: nat)
    requires Lane(c, s, k) && k <= RING
    ensures var p := Sent(c, s, 1, 1);
      && p.offset == s.offset + 1 && p.major == k + 1 && p.here == k && p.last == 1 && p.accum == s.accum
      && p.limit == 4 && p.steal == c.base && p.scanners == s.scanners && p.untuned == c.lines && !p.eof
      && p.nodes == s.nodes[1 := s.nodes[1].(queue := Others(k + 1))]
  {
    assert Others(k) + [k] == Others(k + 1);
    hide Sum;
  }

  lemma LaneFits(c: Config, s: State, k: nat)
    requires Lane(c, s, k) && k <= RING
    ensures c.lines ==> Fits64(c, Sent(c, s, 1, 1), 0) && StillYoung(c, Sent(c, s, 1, 1))
  {
    LaneSent(c, s, k);
    if c.lines {
      hide Sent, Sum, Fits64, Retuned, SampleOf;
      YoungTuned(c, Sent(c, s, 1, 1));
    }
  }

  /** One more chunk for node 1, not scanned yet. */
  ghost predicate LaneReady(c: Config, s: State, u: State, k: nat)
    requires k > 0
  {
    && |s.nodes| == |u.nodes| == c.nodes && c.nodes >= 2
    && u.nodes == s.nodes[1 := Node(Others(k + 1), k, k - 1, k, s.nodes[1].claimed)] && u.scanners == s.scanners
    && u.major == k + 1 && u.offset == s.offset + 1 && u.accum == s.accum && u.last == 1 && u.here == k
    && u.limit == 4 && u.steal == c.base && !u.untuned && !u.eof
  }

  lemma LaneFed(c: Config, s: State, k: nat)
    requires Lane(c, s, k) && k <= RING
    ensures LaneReady(c, s, Fed(c, s, 1, 1, 0), k)
  {
    LaneSent(c, s, k);
    LaneFits(c, s, k);
    hide Sent, Sum, Retuned, SampleOf, Others, Visible;
  }

  lemma LaneFeed(c: Config, states: seq<State>, s: State, k: nat) returns (more: seq<State>, u: State)
    requires Ends(c, states, s) && Lane(c, s, k) && !Guarded(c) && k <= RING
    ensures Ends(c, more, u) && LaneReady(c, s, u, k)
  {
    LaneOpen(c, s, k);
    LaneFits(c, s, k);
    LaneFed(c, s, k);
    u := Fed(c, s, 1, 1, 0);
    hide Open, Fed, LaneReady, Fits64;
    more := Feed(c, states, s, 1, 1, 0);
  }

  lemma LaneWorked(c: Config, s: State, u: State, k: nat)
    requires Lane(c, s, k) && LaneReady(c, s, u, k)
    ensures Lane(c, Worked(u, 1, true), k + 1)
  {
    hide Slot, Others;
    var x := Worked(u, 1, true);
    assert Visible(x.scanners) == Visible(s.scanners)[1 := k];
    SumUpdate(Visible(s.scanners), 1, k);
    hide Sum;
  }

  lemma LaneWork(c: Config, states: seq<State>, s: State, u: State, k: nat) returns (more: seq<State>, v: State)
    requires Ends(c, states, u) && Lane(c, s, k) && LaneReady(c, s, u, k)
    ensures Ends(c, more, v) && Lane(c, v, k + 1)
  {
    LaneWorked(c, s, u, k);
    hide Ends, Sum, Slot, Others;
    more := Work(c, states, u, 1, true);
    v := Worked(u, 1, true);
  }

  /** Chunk after chunk goes to node 1 and is scanned; the scanner of node 0 still
      has not read its entry. */
  lemma {:induction false} RoundsUp(c: Config, k: nat) returns (states: seq<State>, s: State)
    requires c.Ok() && !Guarded(c) && 0 < k <= RING
    ensures Ends(c, states, s) && Lane(c, s, k)
  {
    hide Ends, Lane, LaneReady;
    if k == 1 {
      states, s := LaneStarts(c);
    } else {
      var t, u;
      states, t := RoundsUp(c, k - 1);
      states, u := LaneFeed(c, states, t, k - 1);
      states, s := LaneWork(c, states, t, u, k - 1);
    }
  }

  /** Two nodes are enough, and nobody need steal: the scanner of node 0 claims the
      first chunk and is held up; when the other node has had a ring of chunks, the
      meta slot it is about to read belongs to chunk 4096. */
  lemma HeldTicketOvertaken(c: Config) returns (states: seq<State>)
    requires c.Ok() && !Guarded(c)
    ensures Run(c, states)
    ensures var s := states[|states| - 1];
      Unread(s, 0, 0, 0) && s.nodes[0].queue == [0] && s.major == RING + 1
  {
    var s, u;
    states, s := RoundsUp(c, RING);
    states, u := LaneFeed(c, states, s, RING);
  }

  /** The exact condition: in every state of every run each held ticket finds its
      own chunk, if and only if there is one node, or the frontier pin covers every
      chunk not yet read up to a ring. */
  lemma HeldSafeIff(c: Config)
    requires c.Ok()
    ensures Guarded(c) <==> forall states, i :: Run(c, states) && 0 <= i < |states| ==> AllIntact(states[i])
  {
    hide Run, AllIntact, Config.Ok;
    if Guarded(c) {
      forall states, i | Run(c, states) && 0 <= i < |states| ensures AllIntact(states[i]) {
        HeldStaysIntact(c, states, i);
      }
    } else {
      var states := HeldTicketOvertaken(c);
      NotIntact(c, states);
    }
  }

  lemma NotIntact(c: Config, states: seq<State>)
    requires states != [] && Unread(states[|states| - 1], 0, 0, 0) && states[|states| - 1].nodes[0].queue == [0]
    requires states[|states| - 1].major == RING + 1
    ensures !AllIntact(states[|states| - 1])
  {
  }

  // ---- The limit of a resumed run drops to nothing ----

  /** k full chunks published, indexed and scanned; every queue drained. */
  ghost predicate Quiet(c: Config, s: State, k: nat) {
    && c.Ok() && c.resumed && c.lines && |s.nodes| == |s.scanners| == c.nodes
    && (forall i :: 0 <= i < c.nodes ==> Drained(s.nodes[i]))
    && (forall j :: 0 <= j < c.nodes ==> Idle(s.scanners[j]))
    && s.major == k && s.offset == k * c.chunk && s.last >= -1 && s.accum <= c.chunk
    && (s.last == -1 || s.here >= s.accum) && !s.room && !s.untuned && !s.eof && s.steal >= 1
  }

  ghost predicate Drained(n: Node) {
    |n.queue| == n.ready == n.tail
  }

  ghost predicate Idle(x: Scanner) {
    x.duty == Free && x.written == x.scanned
  }

  /** With all queues empty ingest takes the next node in turn. */
  function InTurn(c: Config, s: State): (t: nat)
    requires c.nodes > 0 && s.last >= -1
    ensures t < c.nodes
  {
    if s.last == -1 then 0 else (s.last + 1) % c.nodes
  }

  lemma QuietOpen(c: Config, s: State, k: nat)
    requires Quiet(c, s, k) && s.limit > 0
    ensures Open(c, s, InTurn(c, s)) && s.nodes[InTurn(c, s)].ready == |s.nodes[InTurn(c, s)].queue|
  {
    assert Drained(s.nodes[InTurn(c, s)]);
    forall i | 0 <= i < |s.nodes| ensures Unpinned(s.nodes[i], s.major) && Behind(c, s, i) {
      assert Drained(s.nodes[i]);
      forall t: nat ensures !Waits(s, i, t) {
        forall x: nat ensures !Unread(s, x, i, t) {
          if x < c.nodes { assert Idle(s.scanners[x]); }
        }
      }
    }
    hide Behind, Unpinned;
  }

  /** The tuning round after the next chunk. */
  function NextRound(c: Config, s: State, workers: nat): (nat, nat)
    requires c.nodes > 0
  {
    Tuned(s.limit, s.meter, Sample(s.offset + c.chunk, workers, Sum(Visible(s.scanners)), c.chunk, false, 0, false),
          c.nodes)
  }

  lemma QuietSent(c: Config, s: State, k: nat)
    requires Quiet(c, s, k)
    ensures var t, p := InTurn(c, s), Sent(c, s, InTurn(c, s), c.chunk);
      && p.offset == s.offset + c.chunk && p.major == k + 1 && p.last == t && p.here >= p.accum && p.accum <= c.chunk
      && p.limit == s.limit && p.meter == s.meter && p.scanners == s.scanners && !p.eof && !p.room
      && p.nodes == s.nodes[t := s.nodes[t].(queue := s.nodes[t].queue + [k])]
  {
    hide Drained, Idle;
  }

  /** One more full chunk; `writes` says whether its scanner finds a batch that is
      not complete. */
  lemma QuietRound(c: Config, states: seq<State>, s: State, k: nat, workers: nat, writes: bool)
    returns (more: seq<State>, u: State)
    requires Ends(c, states, s) && Quiet(c, s, k) && s.limit > 0 && workers <= 8192
    requires (s.offset + c.chunk) * Average(workers, c.nodes) < 0x1_0000_0000_0000_0000 && Sum(Visible(s.scanners)) <= 1
    ensures Ends(c, more, u) && Quiet(c, u, k + 1) && (u.limit, u.meter) == NextRound(c, s, workers)
    ensures Sum(Visible(u.scanners)) == Sum(Visible(s.scanners)) + if writes then 1 else 0
  {
    var t := InTurn(c, s);
    QuietOpen(c, s, k);
    QuietFits(c, s, k, workers);
    QuietFed(c, s, k, workers);
    var f := Fed(c, s, t, c.chunk, workers);
    ReadyWorks(c, f, t, k + 1);
    hide *;
    more := Feed(c, states, s, t, c.chunk, workers);
    more := Work(c, more, f, t, writes);
    u := Worked(f, t, writes);
    QuietWorked(c, f, t, k + 1, writes);
  }

  lemma QuietFits(c: Config, s: State, k: nat, workers: nat)
    requires Quiet(c, s, k) && Sum(Visible(s.scanners)) <= 1
    requires (s.offset + c.chunk) * Average(workers, c.nodes) < 0x1_0000_0000_0000_0000
    ensures 0 < c.chunk && Fits64(c, Sent(c, s, InTurn(c, s), c.chunk), workers)
  {
    QuietSent(c, s, k);
    hide Sent, Sum;
  }

  lemma ReadyWorks(c: Config, s: State, t: nat, k: nat)
    requires OneReady(c, s, t, k)
    ensures c.Ok() && c.resumed && |s.nodes| == |s.scanners| == c.nodes && t < c.nodes
    ensures s.scanners[t].duty == Free && s.scanners[t].written == s.scanners[t].scanned
    ensures s.nodes[t].tail < s.nodes[t].ready <= |s.nodes[t].queue|
  {
    assert Idle(s.(nodes := s.nodes[t := s.nodes[t].(tail := s.nodes[t].ready)]).scanners[t]);
  }

  /** All is quiet but for the chunk just indexed at node t. */
  ghost predicate OneReady(c: Config, s: State, t: nat, k: nat) {
    && t < |s.nodes| == |s.scanners| && s.nodes[t].tail + 1 == s.nodes[t].ready == |s.nodes[t].queue|
    && Quiet(c, s.(nodes := s.nodes[t := s.nodes[t].(tail := s.nodes[t].ready)]), k)
  }

  lemma QuietFedIs(c: Config, s: State, k: nat, workers: nat)
    requires Quiet(c, s, k)
    ensures var t, f := InTurn(c, s), Fed(c, s, InTurn(c, s), c.chunk, workers);
      && f.nodes ==
         s.nodes[t := Node(s.nodes[t].queue + [k], s.nodes[t].ready + 1, s.nodes[t].tail, k, s.nodes[t].claimed)]
      && f.scanners == s.scanners && f.major == k + 1 && f.offset == s.offset + c.chunk && f.last == t
      && f.here >= f.accum && f.accum <= c.chunk && !f.room && !f.untuned && !f.eof && f.steal >= 1
      && (f.limit, f.meter) == NextRound(c, s, workers)
  {
    QuietSent(c, s, k);
    var p := Sent(c, s, InTurn(c, s), c.chunk);
    hide Sent, Sum, Tuned, MinBuf, GlobalMax, Drained, Idle;
    assert SampleOf(c, p, workers, false, 0, false)
        == Sample(s.offset + c.chunk, workers, Sum(Visible(s.scanners)), c.chunk, false, 0, false);
  }

  lemma QuietFed(c: Config, s: State, k: nat, workers: nat)
    requires Quiet(c, s, k)
    ensures var t, f := InTurn(c, s), Fed(c, s, InTurn(c, s), c.chunk, workers);
      OneReady(c, f, t, k + 1) && (f.limit, f.meter) == NextRound(c, s, workers) && f.scanners == s.scanners
  {
    QuietFedIs(c, s, k, workers);
    var t, f := InTurn(c, s), Fed(c, s, InTurn(c, s), c.chunk, workers);
    assert Drained(s.nodes[t]);
    hide Fed, NextRound, Idle, Average, InTurn;
    assert (k + 1) * c.chunk == k * c.chunk + c.chunk;
    var g := f.nodes[t := f.nodes[t].(tail := f.nodes[t].ready)];
    forall i | 0 <= i < c.nodes ensures Drained(g[i]) {
      assert Drained(s.nodes[i]);
    }
  }

  lemma QuietWorked(c: Config, s: State, t: nat, k: nat, writes: bool)
    requires OneReady(c, s, t, k)
    ensures var u := Worked(s, t, writes);
      Quiet(c, u, k) && u.limit == s.limit && u.meter == s.meter
      && Sum(Visible(u.scanners)) == Sum(Visible(s.scanners)) + if writes then 1 else 0
  {
    hide Slot;
    var u, x := Worked(s, t, writes), s.scanners[t];
    var q := s.(nodes := s.nodes[t := s.nodes[t].(tail := s.nodes[t].ready)]);
    assert Idle(q.scanners[t]);
    assert Visible(u.scanners) == Visible(s.scanners)[t := x.scanned + if writes then 1 else 0];
    SumUpdate(Visible(s.scanners), t, x.scanned + if writes then 1 else 0);
    hide Sum;
    forall i | 0 <= i < c.nodes ensures Drained(u.nodes[i]) && Idle(u.scanners[i]) {
      assert Drained(q.nodes[i]) && Idle(q.scanners[i]);
    }
  }

  /** Workers enough for an average of A on each node. */
  lemma AverageIs(A: nat, nodes: nat)
    requires 0 < nodes && A > 0
    ensures Average(A * nodes, nodes) == A && Average(0, nodes) == 1
  {
    DivIs(A * nodes, nodes, A, 0);
  }

  lemma DivIs(a: nat, d: nat, q: nat, r: nat)
    requires a == q * d + r && r < d
    ensures a / d == q
  {
    if a / d < q { Scaled(a / d + 1, q, d); } else if a / d > q { Scaled(q + 1, a / d, d); }
  }

  /** The floor of a round over m full chunks and one batch. */
  lemma FloorOfOne(m: nat, chunk: nat, A: nat, workers: nat, nodes: nat)
    requires 0 < nodes && chunk > 0 && Average(workers, nodes) == A && m * chunk * A < 0x1_0000_0000_0000_0000
    requires chunk < 0x1_0000_0000 && 4 <= m * A / 2 < 0x1_0000_0000
    ensures MinBuf(Sample(m * chunk, workers, 1, chunk, false, 0, false), nodes) == m * A / 2
  {
    var x := m * A;
    assert m * chunk * A == x * chunk;
    Unwrapped(m * chunk * A);
    Unwrapped(chunk * 1 * 2);
    Halved(x, chunk);
    hide GlobalMax;
  }

  lemma Halved(x: nat, chunk: nat)
    requires chunk > 0
    ensures x * chunk / (chunk * 2) == x / 2
  {
    var q, r := x / 2, x % 2;
    assert x * chunk == (2 * q + r) * chunk == q * (chunk * 2) + r * chunk;
    if r == 1 { DivIs(x * chunk, chunk * 2, q, chunk); } else { DivIs(x * chunk, chunk * 2, q, 0); }
  }

  lemma OffsetFits(c: Config, m: nat, A: nat, N: nat)
    requires c.Ok() && c.lines && N * A == 0x8000_0000 && m <= N
    ensures m * c.chunk * A <= 0x8000_0000 * c.chunk < 0x1_0000_0000_0000_0000
    ensures m * c.chunk * 1 <= m * c.chunk * A || A == 0
  {
    Scaled(m, N, A);
    Scaled(m * A, N * A, c.chunk);
    assert m * c.chunk * A == m * A * c.chunk;
    if A > 0 { Scaled(1, A, m * c.chunk); }
  }

  /** While nothing is visible the limit stays at 4. */
  lemma QuietFour(c: Config, s: State, k: nat, workers: nat)
    requires Quiet(c, s, k) && s.limit == 4 && Sum(Visible(s.scanners)) == 0
    ensures NextRound(c, s, workers).0 == 4
  {
    ShareFits(c.nodes);
    hide Sum, GlobalMax;
    FourStays(s.meter, GlobalMax(c.nodes), false, 0);
  }

  /** The resumed run passes over chunks that are complete. */
  lemma {:induction false} PassOver(c: Config, A: nat, N: nat, k: nat) returns (states: seq<State>, s: State)
    requires c.Ok() && c.resumed && c.lines && N * A == 0x8000_0000 && k <= N
    ensures Ends(c, states, s) && Quiet(c, s, k) && s.limit == 4 && Sum(Visible(s.scanners)) == 0
  {
    if k == 0 {
      s := Start(c);
      states := [s];
      AllZero(Visible(s.scanners));
    } else {
      states, s := PassOver(c, A, N, k - 1);
      OffsetFits(c, k, A, N);
      AverageIs(1, c.nodes);
      assert s.offset + c.chunk == k * c.chunk;
      QuietFour(c, s, k - 1, 0);
      hide Ends, Quiet, NextRound, Average;
      states, s := QuietRound(c, states, s, k - 1, 0, false);
    }
  }

  /** One batch is visible: the next round but one before the last lifts the limit
      to the share, the last drops it to 0. */
  lemma LastRounds(c: Config, s: State, A: nat, N: nat, k: nat)
    requires Quiet(c, s, k) && N * A == 0x8000_0000 && 0 < A && A * c.nodes <= 8192
    requires Sum(Visible(s.scanners)) == 1
    ensures k + 2 == N && s.limit == 4 ==> NextRound(c, s, A * c.nodes).0 == GlobalMax(c.nodes)
    ensures k + 1 == N && s.limit == GlobalMax(c.nodes) ==> NextRound(c, s, A * c.nodes).0 == 0
  {
    AverageIs(A, c.nodes);
    ShareFits(c.nodes);
    var m := k + 1;
    assert s.offset + c.chunk == m * c.chunk;
    Scaled(1, c.nodes, A);
    hide Sum, MinBuf, GlobalMax, Average;
    if m <= N {
      OffsetFits(c, m, A, N);
      if m == N {
        FloorOfOne(m, c.chunk, A, A * c.nodes, c.nodes);
        FloorWraps(s.meter, GlobalMax(c.nodes), false, 0, false);
      } else if m + 1 == N {
        assert m * A == 0x8000_0000 - A;
        FloorOfOne(m, c.chunk, A, A * c.nodes, c.nodes);
        Lifted(s.meter, A, GlobalMax(c.nodes));
      }
    }
  }

  lemma Lifted(meter: nat, A: nat, g: nat)
    requires 4 <= g <= 2048 && 0 < A <= 8192
    ensures TunedFrom(4, meter, (0x8000_0000 - A) / 2, g, false, 0, false).0 == g
  {
    hide Metered;
  }

  /** The resumed run up to its only batch, two chunks before the last. */
  lemma OneBatch(c: Config, A: nat, N: nat) returns (states: seq<State>, s: State)
    requires c.Ok() && c.resumed && c.lines && N * A == 0x8000_0000 && A * c.nodes <= 8192 && N >= 3 && A > 0
    ensures Ends(c, states, s) && Quiet(c, s, N - 2) && s.limit == 4 && Sum(Visible(s.scanners)) == 1
  {
    states, s := PassOver(c, A, N, N - 3);
    QuietFour(c, s, N - 3, 0);
    hide Ends, NextRound, Sum, Quiet, Config.Ok;
    states, s := NextQuiet(c, states, s, N - 3, 0, A, N, true);
  }

  /** A resumed run over N chunks, N times the workers per node being 2^31: all of
      it is complete but a batch two chunks before the last.  The last round's
      floor is 2^30, its ceiling wraps to 0, and the limit with it. */
  lemma LimitDrops(c: Config, A: nat, N: nat) returns (states: seq<State>, s: State)
    requires c.Ok() && c.resumed && c.lines && N * A == 0x8000_0000 && A * c.nodes <= 8192
    ensures Ends(c, states, s) && Quiet(c, s, N) && s.limit == 0
  {
    Scaled(1, c.nodes, A);
    FewWorkers(A, N);
    states, s := OneBatch(c, A, N);
    LastRounds(c, s, A, N, N - 2);
    ShareFits(c.nodes);
    hide Ends, NextRound, GlobalMax, Sum, Quiet, Config.Ok;
    states, s := NextQuiet(c, states, s, N - 2, A * c.nodes, A, N, false);
    LastRounds(c, s, A, N, N - 1);
    states, s := NextQuiet(c, states, s, N - 1, A * c.nodes, A, N, false);
  }

  lemma NextQuiet(c: Config, states: seq<State>, s: State, k: nat, workers: nat, A: nat, N: nat, writes: bool)
    returns (more: seq<State>, u: State)
    requires Ends(c, states, s) && Quiet(c, s, k) && s.limit > 0 && Sum(Visible(s.scanners)) <= 1
    requires N * A == 0x8000_0000 && A > 0 && k < N && A * c.nodes <= 8192 && (workers == 0 || workers == A * c.nodes)
    ensures Ends(c, more, u) && Quiet(c, u, k + 1) && (u.limit, u.meter) == NextRound(c, s, workers)
    ensures Sum(Visible(u.scanners)) == Sum(Visible(s.scanners)) + if writes then 1 else 0
  {
    AverageIs(A, c.nodes);
    OffsetFits(c, k + 1, A, N);
    QuietOffset(c, s, k);
    hide Ends, NextRound, Average, Sum, Quiet;
    more, u := QuietRound(c, states, s, k, workers, writes);
  }

  lemma QuietOffset(c: Config, s: State, k: nat)
    requires Quiet(c, s, k)
    ensures s.offset + c.chunk == (k + 1) * c.chunk
  {
  }

  lemma FewWorkers(A: nat, N: nat)
    requires N * A == 0x8000_0000 && A <= 8192
    ensures N >= 3 && A > 0
  {
    if N < 3 { Scaled(N, 3, A); }
  }

  /** Nothing is under way and the depth gate lets nothing through. */
  ghost predicate Shut(c: Config, s: State) {
    && |s.nodes| == |s.scanners| == c.nodes && s.limit == 0 && !s.room && !s.untuned && s.steal >= 1
    && (forall i :: 0 <= i < c.nodes ==> Drained(s.nodes[i]))
    && (forall j :: 0 <= j < c.nodes ==> s.scanners[j].duty == Free)
  }

  lemma QuietShut(c: Config, s: State, k: nat)
    requires Quiet(c, s, k) && s.limit == 0
    ensures Shut(c, s)
  {
    forall j | 0 <= j < c.nodes ensures s.scanners[j].duty == Free { assert Idle(s.scanners[j]); }
  }

  lemma ShutStays(c: Config, s: State, a: Action)
    requires Shut(c, s) && Enabled(c, s, a)
    ensures Shut(c, Do(c, s, a)) && Do(c, s, a).major == s.major
  {
    hide Behind, MayAim;
  }

  /** From there on nothing is ever published: the run hangs. */
  lemma {:induction false} ShutForGood(c: Config, states: seq<State>, i: nat, j: nat)
    requires Run(c, states) && i <= j < |states| && Shut(c, states[i])
    ensures Shut(c, states[j]) && states[j].major == states[i].major
  {
    hide *;
    if i < j {
      ShutForGood(c, states, i, j - 1);
      var a := StepInto(c, states, j);
      ShutStays(c, states[j - 1], a);
    }
  }

  /** The hang: after those N chunks ingest publishes nothing more, however the run
      goes on. */
  lemma IngestHangs(c: Config, A: nat, N: nat) returns (states: seq<State>)
    requires c.Ok() && c.resumed && c.lines && N * A == 0x8000_0000 && A * c.nodes <= 8192
    ensures Run(c, states) && states[|states| - 1].limit == 0 && states[|states| - 1].major == N
    ensures forall more: seq<State>, j: nat :: Run(c, more) && states <= more && |states| <= j < |more| ==>
      more[j].major == N
  {
    var s;
    states, s := LimitDrops(c, A, N);
    QuietShut(c, s, N);
    EndsAt(c, states, s);
    assert s.major == N;
    hide Ends, Run, Quiet, Shut;
    forall more: seq<State>, j: nat | Run(c, more) && states <= more && |states| <= j < |more|
      ensures more[j].major == N
    {
      assert more[|states| - 1] == s;
      ShutForGood(c, more, |states| - 1, j);
    }
  }

  /** The exact condition: the depth limit stays at 4 or more in every run if and
      only if the run is not a resumed one of the line path. */
  lemma LimitIff(c: Config)
    requires c.Ok()
    ensures !(c.resumed && c.lines)
       <==> forall states: seq<State>, i: nat :: Run(c, states) && i < |states| ==> 4 <= states[i].limit
  {
    hide Run;
    if c.resumed && c.lines {
      var states, s := LimitDrops(c, 1, 0x8000_0000);
      EndsAt(c, states, s);
    } else {
      forall states: seq<State>, i: nat | Run(c, states) && i < |states| ensures 4 <= states[i].limit {
        LimitInRange(c, states, i);
      }
    }
  }

  lemma EndsAt(c: Config, states: seq<State>, s: State)
    requires Ends(c, states, s)
    ensures Run(c, states) && states != [] && states[|states| - 1] == s
  {
  }
}
