/** NUMA ingest, indexers and scanners around the meta ring, one of each per node:
    who may overwrite what, over whole runs. */
module IngestRun {
  import opened IngestLimit

  const RING: nat := 4096

  /** How far a scanner's visible batches may trail those it has written: four for
      each of at most 8192 workers, and the one being added. */
  const LAG: nat := 32769

  /** What the frontier pin does for chunks that no scanner has read: no more than
      the code's pin, or hold the frontier to less than m past every one of them. */
  datatype Hold = Uncovered | Covered(m: nat)

  /** `base` is the steal threshold between nodes before tuning; reads are at most
      `chunk` bytes, which is never set below 4096; only the line path tunes; a
      resumed run may skip batches. */
  datatype Config = Config(nodes: nat, chunk: nat, lines: bool, resumed: bool, base: nat, held: Hold) {
    ghost predicate Ok() {
      0 < nodes <= 512 && RING <= chunk && (lines ==> chunk <= 0x20_0000) && 2 <= base <= 255
    }
  }

  /** One node's queue.  `queue` (history) are all majors ever queued, newest last;
      the ring keeps the last RING of them.  `ready` and `tail` count the entries
      its indexer has consumed and scanners have claimed; `indexed` and `claimed`
      are the majors its indexer and its scanner advertise. */
  datatype Node = Node(queue: seq<nat>, ready: nat, tail: nat, indexed: nat, claimed: nat)

  /** A scanner between chunks, bound to a queue, holding a ticket whose entry it
      has not read, or scanning a chunk (and whether it wrote a batch for it). */
  datatype Duty = Free | Decided(node: nat) | Holding(node: nat, ticket: nat) | Busy(flushed: bool)

  /** A node's scanner: tickets taken, chunks finished, batches written to the
      node's ring and visible there. */
  datatype Scanner = Scanner(duty: Duty, taken: nat, finished: nat, scanned: nat, written: nat)

  /** `major` is the next to publish, to the queue of `aim`; `room` says that the
      depth gate let it pass, `cleared` are the nodes the frontier pin has let pass
      since.  `last`, `here`, `accum` and `count` choose the next aim; `limit`,
      `meter` and `steal` (threshold) are the tuner's, due after every chunk (`untuned`). */
  datatype State = State(nodes: seq<Node>, scanners: seq<Scanner>, major: nat, offset: nat,
                         aim: int, room: bool, cleared: set<nat>,
                         last: int, here: nat, accum: nat, count: nat,
                         limit: nat, meter: nat, steal: nat, untuned: bool, eof: bool)

  datatype Action =
    | Aim(node: nat)
    | Room                         // depth gate
    | Clear(node: nat)             // frontier pin, node by node
    | Recheck                      // the pin starts over
    | Publish(len: nat)            // meta slot, queue entry, head
    | Tune(workers: nat, stole: bool, extra: nat, saturated: bool)
    | PublishEof                   // sentinel
    | Leave                        // limit reached: no sentinel
    | Consume(node: nat)           // indexer: entry done
    | Advertise(node: nat)         // indexer: its major
    | Decide(k: nat, node: nat)    // scanner k binds itself to a queue
    | Take(k: nat)                 // its fetch-add, perhaps past the head
    | Read(k: nat)                 // its entry, announced on its own node
    | Flush(k: nat, visible: nat)
    | Finish(k: nat, visible: nat)
    | Abandon(k: nat)              // its ticket has no entry and never will

  function Done(n: Node): nat {
    if n.ready < n.tail then n.ready else n.tail
  }

  predicate Unpinned(n: Node, major: nat) {
    |n.queue| <= Done(n) || major < (if n.indexed < n.claimed then n.indexed else n.claimed) + RING / 2
  }

  /** Ticket t of node i is claimed, published and unread. */
  predicate Unread(s: State, k: nat, i: nat, t: nat) {
    && k < |s.scanners| && s.scanners[k].duty == Holding(i, t)
    && i < |s.nodes| && t < |s.nodes[i].queue|
  }

  /** It is published and nobody has read it: held, or not even claimed. */
  ghost predicate Waits(s: State, i: nat, t: nat) {
    && i < |s.nodes| && t < |s.nodes[i].queue|
    && (s.nodes[i].tail <= t || exists k: nat :: Unread(s, k, i, t))
  }

  ghost predicate Behind(c: Config, s: State, i: nat) {
    c.held.Covered? ==> forall t: nat :: Waits(s, i, t) ==> s.major < s.nodes[i].queue[t] + c.held.m
  }

  /** May ingest aim here?  It stays on a node for `accum` bytes, or for 64 KiB
      when another queue looks empty; then it takes the shortest queue it sees, and
      at the start, when all are empty, the first. */
  predicate MayAim(s: State, i: nat) {
    if s.last == -1 then i == 0
    else if s.here >= s.accum || s.here >= 0x1_0000 then true
    else i == s.last
  }

  function EofTarget(s: State): (i: int)
    requires |s.nodes| > 0
    ensures s.last >= -1 ==> 0 <= i < |s.nodes|
  {
    if s.last == -1 then 0 else (s.last + 1) % |s.nodes|
  }

  function Threshold(c: Config, s: State): nat {
    if s.eof then 1 else s.steal
  }

  function Visible(scanners: seq<Scanner>): seq<nat> {
    seq(|scanners|, k requires 0 <= k < |scanners| => scanners[k].written)
  }

  function Sum(xs: seq<nat>): nat {
    if xs == [] then 0 else Sum(xs[..|xs| - 1]) + xs[|xs| - 1]
  }

  function SampleOf(c: Config, s: State, workers: nat, stole: bool, extra: nat, saturated: bool): Sample {
    Sample(s.offset, workers, Sum(Visible(s.scanners)), c.chunk, stole, extra, saturated)
  }

  function Average(workers: nat, nodes: nat): nat
    requires nodes > 0
  {
    if workers / nodes < 1 then 1 else workers / nodes
  }

  /** A tuning round's two products fit their 64 bits: at 8192 workers that is 2^51
      bytes of input. */
  ghost predicate Fits64(c: Config, s: State, workers: nat)
    requires c.Ok()
  {
    && s.offset * Average(workers, c.nodes) < 0x1_0000_0000_0000_0000
    && c.chunk * Sum(Visible(s.scanners)) * 2 < 0x1_0000_0000_0000_0000
  }

  ghost predicate Enabled(c: Config, s: State, a: Action) {
    c.Ok() && |s.nodes| == |s.scanners| == c.nodes &&
    match a
    case Aim(i) => !s.eof && !s.untuned && i < |s.nodes| && MayAim(s, i)
    case Room => !s.eof && 0 <= s.aim < |s.nodes| && |s.nodes[s.aim].queue| - s.nodes[s.aim].tail < s.limit
    case Clear(i) => !s.eof && s.room && i < |s.nodes| && Unpinned(s.nodes[i], s.major) && Behind(c, s, i)
    case Recheck => s.room
    case Publish(len) => !s.eof && MayPublish(s) && 0 < len <= c.chunk
    case Tune(workers, _, _, _) => !s.eof && s.untuned && workers <= 8192 && Fits64(c, s, workers)
    case PublishEof =>
      !s.eof && MayPublish(s) && s.last >= -1
      && |s.nodes[EofTarget(s)].queue| - s.nodes[EofTarget(s)].tail < 4
    case Leave => !s.eof
    case Consume(i) => i < |s.nodes| && s.nodes[i].ready < |s.nodes[i].queue|
    case Advertise(i) => i < |s.nodes| && 0 < s.nodes[i].ready <= |s.nodes[i].queue|
    case Decide(k, i) =>
      k < |s.nodes| && i < |s.nodes| && s.scanners[k].duty == Free
      && if i == k then s.nodes[k].tail < s.nodes[k].ready
         else s.nodes[k].tail >= s.nodes[k].ready && s.nodes[i].ready >= s.nodes[i].tail + Threshold(c, s)
    case Take(k) => k < |s.nodes| && s.scanners[k].duty.Decided? && s.scanners[k].duty.node < |s.nodes|
    case Read(k) => k < |s.nodes| && Held(s, k) && s.scanners[k].duty.ticket < s.nodes[s.scanners[k].duty.node].ready
                    <= |s.nodes[s.scanners[k].duty.node].queue|
    case Flush(k, v) => k < |s.nodes| && s.scanners[k].duty.Busy?
      && MayShow(s.scanners[k], s.scanners[k].scanned + 1, v)
    case Finish(k, v) =>
      k < |s.nodes| && s.scanners[k].duty.Busy? && (s.scanners[k].duty.flushed || c.resumed)
      && MayShow(s.scanners[k], s.scanners[k].scanned, v)
    case Abandon(k) => k < |s.nodes| && s.eof && Held(s, k)
                       && |s.nodes[s.scanners[k].duty.node].queue| <= s.scanners[k].duty.ticket
  }

  predicate Held(s: State, k: nat)
    requires k < |s.scanners|
  {
    s.scanners[k].duty.Holding? && s.scanners[k].duty.node < |s.nodes|
  }

  /** What a commit of a scanner with `scanned` batches may make visible. */
  predicate MayShow(x: Scanner, scanned: nat, v: nat) {
    x.written <= v <= scanned <= v + LAG
  }

  predicate MayPublish(s: State) {
    s.room && 0 <= s.aim < |s.nodes| && forall i :: 0 <= i < |s.nodes| ==> i in s.cleared
  }

  function Queued(n: Node, major: nat): Node {
    n.(queue := n.queue + [major])
  }

  /** The entry in the ring slot of a ticket: the newest that went there. */
  function Slot(queue: seq<nat>, t: nat): nat
    requires t < |queue|
  {
    queue[Latest(|queue|, t)]
  }

  function Latest(len: nat, t: nat): (i: nat)
    requires t < len
    ensures t <= i < len && i % RING == t % RING && len <= i + RING
    decreases len - t
  {
    if t + RING < len then Latest(len, t + RING) else t
  }

  ghost function Do(c: Config, s: State, a: Action): State
    requires Enabled(c, s, a)
  {
    match a
    case Aim(i) => Aimed(c, s, i)
    case Room => s.(room := true)
    case Clear(i) => s.(cleared := s.cleared + {i})
    case Recheck => s.(cleared := {})
    case Publish(len) =>
      Closed(s, s.aim).(offset := s.offset + len, last := s.aim, here := s.here + len, untuned := c.lines)
    case Tune(workers, stole, extra, saturated) => Retuned(c, s, SampleOf(c, s, workers, stole, extra, saturated))
    case PublishEof => Closed(s, EofTarget(s)).(eof := true)
    case Leave => s.(eof := true)
    case Consume(i) => s.(nodes := s.nodes[i := s.nodes[i].(ready := s.nodes[i].ready + 1)])
    case Advertise(i) => s.(nodes := s.nodes[i := s.nodes[i].(indexed := s.nodes[i].queue[s.nodes[i].ready - 1])])
    case Decide(k, i) => s.(scanners := s.scanners[k := s.scanners[k].(duty := Decided(i))])
    case Take(k) => Taken(s, k, s.scanners[k].duty.node)
    case Read(k) =>
      var d := s.scanners[k].duty;
      s.(nodes := s.nodes[k := s.nodes[k].(claimed := Slot(s.nodes[d.node].queue, d.ticket))],
         scanners := s.scanners[k := s.scanners[k].(duty := Busy(false))])
    case Flush(k, v) =>
      s.(scanners := s.scanners[k := s.scanners[k].(duty := Busy(true), scanned := s.scanners[k].scanned + 1,
                                                    written := v)])
    case Finish(k, v) =>
      s.(scanners := s.scanners[k := s.scanners[k].(duty := Free, finished := s.scanners[k].finished + 1,
                                                    written := v)])
    case Abandon(k) => s.(scanners := s.scanners[k := s.scanners[k].(duty := Free)])
  }

  /** Staying on a node keeps its byte count; a new one starts it over, and after
      as many changes as there are nodes the stay gets longer. */
  function Aimed(c: Config, s: State, i: nat): State {
    var t := s.(aim := i, room := false, cleared := {});
    if s.last != -1 && s.here < s.accum && i == s.last then t
    else if s.last == -1 then t.(here := 0)
    else if s.count + 1 < c.nodes then t.(here := 0, count := s.count + 1)
    else t.(here := 0, count := 0, accum := if 2 * s.accum > c.chunk then c.chunk else 2 * s.accum)
  }

  function Closed(s: State, i: nat): State
    requires i < |s.nodes|
  {
    s.(nodes := s.nodes[i := Queued(s.nodes[i], s.major)], major := s.major + 1, aim := -1, room := false,
       cleared := {})
  }

  function Retuned(c: Config, s: State, sample: Sample): State
    requires c.nodes > 0
  {
    var (limit, meter) := Tuned(s.limit, s.meter, sample, c.nodes);
    s.(limit := limit, meter := meter, untuned := false,
       steal := StealThreshold(Min(MinBuf(sample, c.nodes), GlobalMax(c.nodes)), c.base))
  }

  function Taken(s: State, k: nat, j: nat): State
    requires k < |s.scanners| && j < |s.nodes|
  {
    s.(nodes := s.nodes[j := s.nodes[j].(tail := s.nodes[j].tail + 1)],
       scanners := s.scanners[k := s.scanners[k].(duty := Holding(j, s.nodes[j].tail),
                                                  taken := s.scanners[k].taken + 1)])
  }

  function Start(c: Config): State {
    State(seq(c.nodes, _ => Node([], 0, 0, 0, 0)), seq(c.nodes, _ => Scanner(Free, 0, 0, 0, 0)), 0, 0,
          -1, false, {}, -1, 0, if c.chunk < 0x1_0000 then c.chunk else 0x1_0000, 0, 4, 50, c.base, false, false)
  }

  ghost predicate Next(c: Config, s: State, t: State) {
    exists a :: Enabled(c, s, a) && t == Do(c, s, a)
  }

  ghost predicate Run(c: Config, states: seq<State>) {
    && c.Ok() && states != [] && states[0] == Start(c)
    && forall i :: 0 <= i < |states| - 1 ==> Next(c, states[i], states[i + 1])
  }

  /** A node's queue ascends, is indexed no further than queued, advertises no
      more than it has indexed, and lags the frontier by at most half a ring (one
      more once the sentinel is out). */
  ghost predicate NodeOk(n: Node, major: nat, eof: bool) {
    && n.ready <= |n.queue| && Ascending(n.queue, major)
    && (if n.ready == 0 then n.indexed == 0 else n.indexed <= n.queue[n.ready - 1])
    && Lags(n, if eof then major - 1 else major)
  }

  ghost predicate Ascending(queue: seq<nat>, major: nat) {
    && (forall j, k :: 0 <= j < k < |queue| ==> queue[j] < queue[k])
    && (forall j :: 0 <= j < |queue| ==> queue[j] < major)
  }

  ghost predicate Lags(n: Node, major: int) {
    forall j :: n.ready <= j < |n.queue| ==> major <= n.queue[j] + RING / 2
  }

  /** Unclaimed chunks of a node. */
  function Backlog(n: Node): nat {
    if |n.queue| > n.tail then |n.queue| - n.tail else 0
  }

  ghost predicate NodesOk(nodes: seq<Node>, major: nat, eof: bool) {
    forall i :: 0 <= i < |nodes| ==> NodeOk(nodes[i], major, eof)
  }

  ghost predicate NodesFit(nodes: seq<Node>, g: nat) {
    forall i :: 0 <= i < |nodes| ==> Backlog(nodes[i]) <= g
  }

  /** Every node is in order and within its share of the ring; a node that passed
      the pin tolerates one more publish, and the aim that passed the depth gate
      has room for one. */
  ghost predicate Inv(c: Config, s: State) {
    && c.Ok() && |s.nodes| == |s.scanners| == c.nodes && -1 <= s.last < c.nodes && s.limit <= GlobalMax(c.nodes)
    && NodesOk(s.nodes, s.major, s.eof) && NodesFit(s.nodes, GlobalMax(c.nodes))
    && (!s.eof ==> forall i :: 0 <= i < |s.nodes| && i in s.cleared ==> Lags(s.nodes[i], s.major + 1))
    && (s.room ==> 0 <= s.aim < |s.nodes| && |s.nodes[s.aim].queue| - s.nodes[s.aim].tail < GlobalMax(c.nodes))
  }

  /** Passing the pin means lagging little enough. */
  lemma UnpinnedLags(n: Node, major: nat)
    requires NodeOk(n, major, false) && Unpinned(n, major)
    ensures Lags(n, major + 1)
  {
    forall j | n.ready <= j < |n.queue| ensures major + 1 <= n.queue[j] + RING / 2 {
      if n.ready > 0 { assert n.queue[n.ready - 1] < n.queue[j]; }
    }
  }

  lemma QueuedOk(n: Node, major: nat, eof: bool)
    requires NodeOk(n, major, false) && (eof || Lags(n, major + 1))
    ensures NodeOk(Queued(n, major), major + 1, eof)
  {
  }

  lemma OtherOk(n: Node, major: nat, eof: bool)
    requires NodeOk(n, major, false) && (eof || Lags(n, major + 1))
    ensures NodeOk(n, major + 1, eof)
  {
  }

  lemma ConsumedOk(n: Node, major: nat, eof: bool)
    requires NodeOk(n, major, eof) && n.ready < |n.queue|
    ensures NodeOk(n.(ready := n.ready + 1), major, eof)
    ensures Lags(n, major + 1) ==> Lags(n.(ready := n.ready + 1), major + 1)
  {
  }

  lemma AdvertisedOk(n: Node, major: nat, eof: bool)
    requires NodeOk(n, major, eof) && 0 < n.ready <= |n.queue|
    ensures NodeOk(n.(indexed := n.queue[n.ready - 1]), major, eof)
    ensures Lags(n, major + 1) ==> Lags(n.(indexed := n.queue[n.ready - 1]), major + 1)
  {
  }

  /** Scanners move nothing the indexer's state depends on. */
  lemma ScannedOk(n: Node, n': Node, major: nat, eof: bool)
    requires NodeOk(n, major, eof) && n' == n.(tail := n'.tail, claimed := n'.claimed)
    ensures NodeOk(n', major, eof) && (Lags(n, major + 1) ==> Lags(n', major + 1))
  {
  }

  lemma StartInv(c: Config)
    requires c.Ok()
    ensures Inv(c, Start(c))
  {
  }

  /** Steps of ingest that publish nothing. */
  lemma IngestInv(c: Config, s: State, a: Action)
    requires Inv(c, s) && Enabled(c, s, a) && (a.Aim? || a.Room? || a.Clear? || a.Recheck?)
    ensures Inv(c, Do(c, s, a))
  {
    hide Behind, MayAim, GlobalMax;
    if a.Clear? {
      assert NodeOk(s.nodes[a.node], s.major, s.eof);
      UnpinnedLags(s.nodes[a.node], s.major);
    }
    hide NodeOk, Lags, Unpinned;
  }

  lemma LeaveInv(c: Config, s: State)
    requires Inv(c, s) && Enabled(c, s, Leave)
    ensures Inv(c, Do(c, s, Leave))
  {
    hide Ascending, GlobalMax;
    forall i | 0 <= i < |s.nodes| ensures NodeOk(s.nodes[i], s.major, true) {
      assert NodeOk(s.nodes[i], s.major, s.eof);
    }
  }

  lemma TuneInv(c: Config, s: State, a: Action)
    requires Inv(c, s) && Enabled(c, s, a) && a.Tune?
    ensures Inv(c, Do(c, s, a))
  {
    var sample := SampleOf(c, s, a.workers, a.stole, a.extra, a.saturated);
    NeverAboveShare(s.limit, s.meter, MinBuf(sample, c.nodes), GlobalMax(c.nodes), a.stole, a.extra, a.saturated);
    hide NodeOk, Lags, GlobalMax, MinBuf, TunedFrom, StealThreshold;
  }

  /** One more publication: every node stays in order, the target among them. */
  lemma PublishedNodes(c: Config, s: State, k: nat, eof: bool)
    requires Inv(c, s) && !s.eof && (eof || MayPublish(s)) && k < |s.nodes|
    ensures NodesOk(s.nodes[k := Queued(s.nodes[k], s.major)], s.major + 1, eof)
  {
    hide GlobalMax, Ascending, NodesFit;
    forall i | 0 <= i < |s.nodes|
      ensures NodeOk(Queued(s.nodes[i], s.major), s.major + 1, eof) && NodeOk(s.nodes[i], s.major + 1, eof)
    {
      assert NodeOk(s.nodes[i], s.major, s.eof);
      QueuedOk(s.nodes[i], s.major, eof);
      OtherOk(s.nodes[i], s.major, eof);
    }
    hide NodeOk, Lags, Queued;
  }

  lemma PublishedFits(nodes: seq<Node>, k: nat, major: nat, g: nat)
    requires NodesFit(nodes, g) && k < |nodes| && |nodes[k].queue| - nodes[k].tail < g
    ensures NodesFit(nodes[k := Queued(nodes[k], major)], g)
  {
  }

  lemma PublishedInv(c: Config, s: State, k: nat, t: State)
    requires Inv(c, s) && !s.eof && k < |s.nodes| && |s.nodes[k].queue| - s.nodes[k].tail < GlobalMax(c.nodes)
    requires t.eof || MayPublish(s)
    requires t.nodes == s.nodes[k := Queued(s.nodes[k], s.major)] && t.scanners == s.scanners
    requires t.major == s.major + 1 && !t.room && t.cleared == {} && -1 <= t.last < c.nodes && t.limit == s.limit
    ensures Inv(c, t)
  {
    PublishedNodes(c, s, k, t.eof);
    PublishedFits(s.nodes, k, s.major, GlobalMax(c.nodes));
    hide NodesOk, NodesFit, Lags, GlobalMax, MayPublish, Queued;
  }

  lemma PublishInv(c: Config, s: State, len: nat)
    requires Inv(c, s) && Enabled(c, s, Publish(len))
    ensures Inv(c, Do(c, s, Publish(len)))
  {
    var k, t := s.aim, Do(c, s, Publish(len));
    assert |s.nodes[k].queue| - s.nodes[k].tail < GlobalMax(c.nodes);
    hide Inv, GlobalMax, Queued;
    PublishedInv(c, s, k, t);
  }

  lemma PublishEofInv(c: Config, s: State)
    requires Inv(c, s) && Enabled(c, s, PublishEof)
    ensures Inv(c, Do(c, s, PublishEof))
  {
    ShareFits(c.nodes);
    hide Inv, GlobalMax, Queued;
    PublishedInv(c, s, EofTarget(s), Do(c, s, PublishEof));
  }

  /** A consumer's step at node i: its queue stays, its counters only grow. */
  lemma UpdateInv(c: Config, s: State, i: nat, n: Node, scanners: seq<Scanner>)
    requires Inv(c, s) && i < |s.nodes| && NodeOk(n, s.major, s.eof) && |scanners| == |s.scanners|
    requires n.queue == s.nodes[i].queue && n.tail >= s.nodes[i].tail
    requires Lags(s.nodes[i], s.major + 1) ==> Lags(n, s.major + 1)
    ensures Inv(c, s.(nodes := s.nodes[i := n], scanners := scanners))
  {
    hide NodeOk, Lags, GlobalMax;
  }

  lemma AtNode(c: Config, s: State, i: nat)
    requires Inv(c, s) && i < |s.nodes|
    ensures NodeOk(s.nodes[i], s.major, s.eof)
  {
  }

  lemma IndexerInv(c: Config, s: State, a: Action)
    requires Inv(c, s) && Enabled(c, s, a) && (a.Consume? || a.Advertise?)
    ensures Inv(c, Do(c, s, a))
  {
    hide Inv, NodeOk, Lags, Config.Ok;
    var n := s.nodes[a.node];
    AtNode(c, s, a.node);
    if a.Consume? {
      ConsumedOk(n, s.major, s.eof);
      UpdateInv(c, s, a.node, n.(ready := n.ready + 1), s.scanners);
    } else {
      AdvertisedOk(n, s.major, s.eof);
      UpdateInv(c, s, a.node, n.(indexed := n.queue[n.ready - 1]), s.scanners);
    }
  }

  lemma TakeInv(c: Config, s: State, k: nat)
    requires Inv(c, s) && Enabled(c, s, Take(k))
    ensures Inv(c, Do(c, s, Take(k)))
  {
    hide Inv, NodeOk, Lags, Config.Ok;
    var j := s.scanners[k].duty.node;
    var n := s.nodes[j];
    AtNode(c, s, j);
    ScannedOk(n, n.(tail := n.tail + 1), s.major, s.eof);
    UpdateInv(c, s, j, n.(tail := n.tail + 1), Do(c, s, Take(k)).scanners);
  }

  lemma ReadInv(c: Config, s: State, k: nat)
    requires Inv(c, s) && Enabled(c, s, Read(k))
    ensures Inv(c, Do(c, s, Read(k)))
  {
    hide Inv, NodeOk, Lags, Config.Ok, Slot;
    var n := s.nodes[k];
    var t := Do(c, s, Read(k));
    AtNode(c, s, k);
    ScannedOk(n, t.nodes[k], s.major, s.eof);
    UpdateInv(c, s, k, t.nodes[k], t.scanners);
  }

  /** Steps that only a scanner's own record shows. */
  lemma ScannerInv(c: Config, s: State, a: Action)
    requires Inv(c, s) && Enabled(c, s, a) && (a.Decide? || a.Flush? || a.Finish? || a.Abandon?)
    ensures Inv(c, Do(c, s, a))
  {
    hide NodeOk, Lags, Unread, GlobalMax;
    assert Do(c, s, a) == s.(scanners := Do(c, s, a).scanners);
  }

  lemma StepInv(c: Config, s: State, a: Action)
    requires Inv(c, s) && Enabled(c, s, a)
    ensures Inv(c, Do(c, s, a))
  {
    hide Inv, Enabled, Do;
    match a
    case Aim(_) => IngestInv(c, s, a);
    case Room => IngestInv(c, s, a);
    case Clear(_) => IngestInv(c, s, a);
    case Recheck => IngestInv(c, s, a);
    case Publish(len) => PublishInv(c, s, len);
    case Tune(_, _, _, _) => TuneInv(c, s, a);
    case PublishEof => PublishEofInv(c, s);
    case Leave => LeaveInv(c, s);
    case Consume(_) => IndexerInv(c, s, a);
    case Advertise(_) => IndexerInv(c, s, a);
    case Decide(_, _) => ScannerInv(c, s, a);
    case Take(k) => TakeInv(c, s, k);
    case Read(k) => ReadInv(c, s, k);
    case Flush(_, _) => ScannerInv(c, s, a);
    case Finish(_, _) => ScannerInv(c, s, a);
    case Abandon(_) => ScannerInv(c, s, a);
  }

  /** The step into state i of a run. */
  lemma StepInto(c: Config, states: seq<State>, i: nat) returns (a: Action)
    requires Run(c, states) && 0 < i < |states|
    ensures Enabled(c, states[i - 1], a) && states[i] == Do(c, states[i - 1], a)
  {
    hide Enabled, Do, Start, Config.Ok;
    assert Next(c, states[i - 1], states[i - 1 + 1]);
    a :| Enabled(c, states[i - 1], a) && states[i] == Do(c, states[i - 1], a);
  }

  lemma StartsAt(c: Config, states: seq<State>)
    requires Run(c, states)
    ensures c.Ok() && states != [] && states[0] == Start(c)
  {
    hide Start, Config.Ok;
  }

  lemma {:induction false} RunInv(c: Config, states: seq<State>, i: nat)
    requires Run(c, states) && i < |states|
    ensures Inv(c, states[i])
  {
    hide *;
    StartsAt(c, states);
    if i == 0 {
      StartInv(c);
    } else {
      RunInv(c, states, i - 1);
      var a := StepInto(c, states, i);
      StepInv(c, states[i - 1], a);
    }
  }

  /** Publishing `major` at node `target` overwrites no ChunkMeta slot that an
      indexer still needs (its next chunks' and their predecessors'), and no queue
      entry that the indexer has not consumed or no scanner has claimed. */
  ghost predicate Harmless(s: State, target: nat)
    requires target < |s.nodes|
  {
    && (forall i, j :: 0 <= i < |s.nodes| && s.nodes[i].ready <= j < |s.nodes[i].queue| ==>
          SlotApart(s.major, s.nodes[i].queue[j]))
    && |s.nodes[target].queue| - RING < s.nodes[target].ready
    && |s.nodes[target].queue| - RING < s.nodes[target].tail
  }

  /** `major` takes neither the slot of `unread` nor that of its predecessor. */
  ghost predicate SlotApart(major: nat, unread: nat) {
    major % RING != unread % RING && (unread > 0 ==> major % RING != (unread - 1) % RING)
  }

  lemma NearbyApart(major: nat, unread: nat)
    requires unread < major <= unread + RING / 2
    ensures SlotApart(major, unread)
  {
  }

  /** An ascending queue that starts at x reaches x + k by its k-th entry. */
  lemma {:induction false} AscendingGap(queue: seq<nat>, major: nat, from: nat, k: nat)
    requires Ascending(queue, major) && from <= k < |queue|
    ensures queue[from] + (k - from) <= queue[k]
  {
    if k > from { AscendingGap(queue, major, from, k - 1); }
  }

  lemma UnreadFit(n: Node, major: nat)
    requires NodeOk(n, major, false)
    ensures |n.queue| - n.ready <= RING / 2
  {
    if n.ready < |n.queue| { AscendingGap(n.queue, major, n.ready, |n.queue| - 1); }
  }

  /** In every run, every publication is harmless, the sentinel's too. */
  lemma PublishHarmless(c: Config, states: seq<State>, i: nat, target: nat, len: nat)
    requires Run(c, states) && i < |states| && target < |states[i].nodes|
    requires (Enabled(c, states[i], Publish(len)) && target == states[i].aim)
          || (Enabled(c, states[i], PublishEof) && target == EofTarget(states[i]))
    ensures Harmless(states[i], target)
  {
    RunInv(c, states, i);
    var s := states[i];
    hide Behind, MayPublish;
    UnreadFit(s.nodes[target], s.major);
    ShareFits(|s.nodes|);
    forall k, j | 0 <= k < |s.nodes| && s.nodes[k].ready <= j < |s.nodes[k].queue|
      ensures SlotApart(s.major, s.nodes[k].queue[j])
    {
      assert NodeOk(s.nodes[k], s.major, false);
      NearbyApart(s.major, s.nodes[k].queue[j]);
    }
  }

  lemma ShareFits(nodes: nat)
    requires 0 < nodes <= 512
    ensures 4 <= GlobalMax(nodes) <= 2048
  {
    Times(1, nodes, GlobalMax(nodes));
  }

  function Backlogs(nodes: seq<Node>): (xs: seq<nat>)
    ensures |xs| == |nodes| && forall i :: 0 <= i < |nodes| ==> xs[i] == Backlog(nodes[i])
  {
    seq(|nodes|, i requires 0 <= i < |nodes| => Backlog(nodes[i]))
  }

  lemma {:induction false} SumBounded(xs: seq<nat>, g: nat)
    requires forall i :: 0 <= i < |xs| ==> xs[i] <= g
    ensures Sum(xs) <= |xs| * g
  {
    if xs != [] {
      SumBounded(xs[..|xs| - 1], g);
      assert |xs| * g == (|xs| - 1) * g + g;
    }
  }

  /** However the limit is tuned, all nodes' unclaimed chunks together never exceed
      half the meta ring. */
  lemma BacklogBounded(c: Config, states: seq<State>, i: nat)
    requires Run(c, states) && i < |states|
    ensures states[i].limit <= GlobalMax(c.nodes)
    ensures Sum(Backlogs(states[i].nodes)) <= RING / 2
  {
    RunInv(c, states, i);
    SumBounded(Backlogs(states[i].nodes), GlobalMax(c.nodes));
  }
}
