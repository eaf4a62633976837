/** The array min-heap behind the orderer and the interval coalescers.  Both
    C heaps (heap_push/heap_pop and interval_heap_push/interval_heap_pop) are
    this algorithm with a different payload. */
module MinHeap {

  datatype Node<+V> = Node(key: nat, value: V)

  /** No node is below its parent. */
  ghost predicate HeapOrdered<V>(q: seq<Node<V>>) {
    forall p, j :: 0 <= p < j < |q| && p == (j - 1) / 2 ==> q[p].key <= q[j].key
  }

  /** Heap-ordered except possibly between `i` and its parent. */
  ghost predicate OrderedAbove<V>(q: seq<Node<V>>, i: nat) {
    && (forall p, j :: 0 <= p < j < |q| && p == (j - 1) / 2 && j != i ==> q[p].key <= q[j].key)
    && (forall g, j :: 0 <= g < i < j < |q| && i == (j - 1) / 2 && g == (i - 1) / 2 ==> q[g].key <= q[j].key)
  }

  /** Heap-ordered except possibly between `i` and its children. */
  ghost predicate OrderedBelow<V>(q: seq<Node<V>>, i: nat) {
    && (forall p, j :: 0 <= p < j < |q| && p == (j - 1) / 2 && p != i ==> q[p].key <= q[j].key)
    && (forall g, j :: 0 <= g < i < j < |q| && i == (j - 1) / 2 && g == (i - 1) / 2 ==> q[g].key <= q[j].key)
  }

  function Swap<V>(q: seq<Node<V>>, i: nat, j: nat): seq<Node<V>>
    requires i < |q| && j < |q|
  {
    q[i := q[j]][j := q[i]]
  }

  lemma SwapKeeps<V>(q: seq<Node<V>>, i: nat, j: nat)
    requires i < |q| && j < |q|
    ensures multiset(Swap(q, i, j)) == multiset(q)
  {
  }

  lemma UpStart<V>(q: seq<Node<V>>, x: Node<V>)
    requires HeapOrdered(q)
    ensures OrderedAbove(q + [x], |q|)
    ensures multiset(q + [x]) == multiset(q) + multiset{x}
  {
  }

  lemma UpStep<V>(q: seq<Node<V>>, i: nat)
    requires 0 < i < |q| && OrderedAbove(q, i) && q[(i - 1) / 2].key > q[i].key
    ensures OrderedAbove(Swap(q, i, (i - 1) / 2), (i - 1) / 2)
  {
  }

  lemma UpStop<V>(q: seq<Node<V>>, i: nat)
    requires i < |q| && OrderedAbove(q, i) && (i > 0 ==> q[(i - 1) / 2].key <= q[i].key)
    ensures HeapOrdered(q)
  {
  }

  /** Moving the last node to the root removes exactly the old root. */
  lemma DownStart<V>(q: seq<Node<V>>)
    requires q != [] && HeapOrdered(q)
    ensures var r := Rerooted(q);
      multiset(r) == multiset(q) - multiset{q[0]} && OrderedBelow(r, 0)
  {
    assert q == q[..|q| - 1] + [q[|q| - 1]];
  }

  function Rerooted<V>(q: seq<Node<V>>): seq<Node<V>>
    requires q != []
  {
    if |q| == 1 then [] else q[..|q| - 1][0 := q[|q| - 1]]
  }

  lemma DownStep<V>(q: seq<Node<V>>, i: nat, child: nat)
    requires i < |q| && OrderedBelow(q, i) && SmallerChild(q, i, child) && q[child].key < q[i].key
    ensures OrderedBelow(Swap(q, i, child), child)
  {
  }

  /** `child` is a child of `i` of least key. */
  ghost predicate SmallerChild<V>(q: seq<Node<V>>, i: nat, child: nat) {
    && i < child < |q| && i == (child - 1) / 2
    && (forall j :: i < j < |q| && i == (j - 1) / 2 ==> q[child].key <= q[j].key)
  }

  lemma DownStop<V>(q: seq<Node<V>>, i: nat)
    requires OrderedBelow(q, i)
    requires 2 * i + 1 < |q| ==> exists child: nat :: SmallerChild(q, i, child) && q[i].key <= q[child].key
    ensures HeapOrdered(q)
  {
    if 2 * i + 1 < |q| {
      var child: nat :| SmallerChild(q, i, child) && q[i].key <= q[child].key;
    }
  }

  /** The root carries the least key. */
  lemma {:induction false} RootLeast<V>(q: seq<Node<V>>, j: nat)
    requires HeapOrdered(q) && j < |q|
    ensures q[0].key <= q[j].key
  {
    if j > 0 { RootLeast(q, (j - 1) / 2); }
  }

  /** `a` holds `q` everywhere but in the hole at `i`. */
  ghost predicate HoleAt<V>(a: seq<Node<V>>, q: seq<Node<V>>, i: nat) {
    |q| <= |a| && i < |q| && forall k :: 0 <= k < |q| && k != i ==> a[k] == q[k]
  }

  /** State of an upward shift: `a` holds `q` with a hole at `i` for `x`. */
  ghost predicate Rising<V>(a: seq<Node<V>>, q: seq<Node<V>>, i: nat, x: Node<V>, all: multiset<Node<V>>) {
    HoleAt(a, q, i) && q[i] == x && OrderedAbove(q, i) && multiset(q) == all
  }

  lemma RiseStart<V>(a: seq<Node<V>>, size: nat, x: Node<V>)
    requires 0 < size <= |a| && HeapOrdered(a[..size - 1])
    ensures Rising(a, a[..size - 1] + [x], size - 1, x, multiset(a[..size - 1]) + multiset{x})
  {
    UpStart(a[..size - 1], x);
  }

  lemma RiseStep<V>(a: seq<Node<V>>, q: seq<Node<V>>, i: nat, x: Node<V>, all: multiset<Node<V>>)
    requires 0 < i < |a| && Rising(a, q, i, x, all) && x.key < a[(i - 1) / 2].key
    ensures Rising(a[i := a[(i - 1) / 2]], Swap(q, i, (i - 1) / 2), (i - 1) / 2, x, all)
  {
    SwapKeeps(q, i, (i - 1) / 2);
    UpStep(q, i);
  }

  lemma RiseStop<V>(a: seq<Node<V>>, q: seq<Node<V>>, i: nat, x: Node<V>, all: multiset<Node<V>>)
    requires i < |a| && Rising(a, q, i, x, all) && (i > 0 ==> a[(i - 1) / 2].key <= x.key)
    ensures HeapOrdered(a[i := x][..|q|]) && multiset(a[i := x][..|q|]) == all
  {
    assert a[i := x][..|q|] == q;
    UpStop(q, i);
  }

  /** The upward shift of heap_push: nodes move down until `x` fits. */
  method SiftUp<V>(a: array<Node<V>>, size: nat, x: Node<V>)
    requires 0 < size <= a.Length && HeapOrdered(a[..size - 1])
    modifies a
    ensures HeapOrdered(a[..size])
    ensures multiset(a[..size]) == multiset(old(a[..size - 1])) + multiset{x}
  {
    ghost var all := multiset(a[..size - 1]) + multiset{x};
    ghost var q := a[..size - 1] + [x];
    assert a[..][..size - 1] == a[..size - 1];
    RiseStart(a[..], size, x);
    var i := size - 1;
    hide HeapOrdered, Rising;
    while i > 0 && x.key < a[(i - 1) / 2].key
      invariant i < size == |q|
      invariant Rising(a[..], q, i, x, all)
    {
      var p := (i - 1) / 2;
      ghost var before := a[..];
      RiseStep(before, q, i, x, all);
      q := Swap(q, i, p);
      a[i] := a[p];
      assert a[..] == before[i := before[p]];
      i := p;
    }
    RiseStop(a[..], q, i, x, all);
    ghost var before := a[..];
    a[i] := x;
    assert a[..] == before[i := x];
    assert a[..][..size] == a[..size];
  }

  /** State of a downward shift: `a` holds `q` with a hole at `i` for `x`. */
  ghost predicate Sinking<V>(a: seq<Node<V>>, q: seq<Node<V>>, i: nat, x: Node<V>, all: multiset<Node<V>>) {
    && OrderedBelow(q, i) && multiset(q) == all && |q| < |a|
    && (q == [] || (HoleAt(a, q, i) && q[i] == x))
  }

  lemma SinkStart<V>(a: seq<Node<V>>, size: nat)
    requires size < |a| && HeapOrdered(a[..size + 1])
    ensures Sinking(a, Rerooted(a[..size + 1]), 0, a[size], multiset(a[..size + 1]) - multiset{a[0]})
    ensures |Rerooted(a[..size + 1])| == size
  {
    DownStart(a[..size + 1]);
    assert a[..size + 1][..size] == a[..size];
  }

  /** heap_pop's choice: the lesser of the children of `i`, left on a tie. */
  ghost predicate Chosen<V>(a: seq<Node<V>>, size: nat, i: nat, child: nat) {
    && 2 * i + 1 <= child <= 2 * i + 2 && child < size <= |a|
    && (child == 2 * i + 1 && child + 1 < size ==> a[child].key <= a[child + 1].key)
    && (child == 2 * i + 2 ==> a[child].key < a[child - 1].key)
  }

  lemma ChosenSmaller<V>(a: seq<Node<V>>, q: seq<Node<V>>, i: nat, child: nat)
    requires HoleAt(a, q, i) && Chosen(a, |q|, i, child)
    ensures SmallerChild(q, i, child) && q[child] == a[child]
  {
  }

  lemma SinkStep<V>(a: seq<Node<V>>, q: seq<Node<V>>, i: nat, child: nat, x: Node<V>, all: multiset<Node<V>>)
    requires i < |q| && Sinking(a, q, i, x, all) && Chosen(a, |q|, i, child) && a[child].key < x.key
    ensures Sinking(a[i := a[child]], Swap(q, i, child), child, x, all)
  {
    hide SmallerChild;
    SwapKeeps(q, i, child);
    ChosenSmaller(a, q, i, child);
    DownStep(q, i, child);
  }

  lemma SinkStop<V>(a: seq<Node<V>>, q: seq<Node<V>>, i: nat, child: nat, x: Node<V>, all: multiset<Node<V>>)
    requires i < |a| && Sinking(a, q, i, x, all) && (q != [] ==> i < |q|)
    requires 2 * i + 1 < |q| ==> Chosen(a, |q|, i, child) && x.key <= a[child].key
    ensures HeapOrdered(a[i := x][..|q|]) && multiset(a[i := x][..|q|]) == all
  {
    hide Chosen, SmallerChild, OrderedBelow, HeapOrdered;
    assert a[i := x][..|q|] == q;
    if 2 * i + 1 < |q| { ChosenSmaller(a, q, i, child); }
    DownStop(q, i);
  }

  /** The downward shift of heap_pop: the last of `size + 1` nodes replaces the
      root, and smaller children move up until it fits. */
  method SiftDown<V>(a: array<Node<V>>, size: nat)
    requires size < a.Length && HeapOrdered(a[..size + 1])
    modifies a
    ensures HeapOrdered(a[..size])
    ensures multiset(a[..size]) == multiset(old(a[..size + 1])) - multiset{old(a[0])}
  {
    var x := a[size];
    ghost var all := multiset(a[..size + 1]) - multiset{a[0]};
    assert a[..][..size + 1] == a[..size + 1];
    SinkStart(a[..], size);
    ghost var q := Rerooted(a[..size + 1]);
    var i, child := 0, 0;
    hide HeapOrdered, Sinking, Rerooted, Chosen;
    while 2 * i + 1 < size
      invariant size == |q| && (size > 0 ==> i < size) && (size == 0 ==> i == 0)
      invariant Sinking(a[..], q, i, x, all)
      decreases size - i
    {
      child := PickChild(a, size, i);
      if x.key <= a[child].key { break; }
      ghost var before := a[..];
      SinkStep(before, q, i, child, x, all);
      q := Swap(q, i, child);
      a[i] := a[child];
      assert a[..] == before[i := before[child]];
      i := child;
    }
    SinkStop(a[..], q, i, child, x, all);
    ghost var before := a[..];
    a[i] := x;
    assert a[..] == before[i := x];
    assert a[..][..size] == a[..size];
  }

  method PickChild<V>(a: array<Node<V>>, size: nat, i: nat) returns (child: nat)
    requires 2 * i + 1 < size <= a.Length
    ensures i < child < size && Chosen(a[..], size, i, child)
  {
    child := 2 * i + 1;
    if child + 1 < size && a[child + 1].key < a[child].key { child := child + 1; }
  }

  /** A growable heap: heap, size and capacity of the C code. */
  class Heap<V(0)> {
    var nodes: array<Node<V>>
    var size: nat
    const ceiling: nat  // INT_MAX / sizeof(node); growth past it pulls the alarm

    ghost predicate Valid()
      reads this, nodes
    {
      size <= nodes.Length && HeapOrdered(nodes[..size])
    }

    ghost function Contents(): multiset<Node<V>>
      requires size <= nodes.Length
      reads this, nodes
    {
      multiset(nodes[..size])
    }

    /** There is a place for one more node, or the table can be doubled. */
    predicate HasRoom()
      reads this`nodes, this`size
    {
      size < nodes.Length || (64 <= ceiling && 2 * nodes.Length <= ceiling)
    }

    constructor (capacity: nat, ceiling: nat)
      ensures Valid() && Contents() == multiset{} && fresh(nodes) && this.ceiling == ceiling && size == 0
      ensures nodes.Length == capacity
    {
      nodes := new Node<V>[capacity];
      size := 0;
      this.ceiling := ceiling;
    }

    /** Double a full table; refuse past the ceiling. */
    method Reserve() returns (ok: bool)
      requires size <= nodes.Length
      modifies this`nodes
      ensures size <= nodes.Length && nodes[..size] == old(nodes[..size])
      ensures nodes == old(nodes) || fresh(nodes)
      ensures ok ==> size < nodes.Length
      ensures ok <==> old(HasRoom())
      ensures nodes != old(nodes) ==>
        nodes.Length == (if 2 * old(nodes.Length) < 64 then 64 else 2 * old(nodes.Length)) && nodes.Length <= ceiling
    {
      if size < nodes.Length { return true; }
      var capacity := if 2 * nodes.Length < 64 then 64 else 2 * nodes.Length;
      if capacity > ceiling { return false; }
      var bigger := new Node<V>[capacity];
      forall k | 0 <= k < size { bigger[k] := nodes[k]; }
      assert bigger[..size] == nodes[..size];
      nodes := bigger;
      ok := true;
    }

    /** Insert, or drop the node and say so exactly when the table is full and
        cannot grow. */
    method Push(key: nat, value: V) returns (ok: bool)
      requires Valid()
      modifies this, nodes
      ensures Valid() && (nodes == old(nodes) || fresh(nodes)) && ok == old(HasRoom())
      ensures Contents() == old(Contents()) + if ok then multiset{Node(key, value)} else multiset{}
      ensures size == old(size) + if ok then 1 else 0
    {
      hide HeapOrdered;
      ok := Reserve();
      if !ok { return; }
      size := size + 1;
      SiftUp(nodes, size, Node(key, value));
    }

    /** Remove a node of least key. */
    method Pop() returns (top: Node<V>)
      requires Valid() && size > 0
      modifies this, nodes
      ensures Valid() && nodes == old(nodes) && size == old(size) - 1
      ensures top == old(nodes[0]) && top in old(Contents())
      ensures Contents() == old(Contents()) - multiset{top}
    {
      hide HeapOrdered;
      top := nodes[0];
      assert nodes[..size][0] == top;
      size := size - 1;
      SiftDown(nodes, size);
    }

    /** The ceiling lets a table that grows by doubling come to n nodes. */
    predicate CanHold(n: nat)
    {
      64 <= ceiling && 2 * n <= ceiling + 2
    }

    /** Such a table has room while it holds fewer. */
    lemma RoomBelow(n: nat)
      requires size <= nodes.Length && size < n && CanHold(n)
      ensures HasRoom()
    {
    }

    /** The root is a node of least key. */
    lemma Least()
      requires Valid() && size > 0
      ensures nodes[0] in Contents() && forall n :: n in Contents() ==> nodes[0].key <= n.key
    {
      var q := nodes[..size];
      assert q[0] == nodes[0];
      forall n | n in Contents() ensures nodes[0].key <= n.key {
        var j :| 0 <= j < size && q[j] == n;
        RootLeast(q, j);
      }
    }
  }
}
