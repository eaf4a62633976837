/** The launcher's typed supervision registry: one slot per worker id, reused
    across generations, one per helper, and the death notes helpers leave. */
module Registry {

  datatype Role = Worker | Orderer | Indexer | Scanner | Fallow | Ingest | Drain

  datatype Note = Note(role: Role, pid: int, rc: int, incarnation: nat, complete: bool)

  /** The launcher's end of a death channel (`note_fd`): none, nothing in it, or
      the note its helper wrote. */
  datatype Pipe = Closed | Empty | Holds(note: Note)

  /** A registered process; `wid` is -1 for helpers. */
  datatype Proc = Proc(active: bool, role: Role, wid: int, node: int, pid: int, incarnation: nat, pipe: Pipe,
                       exitKnown: bool, exitRc: int, complete: bool)

  /** A process that was registered at some time. */
  datatype Birth = Birth(role: Role, wid: int, pid: int, incarnation: nat)

  datatype Outcome = Registered | Full | StillLive

  ghost predicate HasPid(slots: seq<Proc>, i: nat, pid: int) {
    i < |slots| && slots[i].active && slots[i].pid == pid
  }

  /** Live processes have distinct pids, and a worker id one slot. */
  ghost predicate Distinct(slots: seq<Proc>) {
    && (forall i, j :: 0 <= i < j < |slots| && slots[i].active && slots[j].active ==> slots[i].pid != slots[j].pid)
    && (forall i, j :: 0 <= i < j < |slots| && slots[i].role.Worker? && slots[j].role.Worker? ==>
        slots[i].wid != slots[j].wid)
    && (forall i :: 0 <= i < |slots| ==> (slots[i].role.Worker? <==> slots[i].wid >= 0))
  }

  /** The newest generation of its worker id. */
  ghost predicate Newest(births: seq<Birth>, b: Birth) {
    b in births && forall k :: 0 <= k < |births| && births[k].wid == b.wid ==> births[k].incarnation <= b.incarnation
  }

  /** Every worker slot holds its id's newest generation, and no two generations
      of an id share a number. */
  ghost predicate Current(slots: seq<Proc>, births: seq<Birth>) {
    && (forall i :: 0 <= i < |slots| && slots[i].role.Worker? ==>
          Newest(births, Birth(Worker, slots[i].wid, slots[i].pid, slots[i].incarnation)))
    && (forall j, k :: 0 <= j < k < |births| && births[j].wid == births[k].wid >= 0 ==>
          births[j].incarnation < births[k].incarnation)
    && (forall k :: 0 <= k < |births| ==> (births[k].role.Worker? <==> births[k].wid >= 0))
  }

  /** Slot i is the process a note describes, as far as the registry can tell. */
  ghost predicate Claims(slots: seq<Proc>, i: nat, n: Note) {
    HasPid(slots, i, n.pid) && slots[i].role == n.role && slots[i].incarnation == n.incarnation
  }

  /** The note carries this process's identity. */
  predicate Signed(p: Proc, n: Note) {
    n.role == p.role && n.pid == p.pid && n.incarnation == p.incarnation
  }

  /** Only live helpers have a channel, and what is in it their helper wrote. */
  ghost predicate Channels(slots: seq<Proc>) {
    forall i :: 0 <= i < |slots| && slots[i].pipe != Closed ==>
      slots[i].active && !slots[i].role.Worker? && (slots[i].pipe.Holds? ==> Signed(slots[i], slots[i].pipe.note))
  }

  class Registry {
    const max: nat
    var slots: seq<Proc>
    ghost var births: seq<Birth>

    ghost predicate Valid()
      reads this
    {
      |slots| <= max && Distinct(slots) && Current(slots, births) && Channels(slots)
    }

    constructor (max: nat)
      ensures Valid() && slots == [] && births == [] && this.max == max
    {
      this.max := max;
      slots := [];
      births := [];
    }

    /** The active slot with this pid, or none: the count. */
    method FindPid(pid: int) returns (i: nat)
      requires Valid()
      ensures i <= |slots| && (i < |slots| ==> HasPid(slots, i, pid))
      ensures i == |slots| ==> forall k :: 0 <= k < |slots| ==> !HasPid(slots, k, pid)
      ensures forall k: nat :: HasPid(slots, k, pid) ==> k == i
    {
      i := 0;
      while i < |slots|
        invariant i <= |slots| && forall k :: 0 <= k < i ==> !HasPid(slots, k, pid)
      {
        if slots[i].active && slots[i].pid == pid { return; }
        i := i + 1;
      }
    }

    /** Register a worker generation.  The kernel hands out a pid no live process
        has, and the launcher a number beyond the id's earlier ones. */
    method RegisterWorker(wid: nat, incarnation: nat, pid: int, node: int) returns (r: Outcome)
      requires Valid()
      requires forall k: nat :: !HasPid(slots, k, pid)
      requires forall k :: 0 <= k < |births| && births[k].wid == wid ==> births[k].incarnation < incarnation
      modifies this
      ensures Valid()
      ensures r.Registered? ==> births == old(births) + [Birth(Worker, wid, pid, incarnation)]
      ensures r.Registered? ==> exists i :: WorkerAt(slots, i, wid, pid, incarnation)
      ensures r.Registered? ==> OnlyWorkerChanged(old(slots), slots, wid)
      ensures !r.Registered? ==> slots == old(slots) && births == old(births)
      ensures r.Full? <==> |old(slots)| >= max && forall i :: 0 <= i < |old(slots)| ==> !SlotOf(old(slots)[i], wid)
      ensures r.StillLive? <==> exists i :: 0 <= i < |old(slots)| && SlotOf(old(slots)[i], wid) && old(slots)[i].active
    {
      var i := FindWorker(wid);
      var entry := Proc(true, Worker, wid, node, pid, incarnation, Closed, false, 0, false);
      if i == |slots| {
        if |slots| >= max { return Full; }
        slots := slots + [entry];
      } else if slots[i].active {
        return StillLive;
      } else {
        slots := slots[i := entry];
      }
      births := births + [Birth(Worker, wid, pid, incarnation)];
      RegisteredDistinct(old(slots), i, entry, slots);
      RegisteredCurrent(old(slots), old(births), i, entry, slots);
      hide Distinct, Current;
      assert WorkerAt(slots, i, wid, pid, incarnation);
      r := Registered;
    }

    /** The slot of this worker id, or none. */
    method FindWorker(wid: nat) returns (i: nat)
      requires Valid()
      ensures i <= |slots| && (i < |slots| ==> SlotOf(slots[i], wid))
      ensures i == |slots| ==> forall k :: 0 <= k < |slots| ==> !SlotOf(slots[k], wid)
    {
      i := |slots|;
      var k := 0;
      while k < |slots|
        invariant 0 <= k <= |slots| && i <= |slots| && (i < |slots| ==> SlotOf(slots[i], wid))
        invariant i == |slots| ==> forall j :: 0 <= j < k ==> !SlotOf(slots[j], wid)
      {
        if slots[k].role.Worker? && slots[k].wid == wid { i := k; }
        k := k + 1;
      }
    }

    /** Register a helper in a slot of its own, with a death channel or without.
        Its pid is no live process's; `ok` is false when there is no slot left. */
    method RegisterHelper(role: Role, pid: int, node: int, channel: bool) returns (ok: bool)
      requires Valid() && !role.Worker?
      requires forall k: nat :: !HasPid(slots, k, pid)
      modifies this
      ensures Valid() && ok == (|old(slots)| < max)
      ensures ok ==> slots == old(slots) + [Helper(role, pid, node, channel)]
                     && births == old(births) + [Birth(role, -1, pid, 0)]
      ensures !ok ==> slots == old(slots) && births == old(births)
    {
      if |slots| >= max { return false; }
      forall k | 0 <= k < |slots| ensures slots[k].active ==> slots[k].pid != pid { assert !HasPid(slots, k, pid); }
      HelperCurrent(slots, births, Helper(role, pid, node, channel));
      hide Current;
      slots := slots + [Helper(role, pid, node, channel)];
      births := births + [Birth(role, -1, pid, 0)];
      ok := true;
    }

    /** The helper of slot i writes its note and exits: it signs with the identity
        it was forked with. */
    method HelperWrites(i: nat, rc: int, complete: bool)
      requires Valid() && i < |slots| && slots[i].pipe == Empty
      modifies this`slots
      ensures Valid()
      ensures slots == old(slots)[i := old(slots)[i].(pipe := Holds(NoteOf(old(slots)[i], rc, complete)))]
    {
      slots := slots[i := slots[i].(pipe := Holds(NoteOf(slots[i], rc, complete)))];
    }

    /** Look into the channel of slot i and reconcile what is there.  Whatever it
        finds concerns that slot and no other. */
    method TakeNote(i: nat) returns (found: bool)
      requires Valid() && i < |slots|
      modifies this`slots
      ensures Valid() && found == old(slots)[i].pipe.Holds?
      ensures !found ==> slots == old(slots)
      ensures found ==> var n := old(slots)[i].pipe.note;
        && |slots| == |old(slots)| && slots == old(slots)[i := slots[i]]
        && slots[i].exitKnown && slots[i].exitRc == n.rc
        && (slots[i].complete <==> old(slots)[i].complete || n.complete)
        && slots[i] == old(slots)[i].(pipe := Empty, exitKnown := true, exitRc := slots[i].exitRc,
                                      complete := slots[i].complete)
    {
      if !slots[i].active || !slots[i].pipe.Holds? { return false; }
      var n := slots[i].pipe.note;
      NoteNamesItsHelper(slots, i);
      var applied := Reconcile(n);
      slots := slots[i := slots[i].(pipe := Empty)];
      found := true;
    }

    /** The process in slot i was reaped. */
    method Retire(i: nat)
      requires Valid() && i < |slots|
      modifies this`slots
      ensures Valid() && slots == old(slots)[i := old(slots)[i].(active := false, pipe := Closed)]
    {
      slots := slots[i := slots[i].(active := false, pipe := Closed)];
    }

    /** Apply a death note to the process it names, or ignore it. */
    method Reconcile(n: Note) returns (applied: bool)
      requires Valid()
      modifies this`slots
      ensures Valid()
      ensures applied <==> exists i :: Claims(old(slots), i, n)
      ensures !applied ==> slots == old(slots)
      ensures forall i :: 0 <= i < |old(slots)| && Claims(old(slots), i, n) ==>
        && |slots| == |old(slots)| && slots == old(slots)[i := slots[i]]
        && slots[i].exitKnown && slots[i].exitRc == n.rc
        && (slots[i].complete <==> old(slots)[i].complete || n.complete)
        && slots[i] == old(slots)[i].(exitKnown := true, exitRc := slots[i].exitRc, complete := slots[i].complete)
    {
      var i := FindPid(n.pid);
      if i == |slots| || slots[i].role != n.role || slots[i].incarnation != n.incarnation { return false; }
      assert Claims(slots, i, n);
      slots := slots[i := Told(slots[i], n)];
      applied := true;
    }
  }

  predicate SlotOf(p: Proc, wid: int) {
    p.role.Worker? && p.wid == wid
  }

  ghost predicate WorkerAt(slots: seq<Proc>, i: nat, wid: int, pid: int, incarnation: nat) {
    HasPid(slots, i, pid) && SlotOf(slots[i], wid) && slots[i].incarnation == incarnation
  }

  /** All slots but the id's own are as they were. */
  ghost predicate OnlyWorkerChanged(before: seq<Proc>, after: seq<Proc>, wid: int) {
    |before| <= |after| <= |before| + 1
    && forall i :: 0 <= i < |before| && !SlotOf(before[i], wid) ==> after[i] == before[i]
  }

  function Told(p: Proc, n: Note): Proc {
    p.(exitKnown := true, exitRc := n.rc, complete := p.complete || n.complete)
  }

  lemma RegisteredDistinct(slots: seq<Proc>, i: nat, entry: Proc, after: seq<Proc>)
    requires Distinct(slots) && i <= |slots| && entry.role.Worker? && entry.wid >= 0
    requires forall k: nat :: !HasPid(slots, k, entry.pid)
    requires after == if i == |slots| then slots + [entry] else slots[i := entry]
    requires if i == |slots| then forall k :: 0 <= k < |slots| ==> !SlotOf(slots[k], entry.wid)
             else SlotOf(slots[i], entry.wid)
    ensures Distinct(after)
    ensures forall k :: 0 <= k < |slots| && k != i ==> !SlotOf(slots[k], entry.wid)
  {
    forall k | 0 <= k < |slots| ensures slots[k].active ==> slots[k].pid != entry.pid {
      assert !HasPid(slots, k, entry.pid);
    }
  }

  lemma RegisteredCurrent(slots: seq<Proc>, births: seq<Birth>, i: nat, entry: Proc, after: seq<Proc>)
    requires Current(slots, births) && i <= |slots| && entry.role.Worker? && entry.wid >= 0
    requires forall k :: 0 <= k < |births| && births[k].wid == entry.wid ==> births[k].incarnation < entry.incarnation
    requires after == if i == |slots| then slots + [entry] else slots[i := entry]
    requires forall k :: 0 <= k < |slots| && k != i ==> !SlotOf(slots[k], entry.wid)
    ensures Current(after, births + [Birth(Worker, entry.wid, entry.pid, entry.incarnation)])
  {
    var b := Birth(Worker, entry.wid, entry.pid, entry.incarnation);
    var more := births + [b];
    assert more[|births|] == b;
    forall k | 0 <= k < |after| && after[k].role.Worker?
      ensures Newest(more, Birth(Worker, after[k].wid, after[k].pid, after[k].incarnation))
    {
      if k != i { assert Newest(births, Birth(Worker, slots[k].wid, slots[k].pid, slots[k].incarnation)); }
    }
  }

  function Helper(role: Role, pid: int, node: int, channel: bool): Proc {
    Proc(true, role, -1, node, pid, 0, if channel then Empty else Closed, false, 0, false)
  }

  function NoteOf(p: Proc, rc: int, complete: bool): Note {
    Note(p.role, p.pid, rc, p.incarnation, complete)
  }

  lemma HelperCurrent(slots: seq<Proc>, births: seq<Birth>, entry: Proc)
    requires Current(slots, births) && !entry.role.Worker? && entry.wid == -1
    ensures Current(slots + [entry], births + [Birth(entry.role, -1, entry.pid, entry.incarnation)])
  {
    var more := births + [Birth(entry.role, -1, entry.pid, entry.incarnation)];
    forall i | 0 <= i < |slots| && slots[i].role.Worker?
      ensures Newest(more, Birth(Worker, slots[i].wid, slots[i].pid, slots[i].incarnation))
    {
      var b := Birth(Worker, slots[i].wid, slots[i].pid, slots[i].incarnation);
      assert Newest(births, b);
      var k :| 0 <= k < |births| && births[k] == b;
      assert more[k] == b;
    }
  }

  /** A note in a channel names the helper of that channel, which is live, and no
      other process of the registry: looking its pid up finds its own slot. */
  lemma NoteNamesItsHelper(slots: seq<Proc>, i: nat)
    requires Distinct(slots) && Channels(slots) && i < |slots| && slots[i].pipe.Holds?
    ensures Claims(slots, i, slots[i].pipe.note) && !slots[i].role.Worker?
    ensures forall k: nat :: HasPid(slots, k, slots[i].pipe.note.pid) ==> k == i
  {
  }

  /** A note under a live worker's pid but with an earlier number, and one under a
      pid nobody has any more, name no process: both are dropped. */
  lemma StaleNoteDropped(slots: seq<Proc>, births: seq<Birth>, n: Note, i: nat)
    requires Distinct(slots) && Current(slots, births)
    requires || (i < |slots| && HasPid(slots, i, n.pid) && slots[i].role.Worker?
                 && exists b: Birth :: b in births && b.wid == slots[i].wid && b.incarnation == n.incarnation
                                       && !Newest(births, b))
             || forall k: nat :: !HasPid(slots, k, n.pid)
    ensures forall k: nat :: !Claims(slots, k, n)
  {
    if i < |slots| && HasPid(slots, i, n.pid) {
      assert Newest(births, Birth(Worker, slots[i].wid, slots[i].pid, slots[i].incarnation));
    }
  }
}
