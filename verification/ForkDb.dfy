/** The lazily filled fork database (qeth/pyevm_fork.py, `_ForkAccountDB`): a
    journal of values, a parallel journal of "already seeded" markers, and
    reads that fall through to the chain. It is proved to behave like an eager
    snapshot of the whole chain under one ordinary journal. */
module ForkDb {
  import opened Options
  import opened StateReader

  /** A storage slot: account and index. */
  datatype Slot = Slot(address: string, index: nat)

  /** What the chain holds at the fork block; reading it may raise. */
  type Remote = Slot -> Result<nat>

  /** The changes recorded since a checkpoint. */
  datatype Layer<V> = Layer(id: nat, changes: map<Slot, V>)

  datatype Journal<V> = Journal(base: map<Slot, V>, layers: seq<Layer<V>>)
  {
    /** What is visible with only the first `d` checkpoints applied. */
    function ViewAt(d: nat): map<Slot, V>
      requires d <= |layers|
    {
      if d == 0 then base else ViewAt(d - 1) + layers[d - 1].changes
    }

    function View(): map<Slot, V> {
      ViewAt(|layers|)
    }

    function Ids(): seq<nat> {
      seq(|layers|, i requires 0 <= i < |layers| => layers[i].id)
    }

    function Put(k: Slot, v: V): (j: Journal<V>)
      ensures j.Ids() == Ids()
    {
      if layers == [] then Journal(base[k := v], [])
      else
        var top := |layers| - 1;
        Journal(base, layers[top := Layer(layers[top].id, layers[top].changes[k := v])])
    }

    function Record(id: nat): Journal<V> {
      Journal(base, layers + [Layer(id, map[])])
    }

    /** Undo everything from checkpoint number `i` on. */
    function Discard(i: nat): Journal<V>
      requires i < |layers|
    {
      Journal(base, layers[..i])
    }

    /** Fold everything from checkpoint number `i` on into what lies below. */
    function Commit(i: nat): Journal<V>
      requires i < |layers|
    {
      var folded := Fold(layers[i..]);
      if i == 0 then Journal(base + folded, [])
      else Journal(base, layers[..i - 1] + [Layer(layers[i - 1].id, layers[i - 1].changes + folded)])
    }
  }

  function Fold<V>(layers: seq<Layer<V>>): map<Slot, V> {
    if layers == [] then map[]
    else Fold(layers[..|layers| - 1]) + layers[|layers| - 1].changes
  }

  lemma {:induction false} ViewOfPrefix<V>(a: Journal<V>, b: Journal<V>, d: nat)
    requires a.base == b.base && d <= |a.layers| && d <= |b.layers|
    requires forall i | 0 <= i < d :: a.layers[i] == b.layers[i]
    ensures a.ViewAt(d) == b.ViewAt(d)
  {
    if d > 0 {
      ViewOfPrefix(a, b, d - 1);
    }
  }

  lemma {:induction false} ViewOfFold<V>(j: Journal<V>, i: nat, d: nat)
    requires i <= d <= |j.layers|
    ensures j.ViewAt(d) == j.ViewAt(i) + Fold(j.layers[i..d])
  {
    if i < d {
      ViewOfFold(j, i, d - 1);
      SliceInit(j.layers, i, d);
      MapAssociative(j.ViewAt(i), Fold(j.layers[i..d - 1]), j.layers[d - 1].changes);
    }
  }

  lemma SliceInit<T>(s: seq<T>, i: nat, d: nat)
    requires i < d <= |s|
    ensures |s[i..d]| == d - i && s[i..d][d - i - 1] == s[d - 1] && s[i..d][..d - i - 1] == s[i..d - 1]
  {
  }

  lemma MapAssociative<V>(a: map<Slot, V>, b: map<Slot, V>, c: map<Slot, V>)
    ensures a + b + c == a + (b + c)
  {
  }

  lemma PutViews<V>(j: Journal<V>, k: Slot, v: V)
    ensures |j.Put(k, v).layers| == |j.layers|
    ensures j.Put(k, v).ViewAt(|j.layers|) == j.ViewAt(|j.layers|)[k := v]
    ensures forall d | 0 <= d < |j.layers| :: j.Put(k, v).ViewAt(d) == j.ViewAt(d)
  {
    var p := j.Put(k, v);
    forall d | 0 <= d < |j.layers| ensures p.ViewAt(d) == j.ViewAt(d) {
      ViewOfPrefix(p, j, d);
    }
    if j.layers != [] {
      var top := |j.layers| - 1;
      assert p.ViewAt(top + 1) == j.ViewAt(top) + j.layers[top].changes[k := v];
    }
  }

  lemma RecordViews<V>(j: Journal<V>, id: nat)
    ensures j.Record(id).Ids() == j.Ids() + [id]
    ensures forall d | 0 <= d <= |j.layers| :: j.Record(id).ViewAt(d) == j.ViewAt(d)
    ensures j.Record(id).View() == j.View()
  {
    forall d | 0 <= d <= |j.layers| ensures j.Record(id).ViewAt(d) == j.ViewAt(d) {
      ViewOfPrefix(j.Record(id), j, d);
    }
    assert j.ViewAt(|j.layers|) + map[] == j.ViewAt(|j.layers|);
  }

  lemma DiscardViews<V>(j: Journal<V>, i: nat)
    requires i < |j.layers|
    ensures j.Discard(i).Ids() == j.Ids()[..i]
    ensures forall d | 0 <= d <= i :: j.Discard(i).ViewAt(d) == j.ViewAt(d)
  {
    forall d | 0 <= d <= i ensures j.Discard(i).ViewAt(d) == j.ViewAt(d) {
      ViewOfPrefix(j.Discard(i), j, d);
    }
  }

  lemma SliceToEnd<T>(s: seq<T>, i: nat)
    requires i <= |s|
    ensures s[i..|s|] == s[i..]
  {
  }

  /** Committing shows at its level all that was visible before, and leaves the
      levels below alone. */
  lemma CommitViews<V>(j: Journal<V>, i: nat)
    requires i < |j.layers|
    ensures j.Commit(i).Ids() == j.Ids()[..i]
    ensures j.Commit(i).View() == j.View()
    ensures forall d | 0 <= d < i :: j.Commit(i).ViewAt(d) == j.ViewAt(d)
  {
    var c, n := j.Commit(i), |j.layers|;
    forall d | 0 <= d < i ensures c.ViewAt(d) == j.ViewAt(d) {
      ViewOfPrefix(c, j, d);
    }
    ViewOfFold(j, i, n);
    SliceToEnd(j.layers, i);
    if i > 0 {
      MapAssociative(j.ViewAt(i - 1), j.layers[i - 1].changes, Fold(j.layers[i..]));
      assert c.ViewAt(i) == c.ViewAt(i - 1) + c.layers[i - 1].changes;
    }
  }

  /** The position of an outstanding checkpoint. */
  function IndexOf(ids: seq<nat>, id: nat): (i: nat)
    ensures id in ids ==> i < |ids| && ids[i] == id
    ensures id !in ids ==> i == |ids|
  {
    if ids == [] || ids[0] == id then 0 else 1 + IndexOf(ids[1..], id)
  }

  // The two databases.

  /** The lazy database: local values, seeded markers, and the checkpoint counter. */
  datatype Fork = Fork(values: Journal<nat>, marks: Journal<bool>, next: nat)

  /** The reference: writes over the complete remote state, one journal. */
  datatype Eager = Eager(writes: Journal<nat>, next: nat)

  datatype Op = Get(k: Slot, up: bool)
              | Set(k: Slot, v: nat)
              | Record
              | Commit(id: nat)
              | Discard(id: nat)

  /** What an operation gives its caller. */
  datatype Out = Read(r: Result<nat>) | Checkpoint(id: nat) | Done | UnknownCheckpoint

  /** The local value; a slot never written reads as zero. */
  function LocalRead(f: Fork, k: Slot): nat {
    if k in f.values.View() then f.values.View()[k] else 0
  }

  predicate HaveLocally(f: Fork, k: Slot) {
    k in f.marks.View() && f.marks.View()[k]
  }

  function ForkSet(f: Fork, k: Slot, v: nat): Fork {
    f.(values := f.values.Put(k, v), marks := f.marks.Put(k, true))
  }

  /** `get_storage`; `up` says whether the reader would answer now. */
  function ForkGet(f: Fork, remote: Remote, k: Slot, up: bool): (Fork, Result<nat>) {
    if HaveLocally(f, k) then (f, Ok(LocalRead(f, k)))
    else if !up then (f, Raised("transport"))
    else
      match remote(k)
      case Raised(e) => (f, Raised(e))
      case Ok(v) => (ForkSet(f, k, v), Ok(v))
  }

  function ForkStep(f: Fork, remote: Remote, op: Op): (Fork, Out) {
    match op
    case Get(k, up) => var (g, r) := ForkGet(f, remote, k, up); (g, Read(r))
    case Set(k, v) => (ForkSet(f, k, v), Done)
    case Record => (Fork(f.values.Record(f.next), f.marks.Record(f.next), f.next + 1), Checkpoint(f.next))
    case Commit(id) =>
      var i := IndexOf(f.values.Ids(), id);
      if i >= |f.values.layers| || i >= |f.marks.layers| then (f, UnknownCheckpoint)
      else (f.(values := f.values.Commit(i), marks := f.marks.Commit(i)), Done)
    case Discard(id) =>
      var i := IndexOf(f.values.Ids(), id);
      if i >= |f.values.layers| || i >= |f.marks.layers| then (f, UnknownCheckpoint)
      else (f.(values := f.values.Discard(i), marks := f.marks.Discard(i)), Done)
  }

  function EagerReadAt(e: Eager, remote: Remote, d: nat, k: Slot): Result<nat>
    requires d <= |e.writes.layers|
  {
    if k in e.writes.ViewAt(d) then Ok(e.writes.ViewAt(d)[k]) else remote(k)
  }

  function EagerRead(e: Eager, remote: Remote, k: Slot): Result<nat> {
    EagerReadAt(e, remote, |e.writes.layers|, k)
  }

  function EagerStep(e: Eager, remote: Remote, op: Op): (Eager, Out) {
    match op
    case Get(k, _) => (e, Read(EagerRead(e, remote, k)))
    case Set(k, v) => (e.(writes := e.writes.Put(k, v)), Done)
    case Record => (Eager(e.writes.Record(e.next), e.next + 1), Checkpoint(e.next))
    case Commit(id) =>
      var i := IndexOf(e.writes.Ids(), id);
      if i >= |e.writes.layers| then (e, UnknownCheckpoint) else (e.(writes := e.writes.Commit(i)), Done)
    case Discard(id) =>
      var i := IndexOf(e.writes.Ids(), id);
      if i >= |e.writes.layers| then (e, UnknownCheckpoint) else (e.(writes := e.writes.Discard(i)), Done)
  }

  const FORK_START := Fork(Journal(map[], []), Journal(map[], []), 0)
  const EAGER_START := Eager(Journal(map[], []), 0)

  // The simulation.

  /** The marker journal describes the value journal, at every checkpoint: same
      stack, and a slot is marked exactly when its value is held locally. */
  ghost predicate Lockstep(f: Fork) {
    && f.marks.Ids() == f.values.Ids()
    && |f.marks.layers| == |f.values.layers|
    && (forall d | 0 <= d <= |f.values.layers| :: Describes(f.marks.ViewAt(d), f.values.ViewAt(d)))
  }

  ghost predicate Describes(marks: map<Slot, bool>, values: map<Slot, nat>) {
    marks.Keys == values.Keys && forall k | k in marks :: marks[k]
  }

  /** With the first `d` checkpoints applied, the slot reads the same in both. */
  ghost predicate SameAt(f: Fork, e: Eager, remote: Remote, d: nat, k: Slot)
    requires d <= |f.values.layers| && d <= |e.writes.layers|
  {
    EagerReadAt(e, remote, d, k) == if k in f.values.ViewAt(d) then Ok(f.values.ViewAt(d)[k]) else remote(k)
  }

  ghost predicate Simulates(f: Fork, e: Eager, remote: Remote) {
    && Lockstep(f)
    && f.next == e.next
    && e.writes.Ids() == f.values.Ids()
    && |e.writes.layers| == |f.values.layers|
    && (forall d, k | 0 <= d <= |f.values.layers| :: SameAt(f, e, remote, d, k))
  }

  lemma DescribesPut(marks: map<Slot, bool>, values: map<Slot, nat>, k: Slot, v: nat)
    requires Describes(marks, values)
    ensures Describes(marks[k := true], values[k := v])
  {
  }

  lemma SetLockstep(f: Fork, k: Slot, v: nat)
    requires Lockstep(f)
    ensures Lockstep(ForkSet(f, k, v))
    ensures |ForkSet(f, k, v).values.layers| == |f.values.layers|
    ensures ForkSet(f, k, v).values.Ids() == f.values.Ids()
  {
    PutViews(f.values, k, v);
    PutViews(f.marks, k, true);
    var g, n := ForkSet(f, k, v), |f.values.layers|;
    forall d | 0 <= d <= n ensures Describes(g.marks.ViewAt(d), g.values.ViewAt(d)) {
      assert Describes(f.marks.ViewAt(d), f.values.ViewAt(d));
      if d == n {
        DescribesPut(f.marks.ViewAt(n), f.values.ViewAt(n), k, v);
      }
    }
  }

  lemma SeedSame(f: Fork, e: Eager, remote: Remote, k: Slot, v: nat, d: nat, s: Slot)
    requires d <= |f.values.layers| && |e.writes.layers| == |f.values.layers| && SameAt(f, e, remote, d, s)
    requires SameAt(f, e, remote, d, k)
    requires d == |f.values.layers| ==> k !in f.values.ViewAt(d) && remote(k) == Ok(v)
    ensures |ForkSet(f, k, v).values.layers| == |f.values.layers| && SameAt(ForkSet(f, k, v), e, remote, d, s)
  {
    PutViews(f.values, k, v);
  }

  /** A lazily seeded value changes nothing the reference can see. */
  lemma SeedSimulates(f: Fork, e: Eager, remote: Remote, k: Slot, v: nat)
    requires Simulates(f, e, remote)
    requires k !in f.values.View() && remote(k) == Ok(v)
    ensures Simulates(ForkSet(f, k, v), e, remote)
  {
    SetLockstep(f, k, v);
    forall d, s | 0 <= d <= |f.values.layers| ensures SameAt(ForkSet(f, k, v), e, remote, d, s) {
      assert SameAt(f, e, remote, d, k) && SameAt(f, e, remote, d, s);
      SeedSame(f, e, remote, k, v, d, s);
    }
  }

  lemma SetSame(f: Fork, e: Eager, remote: Remote, k: Slot, v: nat, d: nat, s: Slot)
    requires d <= |f.values.layers| && |e.writes.layers| == |f.values.layers| && SameAt(f, e, remote, d, s)
    ensures var g, w := ForkSet(f, k, v), e.(writes := e.writes.Put(k, v));
            |g.values.layers| == |f.values.layers| && |w.writes.layers| == |e.writes.layers| &&
              SameAt(g, w, remote, d, s)
  {
    PutViews(f.values, k, v);
    PutViews(e.writes, k, v);
  }

  lemma SetSimulates(f: Fork, e: Eager, remote: Remote, k: Slot, v: nat)
    requires Simulates(f, e, remote)
    ensures Simulates(ForkSet(f, k, v), e.(writes := e.writes.Put(k, v)), remote)
  {
    SetLockstep(f, k, v);
    PutViews(e.writes, k, v);
    forall d, s | 0 <= d <= |f.values.layers|
      ensures SameAt(ForkSet(f, k, v), e.(writes := e.writes.Put(k, v)), remote, d, s) {
      assert SameAt(f, e, remote, d, s);
      SetSame(f, e, remote, k, v, d, s);
    }
  }

  lemma RecordSimulates(f: Fork, e: Eager, remote: Remote)
    requires Simulates(f, e, remote)
    ensures Simulates(ForkStep(f, remote, Record).0, EagerStep(e, remote, Record).0, remote)
  {
    var g, w, n := ForkStep(f, remote, Record).0, EagerStep(e, remote, Record).0, |f.values.layers|;
    RecordViews(f.values, f.next);
    RecordViews(f.marks, f.next);
    RecordViews(e.writes, e.next);
    forall d, s | 0 <= d <= n + 1 ensures SameAt(g, w, remote, d, s) {
      assert SameAt(f, e, remote, if d == n + 1 then n else d, s);
    }
  }

  lemma CommitSimulates(f: Fork, e: Eager, remote: Remote, i: nat)
    requires Simulates(f, e, remote) && i < |f.values.layers|
    ensures Simulates(f.(values := f.values.Commit(i), marks := f.marks.Commit(i)), e.(writes := e.writes.Commit(i)),
            remote)
  {
    var g, w := f.(values := f.values.Commit(i), marks := f.marks.Commit(i)), e.(writes := e.writes.Commit(i));
    var n := |f.values.layers|;
    CommitViews(f.values, i);
    CommitViews(f.marks, i);
    CommitViews(e.writes, i);
    assert |g.values.layers| == i == |g.marks.layers| == |w.writes.layers|;
    forall d, s | 0 <= d <= i ensures SameAt(g, w, remote, d, s) {
      assert SameAt(f, e, remote, if d == i then n else d, s);
    }
  }

  lemma DiscardSimulates(f: Fork, e: Eager, remote: Remote, i: nat)
    requires Simulates(f, e, remote) && i < |f.values.layers|
    ensures Simulates(f.(values := f.values.Discard(i), marks := f.marks.Discard(i)),
            e.(writes := e.writes.Discard(i)), remote)
  {
    var g, w := f.(values := f.values.Discard(i), marks := f.marks.Discard(i)), e.(writes := e.writes.Discard(i));
    DiscardViews(f.values, i);
    DiscardViews(f.marks, i);
    DiscardViews(e.writes, i);
    forall d, s | 0 <= d <= i ensures SameAt(g, w, remote, d, s) {
      assert SameAt(f, e, remote, d, s);
    }
  }

  /** One operation answers alike in both databases, unless the reader was
      down for a read the lazy one had to make. */
  ghost predicate SameOut(op: Op, lazy: Out, eager: Out) {
    lazy == eager || (op.Get? && !op.up && lazy == Read(Raised("transport")))
  }

  lemma StepSimulates(f: Fork, e: Eager, remote: Remote, op: Op)
    requires Simulates(f, e, remote)
    ensures Simulates(ForkStep(f, remote, op).0, EagerStep(e, remote, op).0, remote)
    ensures SameOut(op, ForkStep(f, remote, op).1, EagerStep(e, remote, op).1)
  {
    match op
    case Get(k, up) =>
      assert SameAt(f, e, remote, |f.values.layers|, k);
      if !HaveLocally(f, k) && up && remote(k).Ok? {
        SeedSimulates(f, e, remote, k, remote(k).value);
      }
    case Set(k, v) =>
      SetSimulates(f, e, remote, k, v);
    case Record =>
      RecordSimulates(f, e, remote);
    case Commit(id) =>
      var i := IndexOf(f.values.Ids(), id);
      if i < |f.values.layers| {
        CommitSimulates(f, e, remote, i);
      }
    case Discard(id) =>
      var i := IndexOf(f.values.Ids(), id);
      if i < |f.values.layers| {
        DiscardSimulates(f, e, remote, i);
      }
  }

  function ForkRun(f: Fork, remote: Remote, ops: seq<Op>): (Fork, seq<Out>)
    decreases |ops|
  {
    if ops == [] then (f, [])
    else
      var (g, o) := ForkStep(f, remote, ops[0]);
      var (h, os) := ForkRun(g, remote, ops[1..]);
      (h, [o] + os)
  }

  function EagerRun(e: Eager, remote: Remote, ops: seq<Op>): (Eager, seq<Out>)
    decreases |ops|
  {
    if ops == [] then (e, [])
    else
      var (g, o) := EagerStep(e, remote, ops[0]);
      var (h, os) := EagerRun(g, remote, ops[1..]);
      (h, [o] + os)
  }

  ghost predicate SameOuts(ops: seq<Op>, lazy: seq<Out>, eager: seq<Out>) {
    |lazy| == |eager| == |ops| && forall i | 0 <= i < |ops| :: SameOut(ops[i], lazy[i], eager[i])
  }

  lemma {:induction false} RunSimulates(f: Fork, e: Eager, remote: Remote, ops: seq<Op>)
    requires Simulates(f, e, remote)
    ensures Simulates(ForkRun(f, remote, ops).0, EagerRun(e, remote, ops).0, remote)
    ensures SameOuts(ops, ForkRun(f, remote, ops).1, EagerRun(e, remote, ops).1)
    decreases |ops|
  {
    if ops != [] {
      StepSimulates(f, e, remote, ops[0]);
      RunSimulates(ForkStep(f, remote, ops[0]).0, EagerStep(e, remote, ops[0]).0, remote, ops[1..]);
    }
  }

  /** The whole-run refinement, from empty databases: every operation answers
      as the eager snapshot does, and markers and values stay in lockstep. */
  lemma LazyRefinesEager(remote: Remote, ops: seq<Op>)
    ensures SameOuts(ops, ForkRun(FORK_START, remote, ops).1, EagerRun(EAGER_START, remote, ops).1)
    ensures Lockstep(ForkRun(FORK_START, remote, ops).0)
  {
    assert Simulates(FORK_START, EAGER_START, remote);
    RunSimulates(FORK_START, EAGER_START, remote, ops);
  }

  /** With the reader up throughout, the answers are simply equal. */
  lemma LazyEqualsEager(remote: Remote, ops: seq<Op>)
    requires forall i | 0 <= i < |ops| :: ops[i].Get? ==> ops[i].up
    ensures ForkRun(FORK_START, remote, ops).1 == EagerRun(EAGER_START, remote, ops).1
  {
    LazyRefinesEager(remote, ops);
  }

  /** A slot first read inside a frame is forgotten, marker and value, when the
      frame is discarded: the next read goes to the reader again. */
  lemma SeedRevertsWithFrame(f: Fork, remote: Remote, k: Slot)
    requires f.values.Ids() == f.marks.Ids() && |f.values.layers| == |f.marks.layers|
    requires forall i | 0 <= i < |f.values.layers| :: f.values.layers[i].id < f.next
    requires !HaveLocally(f, k)
    ensures var inFrame := ForkGet(ForkStep(f, remote, Record).0, remote, k, true).0;
            ForkStep(inFrame, remote, Discard(f.next)).0 == f.(next := f.next + 1)
  {
    var seeded := ForkGet(ForkStep(f, remote, Record).0, remote, k, true).0;
    var n, ids := |f.values.layers|, seeded.values.Ids();
    assert ids == f.values.Ids() + [f.next];
    FreshId(f.values.Ids(), f.next);
    assert seeded.next == f.next + 1 && seeded.values.base == f.values.base && seeded.marks.base == f.marks.base;
    assert seeded.values.layers[..n] == f.values.layers;
    assert seeded.marks.layers[..n] == f.marks.layers;
  }

  lemma {:induction false} FreshId(ids: seq<nat>, id: nat)
    requires id !in ids
    ensures IndexOf(ids + [id], id) == |ids|
  {
    if ids != [] {
      assert (ids + [id])[1..] == ids[1..] + [id];
      FreshId(ids[1..], id);
    }
  }

  /** The database as it runs, over a memoising reader. */
  class ForkAccountDb {
    const reader: RpcStateReader
    var values: Journal<nat>
    var dontfetch: Journal<bool>
    var next: nat

    constructor (reader: RpcStateReader)
      ensures this.reader == reader && State() == FORK_START
    {
      this.reader := reader;
      values, dontfetch, next := Journal(map[], []), Journal(map[], []), 0;
    }

    function State(): Fork
      reads this
    {
      Fork(values, dontfetch, next)
    }

    /** The chain as this database's reader would read it directly. */
    function Chain(): Remote {
      (k: Slot) => DirectStorage(reader.w, k.address, k.index)
    }

    method GetStorage(k: Slot, up: bool) returns (r: Result<nat>)
      requires reader.Valid()
      modifies this, reader
      ensures reader.Valid()
      ensures var online := up || StorageKey(reader.w, k.address, k.index) in old(reader.memo);
              (State(), r) == ForkGet(old(State()), Chain(), k, online)
      ensures old(HaveLocally(State(), k)) ==> reader.answered == old(reader.answered)
      ensures StorageKey(reader.w, k.address, k.index) in old(reader.memo) ==> reader.answered == old(reader.answered)
      ensures old(HaveLocally(State(), k)) && k in old(values.View()) ==> r == Ok(old(values.View())[k])
      ensures var key := Key("eth_getStorageAt", [reader.w.checksum(k.address), HexQuantity(k.index), reader.w.block]);
              !old(HaveLocally(State(), k)) && (key in old(reader.memo) || up) ==>
                forall n: nat :: StorageWritten(reader.w.node(key), n) <==> r == Ok(n)
    {
      var val := LocalRead(State(), k);
      if HaveLocally(State(), k) {
        return Ok(val);
      }
      r := reader.GetStorage(k.address, k.index, up);
      if r.Ok? {
        SetStorage(k, r.value);
      }
    }

    method SetStorage(k: Slot, v: nat)
      modifies this
      ensures State() == ForkSet(old(State()), k, v)
    {
      values := values.Put(k, v);
      dontfetch := dontfetch.Put(k, true);
    }

    method RecordCheckpoint() returns (checkpoint: nat)
      modifies this
      ensures (State(), Checkpoint(checkpoint)) == ForkStep(old(State()), Chain(), Record)
    {
      checkpoint := next;
      values := values.Record(checkpoint);
      dontfetch := dontfetch.Record(checkpoint);
      next := next + 1;
    }

    /** An unknown checkpoint raises before either journal is touched. */
    method CommitCheckpoint(checkpoint: nat) returns (known: bool)
      requires Lockstep(State())
      modifies this
      ensures (State(), if known then Done else UnknownCheckpoint)
              == ForkStep(old(State()), Chain(), Commit(checkpoint))
    {
      var i := IndexOf(values.Ids(), checkpoint);
      known := i < |values.layers|;
      if known {
        values := values.Commit(i);
        dontfetch := dontfetch.Commit(i);
      }
    }

    method DiscardCheckpoint(checkpoint: nat) returns (known: bool)
      requires Lockstep(State())
      modifies this
      ensures (State(), if known then Done else UnknownCheckpoint)
              == ForkStep(old(State()), Chain(), Discard(checkpoint))
    {
      var i := IndexOf(values.Ids(), checkpoint);
      known := i < |values.layers|;
      if known {
        values := values.Discard(i);
        dontfetch := dontfetch.Discard(i);
      }
    }
  }
}
