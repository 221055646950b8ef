/** Concurrent savers of the wallet's configuration (qeth/store.py,
    `Store.save`): the snapshot is numbered under one lock and written under
    another, and a snapshot overtaken by a newer one is dropped. */
module StoreSave {
  /** The stored state, as the history of mutations it has seen. */
  type Data = seq<nat>

  /** A mutating thread: changed the store, holds a numbered snapshot, returned
      from its save, or got an exception from the disk. */
  datatype Saver = Changed | Holding(seqNo: nat) | Saved(seqNo: nat) | Failed(seqNo: nat)

  datatype State = State(
    mem: Data,
    saveSeq: nat,
    snapshots: seq<Data>,
    lastWritten: nat,
    file: Data,
    fileSeq: nat,
    savers: map<nat, Saver>)

  /** Snapshot number zero is what the file held at the start. */
  function Init(disk: Data): State {
    State(disk, 0, [disk], 0, disk, 0, map[])
  }

  /** A mutation is named by the thread that makes it. */
  datatype Event = Change(thread: nat) | Snapshot(thread: nat) | Write(thread: nat) | WriteFails(thread: nat)

  predicate Enabled(s: State, e: Event) {
    match e
    case Change(i) => i !in s.savers
    case Snapshot(i) => i in s.savers && s.savers[i].Changed?
    case Write(i) => i in s.savers && s.savers[i].Holding? && s.savers[i].seqNo < |s.snapshots|
    case WriteFails(i) =>
      i in s.savers && s.savers[i].Holding? && s.lastWritten <= s.savers[i].seqNo < |s.snapshots|
  }

  function Apply(s: State, e: Event): State
    requires Enabled(s, e)
  {
    match e
    case Change(i) => s.(mem := s.mem + [i], savers := s.savers[i := Changed])
    case Snapshot(i) =>
      s.(saveSeq := s.saveSeq + 1, snapshots := s.snapshots + [s.mem], savers := s.savers[i := Holding(s.saveSeq + 1)])
    case Write(i) =>
      var q := s.savers[i].seqNo;
      var done := s.(savers := s.savers[i := Saved(q)]);
      if q < s.lastWritten then done
      else done.(lastWritten := q, file := s.snapshots[q], fileSeq := q)
    case WriteFails(i) =>
      var q := s.savers[i].seqNo;
      s.(savers := s.savers[i := Failed(q)], lastWritten := q)
  }

  ghost predicate Runs(s: State, es: seq<Event>, t: State)
    decreases |es|
  {
    if es == [] then s == t
    else Enabled(s, es[0]) && Runs(Apply(s, es[0]), es[1..], t)
  }

  /** Snapshots are numbered from one and each extends those before it. */
  ghost predicate SnapshotsInOrder(s: State) {
    && |s.snapshots| == s.saveSeq + 1
    && s.lastWritten <= s.saveSeq && s.fileSeq <= s.lastWritten
    && (forall a, b | 0 <= a <= b < |s.snapshots| :: s.snapshots[a] <= s.snapshots[b])
    && (forall a | 0 <= a < |s.snapshots| :: s.snapshots[a] <= s.mem)
    && s.file == s.snapshots[s.fileSeq]
  }

  /** Every saver's change is in the snapshot it took. */
  ghost predicate SaverInv(s: State, i: nat)
    requires i in s.savers
  {
    match s.savers[i]
    case Changed => i in s.mem
    case Holding(q) => q < |s.snapshots| && i in s.snapshots[q]
    case Saved(q) => q < |s.snapshots| && i in s.snapshots[q] && q <= s.lastWritten
    case Failed(q) => q <= s.lastWritten
  }

  ghost predicate Inv(s: State) {
    && SnapshotsInOrder(s)
    && (forall i | i in s.savers :: SaverInv(s, i))
    && (FileCurrent(s) || exists i :: i in s.savers && s.savers[i].Failed?)
  }

  predicate FileCurrent(s: State) {
    s.fileSeq == s.lastWritten
  }

  lemma SnapshotsStep(s: State, e: Event)
    requires SnapshotsInOrder(s) && Enabled(s, e)
    requires e.Change? || SaverInv(s, e.thread)
    ensures SnapshotsInOrder(Apply(s, e))
    ensures s.lastWritten <= Apply(s, e).lastWritten && s.fileSeq <= Apply(s, e).fileSeq
  {
  }

  lemma SaverStep(s: State, e: Event, i: nat)
    requires SnapshotsInOrder(s) && Enabled(s, e) && i in Apply(s, e).savers
    requires i in s.savers ==> SaverInv(s, i)
    ensures SaverInv(Apply(s, e), i)
  {
    var t := Apply(s, e);
    assert forall q | 0 <= q < |s.snapshots| :: t.snapshots[q] == s.snapshots[q];
  }

  lemma StepKeeps(s: State, e: Event)
    requires Inv(s) && Enabled(s, e)
    ensures Inv(Apply(s, e))
    ensures s.lastWritten <= Apply(s, e).lastWritten
    ensures s.fileSeq <= Apply(s, e).fileSeq
  {
    var t := Apply(s, e);
    SnapshotsStep(s, e);
    forall i | i in t.savers ensures SaverInv(t, i) {
      SaverStep(s, e, i);
    }
    if !FileCurrent(t) {
      FailureStays(s, e);
    }
  }

  lemma FailureStays(s: State, e: Event)
    requires Enabled(s, e) && !FileCurrent(Apply(s, e))
    requires FileCurrent(s) || exists i :: i in s.savers && s.savers[i].Failed?
    ensures exists i :: i in Apply(s, e).savers && Apply(s, e).savers[i].Failed?
  {
    var t := Apply(s, e);
    if FileCurrent(s) {
      assert t.savers[e.thread].Failed?;
    } else {
      var i :| i in s.savers && s.savers[i].Failed?;
      assert i in t.savers && t.savers[i].Failed?;
    }
  }

  lemma {:induction false} RunKeeps(s: State, es: seq<Event>, t: State)
    requires Inv(s) && Runs(s, es, t)
    ensures Inv(t) && s.lastWritten <= t.lastWritten && s.fileSeq <= t.fileSeq
    decreases |es|
  {
    if es != [] {
      StepKeeps(s, es[0]);
      RunKeeps(Apply(s, es[0]), es[1..], t);
    }
  }

  lemma {:induction false} NoFailures(s: State, es: seq<Event>, t: State)
    requires Runs(s, es, t) && FileCurrent(s)
    requires forall k | 0 <= k < |es| :: !es[k].WriteFails?
    ensures FileCurrent(t)
    decreases |es|
  {
    if es != [] {
      NoFailures(Apply(s, es[0]), es[1..], t);
    }
  }

  /** As long as writes succeed: the file always holds the snapshot numbered
      `_last_written_seq`, and every change whose save has returned is in it,
      however the savers interleaved. */
  lemma FileHoldsSavedChanges(disk: Data, es: seq<Event>, t: State)
    requires Runs(Init(disk), es, t)
    requires forall k | 0 <= k < |es| :: !es[k].WriteFails?
    ensures t.lastWritten < |t.snapshots| && t.file == t.snapshots[t.lastWritten]
    ensures forall i | i in t.savers && t.savers[i].Saved? :: i in t.file
    ensures disk <= t.file <= t.mem
  {
    RunKeeps(Init(disk), es, t);
    NoFailures(Init(disk), es, t);
    StartKept(Init(disk), es, t);
    assert t.snapshots[0] <= t.snapshots[t.lastWritten];
    forall i | i in t.savers && t.savers[i].Saved? ensures i in t.file {
      assert SaverInv(t, i);
      var q := t.savers[i].seqNo;
      var k :| 0 <= k < |t.snapshots[q]| && t.snapshots[q][k] == i;
      assert t.snapshots[q] <= t.file;
      assert t.file[k] == i;
    }
  }

  lemma {:induction false} StartKept(s: State, es: seq<Event>, t: State)
    requires Runs(s, es, t) && s.snapshots != []
    ensures t.snapshots != [] && t.snapshots[0] == s.snapshots[0]
    decreases |es|
  {
    if es != [] {
      StartKept(Apply(s, es[0]), es[1..], t);
    }
  }

  /** The sequence number never goes back, with or without failures; nor does
      the snapshot on disk. */
  lemma NeverRegresses(disk: Data, es: seq<Event>, s: State, more: seq<Event>, t: State)
    requires Runs(Init(disk), es, s) && Runs(s, more, t)
    ensures s.lastWritten <= t.lastWritten && s.file <= t.file
  {
    RunKeeps(Init(disk), es, s);
    RunKeeps(s, more, t);
    SnapshotsKept(s, more, t);
    assert t.snapshots[s.fileSeq] <= t.snapshots[t.fileSeq];
  }

  lemma {:induction false} SnapshotsKept(s: State, es: seq<Event>, t: State)
    requires Runs(s, es, t)
    ensures s.snapshots <= t.snapshots
    decreases |es|
  {
    if es != [] {
      SnapshotsKept(Apply(s, es[0]), es[1..], t);
    }
  }

  /** The number of the first snapshot taken after a change, counting on from
      the snapshots taken before the run. */
  function FirstAfter(es: seq<Event>, i: nat, taken: nat): nat
    decreases |es|
  {
    if es == [] || es[0] == Change(i) then taken + 1
    else FirstAfter(es[1..], i, if es[0].Snapshot? then taken + 1 else taken)
  }

  /** A change goes into every later snapshot and into none before. */
  lemma {:induction false} InLaterSnapshots(s: State, es: seq<Event>, t: State, i: nat)
    requires SnapshotsInOrder(s) && Runs(s, es, t) && Inv(s)
    requires i !in s.mem && i !in s.savers && i in t.savers
    ensures forall a | 0 <= a < |t.snapshots| :: i in t.snapshots[a] <==> a >= FirstAfter(es, i, s.saveSeq)
    decreases |es|
  {
    var u := Apply(s, es[0]);
    StepKeeps(s, es[0]);
    if es[0] == Change(i) {
      NotBefore(s, i);
      FromNowOn(u, es[1..], t, i);
    } else {
      InLaterSnapshots(u, es[1..], t, i);
    }
  }

  lemma NotBefore(s: State, i: nat)
    requires SnapshotsInOrder(s) && i !in s.mem
    ensures forall a | 0 <= a < |s.snapshots| :: i !in s.snapshots[a]
  {
    forall a | 0 <= a < |s.snapshots| ensures i !in s.snapshots[a] {
      assert s.snapshots[a] <= s.mem;
    }
  }

  lemma {:induction false} FromNowOn(s: State, es: seq<Event>, t: State, i: nat)
    requires Runs(s, es, t) && i in s.mem
    ensures s.snapshots <= t.snapshots
    ensures forall a | |s.snapshots| <= a < |t.snapshots| :: i in t.snapshots[a]
    decreases |es|
  {
    if es != [] {
      FromNowOn(Apply(s, es[0]), es[1..], t, i);
    }
  }

  /** In every run, failing writes included, a change is in the file exactly
      when the last write to reach the disk was of a snapshot taken after it. */
  lemma SavedExactlyWhen(disk: Data, es: seq<Event>, t: State, i: nat)
    requires Runs(Init(disk), es, t) && i !in disk && i in t.savers
    ensures i in t.file <==> t.fileSeq >= FirstAfter(es, i, 0)
  {
    RunKeeps(Init(disk), es, t);
    InLaterSnapshots(Init(disk), es, t, i);
  }

  lemma RunOf(s: State, e: Event, more: seq<Event>, t: State)
    requires Enabled(s, e) && Runs(Apply(s, e), more, t)
    ensures Runs(s, [e] + more, t)
  {
    assert ([e] + more)[1..] == more;
  }

  /** Two changes, each with its numbered snapshot. */
  const TWO_HELD := State([1, 2], 2, [[], [1], [1, 2]], 0, [], 0, map[1 := Holding(1), 2 := Holding(2)])

  lemma TwoHeldReached(more: seq<Event>, t: State) returns (es: seq<Event>)
    requires Runs(TWO_HELD, more, t)
    ensures Runs(Init([]), es, t)
  {
    var s1 := State([1], 0, [[]], 0, [], 0, map[1 := Changed]);
    assert s1 == Apply(Init([]), Change(1));
    var s2 := State([1], 1, [[], [1]], 0, [], 0, map[1 := Holding(1)]);
    assert s2 == Apply(s1, Snapshot(1));
    var s3 := State([1, 2], 1, [[], [1]], 0, [], 0, map[1 := Holding(1), 2 := Changed]);
    assert s3 == Apply(s2, Change(2));
    assert TWO_HELD == Apply(s3, Snapshot(2)) by {
      assert s3.savers[2 := Holding(2)] == TWO_HELD.savers;
    }
    RunOf(s3, Snapshot(2), more, t);
    es := [Snapshot(2)] + more;
    RunOf(s2, Change(2), es, t);
    es := [Change(2)] + es;
    RunOf(s1, Snapshot(1), es, t);
    es := [Snapshot(1)] + es;
    RunOf(Init([]), Change(1), es, t);
    es := [Change(1)] + es;
  }

  /** The number advances before the write, so one failed write can make an
      older save that was still to be written return without reaching the disk. */
  lemma FailedWriteLosesAnother()
    ensures exists es, t :: Runs(Init([]), es, t) && 1 in t.savers && t.savers[1].Saved? && 1 !in t.file
  {
    var s := Apply(TWO_HELD, WriteFails(2));
    var t := Apply(s, Write(1));
    RunOf(s, Write(1), [], t);
    RunOf(TWO_HELD, WriteFails(2), [Write(1)] + [], t);
    var es := TwoHeldReached([WriteFails(2)] + ([Write(1)] + []), t);
  }

  /** The two locked blocks of `save` on the object's own fields. */
  class SaveSide {
    var mem: Data
    var saveSeq: nat
    var lastWritten: nat
    var file: Data

    constructor (disk: Data)
      ensures mem == file == disk && saveSeq == lastWritten == 0
    {
      mem, file := disk, disk;
      saveSeq, lastWritten := 0, 0;
    }

    /** The object's fields are those of a state of the step system. */
    ghost predicate Shows(s: State)
      reads this
    {
      mem == s.mem && saveSeq == s.saveSeq && lastWritten == s.lastWritten && file == s.file
    }

    /** A mutator's own block, before it saves. */
    method ChangeMemory(thread: nat, ghost s: State)
      requires Shows(s) && Enabled(s, Change(thread))
      modifies this`mem
      ensures Shows(Apply(s, Change(thread)))
    {
      mem := mem + [thread];
    }

    method TakeSnapshot(ghost s: State, ghost thread: nat) returns (seqNo: nat, data: Data)
      requires Shows(s) && Enabled(s, Snapshot(thread))
      modifies this
      ensures Shows(Apply(s, Snapshot(thread)))
      ensures Apply(s, Snapshot(thread)).savers[thread] == Holding(seqNo)
      ensures var t := Apply(s, Snapshot(thread));
              Inv(s) ==> seqNo < |t.snapshots| && data == t.snapshots[seqNo]
    {
      saveSeq := saveSeq + 1;
      seqNo := saveSeq;
      data := mem;
    }

    method WriteSnapshot(seqNo: nat, data: Data, ghost s: State, ghost thread: nat)
      requires Shows(s) && Enabled(s, Write(thread))
      requires s.savers[thread] == Holding(seqNo) && data == s.snapshots[seqNo]
      modifies this
      ensures Shows(Apply(s, Write(thread)))
    {
      if seqNo < lastWritten {
        return;
      }
      lastWritten := seqNo;
      file := data;
    }

    /** The same block when the disk raises: the number is kept all the same. */
    method FailWrite(seqNo: nat, ghost s: State, ghost thread: nat)
      requires Shows(s) && Enabled(s, WriteFails(thread)) && s.savers[thread] == Holding(seqNo)
      modifies this`lastWritten
      ensures Shows(Apply(s, WriteFails(thread)))
    {
      lastWritten := seqNo;
    }
  }
}
