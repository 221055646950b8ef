/** The coalescing background writer (qeth/transactions_cache.py,
    `AsyncTransactionSaver`): one submitting thread, one worker, a lock-guarded
    table of latest snapshots, and a first-in-first-out executor. */
module TxSaver {
  import opened Options
  import opened Text

  datatype View = View(chainId: int, address: string)

  /** A snapshot handed over for a view; numbered in submission order. */
  datatype Write = Write(view: View, snap: nat)

  datatype Job = Drain(view: View) | Marker

  /** The worker between jobs, about to take the lock, or about to write. */
  datatype Worker = Waiting | Started(view: View) | Holding(view: View, snap: nat)

  /** The submitting thread: outside, between the two halves of `submit`,
      blocked in `flush`, blocked in `close`, or done closing. */
  datatype Submitter = Outside | Scheduling(view: View, scheduled: bool) | Flushing(passed: bool) | Closing | Closed

  datatype State = State(
    latest: map<View, nat>,
    closed: bool,
    queue: seq<Job>,
    worker: Worker,
    submitter: Submitter,
    submitted: seq<Write>,
    written: seq<Write>)

  const INIT := State(map[], false, [], Waiting, Outside, [], [])

  /** One atomic step: a locked block, a queue operation, or a write. */
  datatype Event = SubmitIgnored(chainId: int, address: string)
                 | SubmitLocked(chainId: int, address: string)
                 | SubmitEnqueue
                 | FlushStart
                 | FlushDone
                 | CloseStart
                 | CloseDone
                 | TakeJob
                 | DrainLocked
                 | HandOver

  function KeyOf(chainId: int, address: string): View {
    View(chainId, Lower(address))
  }

  predicate Enabled(s: State, e: Event) {
    match e
    case SubmitIgnored(_, _) => s.closed && (s.submitter.Outside? || s.submitter.Closed?)
    case SubmitLocked(_, _) => !s.closed && s.submitter.Outside?
    case SubmitEnqueue => s.submitter.Scheduling?
    case FlushStart => s.submitter.Outside?
    case FlushDone => s.submitter == Flushing(true)
    case CloseStart => s.submitter.Outside?
    case CloseDone => s.submitter.Closing? && s.queue == [] && s.worker.Waiting?
    case TakeJob => s.worker.Waiting? && s.queue != []
    case DrainLocked => s.worker.Started?
    case HandOver => s.worker.Holding?
  }

  function Apply(s: State, e: Event): State
    requires Enabled(s, e)
  {
    match e
    case SubmitIgnored(_, _) => s
    case SubmitLocked(chainId, address) =>
      var view := KeyOf(chainId, address);
      var snap := |s.submitted|;
      s.(latest := s.latest[view := snap],
         submitted := s.submitted + [Write(view, snap)],
         submitter := Scheduling(view, view in s.latest))
    case SubmitEnqueue =>
      s.(queue := if s.submitter.scheduled then s.queue else s.queue + [Drain(s.submitter.view)],
         submitter := Outside)
    case FlushStart => s.(queue := s.queue + [Marker], submitter := Flushing(false))
    case FlushDone => s.(submitter := Outside)
    case CloseStart => s.(closed := true, submitter := Closing)
    case CloseDone => s.(submitter := Closed)
    case TakeJob =>
      (match s.queue[0]
       case Drain(view) => s.(queue := s.queue[1..], worker := Started(view))
       case Marker =>
         var passed := if s.submitter.Flushing? then Flushing(true) else s.submitter;
         s.(queue := s.queue[1..], submitter := passed))
    case DrainLocked =>
      var view := s.worker.view;
      if view in s.latest then s.(latest := s.latest - {view}, worker := Holding(view, s.latest[view]))
      else s.(worker := Waiting)
    case HandOver =>
      s.(written := s.written + [Write(s.worker.view, s.worker.snap)], worker := Waiting)
  }

  ghost predicate Runs(s: State, es: seq<Event>, t: State)
    decreases |es|
  {
    if es == [] then s == t
    else Enabled(s, es[0]) && Runs(Apply(s, es[0]), es[1..], t)
  }

  // The invariant.

  function Count(queue: seq<Job>, view: View): nat {
    if queue == [] then 0
    else (if queue[0] == Drain(view) then 1 else 0) + Count(queue[1..], view)
  }

  /** Drains promised for a view: queued, taken but not yet looked at, or about
      to be queued by the submitter. */
  function Promised(s: State, view: View): nat {
    Count(s.queue, view)
    + (if s.worker == Started(view) then 1 else 0)
    + (if s.submitter == Scheduling(view, false) then 1 else 0)
  }

  /** The newest snapshot of a view in a log. */
  function Newest(log: seq<Write>, view: View): Option<nat> {
    if log == [] then None
    else if log[|log| - 1].view == view then Some(log[|log| - 1].snap)
    else Newest(log[..|log| - 1], view)
  }

  /** Where the newest submitted snapshot of a view is now. */
  function Whereabouts(s: State, view: View): Option<nat> {
    if view in s.latest then Some(s.latest[view])
    else if s.worker.Holding? && s.worker.view == view then Some(s.worker.snap)
    else Newest(s.written, view)
  }

  /** Each pending view has exactly one drain promised, any other view none. */
  ghost predicate OneDrainEach(s: State) {
    forall view :: Promised(s, view) == if view in s.latest then 1 else 0
  }

  ghost predicate NothingLost(s: State) {
    forall view :: Newest(s.submitted, view) == Whereabouts(s, view)
  }

  /** A snapshot of a view that was submitted, and is newer than all those written. */
  ghost predicate Newer(s: State, view: View, snap: nat) {
    && snap < |s.submitted| && s.submitted[snap].view == view
    && forall i | 0 <= i < |s.written| && s.written[i].view == view :: s.written[i].snap < snap
  }

  /** Snapshots are written in submission order, view by view. */
  ghost predicate WrittenInOrder(s: State) {
    && (forall i, j | 0 <= i < j < |s.written| && s.written[i].view == s.written[j].view ::
          s.written[i].snap < s.written[j].snap)
    && (forall i | 0 <= i < |s.written| ::
       s.written[i].snap < |s.submitted| && s.submitted[s.written[i].snap] == s.written[i])
    && (forall i | 0 <= i < |s.submitted| :: s.submitted[i].snap == i)
  }

  /** What is held or pending comes after what is written, pending after held. */
  ghost predicate PendingNewer(s: State) {
    && (s.worker.Holding? ==> Newer(s, s.worker.view, s.worker.snap))
    && (forall view | view in s.latest ::
          && Newer(s, view, s.latest[view])
          && (s.worker.Holding? && s.worker.view == view ==> s.worker.snap < s.latest[view]))
  }

  /** While `flush` waits, its marker is the last job; once passed, all is quiet. */
  ghost predicate MarkerLast(s: State) {
    match s.submitter
    case Flushing(false) =>
      !s.closed && s.queue != [] && s.queue[|s.queue| - 1] == Marker && Marker !in s.queue[..|s.queue| - 1]
    case Flushing(true) => !s.closed && s.queue == [] && s.worker.Waiting?
    case Closed => Marker !in s.queue && s.queue == [] && s.worker.Waiting? && s.closed
    case Closing => Marker !in s.queue && s.closed
    case _ => Marker !in s.queue && !s.closed
  }

  ghost predicate Inv(s: State) {
    OneDrainEach(s) && NothingLost(s) && WrittenInOrder(s) && PendingNewer(s) && MarkerLast(s)
  }

  lemma {:induction false} CountAppend(a: seq<Job>, b: seq<Job>, view: View)
    ensures Count(a + b, view) == Count(a, view) + Count(b, view)
  {
    if a == [] {
      assert a + b == b;
    } else {
      assert (a + b)[1..] == a[1..] + b;
      CountAppend(a[1..], b, view);
    }
  }

  lemma NewestAppend(log: seq<Write>, w: Write, view: View)
    ensures Newest(log + [w], view) == if w.view == view then Some(w.snap) else Newest(log, view)
  {
    assert (log + [w])[..|log|] == log;
  }

  lemma DrainsKept(s: State, e: Event)
    requires OneDrainEach(s) && MarkerLast(s) && Enabled(s, e)
    ensures OneDrainEach(Apply(s, e))
  {
    var t := Apply(s, e);
    forall view ensures Promised(t, view) == if view in t.latest then 1 else 0 {
      assert Promised(s, view) == if view in s.latest then 1 else 0;
      match e
      case SubmitEnqueue =>
        CountAppend(s.queue, [Drain(s.submitter.view)], view);
      case FlushStart =>
        CountAppend(s.queue, [Marker], view);
      case _ =>
    }
  }

  lemma NotLostAt(s: State, e: Event, view: View)
    requires Newest(s.submitted, view) == Whereabouts(s, view) && Enabled(s, e)
    ensures Newest(Apply(s, e).submitted, view) == Whereabouts(Apply(s, e), view)
  {
    if e.SubmitLocked? {
      NewestAppend(s.submitted, Write(KeyOf(e.chainId, e.address), |s.submitted|), view);
    } else if e.HandOver? {
      NewestAppend(s.written, Write(s.worker.view, s.worker.snap), view);
    }
  }

  lemma NothingLostKept(s: State, e: Event)
    requires NothingLost(s) && Enabled(s, e)
    ensures NothingLost(Apply(s, e))
  {
    forall view ensures Newest(Apply(s, e).submitted, view) == Whereabouts(Apply(s, e), view) {
      NotLostAt(s, e, view);
    }
  }

  lemma OrderKept(s: State, e: Event)
    requires WrittenInOrder(s) && PendingNewer(s) && Enabled(s, e)
    ensures WrittenInOrder(Apply(s, e))
  {
  }

  lemma PendingKept(s: State, e: Event)
    requires WrittenInOrder(s) && PendingNewer(s) && Enabled(s, e)
    ensures PendingNewer(Apply(s, e))
  {
    var t := Apply(s, e);
    forall view, snap: nat | Newer(s, view, snap) && !(e.HandOver? && s.worker.view == view && s.worker.snap >= snap)
      ensures Newer(t, view, snap)
    {
    }
  }

  lemma MarkerTaken(queue: seq<Job>)
    requires queue != [] && queue[|queue| - 1] == Marker && Marker !in queue[..|queue| - 1]
    ensures queue[0] == Marker ==> queue == [Marker]
    ensures queue[0] != Marker ==>
              |queue| > 1 && queue[1..][|queue| - 2] == Marker && Marker !in queue[1..][..|queue| - 2]
  {
    var n := |queue|;
    assert n > 1 ==> queue[0] == queue[..n - 1][0];
    assert n > 1 ==> queue[1..][..n - 2] == queue[..n - 1][1..];
  }

  lemma MarkerKept(s: State, e: Event)
    requires MarkerLast(s) && Enabled(s, e)
    ensures MarkerLast(Apply(s, e))
  {
    match e
    case TakeJob =>
      if s.submitter == Flushing(false) {
        MarkerTaken(s.queue);
      }
    case FlushStart =>
      assert (s.queue + [Marker])[..|s.queue|] == s.queue;
    case _ =>
  }

  lemma StepKeeps(s: State, e: Event)
    requires Inv(s) && Enabled(s, e)
    ensures Inv(Apply(s, e))
  {
    DrainsKept(s, e);
    NothingLostKept(s, e);
    OrderKept(s, e);
    PendingKept(s, e);
    MarkerKept(s, e);
  }

  lemma {:induction false} RunKeeps(s: State, es: seq<Event>, t: State)
    requires Inv(s) && Runs(s, es, t)
    ensures Inv(t)
    decreases |es|
  {
    if es != [] {
      StepKeeps(s, es[0]);
      RunKeeps(Apply(s, es[0]), es[1..], t);
    }
  }

  // Consequences for whole runs.

  lemma AlwaysInv(es: seq<Event>, t: State)
    requires Runs(INIT, es, t)
    ensures Inv(t)
  {
    RunKeeps(INIT, es, t);
  }

  /** In every interleaving: a pending view has exactly one drain promised and
      any other none; and the writes of a view are made in the order of its
      submissions, each of a snapshot that was submitted for it. */
  lemma DrainsAndWritesInOrder(es: seq<Event>, t: State, view: View)
    requires Runs(INIT, es, t)
    ensures Promised(t, view) == if view in t.latest then 1 else 0
    ensures forall i, j | 0 <= i < j < |t.written| && t.written[i].view == t.written[j].view ::
              t.written[i].snap < t.written[j].snap
    ensures forall i | 0 <= i < |t.written| ::
              t.written[i].snap < |t.submitted| && t.submitted[t.written[i].snap].view == t.written[i].view
  {
    AlwaysInv(es, t);
  }

  /** With nothing left to drain, the last write of every view is its last submission. */
  lemma QuietMeansWritten(s: State)
    requires Inv(s) && s.queue == [] && s.worker.Waiting? && !s.submitter.Scheduling?
    ensures forall view :: Newest(s.written, view) == Newest(s.submitted, view)
  {
    forall view ensures Newest(s.written, view) == Newest(s.submitted, view) {
      assert Promised(s, view) == if view in s.latest then 1 else 0;
      assert Newest(s.submitted, view) == Whereabouts(s, view);
    }
  }

  /** When `flush` returns, or `close` returns, the last snapshot handed to the
      writer for each view is the last one submitted. */
  lemma FlushedMeansWritten(es: seq<Event>, s: State, e: Event)
    requires Runs(INIT, es, s) && Enabled(s, e) && (e.FlushDone? || e.CloseDone?)
    ensures forall view :: Newest(Apply(s, e).written, view) == Newest(Apply(s, e).submitted, view)
  {
    AlwaysInv(es, s);
    QuietMeansWritten(s);
  }

  /** The worker's steps still to come if nothing more is submitted. */
  function Left(s: State): nat {
    3 * |s.queue| + match s.worker case Waiting => 0 case Started(_) => 2 case Holding(_, _) => 1
  }

  /** `flush` and `close` never wait for ever: until they may return, the worker
      has a step to take, and each one leaves less to do. */
  lemma WaitingEnds(es: seq<Event>, s: State)
    requires Runs(INIT, es, s) && (s.submitter.Flushing? || s.submitter.Closing?)
    ensures || Enabled(s, FlushDone) || Enabled(s, CloseDone)
            || exists e :: e in {TakeJob, DrainLocked, HandOver} && Enabled(s, e) && Left(Apply(s, e)) < Left(s)
  {
    AlwaysInv(es, s);
    var e := match s.worker case Waiting => TakeJob case Started(_) => DrainLocked case Holding(_, _) => HandOver;
    assert s.queue != [] || !s.worker.Waiting? ==> Enabled(s, e) && Left(Apply(s, e)) < Left(s);
  }

  /** No step loses or reorders writes already made. */
  lemma {:induction false} WritesOnlyGrow(s: State, es: seq<Event>, t: State)
    requires Runs(s, es, t)
    ensures s.written <= t.written && s.submitted <= t.submitted
    decreases |es|
  {
    if es != [] {
      WritesOnlyGrow(Apply(s, es[0]), es[1..], t);
    }
  }

  /** The submissions among the events, as they are logged from number `n` on:
      each under its chain and its lower-cased address. */
  function Submissions(es: seq<Event>, n: nat): seq<Write> {
    if es == [] then []
    else if es[0].SubmitLocked? then
      [Write(View(es[0].chainId, Lower(es[0].address)), n)] + Submissions(es[1..], n + 1)
    else Submissions(es[1..], n)
  }

  /** What counts as submitted is what the callers submitted, in order. */
  lemma {:induction false} SubmittedAsCalled(s: State, es: seq<Event>, t: State)
    requires Runs(s, es, t)
    ensures t.submitted == s.submitted + Submissions(es, |s.submitted|)
    decreases |es|
  {
    if es != [] {
      SubmittedAsCalled(Apply(s, es[0]), es[1..], t);
    }
  }

  /** Until it is closed the saver takes every submission, and then none. */
  lemma SubmissionsAreTaken(es: seq<Event>, s: State, chainId: int, address: string)
    requires Runs(INIT, es, s) && s.submitter in {Outside, Closed}
    ensures Enabled(s, SubmitLocked(chainId, address)) <==> CloseStart !in es
    ensures Enabled(s, SubmitIgnored(chainId, address)) <==> CloseStart in es
  {
    ClosedByClose(INIT, es, s);
    AlwaysInv(es, s);
  }

  lemma {:induction false} ClosedByClose(s: State, es: seq<Event>, t: State)
    requires Runs(s, es, t)
    ensures t.closed <==> s.closed || CloseStart in es
    decreases |es|
  {
    if es != [] {
      ClosedByClose(Apply(s, es[0]), es[1..], t);
      assert es == [es[0]] + es[1..];
    }
  }

  /** The shared object, each method one atomic block of the source. */
  class AsyncTransactionSaver {
    var latest: map<View, nat>
    var closed: bool
    var queue: seq<Job>
    ghost var worker: Worker
    ghost var submitter: Submitter
    ghost var submitted: seq<Write>
    ghost var written: seq<Write>

    constructor ()
      ensures Abs() == INIT
    {
      latest, closed, queue := map[], false, [];
      worker, submitter, submitted, written := Waiting, Outside, [], [];
    }

    ghost function Abs(): State
      reads this
    {
      State(latest, closed, queue, worker, submitter, submitted, written)
    }

    /** The locked half of `submit`. */
    method SubmitTable(chainId: int, address: string, snap: nat) returns (view: View, scheduled: bool)
      requires Enabled(Abs(), Event.SubmitLocked(chainId, address)) && snap == |submitted|
      modifies this
      ensures Abs() == Apply(old(Abs()), Event.SubmitLocked(chainId, address))
      ensures submitter == Scheduling(view, scheduled)
    {
      view := KeyOf(chainId, address);
      scheduled := view in latest;
      latest := latest[view := snap];
      submitted := submitted + [Write(view, snap)];
      submitter := Scheduling(view, scheduled);
    }

    /** The second half: queue a drain unless one is promised already. */
    method SubmitQueue(view: View, scheduled: bool)
      requires submitter == Scheduling(view, scheduled)
      modifies this
      ensures Abs() == Apply(old(Abs()), SubmitEnqueue)
    {
      if !scheduled {
        queue := queue + [Drain(view)];
      }
      submitter := Outside;
    }

    /** The executor's thread takes its next job: a drain, or a flush's marker,
        which lets that flush return. */
    method TakeNext() returns (job: Job)
      requires Enabled(Abs(), TakeJob)
      modifies this`queue, this`worker, this`submitter
      ensures Abs() == Apply(old(Abs()), TakeJob) && job == old(queue)[0]
    {
      job := queue[0];
      queue := queue[1..];
      match job
      case Drain(view) =>
        worker := Started(view);
      case Marker =>
        submitter := if submitter.Flushing? then Flushing(true) else submitter;
    }

    /** The locked half of `_drain`. */
    method DrainTable(view: View) returns (txs: Option<nat>)
      requires worker == Started(view)
      modifies this
      ensures Abs() == Apply(old(Abs()), Event.DrainLocked)
      ensures txs == if view in old(latest) then Some(old(latest)[view]) else None
    {
      txs := if view in latest then Some(latest[view]) else None;
      latest := latest - {view};
      assert view !in old(latest) ==> latest == old(latest);
      worker := if txs.Some? then Holding(view, txs.value) else Waiting;
    }

    /** The write a drain makes of what it took. */
    method HandOverWrite(view: View, txs: nat)
      requires worker == Holding(view, txs)
      modifies this`worker, this`written
      ensures Abs() == Apply(old(Abs()), HandOver)
    {
      written := written + [Write(view, txs)];
      worker := Waiting;
    }

    /** `flush` queues a job of its own and waits for it. */
    method BeginFlush()
      requires submitter.Outside?
      modifies this`queue, this`submitter
      ensures Abs() == Apply(old(Abs()), FlushStart)
    {
      queue := queue + [Marker];
      submitter := Flushing(false);
    }

    method EndFlush()
      requires Enabled(Abs(), FlushDone)
      modifies this`submitter
      ensures Abs() == Apply(old(Abs()), FlushDone)
    {
      submitter := Outside;
    }

    method EndClose()
      requires Enabled(Abs(), CloseDone)
      modifies this`submitter
      ensures Abs() == Apply(old(Abs()), CloseDone)
    {
      submitter := Closed;
    }

    /** `close` lets nothing more in, then waits for the worker. */
    method BeginClose()
      requires submitter.Outside?
      modifies this`closed, this`submitter
      ensures Abs() == Apply(old(Abs()), CloseStart)
    {
      closed := true;
      submitter := Closing;
    }
  }
}
