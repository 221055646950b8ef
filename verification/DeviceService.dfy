/** The single-thread job service of a hardware wallet (qeth/device_thread.py,
    `DeviceJobService`): a locked submit and shutdown, a queue with a stop
    sentinel, a restartable worker, and futures a caller may cancel any time. */
module DeviceService {
  import opened Options

  /** A submitted job's future: cancelled by its caller, or completed. Jobs are
      numbered in submission order. */
  datatype Job = Job(cancelled: bool, result: Option<bool>)

  /** A worker thread: blocked on the queue, holding a job it has not looked at,
      running it, about to clean up, about to complete it, or gone. */
  datatype Worker = Waiting
                  | Holding(job: nat)
                  | Running(job: nat)
                  | Cleaning(job: nat, ok: bool)
                  | Completing(job: nat, ok: bool)
                  | Exited

  /** What happens on the device thread, in order. */
  datatype Act = Ran(job: nat) | CleanedUp | Completed(job: nat)

  datatype State = State(
    queue: seq<Option<nat>>,
    stopped: bool,
    workers: seq<Worker>,
    thread: Option<nat>,
    jobs: seq<Job>,
    taken: nat,
    ran: seq<nat>,
    acts: seq<Act>)

  const INIT := State([], false, [], None, [], 0, [], [])

  datatype Event = Submit
                 | Shutdown
                 | Cancel(job: nat)
                 | Take(worker: nat)
                 | Look(worker: nat)
                 | Finish(worker: nat, ok: bool)
                 | CleanUp(worker: nat)
                 | Complete(worker: nat)

  predicate Enabled(s: State, e: Event) {
    match e
    case Submit => true
    case Shutdown => true
    case Cancel(j) => j < |s.jobs| && s.jobs[j].result.None?
    case Take(w) => w < |s.workers| && s.workers[w].Waiting? && s.queue != []
    case Look(w) => w < |s.workers| && s.workers[w].Holding? && s.workers[w].job < |s.jobs|
    case Finish(w, _) => w < |s.workers| && s.workers[w].Running?
    case CleanUp(w) => w < |s.workers| && s.workers[w].Cleaning?
    case Complete(w) => w < |s.workers| && s.workers[w].Completing? && s.workers[w].job < |s.jobs|
  }

  /** `_ensure_started_locked`: a new worker unless the known one is alive. */
  function EnsureStarted(s: State): State {
    if s.thread.Some? && s.thread.value < |s.workers| && !s.workers[s.thread.value].Exited? then s
    else s.(workers := s.workers + [Waiting], thread := Some(|s.workers|))
  }

  function Become(s: State, w: nat, to: Worker): State
    requires w < |s.workers|
  {
    s.(workers := s.workers[w := to])
  }

  function Apply(s: State, e: Event): State
    requires Enabled(s, e)
  {
    match e
    case Submit =>
      if s.stopped then s
      else
        var t := EnsureStarted(s);
        t.(queue := t.queue + [Some(|t.jobs|)], jobs := t.jobs + [Job(false, None)])
    case Shutdown =>
      s.(stopped := true, queue := if s.thread.Some? then s.queue + [None] else s.queue)
    case Cancel(j) => s.(jobs := s.jobs[j := s.jobs[j].(cancelled := true)])
    case Take(w) =>
      var t := s.(queue := s.queue[1..]);
      (match s.queue[0]
       case None => Become(t, w, Exited)
       case Some(j) => Become(t, w, Holding(j)).(taken := s.taken + 1))
    case Look(w) =>
      var j := s.workers[w].job;
      if s.jobs[j].cancelled then Become(s, w, Waiting)
      else Become(s, w, Running(j)).(ran := s.ran + [j], acts := s.acts + [Ran(j)])
    case Finish(w, ok) => Become(s, w, Cleaning(s.workers[w].job, ok))
    case CleanUp(w) => Become(s, w, Completing(s.workers[w].job, s.workers[w].ok)).(acts := s.acts + [CleanedUp])
    case Complete(w) =>
      var j := s.workers[w].job;
      var t := Become(s, w, Waiting).(acts := s.acts + [Completed(j)]);
      if s.jobs[j].cancelled then t else t.(jobs := t.jobs[j := t.jobs[j].(result := Some(s.workers[w].ok))])
  }

  ghost predicate Runs(s: State, es: seq<Event>, t: State)
    decreases |es|
  {
    if es == [] then s == t
    else Enabled(s, es[0]) && Runs(Apply(s, es[0]), es[1..], t)
  }

  // The invariant.

  /** The worker that is alive, if any. */
  function Live(s: State): Worker {
    if s.thread.Some? && s.thread.value < |s.workers| then s.workers[s.thread.value] else Exited
  }

  /** Only the last worker started can be alive, and one job at most is in hand. */
  ghost predicate OneWorker(s: State) {
    && (s.thread.Some? ==> s.thread.value < |s.workers|)
    && (s.thread.None? ==> s.workers == [])
    && forall w | 0 <= w < |s.workers| && s.thread != Some(w) :: s.workers[w].Exited?
  }

  /** The queue holds the jobs not yet taken, in order, then stop sentinels. */
  ghost predicate QueueInOrder(s: State) {
    && s.taken <= |s.jobs|
    && |s.jobs| - s.taken <= |s.queue|
    && JobsThenStops(s.queue, s.taken, |s.jobs| - s.taken)
    && (|s.jobs| - s.taken < |s.queue| ==> s.stopped)
    && (s.thread.None? ==> s.queue == [] && s.jobs == [])
    && (s.thread.Some? && Live(s).Exited? ==> s.stopped && s.taken == |s.jobs|)
  }

  ghost predicate JobsThenStops(queue: seq<Option<nat>>, first: nat, n: nat) {
    forall i | 0 <= i < |queue| :: queue[i] == if i < n then Some(first + i) else None
  }

  function InHand(live: Worker): Option<nat> {
    match live
    case Holding(j) => Some(j)
    case Running(j) => Some(j)
    case Cleaning(j, _) => Some(j)
    case Completing(j, _) => Some(j)
    case _ => None
  }

  /** A job taken and no longer in hand was cancelled, or ran and has its result. */
  ghost predicate Settled(jobs: seq<Job>, taken: nat, ran: seq<nat>, hand: Option<nat>) {
    && taken <= |jobs|
    && (hand.Some? ==> hand.value + 1 == taken)
    && (forall j: nat | j < taken && hand != Some(j) :: jobs[j].cancelled || (jobs[j].result.Some? && j in ran))
  }

  /** One job after another, each followed by one cleanup and its completion. */
  function Serial(ran: seq<nat>): seq<Act> {
    if ran == [] then [] else Serial(ran[..|ran| - 1]) + [Ran(ran[|ran| - 1]), CleanedUp, Completed(ran[|ran| - 1])]
  }

  /** The device thread's history: whole jobs, then as much of the present one
      as the worker has done. */
  ghost predicate History(ran: seq<nat>, taken: nat, acts: seq<Act>, live: Worker) {
    && (forall i, j | 0 <= i < j < |ran| :: ran[i] < ran[j])
    && (forall i | 0 <= i < |ran| :: ran[i] < taken)
    && match live
       case Running(j) => EndsWith(ran, j) && acts == Serial(ran[..|ran| - 1]) + [Ran(j)]
       case Cleaning(j, _) => EndsWith(ran, j) && acts == Serial(ran[..|ran| - 1]) + [Ran(j)]
       case Completing(j, _) => EndsWith(ran, j) && acts == Serial(ran[..|ran| - 1]) + [Ran(j)] + [CleanedUp]
       case Holding(j) => acts == Serial(ran) && j !in ran
       case _ => acts == Serial(ran)
  }

  predicate EndsWith(ran: seq<nat>, j: nat) {
    ran != [] && ran[|ran| - 1] == j
  }

  ghost predicate Inv(s: State) {
    OneWorker(s) && QueueInOrder(s) && SettledIn(s) && HistoryIn(s)
  }

  lemma WorkerKept(s: State, e: Event)
    requires OneWorker(s) && Enabled(s, e)
    ensures OneWorker(Apply(s, e))
  {
  }

  /** A step of a worker is a step of the live one. */
  lemma ActorIsLive(s: State, w: nat)
    requires OneWorker(s) && w < |s.workers| && !s.workers[w].Exited?
    ensures s.thread == Some(w) && Live(s) == s.workers[w]
  {
  }

  lemma LiveAfter(s: State, w: nat, to: Worker)
    requires OneWorker(s) && w < |s.workers| && !s.workers[w].Exited?
    ensures Live(Become(s, w, to)) == to
  {
    ActorIsLive(s, w);
  }

  /** The steps a worker takes on the job it holds. */
  predicate WorksOn(e: Event, w: nat) {
    e == Look(w) || (e.Finish? && e.worker == w) || e == CleanUp(w) || e == Complete(w)
  }

  lemma WorkKeepsQueue(s: State, e: Event, w: nat)
    requires OneWorker(s) && QueueInOrder(s) && Enabled(s, e) && WorksOn(e, w)
    ensures QueueInOrder(Apply(s, e))
  {
    ActorIsLive(s, w);
    var t := Apply(s, e);
    assert !t.workers[w].Exited? && t.thread == Some(w);
    assert t.queue == s.queue && t.taken == s.taken && |t.jobs| == |s.jobs|;
  }

  lemma QueueKept(s: State, e: Event)
    requires OneWorker(s) && QueueInOrder(s) && Enabled(s, e)
    ensures QueueInOrder(Apply(s, e))
  {
    match e
    case Take(w) => TakeKeepsQueue(s, w);
    case Look(w) => WorkKeepsQueue(s, e, w);
    case Finish(w, _) => WorkKeepsQueue(s, e, w);
    case CleanUp(w) => WorkKeepsQueue(s, e, w);
    case Complete(w) => WorkKeepsQueue(s, e, w);
    case Submit => SubmitKeepsQueue(s);
    case _ =>
  }

  lemma TakeKeepsQueue(s: State, w: nat)
    requires OneWorker(s) && QueueInOrder(s) && Enabled(s, Take(w))
    ensures QueueInOrder(Apply(s, Take(w)))
  {
    var t := Apply(s, Take(w));
    ActorIsLive(s, w);
    assert s.queue[0] == if 0 < |s.jobs| - s.taken then Some(s.taken) else None;
    assert forall i | 0 <= i < |t.queue| :: t.queue[i] == s.queue[i + 1];
  }

  lemma SubmitKeepsQueue(s: State)
    requires OneWorker(s) && QueueInOrder(s)
    ensures QueueInOrder(Apply(s, Submit))
  {
    if !s.stopped {
      assert |s.queue| == |s.jobs| - s.taken;
    }
  }

  ghost predicate SettledIn(s: State) {
    Settled(s.jobs, s.taken, s.ran, InHand(Live(s)))
  }

  lemma TakeKeepsSettled(s: State, w: nat)
    requires OneWorker(s) && QueueInOrder(s) && SettledIn(s) && Enabled(s, Take(w))
    ensures SettledIn(Apply(s, Take(w)))
  {
    ActorIsLive(s, w);
    assert s.queue[0] == if 0 < |s.jobs| - s.taken then Some(s.taken) else None;
    LiveAfter(s, w, if s.queue[0].None? then Exited else Holding(s.taken));
  }

  lemma WorkKeepsSettled(s: State, e: Event, w: nat)
    requires OneWorker(s) && SettledIn(s) && HistoryIn(s) && Enabled(s, e) && WorksOn(e, w)
    ensures SettledIn(Apply(s, e))
  {
    var j := s.workers[w].job;
    ActorIsLive(s, w);
    match e
    case Look(_) =>
      LiveAfter(s, w, if s.jobs[j].cancelled then Waiting else Running(j));
      SettledLook(s.jobs, s.taken, s.ran, j);
    case Finish(_, ok) =>
      LiveAfter(s, w, Cleaning(j, ok));
    case CleanUp(_) =>
      LiveAfter(s, w, Completing(j, s.workers[w].ok));
    case Complete(_) =>
      LiveAfter(s, w, Waiting);
      assert s.ran[|s.ran| - 1] == j;
  }

  lemma SettledKept(s: State, e: Event)
    requires OneWorker(s) && QueueInOrder(s) && SettledIn(s) && HistoryIn(s) && Enabled(s, e)
    ensures SettledIn(Apply(s, e))
  {
    match e
    case Take(w) => TakeKeepsSettled(s, w);
    case Look(w) => WorkKeepsSettled(s, e, w);
    case Finish(w, _) => WorkKeepsSettled(s, e, w);
    case CleanUp(w) => WorkKeepsSettled(s, e, w);
    case Complete(w) => WorkKeepsSettled(s, e, w);
    case Submit => SubmitKeepsSettled(s);
    case _ =>
  }

  lemma SettledLook(jobs: seq<Job>, taken: nat, ran: seq<nat>, j: nat)
    requires Settled(jobs, taken, ran, Some(j)) && j < |jobs|
    ensures jobs[j].cancelled ==> Settled(jobs, taken, ran, None)
    ensures Settled(jobs, taken, ran + [j], Some(j))
  {
  }

  lemma SubmitKeepsSettled(s: State)
    requires OneWorker(s) && SettledIn(s)
    ensures SettledIn(Apply(s, Submit))
  {
    SubmitKeepsLive(s);
  }

  lemma SerialAppend(ran: seq<nat>, j: nat)
    ensures Serial(ran + [j]) == Serial(ran) + [Ran(j)] + [CleanedUp] + [Completed(j)]
  {
    assert (ran + [j])[..|ran|] == ran;
  }

  lemma HistoryLook(ran: seq<nat>, taken: nat, acts: seq<Act>, j: nat)
    requires History(ran, taken, acts, Holding(j)) && j + 1 == taken
    ensures History(ran, taken, acts, Waiting)
    ensures History(ran + [j], taken, acts + [Ran(j)], Running(j))
  {
    assert (ran + [j])[..|ran|] == ran;
    forall i | 0 <= i < |ran| ensures ran[i] < j {
      assert ran[i] in ran;
    }
  }

  lemma HistoryComplete(ran: seq<nat>, taken: nat, acts: seq<Act>, j: nat, ok: bool)
    requires History(ran, taken, acts, Completing(j, ok))
    ensures History(ran, taken, acts + [Completed(j)], Waiting)
  {
    var n := |ran| - 1;
    SerialAppend(ran[..n], j);
    assert ran[..n] + [j] == ran;
  }

  lemma HistoryTake(s: State, w: nat)
    requires OneWorker(s) && QueueInOrder(s) && HistoryIn(s) && Enabled(s, Take(w))
    ensures HistoryIn(Apply(s, Take(w)))
  {
    ActorIsLive(s, w);
    assert s.queue[0] == if 0 < |s.jobs| - s.taken then Some(s.taken) else None;
    LiveAfter(s, w, if s.queue[0].None? then Exited else Holding(s.taken));
  }

  ghost predicate HistoryIn(s: State) {
    History(s.ran, s.taken, s.acts, Live(s))
  }

  lemma LookKeepsHistory(s: State, w: nat)
    requires OneWorker(s) && HistoryIn(s) && Enabled(s, Look(w))
    requires s.workers[w].job + 1 == s.taken
    ensures HistoryIn(Apply(s, Look(w)))
  {
    var j := s.workers[w].job;
    ActorIsLive(s, w);
    HistoryLook(s.ran, s.taken, s.acts, j);
    LiveAfter(s, w, if s.jobs[j].cancelled then Waiting else Running(j));
  }

  lemma CompleteKeepsHistory(s: State, w: nat)
    requires OneWorker(s) && HistoryIn(s) && Enabled(s, Complete(w))
    ensures HistoryIn(Apply(s, Complete(w)))
  {
    ActorIsLive(s, w);
    HistoryComplete(s.ran, s.taken, s.acts, s.workers[w].job, s.workers[w].ok);
    LiveAfter(s, w, Waiting);
  }

  lemma HistoryWork(s: State, e: Event, w: nat)
    requires OneWorker(s) && HistoryIn(s) && Enabled(s, e) && WorksOn(e, w)
    requires InHand(Live(s)).Some? ==> InHand(Live(s)).value + 1 == s.taken
    ensures HistoryIn(Apply(s, e))
  {
    ActorIsLive(s, w);
    match e
    case Look(_) =>
      LookKeepsHistory(s, w);
    case Finish(_, ok) =>
      LiveAfter(s, w, Cleaning(s.workers[w].job, ok));
    case CleanUp(_) =>
      LiveAfter(s, w, Completing(s.workers[w].job, s.workers[w].ok));
    case Complete(_) =>
      CompleteKeepsHistory(s, w);
  }

  lemma HistoryKept(s: State, e: Event)
    requires Inv(s) && Enabled(s, e)
    ensures HistoryIn(Apply(s, e))
  {
    match e
    case Take(w) => HistoryTake(s, w);
    case Look(w) => HistoryWork(s, e, w);
    case Finish(w, _) => HistoryWork(s, e, w);
    case CleanUp(w) => HistoryWork(s, e, w);
    case Complete(w) => HistoryWork(s, e, w);
    case Submit => SubmitKeepsLive(s);
    case _ =>
  }

  /** Submitting starts a worker or leaves the live one as it is. */
  lemma SubmitKeepsLive(s: State)
    requires OneWorker(s)
    ensures var t := Apply(s, Submit); Live(t) == Live(s) || (Live(s).Exited? && Live(t).Waiting?)
  {
  }

  lemma StepKeeps(s: State, e: Event)
    requires Inv(s) && Enabled(s, e)
    ensures Inv(Apply(s, e))
  {
    WorkerKept(s, e);
    QueueKept(s, e);
    SettledKept(s, e);
    HistoryKept(s, e);
  }

  lemma {:induction false} RunKeeps(s: State, es: seq<Event>, t: State)
    requires Inv(s) && Runs(s, es, t)
    ensures Inv(t)
    decreases |es|
  {
    if es != [] {
      StepKeeps(s, es[0]);
      RunKeeps(Apply(s, es[0]), es[1..], t);
    }
  }

  lemma HistoryMeans(ran: seq<nat>, taken: nat, acts: seq<Act>, live: Worker)
    requires History(ran, taken, acts, live)
    ensures forall i, j | 0 <= i < j < |ran| :: ran[i] < ran[j]
    ensures Serial(ran) == acts || (ran != [] && acts < Serial(ran) && |Serial(ran)| <= |acts| + 2)
  {
    if ran != [] {
      var n := |ran| - 1;
      SerialAppend(ran[..n], ran[n]);
      assert ran[..n] + [ran[n]] == ran;
    }
  }

  /** In every interleaving: no job waits behind a stop sentinel; two workers are
      never alive; jobs run one at a time, in submission order, each followed by
      exactly one cleanup before the next. */
  lemma ServedInOrder(es: seq<Event>, s: State)
    requires Runs(INIT, es, s)
    ensures forall i, j | 0 <= i < j < |s.queue| && s.queue[i].None? :: s.queue[j].None?
    ensures forall v, w | 0 <= v < |s.workers| && 0 <= w < |s.workers| && !s.workers[v].Exited? &&
            !s.workers[w].Exited? :: v == w
    ensures forall i, j | 0 <= i < j < |s.ran| :: s.ran[i] < s.ran[j]
    ensures Serial(s.ran) == s.acts || (s.ran != [] && s.acts < Serial(s.ran) && |Serial(s.ran)| <= |s.acts| + 2)
  {
    RunKeeps(INIT, es, s);
    HistoryMeans(s.ran, s.taken, s.acts, Live(s));
  }

  /** When a worker has exited, no accepted job was left behind: each was run,
      cleaned up after and completed, unless its caller cancelled it. */
  lemma NothingLeftAtExit(es: seq<Event>, s: State)
    requires Runs(INIT, es, s) && s.thread.Some? && Live(s).Exited?
    ensures forall j | 0 <= j < |s.jobs| :: s.jobs[j].cancelled || (s.jobs[j].result.Some? && j in s.ran)
    ensures s.acts == Serial(s.ran)
    ensures forall more, t | Runs(s, more, t) :: |t.jobs| == |s.jobs|
  {
    RunKeeps(INIT, es, s);
    forall more, t | Runs(s, more, t) ensures |t.jobs| == |s.jobs| {
      StoppedForGood(s, more, t);
    }
  }

  lemma {:induction false} StoppedForGood(s: State, es: seq<Event>, t: State)
    requires s.stopped && Runs(s, es, t)
    ensures t.stopped && |t.jobs| == |s.jobs|
    decreases |es|
  {
    if es != [] {
      StoppedForGood(Apply(s, es[0]), es[1..], t);
    }
  }

  // How futures end.

  /** In the run, the job's function returned, or raised; `ok` says which. */
  ghost predicate FinishedIn(s: State, es: seq<Event>, j: nat, ok: bool)
    decreases |es|
  {
    && es != [] && Enabled(s, es[0])
    && ((es[0].Finish? && es[0].ok == ok && s.workers[es[0].worker] == Running(j))
        || FinishedIn(Apply(s, es[0]), es[1..], j, ok))
  }

  /** The outcome is known: to a worker, or to the job's future. */
  ghost predicate Has(s: State, j: nat, ok: bool) {
    || (j < |s.jobs| && s.jobs[j].result == Some(ok))
    || exists w :: 0 <= w < |s.workers| && s.workers[w] in {Cleaning(j, ok), Completing(j, ok)}
  }

  lemma OutcomeFrom(s: State, e: Event, j: nat, ok: bool)
    requires Enabled(s, e) && Has(Apply(s, e), j, ok)
    ensures Has(s, j, ok) || (e.Finish? && e.ok == ok && s.workers[e.worker] == Running(j))
  {
    var t := Apply(s, e);
    if !(j < |t.jobs| && t.jobs[j].result == Some(ok)) {
      var w :| 0 <= w < |t.workers| && t.workers[w] in {Cleaning(j, ok), Completing(j, ok)};
      assert w < |s.workers|;
    }
  }

  lemma {:induction false} OutcomeWasFinished(s: State, es: seq<Event>, t: State, j: nat, ok: bool)
    requires Runs(s, es, t) && Has(t, j, ok)
    ensures Has(s, j, ok) || FinishedIn(s, es, j, ok)
    decreases |es|
  {
    if es != [] {
      OutcomeWasFinished(Apply(s, es[0]), es[1..], t, j, ok);
      if Has(Apply(s, es[0]), j, ok) {
        OutcomeFrom(s, es[0], j, ok);
      }
    }
  }

  /** A job that waits or is in hand has no result yet. */
  ghost predicate Unresolved(s: State) {
    forall j: nat | j < |s.jobs| && (j >= s.taken || InHand(Live(s)) == Some(j)) :: s.jobs[j].result.None?
  }

  lemma UnresolvedKept(s: State, e: Event)
    requires Inv(s) && Unresolved(s) && Enabled(s, e)
    ensures Unresolved(Apply(s, e))
  {
    match e
    case Submit => SubmitKeepsLive(s);
    case Shutdown =>
    case Cancel(_) =>
    case Take(w) =>
      ActorIsLive(s, w);
      assert s.queue[0] == if 0 < |s.jobs| - s.taken then Some(s.taken) else None;
      LiveAfter(s, w, if s.queue[0].None? then Exited else Holding(s.taken));
    case Look(w) =>
      ActorIsLive(s, w);
      LiveAfter(s, w, if s.jobs[s.workers[w].job].cancelled then Waiting else Running(s.workers[w].job));
    case Finish(w, ok) =>
      ActorIsLive(s, w);
      LiveAfter(s, w, Cleaning(s.workers[w].job, ok));
    case CleanUp(w) =>
      ActorIsLive(s, w);
      LiveAfter(s, w, Completing(s.workers[w].job, s.workers[w].ok));
    case Complete(w) =>
      ActorIsLive(s, w);
      LiveAfter(s, w, Waiting);
  }

  /** The outcome stays known, unless its caller cancelled the job. */
  lemma OutcomeStays(s: State, e: Event, j: nat, ok: bool)
    requires Inv(s) && Unresolved(s) && Enabled(s, e) && j < |s.jobs| && (Has(s, j, ok) || s.jobs[j].cancelled)
    ensures j < |Apply(s, e).jobs| && (Has(Apply(s, e), j, ok) || Apply(s, e).jobs[j].cancelled)
  {
    var t := Apply(s, e);
    if !s.jobs[j].cancelled {
      if s.jobs[j].result == Some(ok) {
        if e.Complete? {
          ActorIsLive(s, e.worker);
        }
      } else {
        var w :| 0 <= w < |s.workers| && s.workers[w] in {Cleaning(j, ok), Completing(j, ok)};
        ActorIsLive(s, w);
        OutcomeStaysInHand(s, e, j, ok, w);
      }
    }
  }

  lemma OutcomeStaysInHand(s: State, e: Event, j: nat, ok: bool, w: nat)
    requires Inv(s) && Enabled(s, e) && j < |s.jobs| && !s.jobs[j].cancelled
    requires w < |s.workers| && s.thread == Some(w) && s.workers[w] in {Cleaning(j, ok), Completing(j, ok)}
    ensures Has(Apply(s, e), j, ok) || Apply(s, e).jobs[j].cancelled
  {
    var t := Apply(s, e);
    if e.CleanUp? || e.Complete? {
      ActorIsLive(s, e.worker);
    }
    assert t.workers[w] in {Cleaning(j, ok), Completing(j, ok)} || e == Complete(w);
  }

  lemma {:induction false} OutcomeKept(s: State, es: seq<Event>, t: State, j: nat, ok: bool)
    requires Inv(s) && Unresolved(s) && Runs(s, es, t) && j < |s.jobs| && (Has(s, j, ok) || s.jobs[j].cancelled)
    ensures j < |t.jobs| && (Has(t, j, ok) || t.jobs[j].cancelled)
    decreases |es|
  {
    if es != [] {
      StepKeeps(s, es[0]);
      UnresolvedKept(s, es[0]);
      OutcomeStays(s, es[0], j, ok);
      OutcomeKept(Apply(s, es[0]), es[1..], t, j, ok);
    }
  }

  lemma {:induction false} FinishedIsKnown(s: State, es: seq<Event>, t: State, j: nat, ok: bool)
    requires Inv(s) && Unresolved(s) && Runs(s, es, t) && FinishedIn(s, es, j, ok)
    ensures j < |t.jobs| && (Has(t, j, ok) || t.jobs[j].cancelled)
    decreases |es|
  {
    var u := Apply(s, es[0]);
    StepKeeps(s, es[0]);
    UnresolvedKept(s, es[0]);
    if FinishedIn(u, es[1..], j, ok) {
      FinishedIsKnown(u, es[1..], t, j, ok);
    } else {
      var w := es[0].worker;
      ActorIsLive(s, w);
      assert u.workers[w] == Cleaning(j, ok);
      OutcomeKept(u, es[1..], t, j, ok);
    }
  }

  /** In every interleaving: a future's result says how its job ended; and a job
      that ended and was cleaned up after has that result, unless cancelled. */
  lemma FutureGetsOutcome(es: seq<Event>, t: State, j: nat, ok: bool)
    requires Runs(INIT, es, t) && j < |t.jobs|
    ensures t.jobs[j].result == Some(ok) ==> FinishedIn(INIT, es, j, ok)
    ensures FinishedIn(INIT, es, j, ok) && InHand(Live(t)) != Some(j) && !t.jobs[j].cancelled ==>
              t.jobs[j].result == Some(ok)
  {
    RunKeeps(INIT, es, t);
    if t.jobs[j].result == Some(ok) {
      OutcomeWasFinished(INIT, es, t, j, ok);
    }
    if FinishedIn(INIT, es, j, ok) && InHand(Live(t)) != Some(j) && !t.jobs[j].cancelled {
      FinishedIsKnown(INIT, es, t, j, ok);
      NoWorkerKnows(t, j, ok);
    }
  }

  lemma NoWorkerKnows(t: State, j: nat, ok: bool)
    requires OneWorker(t) && InHand(Live(t)) != Some(j)
    ensures forall w | 0 <= w < |t.workers| :: t.workers[w] !in {Cleaning(j, ok), Completing(j, ok)}
  {
    forall w | 0 <= w < |t.workers| ensures t.workers[w] !in {Cleaning(j, ok), Completing(j, ok)} {
      if !t.workers[w].Exited? {
        ActorIsLive(t, w);
      }
    }
  }

  /** The locked methods and the worker's turns on the service's own fields; `jobs`
      are the futures handed out. */
  class DeviceJobService {
    var queue: seq<Option<nat>>
    var stopped: bool
    var thread: Option<nat>
    ghost var workers: seq<Worker>
    var jobs: seq<Job>
    ghost var taken: nat
    ghost var ran: seq<nat>
    ghost var acts: seq<Act>

    constructor ()
      ensures Abs() == INIT
    {
      queue, stopped, thread := [], false, None;
      workers, jobs, taken, ran, acts := [], [], 0, [], [];
    }

    ghost function Abs(): State
      reads this
    {
      State(queue, stopped, workers, thread, jobs, taken, ran, acts)
    }

    /** `alive` and `newThread` come from the threading library. */
    method SubmitLocked(job: nat, alive: bool, newThread: nat) returns (r: Result<()>)
      requires job == |jobs| && newThread == |workers|
      requires alive == (thread.Some? && thread.value < |workers| && !workers[thread.value].Exited?)
      modifies this
      ensures Abs() == Apply(old(Abs()), Submit)
      ensures r.Raised? <==> old(stopped)
    {
      if stopped {
        return Raised("device service has been stopped");
      }
      if thread.None? || !alive {
        thread := Some(newThread);
        workers := workers + [Waiting];
      }
      queue := queue + [Some(job)];
      jobs := jobs + [Job(false, None)];
      r := Ok(());
    }

    method ShutdownLocked()
      modifies this
      ensures Abs() == Apply(old(Abs()), Shutdown)
    {
      stopped := true;
      if thread.Some? {
        queue := queue + [None];
      }
    }

    /** The worker's `queue.get()`; None is the sentinel, on which it returns. */
    method TakeNext(ghost w: nat) returns (job: Option<nat>)
      requires Enabled(Abs(), Take(w))
      modifies this`queue, this`workers, this`taken
      ensures Abs() == Apply(old(Abs()), Take(w)) && job == old(queue)[0]
    {
      job := queue[0];
      queue := queue[1..];
      workers := workers[w := if job.None? then Exited else Holding(job.value)];
      taken := if job.None? then taken else taken + 1;
    }

    /** A job cancelled while it waited is skipped; any other is started. */
    method StartJob(ghost w: nat, job: nat) returns (run: bool)
      requires Enabled(Abs(), Look(w)) && job == workers[w].job
      modifies this`workers, this`ran, this`acts
      ensures Abs() == Apply(old(Abs()), Look(w)) && run == !jobs[job].cancelled
    {
      run := !jobs[job].cancelled;
      workers := workers[w := if run then Running(job) else Waiting];
      if run {
        ran, acts := ran + [job], acts + [Ran(job)];
      }
    }

    /** The job returns, or raises; `ok` says which. */
    method FinishJob(ghost w: nat, job: nat, ok: bool)
      requires Enabled(Abs(), Finish(w, ok)) && job == workers[w].job
      modifies this`workers
      ensures Abs() == Apply(old(Abs()), Finish(w, ok))
    {
      workers := workers[w := Cleaning(job, ok)];
    }

    /** The hook that runs after every job. */
    method CleanUpAfter(ghost w: nat, job: nat, ok: bool)
      requires Enabled(Abs(), CleanUp(w)) && workers[w] == Cleaning(job, ok)
      modifies this`workers, this`acts
      ensures Abs() == Apply(old(Abs()), CleanUp(w))
    {
      workers, acts := workers[w := Completing(job, ok)], acts + [CleanedUp];
    }

    /** A caller cancels a future that is not completed yet. */
    method CancelJob(job: nat)
      requires Enabled(Abs(), Cancel(job))
      modifies this`jobs
      ensures Abs() == Apply(old(Abs()), Cancel(job))
    {
      jobs := jobs[job := jobs[job].(cancelled := true)];
    }

    /** The job's future gets its result or exception unless it was cancelled
        meanwhile; `ok` says whether the job returned. */
    method CompleteJob(ghost w: nat, job: nat, ok: bool)
      requires Enabled(Abs(), Complete(w)) && workers[w] == Completing(job, ok)
      modifies this`workers, this`jobs, this`acts
      ensures Abs() == Apply(old(Abs()), Complete(w))
    {
      if !jobs[job].cancelled {
        jobs := jobs[job := jobs[job].(result := Some(ok))];
      }
      workers, acts := workers[w := Waiting], acts + [Completed(job)];
    }
  }
}
