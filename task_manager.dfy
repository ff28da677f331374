/**
 * `CTGeofenceTaskManager`: a process-wide serialiser of work onto a single
 * worker. A submission made from the worker runs at once, inline; any other
 * submission is appended to a FIFO queue that the worker drains one item at a
 * time. Exceptions are contained at two places: the handler around each
 * submission (which also covers inline work) and the handler around each
 * queued item on the worker.
 *
 * Threads are reduced to a flag: `onWorker` is true exactly while the worker
 * is running a queued item, which is when `Thread.currentThread().getId()`
 * equals the recorded worker id. Work is a finite tree of actions, so nested
 * submissions terminate by structural decrease.
 */
module TaskManager {

  /** Which overload submitted the work: `postAsyncSafely(String, Runnable)` calls `run()`,
      `postAsyncSafely(String, CTGeofenceTask)` calls `execute()`. */
  datatype Kind = RunnableWork | GeofenceTaskWork

  /** A unit of work with its diagnostic name. */
  datatype Work = Work(kind: Kind, name: string, body: seq<Action>)

  /** One step of a work's body: an observable side effect, a nested submission, or a throw. */
  datatype Action = Effect(tag: nat) | Submit(work: Work) | Throw

  /** What the process observes: a side effect, or a failure logged by one of the two handlers. */
  datatype Observation =
    | Did(tag: nat)
    | TaskFailed(name: string)    // "Executor service: Failed to complete the scheduled task"
    | SubmitFailed(name: string)  // "Failed to submit task ... to the executor service"

  /** How a submission was dispatched; only a queued submission has a handle to wait on. */
  datatype Dispatch = RanInline | Queued

  /** The observations of running (part of) a body, and whether it ended by throwing. */
  datatype Outcome = Outcome(observed: seq<Observation>, threw: bool)

  /**
   * Runs `w.body[i..]` on the worker. A nested submission runs inline; its own
   * exceptions are contained by its submission handler, so the rest of the body
   * goes on. A throw abandons the rest of the body.
   */
  function RunFrom(w: Work, i: nat): (o: Outcome)
    requires i <= |w.body|
    ensures o.threw <==> exists k :: i <= k < |w.body| && w.body[k].Throw?
    decreases w, 0, |w.body| - i
  {
    if i == |w.body| then Outcome([], false)
    else
      match w.body[i]
      case Effect(tag) =>
        var rest := RunFrom(w, i + 1);
        Outcome([Did(tag)] + rest.observed, rest.threw)
      case Submit(nested) =>
        var rest := RunFrom(w, i + 1);
        Outcome(Inline(nested) + rest.observed, rest.threw)
      case Throw => Outcome([], true)
  }

  /** A submission from the worker: the work runs now; a throw is logged by the submission handler. */
  function Inline(w: Work): (observed: seq<Observation>)
    ensures Throws(w) ==> |observed| > 0 && observed[|observed| - 1] == SubmitFailed(w.name)
    ensures !Throws(w) ==> observed == RunFrom(w, 0).observed
    decreases w, 1, 0
  {
    var o := RunFrom(w, 0);
    o.observed + (if o.threw then [SubmitFailed(w.name)] else [])
  }

  /** A queued item run by the worker; a throw is logged by the worker's handler. */
  function Drained(w: Work): (observed: seq<Observation>)
    ensures Throws(w) ==> |observed| > 0 && observed[|observed| - 1] == TaskFailed(w.name)
    ensures NoTaskFailed(observed) <==> !Throws(w)
  {
    InlineLogsNoTaskFailure(w, 0);
    var o := RunFrom(w, 0);
    o.observed + (if o.threw then [TaskFailed(w.name)] else [])
  }

  /** The worker draining a queue, item after item, in queue order. */
  function DrainedAll(ws: seq<Work>): (observed: seq<Observation>)
    ensures |ws| == 1 ==> observed == Drained(ws[0])
    ensures NoTaskFailed(observed) <==> forall k :: 0 <= k < |ws| ==> !Throws(ws[k])
  {
    if ws == [] then []
    else
      var front, last := ws[..|ws| - 1], ws[|ws| - 1];
      NoTaskFailedConcat(DrainedAll(front), Drained(last));
      assert forall k :: 0 <= k < |front| ==> front[k] == ws[k];
      DrainedAll(front) + Drained(last)
  }

  /** Whether the work's own body throws (a nested work's throw is contained by its own handler). */
  predicate Throws(w: Work) {
    exists k :: 0 <= k < |w.body| && w.body[k].Throw?
  }

  predicate NoTaskFailed(s: seq<Observation>) {
    forall k :: 0 <= k < |s| ==> !s[k].TaskFailed?
  }

  lemma NoTaskFailedConcat(a: seq<Observation>, b: seq<Observation>)
    ensures NoTaskFailed(a + b) <==> NoTaskFailed(a) && NoTaskFailed(b)
  {
    if NoTaskFailed(a + b) {
      forall k | 0 <= k < |a| ensures !a[k].TaskFailed? {
        assert a[k] == (a + b)[k];
      }
      forall k | 0 <= k < |b| ensures !b[k].TaskFailed? {
        assert b[k] == (a + b)[|a| + k];
      }
    }
  }

  class TaskManager {
    /** The executor's queue of submitted, not yet started items. */
    var queue: seq<Work>
    /** Whether the current caller is the worker (it is running a queued item). */
    var onWorker: bool
    /** Everything the process has observed so far. */
    var log: seq<Observation>

    /** The private constructor: a fresh single-thread executor with nothing queued. */
    constructor ()
      ensures queue == [] && !onWorker && log == []
    {
      queue := [];
      onWorker := false;
      log := [];
    }

    /**
     * Both `postAsyncSafely` overloads. From the worker, the work runs inline
     * and nothing is queued; from anywhere else, it is appended to the queue
     * and nothing runs now. No exception reaches the caller.
     */
    method PostAsyncSafely(w: Work) returns (d: Dispatch)
      modifies this
      decreases w, 1, 0
      ensures onWorker == old(onWorker)
      ensures old(onWorker) ==> d == RanInline && queue == old(queue) && log == old(log) + Inline(w)
      ensures !old(onWorker) ==> d == Queued && queue == old(queue) + [w] && log == old(log)
    {
      if onWorker {
        var threw := Run(w, 0);
        if threw {
          log := log + [SubmitFailed(w.name)];
        }
        d := RanInline;
      } else {
        queue := queue + [w];
        d := Queued;
      }
    }

    /** `run()` or `execute()` of the work, from its i-th action on, on the worker. */
    method Run(w: Work, i: nat) returns (threw: bool)
      requires onWorker && i <= |w.body|
      modifies this
      decreases w, 0, |w.body| - i
      ensures onWorker && queue == old(queue)
      ensures log == old(log) + RunFrom(w, i).observed && threw == RunFrom(w, i).threw
    {
      if i == |w.body| {
        return false;
      }
      match w.body[i]
      case Effect(tag) =>
        log := log + [Did(tag)];
        threw := Run(w, i + 1);
      case Submit(nested) =>
        var _ := PostAsyncSafely(nested);
        threw := Run(w, i + 1);
      case Throw =>
        threw := true;
    }

    /**
     * One step of the single worker: take the head of the queue, record that
     * the worker is the current thread, run the item and contain its exception.
     */
    method DrainOne()
      requires queue != [] && !onWorker
      modifies this
      ensures !onWorker
      ensures queue == old(queue)[1..]
      ensures log == old(log) + Drained(old(queue)[0])
    {
      var w := queue[0];
      queue := queue[1..];
      onWorker := true;
      var threw := Run(w, 0);
      if threw {
        log := log + [TaskFailed(w.name)];
      }
      onWorker := false;
    }

    /** The worker runs every queued item, one at a time, in submission order. */
    method DrainAll()
      requires !onWorker
      modifies this
      ensures !onWorker && queue == []
      ensures log == old(log) + DrainedAll(old(queue))
    {
      ghost var pending := queue;
      ghost var i := 0;
      while queue != []
        invariant !onWorker
        invariant 0 <= i <= |pending| && queue == pending[i..]
        invariant log == old(log) + DrainedAll(pending[..i])
        decreases |queue|
      {
        DrainOne();
        assert pending[..i + 1][..i] == pending[..i];
        i := i + 1;
      }
      assert pending[..i] == pending;
    }
  }

  /** The process that owns the single static `taskManager` field. */
  class Process {
    var taskManager: TaskManager?

    constructor ()
      ensures taskManager == null
    {
      taskManager := null;
    }

    /** `getInstance`: creates the manager on first use, and returns that same manager afterwards. */
    method GetInstance() returns (m: TaskManager)
      modifies this
      ensures taskManager == m
      ensures old(taskManager) != null ==> m == old(taskManager)
      ensures old(taskManager) == null ==> fresh(m) && m.queue == [] && !m.onWorker && m.log == []
    {
      if taskManager == null {
        taskManager := new TaskManager();
      }
      m := taskManager;
    }
  }

  /** Two `getInstance` calls in a row return the identical manager. */
  method GetInstanceTwice(p: Process) returns (first: TaskManager, second: TaskManager)
    modifies p
    ensures first == second && p.taskManager == first
  {
    first := p.GetInstance();
    second := p.GetInstance();
  }

  /** Work run inline from the worker is never reported by the worker's handler. */
  lemma {:induction false} InlineLogsNoTaskFailure(w: Work, i: nat)
    requires i <= |w.body|
    ensures NoTaskFailed(RunFrom(w, i).observed)
    ensures i == 0 ==> NoTaskFailed(Inline(w))
    decreases w, |w.body| - i
  {
    if i < |w.body| {
      InlineLogsNoTaskFailure(w, i + 1);
      match w.body[i]
      case Effect(_) =>
      case Submit(nested) =>
        InlineLogsNoTaskFailure(nested, 0);
      case Throw =>
    }
  }

  /**
   * A queued item's failure is logged once, by the worker's handler, as the
   * item's last observation, exactly when its body threw.
   */
  lemma DrainedFailureIsContained(w: Work)
    ensures RunFrom(w, 0).threw ==>
              Drained(w)[|Drained(w)| - 1] == TaskFailed(w.name)
              && NoTaskFailed(Drained(w)[..|Drained(w)| - 1])
    ensures !RunFrom(w, 0).threw ==> NoTaskFailed(Drained(w))
  {
    InlineLogsNoTaskFailure(w, 0);
    if RunFrom(w, 0).threw {
      assert Drained(w)[..|Drained(w)| - 1] == RunFrom(w, 0).observed;
    }
  }

  /** Draining two queues in turn is draining their concatenation. */
  lemma {:induction false} DrainedAllAppend(xs: seq<Work>, ys: seq<Work>)
    ensures DrainedAll(xs + ys) == DrainedAll(xs) + DrainedAll(ys)
    decreases |ys|
  {
    if ys != [] {
      var last := |ys| - 1;
      assert (xs + ys)[..|xs + ys| - 1] == xs + ys[..last];
      DrainedAllAppend(xs, ys[..last]);
    } else {
      assert xs + ys == xs;
    }
  }

  /**
   * FIFO: with A queued before B, everything A does, including the work it
   * submits, is observed before anything B does.
   */
  lemma FifoOrder(before: seq<Work>, a: Work, between: seq<Work>, b: Work, after: seq<Work>)
    ensures DrainedAll(before + [a] + between + [b] + after)
         == DrainedAll(before) + Drained(a) + DrainedAll(between) + Drained(b) + DrainedAll(after)
  {
    DrainedAllAppend(before + [a] + between + [b], after);
    DrainedAllAppend(before + [a] + between, [b]);
    DrainedAllAppend(before + [a], between);
    DrainedAllAppend(before, [a]);
    assert DrainedAll([a]) == Drained(a) by { assert [a][..0] == []; }
    assert DrainedAll([b]) == Drained(b) by { assert [b][..0] == []; }
  }

  /** The run of a body does not depend on which overload submitted it. */
  lemma {:induction false} RunIgnoresKind(v: Work, w: Work, i: nat)
    requires v.body == w.body && i <= |w.body|
    ensures RunFrom(v, i) == RunFrom(w, i)
    decreases |w.body| - i
  {
    if i < |w.body| {
      RunIgnoresKind(v, w, i + 1);
    }
  }

  /** The `Runnable` and `CTGeofenceTask` overloads behave identically, inline and queued. */
  lemma OverloadsAgree(name: string, body: seq<Action>)
    ensures Inline(Work(RunnableWork, name, body)) == Inline(Work(GeofenceTaskWork, name, body))
    ensures Drained(Work(RunnableWork, name, body)) == Drained(Work(GeofenceTaskWork, name, body))
  {
    RunIgnoresKind(Work(RunnableWork, name, body), Work(GeofenceTaskWork, name, body), 0);
  }
}
