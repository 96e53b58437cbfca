/** Task delegation in the hierarchical pattern (internal/patterns/hierarchical.go). Supervisor handlers, the
    delegation goroutine and worker-output handlers interleave freely; each step below is one lock region or one
    channel operation. The workers are fixed for the whole execution. */
module Hierarchical {
  import opened Wrappers

  const QUEUE_CAPACITY := 100

  datatype Assignment = Assignment(taskID: string, workerID: string)

  /** The counters and queue of one execution. `waiting` are handlers that have counted their task but not queued it
      yet; `assigning` is the task the delegation goroutine holds; the rest records what has happened. */
  datatype State = State(
    workerIDs: seq<string>,
    active: int, completed: int, failed: int,
    waiting: seq<string>,
    queue: seq<string>,
    assigning: Option<Assignment>,
    workerIndex: nat,
    results: map<string, string>,
    submitted: nat, cancelled: nat, dropped: nat, delivered: nat,
    queued: seq<string>,             // every task that entered the queue, in order
    left: seq<string>,               // every task that left it, in order
    assignments: seq<Assignment>)

  datatype Event =
    | Submit(taskID: string)                       // count the task
    | Enqueue(handler: nat)                        // hand it to the queue, if there is room
    | Cancel(handler: nat)                         // give up and uncount it
    | Take                                         // the delegation goroutine takes the next task
    | Settle(published: bool)                      // and encodes and publishes it, or fails to
    | Output(taskID: string, workerID: string)     // any readable message on the worker output topic

  datatype WorkerMessage = WorkerMessage(id: string, correlationID: string, sourceAgentID: string)

  /** The task a worker's message is filed under. */
  function TaskOf(m: WorkerMessage): string {
    if m.correlationID != "" then m.correlationID else m.id
  }

  function Initial(workerIDs: seq<string>): State {
    State(workerIDs, 0, 0, 0, [], [], None, 0, map[], 0, 0, 0, 0, [], [], [])
  }

  function Drop(s: seq<string>, i: nat): seq<string>
    requires i < |s|
  {
    s[..i] + s[i + 1..]
  }

  function Step(s: State, e: Event): State {
    match e
    case Submit(taskID) => s.(active := s.active + 1, waiting := s.waiting + [taskID], submitted := s.submitted + 1)
    case Enqueue(i) =>
      if i >= |s.waiting| || |s.queue| >= QUEUE_CAPACITY then s
      else s.(waiting := Drop(s.waiting, i), queue := s.queue + [s.waiting[i]], queued := s.queued + [s.waiting[i]])
    case Cancel(i) =>
      if i >= |s.waiting| then s
      else s.(waiting := Drop(s.waiting, i), active := s.active - 1, cancelled := s.cancelled + 1)
    case Take =>
      if s.queue == [] || s.assigning.Some? then s
      else
        var taken := s.(queue := s.queue[1..], left := s.left + [s.queue[0]]);
        if s.workerIDs == [] then taken.(dropped := s.dropped + 1)
        else
          var a := Assignment(s.queue[0], s.workerIDs[s.workerIndex % |s.workerIDs|]);
          taken.(assigning := Some(a), workerIndex := s.workerIndex + 1, assignments := s.assignments + [a])
    case Settle(published) =>
      if s.assigning == None then s
      else if published then s.(assigning := None, delivered := s.delivered + 1)
      else s.(assigning := None, active := s.active - 1, failed := s.failed + 1)
    case Output(taskID, workerID) =>
      s.(active := s.active - 1, completed := s.completed + 1, results := s.results[taskID := workerID])
  }

  class Execution {
    const workerIDs: seq<string>
    var activeTasks: int
    var completedTasks: int
    var failedTasks: int
    var taskQueue: seq<string>
    var results: map<string, string>
    var workerIndex: nat
    var assigning: Option<Assignment>
    ghost var waiting: seq<string>
    ghost var submitted: nat
    ghost var cancelled: nat
    ghost var dropped: nat
    ghost var delivered: nat
    ghost var queued: seq<string>
    ghost var left: seq<string>
    ghost var assignments: seq<Assignment>

    ghost function Contents(): State
      reads this
    {
      State(workerIDs, activeTasks, completedTasks, failedTasks, waiting, taskQueue, assigning, workerIndex, results,
            submitted, cancelled, dropped, delivered, queued, left, assignments)
    }

    constructor (workerIDs: seq<string>)
      ensures Contents() == Initial(workerIDs)
    {
      this.workerIDs := workerIDs;
      activeTasks, completedTasks, failedTasks := 0, 0, 0;
      taskQueue, results, workerIndex, assigning := [], map[], 0, None;
      waiting, submitted, cancelled, dropped, delivered := [], 0, 0, 0, 0;
      queued, left, assignments := [], [], [];
    }

    /** handleSupervisorInput, first half: the counter goes up before the task is queued. */
    method CountTask(taskID: string)
      modifies this
      ensures Contents() == Step(old(Contents()), Submit(taskID))
    {
      activeTasks := activeTasks + 1;
      waiting, submitted := waiting + [taskID], submitted + 1;
    }

    /** handleSupervisorInput, second half: the send goes through, if the channel has room... */
    method QueueTask(taskID: string, ghost handler: nat) returns (sent: bool)
      requires handler < |waiting| && waiting[handler] == taskID
      modifies this
      ensures Contents() == Step(old(Contents()), Enqueue(handler)) && (sent <==> |old(taskQueue)| < 100)
    {
      sent := |taskQueue| < QUEUE_CAPACITY;
      if sent {
        taskQueue := taskQueue + [taskID];
        waiting, queued := Drop(waiting, handler), queued + [taskID];
      }
    }

    /** ...or the context is done first. */
    method CancelTask(ghost handler: nat)
      requires handler < |waiting|
      modifies this
      ensures Contents() == Step(old(Contents()), Cancel(handler))
    {
      activeTasks := activeTasks - 1;
      waiting, cancelled := Drop(waiting, handler), cancelled + 1;
    }

    /** delegateTasks: receive the next task and pick a worker. */
    method TakeTask()
      requires assigning == None
      modifies this
      ensures Contents() == Step(old(Contents()), Take)
    {
      if taskQueue == [] {
        return;
      }
      var task := taskQueue[0];
      taskQueue := taskQueue[1..];
      left := left + [task];
      if |workerIDs| == 0 {
        dropped := dropped + 1;
        return;
      }
      var workerID := workerIDs[workerIndex % |workerIDs|];
      workerIndex := workerIndex + 1;
      assigning := Some(Assignment(task, workerID));
      assignments := assignments + [Assignment(task, workerID)];
    }

    /** delegateTasks: the outcome of encoding and publishing. */
    method SettleTask(published: bool)
      modifies this
      ensures Contents() == Step(old(Contents()), Settle(published))
    {
      if assigning == None {
        return;
      }
      assigning := None;
      if !published {
        activeTasks := activeTasks - 1;
        failedTasks := failedTasks + 1;
      } else {
        delivered := delivered + 1;
      }
    }

    /** An undecodable payload (None) is turned away before anything is counted. */
    method HandleWorkerOutput(message: Option<WorkerMessage>)
      modifies this
      ensures Contents() == if message == None then old(Contents())
                            else Step(old(Contents()), Output(TaskOf(message.value), message.value.sourceAgentID))
    {
      if message == None {
        return;
      }
      var taskID := message.value.correlationID;
      if taskID == "" {
        taskID := message.value.id;
      }
      results := results[taskID := message.value.sourceAgentID];
      activeTasks := activeTasks - 1;
      completedTasks := completedTasks + 1;
    }
  }

  // ----- Every interleaving -----

  function Run(s: State, events: seq<Event>): State
    decreases |events|
  {
    if events == [] then s else Run(Step(s, events[0]), events[1..])
  }

  function Held(s: State): nat {
    if s.assigning.Some? then 1 else 0
  }

  /** The counters add up. */
  ghost predicate Counted(s: State) {
    && s.active + s.completed + s.failed == s.submitted - s.cancelled
    && s.submitted == s.cancelled + |s.waiting| + |s.queued|
    && |s.left| == s.dropped + Held(s) + s.delivered + s.failed
  }

  /** The queue is first in, first out and bounded. */
  ghost predicate Ordered(s: State) {
    s.queued == s.left + s.queue && |s.queue| <= QUEUE_CAPACITY
  }

  /** With workers, the i-th task to leave goes to worker i mod k, and none is dropped. */
  ghost predicate RoundRobin(s: State) {
    s.workerIDs != [] ==>
      && s.dropped == 0
      && |s.left| == |s.assignments| == s.workerIndex
      && (forall i | 0 <= i < |s.left| ::
            s.assignments[i] == Assignment(s.left[i], s.workerIDs[i % |s.workerIDs|]))
  }

  ghost predicate Accounted(s: State) {
    Counted(s) && Ordered(s) && RoundRobin(s)
  }

  lemma StepKeepsOrder(s: State, e: Event)
    requires Ordered(s)
    ensures Ordered(Step(s, e))
  {
    if e.Take? && s.queue != [] {
      assert s.queued == s.left + [s.queue[0]] + s.queue[1..];
    }
  }

  lemma StepKeepsRoundRobin(s: State, e: Event)
    requires RoundRobin(s)
    ensures RoundRobin(Step(s, e))
  {}

  lemma StepKeepsAccounts(s: State, e: Event)
    requires Accounted(s)
    ensures Accounted(Step(s, e)) && Step(s, e).workerIDs == s.workerIDs
  {
    StepKeepsOrder(s, e);
    StepKeepsRoundRobin(s, e);
    assert Counted(Step(s, e));
  }

  lemma InitialIsAccounted(workerIDs: seq<string>)
    ensures Accounted(Initial(workerIDs))
  {}

  /** Conservation in every interleaving: the three counters add up to the tasks submitted less those cancelled, and
      tasks leave the queue in the order they entered it. */
  lemma {:induction false} RunKeepsAccounts(s: State, events: seq<Event>)
    requires Accounted(s)
    ensures Accounted(Run(s, events)) && Run(s, events).workerIDs == s.workerIDs
    decreases |events|
  {
    if events != [] {
      StepKeepsAccounts(s, events[0]);
      RunKeepsAccounts(Step(s, events[0]), events[1..]);
    }
  }

  /** Messages seen on the worker output topic. */
  function Outputs(events: seq<Event>): nat {
    if events == [] then 0 else (if events[0].Output? then 1 else 0) + Outputs(events[1..])
  }

  lemma {:induction false} OutputsAreCompleted(s: State, events: seq<Event>)
    ensures Run(s, events).completed == s.completed + Outputs(events)
    decreases |events|
  {
    if events != [] {
      OutputsAreCompleted(Step(s, events[0]), events[1..]);
    }
  }

  /** Tasks counted and not yet taken on by a worker. */
  function UnderWay(s: State): nat {
    |s.waiting| + |s.queue| + Held(s)
  }

  /** What ActiveTasks really counts: the tasks on their way, plus tasks dropped for want of workers (never
      uncounted), plus deliveries, less every message seen on the output topic. It is negative exactly when those
      messages outnumber all of the rest. */
  lemma ActiveTasksExactly(start: State, events: seq<Event>)
    requires Accounted(start)
    ensures var s, seen := Run(start, events), start.completed + Outputs(events);
            && s.active == UnderWay(s) + s.dropped + s.delivered - seen
            && (s.active < 0 <==> seen > UnderWay(s) + s.dropped + s.delivered)
  {
    RunKeepsAccounts(start, events);
    ActiveOf(Run(start, events));
    OutputsAreCompleted(start, events);
  }

  lemma ActiveOf(s: State)
    requires Accounted(s)
    ensures s.active == UnderWay(s) + s.dropped + s.delivered - s.completed
  {
    assert |s.queued| == |s.left| + |s.queue|;
  }

  /** Output messages never outnumber deliveries. */
  ghost predicate OutputsAnswer(start: State, events: seq<Event>) {
    forall k | 0 <= k <= |events| :: Outputs(events[..k]) <= Run(start, events[..k]).delivered
  }

  /** As long as messages on the output topic never outnumber deliveries, ActiveTasks is never negative and never below
      the number of tasks on their way. */
  lemma ActiveTasksStayCovered(start: State, events: seq<Event>)
    requires Accounted(start) && start.completed == 0 && OutputsAnswer(start, events)
    ensures forall k | 0 <= k <= |events| ::
              var s := Run(start, events[..k]); s.active >= UnderWay(s) + s.dropped >= 0
  {
    forall k | 0 <= k <= |events|
      ensures var s := Run(start, events[..k]); s.active >= UnderWay(s) + s.dropped >= 0
    {
      ActiveTasksExactly(start, events[..k]);
    }
  }

  /** With workers, and nothing on its way any more, ActiveTasks is back at zero if and only if there have been as many
      output messages as deliveries; without workers, if and only if as many as tasks left the queue. */
  lemma ActiveTasksReturnToZeroExactlyWhen(start: State, events: seq<Event>)
    requires Accounted(start) && start.completed == 0
    requires start.workerIDs == [] ==> start.assigning == None && start.delivered == 0 && start.failed == 0
    ensures var s := Run(start, events);
            UnderWay(s) == 0 ==>
              (s.active == 0 <==> Outputs(events) == if start.workerIDs != [] then s.delivered else |s.left|)
  {
    ActiveTasksExactly(start, events);
    RunKeepsAccounts(start, events);
    NothingIsAssigned(start, events);
  }

  /** Without workers no task is ever assigned. */
  lemma {:induction false} NothingIsAssigned(s: State, events: seq<Event>)
    requires s.workerIDs == [] ==> s.assigning == None && s.delivered == 0 && s.failed == 0
    ensures var s' := Run(s, events);
            s.workerIDs == [] ==> s'.assigning == None && s'.delivered == 0 && s'.failed == 0
    decreases |events|
  {
    if events != [] {
      NothingIsAssigned(Step(s, events[0]), events[1..]);
    }
  }

  /** One stray message on the output topic is enough, and a task dropped without workers is counted forever. */
  lemma ActiveTasksDrifts()
    ensures Run(Initial(["w"]), [Output("x", "w")]).active == -1
    ensures var s := Run(Initial([]), [Submit("t"), Enqueue(0), Take]);
            s.active == 1 && s.waiting == [] && s.queue == [] && s.assigning == None
  {
    assert Run(Initial(["w"]), [Output("x", "w")]) == Step(Initial(["w"]), Output("x", "w"));
    var events := [Submit("t"), Enqueue(0), Take];
    var s1 := Step(Initial([]), Submit("t"));
    var s2 := Step(s1, Enqueue(0));
    assert s1.waiting == ["t"] && s2.queue == ["t"];
    assert Run(Initial([]), events) == Run(s1, events[1..]) == Run(s2, events[1..][1..]);
    assert events[1..][1..] == [Take];
    assert Run(s2, [Take]) == Step(s2, Take);
  }

  // ----- Round-robin -----

  /** How many of the assignments went to a worker. */
  function Share(assignments: seq<Assignment>, workerID: string): nat {
    if assignments == [] then 0
    else
      var n := |assignments| - 1;
      Share(assignments[..n], workerID) + if assignments[n].workerID == workerID then 1 else 0
  }

  lemma OneMore(n: nat, k: nat)
    requires k >= 1
    ensures if n % k == k - 1 then (n + 1) / k == n / k + 1 && (n + 1) % k == 0
            else (n + 1) / k == n / k && (n + 1) % k == n % k + 1
  {
    var q, r := n / k, n % k;
    assert n + 1 == q * k + (r + 1);
    if r == k - 1 {
      Divides(n + 1, k, q + 1, 0);
    } else {
      Divides(n + 1, k, q, r + 1);
    }
  }

  lemma Divides(n: nat, k: nat, q: nat, r: nat)
    requires k >= 1 && r < k && n == q * k + r
    ensures n / k == q && n % k == r
  {
    var q', r' := n / k, n % k;
    assert n == q' * k + r';
    assert (q - q') * k == r' - r;
    if q != q' {
      FarApart(q - q', k);
    }
  }

  lemma FarApart(d: int, k: nat)
    requires k >= 1 && d != 0
    ensures d * k >= k || d * k + k <= 0
  {
    if d >= 1 {
      assert (d - 1) * k >= 0;
    } else {
      assert (-d - 1) * k >= 0;
    }
  }

  lemma {:induction false} ShareOfRoundRobin(workerIDs: seq<string>, assignments: seq<Assignment>, j: nat)
    requires j < |workerIDs| && forall i, i' | 0 <= i < i' < |workerIDs| :: workerIDs[i] != workerIDs[i']
    requires forall i | 0 <= i < |assignments| :: assignments[i].workerID == workerIDs[i % |workerIDs|]
    ensures Share(assignments, workerIDs[j])
            == |assignments| / |workerIDs| + if j < |assignments| % |workerIDs| then 1 else 0
  {
    var k := |workerIDs|;
    if assignments == [] {
      Divides(0, k, 0, 0);
    } else {
      var n := |assignments| - 1;
      ShareOfRoundRobin(workerIDs, assignments[..n], j);
      OneMore(n, k);
      assert workerIDs[n % k] == workerIDs[j] <==> n % k == j;
    }
  }

  /** Fairness, in every interleaving: with k distinct workers, after n assignments worker j has had the quotient
      n/k, or one more if it is among the first n mod k; so no two workers ever differ by more than one task. */
  lemma RoundRobinIsFair(workerIDs: seq<string>, events: seq<Event>, j: nat)
    requires j < |workerIDs| && forall i, i' | 0 <= i < i' < |workerIDs| :: workerIDs[i] != workerIDs[i']
    ensures var s := Run(Initial(workerIDs), events);
            var n := |s.assignments|;
            && Share(s.assignments, workerIDs[j]) == n / |workerIDs| + (if j < n % |workerIDs| then 1 else 0)
            && n <= |s.queued|
            && (forall i | 0 <= i < n :: s.assignments[i].taskID == s.queued[i])
  {
    RunKeepsAccounts(Initial(workerIDs), events);
    ShareOfRoundRobin(workerIDs, Run(Initial(workerIDs), events).assignments, j);
  }

  // ----- Results -----

  /** A worker's message is filed under its correlation ID, or under its own if it has none. */
  lemma OutputIsFiled(s: State, m: WorkerMessage)
    ensures Step(s, Output(TaskOf(m), m.sourceAgentID)).results
            == s.results[if m.correlationID == "" then m.id else m.correlationID := m.sourceAgentID]
  {}

  /** The worker whose message on a task came last. */
  function LastWorker(events: seq<Event>, taskID: string): Option<string> {
    if events == [] then None
    else
      var last := events[|events| - 1];
      if last.Output? && last.taskID == taskID then Some(last.workerID)
      else LastWorker(events[..|events| - 1], taskID)
  }

  lemma {:induction false} RunByLast(s: State, events: seq<Event>)
    requires events != []
    ensures var n := |events| - 1; Run(s, events) == Step(Run(s, events[..n]), events[n])
    decreases |events|
  {
    var n := |events| - 1;
    if n == 0 {
      assert events[1..] == [] && events[..n] == [];
    } else {
      RunByLast(Step(s, events[0]), events[1..]);
      assert events[1..][..n - 1] == events[..n][1..];
    }
  }

  /** In every interleaving a task's result is that of the last message on it, and a task without one has none. */
  lemma {:induction false} ResultsAreTheLast(workerIDs: seq<string>, events: seq<Event>, taskID: string)
    ensures var results := Run(Initial(workerIDs), events).results;
            LastWorker(events, taskID) == if taskID in results then Some(results[taskID]) else None
  {
    if events != [] {
      ResultsAreTheLast(workerIDs, events[..|events| - 1], taskID);
      RunByLast(Initial(workerIDs), events);
    }
  }

  /** The queue takes a task as long as it holds fewer than a hundred, and never holds more. */
  lemma QueueHoldsAHundred(start: State, events: seq<Event>, handler: nat)
    requires Accounted(start)
    ensures var s := Run(start, events);
            && |s.queue| <= 100
            && (handler < |s.waiting| ==>
                  var s' := Step(s, Enqueue(handler));
                  if |s.queue| < 100 then s'.queue == s.queue + [s.waiting[handler]] && |s'.waiting| == |s.waiting| - 1
                  else s' == s)
  {
    RunKeepsAccounts(start, events);
  }
}
