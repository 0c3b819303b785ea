/**
 * The usage scenarios of the library's test suite, replayed on the model:
 * a predecessor-aware continuation that reads its predecessor's result, and
 * a join barrier over several inputs that complete in some order.
 */
module Scenarios {
  import opened AsyncTask
  import opened CascadeFacts
  import opened JoinBarrier

  /** What isFinished() and hasError() report once finish() has run on a
      task: finished and not in error, with its list dispatched and empty;
      a second finish() then starts nothing. */
  method FinishTwice(t: Task, ghost ts: set<Task>, ghost ks: set<JoinCounter>)
    returns (finished: bool, failed: bool, ghost again: seq<Launch>)
    requires t in ts && WorldOK(Snap(ts, ks))
    modifies ts, ks
    ensures finished && !failed && t.continuations == [] && again == []
  {
    ghost var w := Snap(ts, ks);
    FinishFrame(w, t);
    CompleteAgain(w, t, "");
    ghost var first := t.Finish(ts, ks);
    assert t.View() == Snap(ts, ks).tasks[t];
    finished, failed := t.IsFinished(), t.HasError();
    again := t.Finish(ts, ks);
  }

  /** The same after error(msg): finished, in error, carrying `msg`. */
  method ErrorThenAsk(t: Task, msg: string, ghost ts: set<Task>, ghost ks: set<JoinCounter>)
    returns (finished: bool, failed: bool, message: string)
    requires t in ts && WorldOK(Snap(ts, ks))
    modifies ts, ks
    ensures finished && failed && message == msg && t.continuations == []
  {
    ghost var w := Snap(ts, ks);
    ErrorFrame(w, t, msg);
    ghost var ls := t.Error(msg, ts, ks);
    assert t.View() == Snap(ts, ks).tasks[t];
    finished, failed, message := t.IsFinished(), t.HasError(), t.errorString;
  }

  /** The continuation of continuationWithResult: its predecessor's text
      with " world!" appended. */
  function AppendWorld(p: PrevView): Outcome
  {
    if p.Prev? && p.result.TextValue? then Returned(TextValue(p.result.s + " world!"))
    // The test's callable casts its predecessor unchecked and has no such
    // case; this value only makes the function total.
    else Returned(TextValue(" world!"))
  }

  /** The snapshot of continuationWithResult before the first start. */
  ghost predicate HelloWorldReady(w: World, task: Task, resTask: Task)
  {
    && w.tasks.Keys == {task, resTask} && task != resTask
    && task.kind == Lambda && task.resultType == TextResult && resTask.rank < task.rank
    && resTask.kind == Lambda && resTask.resultType == TextResult
    && w.tasks[task] == TaskView(NotStarted, [resTask], null, "", TextValue(""), Some(Produce(Returned(TextValue("Hello")))), None, true)
    && w.tasks[resTask] == TaskView(NotStarted, [], null, "", TextValue(""), None, Some(Consume(AppendWorld)), true)
  }

  lemma HelloWorld(w: World, task: Task, resTask: Task)
    requires HelloWorldReady(w, task, resTask)
    ensures WorldOK(w) && task in w.tasks
    ensures resTask in StartS(w, task).world.tasks
    ensures StartS(w, task).world.tasks[resTask].result == TextValue("Hello world!")
  {
    assert ViewOK(w, task, w.tasks[task]) && ViewOK(w, resTask, w.tasks[resTask]);
    SoleContinuationOutcome(w, task, resTask);
  }

  /** continuationWithResult: a text task produces "Hello"; its
      continuation, which has the empty string before anything runs, holds
      "Hello world!" once the first task has been started. */
  method ContinuationWithResult() returns (before: Value, after: Value)
    ensures before == TextValue("") && after == TextValue("Hello world!")
  {
    var task := Task.Create(TextResult, Produce(Returned(TextValue("Hello"))), 2);
    var resTask := task.ContinueWithPrevAction(TextResult, Consume(AppendWorld), 1);
    before := resTask.result;
    ghost var ts := {task, resTask};
    ghost var ks: set<JoinCounter> := {};
    assert fresh(ts);
    HelloWorld(Snap(ts, ks), task, resTask);
    ghost var l := task.Start(ts, ks);
    assert resTask.View() == Snap(ts, ks).tasks[resTask];
    after := resTask.result;
  }

  /** start() of a lambda task with a computing callable that returns and
      an empty list starts nothing further. */
  lemma LambdaLeaf(y: World, c: Task)
    requires WorldOK(y) && c in y.tasks && c.kind == Lambda && PureCallable(y.tasks[c])
    requires y.tasks[c].continuations == []
    ensures StartS(y, c).launches[0].nested == []
  {
    LambdaStartDispatch(y, c);
  }

  /** A lambda task whose callable returns and whose only continuation is
      such a leaf: start() enters the task, then the continuation, and
      nothing else. */
  lemma SoleChain(w: World, t: Task, c: Task, v: Value)
    requires WorldOK(w) && t in w.tasks && t.kind == Lambda && w.tasks[t].action == Some(Produce(Returned(v)))
    requires w.tasks[t].autoFinish && w.tasks[t].continuations == [c]
    requires c in w.tasks && c.kind == Lambda && PureCallable(w.tasks[c]) && w.tasks[c].continuations == []
    ensures Started(StartS(w, t).launches) == [t, c]
  {
    ChainHead(w, t, c, v);
    var y := RunActionS(w, t).world;
    CompleteIsDispatch(y, t, None);
    var x := WithView(y, t, y.tasks[t].(state := Finished));
    ChainTail(x, t, c);
    var l := StartS(w, t).launches[0];
    assert StartS(w, t).launches == [l];
    StartedOne(l);
  }

  /** The callable of such a task starts nothing and leaves the lists as
      they were; what start() starts is what its finish() starts. */
  lemma ChainHead(w: World, t: Task, c: Task, v: Value)
    requires WorldOK(w) && t in w.tasks && t.kind == Lambda && w.tasks[t].action == Some(Produce(Returned(v)))
    requires w.tasks[t].autoFinish && w.tasks[t].continuations == [c] && c in w.tasks
    ensures var y := RunActionS(w, t).world;
      && t in y.tasks && c in y.tasks && y.tasks[c] == w.tasks[c] && y.tasks[t].continuations == [c] && y.tasks[t].autoFinish
      && StartS(w, t).launches[0].nested == CompleteS(y, t, None).launches
  {
    assert ViewOK(w, t, w.tasks[t]);
    assert c in w.tasks[t].continuations;
    LambdaStartSplit(w, t);
    PureRun(w, t);
  }

  /** Dispatching a one-entry list whose entry is such a leaf enters that
      entry only. */
  lemma ChainTail(x: World, t: Task, c: Task)
    requires WorldOK(x) && t in x.tasks && x.tasks[t].continuations == [c]
    requires c in x.tasks && c.kind == Lambda && PureCallable(x.tasks[c]) && x.tasks[c].continuations == []
    ensures Started(DispatchS(x, t).launches) == [c]
  {
    DispatchSingle(x, t, c);
    var y := WithPrev(x, c, t);
    LambdaLeaf(y, c);
    var lc := StartS(y, c).launches[0];
    assert DispatchS(x, t).launches == [lc];
    StartedOne(lc);
  }

  /** The snapshot of simpleContinuation before the first start: a void task
      whose only continuation is another void task. */
  ghost predicate SimpleReady(w: World, task: Task, cont: Task)
  {
    && w.tasks.Keys == {task, cont} && cont.rank < task.rank
    && task.kind == Lambda && task.resultType == VoidResult && cont.kind == Lambda && cont.resultType == VoidResult
    && w.tasks[task] == TaskView(NotStarted, [cont], null, "", NoValue, Some(Produce(Returned(NoValue))), None, true)
    && w.tasks[cont] == TaskView(NotStarted, [], null, "", NoValue, Some(Produce(Returned(NoValue))), None, true)
  }

  lemma SimpleStart(w: World, task: Task, cont: Task)
    requires SimpleReady(w, task, cont)
    ensures WorldOK(w) && task in w.tasks
    ensures Started(StartS(w, task).launches) == [task, cont]
  {
    assert ViewOK(w, task, w.tasks[task]) && ViewOK(w, cont, w.tasks[cont]);
    SoleChain(w, task, cont, NoValue);
  }

  /** simpleContinuation: a task and its continuation, each of whose
      callables adds to a counter (1 and 2). Registering runs neither; one
      start() of the first task enters it and then the continuation, each
      exactly once and in that order, so the counter goes from 0 to 3. */
  method SimpleContinuation() returns (before: State, task: Task, cont: Task, ghost launch: Launch)
    ensures before == NotStarted && Started([launch]) == [task, cont]
  {
    task := Task.Create(VoidResult, Produce(Returned(NoValue)), 2);
    cont := task.ContinueWithAction(VoidResult, Produce(Returned(NoValue)), 1);
    before := cont.state;
    ghost var ts := {task, cont};
    ghost var ks: set<JoinCounter> := {};
    assert fresh(ts);
    SimpleStart(Snap(ts, ks), task, cont);
    launch := task.Start(ts, ks);
  }

  /** The snapshot of handleSignalTask before the signal: a manual task,
      a continuation registered on it and a second on that continuation
      (continueWith hands back the task it registered). */
  ghost predicate SignalReady(w: World, task: Task, first: Task, second: Task)
  {
    && w.tasks.Keys == {task, first, second} && second.rank < first.rank < task.rank
    && task.kind == Manual && first.kind == Lambda && first.resultType == VoidResult
    && second.kind == Lambda && second.resultType == VoidResult
    && w.tasks[task] == TaskView(NotStarted, [first], null, "", NoValue, None, None, false)
    && w.tasks[first] == TaskView(NotStarted, [second], null, "", NoValue, Some(Produce(Returned(NoValue))), None, true)
    && w.tasks[second] == TaskView(NotStarted, [], null, "", NoValue, Some(Produce(Returned(NoValue))), None, true)
  }

  /** The three tasks of handleSignalTask form a well-formed world. */
  lemma SignalReadyOK(w: World, task: Task, first: Task, second: Task)
    requires SignalReady(w, task, first, second)
    ensures WorldOK(w)
  {
    forall t | t in w.tasks ensures ViewOK(w, t, w.tasks[t]) {
      if t == task {
        assert w.tasks[t].continuations == [first];
      } else if t == first {
        assert w.tasks[t].continuations == [second];
      }
    }
  }

  lemma SignalFinish(w: World, task: Task, first: Task, second: Task)
    requires SignalReady(w, task, first, second)
    ensures WorldOK(w) && task in w.tasks
    ensures Started(FinishS(w, task).launches) == [first, second]
  {
    SignalReadyOK(w, task, first, second);
    assert ViewOK(w, task, w.tasks[task]);
    var x1 := WithView(w, task, w.tasks[task].(state := Finished));
    assert FinishS(w, task) == DispatchS(x1, task);
    DispatchSingle(x1, task, first);
    var y := WithPrev(x1, first, task);
    assert y.tasks[first].continuations == [second] && y.tasks[second] == w.tasks[second];
    SoleChain(y, first, second, NoValue);
  }

  /** handleSignalTask: nothing runs until the signal handler calls finish()
      on the manual task; then the first continuation runs ("Hello") and
      after it the second (" world!"), each once. */
  method HandleSignalTask() returns (before: State, task: Task, first: Task, second: Task, ghost launches: seq<Launch>)
    ensures before == NotStarted && Started(launches) == [first, second]
  {
    task := new Task.Manual(3);
    first := task.ContinueWithAction(VoidResult, Produce(Returned(NoValue)), 2);
    second := first.ContinueWithAction(VoidResult, Produce(Returned(NoValue)), 1);
    before := first.state;
    ghost var ts := {task, first, second};
    ghost var ks: set<JoinCounter> := {};
    assert fresh(ts);
    SignalFinish(Snap(ts, ks), task, first, second);
    launches := task.Finish(ts, ks);
  }

  /** A closure whose callable calls `u->finish()` (the continuation that
      createPauseTask registers on its timeout task) leaves `u` as finish()
      leaves it: Finished, its list dispatched. */
  lemma FinishTaskClosure(x: World, c: Task, u: Task)
    requires WorldOK(x) && c in x.tasks && c.kind == Lambda && x.tasks[c].action == Some(FinishTask(u))
    requires x.tasks[c].continuations == [] && x.tasks[c].autoFinish
    ensures u in x.tasks && u.rank < c.rank
    ensures StartS(x, c).world.tasks[u] == x.tasks[u].(state := Finished, continuations := [])
  {
    assert ViewOK(x, c, x.tasks[c]);
    var e := FinishS(x, u);
    FinishFrame(x, u);
    assert RunActionS(x, c) == ActionRun(e.world, e.launches, None);
    LeafFinish(e.world, c);
  }

  /** finish() of a task with an empty list changes only its state. */
  lemma LeafFinish(y: World, c: Task)
    requires WorldOK(y) && c in y.tasks && y.tasks[c].continuations == [] && y.tasks[c].autoFinish
    ensures CompleteS(y, c, None) == Effect(WithView(y, c, y.tasks[c].(state := Finished)), [])
  {
    assert ViewOK(y, c, y.tasks[c]);
    var z := WithView(y, c, y.tasks[c].(state := Finished));
    assert ViewOK(z, c, z.tasks[c]);
    DispatchEmpty(z, c);
  }

  /** The snapshot of createPauseTask once its timeout task `timeout` holds
      the closure `c` that finishes the pause task `task`. */
  ghost predicate PauseReady(w: World, task: Task, timeout: Task, c: Task)
  {
    && w.tasks.Keys == {task, timeout, c}
    && task.rank == 1 && c.rank == 2 && timeout.rank == 3
    && task.kind == Lambda && task.resultType == VoidResult && c.kind == Lambda && timeout.kind == Manual
    && w.tasks[task] == TaskView(NotStarted, [], null, "", NoValue, Some(Produce(Returned(NoValue))), None, false)
    && w.tasks[c] == TaskView(NotStarted, [], null, "", NoValue, Some(FinishTask(task)), None, true)
    && w.tasks[timeout] == TaskView(NotStarted, [c], null, "", NoValue, None, None, false)
  }

  /** The three tasks of createPauseTask form a well-formed world. */
  lemma PauseReadyOK(w: World, task: Task, timeout: Task, c: Task)
    requires PauseReady(w, task, timeout, c)
    ensures WorldOK(w)
  {
    forall t | t in w.tasks ensures ViewOK(w, t, w.tasks[t]) {
      if t == timeout {
        assert w.tasks[t].continuations == [c];
      }
    }
  }

  /** Starting the pause task runs its callable but, with auto-finish off,
      leaves it NotStarted, and touches neither the timeout task nor the
      closure. */
  lemma PauseStart(w: World, task: Task, timeout: Task, c: Task)
    requires PauseReady(w, task, timeout, c)
    ensures WorldOK(w) && PauseReady(StartS(w, task).world, task, timeout, c)
  {
    PauseReadyOK(w, task, timeout, c);
    assert ViewOK(w, task, w.tasks[task]);
    LambdaStartFields(w, task);
    StartFrame(w, task);
  }

  /** When the timeout task finishes, the closure finishes the pause task. */
  lemma PauseTimeout(w: World, task: Task, timeout: Task, c: Task)
    requires PauseReady(w, task, timeout, c)
    ensures WorldOK(w) && task in FinishS(w, timeout).world.tasks
    ensures FinishS(w, timeout).world.tasks[task].state == Finished
  {
    PauseReadyOK(w, task, timeout, c);
    assert ViewOK(w, timeout, w.tasks[timeout]) && ViewOK(w, c, w.tasks[c]);
    var x1 := WithView(w, timeout, w.tasks[timeout].(state := Finished));
    assert FinishS(w, timeout) == DispatchS(x1, timeout);
    DispatchSingle(x1, timeout, c);
    var x2 := WithPrev(x1, c, timeout);
    FinishTaskClosure(x2, c, task);
  }

  /** The tasks of createPauseTask, before anything is started. */
  method SetUpPause() returns (task: Task, timeout: Task, c: Task, ghost ts: set<Task>)
    ensures fresh(ts) && ts == {task, timeout, c} && PauseReady(Snap(ts, {}), task, timeout, c)
  {
    task := new Task.Lambda(VoidResult, 1);
    task.SetAutoFinishEnabled(false);
    task.SetAction(Produce(Returned(NoValue)));
    timeout := new Task.Manual(3);
    c := timeout.ContinueWithAction(VoidResult, FinishTask(task), 2);
    ts := {task, timeout, c};
  }

  /** createPauseTask: a void lambda task with auto-finish disabled, whose
      callable arms a timer; its timeout task, which some other code
      finishes, holds a continuation that finishes the pause task. The
      pause task is still NotStarted after start(), and Finished once the
      timeout task has finished. */
  method PauseTask() returns (afterStart: State, afterTimeout: State)
    ensures afterStart == NotStarted && afterTimeout == Finished
  {
    var task, timeout, c, ts := SetUpPause();
    ghost var ks: set<JoinCounter> := {};
    PauseStart(Snap(ts, ks), task, timeout, c);
    ghost var l := task.Start(ts, ks);
    assert task.View() == Snap(ts, ks).tasks[task];
    afterStart := task.state;
    PauseTimeout(Snap(ts, ks), task, timeout, c);
    ghost var ls := timeout.Finish(ts, ks);
    assert task.View() == Snap(ts, ks).tasks[task];
    afterTimeout := task.state;
  }

  /** The snapshot of whenAll once the barrier is registered: the inputs
      `ins` (distinct, unfinished, ranked above the closures) each hold
      exactly their closure `cl[m]`, whose counter `k` is held by all three
      closures. */
  ghost predicate WhenAllReady(w: World, k: JoinCounter, target: Task, ins: seq<Task>, cl: seq<Task>)
  {
    && |ins| == 3 && |cl| == 3 && w.holders.Keys == {k} && w.holders[k] == 3
    && target in w.tasks && target.rank == 1 && w.tasks[target].state == NotStarted && w.tasks[target].continuations == [] && w.tasks[target].prevTask == null
    && w.tasks[target].action == Some(Produce(Returned(NoValue)))
    && (forall m, m' | 0 <= m < m' < 3 :: ins[m] != ins[m'])
    && (forall m | 0 <= m < 3 ::
          && ins[m] in w.tasks && ins[m].rank == 3 && w.tasks[ins[m]].continuations == [cl[m]]
          && w.tasks[ins[m]].prevTask == null && w.tasks[ins[m]].action.None?
          && cl[m] in w.tasks && cl[m].rank == 2 && cl[m].kind == Lambda
          && w.tasks[cl[m]] == TaskView(NotStarted, [], null, "", NoValue, Some(JoinStep(k, target)), None, true))
  }

  lemma WhenAllPending(w: World, k: JoinCounter, target: Task, ins: seq<Task>, cl: seq<Task>)
    requires WhenAllReady(w, k, target, ins, cl)
    requires forall t | t in w.tasks :: t == target || t in ins || t in cl
    ensures WorldOK(w) && Pending(w, k, target, ins, cl, 0)
  {
    forall t | t in w.tasks ensures ViewOK(w, t, w.tasks[t]) {
      if t in ins {
        var m :| 0 <= m < 3 && t == ins[m];
        assert cl[m] in w.tasks[t].continuations;
      } else if t in cl {
        var m :| 0 <= m < 3 && t == cl[m];
      }
    }
    forall m | 0 <= m < 3 ensures IsClosure(w, cl[m], k, target) {
    }
  }

  /** whenAll on snapshots: of three inputs completing one after another,
      the first two do not start the target and leave it as it was. */
  lemma WhenAllFirstTwo(w0: World, k: JoinCounter, target: Task, ins: seq<Task>, cl: seq<Task>)
    requires WorldOK(w0) && Pending(w0, k, target, ins, cl, 0) && |ins| == 3
    ensures target in w0.tasks && ins[0] in w0.tasks
    ensures var e1 := FinishS(w0, ins[0]);
      && WorldOK(e1.world) && ins[1] in e1.world.tasks && target !in Started(e1.launches)
      && var e2 := FinishS(e1.world, ins[1]);
      && WorldOK(e2.world) && Pending(e2.world, k, target, ins, cl, 2) && target !in Started(e2.launches)
      && e2.world.tasks[target] == w0.tasks[target]
  {
    PendingStep(w0, k, target, ins, cl, 0, None);
    PendingStep(FinishS(w0, ins[0]).world, k, target, ins, cl, 1, None);
  }

  /** ... and, as the library is written, the third does not start it
      either: its closure sees its own copy and execAction's. */
  lemma WhenAllLast(w2: World, k: JoinCounter, target: Task, ins: seq<Task>, cl: seq<Task>)
    requires WorldOK(w2) && w2.callCopies == ExecActionCopies && Pending(w2, k, target, ins, cl, 2) && |ins| == 3
    ensures ins[2] in w2.tasks && target in w2.tasks
    ensures target !in Started(FinishS(w2, ins[2]).launches)
    ensures FinishS(w2, ins[2]).world.tasks[target] == w2.tasks[target]
  {
    PendingStep(w2, k, target, ins, cl, 2, None);
  }

  /** Without execAction's copy, the third completion starts the target
      exactly once. */
  lemma WhenAllLastIntended(w2: World, k: JoinCounter, target: Task, ins: seq<Task>, cl: seq<Task>)
    requires WorldOK(w2) && w2.callCopies == 0 && Pending(w2, k, target, ins, cl, 2) && |ins| == 3
    ensures ins[2] in w2.tasks && target in w2.tasks
    ensures multiset(Started(FinishS(w2, ins[2]).launches))[target] == 1
  {
    assert ins[2] in w2.tasks && w2.tasks[ins[2]].continuations == [cl[2]] && IsClosure(w2, cl[2], k, target);
    LastStep(w2, ins[2], cl[2], k, target, None);
  }

  /** A join closure of whenAll, as continueWhenAll creates it. */
  ghost predicate FreshClosure(c: Task, k: JoinCounter, target: Task)
    reads c
  {
    && c.rank == 2 && c.kind == Lambda
    && c.View() == TaskView(NotStarted, [], null, "", NoValue, Some(JoinStep(k, target)), None, true)
  }

  /** An input of whenAll holding only its closure `c`. */
  ghost predicate WaitingInput(u: Task, c: Task)
    reads u
  {
    u.rank == 3 && u.View() == TaskView(NotStarted, [c], null, "", NoValue, None, None, false)
  }

  /** continueWhenAll over three distinct fresh inputs `a`, `b`, `c`. */
  method JoinThree(a: Task, b: Task, c: Task, t: Task) returns (k: JoinCounter, ghost c0: Task, ghost c1: Task, ghost c2: Task)
    requires a != b && a != c && b != c && t.rank == 1
    requires a.rank == 3 && a.View() == TaskView(NotStarted, [], null, "", NoValue, None, None, false)
    requires b.rank == 3 && b.View() == TaskView(NotStarted, [], null, "", NoValue, None, None, false)
    requires c.rank == 3 && c.View() == TaskView(NotStarted, [], null, "", NoValue, None, None, false)
    modifies a, b, c
    ensures fresh(k) && k.holders == 3 && fresh(c0) && fresh(c1) && fresh(c2)
    ensures c0 != c1 && c0 != c2 && c1 != c2
    ensures WaitingInput(a, c0) && WaitingInput(b, c1) && WaitingInput(c, c2)
    ensures FreshClosure(c0, k, t) && FreshClosure(c1, k, t) && FreshClosure(c2, k, t)
  {
    var tasks := [a, b, c];
    var res;
    ghost var closures;
    res, k, closures := Task.ContinueWhenAll(tasks, t, 2);
    c0, c1, c2 := closures[0], closures[1], closures[2];
    ClosuresOfDistinct(tasks, closures, 0);
    ClosuresOfDistinct(tasks, closures, 1);
    ClosuresOfDistinct(tasks, closures, 2);
    assert tasks[0] == a && tasks[1] == b && tasks[2] == c;
  }

  /** The setup of whenAll: three inputs that some other code finishes
      (standing for the pause tasks and their timers), a void lambda target,
      and continueWhenAll joining them. The inputs are handed back in the
      order their timers fire (25, 50 and 60 ms: the second, first and third
      of the list), each with its closure. */
  method RegisterWhenAll() returns (ins: seq<Task>, ghost cl: seq<Task>, target: Task, k: JoinCounter, ghost ts: set<Task>)
    ensures |ins| == 3 && |cl| == 3 && fresh(k) && k.holders == 3 && target.rank == 1
    ensures ts == {target, ins[0], ins[1], ins[2], cl[0], cl[1], cl[2]} && fresh(ts)
    ensures target.View() == TaskView(NotStarted, [], null, "", NoValue, Some(Produce(Returned(NoValue))), None, true)
    ensures ins[0] != ins[1] && ins[0] != ins[2] && ins[1] != ins[2]
    ensures WaitingInput(ins[0], cl[0]) && WaitingInput(ins[1], cl[1]) && WaitingInput(ins[2], cl[2])
    ensures FreshClosure(cl[0], k, target) && FreshClosure(cl[1], k, target) && FreshClosure(cl[2], k, target)
  {
    var a := new Task.Manual(3);
    var b := new Task.Manual(3);
    var c := new Task.Manual(3);
    target := new Task.WithAction(VoidResult, Produce(Returned(NoValue)), 1);
    ghost var c0, c1, c2;
    k, c0, c1, c2 := JoinThree(a, b, c, target);
    ins := [b, a, c];
    cl := [c1, c0, c2];
    ts := {target, b, a, c, c1, c0, c2};
  }

  /** The barrier of whenAll, registered and pending on all three inputs. */
  method SetUpWhenAll() returns (ins: seq<Task>, ghost cl: seq<Task>, target: Task, k: JoinCounter, ghost ts: set<Task>, ghost ks: set<JoinCounter>)
    ensures |ins| == 3 && fresh(ts) && fresh(ks) && ks == {k} && target in ts && ins[0] in ts && ins[1] in ts && ins[2] in ts
    ensures var w := Snap(ts, ks);
      && WorldOK(w) && Pending(w, k, target, ins, cl, 0) && w.tasks[target].state == NotStarted
  {
    ins, cl, target, k, ts := RegisterWhenAll();
    ks := {k};
    RegisteredReady(ins, cl, target, k, ts, ks);
    WhenAllPending(Snap(ts, ks), k, target, ins, cl);
  }

  /** The snapshot right after RegisterWhenAll. */
  lemma RegisteredReady(ins: seq<Task>, cl: seq<Task>, target: Task, k: JoinCounter, ts: set<Task>, ks: set<JoinCounter>)
    requires |ins| == 3 && |cl| == 3 && k.holders == 3 && target.rank == 1
    requires target.View() == TaskView(NotStarted, [], null, "", NoValue, Some(Produce(Returned(NoValue))), None, true)
    requires ins[0] != ins[1] && ins[0] != ins[2] && ins[1] != ins[2]
    requires WaitingInput(ins[0], cl[0]) && WaitingInput(ins[1], cl[1]) && WaitingInput(ins[2], cl[2])
    requires FreshClosure(cl[0], k, target) && FreshClosure(cl[1], k, target) && FreshClosure(cl[2], k, target)
    requires ts == {target, ins[0], ins[1], ins[2], cl[0], cl[1], cl[2]} && ks == {k}
    ensures var w := Snap(ts, ks);
      && WhenAllReady(w, k, target, ins, cl)
      && forall u | u in w.tasks :: u == target || u in ins || u in cl
  {
    var w := Snap(ts, ks);
    forall m, m' | 0 <= m < m' < 3 ensures ins[m] != ins[m'] {
    }
    forall m | 0 <= m < 3
      ensures && ins[m] in w.tasks && ins[m].rank == 3 && w.tasks[ins[m]].continuations == [cl[m]]
              && w.tasks[ins[m]].prevTask == null && w.tasks[ins[m]].action.None?
              && cl[m] in w.tasks && cl[m].rank == 2 && cl[m].kind == Lambda
              && w.tasks[cl[m]] == TaskView(NotStarted, [], null, "", NoValue, Some(JoinStep(k, target)), None, true)
    {
      assert WaitingInput(ins[m], cl[m]) && FreshClosure(cl[m], k, target);
    }
    forall u | u in w.tasks ensures u == target || u in ins || u in cl {
      assert u in ts;
    }
  }

  /** whenAll, as the library is written: the target is still unstarted
      after the first two inputs have finished, and the third finish does not
      start it either, so the test's event loop is never quit. */
  method WhenAll() returns (afterTwo: State, afterAll: State, ghost l1: seq<Launch>, ghost l2: seq<Launch>, ghost l3: seq<Launch>, ghost target: Task)
    ensures afterTwo == NotStarted && afterAll == NotStarted
    ensures target !in Started(l1) && target !in Started(l2) && target !in Started(l3)
  {
    var ins, cl, t, k, ts, ks := SetUpWhenAll();
    target := t;
    ghost var w0 := Snap(ts, ks);
    WhenAllFirstTwo(w0, k, t, ins, cl);
    l1 := ins[0].Finish(ts, ks);
    l2 := ins[1].Finish(ts, ks);
    ghost var w2 := Snap(ts, ks);
    assert t.View() == w2.tasks[t];
    afterTwo := t.state;
    WhenAllLast(w2, k, t, ins, cl);
    l3 := ins[2].Finish(ts, ks);
    assert t.View() == Snap(ts, ks).tasks[t];
    afterAll := t.state;
  }

  /** An input completing inside another input's dispatch. Input `a` holds
      its closure `ca` and then a continuation `x` that finishes input `b`,
      which holds its closure `cb`. When `a` finishes, `ca` runs while `cb`
      still holds the counter, then `x` finishes `b`, and `cb` runs while
      `ca` still holds it: `ca` is released only when `a`'s list is cleared,
      after the loop. Both inputs have completed and the target was never
      started, whatever copies the call holds (so also with
      `callCopies == 0`). */
  lemma NestedCompletionMisses(w: World, a: Task, b: Task, ca: Task, cb: Task, x: Task, k: JoinCounter, target: Task)
    requires WorldOK(w) && k in w.holders && w.holders[k] >= 2
    requires a in w.tasks && w.tasks[a].continuations == [ca, x] && IsClosure(w, ca, k, target)
    requires b in w.tasks && w.tasks[b].continuations == [cb] && IsClosure(w, cb, k, target) && ca != cb
    requires x in w.tasks && x.kind == Lambda && w.tasks[x].action == Some(FinishTask(b))
    requires w.tasks[x].continuations == [] && w.tasks[x].autoFinish
    ensures Started(FinishS(w, a).launches) == [ca, x, cb]
    ensures target !in Started(FinishS(w, a).launches)
  {
    NestedFacts(w, a, b, ca, cb, x, k, target);
    FinishIsDispatch(w, a);
    var x1 := WithView(w, a, w.tasks[a].(state := Finished));
    NestedDispatch(x1, a, b, ca, cb, x, k, target);
    NotAmong(Started(FinishS(w, a).launches), Started(DispatchS(x1, a).launches), target, [ca, x, cb]);
  }

  /** finish() is one dispatch from the task marked Finished. */
  lemma FinishIsDispatch(w: World, u: Task)
    requires WorldOK(w) && u in w.tasks
    ensures var x1 := WithView(w, u, w.tasks[u].(state := Finished));
      WorldOK(x1) && Started(FinishS(w, u).launches) == Started(DispatchS(x1, u).launches)
  {
    assert ViewOK(w, u, w.tasks[u]);
  }

  /** The tasks of that scenario are distinct, and marking `a` keeps `b`,
      `x` and the closures as they were. */
  lemma NestedFacts(w: World, a: Task, b: Task, ca: Task, cb: Task, x: Task, k: JoinCounter, target: Task)
    requires WorldOK(w) && k in w.holders
    requires a in w.tasks && w.tasks[a].continuations == [ca, x] && IsClosure(w, ca, k, target)
    requires b in w.tasks && w.tasks[b].continuations == [cb] && IsClosure(w, cb, k, target)
    requires x in w.tasks && w.tasks[x].action == Some(FinishTask(b))
    ensures target !in [ca, x, cb] && ca != x && ca != b
    ensures var x1 := WithView(w, a, w.tasks[a].(state := Finished));
      && x1.tasks[b] == w.tasks[b] && x1.tasks[x] == w.tasks[x]
      && IsClosure(x1, ca, k, target) && IsClosure(x1, cb, k, target)
  {
    assert ViewOK(w, a, w.tasks[a]);
    assert ca in w.tasks[a].continuations && x in w.tasks[a].continuations;
    assert ViewOK(w, ca, w.tasks[ca]) && ViewOK(w, x, w.tasks[x]);
    assert ViewOK(w, b, w.tasks[b]) && ViewOK(w, cb, w.tasks[cb]);
    assert cb in w.tasks[b].continuations;
    assert target.rank < cb.rank < b.rank < x.rank && target.rank < ca.rank;
  }

  lemma NotAmong(l: seq<Task>, l': seq<Task>, t: Task, s: seq<Task>)
    requires l == l' && l' == s && t !in s
    ensures l == s && t !in l
  {
  }

  lemma ThreeOf<T>(p: T, q: T, r: T)
    ensures [p] + [q, r] == [p, q, r]
  {
  }

  /** NestedCompletionMisses, once `a` is marked Finished. */
  lemma NestedDispatch(x1: World, a: Task, b: Task, ca: Task, cb: Task, x: Task, k: JoinCounter, target: Task)
    requires WorldOK(x1) && k in x1.holders && x1.holders[k] >= 2
    requires a in x1.tasks && x1.tasks[a].continuations == [ca, x] && IsClosure(x1, ca, k, target)
    requires b in x1.tasks && x1.tasks[b].continuations == [cb] && IsClosure(x1, cb, k, target)
    requires x in x1.tasks && x.kind == Lambda && x1.tasks[x].action == Some(FinishTask(b))
    requires x1.tasks[x].continuations == [] && x1.tasks[x].autoFinish
    requires ca != x && ca != b && ca != cb
    ensures Started(DispatchS(x1, a).launches) == [ca, x, cb]
  {
    var cs := [ca, x];
    DispatchLaunches(x1, a);
    DispatchTwo(x1, a, cs);
    QuietStart(x1, a, ca, k, target);
    var e1 := StartS(WithPrev(x1, ca, a), ca);
    NestedSecond(x1, e1.world, a, b, ca, cb, x, k, target);
    var e2 := StartS(WithPrev(e1.world, x, a), x);
    var l := DispatchS(x1, a).launches;
    assert l == e1.launches + e2.launches;
    StartedConcat(e1.launches, e2.launches);
    StartedOne(e1.launches[0]);
    assert Started(e1.launches) == [ca];
    ThreeOf(ca, x, cb);
  }

  /** The second entry of that dispatch, once the first closure has run. */
  lemma NestedSecond(x1: World, w1: World, a: Task, b: Task, ca: Task, cb: Task, x: Task, k: JoinCounter, target: Task)
    requires WorldOK(x1) && WorldOK(w1) && a in x1.tasks && ca in x1.tasks && k in x1.holders && x1.holders[k] >= 2
    requires w1 == WithView(x1, ca, x1.tasks[ca].(prevTask := a, state := Finished))
    requires b in x1.tasks && x1.tasks[b].continuations == [cb] && IsClosure(x1, cb, k, target)
    requires x in x1.tasks && x.kind == Lambda && x1.tasks[x].action == Some(FinishTask(b))
    requires x1.tasks[x].continuations == [] && x1.tasks[x].autoFinish
    requires ca != x && ca != b && ca != cb
    ensures x in w1.tasks && Started(StartS(WithPrev(w1, x, a), x).launches) == [x, cb]
  {
    assert w1.tasks[x] == x1.tasks[x] && w1.tasks[b] == x1.tasks[b] && w1.tasks[cb] == x1.tasks[cb];
    var y := WithPrev(w1, x, a);
    assert y.tasks[b] == x1.tasks[b] && y.tasks[cb] == x1.tasks[cb];
    assert IsClosure(y, cb, k, target);
    NestedStart(y, x, b, cb, k, target);
  }

  /** The loop of execContinuations over a two-entry list. */
  lemma DispatchTwo(w: World, a: Task, cs: seq<Task>)
    requires WorldOK(w) && a in w.tasks && |cs| == 2
    requires forall c {:trigger c in cs} | c in cs :: c in w.tasks && c.rank < a.rank
    ensures cs[0] in w.tasks
    ensures var e1 := StartS(WithPrev(w, cs[0], a), cs[0]);
      cs[1] in e1.world.tasks &&
      DispatchFrom(w, a, cs, 0).launches == e1.launches + StartS(WithPrev(e1.world, cs[1], a), cs[1]).launches
  {
    assert cs[0] in cs && cs[1] in cs;
    var e1 := StartS(WithPrev(w, cs[0], a), cs[0]);
    var e2 := StartS(WithPrev(e1.world, cs[1], a), cs[1]);
    assert DispatchFrom(e2.world, a, cs, 2).launches == [];
    assert DispatchFrom(e1.world, a, cs, 1).launches == e2.launches;
  }

  /** The continuation `x` of that scenario, started: it finishes `b`, whose
      closure runs without seeing `unique()`, and then finishes itself. */
  lemma NestedStart(y: World, x: Task, b: Task, cb: Task, k: JoinCounter, target: Task)
    requires WorldOK(y) && x in y.tasks && x.kind == Lambda && y.tasks[x].action == Some(FinishTask(b))
    requires y.tasks[x].continuations == [] && y.tasks[x].autoFinish
    requires b in y.tasks && y.tasks[b].continuations == [cb] && IsClosure(y, cb, k, target) && UseCount(y, k) != 1
    ensures Started(StartS(y, x).launches) == [x, cb]
  {
    assert ViewOK(y, x, y.tasks[x]);
    assert b.rank < x.rank;
    var e := FinishS(y, b);
    assert RunActionS(y, x) == ActionRun(e.world, e.launches, None);
    NotLastStep(y, b, cb, k, target, None);
    assert cb != x;
    assert e.world.tasks[x] == y.tasks[x];
    LeafFinish(e.world, x);
    var l := StartS(y, x).launches[0];
    assert l.nested == e.launches + [];
    StartedOne(l);
  }
  /** continueWhenAll over any number of distinct inputs with empty lists,
      from a well-formed heap: the snapshot of the tasks and counters it leaves
      (the old ones plus the new closures and counter) is well-formed, and
      the barrier is pending on every input, so JoinNeverFires and
      JoinFiresOnceAtLast apply. The target is left as it was. */
  method JoinAll(ins: seq<Task>, target: Task, ghost r: nat, ghost ts: set<Task>, ghost ks: set<JoinCounter>)
    returns (k: JoinCounter, ghost cl: seq<Task>, ghost ts': set<Task>, ghost ks': set<JoinCounter>)
    requires WorldOK(Snap(ts, ks)) && target in ts && target.rank < r
    requires forall m | 0 <= m < |ins| :: ins[m] in ts && ins[m].continuations == [] && r < ins[m].rank
    requires forall m, m' | 0 <= m < m' < |ins| :: ins[m] != ins[m']
    modifies set t | t in ins
    ensures ts' == ts + (set c | c in cl) && ks' == ks + {k}
    ensures WorldOK(Snap(ts', ks')) && Pending(Snap(ts', ks'), k, target, ins, cl, 0)
    ensures Snap(ts', ks').tasks[target] == old(target.View())
  {
    ghost var w0 := Snap(ts, ks);
    var res;
    res, k, cl := Task.ContinueWhenAll(ins, target, r);
    ts' := ts + (set c | c in cl);
    ks' := ks + {k};
    forall m | 0 <= m < |ins| ensures ins[m].View() == w0.tasks[ins[m]].(continuations := [cl[m]]) {
      ClosuresOfDistinct(ins, cl, m);
      assert ins[m] in ins;
    }
    forall t | t in ts && t !in ins ensures t.View() == w0.tasks[t] {
    }
    forall m | 0 <= m < |cl| ensures cl[m] !in ts {
    }
    JoinAllReady(w0, ts, ks, ts', ks', ins, cl, k, target, r);
  }

  /** The snapshot after JoinAll, in terms of the one before it. */
  lemma JoinAllReady(w0: World, ts: set<Task>, ks: set<JoinCounter>, ts': set<Task>, ks': set<JoinCounter>,
                     ins: seq<Task>, cl: seq<Task>, k: JoinCounter, target: Task, r: nat)
    requires WorldOK(w0) && w0.tasks.Keys == ts && w0.holders.Keys == ks && w0.callCopies == ExecActionCopies
    requires ts' == ts + (set c | c in cl) && ks' == ks + {k} && k !in ks && k.holders == |ins|
    requires target in ts && target.rank < r && |cl| == |ins|
    requires forall u | u in ks :: u.holders == w0.holders[u]
    requires forall t | t in ts && t !in ins :: t.View() == w0.tasks[t]
    requires forall m | 0 <= m < |ins| ::
      ins[m] in ts && r < ins[m].rank && ins[m].View() == w0.tasks[ins[m]].(continuations := [cl[m]])
    requires forall m | 0 <= m < |cl| ::
      && cl[m] !in ts && cl[m].kind == Kind.Lambda && cl[m].rank == r
      && cl[m].View() == TaskView(NotStarted, [], null, "", NoValue, Some(JoinStep(k, target)), None, true)
    requires forall m, m' | 0 <= m < m' < |ins| :: ins[m] != ins[m']
    ensures WorldOK(Snap(ts', ks')) && Pending(Snap(ts', ks'), k, target, ins, cl, 0)
    ensures Snap(ts', ks').tasks[target] == w0.tasks[target]
  {
    var w := Snap(ts', ks');
    forall t | t in w.tasks ensures ViewOK(w, t, w.tasks[t]) {
      if t in ts {
        assert ViewOK(w0, t, w0.tasks[t]);
        ViewOKGrows(w0, w, t, w0.tasks[t]);
        if t in ins {
          var m :| 0 <= m < |ins| && ins[m] == t;
          assert cl[m] in ts';
        }
      } else {
        var m :| 0 <= m < |cl| && cl[m] == t;
      }
    }
    forall m | 0 <= m < |ins| ensures IsClosure(w, cl[m], k, target) {
      assert cl[m] in ts';
    }
  }

  /** A view well-formed in `w0` stays well-formed in a world with more
      tasks and counters. */
  lemma ViewOKGrows(w0: World, w: World, t: Task, v: TaskView)
    requires w0.tasks.Keys <= w.tasks.Keys && w0.holders.Keys <= w.holders.Keys && ViewOK(w0, t, v)
    ensures ViewOK(w, t, v)
  {
  }
}
