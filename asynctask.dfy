/**
 * The task state machine of AsyncTask: `Task`, its typed result slot, the
 * lambda-wrapped task and the join barrier `continueWhenAll`.
 *
 * A task lives on the heap as an object of class `Task`. Starting a task can
 * finish it, which starts its continuations, which can finish other tasks, and
 * so on; the whole cascade is specified by the ghost functions `StartS`,
 * `FinishS`, `ErrorS` and `DispatchS` over a value snapshot (`World`) of the
 * tasks and join counters involved. Every method that starts or finishes a task
 * promises that the new snapshot is the one these functions compute from the
 * old snapshot, and it returns (as ghost output) the tree of `Launch`es: which
 * tasks were started, in which order, with which predecessor.
 *
 * The source assumes that continuation chains are acyclic. The model makes
 * that explicit with a ghost `rank` per task: a continuation, the task an
 * action finishes and the target of a join closure all have a smaller rank
 * than the task that refers to them.
 */
module AsyncTask {

  datatype Option<T> = None | Some(value: T)

  /** Task::State. */
  datatype State = NotStarted | Running | Finished | Error

  /** The result type parameter of TaskWithResult<T>; `VoidResult` is the
      `void` specialisation, which carries no result. */
  datatype ResultType = VoidResult | IntResult | TextResult

  /** The values a typed task can hold (one type for all instantiations). */
  datatype Value = NoValue | IntValue(i: int) | TextValue(s: string)

  /** What a callable did when invoked: returned a value, or threw an
      exception whose what() is `message`. */
  datatype Outcome = Returned(value: Value) | Threw(message: string)

  /** What a predecessor-aware callable can see of the task passed to it:
      nothing (a null prevTask) or the predecessor's state, result and error. */
  datatype PrevView = NoPrev | Prev(state: State, result: Value, errorString: string)

  /** The plain (zero-argument) callable of a LambdaTask (`action_`), by effect:
      - `Produce(o)`: computes and returns or throws, without side effects;
      - `FinishTask(t)`: calls `t->finish()` (the pause-task continuation);
      - `JoinStep(counter, target)`: the closure registered by continueWhenAll,
        which starts `target` when `counter.unique()` holds as it runs. */
  datatype Action =
    | Produce(outcome: Outcome)
    | FinishTask(task: Task)
    | JoinStep(counter: JoinCounter, target: Task)

  /** The predecessor-aware callable of a LambdaTask (`actionWithPrevTask_`). */
  datatype PrevAction = Consume(f: PrevView -> Outcome)

  /** The dynamic type of a task: a task whose start() does nothing and which
      some other code finishes (SignalHandleTask), or a LambdaTask. */
  datatype Kind = Manual | Lambda

  /** One call of start(): the task, its prevTask at that moment, what that
      predecessor looked like then, and the starts that happened inside it,
      in order. */
  datatype Launch = Launch(task: Task, prev: Task?, seen: PrevView, nested: seq<Launch>)

  /** The mutable fields of one task. */
  datatype TaskView = TaskView(
    state: State,
    continuations: seq<Task>,
    prevTask: Task?,
    errorString: string,
    result: Value,
    action: Option<Action>,
    actionWithPrev: Option<PrevAction>,
    autoFinish: bool)

  /** A snapshot of the tasks and join counters a cascade can touch, and
      how many further copies of a callable's captures the call itself holds
      while the callable runs (`callCopies`; see `ExecActionCopies`). */
  datatype World = World(tasks: map<Task, TaskView>, holders: map<JoinCounter, int>, callCopies: nat)

  /** Details::execAction takes its `std::function` by value (asynctask.h:121
      and the void specialisation at :127), so while LambdaTask::start runs
      `action_` through it, one more copy of the callable, and of every
      `shared_ptr` it captured, is alive. (execActionWithPrevTask takes a
      const reference and copies nothing.) A world with `callCopies == 0`
      describes the library with that copy removed. */
  const ExecActionCopies: nat := 1

  /** `counter.use_count()` as a join closure of `k` sees it while it runs:
      the copies the closures still hold, plus the call's own copy. */
  function UseCount(w: World, k: JoinCounter): (r: int)
    requires k in w.holders
    ensures w.callCopies == ExecActionCopies && w.holders[k] >= 1 ==> r != 1
    ensures w.callCopies == 0 ==> (r == 1 <==> w.holders[k] == 1)
  {
    w.holders[k] + w.callCopies
  }

  /** The world after a finish/error/dispatch, and the starts it made. */
  datatype Effect = Effect(world: World, launches: seq<Launch>)

  /** The world after running a LambdaTask's callable, the starts it made,
      and the message of the exception it threw, if any. */
  datatype ActionRun = ActionRun(world: World, launches: seq<Launch>, failure: Option<string>)

  /** The default-constructed value of a result type (see README for `int`). */
  function DefaultValue(ty: ResultType): Value
  {
    match ty
    case VoidResult => NoValue
    case IntResult => IntValue(0)
    case TextResult => TextValue("")
  }

  /** Every task started in `ls`, in the order start() was entered. */
  function Started(ls: seq<Launch>): seq<Task>
    decreases ls
  {
    if ls == [] then [] else [ls[0].task] + Started(ls[0].nested) + Started(ls[1..])
  }

  lemma {:induction false} StartedConcat(a: seq<Launch>, b: seq<Launch>)
    ensures Started(a + b) == Started(a) + Started(b)
  {
    if a == [] {
      assert a + b == b;
    } else {
      assert (a + b)[0] == a[0];
      assert (a + b)[1..] == a[1..] + b;
      StartedConcat(a[1..], b);
    }
  }

  /** The tasks started by one call of start(): itself, then what it started. */
  lemma StartedOne(l: Launch)
    ensures Started([l]) == [l.task] + Started(l.nested)
  {
    assert [l][1..] == [];
  }

  lemma AppendAssoc<T>(a: seq<T>, b: seq<T>, c: seq<T>)
    ensures a + (b + c) == (a + b) + c
  {
  }

  // ---------------------------------------------------------------------
  // Well-formed worlds
  // ---------------------------------------------------------------------

  ghost predicate ActionOK(w: World, t: Task, a: Action)
  {
    match a
    case Produce(_) => true
    case FinishTask(u) => u in w.tasks && u.rank < t.rank
    case JoinStep(k, u) => k in w.holders && u in w.tasks && u.rank < t.rank
  }

  /** Everything `v` refers to is in `w`, and continuations and action
      targets rank below `t`. */
  ghost predicate ViewOK(w: World, t: Task, v: TaskView)
  {
    && (forall c {:trigger c in v.continuations} | c in v.continuations :: c in w.tasks && c.rank < t.rank)
    && (v.prevTask != null ==> v.prevTask in w.tasks)
    && (v.action.Some? ==> ActionOK(w, t, v.action.value))
  }

  ghost predicate WorldOK(w: World)
  {
    forall t {:trigger ViewOK(w, t, w.tasks[t])} | t in w.tasks :: ViewOK(w, t, w.tasks[t])
  }

  ghost predicate SameDomain(w: World, w': World)
  {
    w'.tasks.Keys == w.tasks.Keys && w'.holders.Keys == w.holders.Keys && w'.callCopies == w.callCopies
  }

  /** No task other than `t` whose rank is at least `t`'s has changed. */
  ghost predicate OthersUnchanged(w: World, w': World, t: Task)
    requires SameDomain(w, w')
  {
    forall u {:trigger w'.tasks[u]} | u in w.tasks && u != t && t.rank <= u.rank :: w'.tasks[u] == w.tasks[u]
  }

  /** No task whose rank is at least `r` has changed. */
  ghost predicate AboveUnchanged(w: World, w': World, r: nat)
    requires SameDomain(w, w')
  {
    forall u {:trigger w'.tasks[u]} | u in w.tasks && r <= u.rank :: w'.tasks[u] == w.tasks[u]
  }

  function WithView(w: World, t: Task, v: TaskView): (r: World)
    requires t in w.tasks
    ensures SameDomain(w, r) && r.holders == w.holders
    ensures r.tasks[t] == v && forall u {:trigger r.tasks[u]} | u in w.tasks && u != t :: r.tasks[u] == w.tasks[u]
    ensures WorldOK(w) && ViewOK(w, t, v) ==> WorldOK(r)
  {
    WithViewOK(w, t, v);
    w.(tasks := w.tasks[t := v])
  }

  lemma WithViewOK(w: World, t: Task, v: TaskView)
    requires t in w.tasks
    ensures WorldOK(w) && ViewOK(w, t, v) ==> WorldOK(w.(tasks := w.tasks[t := v]))
  {
    if WorldOK(w) && ViewOK(w, t, v) {
      var r := w.(tasks := w.tasks[t := v]);
      forall u | u in r.tasks ensures ViewOK(r, u, r.tasks[u]) {
        if u == t {
          assert ViewOK(w, t, v);
        } else {
          assert ViewOK(w, u, w.tasks[u]);
        }
      }
    }
  }

  /** `c` with its prevTask set to `t`, as execContinuations does. */
  ghost function WithPrev(w: World, c: Task, t: Task): (r: World)
    requires WorldOK(w) && c in w.tasks && t in w.tasks
    ensures WorldOK(r) && r == WithView(w, c, w.tasks[c].(prevTask := t))
  {
    assert ViewOK(w, c, w.tasks[c]);
    assert ViewOK(w, c, w.tasks[c].(prevTask := t));
    WithView(w, c, w.tasks[c].(prevTask := t))
  }

  function PrevIn(w: World, p: Task?): PrevView
    requires p != null ==> p in w.tasks
  {
    if p == null then NoPrev
    else Prev(w.tasks[p].state, w.tasks[p].result, w.tasks[p].errorString)
  }

  // ---------------------------------------------------------------------
  // The cascade, on snapshots
  // ---------------------------------------------------------------------

  /** start() of task `t`: nothing for a manual task (test.cpp's
      SignalHandleTask); for a LambdaTask, run the callable, then error() if
      it threw, else finish() if auto-finish is on. */
  ghost function StartS(w: World, t: Task): (r: Effect)
    requires WorldOK(w) && t in w.tasks
    ensures WorldOK(r.world) && SameDomain(w, r.world)
    ensures |r.launches| == 1 && r.launches[0].task == t && r.launches[0].prev == w.tasks[t].prevTask
    decreases t.rank, 4
  {
    var prev := w.tasks[t].prevTask;
    assert ViewOK(w, t, w.tasks[t]);
    if t.kind == Manual then Effect(w, [Launch(t, prev, PrevIn(w, prev), [])])
    else
      var a := RunActionS(w, t);
      var f := CompleteS(a.world, t, a.failure);
      Effect(f.world, [Launch(t, prev, PrevIn(w, prev), a.launches + f.launches)])
  }

  /** The end of LambdaTask::start once the callable has run: error() with
      the message if it threw, else finish() if auto-finish is on. */
  ghost function CompleteS(w: World, t: Task, failure: Option<string>): (r: Effect)
    requires WorldOK(w) && t in w.tasks
    ensures WorldOK(r.world) && SameDomain(w, r.world)
    decreases t.rank, 3
  {
    if failure.Some? then ErrorS(w, t, failure.value)
    else if w.tasks[t].autoFinish then FinishS(w, t)
    else Effect(w, [])
  }

  /** The try block of LambdaTask::start up to the auto-finish: the plain
      callable if there is one, else the predecessor-aware one. */
  ghost function RunActionS(w: World, t: Task): (r: ActionRun)
    requires WorldOK(w) && t in w.tasks
    ensures WorldOK(r.world) && SameDomain(w, r.world)
    decreases t.rank, 3
  {
    var v := w.tasks[t];
    if v.action.Some? then
      assert ViewOK(w, t, v);
      match v.action.value
      case Produce(o) => ExecActionS(w, t, o)
      case FinishTask(u) =>
        var e := FinishS(w, u);
        ActionRun(e.world, e.launches, None)
      case JoinStep(k, target) =>
        if UseCount(w, k) == 1 then
          var e := StartS(w, target);
          ActionRun(e.world, e.launches, None)
        else ActionRun(w, [], None)
    else if v.actionWithPrev.Some? then
      ExecActionS(w, t, v.actionWithPrev.value.f(PrevIn(w, v.prevTask)))
    else ActionRun(w, [], None)
  }

  /** Details::execAction / execActionWithPrevTask once the callable has run:
      a returned value is stored (unless the task is void); an exception
      stores nothing and is passed on. */
  ghost function ExecActionS(w: World, t: Task, o: Outcome): (r: ActionRun)
    requires WorldOK(w) && t in w.tasks
    ensures WorldOK(r.world) && SameDomain(w, r.world) && r.launches == []
  {
    if o.Threw? then ActionRun(w, [], Some(o.message))
    else if t.resultType == VoidResult then ActionRun(w, [], None)
    else
      assert ViewOK(w, t, w.tasks[t]);
      ActionRun(WithView(w, t, w.tasks[t].(result := o.value)), [], None)
  }

  /** Task::finish. */
  ghost function FinishS(w: World, t: Task): (r: Effect)
    requires WorldOK(w) && t in w.tasks
    ensures WorldOK(r.world) && SameDomain(w, r.world)
    decreases t.rank, 2
  {
    assert ViewOK(w, t, w.tasks[t]);
    DispatchS(WithView(w, t, w.tasks[t].(state := Finished)), t)
  }

  /** Task::error. */
  ghost function ErrorS(w: World, t: Task, msg: string): (r: Effect)
    requires WorldOK(w) && t in w.tasks
    ensures WorldOK(r.world) && SameDomain(w, r.world)
    decreases t.rank, 2
  {
    assert ViewOK(w, t, w.tasks[t]);
    DispatchS(WithView(w, t, w.tasks[t].(state := Error, errorString := msg)), t)
  }

  /** Task::execContinuations: start every continuation, in order, after
      setting its prevTask; then clear the list, which releases the join
      closures held only by it. */
  ghost function DispatchS(w: World, t: Task): (r: Effect)
    requires WorldOK(w) && t in w.tasks
    ensures WorldOK(r.world) && SameDomain(w, r.world)
    decreases t.rank, 1
  {
    var cs := w.tasks[t].continuations;
    assert ViewOK(w, t, w.tasks[t]);
    var d := DispatchFrom(w, t, cs, 0);
    assert ViewOK(d.world, t, d.world.tasks[t]);
    var cleared := WithView(d.world, t, d.world.tasks[t].(continuations := []));
    HoldersOK(cleared, Release(cleared.tasks, cleared.holders, cs, 0));
    Effect(cleared.(holders := Release(cleared.tasks, cleared.holders, cs, 0)), d.launches)
  }

  /** The loop of execContinuations from position `i` of `cs` on. */
  ghost function DispatchFrom(w: World, t: Task, cs: seq<Task>, i: nat): (r: Effect)
    requires WorldOK(w) && t in w.tasks && i <= |cs|
    requires forall c {:trigger c in cs} | c in cs :: c in w.tasks && c.rank < t.rank
    ensures WorldOK(r.world) && SameDomain(w, r.world)
    decreases t.rank, 0, |cs| - i
  {
    if i == |cs| then Effect(w, [])
    else
      var c := cs[i];
      assert c in cs;
      var e := StartS(WithPrev(w, c, t), c);
      var rest := DispatchFrom(e.world, t, cs, i + 1);
      Effect(rest.world, e.launches + rest.launches)
  }

  /** Dropping one list entry: a join closure gives up its copy of the
      counter (its use count drops by one). */
  ghost function ReleaseOne(tasks: map<Task, TaskView>, h: map<JoinCounter, int>, c: Task): (r: map<JoinCounter, int>)
    requires c in tasks
    ensures r.Keys == h.Keys
    ensures forall k | k in h :: h[k] - 1 <= r[k] <= h[k]
  {
    match tasks[c].action
    case Some(JoinStep(k, _)) => if k in h then h[k := h[k] - 1] else h
    case _ => h
  }

  /** Dropping the entries of `cs` from position `j` on. */
  ghost function Release(tasks: map<Task, TaskView>, h: map<JoinCounter, int>, cs: seq<Task>, j: nat): (r: map<JoinCounter, int>)
    requires j <= |cs| && forall c | c in cs :: c in tasks
    ensures r.Keys == h.Keys
    ensures forall k | k in h :: h[k] - (|cs| - j) <= r[k] <= h[k]
    decreases |cs| - j
  {
    if j == |cs| then h else Release(tasks, ReleaseOne(tasks, h, cs[j]), cs, j + 1)
  }

  /** Only the keys of the counter map matter for well-formedness. */
  lemma HoldersOK(w: World, h: map<JoinCounter, int>)
    requires WorldOK(w) && h.Keys == w.holders.Keys
    ensures WorldOK(w.(holders := h))
  {
    var w' := w.(holders := h);
    forall t | t in w'.tasks ensures ViewOK(w', t, w'.tasks[t]) {
      assert ViewOK(w, t, w.tasks[t]);
    }
  }

  /** Part way through the dispatch loop: `acc` has been started and what
      is left of `d` is the loop from position `i` on, in world `w`. */
  ghost predicate DispatchAt(d: Effect, w: World, t: Task, cs: seq<Task>, i: nat, acc: seq<Launch>)
  {
    && WorldOK(w) && t in w.tasks && i <= |cs|
    && (forall c {:trigger c in cs} | c in cs :: c in w.tasks && c.rank < t.rank)
    && var e := DispatchFrom(w, t, cs, i); d.world == e.world && d.launches == acc + e.launches
  }

  lemma DispatchAtFirst(w: World, t: Task, cs: seq<Task>)
    requires WorldOK(w) && t in w.tasks
    requires forall c {:trigger c in cs} | c in cs :: c in w.tasks && c.rank < t.rank
    ensures DispatchAt(DispatchFrom(w, t, cs, 0), w, t, cs, 0, [])
  {
    assert [] + DispatchFrom(w, t, cs, 0).launches == DispatchFrom(w, t, cs, 0).launches;
  }

  lemma DispatchAtLast(d: Effect, w: World, t: Task, cs: seq<Task>, acc: seq<Launch>)
    requires DispatchAt(d, w, t, cs, |cs|, acc)
    ensures d.world == w && d.launches == acc
  {
    assert acc + [] == acc;
  }

  /** One turn of the dispatch loop, on snapshots. */
  lemma DispatchStep(w: World, w': World, t: Task, cs: seq<Task>, i: nat, l: Launch, acc: seq<Launch>, d: Effect)
    requires DispatchAt(d, w, t, cs, i, acc) && i < |cs|
    requires var e := StartS(WithPrev(w, cs[i], t), cs[i]); w' == e.world && [l] == e.launches
    ensures DispatchAt(d, w', t, cs, i + 1, acc + [l])
  {
    assert cs[i] in cs;
    AppendAssoc(acc, [l], DispatchFrom(w', t, cs, i + 1).launches);
  }

  /** The closures, of those registered for `tasks` (pairwise, in order),
      that went to task `t`. */
  function ClosuresOf(tasks: seq<Task>, closures: seq<Task>, t: Task): seq<Task>
    requires |tasks| == |closures|
    decreases |tasks|
  {
    if tasks == [] then []
    else
      var n := |tasks| - 1;
      ClosuresOf(tasks[..n], closures[..n], t) + (if tasks[n] == t then [closures[n]] else [])
  }

  /** The closures continueWhenAll has made so far: distinct void lambda
      tasks holding a copy of the counter, not started. */
  ghost predicate JoinClosures(closures: seq<Task>, k: JoinCounter, target: Task, r: nat)
    reads set c | c in closures
  {
    && (forall m | 0 <= m < |closures| ::
          && closures[m].kind == Kind.Lambda && closures[m].resultType == VoidResult && closures[m].rank == r
          && closures[m].View() == TaskView(NotStarted, [], null, "", NoValue, Some(JoinStep(k, target)), None, true))
    && forall m, m' | 0 <= m < m' < |closures| :: closures[m] != closures[m']
  }

  /** The inputs of continueWhenAll once the first `i` of them have had
      their closure appended; `before` holds their views beforehand. */
  ghost predicate JoinRegistered(tasks: seq<Task>, before: map<Task, TaskView>, closures: seq<Task>)
    reads set t | t in tasks
  {
    && |closures| <= |tasks|
    && forall t | t in tasks ::
         t in before && t.View() == before[t].(continuations := before[t].continuations + ClosuresOf(tasks[..|closures|], closures, t))
  }

  /** Once every input has had its closure appended, each input's list is
      the old one followed by its own closures, and nothing else changed. */
  lemma JoinRegisteredAll(tasks: seq<Task>, before: map<Task, TaskView>, closures: seq<Task>)
    requires JoinRegistered(tasks, before, closures) && |closures| == |tasks|
    ensures forall t | t in tasks :: t.continuations == before[t].continuations + ClosuresOf(tasks, closures, t)
    ensures forall t | t in tasks :: t.View() == before[t].(continuations := t.continuations)
  {
    assert tasks[..|closures|] == tasks;
  }

  /** A task that is not an input gets no closure. */
  lemma {:induction false} ClosuresOfAbsent(tasks: seq<Task>, closures: seq<Task>, t: Task)
    requires |tasks| == |closures| && t !in tasks
    ensures ClosuresOf(tasks, closures, t) == []
    decreases |tasks|
  {
    if tasks != [] {
      var n := |tasks| - 1;
      assert forall u | u in tasks[..n] :: u in tasks;
      ClosuresOfAbsent(tasks[..n], closures[..n], t);
    }
  }

  /** With distinct inputs, each input gets exactly its own closure. */
  lemma {:induction false} ClosuresOfDistinct(tasks: seq<Task>, closures: seq<Task>, i: nat)
    requires |tasks| == |closures| && i < |tasks|
    requires forall m, m' | 0 <= m < m' < |tasks| :: tasks[m] != tasks[m']
    ensures ClosuresOf(tasks, closures, tasks[i]) == [closures[i]]
    decreases |tasks|
  {
    var n := |tasks| - 1;
    if i == n {
      assert tasks[i] !in tasks[..n];
      ClosuresOfAbsent(tasks[..n], closures[..n], tasks[i]);
    } else {
      assert tasks[..n][i] == tasks[i] && closures[..n][i] == closures[i];
      ClosuresOfDistinct(tasks[..n], closures[..n], i);
    }
  }

  lemma ClosuresOfStep(tasks: seq<Task>, closures: seq<Task>, c: Task, t: Task, i: nat)
    requires i < |tasks| && |closures| == i
    ensures ClosuresOf(tasks[..i + 1], closures + [c], t) == ClosuresOf(tasks[..i], closures, t) + (if tasks[i] == t then [c] else [])
  {
    assert tasks[..i + 1][..i] == tasks[..i];
    assert (closures + [c])[..i] == closures;
  }

  // ---------------------------------------------------------------------
  // The heap
  // ---------------------------------------------------------------------

  /** The shared counter of continueWhenAll; `holders` is the number of join
      closures still holding a copy. A closure that is running sees that
      number plus the copies its call holds (`UseCount`). */
  class JoinCounter {
    var holders: int

    constructor ()
      ensures holders == 0
    {
      holders := 0;
    }
  }

  /** The snapshot of the tasks `ts` and counters `ks`. */
  ghost function Snap(ts: set<Task>, ks: set<JoinCounter>): (w: World)
    reads ts, ks
    ensures w.tasks.Keys == ts && w.holders.Keys == ks
    ensures forall t | t in ts :: w.tasks[t] == t.View()
    ensures forall k | k in ks :: w.holders[k] == k.holders
    ensures w.callCopies == ExecActionCopies
  {
    World(map t | t in ts :: t.View(), map k | k in ks :: k.holders, ExecActionCopies)
  }

  /** After one task's fields changed, the snapshot changed at that task only. */
  twostate lemma SnapTask(new ts: set<Task>, new ks: set<JoinCounter>, new t: Task)
    requires old(allocated(ts)) && old(allocated(ks)) && t in ts && (forall u | u in ts && u != t :: unchanged(u)) && (forall k | k in ks :: unchanged(k))
    ensures Snap(ts, ks) == WithView(old(Snap(ts, ks)), t, t.View())
  {
  }

  /** After one counter changed, the snapshot changed at that counter only. */
  twostate lemma SnapCounter(new ts: set<Task>, new ks: set<JoinCounter>, new k: JoinCounter)
    requires old(allocated(ts)) && old(allocated(ks)) && k in ks
    requires forall u | u in ts :: unchanged(u)
    requires forall k' | k' in ks && k' != k :: unchanged(k')
    ensures Snap(ts, ks) == old(Snap(ts, ks)).(holders := old(Snap(ts, ks)).holders[k := k.holders])
  {
  }

  class Task {
    /** The dynamic type: SignalHandleTask-like or LambdaTask. */
    const kind: Kind
    /** The `T` of TaskWithResult<T>. */
    const resultType: ResultType
    /** Position in the (acyclic) continuation graph. */
    ghost const rank: nat

    var state: State
    var continuations: seq<Task>
    var prevTask: Task?
    var errorString: string
    /** TaskWithResult::result_ (always `NoValue` for void tasks). */
    var result: Value
    /** LambdaTask::action_, absent when the std::function is empty. */
    var action: Option<Action>
    /** LambdaTask::actionWithPrevTask_. */
    var actionWithPrev: Option<PrevAction>
    var autoFinishEnabled: bool

    function View(): TaskView
      reads this
    {
      TaskView(state, continuations, prevTask, errorString, result, action, actionWithPrev, autoFinishEnabled)
    }

    /** A task whose start() does nothing (Task::Task, as SignalHandleTask). */
    constructor Manual(ghost rank: nat)
      ensures kind == Kind.Manual && resultType == VoidResult && this.rank == rank
      ensures state == NotStarted && continuations == [] && prevTask == null
      ensures errorString == "" && result == NoValue
      ensures action == None && actionWithPrev == None && !autoFinishEnabled
    {
      kind, resultType, this.rank := Kind.Manual, VoidResult, rank;
      state, continuations, prevTask, errorString := NotStarted, [], null, "";
      result, action, actionWithPrev, autoFinishEnabled := NoValue, None, None, false;
    }

    /** LambdaTask() with no callable. */
    constructor Lambda(ty: ResultType, ghost rank: nat)
      ensures kind == Kind.Lambda && resultType == ty && this.rank == rank
      ensures state == NotStarted && continuations == [] && prevTask == null
      ensures errorString == "" && result == DefaultValue(ty)
      ensures action == None && actionWithPrev == None && autoFinishEnabled
    {
      kind, resultType, this.rank := Kind.Lambda, ty, rank;
      state, continuations, prevTask, errorString := NotStarted, [], null, "";
      result, action, actionWithPrev := DefaultValue(ty), None, None;
      autoFinishEnabled := true;
    }

    /** LambdaTask(const Action&). */
    constructor WithAction(ty: ResultType, a: Action, ghost rank: nat)
      ensures kind == Kind.Lambda && resultType == ty && this.rank == rank
      ensures state == NotStarted && continuations == [] && prevTask == null
      ensures errorString == "" && result == DefaultValue(ty)
      ensures action == Some(a) && actionWithPrev == None && autoFinishEnabled
    {
      kind, resultType, this.rank := Kind.Lambda, ty, rank;
      state, continuations, prevTask, errorString := NotStarted, [], null, "";
      result, action, actionWithPrev := DefaultValue(ty), Some(a), None;
      autoFinishEnabled := true;
    }

    /** LambdaTask(const ActionWithPrevTask&). */
    constructor WithPrevAction(ty: ResultType, p: PrevAction, ghost rank: nat)
      ensures kind == Kind.Lambda && resultType == ty && this.rank == rank
      ensures state == NotStarted && continuations == [] && prevTask == null
      ensures errorString == "" && result == DefaultValue(ty)
      ensures action == None && actionWithPrev == Some(p) && autoFinishEnabled
    {
      kind, resultType, this.rank := Kind.Lambda, ty, rank;
      state, continuations, prevTask, errorString := NotStarted, [], null, "";
      result, action, actionWithPrev := DefaultValue(ty), None, Some(p);
      autoFinishEnabled := true;
    }

    predicate IsFinished()
      reads this
    {
      state == Finished || state == State.Error
    }

    predicate HasError()
      reads this
      ensures HasError() ==> IsFinished()
    {
      state == State.Error
    }

    method SetResult(v: Value)
      requires resultType != VoidResult
      modifies this
      ensures result == v
      ensures View() == old(View()).(result := v)
    {
      result := v;
    }

    method SetAction(a: Action)
      modifies this`action
      ensures action == Some(a)
    {
      action := Some(a);
    }

    method SetAutoFinishEnabled(b: bool)
      modifies this`autoFinishEnabled
      ensures autoFinishEnabled == b
    {
      autoFinishEnabled := b;
    }

    /** Task::continueWith(const TaskPtr&): append and hand the task back. */
    method ContinueWith(t: Task) returns (r: Task)
      requires t.rank < rank
      modifies this`continuations
      ensures continuations == old(continuations) + [t]
      ensures r == t
    {
      continuations := continuations + [t];
      r := t;
    }

    /** continueWith(std::function<T()>) (and Task::create underneath it). */
    method ContinueWithAction(ty: ResultType, a: Action, ghost r: nat) returns (c: Task)
      requires r < rank
      modifies this`continuations
      ensures fresh(c) && c.kind == Kind.Lambda && c.resultType == ty && c.rank == r
      ensures c.View() == TaskView(NotStarted, [], null, "", DefaultValue(ty), Some(a), None, true)
      ensures continuations == old(continuations) + [c]
    {
      c := new Task.WithAction(ty, a, r);
      c := ContinueWith(c);
    }

    /** continueWith(std::function<T(TaskPtr)>). */
    method ContinueWithPrevAction(ty: ResultType, p: PrevAction, ghost r: nat) returns (c: Task)
      requires r < rank
      modifies this`continuations
      ensures fresh(c) && c.kind == Kind.Lambda && c.resultType == ty && c.rank == r
      ensures c.View() == TaskView(NotStarted, [], null, "", DefaultValue(ty), None, Some(p), true)
      ensures continuations == old(continuations) + [c]
    {
      c := new Task.WithPrevAction(ty, p, r);
      c := ContinueWith(c);
    }

    /** Task::continueWhenAll: a fresh counter; for each input in turn, a
        fresh closure task (a void LambdaTask) holding a copy of the counter
        is appended to that input's list; the target is handed back. Nothing
        is started. The function's own local copy of the counter is gone by
        the time any closure can run, so it is not counted. */
    static method ContinueWhenAll(tasks: seq<Task>, target: Task, ghost r: nat)
      returns (res: Task, k: JoinCounter, ghost closures: seq<Task>)
      requires target.rank < r && forall t | t in tasks :: r < t.rank
      modifies set t | t in tasks
      ensures res == target
      ensures fresh(k) && k.holders == |tasks| && |closures| == |tasks|
      ensures forall i | 0 <= i < |tasks| ::
        && fresh(closures[i]) && closures[i].kind == Kind.Lambda && closures[i].resultType == VoidResult && closures[i].rank == r
        && closures[i].View() == TaskView(NotStarted, [], null, "", NoValue, Some(JoinStep(k, target)), None, true)
      ensures forall i, i' | 0 <= i < i' < |tasks| :: closures[i] != closures[i']
      ensures forall t | t in tasks :: t.continuations == old(t.continuations) + ClosuresOf(tasks, closures, t)
      ensures forall t | t in tasks :: t.View() == old(t.View()).(continuations := t.continuations)
    {
      k := new JoinCounter();
      ghost var before := map t | t in tasks :: t.View();
      assert forall t | t in tasks :: before[t] == old(t.View());
      closures := [];
      var i := 0;
      while i < |tasks|
        invariant 0 <= i <= |tasks| && |closures| == i
        invariant fresh(k) && k.holders == i
        invariant JoinClosures(closures, k, target, r) && JoinRegistered(tasks, before, closures)
      {
        var c := AddClosure(tasks, target, r, k, closures, i, before);
        closures := closures + [c];
        i := i + 1;
      }
      JoinRegisteredAll(tasks, before, closures);
      res := target;
    }

    /** The body of that loop: the closure for input `i`, which holds a
        copy of the counter. */
    static method AddClosure(tasks: seq<Task>, target: Task, ghost r: nat, k: JoinCounter, ghost closures: seq<Task>, i: nat, ghost before: map<Task, TaskView>)
      returns (c: Task)
      requires i < |tasks| && |closures| == i && r < tasks[i].rank
      requires forall m | 0 <= m < i :: closures[m] !in tasks
      requires JoinClosures(closures, k, target, r) && JoinRegistered(tasks, before, closures)
      modifies tasks[i], k
      ensures fresh(c) && k.holders == old(k.holders) + 1
      ensures JoinClosures(closures + [c], k, target, r) && JoinRegistered(tasks, before, closures + [c])
    {
      c := tasks[i].ContinueWithAction(VoidResult, JoinStep(k, target), r);
      k.holders := k.holders + 1;
      assert forall m | 0 <= m < i :: closures[m] != tasks[i] && closures[m].View() == old(closures[m].View());
      assert JoinClosures(closures + [c], k, target, r);
      forall t | t in tasks
        ensures t.View() == before[t].(continuations := before[t].continuations + ClosuresOf(tasks[..i + 1], closures + [c], t))
      {
        ClosuresOfStep(tasks, closures, c, t, i);
        assert old(t.View()) == before[t].(continuations := before[t].continuations + ClosuresOf(tasks[..i], closures, t));
        if t != tasks[i] {
          assert t.View() == old(t.View());
        }
      }
    }

    /** Task::create: a lambda task that has not run its callable. */
    static method Create(ty: ResultType, a: Action, ghost r: nat) returns (t: Task)
      ensures fresh(t) && t.kind == Kind.Lambda && t.resultType == ty && t.rank == r
      ensures t.View() == TaskView(NotStarted, [], null, "", DefaultValue(ty), Some(a), None, true)
    {
      t := new Task.WithAction(ty, a, r);
    }

    /** Task::run: start, then hand back the task itself. */
    method Run(ghost ts: set<Task>, ghost ks: set<JoinCounter>) returns (r: Task, ghost launch: Launch)
      requires this in ts && WorldOK(Snap(ts, ks))
      modifies ts, ks
      ensures r == this
      ensures Snap(ts, ks) == StartS(old(Snap(ts, ks)), this).world
      ensures [launch] == StartS(old(Snap(ts, ks)), this).launches
    {
      launch := Start(ts, ks);
      r := this;
    }

    /** start(): LambdaTask::start, or nothing for a manual task. */
    method Start(ghost ts: set<Task>, ghost ks: set<JoinCounter>) returns (ghost launch: Launch)
      requires this in ts && WorldOK(Snap(ts, ks))
      modifies ts, ks
      ensures Snap(ts, ks) == StartS(old(Snap(ts, ks)), this).world
      ensures [launch] == StartS(old(Snap(ts, ks)), this).launches
      decreases rank, 4
    {
      ghost var w0 := Snap(ts, ks);
      ghost var prev := prevTask;
      assert ViewOK(w0, this, w0.tasks[this]);
      ghost var seen := PrevIn(w0, prev);
      if kind == Kind.Manual {
        launch := Launch(this, prev, seen, []);
        return;
      }
      var failure, nested := RunAction(ts, ks);
      ghost var a := RunActionS(w0, this);
      assert Snap(ts, ks) == a.world;
      ghost var more: seq<Launch> := [];
      if failure.Some? {
        more := Error(failure.value, ts, ks);
      } else if autoFinishEnabled {
        more := Finish(ts, ks);
      }
      launch := Launch(this, prev, seen, nested + more);
    }

    /** The callable part of LambdaTask::start: `action_` if present, else
        `actionWithPrevTask_` applied to prevTask(). */
    method RunAction(ghost ts: set<Task>, ghost ks: set<JoinCounter>)
      returns (failure: Option<string>, ghost launches: seq<Launch>)
      requires this in ts && WorldOK(Snap(ts, ks))
      modifies ts, ks
      ensures Snap(ts, ks) == RunActionS(old(Snap(ts, ks)), this).world
      ensures launches == RunActionS(old(Snap(ts, ks)), this).launches
      ensures failure == RunActionS(old(Snap(ts, ks)), this).failure
      decreases rank, 3
    {
      ghost var w0 := Snap(ts, ks);
      assert ViewOK(w0, this, w0.tasks[this]);
      launches := [];
      if action.Some? {
        match action.value
        case Produce(o) =>
          failure := ExecAction(o, ts, ks);
        case FinishTask(u) =>
          assert ActionOK(w0, this, action.value);
          launches := u.Finish(ts, ks);
          failure := None;
        case JoinStep(k, target) =>
          assert ActionOK(w0, this, action.value);
          // The body runs on execAction's by-value copy of the closure, whose
          // copy of the counter counts towards unique() as well.
          var useCount := k.holders + ExecActionCopies;
          if useCount == 1 {
            var l := target.Start(ts, ks);
            launches := [l];
          }
          failure := None;
      } else if actionWithPrev.Some? {
        PrevViewAgrees(prevTask, ts, ks);
        var o := actionWithPrev.value.f(PrevViewOf(prevTask));
        failure := ExecAction(o, ts, ks);
      } else {
        failure := None;
      }
    }

    /** What the predecessor-aware callable is handed, read from the heap. */
    static function PrevViewOf(p: Task?): (r: PrevView)
      reads p
      ensures r.Prev? <==> p != null
    {
      if p == null then NoPrev else Prev(p.state, p.result, p.errorString)
    }

    /** It is what PrevIn reads from the snapshot. */
    static lemma PrevViewAgrees(p: Task?, ts: set<Task>, ks: set<JoinCounter>)
      requires p != null ==> p in ts
      ensures PrevViewOf(p) == PrevIn(Snap(ts, ks), p)
    {
    }

    /** Details::execAction: store a returned value via setResult (not for
        void tasks); report a thrown exception instead. */
    method ExecAction(o: Outcome, ghost ts: set<Task>, ghost ks: set<JoinCounter>) returns (failure: Option<string>)
      requires this in ts && WorldOK(Snap(ts, ks))
      modifies this
      ensures Snap(ts, ks) == ExecActionS(old(Snap(ts, ks)), this, o).world
      ensures failure == ExecActionS(old(Snap(ts, ks)), this, o).failure
    {
      if o.Threw? {
        failure := Some(o.message);
      } else {
        failure := None;
        if resultType != VoidResult {
          SetResult(o.value);
        }
      }
      SnapTask(ts, ks, this);
    }

    /** Task::finish. */
    method Finish(ghost ts: set<Task>, ghost ks: set<JoinCounter>) returns (ghost launches: seq<Launch>)
      requires this in ts && WorldOK(Snap(ts, ks))
      modifies ts, ks
      ensures Snap(ts, ks) == FinishS(old(Snap(ts, ks)), this).world
      ensures launches == FinishS(old(Snap(ts, ks)), this).launches
      decreases rank, 2
    {
      ghost var w0 := Snap(ts, ks);
      assert ViewOK(w0, this, w0.tasks[this]);
      label L:
      state := Finished;
      SnapTask@L(ts, ks, this);
      launches := ExecContinuations(ts, ks);
    }

    /** Task::error. */
    method Error(msg: string, ghost ts: set<Task>, ghost ks: set<JoinCounter>) returns (ghost launches: seq<Launch>)
      requires this in ts && WorldOK(Snap(ts, ks))
      modifies ts, ks
      ensures Snap(ts, ks) == ErrorS(old(Snap(ts, ks)), this, msg).world
      ensures launches == ErrorS(old(Snap(ts, ks)), this, msg).launches
      decreases rank, 2
    {
      ghost var w0 := Snap(ts, ks);
      assert ViewOK(w0, this, w0.tasks[this]);
      label L:
      state, errorString := State.Error, msg;
      SnapTask@L(ts, ks, this);
      launches := ExecContinuations(ts, ks);
    }

    /** Task::execContinuations: start the continuations, then clear the
        list (which drops the join closures' copies of their counters). */
    method ExecContinuations(ghost ts: set<Task>, ghost ks: set<JoinCounter>) returns (ghost launches: seq<Launch>)
      requires this in ts && WorldOK(Snap(ts, ks))
      modifies ts, ks
      ensures Snap(ts, ks) == DispatchS(old(Snap(ts, ks)), this).world
      ensures launches == DispatchS(old(Snap(ts, ks)), this).launches
      decreases rank, 1
    {
      ghost var w0 := Snap(ts, ks);
      var cs := continuations;
      assert ViewOK(w0, this, w0.tasks[this]);
      launches := StartEach(cs, ts, ks);
      ClearContinuations(ts, ks);
      ReleaseEach(cs, ts, ks);
    }

    /** `continuations_.clear()`, before the removed entries are destroyed. */
    method ClearContinuations(ghost ts: set<Task>, ghost ks: set<JoinCounter>)
      requires this in ts && WorldOK(Snap(ts, ks))
      modifies this`continuations
      ensures Snap(ts, ks) == WithView(old(Snap(ts, ks)), this, old(Snap(ts, ks)).tasks[this].(continuations := []))
      ensures WorldOK(Snap(ts, ks))
    {
      ghost var w := Snap(ts, ks);
      assert ViewOK(w, this, w.tasks[this]);
      assert ViewOK(w, this, w.tasks[this].(continuations := []));
      label M:
      continuations := [];
      SnapTask@M(ts, ks, this);
    }

    /** The loop of execContinuations: each continuation gets this task as
        its prevTask and is started, in list order. */
    method StartEach(cs: seq<Task>, ghost ts: set<Task>, ghost ks: set<JoinCounter>) returns (ghost launches: seq<Launch>)
      requires this in ts && WorldOK(Snap(ts, ks))
      requires forall c {:trigger c in cs} | c in cs :: c in ts && c.rank < rank
      modifies ts, ks
      ensures Snap(ts, ks) == DispatchFrom(old(Snap(ts, ks)), this, cs, 0).world
      ensures launches == DispatchFrom(old(Snap(ts, ks)), this, cs, 0).launches
      decreases rank, 0, 2
    {
      ghost var d := DispatchFrom(Snap(ts, ks), this, cs, 0);
      DispatchAtFirst(Snap(ts, ks), this, cs);
      launches := [];
      var i := 0;
      while i < |cs|
        invariant 0 <= i <= |cs|
        invariant DispatchAt(d, Snap(ts, ks), this, cs, i, launches)
      {
        var l := StartNext(cs, i, d, launches, ts, ks);
        launches := launches + [l];
        i := i + 1;
      }
      DispatchAtLast(d, Snap(ts, ks), this, cs, launches);
    }

    /** The body of that loop, for position `i`. */
    method StartNext(cs: seq<Task>, i: nat, ghost d: Effect, ghost acc: seq<Launch>, ghost ts: set<Task>, ghost ks: set<JoinCounter>)
      returns (ghost l: Launch)
      requires this in ts && i < |cs| && DispatchAt(d, Snap(ts, ks), this, cs, i, acc)
      modifies ts, ks
      ensures DispatchAt(d, Snap(ts, ks), this, cs, i + 1, acc + [l])
      decreases rank, 0, 1
    {
      ghost var w := Snap(ts, ks);
      assert cs[i] in cs;
      l := StartContinuation(cs[i], ts, ks);
      DispatchStep(w, Snap(ts, ks), this, cs, i, l, acc, d);
    }

    /** One step of that loop: `c` gets this task as its prevTask and is started. */
    method StartContinuation(c: Task, ghost ts: set<Task>, ghost ks: set<JoinCounter>) returns (ghost launch: Launch)
      requires this in ts && c in ts && c.rank < rank && WorldOK(Snap(ts, ks))
      modifies ts, ks
      ensures Snap(ts, ks) == StartS(WithPrev(old(Snap(ts, ks)), c, this), c).world
      ensures [launch] == StartS(WithPrev(old(Snap(ts, ks)), c, this), c).launches
      decreases rank, 0, 0
    {
      ghost var w := Snap(ts, ks);
      assert ViewOK(w, c, w.tasks[c]);
      label L:
      c.prevTask := this;
      SnapTask@L(ts, ks, c);
      assert Snap(ts, ks) == WithPrev(w, c, this);
      launch := c.Start(ts, ks);
    }

    /** Destroying the cleared list: every join closure in `cs` gives up its
        copy of its counter. */
    method ReleaseEach(cs: seq<Task>, ghost ts: set<Task>, ghost ks: set<JoinCounter>)
      requires WorldOK(Snap(ts, ks)) && forall c {:trigger c in cs} | c in cs :: c in ts
      modifies ks
      ensures Snap(ts, ks) == old(Snap(ts, ks)).(holders := Release(old(Snap(ts, ks)).tasks, old(Snap(ts, ks)).holders, cs, 0))
    {
      ghost var tasks := Snap(ts, ks).tasks;
      ghost var r := Release(tasks, Snap(ts, ks).holders, cs, 0);
      var j := 0;
      while j < |cs|
        invariant 0 <= j <= |cs|
        invariant WorldOK(Snap(ts, ks)) && Snap(ts, ks).tasks == tasks
        invariant r == Release(tasks, Snap(ts, ks).holders, cs, j)
      {
        assert cs[j] in cs;
        DropEntry(cs[j], ts, ks);
        j := j + 1;
      }
    }

    /** Destroying one entry: a join closure's copy of the counter goes away. */
    static method DropEntry(c: Task, ghost ts: set<Task>, ghost ks: set<JoinCounter>)
      requires c in ts && WorldOK(Snap(ts, ks))
      modifies ks
      ensures Snap(ts, ks) == old(Snap(ts, ks)).(holders := ReleaseOne(old(Snap(ts, ks)).tasks, old(Snap(ts, ks)).holders, c))
      ensures WorldOK(Snap(ts, ks))
    {
      ghost var w := Snap(ts, ks);
      assert ViewOK(w, c, w.tasks[c]);
      if c.action.Some? && c.action.value.JoinStep? {
        var k := c.action.value.counter;
        label N:
        k.holders := k.holders - 1;
        SnapCounter@N(ts, ks, k);
      }
      HoldersOK(w, ReleaseOne(w.tasks, w.holders, c));
    }
  }
}
