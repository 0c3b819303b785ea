/**
 * What a start, finish, error or dispatch does to the snapshot, proved once
 * for all worlds:
 *  - a cascade rooted at task `t` changes no other task whose rank is at
 *    least `t`'s, and every task it starts ranks below `t`;
 *  - finish() and error() leave `t` itself finished (resp. in error) with an
 *    empty continuation list;
 *  - execContinuations starts exactly the listed continuations, in list order,
 *    each with `t` as its predecessor;
 *  - the lambda-task outcomes: a returned value is stored, an exception moves
 *    the task to Error with its message, auto-finish off leaves the state
 *    alone, a manual task's start does nothing, a second finish is silent.
 */
module CascadeFacts {
  import opened AsyncTask

  /** Every task of `Started(ls)` ranks below `r`. */
  ghost predicate StartsBelow(ls: seq<Launch>, r: nat)
  {
    forall x {:trigger x in Started(ls)} | x in Started(ls) :: x.rank < r
  }

  lemma StartsBelowConcat(a: seq<Launch>, b: seq<Launch>, r: nat)
    requires StartsBelow(a, r) && StartsBelow(b, r)
    ensures StartsBelow(a + b, r)
  {
    StartedConcat(a, b);
    forall x | x in Started(a + b) ensures x.rank < r {
      assert x in Started(a) || x in Started(b);
    }
  }

  lemma StartsBelowSingle(l: Launch, r: nat)
    requires l.task.rank < r && StartsBelow(l.nested, l.task.rank)
    ensures StartsBelow([l], r)
  {
    assert [l][1..] == [];
    assert Started([l]) == [l.task] + Started(l.nested) + Started([]);
  }

  lemma StartsBelowWeaken(ls: seq<Launch>, r: nat, r': nat)
    requires StartsBelow(ls, r) && r <= r'
    ensures StartsBelow(ls, r')
  {
  }

  // ---------------------------------------------------------------------
  // Frames: a cascade stays below the task it starts from
  // ---------------------------------------------------------------------

  /** start() of `t` changes no other task of rank at least `t`'s, and starts
      only tasks ranked below `t`. */
  lemma {:induction false} StartFrame(w: World, t: Task)
    requires WorldOK(w) && t in w.tasks
    ensures OthersUnchanged(w, StartS(w, t).world, t)
    ensures StartsBelow(StartS(w, t).launches[0].nested, t.rank)
    decreases t.rank, 4
  {
    if t.kind != Manual {
      var a := RunActionS(w, t);
      RunActionFrame(w, t);
      if a.failure.Some? {
        ErrorFrame(a.world, t, a.failure.value);
        StartsBelowConcat(a.launches, ErrorS(a.world, t, a.failure.value).launches, t.rank);
      } else if a.world.tasks[t].autoFinish {
        FinishFrame(a.world, t);
        StartsBelowConcat(a.launches, FinishS(a.world, t).launches, t.rank);
      } else {
        assert a.launches + [] == a.launches;
      }
    }
  }

  /** Running the callable of `t` changes no other task of rank at least
      `t`'s, and starts only tasks ranked below `t`. */
  lemma {:induction false} RunActionFrame(w: World, t: Task)
    requires WorldOK(w) && t in w.tasks
    ensures OthersUnchanged(w, RunActionS(w, t).world, t)
    ensures StartsBelow(RunActionS(w, t).launches, t.rank)
    decreases t.rank, 3
  {
    var v := w.tasks[t];
    if v.action.Some? {
      assert ViewOK(w, t, v);
      match v.action.value
      case Produce(o) =>
      case FinishTask(u) =>
        FinishFrame(w, u);
        StartsBelowWeaken(FinishS(w, u).launches, u.rank, t.rank);
      case JoinStep(k, target) =>
        if UseCount(w, k) == 1 {
          StartFrame(w, target);
          StartsBelowSingle(StartS(w, target).launches[0], t.rank);
        }
    }
  }

  /** finish(): `t` ends Finished with no continuations left; nothing else of
      rank at least `t`'s changes; only lower tasks are started. */
  lemma {:induction false} FinishFrame(w: World, t: Task)
    requires WorldOK(w) && t in w.tasks
    ensures FinishS(w, t).world.tasks[t] == w.tasks[t].(state := Finished, continuations := [])
    ensures OthersUnchanged(w, FinishS(w, t).world, t)
    ensures StartsBelow(FinishS(w, t).launches, t.rank)
    decreases t.rank, 2
  {
    assert ViewOK(w, t, w.tasks[t]);
    DispatchFrame(WithView(w, t, w.tasks[t].(state := Finished)), t);
  }

  /** error(msg): `t` ends in Error carrying `msg`, with no continuations
      left; nothing else of rank at least `t`'s changes. */
  lemma {:induction false} ErrorFrame(w: World, t: Task, msg: string)
    requires WorldOK(w) && t in w.tasks
    ensures ErrorS(w, t, msg).world.tasks[t] == w.tasks[t].(state := Error, errorString := msg, continuations := [])
    ensures OthersUnchanged(w, ErrorS(w, t, msg).world, t)
    ensures StartsBelow(ErrorS(w, t, msg).launches, t.rank)
    decreases t.rank, 2
  {
    assert ViewOK(w, t, w.tasks[t]);
    DispatchFrame(WithView(w, t, w.tasks[t].(state := Error, errorString := msg)), t);
  }

  /** execContinuations: only the list of `t` changes among the tasks of
      rank at least `t`'s, and it ends empty. */
  lemma {:induction false} DispatchFrame(w: World, t: Task)
    requires WorldOK(w) && t in w.tasks
    ensures DispatchS(w, t).world.tasks[t] == w.tasks[t].(continuations := [])
    ensures OthersUnchanged(w, DispatchS(w, t).world, t)
    ensures StartsBelow(DispatchS(w, t).launches, t.rank)
    decreases t.rank, 1
  {
    assert ViewOK(w, t, w.tasks[t]);
    DispatchFromFrame(w, t, w.tasks[t].continuations, 0);
  }

  lemma {:induction false} DispatchFromFrame(w: World, t: Task, cs: seq<Task>, i: nat)
    requires WorldOK(w) && t in w.tasks && i <= |cs|
    requires forall c {:trigger c in cs} | c in cs :: c in w.tasks && c.rank < t.rank
    ensures AboveUnchanged(w, DispatchFrom(w, t, cs, i).world, t.rank)
    ensures StartsBelow(DispatchFrom(w, t, cs, i).launches, t.rank)
    decreases t.rank, 0, |cs| - i
  {
    if i < |cs| {
      var c := cs[i];
      assert c in cs;
      var w1 := WithPrev(w, c, t);
      var e := StartS(w1, c);
      StartFrame(w1, c);
      DispatchFromFrame(e.world, t, cs, i + 1);
      AboveUnchangedStep(w, w1, e.world, DispatchFrom(e.world, t, cs, i + 1).world, c, t.rank);
      StartsBelowSingle(e.launches[0], t.rank);
      assert e.launches == [e.launches[0]];
      StartsBelowConcat(e.launches, DispatchFrom(e.world, t, cs, i + 1).launches, t.rank);
    }
  }

  lemma AboveUnchangedStep(w: World, w1: World, w2: World, w3: World, c: Task, r: nat)
    requires SameDomain(w, w1) && SameDomain(w1, w2) && SameDomain(w2, w3)
    requires c.rank < r && forall u {:trigger w1.tasks[u]} | u in w.tasks && u != c :: w1.tasks[u] == w.tasks[u]
    requires OthersUnchanged(w1, w2, c) && AboveUnchanged(w2, w3, r)
    ensures AboveUnchanged(w, w3, r)
  {
    forall u | u in w.tasks && r <= u.rank ensures w3.tasks[u] == w.tasks[u] {
      assert w2.tasks[u] == w1.tasks[u];
    }
  }

  // ---------------------------------------------------------------------
  // Dispatch order
  // ---------------------------------------------------------------------

  /** The loop of execContinuations starts `cs[i..]` in order, each with `t`
      as its predecessor. */
  lemma {:induction false} DispatchFromOrder(w: World, t: Task, cs: seq<Task>, i: nat)
    requires WorldOK(w) && t in w.tasks && i <= |cs|
    requires forall c {:trigger c in cs} | c in cs :: c in w.tasks && c.rank < t.rank
    ensures |DispatchFrom(w, t, cs, i).launches| == |cs| - i
    ensures forall j | 0 <= j < |cs| - i ::
      DispatchFrom(w, t, cs, i).launches[j].task == cs[i + j] && DispatchFrom(w, t, cs, i).launches[j].prev == t
    decreases |cs| - i
  {
    if i < |cs| {
      var c := cs[i];
      assert c in cs;
      var w1 := WithPrev(w, c, t);
      var e := StartS(w1, c);
      var rest := DispatchFrom(e.world, t, cs, i + 1);
      DispatchFromOrder(e.world, t, cs, i + 1);
      LaunchesCons(e.launches, rest.launches, t, cs, i);
    }
  }

  lemma LaunchesCons(e: seq<Launch>, rest: seq<Launch>, t: Task, cs: seq<Task>, i: nat)
    requires i < |cs| && |e| == 1 && e[0].task == cs[i] && e[0].prev == t
    requires |rest| == |cs| - (i + 1)
    requires forall j | 0 <= j < |cs| - (i + 1) :: rest[j].task == cs[i + 1 + j] && rest[j].prev == t
    ensures forall j | 0 <= j < |cs| - i :: (e + rest)[j].task == cs[i + j] && (e + rest)[j].prev == t
  {
    forall j | 0 <= j < |cs| - i ensures (e + rest)[j].task == cs[i + j] && (e + rest)[j].prev == t {
      if j > 0 {
        assert (e + rest)[j] == rest[j - 1];
      }
    }
  }

  /** `l` starts `cs` in list order, each with `t` as its predecessor. */
  predicate StartsInOrder(l: seq<Launch>, cs: seq<Task>, t: Task)
  {
    |l| == |cs| && forall j | 0 <= j < |cs| :: l[j].task == cs[j] && l[j].prev == t
  }

  /** execContinuations starts exactly the continuation list, in list order,
      and hands each continuation `t` as its prevTask. */
  lemma DispatchOrder(w: World, t: Task)
    requires WorldOK(w) && t in w.tasks
    ensures StartsInOrder(DispatchS(w, t).launches, w.tasks[t].continuations, t)
  {
    var cs := w.tasks[t].continuations;
    DispatchLaunches(w, t);
    DispatchFromOrder(w, t, cs, 0);
    assert StartsInOrder(DispatchFrom(w, t, cs, 0).launches, cs, t);
  }

  /** The starts of execContinuations are those of its loop. */
  lemma DispatchLaunches(w: World, t: Task)
    requires WorldOK(w) && t in w.tasks
    ensures var cs := w.tasks[t].continuations;
      (forall c {:trigger c in cs} | c in cs :: c in w.tasks && c.rank < t.rank) &&
      DispatchS(w, t).launches == DispatchFrom(w, t, cs, 0).launches
  {
    assert ViewOK(w, t, w.tasks[t]);
  }

  /** finish() and error() start the continuations the same way. */
  lemma FinishOrder(w: World, t: Task)
    requires WorldOK(w) && t in w.tasks
    ensures |FinishS(w, t).launches| == |w.tasks[t].continuations|
    ensures forall j | 0 <= j < |w.tasks[t].continuations| ::
      FinishS(w, t).launches[j].task == w.tasks[t].continuations[j] && FinishS(w, t).launches[j].prev == t
  {
    assert ViewOK(w, t, w.tasks[t]);
    DispatchOrder(WithView(w, t, w.tasks[t].(state := Finished)), t);
  }

  lemma ErrorOrder(w: World, t: Task, msg: string)
    requires WorldOK(w) && t in w.tasks
    ensures |ErrorS(w, t, msg).launches| == |w.tasks[t].continuations|
    ensures forall j | 0 <= j < |w.tasks[t].continuations| ::
      ErrorS(w, t, msg).launches[j].task == w.tasks[t].continuations[j] && ErrorS(w, t, msg).launches[j].prev == t
  {
    assert ViewOK(w, t, w.tasks[t]);
    DispatchOrder(WithView(w, t, w.tasks[t].(state := Error, errorString := msg)), t);
  }

  /** Every continuation started by the loop sees `t` as it was before the
      loop: the earlier continuations only touch tasks ranked below `t`. */
  lemma {:induction false} DispatchFromSeen(w: World, t: Task, cs: seq<Task>, i: nat)
    requires WorldOK(w) && t in w.tasks && i <= |cs|
    requires forall c {:trigger c in cs} | c in cs :: c in w.tasks && c.rank < t.rank
    ensures forall j | 0 <= j < |DispatchFrom(w, t, cs, i).launches| :: DispatchFrom(w, t, cs, i).launches[j].seen == PrevIn(w, t)
    decreases |cs| - i
  {
    if i < |cs| {
      var c := cs[i];
      assert c in cs;
      var w1 := WithPrev(w, c, t);
      var e := StartS(w1, c);
      StartFrame(w1, c);
      assert e.world.tasks[t] == w.tasks[t];
      var rest := DispatchFrom(e.world, t, cs, i + 1);
      DispatchFromSeen(e.world, t, cs, i + 1);
      forall j | 0 <= j < |e.launches + rest.launches| ensures (e.launches + rest.launches)[j].seen == PrevIn(w, t) {
        if j > 0 {
          assert (e.launches + rest.launches)[j] == rest.launches[j - 1];
        }
      }
    }
  }

  /** A continuation started by finish() sees its predecessor Finished, with
      the predecessor's result and error string. */
  lemma FinishSeen(w: World, t: Task)
    requires WorldOK(w) && t in w.tasks
    ensures forall j | 0 <= j < |FinishS(w, t).launches| ::
      FinishS(w, t).launches[j].seen == Prev(Finished, w.tasks[t].result, w.tasks[t].errorString)
  {
    assert ViewOK(w, t, w.tasks[t]);
    var w1 := WithView(w, t, w.tasks[t].(state := Finished));
    var cs := w1.tasks[t].continuations;
    assert ViewOK(w1, t, w1.tasks[t]);
    assert FinishS(w, t).launches == DispatchFrom(w1, t, cs, 0).launches;
    DispatchFromSeen(w1, t, cs, 0);
  }

  /** A continuation started by error(msg) sees its predecessor in Error,
      carrying `msg`. */
  lemma ErrorSeen(w: World, t: Task, msg: string)
    requires WorldOK(w) && t in w.tasks
    ensures forall j | 0 <= j < |ErrorS(w, t, msg).launches| ::
      ErrorS(w, t, msg).launches[j].seen == Prev(Error, w.tasks[t].result, msg)
  {
    assert ViewOK(w, t, w.tasks[t]);
    var w1 := WithView(w, t, w.tasks[t].(state := Error, errorString := msg));
    var cs := w1.tasks[t].continuations;
    assert ViewOK(w1, t, w1.tasks[t]);
    assert ErrorS(w, t, msg).launches == DispatchFrom(w1, t, cs, 0).launches;
    DispatchFromSeen(w1, t, cs, 0);
  }

  /** Dispatching a one-entry list: start that entry, then clear the list,
      which drops the entry's copy of its counter if it is a closure. */
  lemma DispatchSingle(x: World, u: Task, c: Task)
    requires WorldOK(x) && u in x.tasks && x.tasks[u].continuations == [c]
    ensures c in x.tasks && c.rank < u.rank
    ensures var e := StartS(WithPrev(x, c, u), c);
      && DispatchS(x, u).launches == e.launches
      && u in e.world.tasks && c in e.world.tasks
      && DispatchS(x, u).world == WithView(e.world, u, e.world.tasks[u].(continuations := [])).(holders := ReleaseOne(e.world.tasks, e.world.holders, c))
  {
    assert ViewOK(x, u, x.tasks[u]);
    assert c in x.tasks[u].continuations;
    var e := StartS(WithPrev(x, c, u), c);
    assert e.launches + [] == e.launches;
    assert DispatchFrom(x, u, [c], 0) == Effect(e.world, e.launches);
    var cleared := WithView(e.world, u, e.world.tasks[u].(continuations := []));
    assert cleared.tasks[c] == e.world.tasks[c];
    assert ReleaseOne(cleared.tasks, e.world.holders, c) == ReleaseOne(e.world.tasks, e.world.holders, c);
    assert Release(cleared.tasks, e.world.holders, [c], 0) == ReleaseOne(e.world.tasks, e.world.holders, c);
  }

  // ---------------------------------------------------------------------
  // LambdaTask::start, case by case
  // ---------------------------------------------------------------------

  /** Whether the plain callable of `v`, if any, only computes. */
  predicate PureCallable(v: TaskView)
  {
    v.action.None? || v.action.value.Produce?
  }

  /** What the callable of a lambda task with fields `v` yields when its
      predecessor looks like `p`: the plain action wins when both are
      present; `None` when there is no callable at all. */
  ghost function ViewOutcome(v: TaskView, p: PrevView): Option<Outcome>
    requires PureCallable(v)
  {
    if v.action.Some? then Some(v.action.value.outcome)
    else if v.actionWithPrev.Some? then Some(v.actionWithPrev.value.f(p))
    else None
  }

  /** The same, with the predecessor read from the snapshot. */
  ghost function CallOutcome(w: World, t: Task): Option<Outcome>
    requires WorldOK(w) && t in w.tasks && PureCallable(w.tasks[t])
  {
    assert ViewOK(w, t, w.tasks[t]);
    ViewOutcome(w.tasks[t], PrevIn(w, w.tasks[t].prevTask))
  }

  /** Reference definition of a lambda task's own fields after start(),
      given what its callable did. */
  function AfterStart(v: TaskView, ty: ResultType, o: Option<Outcome>): TaskView
  {
    if o.Some? && o.value.Threw? then v.(state := Error, errorString := o.value.message, continuations := [])
    else
      var stored := if o.Some? && ty != VoidResult then v.(result := o.value.value) else v;
      if v.autoFinish then stored.(state := Finished, continuations := []) else stored
  }

  /** Whether start() goes on to finish() or error(), and so dispatches. */
  predicate Completes(v: TaskView, o: Option<Outcome>)
  {
    (o.Some? && o.value.Threw?) || v.autoFinish
  }

  /** Running a callable that only computes: it starts nothing, stores a
      returned value unless the task is void, and reports a throw. */
  lemma PureRun(w: World, t: Task)
    requires WorldOK(w) && t in w.tasks
    requires PureCallable(w.tasks[t])
    ensures var a := RunActionS(w, t); var o := CallOutcome(w, t);
      && a.launches == []
      && a.failure == (if o.Some? && o.value.Threw? then Some(o.value.message) else None)
      && a.world == (if o.Some? && o.value.Returned? && t.resultType != VoidResult
                     then WithView(w, t, w.tasks[t].(result := o.value.value)) else w)
  {
    assert ViewOK(w, t, w.tasks[t]);
  }

  /** The end of start(): the task's own fields afterwards, and the
      continuations it starts if it completes. */
  lemma CompleteOutcome(w: World, t: Task, failure: Option<string>)
    requires WorldOK(w) && t in w.tasks
    ensures var f := CompleteS(w, t, failure); var v := w.tasks[t];
      var r := if failure.Some? then v.(state := Error, errorString := failure.value, continuations := [])
               else if v.autoFinish then v.(state := Finished, continuations := []) else v;
      && f.world.tasks[t] == r
      && |f.launches| == (if failure.Some? || v.autoFinish then |v.continuations| else 0)
      && forall j | 0 <= j < |f.launches| ::
           f.launches[j].task == v.continuations[j] && f.launches[j].prev == t && f.launches[j].seen == Prev(r.state, r.result, r.errorString)
  {
    if failure.Some? {
      ErrorFrame(w, t, failure.value);
      ErrorOrder(w, t, failure.value);
      ErrorSeen(w, t, failure.value);
    } else if w.tasks[t].autoFinish {
      FinishFrame(w, t);
      FinishOrder(w, t);
      FinishSeen(w, t);
    }
  }

  /** start() of a lambda task is the callable followed by the completion. */
  lemma LambdaStartSplit(w: World, t: Task)
    requires WorldOK(w) && t in w.tasks && t.kind == Lambda
    ensures var a := RunActionS(w, t); var f := CompleteS(a.world, t, a.failure);
      StartS(w, t).world == f.world && StartS(w, t).launches[0].nested == a.launches + f.launches
  {
  }

  /** start() of a lambda task whose callable only computes leaves its own
      fields as AfterStart says. */
  lemma LambdaStartFields(w: World, t: Task)
    requires WorldOK(w) && t in w.tasks && t.kind == Lambda
    requires PureCallable(w.tasks[t])
    ensures StartS(w, t).world.tasks[t] == AfterStart(w.tasks[t], t.resultType, CallOutcome(w, t))
  {
    var a := RunActionS(w, t);
    LambdaStartSplit(w, t);
    PureRun(w, t);
    CompleteOutcome(a.world, t, a.failure);
  }

  /** When it completes, start() of such a task starts exactly its
      continuations, in order, each with the task as predecessor and seeing
      the task's final state, result and error string; otherwise it starts
      nothing. */
  lemma LambdaStartDispatch(w: World, t: Task)
    requires WorldOK(w) && t in w.tasks && t.kind == Lambda
    requires PureCallable(w.tasks[t])
    ensures var v := w.tasks[t]; var o := CallOutcome(w, t);
      var n := StartS(w, t).launches[0].nested; var r := AfterStart(v, t.resultType, o);
      && |n| == (if Completes(v, o) then |v.continuations| else 0)
      && forall j | 0 <= j < |n| ::
           n[j].task == v.continuations[j] && n[j].prev == t && n[j].seen == Prev(r.state, r.result, r.errorString)
  {
    var a := RunActionS(w, t);
    LambdaStartSplit(w, t);
    PureRun(w, t);
    CompleteOutcome(a.world, t, a.failure);
    assert [] + CompleteS(a.world, t, a.failure).launches == CompleteS(a.world, t, a.failure).launches;
  }

  /** When start() completes, what follows the callable is one dispatch from
      the task marked Finished (or Error, with the message). */
  lemma CompleteIsDispatch(w: World, t: Task, failure: Option<string>)
    requires WorldOK(w) && t in w.tasks && (failure.Some? || w.tasks[t].autoFinish)
    ensures var v := w.tasks[t];
      var x := if failure.Some? then WithView(w, t, v.(state := Error, errorString := failure.value))
               else WithView(w, t, v.(state := Finished));
      WorldOK(x) && CompleteS(w, t, failure) == DispatchS(x, t)
  {
    assert ViewOK(w, t, w.tasks[t]);
  }

  /** Dispatching a one-entry list whose entry is a lambda task with a
      computing callable: the entry ends as AfterStart says for the
      predecessor view it is handed. */
  lemma DispatchSoleOutcome(x: World, t: Task, c: Task)
    requires WorldOK(x) && t in x.tasks && x.tasks[t].continuations == [c]
    requires c in x.tasks && c.kind == Lambda && PureCallable(x.tasks[c])
    ensures DispatchS(x, t).world.tasks[c] ==
      AfterStart(x.tasks[c].(prevTask := t), c.resultType, ViewOutcome(x.tasks[c], PrevIn(x, t)))
  {
    var x2 := WithPrev(x, c, t);
    DispatchSoleTask(x, t, c);
    LambdaStartFields(x2, c);
    SeenAfterWithPrev(x, t, c);
  }

  /** Dispatching a sole continuation leaves it as its own start() left it. */
  lemma DispatchSoleTask(x: World, t: Task, c: Task)
    requires WorldOK(x) && t in x.tasks && x.tasks[t].continuations == [c]
    ensures c in x.tasks && c.rank < t.rank
    ensures DispatchS(x, t).world.tasks[c] == StartS(WithPrev(x, c, t), c).world.tasks[c]
  {
    DispatchSingle(x, t, c);
  }

  /** Pointing `c` at `t` does not change what `c` sees of `t`. */
  lemma SeenAfterWithPrev(x: World, t: Task, c: Task)
    requires WorldOK(x) && t in x.tasks && c in x.tasks && c != t && PureCallable(x.tasks[c])
    ensures var x2 := WithPrev(x, c, t);
      x2.tasks[c] == x.tasks[c].(prevTask := t) && CallOutcome(x2, c) == ViewOutcome(x.tasks[c], PrevIn(x, t))
  {
    var x2 := WithPrev(x, c, t);
    assert x2.tasks[t] == x.tasks[t];
  }

  /** Result propagation along a continuation: when a lambda task with a
      computing callable completes and its only continuation `c` is another
      such task, `c` ends as AfterStart says for the predecessor view it was
      handed, the task's final state, result and error string. */
  lemma SoleContinuationOutcome(w: World, t: Task, c: Task)
    requires WorldOK(w) && t in w.tasks && t.kind == Lambda && PureCallable(w.tasks[t])
    requires Completes(w.tasks[t], CallOutcome(w, t)) && w.tasks[t].continuations == [c]
    requires c in w.tasks && c.kind == Lambda && PureCallable(w.tasks[c])
    ensures var r := AfterStart(w.tasks[t], t.resultType, CallOutcome(w, t));
      StartS(w, t).world.tasks[c] ==
        AfterStart(w.tasks[c].(prevTask := t), c.resultType, ViewOutcome(w.tasks[c], Prev(r.state, r.result, r.errorString)))
  {
    assert ViewOK(w, t, w.tasks[t]);
    assert c in w.tasks[t].continuations;
    var a := RunActionS(w, t);
    LambdaStartSplit(w, t);
    PureRun(w, t);
    LambdaStartFields(w, t);
    var y := a.world;
    assert y.tasks[c] == w.tasks[c] && y.tasks[t].continuations == [c];
    SoleCompletion(y, t, c, a.failure);
  }

  /** What a task's continuations see of it once it finished (no failure)
      or failed with a message. */
  function CompletedPrev(v: TaskView, failure: Option<string>): PrevView
  {
    if failure.Some? then Prev(Error, v.result, failure.value) else Prev(Finished, v.result, v.errorString)
  }

  /** The completion half of SoleContinuationOutcome: finish() or error() of
      a task whose only continuation is a lambda task with a computing
      callable. */
  lemma SoleCompletion(y: World, t: Task, c: Task, failure: Option<string>)
    requires WorldOK(y) && t in y.tasks && (failure.Some? || y.tasks[t].autoFinish) && y.tasks[t].continuations == [c]
    requires c in y.tasks && c.kind == Lambda && PureCallable(y.tasks[c])
    ensures CompleteS(y, t, failure).world.tasks[c] ==
      AfterStart(y.tasks[c].(prevTask := t), c.resultType, ViewOutcome(y.tasks[c], CompletedPrev(y.tasks[t], failure)))
  {
    assert ViewOK(y, t, y.tasks[t]);
    assert c in y.tasks[t].continuations;
    CompleteIsDispatch(y, t, failure);
    var v := y.tasks[t];
    var x := if failure.Some? then WithView(y, t, v.(state := Error, errorString := failure.value))
             else WithView(y, t, v.(state := Finished));
    assert x.tasks[c] == y.tasks[c] && x.tasks[t].continuations == [c];
    assert PrevIn(x, t) == CompletedPrev(v, failure);
    DispatchSoleOutcome(x, t, c);
  }

  // ---------------------------------------------------------------------
  // After completion
  // ---------------------------------------------------------------------

  /** Dispatching an empty list changes nothing and starts nothing. */
  lemma DispatchEmpty(w: World, t: Task)
    requires WorldOK(w) && t in w.tasks && w.tasks[t].continuations == []
    ensures DispatchS(w, t) == Effect(w, [])
  {
    assert ViewOK(w, t, w.tasks[t]);
    assert WithView(w, t, w.tasks[t].(continuations := [])) == w;
  }

  /** Once finished, a second finish() starts nothing and changes nothing; an
      error() afterwards only overwrites the state and the message (the
      source does not guard against it) and starts nothing either. */
  lemma CompleteAgain(w: World, t: Task, msg: string)
    requires WorldOK(w) && t in w.tasks
    ensures var x := FinishS(w, t).world; FinishS(x, t) == Effect(x, [])
    ensures var x := FinishS(w, t).world;
      ErrorS(x, t, msg) == Effect(WithView(x, t, x.tasks[t].(state := Error, errorString := msg)), [])
  {
    var x := FinishS(w, t).world;
    FinishFrame(w, t);
    assert ViewOK(x, t, x.tasks[t]);
    assert WithView(x, t, x.tasks[t].(state := Finished)) == x;
    DispatchEmpty(x, t);
    var y := WithView(x, t, x.tasks[t].(state := Error, errorString := msg));
    assert ViewOK(y, t, y.tasks[t]);
    DispatchEmpty(y, t);
  }
}
