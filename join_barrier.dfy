/**
 * Task::continueWhenAll: one closure task per input, each holding a copy of
 * one shared counter; a closure that sees `counter.unique()` as it runs
 * starts the target. A closure's copy goes away when the list it sits in is
 * cleared, at the end of its input's execContinuations.
 *
 * As the library is written, the closure runs on the by-value copy that
 * Details::execAction makes (`ExecActionCopies`), so the use count it sees is
 * always at least two and the target is never started (`JoinNeverFires`).
 * Without that copy (worlds with `callCopies == 0`) the barrier does what it
 * was meant to: the last input to complete starts the target exactly once
 * (`JoinFiresOnceAtLast`).
 *
 * An input completes by finish() or by error(msg); both dispatch its list.
 * The closure tasks' rank lies strictly between the target's and the inputs'.
 */
module JoinBarrier {
  import opened AsyncTask
  import opened CascadeFacts

  /** `c` is a closure of the barrier `(k, target)` that has no continuations
      of its own (as continueWhenAll creates it). */
  ghost predicate IsClosure(w: World, c: Task, k: JoinCounter, target: Task)
  {
    && c in w.tasks && c.kind == Lambda
    && w.tasks[c].action == Some(JoinStep(k, target))
    && w.tasks[c].continuations == [] && w.tasks[c].autoFinish && k in w.holders
  }

  // ---------------------------------------------------------------------
  // One input completes
  // ---------------------------------------------------------------------

  /** A closure that does not see `unique()` starts nothing and only
      finishes itself. */
  lemma ClosureQuiet(x: World, c: Task, k: JoinCounter, target: Task)
    requires WorldOK(x) && IsClosure(x, c, k, target) && UseCount(x, k) != 1
    ensures StartS(x, c).world == WithView(x, c, x.tasks[c].(state := Finished))
    ensures StartS(x, c).launches[0].nested == []
  {
    assert ViewOK(x, c, x.tasks[c]);
    var y := WithView(x, c, x.tasks[c].(state := Finished));
    assert ViewOK(y, c, y.tasks[c]);
    DispatchEmpty(y, c);
    var a := RunActionS(x, c);
    assert a == ActionRun(x, [], None);
    assert CompleteS(x, c, None) == Effect(y, []);
    assert StartS(x, c).launches[0].nested == [] + [];
  }

  /** A closure that sees `unique()` starts the target (directly, so with
      the target's own prevTask) and then finishes itself. */
  lemma ClosureFires(x: World, c: Task, k: JoinCounter, target: Task)
    requires WorldOK(x) && IsClosure(x, c, k, target) && UseCount(x, k) == 1
    ensures target in x.tasks && target.rank < c.rank
    ensures var s := StartS(x, target);
      && StartS(x, c).launches[0].nested == s.launches
      && c in s.world.tasks
      && StartS(x, c).world == WithView(s.world, c, x.tasks[c].(state := Finished))
  {
    assert ViewOK(x, c, x.tasks[c]);
    var s := StartS(x, target);
    StartFrame(x, target);
    assert s.world.tasks[c] == x.tasks[c];
    var y := WithView(s.world, c, x.tasks[c].(state := Finished));
    assert ViewOK(y, c, y.tasks[c]);
    DispatchEmpty(y, c);
    assert RunActionS(x, c) == ActionRun(s.world, s.launches, None);
    assert CompleteS(s.world, c, None) == Effect(y, []);
    assert StartS(x, c).launches[0].nested == s.launches + [];
  }

  /** A launch whose nested starts all rank below its task starts that task
      once. */
  lemma StartedOnce(l: Launch)
    requires StartsBelow(l.nested, l.task.rank)
    ensures Started([l]) == [l.task] + Started(l.nested)
    ensures multiset(Started([l]))[l.task] == 1
  {
    assert [l][1..] == [];
    assert Started([l]) == [l.task] + Started(l.nested) + Started([]);
    assert l.task !in Started(l.nested);
    assert multiset(Started(l.nested))[l.task] == 0;
  }

  /** An input completes: finish() when `f` is `None`, error(msg) when it is
      `Some(msg)`. */
  ghost function Completion(w: World, u: Task, f: Option<string>): (r: Effect)
    requires WorldOK(w) && u in w.tasks
    ensures WorldOK(r.world) && SameDomain(w, r.world)
  {
    if f.Some? then ErrorS(w, u, f.value) else FinishS(w, u)
  }

  /** The fields of an input once finish() or error(msg) has set its state. */
  function Marked(v: TaskView, f: Option<string>): TaskView
  {
    if f.Some? then v.(state := State.Error, errorString := f.value) else v.(state := Finished)
  }

  /** A completion is one dispatch from the marked input. */
  lemma CompletionIsDispatch(w: World, u: Task, f: Option<string>)
    requires WorldOK(w) && u in w.tasks
    ensures var x1 := WithView(w, u, Marked(w.tasks[u], f));
      WorldOK(x1) && Completion(w, u, f) == DispatchS(x1, u)
  {
    assert ViewOK(w, u, w.tasks[u]);
    assert ViewOK(w, u, Marked(w.tasks[u], f));
  }

  /** An input whose list is its closure completes and the closure does not
      see `unique()`: the input ends marked with an empty list, the closure
      ran with the input as predecessor and finished, the count drops by
      one, and nothing else was started or changed. */
  lemma NotLastStep(x: World, u: Task, c: Task, k: JoinCounter, target: Task, f: Option<string>)
    requires WorldOK(x) && u in x.tasks && x.tasks[u].continuations == [c]
    requires IsClosure(x, c, k, target) && UseCount(x, k) != 1
    ensures Completion(x, u, f).world == x.(
      tasks := x.tasks[u := Marked(x.tasks[u], f).(continuations := [])][c := x.tasks[c].(prevTask := u, state := Finished)],
      holders := x.holders[k := x.holders[k] - 1])
    ensures Started(Completion(x, u, f).launches) == [c]
  {
    CompletionIsDispatch(x, u, f);
    var x1 := WithView(x, u, Marked(x.tasks[u], f));
    QuietDispatch(x1, u, c, k, target);
    var x2 := WithView(x1, c, x1.tasks[c].(prevTask := u));
    NotLastWorld(x, u, c, k, target, f, WithView(x2, c, x2.tasks[c].(state := Finished)));
  }

  /** The dispatch of NotLastStep, once the input is marked. */
  lemma QuietDispatch(x1: World, u: Task, c: Task, k: JoinCounter, target: Task)
    requires WorldOK(x1) && u in x1.tasks && x1.tasks[u].continuations == [c]
    requires IsClosure(x1, c, k, target) && UseCount(x1, k) != 1
    ensures c != u
    ensures var x2 := WithView(x1, c, x1.tasks[c].(prevTask := u));
      var ew := WithView(x2, c, x2.tasks[c].(state := Finished));
      DispatchS(x1, u).world == WithView(ew, u, ew.tasks[u].(continuations := [])).(holders := ReleaseOne(ew.tasks, ew.holders, c))
    ensures Started(DispatchS(x1, u).launches) == [c]
  {
    DispatchSingle(x1, u, c);
    var x2 := WithPrev(x1, c, u);
    ClosureQuiet(x2, c, k, target);
    var e := StartS(x2, c);
    assert e.launches == [e.launches[0]];
    assert Started(e.launches) == [c] + Started([]) + Started([]);
  }

  /** The bookkeeping of NotLastStep on the snapshot alone. */
  lemma NotLastWorld(x: World, u: Task, c: Task, k: JoinCounter, target: Task, f: Option<string>, ew: World)
    requires u in x.tasks && c in x.tasks && u != c && IsClosure(x, c, k, target)
    requires var x1 := WithView(x, u, Marked(x.tasks[u], f));
      var x2 := WithView(x1, c, x1.tasks[c].(prevTask := u));
      ew == WithView(x2, c, x2.tasks[c].(state := Finished))
    ensures WithView(ew, u, ew.tasks[u].(continuations := [])).(holders := ReleaseOne(ew.tasks, ew.holders, c)) == x.(
      tasks := x.tasks[u := Marked(x.tasks[u], f).(continuations := [])][c := x.tasks[c].(prevTask := u, state := Finished)],
      holders := x.holders[k := x.holders[k] - 1])
  {
    var vu := Marked(x.tasks[u], f);
    var vc := x.tasks[c].(prevTask := u, state := Finished);
    assert ew.tasks == x.tasks[u := vu][c := vc];
    assert ew.holders == x.holders;
    assert ew.tasks[c].action == Some(JoinStep(k, target));
    assert ReleaseOne(ew.tasks, ew.holders, c) == x.holders[k := x.holders[k] - 1];
    UpdateAgain(x.tasks, u, c, vu, vc, vu.(continuations := []));
  }

  /** Updating key `a` again after an update of another key `b`. */
  lemma UpdateAgain<K, V>(m: map<K, V>, a: K, b: K, va: V, vb: V, va': V)
    requires a != b
    ensures m[a := va][b := vb][a := va'] == m[a := va'][b := vb]
  {
  }

  /** An input completes and its closure sees `unique()`: in its cascade the
      closure starts first, then the target exactly once, with the prevTask
      the target already had; the input ends marked, the closure Finished. */
  lemma LastStep(x: World, u: Task, c: Task, k: JoinCounter, target: Task, f: Option<string>)
    requires WorldOK(x) && u in x.tasks && x.tasks[u].continuations == [c]
    requires IsClosure(x, c, k, target) && UseCount(x, k) == 1
    ensures target in x.tasks
    ensures var ls := Completion(x, u, f).launches;
      && |ls| == 1 && ls[0].task == c && ls[0].prev == u
      && |ls[0].nested| == 1 && ls[0].nested[0].task == target && ls[0].nested[0].prev == x.tasks[target].prevTask
      && |Started(ls)| >= 2 && Started(ls)[..2] == [c, target]
      && multiset(Started(ls))[target] == 1
    ensures Completion(x, u, f).world.tasks[u].state == Marked(x.tasks[u], f).state
    ensures Completion(x, u, f).world.tasks[c].state == Finished
  {
    CompletionIsDispatch(x, u, f);
    var x1 := WithView(x, u, Marked(x.tasks[u], f));
    FiringDispatch(x1, u, c, k, target);
    var ls := DispatchS(x1, u).launches;
    OneFiring(ls, u, c, target);
    DispatchFrame(x1, u);
  }

  /** The dispatch of LastStep, once the input is marked. */
  lemma FiringDispatch(x1: World, u: Task, c: Task, k: JoinCounter, target: Task)
    requires WorldOK(x1) && u in x1.tasks && x1.tasks[u].continuations == [c]
    requires IsClosure(x1, c, k, target) && UseCount(x1, k) == 1
    ensures c != u && target in x1.tasks && target != c && target != u
    ensures var ls := DispatchS(x1, u).launches;
      && |ls| == 1 && ls[0].task == c && ls[0].prev == u
      && |ls[0].nested| == 1 && ls[0].nested[0].task == target && ls[0].nested[0].prev == x1.tasks[target].prevTask
      && StartsBelow(ls[0].nested[0].nested, target.rank)
    ensures DispatchS(x1, u).world.tasks[c].state == Finished
  {
    DispatchSingle(x1, u, c);
    var x2 := WithPrev(x1, c, u);
    ClosureFires(x2, c, k, target);
    var s := StartS(x2, target);
    StartFrame(x2, target);
    var e := StartS(x2, c);
    assert e.launches == [e.launches[0]];
  }

  /** The launch tree of LastStep starts the closure, then the target, and
      the target only once. */
  lemma OneFiring(ls: seq<Launch>, u: Task, c: Task, target: Task)
    requires |ls| == 1 && ls[0].task == c && c != target
    requires |ls[0].nested| == 1 && ls[0].nested[0].task == target
    requires StartsBelow(ls[0].nested[0].nested, target.rank)
    ensures |Started(ls)| >= 2 && Started(ls)[..2] == [c, target]
    ensures multiset(Started(ls))[target] == 1
  {
    var l := ls[0].nested[0];
    StartedOnce(l);
    assert ls[0].nested == [l];
    assert ls[1..] == [];
    assert Started(ls) == [c] + Started([l]) + Started([]);
    assert Started(ls) == [c] + ([target] + Started(l.nested));
  }

  // ---------------------------------------------------------------------
  // All inputs complete
  // ---------------------------------------------------------------------

  /** The inputs `us` complete in turn from world `w`, the m-th by finish()
      when `fs[m]` is `None` and by error(msg) when it is `Some(msg)`. */
  ghost function CompleteAll(w: World, us: seq<Task>, fs: seq<Option<string>>): (r: seq<Effect>)
    requires WorldOK(w) && |fs| == |us| && forall u | u in us :: u in w.tasks
    ensures |r| == |us|
    decreases |us|
  {
    if us == [] then []
    else
      var e := Completion(w, us[0], fs[0]);
      [e] + CompleteAll(e.world, us[1..], fs[1..])
  }

  /** The barrier `(k, target)` still waits for the inputs `ins[j..]`: they are
      distinct, each has exactly its closure `cl[m]` as continuation, and the
      counter is held by exactly their closures. */
  ghost predicate Pending(w: World, k: JoinCounter, target: Task, ins: seq<Task>, cl: seq<Task>, j: nat)
  {
    && |ins| == |cl| && j <= |ins| && k in w.holders && w.holders[k] == |ins| - j
    && (forall m, m' | j <= m < m' < |ins| :: ins[m] != ins[m'])
    && (forall m | j <= m < |ins| ::
          ins[m] in w.tasks && w.tasks[ins[m]].continuations == [cl[m]] && IsClosure(w, cl[m], k, target))
  }

  /** An input completing while its closure does not see `unique()` keeps
      the barrier pending for the rest, and leaves the target untouched. */
  lemma PendingStep(w: World, k: JoinCounter, target: Task, ins: seq<Task>, cl: seq<Task>, j: nat, f: Option<string>)
    requires WorldOK(w) && Pending(w, k, target, ins, cl, j) && j < |ins| && UseCount(w, k) != 1
    ensures target in w.tasks
    ensures Pending(Completion(w, ins[j], f).world, k, target, ins, cl, j + 1)
    ensures Completion(w, ins[j], f).world.tasks[target] == w.tasks[target]
    ensures Started(Completion(w, ins[j], f).launches) == [cl[j]] && cl[j] != target
  {
    var u, c := ins[j], cl[j];
    assert ViewOK(w, u, w.tasks[u]);
    assert c in w.tasks[u].continuations;
    assert ViewOK(w, c, w.tasks[c]);
    NotLastStep(w, u, c, k, target, f);
    var w' := Completion(w, u, f).world;
    forall m | j + 1 <= m < |ins|
      ensures ins[m] in w'.tasks && w'.tasks[ins[m]].continuations == [cl[m]] && IsClosure(w', cl[m], k, target)
    {
      assert w.tasks[ins[m]].continuations == [cl[m]];
      assert ins[m] != u && ins[m] != c;
      assert IsClosure(w, cl[m], k, target);
    }
  }

  lemma PendingMembers(w: World, k: JoinCounter, target: Task, ins: seq<Task>, cl: seq<Task>, j: nat)
    requires WorldOK(w) && Pending(w, k, target, ins, cl, j) && j < |ins|
    ensures target in w.tasks && forall u | u in ins[j..] :: u in w.tasks
    ensures ins[j..][0] == ins[j] && ins[j..][1..] == ins[j + 1..]
  {
    assert ViewOK(w, cl[j], w.tasks[cl[j]]);
    forall u | u in ins[j..] ensures u in w.tasks {
      var m :| 0 <= m < |ins[j..]| && ins[j..][m] == u;
      assert ins[j + m] == u;
    }
  }

  lemma CompleteAllCons(w: World, ins: seq<Task>, fs: seq<Option<string>>, j: nat)
    requires WorldOK(w) && j < |ins| == |fs| && forall u | u in ins[j..] :: u in w.tasks
    ensures ins[j] in w.tasks
    ensures var e := Completion(w, ins[j], fs[j]);
      (forall u | u in ins[j + 1..] :: u in e.world.tasks) &&
      CompleteAll(w, ins[j..], fs[j..]) == [e] + CompleteAll(e.world, ins[j + 1..], fs[j + 1..])
  {
    assert ins[j] in ins[j..];
    assert ins[j..][0] == ins[j] && ins[j..][1..] == ins[j + 1..];
    assert fs[j..][0] == fs[j] && fs[j..][1..] == fs[j + 1..];
    forall u | u in ins[j + 1..] ensures u in w.tasks {
      assert u in ins[j..];
    }
  }

  // ---------------------------------------------------------------------
  // As written: the target is never started
  // ---------------------------------------------------------------------

  /** In the trace `steps`, no completion starts `target`, and after each
      one `target` still has the fields `v`. */
  ghost predicate NeverStarts(steps: seq<Effect>, target: Task, v: TaskView)
  {
    forall m | 0 <= m < |steps| ::
      target !in Started(steps[m].launches) && target in steps[m].world.tasks && steps[m].world.tasks[target] == v
  }

  lemma NeverCons(e: Effect, rest: seq<Effect>, target: Task, v: TaskView)
    requires target !in Started(e.launches) && target in e.world.tasks && e.world.tasks[target] == v
    requires NeverStarts(rest, target, v)
    ensures NeverStarts([e] + rest, target, v)
  {
    var steps := [e] + rest;
    forall m | 0 <= m < |steps|
      ensures target !in Started(steps[m].launches) && target in steps[m].world.tasks && steps[m].world.tasks[target] == v
    {
      if m > 0 {
        assert steps[m] == rest[m - 1];
      }
    }
  }

  /** continueWhenAll as the library is written: every closure runs on
      execAction's copy, so it sees a use count of at least two (its own
      stored copy and the call's); whatever the order in which the inputs
      complete, and whether each finishes or fails, the target is never
      started and never changes. */
  lemma {:induction false} JoinNeverFires(w: World, k: JoinCounter, target: Task, ins: seq<Task>, cl: seq<Task>, fs: seq<Option<string>>, j: nat)
    requires WorldOK(w) && w.callCopies == ExecActionCopies && Pending(w, k, target, ins, cl, j) && |fs| == |ins|
    requires target in w.tasks
    ensures forall u | u in ins[j..] :: u in w.tasks
    ensures NeverStarts(CompleteAll(w, ins[j..], fs[j..]), target, w.tasks[target])
    decreases |ins| - j
  {
    if j == |ins| {
      assert ins[j..] == [];
    } else {
      PendingMembers(w, k, target, ins, cl, j);
      PendingStep(w, k, target, ins, cl, j, fs[j]);
      var e := Completion(w, ins[j], fs[j]);
      JoinNeverFires(e.world, k, target, ins, cl, fs, j + 1);
      CompleteAllCons(w, ins, fs, j);
      NeverCons(e, CompleteAll(e.world, ins[j + 1..], fs[j + 1..]), target, w.tasks[target]);
    }
  }

  // ---------------------------------------------------------------------
  // Without execAction's copy: the last completion starts the target once
  // ---------------------------------------------------------------------

  /** In the trace `steps` of completions, only the last starts `target`, and
      it starts it exactly once, directly from the closure it runs, with
      prevTask `p`. */
  ghost predicate FiresOnceAtLast(steps: seq<Effect>, target: Task, p: Task?)
  {
    && |steps| > 0
    && (forall m | 0 <= m < |steps| - 1 :: target !in Started(steps[m].launches))
    && var last := steps[|steps| - 1].launches;
       && multiset(Started(last))[target] == 1
       && |last| == 1 && |last[0].nested| == 1
       && last[0].nested[0].task == target && last[0].nested[0].prev == p
  }

  lemma FiresCons(e: Effect, rest: seq<Effect>, target: Task, p: Task?)
    requires target !in Started(e.launches) && FiresOnceAtLast(rest, target, p)
    ensures FiresOnceAtLast([e] + rest, target, p)
  {
    var steps := [e] + rest;
    forall m | 0 <= m < |steps| - 1 ensures target !in Started(steps[m].launches) {
      if m > 0 {
        assert steps[m] == rest[m - 1];
      }
    }
    assert steps[|steps| - 1] == rest[|rest| - 1];
  }

  lemma CompleteAllOne(w: World, ins: seq<Task>, fs: seq<Option<string>>, j: nat)
    requires WorldOK(w) && j + 1 == |ins| == |fs| && forall u | u in ins[j..] :: u in w.tasks
    ensures ins[j] in w.tasks && CompleteAll(w, ins[j..], fs[j..]) == [Completion(w, ins[j], fs[j])]
  {
    assert ins[j] in ins[j..];
    assert ins[j..][1..] == [] && fs[j..][0] == fs[j];
  }

  /** The last input's completion, as a one-step trace. */
  lemma LastFires(x: World, u: Task, c: Task, k: JoinCounter, target: Task, f: Option<string>)
    requires WorldOK(x) && u in x.tasks && x.tasks[u].continuations == [c]
    requires IsClosure(x, c, k, target) && UseCount(x, k) == 1
    ensures target in x.tasks
    ensures FiresOnceAtLast([Completion(x, u, f)], target, x.tasks[target].prevTask)
  {
    LastStep(x, u, c, k, target, f);
  }

  /** continueWhenAll's intended promise, for the library without
      execAction's copy: when the inputs complete one after another (in any
      order: `ins` is any arrangement of the pairs; each by finish() or by
      error()), the inputs before the last never start the target, and the
      last one starts it exactly once, with the prevTask the target had at
      the outset. */
  lemma {:induction false} JoinFiresOnceAtLast(w: World, k: JoinCounter, target: Task, ins: seq<Task>, cl: seq<Task>, fs: seq<Option<string>>, j: nat)
    requires WorldOK(w) && w.callCopies == 0 && Pending(w, k, target, ins, cl, j) && j < |ins| == |fs|
    ensures target in w.tasks && forall u | u in ins[j..] :: u in w.tasks
    ensures FiresOnceAtLast(CompleteAll(w, ins[j..], fs[j..]), target, w.tasks[target].prevTask)
    decreases |ins| - j
  {
    PendingMembers(w, k, target, ins, cl, j);
    if j + 1 == |ins| {
      LastFires(w, ins[j], cl[j], k, target, fs[j]);
      CompleteAllOne(w, ins, fs, j);
    } else {
      PendingStep(w, k, target, ins, cl, j, fs[j]);
      var e := Completion(w, ins[j], fs[j]);
      JoinFiresOnceAtLast(e.world, k, target, ins, cl, fs, j + 1);
      CompleteAllCons(w, ins, fs, j);
      FiresCons(e, CompleteAll(e.world, ins[j + 1..], fs[j + 1..]), target, w.tasks[target].prevTask);
    }
  }

  // ---------------------------------------------------------------------
  // An input listed twice
  // ---------------------------------------------------------------------

  /** A closure started by a dispatch of `u` that does not see `unique()`:
      it only records `u` and finishes. */
  lemma QuietStart(w: World, u: Task, c: Task, k: JoinCounter, target: Task)
    requires WorldOK(w) && u in w.tasks && IsClosure(w, c, k, target) && UseCount(w, k) != 1
    ensures var e := StartS(WithPrev(w, c, u), c);
      && e.world == WithView(w, c, w.tasks[c].(prevTask := u, state := Finished))
      && |e.launches| == 1 && e.launches[0].task == c && e.launches[0].nested == []
  {
    var y := WithPrev(w, c, u);
    assert IsClosure(y, c, k, target);
    ClosureQuiet(y, c, k, target);
  }

  lemma SliceCons<T>(s: seq<T>, i: nat)
    requires i < |s|
    ensures s[i..] == [s[i]] + s[i + 1..]
  {
  }

  /** A dispatch loop over closures of `k` that do not see `unique()`:
      each closure only records `u` and finishes, so the loop
      starts exactly those closures, never the target, and keeps the
      counter, the target and every closure's callable as they were. */
  lemma {:induction false} QuietFrom(w: World, u: Task, cs: seq<Task>, i: nat, k: JoinCounter, target: Task)
    requires WorldOK(w) && u in w.tasks && i <= |cs|
    requires forall c {:trigger c in cs} | c in cs :: c in w.tasks && c.rank < u.rank
    requires k in w.holders && UseCount(w, k) != 1 && target in w.tasks && target !in cs
    requires forall j | i <= j < |cs| :: IsClosure(w, cs[j], k, target)
    ensures var d := DispatchFrom(w, u, cs, i);
      && Started(d.launches) == cs[i..] && d.world.holders == w.holders && d.world.tasks[target] == w.tasks[target]
      && forall c {:trigger c in cs} | c in cs :: d.world.tasks[c].action == w.tasks[c].action
    decreases |cs| - i
  {
    if i < |cs| {
      QuietStep(w, u, cs, i, k, target);
      var e := StartS(WithPrev(w, cs[i], u), cs[i]);
      QuietFrom(e.world, u, cs, i + 1, k, target);
      var rest := DispatchFrom(e.world, u, cs, i + 1);
      StartedConcat(e.launches, rest.launches);
      SliceCons(cs, i);
    }
  }

  /** One turn of the loop of QuietFrom. */
  lemma QuietStep(w: World, u: Task, cs: seq<Task>, i: nat, k: JoinCounter, target: Task)
    requires WorldOK(w) && u in w.tasks && i < |cs|
    requires forall c {:trigger c in cs} | c in cs :: c in w.tasks && c.rank < u.rank
    requires k in w.holders && UseCount(w, k) != 1 && target in w.tasks && target !in cs
    requires forall j | i <= j < |cs| :: IsClosure(w, cs[j], k, target)
    ensures cs[i] in w.tasks
    ensures var e := StartS(WithPrev(w, cs[i], u), cs[i]);
      && Started(e.launches) == [cs[i]] && e.world.holders == w.holders && e.world.tasks[target] == w.tasks[target]
      && (forall c {:trigger c in cs} | c in cs :: c in e.world.tasks && c.rank < u.rank && e.world.tasks[c].action == w.tasks[c].action)
      && forall j | i + 1 <= j < |cs| :: IsClosure(e.world, cs[j], k, target)
  {
    var c := cs[i];
    assert c in cs;
    QuietStart(w, u, c, k, target);
    var e := StartS(WithPrev(w, c, u), c);
    forall j | i + 1 <= j < |cs| ensures IsClosure(e.world, cs[j], k, target) {
      assert IsClosure(w, cs[j], k, target);
    }
    assert Started(e.launches) == [c] + Started([]) + Started([]);
  }

  /** Passing the same input twice to continueWhenAll (`{u, u}`, possibly
      among other inputs), as the source is written: that input gets two
      closures; when it completes, by finish() or by error(msg), each closure
      runs while the other still holds the counter, so neither starts the
      target, even without execAction's copy; then both copies are released.
      For `continueWhenAll({u, u}, target)` the counter ends held by nobody
      and the target is never started. */
  lemma TwinInputNeverFires(x: World, u: Task, c1: Task, c2: Task, k: JoinCounter, target: Task, f: Option<string>)
    requires WorldOK(x) && u in x.tasks && x.tasks[u].continuations == [c1, c2] && c1 != c2
    requires IsClosure(x, c1, k, target) && IsClosure(x, c2, k, target) && x.holders[k] >= 2
    ensures target in x.tasks
    ensures target !in Started(Completion(x, u, f).launches)
    ensures Completion(x, u, f).world.tasks[target] == x.tasks[target]
    ensures Completion(x, u, f).world.holders[k] == x.holders[k] - 2
  {
    assert ViewOK(x, u, x.tasks[u]);
    assert c1 in x.tasks[u].continuations && c2 in x.tasks[u].continuations;
    assert ViewOK(x, c1, x.tasks[c1]) && ViewOK(x, c2, x.tasks[c2]);
    forall j | 0 <= j < |x.tasks[u].continuations| ensures IsClosure(x, x.tasks[u].continuations[j], k, target) {
      assert j == 0 || j == 1;
    }
    ClosuresOnlyComplete(x, u, k, target, f);
  }

  /** Completing, by finish() or by error(msg), a task whose list holds only
      closures of `k` that do not see `unique()`. */
  lemma ClosuresOnlyComplete(x: World, u: Task, k: JoinCounter, target: Task, f: Option<string>)
    requires WorldOK(x) && u in x.tasks && u != target
    requires k in x.holders && UseCount(x, k) != 1 && target in x.tasks && target !in x.tasks[u].continuations
    requires forall j | 0 <= j < |x.tasks[u].continuations| :: IsClosure(x, x.tasks[u].continuations[j], k, target)
    ensures target !in Started(Completion(x, u, f).launches)
    ensures Completion(x, u, f).world.tasks[target] == x.tasks[target]
    ensures Completion(x, u, f).world.holders[k] == x.holders[k] - |x.tasks[u].continuations|
  {
    CompletionIsDispatch(x, u, f);
    var x1 := WithView(x, u, Marked(x.tasks[u], f));
    MarkedKeepsClosures(x, u, k, target, f);
    ClosuresOnlyDispatch(x1, u, k, target);
  }

  /** Marking `u` keeps the closures in its list as they were. */
  lemma MarkedKeepsClosures(x: World, u: Task, k: JoinCounter, target: Task, f: Option<string>)
    requires WorldOK(x) && u in x.tasks
    requires forall j | 0 <= j < |x.tasks[u].continuations| :: IsClosure(x, x.tasks[u].continuations[j], k, target)
    ensures var x1 := WithView(x, u, Marked(x.tasks[u], f));
      forall j | 0 <= j < |x1.tasks[u].continuations| :: IsClosure(x1, x1.tasks[u].continuations[j], k, target)
  {
    var x1 := WithView(x, u, Marked(x.tasks[u], f));
    forall j | 0 <= j < |x1.tasks[u].continuations| ensures IsClosure(x1, x1.tasks[u].continuations[j], k, target) {
      assert IsClosure(x, x.tasks[u].continuations[j], k, target);
    }
  }

  /** Dispatching a task whose list holds only closures of `k` that do
      not see `unique()`: the target is not started and keeps its
      view, and the counter loses one holder per entry. */
  lemma ClosuresOnlyDispatch(w: World, u: Task, k: JoinCounter, target: Task)
    requires WorldOK(w) && u in w.tasks && u != target
    requires k in w.holders && UseCount(w, k) != 1 && target in w.tasks && target !in w.tasks[u].continuations
    requires forall j | 0 <= j < |w.tasks[u].continuations| :: IsClosure(w, w.tasks[u].continuations[j], k, target)
    ensures target !in Started(DispatchS(w, u).launches)
    ensures DispatchS(w, u).world.tasks[target] == w.tasks[target]
    ensures DispatchS(w, u).world.holders[k] == w.holders[k] - |w.tasks[u].continuations|
  {
    ClosuresOnlyTarget(w, u, k, target);
    ClosuresOnlyHolders(w, u, k, target);
  }

  /** The target half of ClosuresOnlyDispatch. */
  lemma ClosuresOnlyTarget(w: World, u: Task, k: JoinCounter, target: Task)
    requires WorldOK(w) && u in w.tasks && u != target
    requires k in w.holders && UseCount(w, k) != 1 && target in w.tasks && target !in w.tasks[u].continuations
    requires forall j | 0 <= j < |w.tasks[u].continuations| :: IsClosure(w, w.tasks[u].continuations[j], k, target)
    ensures target !in Started(DispatchS(w, u).launches)
    ensures DispatchS(w, u).world.tasks[target] == w.tasks[target]
  {
    var cs := w.tasks[u].continuations;
    assert ViewOK(w, u, w.tasks[u]);
    QuietFrom(w, u, cs, 0, k, target);
    assert cs[0..] == cs;
  }

  /** The counter half of ClosuresOnlyDispatch. */
  lemma ClosuresOnlyHolders(w: World, u: Task, k: JoinCounter, target: Task)
    requires WorldOK(w) && u in w.tasks && u != target
    requires k in w.holders && UseCount(w, k) != 1 && target in w.tasks && target !in w.tasks[u].continuations
    requires forall j | 0 <= j < |w.tasks[u].continuations| :: IsClosure(w, w.tasks[u].continuations[j], k, target)
    ensures DispatchS(w, u).world.holders[k] == w.holders[k] - |w.tasks[u].continuations|
  {
    var cs := w.tasks[u].continuations;
    assert ViewOK(w, u, w.tasks[u]);
    var d := DispatchFrom(w, u, cs, 0);
    QuietFrom(w, u, cs, 0, k, target);
    KeptActions(w, d.world, cs, k, target);
    ClearedRelease(d.world, u, cs, k, target);
  }

  /** Closures whose callables were kept are still closures' callables. */
  lemma KeptActions(w: World, dw: World, cs: seq<Task>, k: JoinCounter, target: Task)
    requires forall c {:trigger c in cs} | c in cs :: c in w.tasks && c in dw.tasks && dw.tasks[c].action == w.tasks[c].action
    requires forall j | 0 <= j < |cs| :: IsClosure(w, cs[j], k, target)
    ensures forall c {:trigger c in cs} | c in cs :: dw.tasks[c].action == Some(JoinStep(k, target))
  {
    forall c | c in cs ensures dw.tasks[c].action == Some(JoinStep(k, target)) {
      var j :| 0 <= j < |cs| && cs[j] == c;
      assert IsClosure(w, cs[j], k, target);
    }
  }

  /** Clearing the list `cs` of `u` once its entries are all closures of `k`. */
  lemma ClearedRelease(dw: World, u: Task, cs: seq<Task>, k: JoinCounter, target: Task)
    requires u in dw.tasks && k in dw.holders && forall c | c in cs :: c in dw.tasks
    requires forall c {:trigger c in cs} | c in cs :: dw.tasks[c].action == Some(JoinStep(k, target))
    ensures var cleared := WithView(dw, u, dw.tasks[u].(continuations := []));
      Release(cleared.tasks, cleared.holders, cs, 0)[k] == dw.holders[k] - |cs|
  {
    var cleared := WithView(dw, u, dw.tasks[u].(continuations := []));
    forall j | 0 <= j < |cs| ensures cleared.tasks[cs[j]].action == Some(JoinStep(k, target)) {
      assert cs[j] in cs;
    }
    ReleaseClosures(cleared.tasks, cleared.holders, cs, 0, k, target);
  }

  /** Releasing entries that are all closures of `k` drops its count by one
      per entry. */
  lemma {:induction false} ReleaseClosures(tasks: map<Task, TaskView>, h: map<JoinCounter, int>, cs: seq<Task>, j: nat, k: JoinCounter, target: Task)
    requires j <= |cs| && (forall c | c in cs :: c in tasks) && k in h
    requires forall i | j <= i < |cs| :: tasks[cs[i]].action == Some(JoinStep(k, target))
    ensures Release(tasks, h, cs, j)[k] == h[k] - (|cs| - j)
    decreases |cs| - j
  {
    if j < |cs| {
      ReleaseClosures(tasks, ReleaseOne(tasks, h, cs[j]), cs, j + 1, k, target);
    }
  }
}
