/** Runs of a transition system: the events, the states they pass through, and those that somebody asked for. */
module Paths {

  /** step(s, e, s'): the event e may happen in s and leads to s'. */
  predicate StepAt<S, E>(step: (S, E, S) -> bool, run: seq<E>, path: seq<S>, i: nat)
    requires i < |run| < |path|
  {
    step(path[i], run[i], path[i + 1])
  }

  /** The states of path are those that the run passes through from init. */
  ghost predicate IsPath<S, E>(step: (S, E, S) -> bool, init: S, run: seq<E>, path: seq<S>) {
    && |path| == |run| + 1 && path[0] == init
    && (forall i {:trigger StepAt(step, run, path, i)} :: 0 <= i < |run| ==> StepAt(step, run, path, i))
  }

  lemma PathGrows<S, E>(step: (S, E, S) -> bool, init: S, run: seq<E>, path: seq<S>, e: E, s': S)
    requires IsPath(step, init, run, path) && step(path[|run|], e, s')
    ensures IsPath(step, init, run + [e], path + [s'])
  {
    var run', path' := run + [e], path + [s'];
    forall i | 0 <= i < |run'| ensures StepAt(step, run', path', i) {
      if i < |run| {
        assert StepAt(step, run, path, i);
      }
    }
  }

  lemma OneStep<S, E>(step: (S, E, S) -> bool, s: S, e: E, s': S)
    requires step(s, e, s')
    ensures IsPath(step, s, [e], [s, s'])
  {
    assert StepAt(step, [e], [s, s'], 0);
  }

  /** All but the last step. */
  lemma PathShrinks<S, E>(step: (S, E, S) -> bool, init: S, run: seq<E>, path: seq<S>)
    requires IsPath(step, init, run, path) && run != []
    ensures var k := |run| - 1;
            IsPath(step, init, run[..k], path[..k + 1]) && step(path[k], run[k], path[k + 1])
  {
    var k := |run| - 1;
    var run', path' := run[..k], path[..k + 1];
    forall i | 0 <= i < k ensures StepAt(step, run', path', i) {
      assert StepAt(step, run, path, i);
    }
    assert StepAt(step, run, path, k);
  }

  lemma PathsJoin<S, E>(step: (S, E, S) -> bool, init: S, a: seq<E>, path: seq<S>, b: seq<E>, path': seq<S>)
    requires IsPath(step, init, a, path) && IsPath(step, path[|a|], b, path')
    ensures IsPath(step, init, a + b, path + path'[1..]) && (path + path'[1..])[|a + b|] == path'[|b|]
  {
    var run, whole := a + b, path + path'[1..];
    forall i | 0 <= i < |run| ensures StepAt(step, run, whole, i) {
      if i < |a| {
        assert StepAt(step, a, path, i);
      } else {
        assert StepAt(step, b, path', i - |a|);
      }
    }
  }

  // ---------------------------------------------------------------- where runs lead

  /** The run leads from init to s. */
  ghost predicate RunsTo<S(!new), E>(step: (S, E, S) -> bool, init: S, run: seq<E>, s: S) {
    exists path {:trigger IsPath(step, init, run, path)} :: IsPath(step, init, run, path) && path[|run|] == s
  }

  /** Some run does. */
  ghost predicate Reaches<S(!new), E(!new)>(step: (S, E, S) -> bool, init: S, s: S) {
    exists run {:trigger RunsTo(step, init, run, s)} :: RunsTo(step, init, run, s)
  }

  lemma PathReaches<S(!new), E(!new)>(step: (S, E, S) -> bool, init: S, run: seq<E>, path: seq<S>)
    requires IsPath(step, init, run, path)
    ensures RunsTo(step, init, run, path[|run|]) && Reaches(step, init, path[|run|])
  {
    assert RunsTo(step, init, run, path[|run|]);
  }

  lemma RunsNowhere<S(!new), E>(step: (S, E, S) -> bool, s: S, s': S)
    ensures RunsTo<S, E>(step, s, [], s') <==> s == s'
  {
    if s == s' {
      assert IsPath<S, E>(step, s, [], [s]);
    }
  }

  lemma RunsOn<S(!new), E>(step: (S, E, S) -> bool, init: S, run: seq<E>, s: S, e: E, s': S)
    requires RunsTo(step, init, run, s) && step(s, e, s')
    ensures RunsTo(step, init, run + [e], s')
  {
    var path :| IsPath(step, init, run, path) && path[|run|] == s;
    PathGrows(step, init, run, path, e, s');
  }

  lemma RunsBack<S(!new), E>(step: (S, E, S) -> bool, init: S, run: seq<E>, s': S) returns (s: S)
    requires RunsTo(step, init, run, s') && run != []
    ensures RunsTo(step, init, run[..|run| - 1], s) && step(s, run[|run| - 1], s')
  {
    var path :| IsPath(step, init, run, path) && path[|run|] == s';
    PathShrinks(step, init, run, path);
    s := path[|run| - 1];
  }

  lemma RunsJoin<S(!new), E>(step: (S, E, S) -> bool, init: S, a: seq<E>, s: S, b: seq<E>, s': S)
    requires RunsTo(step, init, a, s) && RunsTo(step, s, b, s')
    ensures RunsTo(step, init, a + b, s')
  {
    var path :| IsPath(step, init, a, path) && path[|a|] == s;
    var path' :| IsPath(step, s, b, path') && path'[|b|] == s';
    PathsJoin(step, init, a, path, b, path');
  }

  lemma ReachesItself<S(!new), E(!new)>(step: (S, E, S) -> bool, s: S)
    ensures Reaches(step, s, s)
  {
    RunsNowhere(step, s, s);
  }

  lemma ReachesOn<S(!new), E(!new)>(step: (S, E, S) -> bool, init: S, s: S, e: E, s': S)
    requires Reaches(step, init, s) && step(s, e, s')
    ensures Reaches(step, init, s')
  {
    var run :| RunsTo(step, init, run, s);
    RunsOn(step, init, run, s, e, s');
  }

  lemma ReachesJoin<S(!new), E(!new)>(step: (S, E, S) -> bool, init: S, s: S, s': S)
    requires Reaches(step, init, s) && Reaches(step, s, s')
    ensures Reaches(step, init, s')
  {
    var a :| RunsTo(step, init, a, s);
    var b :| RunsTo(step, s, b, s');
    RunsJoin(step, init, a, s, b, s');
  }

  /** More steps lead at least as far. */
  lemma ReachesWider<S(!new), E(!new)>(step: (S, E, S) -> bool, wider: (S, E, S) -> bool, init: S, s: S)
    requires Reaches(step, init, s) && forall s, e, s' :: step(s, e, s') ==> wider(s, e, s')
    ensures Reaches(wider, init, s)
  {
    var run :| RunsTo(step, init, run, s);
    var path :| IsPath(step, init, run, path) && path[|run|] == s;
    forall i | 0 <= i < |run| ensures StepAt(wider, run, path, i) {
      assert StepAt(step, run, path, i);
    }
    PathReaches(wider, init, run, path);
  }

  /** What every step keeps holds wherever a run leads. */
  lemma {:induction false} RunKeeps<S(!new), E(!new)>(
    step: (S, E, S) -> bool, inv: S -> bool, init: S, run: seq<E>, s: S)
    requires inv(init) && RunsTo(step, init, run, s)
    requires forall s, e, s' :: step(s, e, s') && inv(s) ==> inv(s')
    ensures inv(s)
    decreases |run|
  {
    if run == [] {
      RunsNowhere(step, init, s);
    } else {
      var before := RunsBack(step, init, run, s);
      RunKeeps(step, inv, init, run[..|run| - 1], before);
    }
  }

  lemma Invariant<S(!new), E(!new)>(step: (S, E, S) -> bool, inv: S -> bool, init: S, s: S)
    requires inv(init) && Reaches(step, init, s)
    requires forall s, e, s' :: step(s, e, s') && inv(s) ==> inv(s')
    ensures inv(s)
  {
    var run :| RunsTo(step, init, run, s);
    RunKeeps(step, inv, init, run, s);
  }

  // ---------------------------------------------------------------- schedules

  /** Where a schedule leads from s; what may not happen when its turn comes is passed over. */
  function After<S, E>(may: (S, E) -> bool, next: (S, E) -> S, s: S, schedule: seq<E>): S {
    if schedule == [] then s
    else
      var k := |schedule| - 1;
      var before := After(may, next, s, schedule[..k]);
      if may(before, schedule[k]) then next(before, schedule[k]) else before
  }

  /** What of it happens. */
  function Heeded<S, E>(may: (S, E) -> bool, next: (S, E) -> S, s: S, schedule: seq<E>): seq<E> {
    if schedule == [] then []
    else
      var k := |schedule| - 1;
      var run := Heeded(may, next, s, schedule[..k]);
      if may(After(may, next, s, schedule[..k]), schedule[k]) then run + [schedule[k]] else run
  }

  lemma OneMore<S, E>(may: (S, E) -> bool, next: (S, E) -> S, s: S, schedule: seq<E>, k: nat)
    requires k < |schedule|
    ensures var before, run := After(may, next, s, schedule[..k]), Heeded(may, next, s, schedule[..k]);
            && After(may, next, s, schedule[..k + 1]) ==
               (if may(before, schedule[k]) then next(before, schedule[k]) else before)
            && Heeded(may, next, s, schedule[..k + 1]) ==
               (if may(before, schedule[k]) then run + [schedule[k]] else run)
  {
    assert schedule[..k + 1][..k] == schedule[..k];
  }

  /** What a plan says up to a horizon. */
  function UpTo<E>(plan: nat -> seq<E>, horizon: nat): nat -> seq<E> {
    (n: nat) => if n < horizon then plan(n) else []
  }

  /** At some tick the others of m were to move: the index in the path at which they began. */
  datatype Tick<M> = Tick(m: M, from: nat)

  /** At the n-th tick they did what the plan says, as far as it was possible. */
  predicate Obeyed<M, S, E(==)>(may: M -> (S, E) -> bool, next: (S, E) -> S, plan: nat -> seq<E>,
                                run: seq<E>, path: seq<S>, ticks: seq<Tick<M>>, n: nat)
    requires n < |ticks|
  {
    var from := ticks[n].from;
    from < |path| &&
    var did := Heeded(may(ticks[n].m), next, path[from], plan(n));
    from + |did| <= |run| && run[from..from + |did|] == did
  }

  /** They did so at every tick. */
  ghost predicate Obeys<M, S, E>(may: M -> (S, E) -> bool, next: (S, E) -> S, plan: nat -> seq<E>,
                                 run: seq<E>, path: seq<S>, ticks: seq<Tick<M>>)
  {
    forall n: nat {:trigger Obeyed(may, next, plan, run, path, ticks, n)} ::
      n < |ticks| ==> Obeyed(may, next, plan, run, path, ticks, n)
  }

  lemma ObeysMore<M, S, E>(may: M -> (S, E) -> bool, next: (S, E) -> S, plan: nat -> seq<E>,
                           run: seq<E>, path: seq<S>, ticks: seq<Tick<M>>, run': seq<E>, path': seq<S>)
    requires Obeys(may, next, plan, run, path, ticks) && run <= run' && path <= path'
    ensures Obeys(may, next, plan, run', path', ticks)
  {
    forall n: nat | n < |ticks| ensures Obeyed(may, next, plan, run', path', ticks, n) {
      assert Obeyed(may, next, plan, run, path, ticks, n);
    }
  }

  lemma ObeysTick<M, S, E>(may: M -> (S, E) -> bool, next: (S, E) -> S, plan: nat -> seq<E>,
                           run: seq<E>, path: seq<S>, ticks: seq<Tick<M>>, m: M, from: nat)
    requires Obeys(may, next, plan, run, path, ticks) && from < |path| && from <= |run|
    requires run[from..] == Heeded(may(m), next, path[from], plan(|ticks|))
    ensures Obeys(may, next, plan, run, path, ticks + [Tick(m, from)])
  {
    var ticks' := ticks + [Tick(m, from)];
    forall n: nat | n < |ticks'| ensures Obeyed(may, next, plan, run, path, ticks', n) {
      if n < |ticks| {
        assert Obeyed(may, next, plan, run, path, ticks, n);
      }
    }
  }

  // ---------------------------------------------------------------- what was asked for

  /** The events of a run that are of a kind. */
  function Filter<E>(kind: E -> bool, run: seq<E>): seq<E> {
    if run == [] then []
    else
      var k := |run| - 1;
      if kind(run[k]) then Filter(kind, run[..k]) + [run[k]] else Filter(kind, run[..k])
  }

  /** The run has grown from a to b, and meanwhile those events of the kind are these. */
  predicate Goes<E(==)>(kind: E -> bool, a: seq<E>, b: seq<E>, these: seq<E>) {
    a <= b && Filter(kind, b) == Filter(kind, a) + these
  }

  lemma GoesOneStep<E>(kind: E -> bool, run: seq<E>, e: E)
    ensures Goes(kind, run, run + [e], if kind(e) then [e] else [])
  {
    assert (run + [e])[..|run|] == run;
  }
}
