/**
 Why a reconcile loop that makes progress or waits reaches its goal.

 A run alternates passes (even steps) and what happens between passes (odd steps). A measure never grows; a pass
 that does not lower it is blocked on something; what blocks stays in the way while the measure stands still; and
 nothing blocks for ever. Then the goal is reached from every point of the run.
 */
module FairRuns {

  ghost predicate SteadyStep<W, B(!new)>(w: W, w': W, measure: W -> nat, blocked: (W, B) -> bool, done: W -> bool) {
    && measure(w') <= measure(w)
    && (!done(w) && measure(w') == measure(w) ==> !done(w') && forall b: B :: blocked(w, b) ==> blocked(w', b))
  }

  ghost predicate SteadyAt<W, B(!new)>(f: nat -> W, measure: W -> nat, blocked: (W, B) -> bool, done: W -> bool,
                                       n: nat) {
    SteadyStep(f(n), f(n + 1), measure, blocked, done)
  }

  ghost predicate Steady<W, B(!new)>(f: nat -> W, measure: W -> nat, blocked: (W, B) -> bool, done: W -> bool) {
    forall n: nat :: SteadyAt(f, measure, blocked, done, n)
  }

  ghost predicate ProgressAt<W, B(!new)>(f: nat -> W, measure: W -> nat, blocked: (W, B) -> bool, done: W -> bool,
                                         n: nat) {
    n % 2 == 0 && !done(f(n)) ==> measure(f(n + 1)) < measure(f(n)) || exists b: B :: blocked(f(n), b)
  }

  ghost predicate Progressing<W, B(!new)>(f: nat -> W, measure: W -> nat, blocked: (W, B) -> bool, done: W -> bool) {
    forall n: nat :: ProgressAt(f, measure, blocked, done, n)
  }

  ghost predicate Fair<W, B(!new)>(f: nat -> W, blocked: (W, B) -> bool) {
    forall n: nat, b: B :: blocked(f(n), b) ==> exists m: nat :: n <= m && !blocked(f(m), b)
  }

  lemma {:induction false} Stretch<W, B(!new)>(f: nat -> W, measure: W -> nat, blocked: (W, B) -> bool,
                                               done: W -> bool, n: nat, m: nat)
    requires Steady(f, measure, blocked, done) && n <= m
    ensures measure(f(m)) <= measure(f(n))
    ensures !done(f(n)) && measure(f(m)) == measure(f(n)) ==>
              !done(f(m)) && forall b: B :: blocked(f(n), b) ==> blocked(f(m), b)
    decreases m
  {
    if n < m {
      Stretch(f, measure, blocked, done, n, m - 1);
      assert SteadyAt(f, measure, blocked, done, m - 1);
    }
  }

  lemma {:induction false} EventuallyLower<W, B(!new)>(f: nat -> W, measure: W -> nat, blocked: (W, B) -> bool,
                                                       done: W -> bool, n: nat) returns (m: nat)
    requires Steady(f, measure, blocked, done) && Progressing(f, measure, blocked, done) && Fair(f, blocked)
    requires !done(f(n))
    ensures n <= m && measure(f(m)) < measure(f(n))
  {
    var p := n + n % 2;
    assert ProgressAt(f, measure, blocked, done, p);
    Stretch(f, measure, blocked, done, n, p);
    if measure(f(p)) < measure(f(n)) {
      m := p;
    } else if measure(f(p + 1)) < measure(f(p)) {
      m := p + 1;
    } else {
      var b: B :| blocked(f(p), b);
      m :| p <= m && !blocked(f(m), b);
      Stretch(f, measure, blocked, done, p, m);
    }
  }

  lemma {:induction false} EventuallyDone<W, B(!new)>(f: nat -> W, measure: W -> nat, blocked: (W, B) -> bool,
                                                      done: W -> bool, n: nat) returns (m: nat)
    requires Steady(f, measure, blocked, done) && Progressing(f, measure, blocked, done) && Fair(f, blocked)
    ensures n <= m && done(f(m))
    decreases measure(f(n))
  {
    m := n;
    if !done(f(n)) {
      var k := EventuallyLower(f, measure, blocked, done, n);
      m := EventuallyDone(f, measure, blocked, done, k);
    }
  }
}

/** Jobs as both workflows look at them. */
module Jobs {
  import opened Kube

  /** A job of the operator asks for one completion. */
  predicate Succeeded(o: Obj) {
    o.body.JobBody? && o.body.succeeded == 1
  }

  predicate JobDone(objects: Objects, key: Key) {
    key in objects && Succeeded(objects[key])
  }

  predicate JobRunning(objects: Objects, key: Key) {
    key in objects && !Succeeded(objects[key])
  }

  predicate JobGoing(objects: Objects, key: Key) {
    key in objects && objects[key].deleting
  }

  ghost predicate SawSucceeded<S>(p: Pass<S>, key: Key) {
    exists i :: 0 <= i < |p| && p[i].Got? && p[i].key == key && p[i].answer.Found? && Succeeded(p[i].answer.obj)
  }

  ghost predicate SawPresent<S>(p: Pass<S>, key: Key) {
    exists i :: 0 <= i < |p| && p[i].Got? && p[i].key == key && p[i].answer.Found?
  }

  ghost predicate SawAbsent<S>(p: Pass<S>, key: Key) {
    Got(key, NotFound) in p
  }

  /** The object was read in this state. */
  ghost predicate SawFound<S>(p: Pass<S>, key: Key, o: Obj) {
    Got(key, Found(o)) in p
  }

  /** The object was found, or was created. */
  ghost predicate InPlace<S>(p: Pass<S>, key: Key) {
    SawPresent(p, key) || exists o :: Created(key, o, true) in p
  }

  /** Events are only added, so what was seen stays seen. */
  ghost predicate Remembers<S>(p: Pass<S>, q: Pass<S>) {
    && p <= q
    && (forall key :: SawSucceeded(p, key) ==> SawSucceeded(q, key))
    && (forall key :: SawPresent(p, key) ==> SawPresent(q, key))
    && (forall key :: SawAbsent(p, key) ==> SawAbsent(q, key))
    && (forall key, o :: SawFound(p, key, o) ==> SawFound(q, key, o))
    && (forall key :: InPlace(p, key) ==> InPlace(q, key))
  }

  lemma {:induction false} RemembersStep<S>(p: Pass<S>, e: Event<S>)
    ensures Remembers(p, p + [e])
  {
  }

  lemma {:induction false} CallsPlace<S>(p: Pass<S>, key: Key, desired: Obj, deletion: Deletion, calls: Pass<S>,
                                         ok: bool)
    requires ReconcileCalls(key, desired, deletion, calls, ok)
    ensures deletion.NotTagged? && ok ==> InPlace(p + calls, key)
  {
    if deletion.NotTagged? && ok {
      assert (p + calls)[|p|] == calls[0];
      if |calls| == 2 { assert (p + calls)[|p| + 1] == Created(key, desired, true); }
    }
  }

  function One(b: bool): nat { if b then 1 else 0 }

  /** What a job still costs: while jobs run, and while they are cleaned up. */
  function JobCost(cleaning: bool, objects: Objects, key: Key): nat {
    if cleaning then (if key !in objects then 0 else if objects[key].deleting then 1 else 2)
    else (if key !in objects then 2 else if Succeeded(objects[key]) then 0 else 1)
  }

  /** Between passes a job may succeed, or vanish once its deletion was requested. */
  predicate JobEvolves(cleaning: bool, before: Objects, after: Objects, key: Key) {
    if key in before && key in after then
      after[key] == before[key] || after[key] == before[key].(body := JobBody(1))
    else
      key !in after && (key in before ==> before[key].deleting && cleaning)
  }
}
