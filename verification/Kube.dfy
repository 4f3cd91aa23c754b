/**
 The cluster as the backup and restore controllers see it: stored objects, the persisted status of the custom
 resource, and the calls made in each pass. Between any two calls the environment may change the objects at will;
 the status is written by its own controller only. A failed write may or may not have taken effect.
 */
module Kube {
  import opened Calls
  import opened Options

  datatype Kind = Job | Secret | PersistentVolumeClaim | APIManager | ServiceAccount | Role | RoleBinding

  datatype Key = Key(kind: Kind, name: string)

  /** The custom resource of a backup or a restore. */
  datatype Ident = Ident(uid: string, name: string)

  /** An APIManager as serialised in the shared secret. */
  datatype SavedAPIManager = SavedAPIManager(name: string, storageClass: Option<string>)

  datatype Body =
    | JobBody(succeeded: int)
    | SecretBody(data: Option<Option<SavedAPIManager>>)  // no such key, or data that may not decode
    | ClaimBody(storageClass: Option<string>)
    | APIManagerBody(readyDeployments: set<string>, available: Option<bool>)
    | PlainBody

  datatype Obj = Obj(body: Body, deleting: bool)

  type Objects = map<Key, Obj>

  datatype Answer = Found(obj: Obj) | NotFound | Failed

  datatype Deletion = NotTagged | Tagged | TaggedForeground

  /** A call made by a controller with its outcome, or a mark it left. */
  datatype Event<S> =
    | PassStart(status: S)
    | Got(key: Key, answer: Answer)
    | Created(key: Key, obj: Obj, ok: bool)
    | Deleted(key: Key, ok: bool)
    | StatusWritten(status: S, applied: bool, ok: bool)
    | LackedSecret

  /** The events of one pass, in order. */
  type Pass<S> = seq<Event<S>>

  /** The persisted status after the events of a pass that began with status s. */
  function StatusAfter<S>(s: S, p: Pass<S>): S {
    if p == [] then s else
    var before := StatusAfter(s, p[..|p| - 1]);
    match p[|p| - 1]
    case StatusWritten(written, applied, _) => if applied then written else before
    case _ => before
  }

  lemma {:induction false} StatusAfterStep<S>(s: S, p: Pass<S>, e: Event<S>)
    ensures StatusAfter(s, p + [e]) == if e.StatusWritten? && e.applied then e.status else StatusAfter(s, p)
  {
  }

  // ---------- Runs: successive passes over one custom resource ----------

  function StatusBefore<S>(first: S, run: seq<Pass<S>>, n: nat): S
    requires n <= |run|
  {
    if n == 0 then first else StatusAfter(StatusBefore(first, run, n - 1), run[n - 1])
  }

  /** Each pass begins with the status that the earlier ones left persisted. */
  ghost predicate Chained<S>(first: S, run: seq<Pass<S>>) {
    forall n :: 0 <= n < |run| ==> run[n] != [] && run[n][0] == PassStart(StatusBefore(first, run, n))
  }

  lemma {:induction false} StatusBeforeExtends<S>(first: S, run: seq<Pass<S>>, p: Pass<S>, n: nat)
    requires n <= |run|
    ensures StatusBefore(first, run + [p], n) == StatusBefore(first, run, n)
  {
    if n > 0 {
      StatusBeforeExtends(first, run, p, n - 1);
    }
  }

  lemma {:induction false} ChainExtends<S>(first: S, run: seq<Pass<S>>, p: Pass<S>)
    requires Chained(first, run) && p != [] && p[0] == PassStart(StatusBefore(first, run, |run|))
    ensures Chained(first, run + [p])
    ensures StatusBefore(first, run + [p], |run| + 1) == StatusAfter(p[0].status, p)
  {
    hide StatusAfter;
    forall n | 0 <= n < |run + [p]|
      ensures (run + [p])[n] != [] && (run + [p])[n][0] == PassStart(StatusBefore(first, run + [p], n))
    {
      StatusBeforeExtends(first, run, p, n);
    }
    StatusBeforeExtends(first, run, p, |run|);
  }

  /** The pass in which something first becomes true of the persisted status. */
  lemma {:induction false} FirstTime<S>(flag: S -> bool, first: S, run: seq<Pass<S>>, n: nat) returns (b: nat)
    requires n <= |run| && !flag(first) && flag(StatusBefore(first, run, n))
    ensures b < n && !flag(StatusBefore(first, run, b)) && flag(StatusBefore(first, run, b + 1))
  {
    b := n - 1;
    if flag(StatusBefore(first, run, n - 1)) { b := FirstTime(flag, first, run, n - 1); }
  }

  class Cluster<S> {
    var objects: Objects
    var status: S
    /** The environment leaves the objects alone while a pass runs. */
    const quiet: bool
    /** No call fails for a reason outside the program. */
    const reliable: bool

    /** Earlier passes, and the events of the current one. */
    ghost var past: seq<Pass<S>>
    ghost var pass: Pass<S>

    ghost predicate Valid()
      reads this
    {
      && pass != [] && pass[0].PassStart?
      && status == StatusAfter(pass[0].status, pass)
    }

    constructor (objects: Objects, status: S, quiet: bool, reliable: bool)
      ensures this.objects == objects && this.status == status && this.quiet == quiet && this.reliable == reliable
      ensures past == [] && pass == []
    {
      this.objects, this.status, this.quiet, this.reliable := objects, status, quiet, reliable;
      past, pass := [], [];
    }

    method Interfere()
      modifies this`objects
      ensures quiet ==> objects == old(objects)
    {
      if !quiet {
        objects := *;
      }
    }

    ghost method Record(e: Event<S>)
      requires Valid() && !e.StatusWritten?
      modifies this`pass
      ensures Valid() && pass == old(pass) + [e]
    {
      StatusAfterStep(pass[0].status, pass, e);
      pass := pass + [e];
    }

    /** Begins a pass by reading the custom resource. */
    method Begin() returns (s: S)
      modifies this`past, this`pass
      ensures Valid() && s == status
      ensures pass == [PassStart(s)]
      ensures past == if old(pass) == [] then old(past) else old(past) + [old(pass)]
    {
      s := status;
      if pass != [] { past := past + [pass]; }
      pass := [PassStart(s)];
      assert pass[..0] == [];
    }

    method Get(key: Key) returns (answer: Answer)
      requires Valid()
      modifies this`objects, this`pass
      ensures Valid() && pass == old(pass) + [Got(key, answer)]
      ensures quiet ==> objects == old(objects)
      ensures reliable ==> !answer.Failed?
      ensures answer.Found? ==> key in objects && objects[key] == answer.obj
      ensures answer.NotFound? ==> key !in objects
    {
      Interfere();
      var ok, applied := Fate(reliable);
      answer := if !ok then Failed else if key in objects then Found(objects[key]) else NotFound;
      Record(Got(key, answer));
    }

    /** The names of the stored APIManagers. */
    method ListAPIManagers() returns (ok: bool, names: set<string>)
      modifies this`objects
      ensures quiet ==> objects == old(objects)
      ensures reliable ==> ok
      ensures names == set k | k in objects && k.kind == APIManager :: k.name
    {
      Interfere();
      var applied: bool;
      ok, applied := Fate(reliable);
      names := set k | k in objects && k.kind == APIManager :: k.name;
    }

    method Create(key: Key, obj: Obj) returns (ok: bool)
      requires Valid()
      modifies this`objects, this`pass
      ensures Valid() && pass == old(pass) + [Created(key, obj, ok)]
      ensures quiet && reliable && key !in old(objects) ==> ok
      ensures quiet && ok ==> key !in old(objects) && objects == old(objects)[key := obj]
    {
      Interfere();
      var applied: bool;
      ok, applied := Fate(reliable);
      ok := ok && key !in objects;
      if applied && key !in objects {
        objects := objects[key := obj];
      }
      Record(Created(key, obj, ok));
    }

    /** A deleted object disappears at once or stays, marked, until its dependents or finalizers are gone. */
    method Delete(key: Key) returns (ok: bool)
      requires Valid()
      modifies this`objects, this`pass
      ensures Valid() && pass == old(pass) + [Deleted(key, ok)]
      ensures quiet && reliable && key in old(objects) ==> ok
      ensures quiet && ok ==> key in old(objects) && (objects == old(objects) - {key}
                              || objects == old(objects)[key := old(objects)[key].(deleting := true)])
    {
      Interfere();
      var applied: bool;
      ok, applied := Fate(reliable);
      ok := ok && key in objects;
      if applied && key in objects {
        var atOnce: bool := *;
        objects := if atOnce then objects - {key} else objects[key := objects[key].(deleting := true)];
      }
      Record(Deleted(key, ok));
    }

    method UpdateStatus(s: S) returns (ok: bool)
      requires Valid()
      modifies this`status, this`pass
      ensures Valid() && reliable ==> ok
      ensures ok ==> status == s
      ensures Valid() && exists applied :: (ok ==> applied) && pass == old(pass) + [StatusWritten(s, applied, ok)]
    {
      var applied: bool;
      ok, applied := Fate(reliable);
      StatusAfterStep(pass[0].status, pass, StatusWritten(s, applied, ok));
      pass := pass + [StatusWritten(s, applied, ok)];
      if applied { status := s; }
    }

    /** Creates, deletes or leaves alone one object; nothing is ever updated by the callers modelled here. */
    method ReconcileResource(key: Key, desired: Obj, deletion: Deletion) returns (ok: bool, ghost calls: Pass<S>)
      requires Valid()
      modifies this`objects, this`pass
      ensures Valid() && pass == old(pass) + calls && ReconcileCalls(key, desired, deletion, calls, ok)
      ensures quiet && reliable ==> ok
      ensures quiet && ok && deletion.NotTagged? ==>
                objects == if key in old(objects) then old(objects) else old(objects)[key := desired]
      ensures quiet && ok && !deletion.NotTagged? && key !in old(objects) ==> objects == old(objects)
      ensures quiet && ok && !deletion.NotTagged? && key in old(objects) ==>
                objects == old(objects) - {key}
                || objects == old(objects)[key := old(objects)[key].(deleting := true)]
    {
      var answer := Get(key);
      calls := [Got(key, answer)];
      match answer
      case Failed =>
        ok := false;
      case NotFound =>
        ok := true;
        if deletion.NotTagged? {
          ok := Create(key, desired);
          calls := calls + [Created(key, desired, ok)];
        }
      case Found(_) =>
        ok := true;
        if !deletion.NotTagged? {
          ok := Delete(key);
          calls := calls + [Deleted(key, ok)];
        }
    }
  }

  /** What reconciling one object may ask of the cluster: what is tagged for deletion is never created. */
  ghost predicate ReconcileCalls<S>(key: Key, desired: Obj, deletion: Deletion, calls: Pass<S>, ok: bool) {
    && 1 <= |calls| <= 2 && calls[0].Got? && calls[0].key == key
    && (calls[0].answer.Failed? ==> !ok && |calls| == 1)
    && (|calls| == 1 && !calls[0].answer.Failed? ==> ok && (calls[0].answer.Found? <==> deletion.NotTagged?))
    && (|calls| == 2 ==>
          if deletion.NotTagged? then calls[0].answer.NotFound? && calls[1] == Created(key, desired, ok)
          else calls[0].answer.Found? && calls[1] == Deleted(key, ok))
  }
}
