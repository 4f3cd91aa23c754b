/** Tasks run in order; the deletion of a method still in use is reported at the end, any other error at once. */
module Tasks {

  datatype TaskOutcome = Succeeded | MethodInUse | Failed

  datatype Executed = Executed(name: string, outcome: TaskOutcome)

  datatype RunResult = Success | MethodIsBeingDeleted | TaskFailed(name: string)

  ghost predicate RanAll(tasks: seq<string>, log: seq<Executed>) {
    |log| == |tasks| && forall i :: 0 <= i < |log| ==> log[i].name == tasks[i]
  }

  ghost predicate RanUpToFailure(tasks: seq<string>, log: seq<Executed>) {
    && 0 < |log| <= |tasks|
    && (forall i :: 0 <= i < |log| ==> log[i].name == tasks[i])
    && log[|log| - 1].outcome.Failed?
    && forall i :: 0 <= i < |log| - 1 ==> !log[i].outcome.Failed?
  }

  /** A failure that can wait until the other tasks have run. */
  ghost predicate OnlyDeferred(log: seq<Executed>) {
    && (forall i :: 0 <= i < |log| ==> !log[i].outcome.Failed?)
    && (exists i :: 0 <= i < |log| && log[i].outcome.MethodInUse?)
  }

  /** Each result means exactly one kind of run. */
  ghost predicate Means(tasks: seq<string>, log: seq<Executed>, r: RunResult) {
    && (r.Success? <==> RanAll(tasks, log) && forall i :: 0 <= i < |log| ==> log[i].outcome.Succeeded?)
    && (r.MethodIsBeingDeleted? <==> RanAll(tasks, log) && OnlyDeferred(log))
    && (r.TaskFailed? <==> RanUpToFailure(tasks, log))
    && (r.TaskFailed? ==> r.name == log[|log| - 1].name)
  }

  /**
   The loop over the tasks, turned inside out: the owner of the tasks runs the current one, records its outcome, and
   asks for the result when there is no more to run.
   */
  class TaskRunner {
    var taskList: seq<string>
    /** The tasks run so far with their outcomes. */
    var log: seq<Executed>
    var deferred: bool

    ghost predicate Valid()
      reads this
    {
      && |log| <= |taskList|
      && (forall i :: 0 <= i < |log| ==> log[i].name == taskList[i])
      && (forall i :: 0 <= i < |log| - 1 ==> !log[i].outcome.Failed?)
      && (deferred <==> exists i :: 0 <= i < |log| && log[i].outcome.MethodInUse?)
    }

    constructor ()
      ensures Valid() && taskList == [] && log == []
    {
      taskList, log, deferred := [], [], false;
    }

    method AddTask(name: string)
      requires Valid() && log == []
      modifies this`taskList
      ensures Valid() && taskList == old(taskList) + [name]
    {
      taskList := taskList + [name];
    }

    /** A task is left, and none has failed for good. */
    predicate More()
      reads this
    {
      |log| < |taskList| && (log == [] || !log[|log| - 1].outcome.Failed?)
    }

    function Current(): string
      requires More()
      reads this
    {
      taskList[|log|]
    }

    method Record(outcome: TaskOutcome)
      requires Valid() && More()
      modifies this`log, this`deferred
      ensures Valid() && log == old(log) + [Executed(old(Current()), outcome)]
    {
      var before := log;
      log := log + [Executed(Current(), outcome)];
      deferred := deferred || outcome.MethodInUse?;
      assert log[|before|].outcome == outcome && forall i :: 0 <= i < |before| ==> log[i] == before[i];
    }

    method Result() returns (r: RunResult)
      requires Valid() && !More()
      ensures Means(taskList, log, r)
    {
      if log != [] && log[|log| - 1].outcome.Failed? {
        return TaskFailed(log[|log| - 1].name);
      }
      return if deferred then MethodIsBeingDeleted else Success;
    }

    /** Runs tasks that may have any outcome. */
    method Run() returns (r: RunResult)
      requires Valid() && log == []
      modifies this`log, this`deferred
      ensures Means(taskList, log, r)
    {
      while More()
        invariant Valid()
        decreases |taskList| - |log|
      {
        var outcome: TaskOutcome := *;
        Record(outcome);
      }
      r := Result();
    }
  }
}
