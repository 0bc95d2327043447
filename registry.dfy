/** The running-task registry of bt/main.py: RUNNING_TASKS, track_task
    and its done callback, and the /killall handler cancel_all_tasks.

    A task is named by the id it gets when it is created. The event loop
    (which marks a task done and later runs its done callbacks) is not
    modelled; Complete and RunDoneCallback are its two steps, called from
    outside. task.cancel() only requests cancellation: the task stays not
    done until the event loop delivers it. */
module Registry {
  type TaskId = nat

  /** What the registry can observe of a task: task.done(), and whether
      task.cancel() was called on it. */
  datatype TaskState = TaskState(done: bool, cancelRequested: bool)

  const Fresh := TaskState(false, false)

  /** The tasks of a registry that are not done. */
  function NotDone(m: map<TaskId, TaskState>): set<TaskId> {
    set t | t in m && !m[t].done
  }

  /** The registry after cancel_all_tasks: the same tasks, every one that
      was not done now has a cancellation request, nothing else changes. */
  function CancelRequested(m: map<TaskId, TaskState>): (r: map<TaskId, TaskState>)
    ensures r.Keys == m.Keys
    ensures forall t :: t in m ==> r[t].done == m[t].done
    ensures forall t :: t in m ==> r[t].cancelRequested == (m[t].cancelRequested || !m[t].done)
  {
    map t | t in m :: if m[t].done then m[t] else m[t].(cancelRequested := true)
  }

  /** A second /killall right after the first changes nothing more, and
      counts the same tasks again: cancelling does not make a task done. */
  lemma CancelAgain(m: map<TaskId, TaskState>)
    ensures CancelRequested(CancelRequested(m)) == CancelRequested(m)
    ensures NotDone(CancelRequested(m)) == NotDone(m)
  {
  }

  /** A task tracked and then removed by its own done callback leaves the
      registry as it was. */
  lemma TrackThenDiscard(m: map<TaskId, TaskState>, t: TaskId)
    requires t !in m
    ensures (m[t := Fresh] - {t}) == m
    ensures NotDone(m[t := Fresh]) == NotDone(m) + {t}
  {
  }

  /** The registry part way through the loop: the tasks still in `todo`
      are untouched, the others are as CancelRequested leaves them. */
  function CancelledExcept(m: map<TaskId, TaskState>, todo: set<TaskId>): map<TaskId, TaskState> {
    map t | t in m :: if t in todo || m[t].done then m[t] else m[t].(cancelRequested := true)
  }

  /** Handling one more task t of `todo`: t is still as it was, it gets a
      cancellation request iff it is not done, and the count of handled
      tasks that are not done grows by one exactly then. */
  lemma CancelStep(m: map<TaskId, TaskState>, todo: set<TaskId>, t: TaskId)
    requires t in todo && todo <= m.Keys
    ensures CancelledExcept(m, todo)[t] == m[t]
    ensures CancelledExcept(m, todo - {t}) ==
            if m[t].done then CancelledExcept(m, todo)
            else CancelledExcept(m, todo)[t := m[t].(cancelRequested := true)]
    ensures |NotDone(m) - (todo - {t})| == |NotDone(m) - todo| + if m[t].done then 0 else 1
  {
    var nd := NotDone(m);
    if t in nd {
      assert nd - (todo - {t}) == (nd - todo) + {t};
    } else {
      assert nd - (todo - {t}) == nd - todo;
    }
  }

  lemma CancelledExceptNone(m: map<TaskId, TaskState>)
    ensures CancelledExcept(m, {}) == CancelRequested(m)
  {
  }

  /** The loop of cancel_all_tasks over list(RUNNING_TASKS), in whatever
      order the set yields its tasks. */
  method CancelEach(m: map<TaskId, TaskState>) returns (r: map<TaskId, TaskState>, cancelled: nat)
    ensures r == CancelRequested(m)
    ensures cancelled == |NotDone(m)|
  {
    var todo := m.Keys;
    r := m;
    assert r == CancelledExcept(m, todo);
    assert NotDone(m) - todo == {};
    cancelled := 0;
    while todo != {}
      invariant todo <= m.Keys
      invariant r == CancelledExcept(m, todo)
      invariant cancelled == |NotDone(m) - todo|
      decreases |todo|
    {
      var t :| t in todo;
      CancelStep(m, todo, t);
      if !r[t].done {
        r := r[t := r[t].(cancelRequested := true)];
        cancelled := cancelled + 1;
      }
      todo := todo - {t};
    }
    assert NotDone(m) - {} == NotDone(m);
    CancelledExceptNone(m);
  }

  class TaskRegistry {
    /** RUNNING_TASKS: tracked tasks whose done callback has not run yet. */
    var running: map<TaskId, TaskState>
    /** The id the next created task gets. */
    var nextId: TaskId

    ghost predicate Valid()
      reads this
    {
      forall t :: t in running ==> t < nextId
    }

    constructor()
      ensures Valid()
      ensures running == map[] && nextId == 0
    {
      running := map[];
      nextId := 0;
    }

    /** track_task: create the task and add it to the registry. */
    method Track() returns (t: TaskId)
      requires Valid()
      modifies this
      ensures Valid()
      ensures t == old(nextId) && t !in old(running)
      ensures running == old(running)[t := Fresh]
      ensures nextId == old(nextId) + 1
    {
      t := nextId;
      running := running[t := Fresh];
      nextId := nextId + 1;
    }

    /** The event loop finishes task t (normally, by an exception or by a
        delivered cancellation). */
    method Complete(t: TaskId)
      requires Valid()
      modifies this
      ensures Valid()
      ensures t in old(running) ==> running == old(running)[t := old(running)[t].(done := true)]
      ensures t !in old(running) ==> running == old(running)
      ensures nextId == old(nextId)
    {
      if t in running {
        running := running[t := running[t].(done := true)];
      }
    }

    /** The done callback _remove: RUNNING_TASKS.discard(task). */
    method RunDoneCallback(t: TaskId)
      requires Valid()
      modifies this
      ensures Valid()
      ensures running == old(running) - {t}
      ensures nextId == old(nextId)
    {
      running := running - {t};
    }

    /** cancel_all_tasks: over a snapshot of the registry, cancel each task
        that is not done and count it. */
    method CancelAll() returns (cancelled: nat)
      requires Valid()
      modifies this
      ensures Valid()
      ensures running == CancelRequested(old(running))
      ensures cancelled == |NotDone(old(running))|
      ensures nextId == old(nextId)
    {
      running, cancelled := CancelEach(running);
    }
  }
}
