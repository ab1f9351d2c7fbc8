/** The per-action task statuses kept in the custom resource's status. */
module Tasks {
  import opened Kube
  import opened OperatorState

  const TASK_STARTED := "TaskStarted"
  const TASK_FINISHED := "TaskFinished"
  const ACTION_COMPLETE := "ActionComplete"

  /** Reading an action's tasks creates its (empty) entry. */
  function Touched(status: CrStatus, action: string): CrStatus
  {
    if action in status.actions then status else status.(actions := status.actions[action := map[]])
  }

  function TasksOf(status: CrStatus, action: string): TaskMap
  {
    if action in status.actions then status.actions[action] else map[]
  }

  function TaskStatus(tasks: TaskMap, task: string): string
  {
    if task in tasks then tasks[task] else ""
  }

  function TaskSet(status: CrStatus, action: string, task: string, value: string): CrStatus
  {
    status.(actions := status.actions[action := TasksOf(status, action)[task := value]])
  }

  predicate Finished(tasks: TaskMap, task: string)
  {
    TaskStatus(tasks, task) == TASK_FINISHED
  }

  function WithTask(s: Sys, action: string, task: string, value: string): Sys
  {
    s.(cr := s.cr.(status := TaskSet(s.cr.status, action, task, value)))
  }

  function WithTouch(s: Sys, action: string): Sys
  {
    s.(cr := s.cr.(status := Touched(s.cr.status, action)))
  }

  /** Reading leaves an entry behind and no other trace; setting changes one task of one action; finished is what is recorded
      so. The conditions stay out of it. */
  lemma TasksMean(status: CrStatus, action: string, task: string, value: string)
    ensures var seen := Touched(status, action); var written := TaskSet(status, action, task, value);
      && seen.conditions == status.conditions == written.conditions
      && seen.actions.Keys == written.actions.Keys == status.actions.Keys + {action}
      && (forall a :: a in status.actions ==> seen.actions[a] == status.actions[a])
      && (action !in status.actions ==> seen.actions[action] == map[])
      && (forall a :: a in status.actions && a != action ==> written.actions[a] == status.actions[a])
      && written.actions[action] == seen.actions[action][task := value]
      && (Finished(seen.actions[action], task) <==>
            action in status.actions && task in status.actions[action] && status.actions[action][task] == "TaskFinished")
  {
  }

  method IsTaskFinished(op: Operator, action: string, task: string) returns (finished: bool)
    modifies op`cr
    ensures op.Now() == WithTouch(old(op.Now()), action)
    ensures finished == Finished(TasksOf(old(op.cr.status), action), task)
  {
    if action !in op.cr.status.actions {
      op.cr := op.cr.(status := op.cr.status.(actions := op.cr.status.actions[action := map[]]));
    }
    var tasks := op.cr.status.actions[action];
    finished := task in tasks && tasks[task] == TASK_FINISHED;
  }

  method SetTaskStatus(op: Operator, action: string, task: string, value: string)
    modifies op`cr
    ensures op.Now() == WithTask(old(op.Now()), action, task, value)
  {
    var actions := op.cr.status.actions;
    if action !in actions { actions := actions[action := map[]]; }
    actions := actions[action := actions[action][task := value]];
    op.cr := op.cr.(status := op.cr.status.(actions := actions));
  }
}
