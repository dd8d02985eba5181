/**
 * The back end's task views: which tasks a teacher or admin may list and
 * open, and what a student sees of the tasks of the classes they joined.
 *
 * Tables are maps keyed by id; `teacherOf` maps a class id to its teacher.
 */
module TaskViews {
  import opened Common
  import opened Permissions
  import opened Tasks

  /** A class's teacher, if the class exists. */
  predicate Teaches(teacherOf: map<int, int>, classId: int, account: Account) {
    classId in teacherOf && teacherOf[classId] == account.id
  }

  /** TaskListCreateView.get_queryset: an optional class filter, then non-admins keep their own classes' tasks. */
  function TaskListQueryset(account: Account, classFilter: Option<int>, tasks: map<int, Task>,
                            teacherOf: map<int, int>): (r: set<int>)
    ensures r <= tasks.Keys
    ensures forall id | id in r :: classFilter.Some? ==> tasks[id].classId == classFilter.value
    ensures forall id | id in tasks ::
      (id in r <==> (classFilter.None? || tasks[id].classId == classFilter.value) &&
                    (IsAdminRole(account.role) || Teaches(teacherOf, tasks[id].classId, account)))
  {
    set id | id in tasks && (classFilter.None? || tasks[id].classId == classFilter.value) &&
             (IsAdminRole(account.role) || Teaches(teacherOf, tasks[id].classId, account))
  }

  /** TaskDetailView.get_queryset: all tasks for an admin, otherwise those of the classes one teaches. */
  function TaskDetailQueryset(account: Account, tasks: map<int, Task>, teacherOf: map<int, int>): (r: set<int>)
    ensures r <= tasks.Keys
    ensures IsAdminRole(account.role) ==> r == tasks.Keys
    ensures forall id | id in tasks ::
      (id in r <==> IsAdminRole(account.role) || Teaches(teacherOf, tasks[id].classId, account))
  {
    if IsAdminRole(account.role) then tasks.Keys
    else set id | id in tasks && Teaches(teacherOf, tasks[id].classId, account)
  }

  /** Every listed task can be opened, and without a class filter the two querysets agree. */
  lemma ListedTasksOpen(account: Account, classFilter: Option<int>, tasks: map<int, Task>,
                        teacherOf: map<int, int>)
    ensures TaskListQueryset(account, classFilter, tasks, teacherOf) <= TaskDetailQueryset(account, tasks, teacherOf)
    ensures classFilter.None? ==>
      TaskListQueryset(account, classFilter, tasks, teacherOf) == TaskDetailQueryset(account, tasks, teacherOf)
  {
  }

  datatype Listing = ListRefused(status: int, message: string) | Listed(ids: set<int>)

  /** student_task_list: students only; the active tasks of the classes they joined. */
  function StudentTaskList(requester: Requester, joined: set<int>, tasks: map<int, Task>): (r: Listing)
    ensures requester.Anonymous? ==> r == ListRefused(401, "")
    ensures requester.Authenticated? && !IsStudentRole(requester.account.role) ==>
      r == ListRefused(403, "只有学生可以访问")
    ensures IsStudent(requester) ==>
      r.Listed? && forall id :: id in r.ids <==> id in tasks && tasks[id].isActive && tasks[id].classId in joined
  {
    if requester.Anonymous? then ListRefused(401, "")
    else if !IsStudentRole(requester.account.role) then ListRefused(403, "只有学生可以访问")
    else Listed(set id | id in tasks && tasks[id].isActive && tasks[id].classId in joined)
  }

  datatype Shown = ShowRefused(status: int, message: string) | Shown(task: Task)

  /**
   * student_task_detail: students only, then an existing active task, then
   * membership of its class; the task is shown with its test cases in case
   * order and the hidden ones removed.
   */
  function StudentTaskDetail(requester: Requester, joined: set<int>, tasks: map<int, Task>, id: int): (r: Shown)
    ensures requester.Anonymous? ==> r == ShowRefused(401, "")
    ensures requester.Authenticated? && !IsStudentRole(requester.account.role) ==>
      r == ShowRefused(403, "只有学生可以访问")
    ensures IsStudent(requester) ==>
      if id !in tasks || !tasks[id].isActive then r == ShowRefused(404, "任务不存在")
      else if tasks[id].classId !in joined then r == ShowRefused(403, "您没有权限访问此任务")
      else r == Shown(tasks[id].(cases := Visible(ByOrder(tasks[id].cases))))
  {
    if requester.Anonymous? then ShowRefused(401, "")
    else if !IsStudentRole(requester.account.role) then ShowRefused(403, "只有学生可以访问")
    else if id !in tasks || !tasks[id].isActive then ShowRefused(404, "任务不存在")
    else if tasks[id].classId !in joined then ShowRefused(403, "您没有权限访问此任务")
    else Shown(tasks[id].(cases := Visible(ByOrder(tasks[id].cases))))
  }

  /**
   * What a student is shown: no hidden case, every visible case of the task
   * exactly as often as stored, in case order; every other attribute as stored.
   */
  lemma StudentSeesVisibleCases(requester: Requester, joined: set<int>, tasks: map<int, Task>, id: int)
    requires StudentTaskDetail(requester, joined, tasks, id).Shown?
    ensures var shown := StudentTaskDetail(requester, joined, tasks, id).task;
      && id in tasks && shown.(cases := tasks[id].cases) == tasks[id]
      && InCaseOrder(shown.cases)
      && (forall k :: 0 <= k < |shown.cases| ==> !shown.cases[k].isHidden)
      && (forall c :: multiset(shown.cases)[c] == if c.isHidden then 0 else multiset(tasks[id].cases)[c])
  {
    var sorted := ByOrder(tasks[id].cases);
    VisibleKeepsOrder(sorted);
    forall c {
      VisibleCounts(sorted, c);
    }
  }
}
