/** `task_router.py`: the Admin guards in front of the task services, the
    unguarded status change, and the two read handlers that attach member
    references to tasks. The task services themselves are collaborators:
    their results are parameters. */
module TaskRouter {
  import opened Common
  import opened Tables

  /** `user.role != "Admin"` refuses: only the stored value of the Admin
      role passes, compared exactly; "Member", any other spelling and a
      session without a role are refused. */
  function IsTaskAdmin(role: Option<string>): (b: bool)
    ensures b <==> role.Some? && role.value == RoleValue(Admin)
    ensures b ==> role.value != RoleValue(Member)
  {
    role == Some("Admin")
  }

  const NotAdminCreate := HttpError(Forbidden, "Only admins can create tasks.")
  const NotAdminUpdate := HttpError(Forbidden, "Only admins can update tasks.")
  const TaskNotFound := HttpError(NotFound, "Task not found")
  const ProjectNotFound := HttpError(NotFound, "Project not found")
  /** `status.HTTP_404_NOT_FOUND` looked up on the `status` parameter, which
      hides the fastapi `status` module inside change_task_status. */
  const StatusAttributeError := HttpError(InternalError, "AttributeError: HTTP_404_NOT_FOUND")

  /** `TaskCreate`: the request body; `assignee` is overwritten. */
  datatype TaskCreate = TaskCreate(assignee: Option<nat>, fields: map<string, string>)

  /** A task row. */
  datatype Task = Task(id: nat, fields: map<string, string>)

  /** `create_new_task`: Admin only (403), then the caller's user row must
      exist (404); create_task receives the body with the caller's user id
      as assignee, and its result is the answer. */
  function CreateNewTask(caller: TokenData, users: seq<User>, projectId: nat, task: TaskCreate,
                         createTask: (nat, TaskCreate) -> Task): (r: Result<Task>)
    ensures !IsTaskAdmin(caller.role) ==> r == Err(NotAdminCreate)
    ensures IsTaskAdmin(caller.role) && FindUser(users, caller.email).None? ==> r == Err(UserNotFound)
    ensures r.Ok? <==> IsTaskAdmin(caller.role) && FindUser(users, caller.email).Some?
    ensures r.Ok? ==> exists k :: 0 <= k < |users| && users[k].email == caller.email &&
                                  (forall i :: 0 <= i < k ==> users[i].email != caller.email) &&
                                  r.value == createTask(projectId, task.(assignee := Some(users[k].id)))
  {
    if !IsTaskAdmin(caller.role) then Err(NotAdminCreate)
    else match FindUser(users, caller.email)
      case None => Err(UserNotFound)
      case Some(k) => Ok(createTask(projectId, task.(assignee := Some(users[k].id))))
  }

  /** `delete_existing_task`: Admin only; Ok means delete_task is called
      (answer 204). */
  function DeleteExistingTask(caller: TokenData): (r: Result<()>)
    ensures r.Ok? <==> caller.role == Some("Admin")
    ensures r.Err? ==> r.error == NotAdminCreate
  {
    if !IsTaskAdmin(caller.role) then Err(NotAdminCreate) else Ok(())
  }

  /** `add_member`: Admin only; Ok means add_member_to_task is called. */
  function AddMember(caller: TokenData): (r: Result<string>)
    ensures r.Ok? <==> caller.role == Some("Admin")
    ensures r.Err? ==> r.error == NotAdminCreate
    ensures r.Ok? ==> r.value == "Member added to task successfully."
  {
    if !IsTaskAdmin(caller.role) then Err(NotAdminCreate) else Ok("Member added to task successfully.")
  }

  /** `remove_member`: Admin only; Ok means remove_member_from_task is called. */
  function RemoveMember(caller: TokenData): (r: Result<string>)
    ensures r.Ok? <==> caller.role == Some("Admin")
    ensures r.Err? ==> r.error == NotAdminCreate
    ensures r.Ok? ==> r.value == "Member removed from task successfully."
  {
    if !IsTaskAdmin(caller.role) then Err(NotAdminCreate) else Ok("Member removed from task successfully.")
  }

  /** `update_existing_task`: Admin only; Ok means update_task is called. */
  function UpdateExistingTask(caller: TokenData): (r: Result<string>)
    ensures r.Ok? <==> caller.role == Some("Admin")
    ensures r.Err? ==> r.error == NotAdminUpdate
    ensures r.Ok? ==> r.value == "Task updated successfully"
  {
    if !IsTaskAdmin(caller.role) then Err(NotAdminUpdate) else Ok("Task updated successfully")
  }

  /** `change_task_status` as written: no role guard; when update_task_status
      reports no task the 404 branch fails on the shadowed `status` name. */
  function ChangeTaskStatusAsWritten(caller: TokenData, updated: Option<Task>): (r: Result<string>)
    ensures r.Ok? <==> updated.Some?
    ensures r.Err? ==> r.error == StatusAttributeError
    ensures r.Ok? ==> r.value == "Task status updated successfully"
  {
    if updated.None? then Err(StatusAttributeError) else Ok("Task status updated successfully")
  }

  /** For every caller, a status change of a missing task answers 500, not
      the 404 the handler spells out. */
  lemma MissingTaskStatusIsInternalError(caller: TokenData)
    ensures ChangeTaskStatusAsWritten(caller, None).Err?
    ensures ChangeTaskStatusAsWritten(caller, None).error.status == InternalError
  {
  }

  /** `change_task_status` as intended: any caller, whatever the role; 404
      exactly when update_task_status reports no task. */
  function ChangeTaskStatus(caller: TokenData, updated: Option<Task>): (r: Result<string>)
    ensures r.Ok? <==> updated.Some?
    ensures r.Err? ==> r.error == TaskNotFound
    ensures r.Ok? ==> r.value == "Task status updated successfully"
  {
    if updated.None? then Err(TaskNotFound) else Ok("Task status updated successfully")
  }

  /** The status change is the one task mutation a plain Member, or a caller
      without any membership, may perform: the handler as written has no
      role guard, and neither has its corrected form. */
  lemma StatusChangeIgnoresRole(updated: Option<Task>, email: Email, role: Option<string>)
    requires updated.Some? && !IsTaskAdmin(role)
    ensures ChangeTaskStatusAsWritten(TokenData(email, None, role), updated).Ok?
    ensures ChangeTaskStatus(TokenData(email, None, role), updated).Ok?
    ensures UpdateExistingTask(TokenData(email, None, role)).Err?
    ensures DeleteExistingTask(TokenData(email, None, role)).Err?
  {
  }

  // ---------------------------------------------------------------------
  // Member references of a task

  /** A `TaskMember` row: the user (by integer id) works on the task. */
  datatype TaskMember = TaskMember(taskId: nat, userId: nat, work: string)

  /** What the per-member user query finds: the name and, when the row has
      that attribute, the photo. */
  datatype UserRef = UserRef(name: string, photo: Option<string>)

  /** The outcome of the two queries the loop runs for a task member, keyed
      by the member's user id: the User row with that id, and the `work`
      value of the CompanyMember row the source selects for it. */
  datatype Lookups = Lookups(usersById: map<nat, UserRef>, companyMemberWork: map<nat, string>)

  /** One entry of `member_refs`. */
  datatype MemberRef = MemberRef(id: nat, name: string, work: string, photo: Option<string>)

  /** `ref` is the entry for task member `m`: its user id; the user's name,
      or "" without a user; the company member's work, or the task member's
      own; the user's photo, or None. */
  ghost predicate RefersTo(ref: MemberRef, m: TaskMember, lk: Lookups) {
    && ref.id == m.userId
    && ref.name == (if m.userId in lk.usersById then lk.usersById[m.userId].name else "")
    && ref.work == (if m.userId in lk.companyMemberWork then lk.companyMemberWork[m.userId] else m.work)
    && ref.photo == (if m.userId in lk.usersById then lk.usersById[m.userId].photo else None)
  }

  /** `select(TaskMember).where(TaskMember.task_id == taskId).all()`: every
      row of the task, as often as the table holds it. */
  function MembersOfTask(taskMembers: seq<TaskMember>, taskId: nat): (r: seq<TaskMember>)
    ensures forall m :: m in r <==> m in taskMembers && m.taskId == taskId
    ensures forall m :: multiset(r)[m] == if m.taskId == taskId then multiset(taskMembers)[m] else 0
  {
    FilterCount(taskMembers, (m: TaskMember) => m.taskId == taskId);
    Filter(taskMembers, (m: TaskMember) => m.taskId == taskId)
  }

  /** `.all()` answers in table order: a row committed last comes last among
      the task's rows, and only if it belongs to that task. */
  lemma MembersOfTaskAppend(taskMembers: seq<TaskMember>, row: TaskMember, taskId: nat)
    ensures MembersOfTask(taskMembers + [row], taskId) ==
            MembersOfTask(taskMembers, taskId) + (if row.taskId == taskId then [row] else [])
  {
    FilterSnoc(taskMembers, row, (m: TaskMember) => m.taskId == taskId);
  }

  /** The inner loop of both read handlers: one reference per task member,
      in order. */
  method MemberRefs(members: seq<TaskMember>, lk: Lookups) returns (refs: seq<MemberRef>)
    ensures |refs| == |members|
    ensures forall i :: 0 <= i < |members| ==> RefersTo(refs[i], members[i], lk)
  {
    refs := [];
    var i := 0;
    while i < |members|
      invariant 0 <= i <= |members|
      invariant |refs| == i
      invariant forall j :: 0 <= j < i ==> RefersTo(refs[j], members[j], lk)
    {
      var m := members[i];
      var user := if m.userId in lk.usersById then Some(lk.usersById[m.userId]) else None;
      var work := if m.userId in lk.companyMemberWork then lk.companyMemberWork[m.userId] else m.work;
      var ref := MemberRef(m.userId,
                           if user.Some? then user.value.name else "",
                           work,
                           if user.Some? then user.value.photo else None);
      refs := refs + [ref];
      i := i + 1;
    }
  }

  /** `TaskResponse`: a task with its member references. */
  datatype TaskResponse = TaskResponse(task: Task, members: seq<MemberRef>)

  /** `resp` answers for `task`: the task itself and one reference per
      TaskMember row of that task, in table order. */
  ghost predicate Answers(resp: TaskResponse, task: Task, taskMembers: seq<TaskMember>, lk: Lookups) {
    var ms := MembersOfTask(taskMembers, task.id);
    && resp.task == task
    && |resp.members| == |ms|
    && forall i :: 0 <= i < |ms| ==> RefersTo(resp.members[i], ms[i], lk)
  }

  /** `read_task_by_task_id`: 404 when get_task finds nothing; no role
      guard. `found` is get_task's result. */
  method ReadTaskByTaskId(found: Option<Task>, taskMembers: seq<TaskMember>, lk: Lookups)
    returns (r: Result<TaskResponse>)
    ensures r.Err? <==> found.None?
    ensures r.Err? ==> r.error == TaskNotFound
    ensures r.Ok? ==> Answers(r.value, found.value, taskMembers, lk)
  {
    if found.None? {
      return Err(TaskNotFound);
    }
    var resp := RespondTask(found.value, taskMembers, lk);
    r := Ok(resp);
  }

  /** `TaskResponse(**task_dict)` with the member references of the task,
      as both read handlers build it. */
  method RespondTask(task: Task, taskMembers: seq<TaskMember>, lk: Lookups) returns (resp: TaskResponse)
    ensures Answers(resp, task, taskMembers, lk)
  {
    var refs := MemberRefs(MembersOfTask(taskMembers, task.id), lk);
    resp := TaskResponse(task, refs);
  }

  /** One more answered task keeps the responses answering the tasks so far. */
  lemma AnswersExtend(responses: seq<TaskResponse>, resp: TaskResponse, tasks: seq<Task>,
                      taskMembers: seq<TaskMember>, lk: Lookups)
    requires |responses| < |tasks|
    requires forall j :: 0 <= j < |responses| ==> Answers(responses[j], tasks[j], taskMembers, lk)
    requires Answers(resp, tasks[|responses|], taskMembers, lk)
    ensures forall j :: 0 <= j < |responses| + 1 ==> Answers((responses + [resp])[j], tasks[j], taskMembers, lk)
  {
    forall j | 0 <= j < |responses| + 1
      ensures Answers((responses + [resp])[j], tasks[j], taskMembers, lk)
    {
      if j < |responses| {
        assert (responses + [resp])[j] == responses[j];
      } else {
        assert (responses + [resp])[j] == resp;
      }
    }
  }

  /** A `Project` row, as far as the response uses it. */
  datatype Project = Project(title: string, description: string)

  /** `ProjectWithTasksResponse`. */
  datatype ProjectWithTasks = ProjectWithTasks(title: string, description: string, tasks: seq<TaskResponse>)

  /** `read_tasks_by_project`: 404 when the project is absent; otherwise the
      project's title and description and one response per task get_tasks
      returns, in order. `project` is the primary-key lookup, `tasks`
      get_tasks' result. */
  method ReadTasksByProject(project: Option<Project>, tasks: seq<Task>, taskMembers: seq<TaskMember>, lk: Lookups)
    returns (r: Result<ProjectWithTasks>)
    ensures r.Err? <==> project.None?
    ensures r.Err? ==> r.error == ProjectNotFound
    ensures r.Ok? ==> && r.value.title == project.value.title
                      && r.value.description == project.value.description
                      && |r.value.tasks| == |tasks|
                      && forall i :: 0 <= i < |tasks| ==> Answers(r.value.tasks[i], tasks[i], taskMembers, lk)
  {
    if project.None? {
      return Err(ProjectNotFound);
    }
    var responses: seq<TaskResponse> := [];
    var i := 0;
    while i < |tasks|
      invariant 0 <= i <= |tasks|
      invariant |responses| == i
      invariant forall j :: 0 <= j < i ==> Answers(responses[j], tasks[j], taskMembers, lk)
    {
      var resp := RespondTask(tasks[i], taskMembers, lk);
      AnswersExtend(responses, resp, tasks, taskMembers, lk);
      responses := responses + [resp];
      i := i + 1;
    }
    r := Ok(ProjectWithTasks(project.value.title, project.value.description, responses));
  }
}
