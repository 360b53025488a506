/**
 * The task handlers. Each runs after `authorize`, so `req.user` is set, and every query it
 * issues is keyed on the caller's id as well as the task id taken from the path. A path id that
 * is not an ObjectId makes the query throw a CastError; a miss becomes a 404 error. Every error
 * is passed to `next`.
 */
module TaskController {
  import opened Wrappers
  import opened Crypto
  import opened Errors
  import opened TaskModel
  import opened Http

  const TaskNotFound := "Task not found"
  const TaskDeleted := "Task deleted successfully"

  /** `createTask`: one new task owned by the caller, answered with 201. */
  method CreateTask(tasks: TaskStore, req: Request, res: Response,
                    title: Option<string>, description: Option<string>, now: nat)
    requires tasks.Valid() && req.user.Some?
    modifies tasks, res`statusCode, res`body, res`nextCalls, res`forwarded
    ensures tasks.Valid()
    ensures TaskFieldErrors(title) != [] ==>
              && tasks.tasks == old(tasks.tasks)
              && res.nextCalls == old(res.nextCalls) + 1
              && res.forwarded == Some(ValidationFailure("Task", [TitleRequired]))
              && res.body == old(res.body) && res.statusCode == old(res.statusCode)
    ensures TaskFieldErrors(title) == [] ==>
              var t := NewTask(old(tasks.nextId), req.user.value.id, title.value, description, now);
              && t.id !in old(tasks.tasks)
              && tasks.tasks == old(tasks.tasks)[t.id := t]
              && res.statusCode == 201 && res.body == Some(TaskData(t))
              && res.nextCalls == old(res.nextCalls) && res.forwarded == old(res.forwarded)
  {
    var created := tasks.Create(req.user.value.id, title, description, now);
    if created.Err? {
      res.Next(Some(created.error));
      return;
    }
    res.Json(201, TaskData(created.value));
  }

  /** `getTasks`: exactly the caller's tasks, newest first, with their count. */
  method GetTasks(tasks: TaskStore, req: Request, res: Response)
    requires tasks.Valid() && req.user.Some?
    modifies res`statusCode, res`body
    ensures res.statusCode == 200 && res.body.Some? && res.body.value.TaskList?
    ensures var list := res.body.value.tasks;
      && res.body.value.count == |list|
      && (forall t :: t in list <==> t.id in tasks.tasks && tasks.tasks[t.id] == t && t.owner == req.user.value.id)
      && (forall i, j :: 0 <= i < j < |list| ==> list[i] != list[j])
      && (forall i, j :: 0 <= i < j < |list| ==> list[i].createdAt >= list[j].createdAt)
  {
    var found := tasks.FindByOwner(req.user.value.id);
    res.Json(200, TaskList(|found|, found));
  }

  /** `getTask`: the task with this id when the caller owns it, else a 404 error. */
  method GetTask(tasks: TaskStore, req: Request, res: Response, idText: string)
    requires tasks.Valid() && req.user.Some?
    modifies res`statusCode, res`body, res`nextCalls, res`forwarded
    ensures var id := ParseDecimal(idText);
      if id.None? then
        && res.nextCalls == old(res.nextCalls) + 1 && res.forwarded == Some(CastFailure(idText))
        && res.body == old(res.body) && res.statusCode == old(res.statusCode)
      else if id.value in tasks.tasks && tasks.tasks[id.value].owner == req.user.value.id then
        && res.statusCode == 200 && res.body == Some(TaskData(tasks.tasks[id.value]))
        && res.nextCalls == old(res.nextCalls) && res.forwarded == old(res.forwarded)
      else
        && res.nextCalls == old(res.nextCalls) + 1 && res.forwarded == Some(AppError(404, TaskNotFound))
        && res.body == old(res.body) && res.statusCode == old(res.statusCode)
  {
    var id := ParseDecimal(idText);
    if id.None? {
      res.Next(Some(CastFailure(idText)));
      return;
    }
    var task := tasks.FindOne(id.value, req.user.value.id);
    if task.None? {
      res.Next(Some(AppError(404, TaskNotFound)));
      return;
    }
    res.Json(200, TaskData(task.value));
  }

  /** `updateTask`: only the caller's task with this id may change, and the updated document
      is answered; on a miss nothing changes. */
  method UpdateTask(tasks: TaskStore, req: Request, res: Response, idText: string,
                    title: Option<string>, description: Option<string>, completed: Option<bool>, now: nat)
    requires tasks.Valid() && req.user.Some?
    modifies tasks, res`statusCode, res`body, res`nextCalls, res`forwarded
    ensures tasks.Valid()
    ensures var id := ParseDecimal(idText);
      if id.None? then
        && tasks.tasks == old(tasks.tasks)
        && res.nextCalls == old(res.nextCalls) + 1 && res.forwarded == Some(CastFailure(idText))
        && res.body == old(res.body) && res.statusCode == old(res.statusCode)
      else if id.value in old(tasks.tasks) && old(tasks.tasks)[id.value].owner == req.user.value.id then
        && id.value in tasks.tasks
        && tasks.tasks == old(tasks.tasks)[id.value := tasks.tasks[id.value]]
        && tasks.tasks[id.value].owner == req.user.value.id
        && tasks.tasks[id.value].createdAt == old(tasks.tasks)[id.value].createdAt
        && tasks.tasks[id.value].updatedAt == now
        && res.statusCode == 200 && res.body == Some(TaskData(tasks.tasks[id.value]))
        && res.nextCalls == old(res.nextCalls) && res.forwarded == old(res.forwarded)
      else
        && tasks.tasks == old(tasks.tasks)
        && res.nextCalls == old(res.nextCalls) + 1 && res.forwarded == Some(AppError(404, TaskNotFound))
        && res.body == old(res.body) && res.statusCode == old(res.statusCode)
  {
    var id := ParseDecimal(idText);
    if id.None? {
      res.Next(Some(CastFailure(idText)));
      return;
    }
    var task := tasks.FindOneAndUpdate(id.value, req.user.value.id, title, description, completed, now);
    if task.None? {
      res.Next(Some(AppError(404, TaskNotFound)));
      return;
    }
    res.Json(200, TaskData(task.value));
  }

  /** `deleteTask`: removes the caller's task with this id and nothing else; on a miss nothing
      changes. */
  method DeleteTask(tasks: TaskStore, req: Request, res: Response, idText: string)
    requires tasks.Valid() && req.user.Some?
    modifies tasks, res`statusCode, res`body, res`nextCalls, res`forwarded
    ensures tasks.Valid()
    ensures var id := ParseDecimal(idText);
      if id.None? then
        && tasks.tasks == old(tasks.tasks)
        && res.nextCalls == old(res.nextCalls) + 1 && res.forwarded == Some(CastFailure(idText))
        && res.body == old(res.body) && res.statusCode == old(res.statusCode)
      else if id.value in old(tasks.tasks) && old(tasks.tasks)[id.value].owner == req.user.value.id then
        && tasks.tasks == old(tasks.tasks) - {id.value}
        && res.statusCode == 200 && res.body == Some(Notice(TaskDeleted))
        && res.nextCalls == old(res.nextCalls) && res.forwarded == old(res.forwarded)
      else
        && tasks.tasks == old(tasks.tasks)
        && res.nextCalls == old(res.nextCalls) + 1 && res.forwarded == Some(AppError(404, TaskNotFound))
        && res.body == old(res.body) && res.statusCode == old(res.statusCode)
  {
    var id := ParseDecimal(idText);
    if id.None? {
      res.Next(Some(CastFailure(idText)));
      return;
    }
    var task := tasks.FindOneAndDelete(id.value, req.user.value.id);
    if task.None? {
      res.Next(Some(AppError(404, TaskNotFound)));
      return;
    }
    res.Json(200, Notice(TaskDeleted));
  }
}
