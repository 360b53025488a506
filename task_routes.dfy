/**
 * The task router: `authorize` runs in front of every task handler, so a handler runs only
 * for an authenticated caller, and the caller's id is the owner every query is keyed on.
 * This is where the tenant guarantee is stated: a request never changes, removes or returns
 * another user's task, and an unauthenticated request changes nothing.
 */
module TaskRoutes {
  import opened Wrappers
  import opened Crypto
  import opened UserModel
  import opened TaskModel
  import opened Http
  import opened AuthMiddleware
  import opened TaskController

  /** The five routes, with the path id and the body fields each handler reads. */
  datatype TaskAction =
    | CreateAction(title: Option<string>, description: Option<string>)   // POST /
    | ListAction                                                          // GET /
    | ShowAction(idText: string)                                          // GET /:id
    | UpdateAction(idText: string, title: Option<string>, description: Option<string>, completed: Option<bool>)  // PUT /:id
    | DeleteAction(idText: string)                                        // DELETE /:id

  /** The user `authorize` lets through, if any. */
  function Caller(users: map<nat, User>, cookieToken: Option<string>, authorization: Option<string>,
                  expired: set<string>): Option<nat>
  {
    var token := ExtractToken(cookieToken, authorization);
    if token.None? || token.value == "" then None
    else
      var id := Verify(token.value, expired);
      if id.Some? && id.value in users then id else None
  }

  /** The session token issued for a stored user makes that user the caller until it expires,
      whatever Authorization header comes with it. */
  lemma {:induction false} IssuedTokenNamesCaller(users: map<nat, User>, id: nat, header: Option<string>, expired: set<string>)
    requires id in users
    ensures Sign(id) !in expired ==> Caller(users, Some(Sign(id)), header, expired) == Some(id)
    ensures Sign(id) in expired ==> Caller(users, Some(Sign(id)), header, expired).None?
  {
    IssuedTokenAuthorises(id, header, expired);
    VerifySign(id, expired);
  }

  /** Between two states of the task collection, only tasks of `owner` were added, changed or
      removed. */
  ghost predicate OnlyOwnTasksTouched(before: map<nat, Task>, after: map<nat, Task>, owner: nat) {
    && (forall id :: id in before && before[id].owner != owner ==> id in after && after[id] == before[id])
    && (forall id :: id in after ==> (id in before && after[id] == before[id]) || after[id].owner == owner)
  }

  /** Requests by one caller compose: a run of them still touches only that caller's tasks. */
  lemma OnlyOwnTasksTouchedTrans(a: map<nat, Task>, b: map<nat, Task>, c: map<nat, Task>, owner: nat)
    requires OnlyOwnTasksTouched(a, b, owner) && OnlyOwnTasksTouched(b, c, owner)
    ensures OnlyOwnTasksTouched(a, c, owner)
  {
  }

  /** Another user's tasks are exactly the same before and after: none is changed, removed or
      added on their behalf. */
  lemma OtherOwnersUnaffected(before: map<nat, Task>, after: map<nat, Task>, owner: nat, other: nat)
    requires OnlyOwnTasksTouched(before, after, owner) && other != owner
    ensures forall id :: id in after && after[id].owner == other <==> id in before && before[id].owner == other
    ensures forall id :: id in before && before[id].owner == other ==> after[id] == before[id]
  {
  }

  /** Every task a body carries belongs to `owner`. */
  predicate ShowsOnly(body: Body, owner: nat) {
    match body
    case TaskData(t) => t.owner == owner
    case TaskList(_, ts) => forall t :: t in ts ==> t.owner == owner
    case _ => true
  }

  /** The route table: the handler for the action, run for the authenticated caller. */
  method Dispatch(tasks: TaskStore, req: Request, res: Response, action: TaskAction, now: nat)
    requires tasks.Valid() && req.user.Some?
    modifies tasks, res`statusCode, res`body, res`nextCalls, res`forwarded
    ensures tasks.Valid()
    ensures OnlyOwnTasksTouched(old(tasks.tasks), tasks.tasks, req.user.value.id)
    ensures res.body == old(res.body) || (res.body.Some? && ShowsOnly(res.body.value, req.user.value.id))
  {
    match action {
      case CreateAction(title, description) =>
        CreateTask(tasks, req, res, title, description, now);
      case ListAction =>
        GetTasks(tasks, req, res);
      case ShowAction(idText) =>
        GetTask(tasks, req, res, idText);
      case UpdateAction(idText, title, description, completed) =>
        UpdateTask(tasks, req, res, idText, title, description, completed, now);
      case DeleteAction(idText) =>
        DeleteTask(tasks, req, res, idText);
    }
  }

  /** One request to the task router: `authorize`, then the route's handler. */
  method HandleTaskRequest(users: UserStore, tasks: TaskStore, req: Request, res: Response,
                           expired: set<string>, action: TaskAction, now: nat)
    requires users.Valid() && tasks.Valid()
    modifies tasks, req`user, res`statusCode, res`body, res`nextCalls, res`forwarded
    ensures tasks.Valid()
    ensures var caller := Caller(users.users, req.cookieToken, req.authorization, expired);
      caller.None? ==>
        && tasks.tasks == old(tasks.tasks)
        && res.statusCode == 401 && res.body.Some? && res.body.value.Failure?
        && res.nextCalls == old(res.nextCalls) && res.forwarded == old(res.forwarded)
        && req.user == old(req.user)
    ensures var caller := Caller(users.users, req.cookieToken, req.authorization, expired);
      caller.Some? ==>
        && req.user.Some? && req.user.value.id == caller.value
        && OnlyOwnTasksTouched(old(tasks.tasks), tasks.tasks, caller.value)
        && (res.body == old(res.body) || (res.body.Some? && ShowsOnly(res.body.value, caller.value)))
  {
    var calls := res.nextCalls;
    Authorize(users, req, res, expired);
    if res.nextCalls == calls {
      return;
    }
    Dispatch(tasks, req, res, action, now);
  }
}
