/**
 * The task routes: a gate that runs before every request and turns the
 * `Authorization` header into a user id, and five handlers over the tasks
 * table that only ever see the rows owned by that user id.
 */
module Tasks {
  import opened Wrappers
  import opened Models

  // ---------------------------------------------------------------------------
  // The gate (`before_request`)
  // ---------------------------------------------------------------------------

  /** What `verify_token` does with a token: return its subject claim, or raise. */
  datatype TokenCheck =
    | Subject(sub: string)
    | Expired       // jwt.ExpiredSignatureError, re-raised
    | Invalid       // jwt.InvalidTokenError, re-raised
    | VerifyFailed  // any other exception, re-raised as Exception

  /**
   * `uuid.UUID(s)` (None when it raises ValueError) and `str(u)`: the text
   * form of UUIDs, kept abstract.
   */
  datatype UuidText = UuidText(parse: string -> Option<Uuid>, show: Uuid -> string)

  /** What the gate does with a request. */
  datatype GateOutcome =
    | Authenticated(userId: Uuid)  // the request goes on to its handler
    | TokenMissing                 // 401 "Token is missing"
    | VerificationError(check: TokenCheck)  // the exception from verify_token escapes the hook
    | MalformedSubject             // uuid.UUID(sub) raises ValueError, which escapes the hook
    | SubjectRejected              // 401 "An error occurred while authenticating the user token"
  {
    /** The status of the reply; an exception that escapes the hook becomes a 500. */
    function Status(): int
      requires !Authenticated?
    {
      if TokenMissing? || SubjectRejected? then 401 else 500
    }
  }

  /**
   * `before_request`: an absent or empty header is refused with 401; otherwise
   * the token is verified (its exceptions are not caught), the subject is
   * parsed as a UUID (its ValueError is not caught either), and the check that
   * follows refuses only a subject that is empty and whose UUID prints as a
   * non-empty string.
   */
  function Gate(header: Option<string>, verify: string -> TokenCheck, text: UuidText): (r: GateOutcome)
    ensures r == TokenMissing <==> header.None? || header.value == ""
    ensures r.Authenticated? ==>
              && header.Some? && verify(header.value).Subject?
              && text.parse(verify(header.value).sub) == Some(r.userId)
    ensures r.VerificationError? ==> header.Some? && r.check == verify(header.value) && !r.check.Subject?
  {
    if header.None? || header.value == "" then TokenMissing
    else
      match verify(header.value)
      case Subject(sub) =>
        (match text.parse(sub)
         case None => MalformedSubject
         case Some(userId) =>
           if !(sub != "" || text.show(userId) == sub) then SubjectRejected
           else Authenticated(userId))
      case other => VerificationError(other)
  }

  /** A request without a token is refused with 401 "Token is missing". */
  lemma NoTokenIsRefused(header: Option<string>, verify: string -> TokenCheck, text: UuidText)
    requires header.None? || header.value == ""
    ensures Gate(header, verify, text) == TokenMissing
    ensures Gate(header, verify, text).Status() == 401
  {
  }

  /**
   * The gate lets a request through exactly when the header holds a token
   * whose subject parses as a UUID, and binds that UUID; this needs only that
   * the empty string is not a UUID.
   */
  lemma GateAuthenticatesParsedSubject(header: Option<string>, verify: string -> TokenCheck, text: UuidText, userId: Uuid)
    requires text.parse("") == None
    ensures Gate(header, verify, text) == Authenticated(userId) <==>
              && header.Some? && header.value != ""
              && verify(header.value).Subject?
              && text.parse(verify(header.value).sub) == Some(userId)
  {
  }

  /**
   * The check after the UUID parse refuses only an empty subject, and since
   * parsing the empty string already raised, it refuses nothing.
   */
  lemma SubjectCheckRefusesOnlyEmpty(header: Option<string>, verify: string -> TokenCheck, text: UuidText)
    ensures Gate(header, verify, text) == SubjectRejected ==>
              header.Some? && verify(header.value) == Subject("") && text.parse("").Some?
    ensures text.parse("") == None ==> Gate(header, verify, text) != SubjectRejected
  {
  }

  /**
   * An expired or otherwise unverifiable token does not get the gate's 401: the
   * exception escapes, and the reply is not the one for a missing token.
   */
  lemma VerificationErrorsEscape(header: Option<string>, verify: string -> TokenCheck, text: UuidText)
    requires header.Some? && header.value != "" && !verify(header.value).Subject?
    ensures Gate(header, verify, text) == VerificationError(verify(header.value))
    ensures Gate(header, verify, text).Status() != 401
  {
  }

  // ---------------------------------------------------------------------------
  // The tasks table and what each handler does to it
  // ---------------------------------------------------------------------------

  /** The primary-key invariant: every row is stored under its own id. */
  ghost predicate KeysAreIds(tasks: map<Uuid, Task>)
  {
    forall id :: id in tasks ==> tasks[id].id == id
  }

  /** No row that survives a change has changed owner. */
  ghost predicate OwnersKept(before: map<Uuid, Task>, after: map<Uuid, Task>)
  {
    forall id :: id in before && id in after ==> after[id].user_id == before[id].user_id
  }

  /** Every row other than the one under `id` is as it was, and no other row came or went. */
  ghost predicate OnlyEntryChanged(before: map<Uuid, Task>, after: map<Uuid, Task>, id: Uuid)
  {
    forall k :: k != id ==> (k in before <==> k in after) && (k in before ==> after[k] == before[k])
  }

  /** The rows owned by `owner`: all that any handler called by `owner` can see. */
  function OwnedBy(tasks: map<Uuid, Task>, owner: Uuid): map<Uuid, Task>
  {
    map id | id in tasks && tasks[id].user_id == owner :: tasks[id]
  }

  /** `Task.query.filter_by(id=id, user_id=owner).first()`. */
  function FindOwned(tasks: map<Uuid, Task>, id: Uuid, owner: Uuid): (r: Option<Task>)
    ensures r.Some? <==> id in OwnedBy(tasks, owner)
    ensures r.Some? ==> r.value == OwnedBy(tasks, owner)[id] && r.value.user_id == owner
  {
    if id in tasks && tasks[id].user_id == owner then Some(tasks[id]) else None
  }

  /**
   * Under the primary-key invariant the lookup by key is the query the source
   * runs on both columns: it finds a task exactly when some row has that id
   * and that owner, and then finds that row.
   */
  lemma FindOwnedIsTheQuery(tasks: map<Uuid, Task>, id: Uuid, owner: Uuid)
    requires KeysAreIds(tasks)
    ensures FindOwned(tasks, id, owner).Some? <==>
              exists t :: t in tasks.Values && t.id == id && t.user_id == owner
    ensures forall t :: t in tasks.Values && t.id == id && t.user_id == owner ==>
              FindOwned(tasks, id, owner) == Some(t)
  {
  }

  /** The body of `update_task`: each field is optional. */
  datatype Patch = Patch(title: Option<string>, description: Option<string>, completed: Option<bool>)

  /**
   * The three assignments of `update_task`: a supplied field replaces the
   * stored value, an absent one keeps it; id, owner and creation time are
   * never touched.
   */
  function ApplyPatch(t: Task, p: Patch): (r: Task)
    ensures r.id == t.id && r.user_id == t.user_id && r.created_at == t.created_at
    ensures r.title == (if p.title.Some? then p.title.value else t.title)
    ensures r.description == (if p.description.Some? then p.description.value else t.description)
    ensures r.completed == (if p.completed.Some? then p.completed.value else t.completed)
  {
    t.(title := p.title.GetOr(t.title),
       description := p.description.GetOr(t.description),
       completed := p.completed.GetOr(t.completed))
  }

  /** Applying the same partial update twice is applying it once. */
  lemma ApplyPatchIdempotent(t: Task, p: Patch)
    ensures ApplyPatch(ApplyPatch(t, p), p) == ApplyPatch(t, p)
  {
  }

  /** The replies of the five handlers. */
  datatype TaskReply =
    | TaskCreated(created: TaskDict)             // 201, the new task's as_dict
    | TaskList(listing: map<Uuid, TaskDict>)      // 200, the caller's tasks (order not modelled)
    | TaskFound(found: TaskDict)                 // 200
    | TaskUpdated(updated: TaskDict)             // 200
    | TaskDeleted                                // 200 "Task deleted successfully"
    | TaskNotFound                               // 404 "Task not found"
    | FieldMissing(key: string)                  // data[key] raises KeyError, which escapes: 500
  {
    function Status(): int
    {
      match this
      case TaskCreated(_) => 201
      case TaskNotFound => 404
      case FieldMissing(_) => 500
      case _ => 200
    }
  }

  /** A handler's reply together with the table it leaves behind. */
  datatype Outcome = Outcome(reply: TaskReply, tasks: map<Uuid, Task>)

  /** `create_task`: read title then description from the body, add a task owned by the caller. */
  function CreateOutcome(tasks: map<Uuid, Task>, owner: Uuid, title: Option<string>, description: Option<string>,
                         freshId: Uuid, now: Timestamp): (o: Outcome)
    ensures o.reply.TaskCreated? <==> title.Some? && description.Some?
    ensures o.reply.TaskCreated? ==>
              && freshId in o.tasks && o.tasks[freshId].user_id == owner && !o.tasks[freshId].completed
              && TaskFromDict(o.reply.created) == Some(o.tasks[freshId])
    ensures !o.reply.TaskCreated? ==> o.reply.FieldMissing? && o.tasks == tasks
    ensures OnlyEntryChanged(tasks, o.tasks, freshId)
  {
    if title.None? then Outcome(FieldMissing("title"), tasks)
    else if description.None? then Outcome(FieldMissing("description"), tasks)
    else
      var t := NewTask(title.value, description.value, owner, freshId, now);
      Outcome(TaskCreated(AsDict(t)), tasks[freshId := t])
  }

  /** `get_tasks`: the caller's tasks, each as its dictionary view, keyed by id. */
  function ListTasks(tasks: map<Uuid, Task>, owner: Uuid): (r: map<Uuid, TaskDict>)
    ensures r.Keys == OwnedBy(tasks, owner).Keys
    ensures forall id :: id in r ==> TaskFromDict(r[id]) == Some(OwnedBy(tasks, owner)[id])
  {
    map id | id in tasks && tasks[id].user_id == owner :: AsDict(tasks[id])
  }

  /** `get_task_by_id`: the task when the caller owns it, 404 otherwise. */
  function GetTaskById(tasks: map<Uuid, Task>, owner: Uuid, id: Uuid): (r: TaskReply)
    ensures r.TaskFound? || r == TaskNotFound
    ensures r.TaskFound? <==> id in OwnedBy(tasks, owner)
    ensures r.TaskFound? ==> TaskFromDict(r.found) == Some(OwnedBy(tasks, owner)[id])
  {
    match FindOwned(tasks, id, owner)
    case None => TaskNotFound
    case Some(t) => TaskFound(AsDict(t))
  }

  /** `update_task`: 404 and no change unless the caller owns the task, else the partial update. */
  function UpdateOutcome(tasks: map<Uuid, Task>, owner: Uuid, id: Uuid, patch: Patch): (o: Outcome)
    ensures o.reply.TaskUpdated? <==> id in OwnedBy(tasks, owner)
    ensures !o.reply.TaskUpdated? ==> o == Outcome(TaskNotFound, tasks)
    ensures o.reply.TaskUpdated? ==> id in o.tasks && TaskFromDict(o.reply.updated) == Some(o.tasks[id])
    ensures o.tasks.Keys == tasks.Keys && OnlyEntryChanged(tasks, o.tasks, id) && OwnersKept(tasks, o.tasks)
  {
    match FindOwned(tasks, id, owner)
    case None => Outcome(TaskNotFound, tasks)
    case Some(t) =>
      var t' := ApplyPatch(t, patch);
      Outcome(TaskUpdated(AsDict(t')), tasks[id := t'])
  }

  /** `delete_task`: 404 and no change unless the caller owns the task, else the row is removed. */
  function DeleteOutcome(tasks: map<Uuid, Task>, owner: Uuid, id: Uuid): (o: Outcome)
    ensures o.reply == TaskDeleted <==> id in OwnedBy(tasks, owner)
    ensures o.reply == TaskDeleted ==> o.tasks.Keys == tasks.Keys - {id}
    ensures o.reply != TaskDeleted ==> o == Outcome(TaskNotFound, tasks)
    ensures OnlyEntryChanged(tasks, o.tasks, id)
  {
    match FindOwned(tasks, id, owner)
    case None => Outcome(TaskNotFound, tasks)
    case Some(_) => Outcome(TaskDeleted, tasks - {id})
  }

  /**
   * `create_task` with both fields adds exactly one row, under the fresh id,
   * owned by the caller, not completed, with the given title and description;
   * every other row is as it was. A missing field adds nothing.
   */
  lemma CreateAddsOneOwnedTask(tasks: map<Uuid, Task>, owner: Uuid, title: Option<string>, description: Option<string>,
                               freshId: Uuid, now: Timestamp)
    requires freshId !in tasks
    ensures var o := CreateOutcome(tasks, owner, title, description, freshId, now);
      if title.Some? && description.Some? then
        && o.reply.TaskCreated?
        && o.tasks.Keys == tasks.Keys + {freshId}
        && |o.tasks| == |tasks| + 1
        && o.tasks[freshId].user_id == owner && !o.tasks[freshId].completed
        && o.tasks[freshId].title == title.value && o.tasks[freshId].description == description.value
        && OnlyEntryChanged(tasks, o.tasks, freshId)
        && TaskFromDict(o.reply.created) == Some(o.tasks[freshId])
      else
        o.reply.FieldMissing? && o.tasks == tasks
  {
    if title.Some? && description.Some? {
      var o := CreateOutcome(tasks, owner, title, description, freshId, now);
      AsDictRoundTrip(o.tasks[freshId]);
    }
  }

  /**
   * `update_task` on a task the caller owns rewrites that row only, keeping its
   * id, owner and creation time; on any other id it replies 404 and changes
   * nothing.
   */
  lemma UpdateTouchesOnlyItsTask(tasks: map<Uuid, Task>, owner: Uuid, id: Uuid, patch: Patch)
    ensures var o := UpdateOutcome(tasks, owner, id, patch);
      if id in tasks && tasks[id].user_id == owner then
        && o.reply == TaskUpdated(AsDict(o.tasks[id]))
        && o.tasks.Keys == tasks.Keys
        && o.tasks[id] == ApplyPatch(tasks[id], patch)
        && OnlyEntryChanged(tasks, o.tasks, id)
        && OwnersKept(tasks, o.tasks)
      else
        o == Outcome(TaskNotFound, tasks)
  {
  }

  /**
   * `delete_task` on a task the caller owns removes that row and no other; on
   * any other id it replies 404 and changes nothing.
   */
  lemma DeleteRemovesOnlyItsTask(tasks: map<Uuid, Task>, owner: Uuid, id: Uuid)
    ensures var o := DeleteOutcome(tasks, owner, id);
      if id in tasks && tasks[id].user_id == owner then
        && o.reply == TaskDeleted
        && o.tasks.Keys == tasks.Keys - {id}
        && |o.tasks| == |tasks| - 1
        && OnlyEntryChanged(tasks, o.tasks, id)
      else
        o == Outcome(TaskNotFound, tasks)
  {
  }

  /**
   * Another user's task cannot be told apart from a missing one: reading,
   * updating or deleting it replies exactly as if the row did not exist, and
   * changes nothing.
   */
  lemma ForeignTaskLooksMissing(tasks: map<Uuid, Task>, owner: Uuid, id: Uuid, patch: Patch)
    requires id in tasks && tasks[id].user_id != owner
    ensures GetTaskById(tasks, owner, id) == GetTaskById(tasks - {id}, owner, id) == TaskNotFound
    ensures UpdateOutcome(tasks, owner, id, patch).reply == UpdateOutcome(tasks - {id}, owner, id, patch).reply
    ensures DeleteOutcome(tasks, owner, id).reply == DeleteOutcome(tasks - {id}, owner, id).reply
    ensures UpdateOutcome(tasks, owner, id, patch).tasks == DeleteOutcome(tasks, owner, id).tasks == tasks
  {
  }

  /**
   * Every reply a user gets depends only on that user's own rows: two tables
   * that agree on what `owner` owns give `owner` the same listing, the same
   * lookups, and the same replies to updates and deletes.
   */
  lemma RepliesDependOnlyOnOwnRows(t1: map<Uuid, Task>, t2: map<Uuid, Task>, owner: Uuid, id: Uuid, patch: Patch)
    requires OwnedBy(t1, owner) == OwnedBy(t2, owner)
    ensures ListTasks(t1, owner) == ListTasks(t2, owner)
    ensures FindOwned(t1, id, owner) == FindOwned(t2, id, owner)
    ensures GetTaskById(t1, owner, id) == GetTaskById(t2, owner, id)
    ensures UpdateOutcome(t1, owner, id, patch).reply == UpdateOutcome(t2, owner, id, patch).reply
    ensures DeleteOutcome(t1, owner, id).reply == DeleteOutcome(t2, owner, id).reply
  {
  }

  /** Adding a task owned by someone other than `viewer` leaves `viewer`'s listing as it was. */
  lemma ListingIgnoresOthersTask(tasks: map<Uuid, Task>, t: Task, viewer: Uuid)
    requires t.id !in tasks && t.user_id != viewer
    ensures ListTasks(tasks[t.id := t], viewer) == ListTasks(tasks, viewer)
  {
  }

  /** Adding a task owned by `viewer` adds its dictionary view to `viewer`'s listing. */
  lemma ListingGainsOwnTask(tasks: map<Uuid, Task>, t: Task, viewer: Uuid)
    requires t.id !in tasks && t.user_id == viewer
    ensures ListTasks(tasks[t.id := t], viewer) == ListTasks(tasks, viewer)[t.id := AsDict(t)]
  {
  }

  /**
   * A task created by `owner` joins `owner`'s listing and no other user's:
   * the listing gains exactly one entry, the new task's dictionary view.
   */
  lemma ListingAfterCreate(tasks: map<Uuid, Task>, t: Task, viewer: Uuid)
    requires t.id !in tasks
    ensures ListTasks(tasks[t.id := t], viewer) ==
              if viewer == t.user_id then ListTasks(tasks, viewer)[t.id := AsDict(t)]
              else ListTasks(tasks, viewer)
    ensures |ListTasks(tasks[t.id := t], viewer)| ==
              |ListTasks(tasks, viewer)| + (if viewer == t.user_id then 1 else 0)
  {
    if viewer == t.user_id {
      ListingGainsOwnTask(tasks, t, viewer);
      assert t.id !in ListTasks(tasks, viewer);
    } else {
      ListingIgnoresOthersTask(tasks, t, viewer);
    }
  }

  /** Two creates by the same user on a table where that user has no task give a listing of length 2. */
  lemma TwoCreatesListTwo(tasks: map<Uuid, Task>, owner: Uuid, id1: Uuid, id2: Uuid, now: Timestamp,
                          title1: string, description1: string, title2: string, description2: string)
    requires id1 !in tasks && id2 !in tasks && id1 != id2
    requires ListTasks(tasks, owner) == map[]
    ensures var o1 := CreateOutcome(tasks, owner, Some(title1), Some(description1), id1, now);
            var o2 := CreateOutcome(o1.tasks, owner, Some(title2), Some(description2), id2, now);
            |ListTasks(o2.tasks, owner)| == 2
  {
    var t1 := NewTask(title1, description1, owner, id1, now);
    var t2 := NewTask(title2, description2, owner, id2, now);
    ListingAfterCreate(tasks, t1, owner);
    ListingAfterCreate(tasks[id1 := t1], t2, owner);
  }

  /**
   * Create, list, delete, read again: the new task is not completed and is the
   * only one listed; after the delete, reading it gives 404. Another user never
   * sees it.
   */
  lemma CreateListDeleteScenario(tasks: map<Uuid, Task>, owner: Uuid, other: Uuid, id: Uuid, now: Timestamp,
                                 title: string, description: string)
    requires id !in tasks && ListTasks(tasks, owner) == map[] && other != owner
    ensures var created := CreateOutcome(tasks, owner, Some(title), Some(description), id, now);
            var deleted := DeleteOutcome(created.tasks, owner, id);
            && created.reply.Status() == 201
            && created.reply.created["completed"] == Flag(false)
            && |ListTasks(created.tasks, owner)| == 1
            && GetTaskById(created.tasks, other, id) == TaskNotFound
            && deleted.reply == TaskDeleted
            && GetTaskById(deleted.tasks, owner, id) == TaskNotFound
  {
    var t := NewTask(title, description, owner, id, now);
    ListingAfterCreate(tasks, t, owner);
  }

  // ---------------------------------------------------------------------------
  // A whole request: gate, then the route's handler
  // ---------------------------------------------------------------------------

  /** The five routes of the blueprint, with the raw `<task_id>` path segment. */
  datatype Route =
    | CreateRoute(title: Option<string>, description: Option<string>)
    | ListRoute
    | GetRoute(taskId: string)
    | UpdateRoute(taskId: string, patch: Patch)
    | DeleteRoute(taskId: string)

  /** The reply to a whole request. */
  datatype Response =
    | Refused(gate: GateOutcome)   // the gate answered; no handler ran
    | BadTaskId                    // uuid.UUID(task_id) raised ValueError, which escapes: 500
    | Handled(reply: TaskReply)

  /** A response together with the table it leaves behind. */
  datatype Served = Served(response: Response, tasks: map<Uuid, Task>)

  /** One request: the gate first; if it lets the request through, the route's handler with the bound user id. */
  function ServeOutcome(tasks: map<Uuid, Task>, header: Option<string>, verify: string -> TokenCheck, text: UuidText,
                        route: Route, freshId: Uuid, now: Timestamp): (s: Served)
    ensures !Gate(header, verify, text).Authenticated? ==> s == Served(Refused(Gate(header, verify, text)), tasks)
    ensures s.response.BadTaskId? ==> s.tasks == tasks
    ensures route.ListRoute? || route.GetRoute? ==> s.tasks == tasks
    ensures Gate(header, verify, text).Authenticated? && freshId !in tasks ==>
              var u := Gate(header, verify, text).userId;
              && (forall id :: id in tasks && tasks[id].user_id != u ==> id in s.tasks && s.tasks[id] == tasks[id])
              && (forall id :: id in s.tasks && id !in tasks ==> s.tasks[id].user_id == u)
  {
    var gate := Gate(header, verify, text);
    if !gate.Authenticated? then Served(Refused(gate), tasks)
    else
      var owner := gate.userId;
      match route
      case CreateRoute(title, description) =>
        var o := CreateOutcome(tasks, owner, title, description, freshId, now);
        Served(Handled(o.reply), o.tasks)
      case ListRoute => Served(Handled(TaskList(ListTasks(tasks, owner))), tasks)
      case GetRoute(raw) =>
        (match text.parse(raw)
         case None => Served(BadTaskId, tasks)
         case Some(id) => Served(Handled(GetTaskById(tasks, owner, id)), tasks))
      case UpdateRoute(raw, patch) =>
        (match text.parse(raw)
         case None => Served(BadTaskId, tasks)
         case Some(id) =>
           var o := UpdateOutcome(tasks, owner, id, patch);
           Served(Handled(o.reply), o.tasks))
      case DeleteRoute(raw) =>
        (match text.parse(raw)
         case None => Served(BadTaskId, tasks)
         case Some(id) =>
           var o := DeleteOutcome(tasks, owner, id);
           Served(Handled(o.reply), o.tasks))
  }

  /**
   * A request the gate lets through runs the route's handler for the user id
   * the gate bound: a task id that is not a UUID escapes as 500, and otherwise
   * the reply is the handler's reply to that user.
   */
  lemma ServeRunsHandlerForBoundUser(tasks: map<Uuid, Task>, header: Option<string>, verify: string -> TokenCheck,
                                     text: UuidText, route: Route, freshId: Uuid, now: Timestamp, u: Uuid)
    requires Gate(header, verify, text) == Authenticated(u)
    ensures var s := ServeOutcome(tasks, header, verify, text, route, freshId, now);
      match route
      case CreateRoute(title, description) =>
        s == Served(Handled(CreateOutcome(tasks, u, title, description, freshId, now).reply),
                    CreateOutcome(tasks, u, title, description, freshId, now).tasks)
      case ListRoute => s == Served(Handled(TaskList(ListTasks(tasks, u))), tasks)
      case GetRoute(raw) =>
        if text.parse(raw).None? then s == Served(BadTaskId, tasks)
        else s == Served(Handled(GetTaskById(tasks, u, text.parse(raw).value)), tasks)
      case UpdateRoute(raw, patch) =>
        if text.parse(raw).None? then s == Served(BadTaskId, tasks)
        else s.response == Handled(UpdateOutcome(tasks, u, text.parse(raw).value, patch).reply)
             && s.tasks == UpdateOutcome(tasks, u, text.parse(raw).value, patch).tasks
      case DeleteRoute(raw) =>
        if text.parse(raw).None? then s == Served(BadTaskId, tasks)
        else s.response == Handled(DeleteOutcome(tasks, u, text.parse(raw).value).reply)
             && s.tasks == DeleteOutcome(tasks, u, text.parse(raw).value).tasks
  {
  }

  /**
   * What a whole request answers depends only on the rows of the user the gate
   * binds: two tables that agree on that user's rows give the same response.
   */
  lemma ResponseDependsOnlyOnOwnRows(t1: map<Uuid, Task>, t2: map<Uuid, Task>, header: Option<string>,
                                     verify: string -> TokenCheck, text: UuidText, route: Route,
                                     freshId: Uuid, now: Timestamp, u: Uuid)
    requires Gate(header, verify, text) == Authenticated(u)
    requires OwnedBy(t1, u) == OwnedBy(t2, u)
    ensures ServeOutcome(t1, header, verify, text, route, freshId, now).response
            == ServeOutcome(t2, header, verify, text, route, freshId, now).response
  {
    match route
    case CreateRoute(_, _) =>
    case ListRoute =>
      RepliesDependOnlyOnOwnRows(t1, t2, u, freshId, Patch(None, None, None));
    case GetRoute(raw) =>
      if text.parse(raw).Some? {
        RepliesDependOnlyOnOwnRows(t1, t2, u, text.parse(raw).value, Patch(None, None, None));
      }
    case UpdateRoute(raw, patch) =>
      if text.parse(raw).Some? {
        RepliesDependOnlyOnOwnRows(t1, t2, u, text.parse(raw).value, patch);
      }
    case DeleteRoute(raw) =>
      if text.parse(raw).Some? {
        RepliesDependOnlyOnOwnRows(t1, t2, u, text.parse(raw).value, Patch(None, None, None));
      }
  }

  /** A request the gate refuses reaches no handler: the table is unchanged. */
  lemma RefusedRequestChangesNothing(tasks: map<Uuid, Task>, header: Option<string>, verify: string -> TokenCheck,
                                     text: UuidText, route: Route, freshId: Uuid, now: Timestamp)
    requires !Gate(header, verify, text).Authenticated?
    ensures ServeOutcome(tasks, header, verify, text, route, freshId, now)
              == Served(Refused(Gate(header, verify, text)), tasks)
  {
  }

  /**
   * No request changes the owner of a task, and every request keeps the
   * primary-key invariant (the generated id being fresh).
   */
  lemma ServeKeepsOwnersAndKeys(tasks: map<Uuid, Task>, header: Option<string>, verify: string -> TokenCheck,
                                text: UuidText, route: Route, freshId: Uuid, now: Timestamp)
    requires KeysAreIds(tasks) && freshId !in tasks
    ensures var s := ServeOutcome(tasks, header, verify, text, route, freshId, now);
              OwnersKept(tasks, s.tasks) && KeysAreIds(s.tasks)
  {
  }

  /**
   * The table as the routes change it in place. `CreateTask`, `UpdateTask` and
   * `DeleteTask` are the handlers that write; `Serve` runs the gate and
   * dispatches a request.
   */
  class TaskTable {
    var tasks: map<Uuid, Task>

    ghost predicate Valid()
      reads this
    {
      KeysAreIds(tasks)
    }

    constructor ()
      ensures Valid() && tasks == map[]
    {
      tasks := map[];
    }

    method CreateTask(owner: Uuid, title: Option<string>, description: Option<string>, freshId: Uuid, now: Timestamp)
      returns (r: TaskReply)
      requires Valid() && freshId !in tasks
      modifies this
      ensures Valid() && OwnersKept(old(tasks), tasks)
      ensures Outcome(r, tasks) == CreateOutcome(old(tasks), owner, title, description, freshId, now)
    {
      if title.None? {
        return FieldMissing("title");
      }
      if description.None? {
        return FieldMissing("description");
      }
      var t := NewTask(title.value, description.value, owner, freshId, now);
      tasks := tasks[freshId := t];
      r := TaskCreated(AsDict(t));
    }

    method UpdateTask(owner: Uuid, id: Uuid, patch: Patch) returns (r: TaskReply)
      requires Valid()
      modifies this
      ensures Valid() && OwnersKept(old(tasks), tasks)
      ensures Outcome(r, tasks) == UpdateOutcome(old(tasks), owner, id, patch)
    {
      var found := FindOwned(tasks, id, owner);
      if found.None? {
        return TaskNotFound;
      }
      var t := found.value;
      t := t.(title := patch.title.GetOr(t.title));
      t := t.(description := patch.description.GetOr(t.description));
      t := t.(completed := patch.completed.GetOr(t.completed));
      tasks := tasks[id := t];
      r := TaskUpdated(AsDict(t));
    }

    method DeleteTask(owner: Uuid, id: Uuid) returns (r: TaskReply)
      requires Valid()
      modifies this
      ensures Valid() && OwnersKept(old(tasks), tasks)
      ensures Outcome(r, tasks) == DeleteOutcome(old(tasks), owner, id)
    {
      var found := FindOwned(tasks, id, owner);
      if found.None? {
        return TaskNotFound;
      }
      tasks := tasks - {id};
      r := TaskDeleted;
    }

    method Serve(header: Option<string>, verify: string -> TokenCheck, text: UuidText, route: Route,
                 freshId: Uuid, now: Timestamp) returns (response: Response)
      requires Valid() && freshId !in tasks
      modifies this
      ensures Valid() && OwnersKept(old(tasks), tasks)
      ensures Served(response, tasks) == ServeOutcome(old(tasks), header, verify, text, route, freshId, now)
      ensures Gate(header, verify, text).Authenticated? ==>
                var u := Gate(header, verify, text).userId;
                && (forall id :: id in old(tasks) && old(tasks)[id].user_id != u ==> id in tasks && tasks[id] == old(tasks)[id])
                && (forall id :: id in tasks && id !in old(tasks) ==> tasks[id].user_id == u)
    {
      var gate := Gate(header, verify, text);
      if !gate.Authenticated? {
        return Refused(gate);
      }
      var owner := gate.userId;
      match route {
        case CreateRoute(title, description) =>
          var r := CreateTask(owner, title, description, freshId, now);
          response := Handled(r);
        case ListRoute =>
          response := Handled(TaskList(ListTasks(tasks, owner)));
        case GetRoute(raw) =>
          var id := text.parse(raw);
          if id.None? {
            return BadTaskId;
          }
          response := Handled(GetTaskById(tasks, owner, id.value));
        case UpdateRoute(raw, patch) =>
          var id := text.parse(raw);
          if id.None? {
            return BadTaskId;
          }
          var r := UpdateTask(owner, id.value, patch);
          response := Handled(r);
        case DeleteRoute(raw) =>
          var id := text.parse(raw);
          if id.None? {
            return BadTaskId;
          }
          var r := DeleteTask(owner, id.value);
          response := Handled(r);
      }
    }
  }
}
