/**
 * The two tables of the to-do service: users and tasks, their column
 * defaults, the dictionary view of a task and the user/task relationship.
 */
module Models {
  import opened Wrappers

  /** A UUID. Its text form is not modelled; only equality matters here. */
  datatype Uuid = Uuid(bits: nat)

  /** A point on the server clock (the `datetime.now` default). */
  type Timestamp = nat

  /** A row of the `users` table; `password` holds the password hash. */
  datatype User = User(id: Uuid, email: string, password: string, created_at: Timestamp)

  /** A row of the `tasks` table; `user_id` is the owner's id. */
  datatype Task = Task(
    id: Uuid,
    title: string,
    description: string,
    completed: bool,
    created_at: Timestamp,
    user_id: Uuid)

  /**
   * `User(email=..., password=...)` once flushed: the id column takes a fresh
   * UUID and `created_at` the current time, the two defaults the model
   * receives as `freshId` and `now`.
   */
  function NewUser(email: string, passwordHash: string, freshId: Uuid, now: Timestamp): (u: User)
    ensures u.id == freshId && u.created_at == now
    ensures u.email == email && u.password == passwordHash
  {
    User(freshId, email, passwordHash, now)
  }

  /**
   * `Task(title=..., description=..., user_id=...)` once flushed: the columns
   * the constructor is not given take their defaults, so the task is not
   * completed, gets a fresh id and is stamped with the current time.
   */
  function NewTask(title: string, description: string, owner: Uuid, freshId: Uuid, now: Timestamp): (t: Task)
    ensures !t.completed
    ensures t.id == freshId && t.user_id == owner && t.created_at == now
    ensures t.title == title && t.description == description
  {
    Task(freshId, title, description, false, now, owner)
  }

  /** A value in the dictionary `as_dict` builds. */
  datatype Field = IdValue(uuid: Uuid) | Text(text: string) | Flag(flag: bool) | Time(time: Timestamp)

  type TaskDict = map<string, Field>

  /** The keys of a task's dictionary view, one per column. */
  const TaskKeys: set<string> := {"id", "title", "description", "completed", "created_at", "user_id"}

  /** `Task.as_dict`: every column under its own name. */
  function AsDict(t: Task): (d: TaskDict)
    ensures d.Keys == TaskKeys
  {
    map["id" := IdValue(t.id),
        "title" := Text(t.title),
        "description" := Text(t.description),
        "completed" := Flag(t.completed),
        "created_at" := Time(t.created_at),
        "user_id" := IdValue(t.user_id)]
  }

  /** Reads a task back from its dictionary view; None when a key is missing or holds the wrong kind of value. */
  function TaskFromDict(d: TaskDict): Option<Task>
  {
    if && TaskKeys <= d.Keys
       && d["id"].IdValue? && d["title"].Text? && d["description"].Text?
       && d["completed"].Flag? && d["created_at"].Time? && d["user_id"].IdValue?
    then Some(Task(d["id"].uuid, d["title"].text, d["description"].text,
                   d["completed"].flag, d["created_at"].time, d["user_id"].uuid))
    else None
  }

  /** `as_dict` loses nothing: every field can be read back under its own name. */
  lemma AsDictRoundTrip(t: Task)
    ensures TaskFromDict(AsDict(t)) == Some(t)
  {
  }

  /** The primary-key invariant of the users table: ids are pairwise distinct. */
  ghost predicate DistinctUserIds(users: seq<User>)
  {
    forall i, j :: 0 <= i < j < |users| ==> users[i].id != users[j].id
  }

  /** Looks a user up by primary key: the first row with this id. */
  function FindUserById(users: seq<User>, id: Uuid): (r: Option<User>)
    ensures r.Some? ==> r.value in users && r.value.id == id
    ensures r.None? ==> forall u :: u in users ==> u.id != id
    decreases |users|
  {
    if |users| == 0 then None
    else if users[0].id == id then Some(users[0])
    else FindUserById(users[1..], id)
  }

  /** `Task.user`: the user the task's `user_id` refers to, if it is in the table. */
  function OwnerOf(users: seq<User>, t: Task): (r: Option<User>)
    ensures r.Some? ==> r.value in users && r.value.id == t.user_id
    ensures r.None? ==> forall u :: u in users ==> u.id != t.user_id
  {
    FindUserById(users, t.user_id)
  }

  /** `User.tasks`: the ids of the tasks whose `user_id` is the user's id. */
  function TasksOf(tasks: map<Uuid, Task>, u: User): (r: set<Uuid>)
    ensures r <= tasks.Keys
    ensures forall id :: id in tasks ==> (id in r <==> tasks[id].user_id == u.id)
  {
    set id | id in tasks && tasks[id].user_id == u.id
  }

  /** Two rows of a table with distinct ids that share an id are the same row. */
  lemma SameIdSameUser(users: seq<User>, u: User, v: User)
    requires DistinctUserIds(users)
    requires u in users && v in users && u.id == v.id
    ensures u == v
  {
  }

  /**
   * `Task.user` and `User.tasks` are the two sides of one relationship
   * (`back_populates`): a task is among a user's tasks exactly when that user
   * is the task's user.
   */
  lemma RelationshipSidesAgree(users: seq<User>, tasks: map<Uuid, Task>, u: User, id: Uuid)
    requires DistinctUserIds(users) && u in users && id in tasks
    ensures id in TasksOf(tasks, u) <==> OwnerOf(users, tasks[id]) == Some(u)
  {
    var owner := OwnerOf(users, tasks[id]);
    if id in TasksOf(tasks, u) {
      SameIdSameUser(users, owner.value, u);
    }
  }
}
