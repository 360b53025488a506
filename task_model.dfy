/**
 * The Task schema (a required owner reference, a required title, an optional description,
 * `completed` defaulting to false, `createdAt`/`updatedAt` timestamps) and the task
 * collection as a store object. Every query the controllers issue is keyed on the owner.
 */
module TaskModel {
  import opened Wrappers
  import opened Errors

  datatype Task = Task(
    id: nat,
    owner: nat,                  // the `user` reference
    title: string,
    description: Option<string>,
    completed: bool,
    createdAt: nat,
    updatedAt: nat
  )

  const TitleRequired := "Title is required"

  /** A new document with the schema defaults applied and both timestamps set to `now`. */
  function NewTask(id: nat, owner: nat, title: string, description: Option<string>, now: nat): Task {
    Task(id, owner, title, description, false, now, now)
  }

  /** The ValidationError messages for a new task. The owner is always supplied by the caller. */
  function TaskFieldErrors(title: Option<string>): (errs: seq<string>)
    ensures errs == [] <==> title.Some? && title.value != ""
  {
    if title.None? || title.value == "" then [TitleRequired] else []
  }

  /** Newest first; equal creation times are broken by id so that the order is total. */
  predicate Before(a: Task, b: Task) {
    a.createdAt > b.createdAt || (a.createdAt == b.createdAt && a.id > b.id)
  }

  predicate StrictlyOrdered(s: seq<Task>) {
    forall i, j :: 0 <= i < j < |s| ==> Before(s[i], s[j])
  }

  /** Inserts `t` at its place in a newest-first list that does not already hold its id. */
  function InsertNewestFirst(s: seq<Task>, t: Task): (r: seq<Task>)
    requires StrictlyOrdered(s)
    requires forall x :: x in s ==> x.id != t.id
    ensures StrictlyOrdered(r)
    ensures |r| == |s| + 1
    ensures forall x :: x in r <==> x in s || x == t
  {
    if s == [] then [t]
    else if Before(t, s[0]) then [t] + s
    else
      var rest := InsertNewestFirst(s[1..], t);
      assert Before(s[0], t);
      assert forall x :: x in s[1..] ==> Before(s[0], x);
      [s[0]] + rest
  }

  /** The task collection. */
  class TaskStore {
    var tasks: map<nat, Task>
    var nextId: nat

    ghost predicate Valid()
      reads this
    {
      forall id :: id in tasks ==> tasks[id].id == id && id < nextId
    }

    constructor ()
      ensures Valid() && tasks == map[]
    {
      tasks := map[];
      nextId := 0;
    }

    /** `Task.create({ user: owner, title, description })`. */
    method Create(owner: nat, title: Option<string>, description: Option<string>, now: nat)
      returns (r: Result<Task, ErrorValue>)
      requires Valid()
      modifies this
      ensures Valid()
      ensures TaskFieldErrors(title) != [] ==>
                r == Err(ValidationFailure("Task", [TitleRequired])) && tasks == old(tasks)
      ensures TaskFieldErrors(title) == [] ==>
                && r == Ok(NewTask(old(nextId), owner, title.value, description, now))
                && r.value.id !in old(tasks)
                && r.value.owner == owner && r.value.title == title.value
                && r.value.description == description
                && !r.value.completed
                && r.value.createdAt == now && r.value.updatedAt == now
                && tasks == old(tasks)[r.value.id := r.value]
    {
      var errs := TaskFieldErrors(title);
      if errs != [] {
        return Err(ValidationFailure("Task", errs));
      }
      var t := NewTask(nextId, owner, title.value, description, now);
      tasks := tasks[nextId := t];
      nextId := nextId + 1;
      r := Ok(t);
    }

    /** `Task.findOne({ _id: id, user: owner })`. */
    method FindOne(id: nat, owner: nat) returns (r: Option<Task>)
      requires Valid()
      ensures r.Some? <==> id in tasks && tasks[id].owner == owner
      ensures r.Some? ==> r.value == tasks[id] && r.value.id == id && r.value.owner == owner
    {
      if id in tasks && tasks[id].owner == owner {
        r := Some(tasks[id]);
      } else {
        r := None;
      }
    }

    /** `Task.find({ user: owner }).sort({ createdAt: -1 })`: every task of the owner, each
        once, none of anyone else's, newest first. */
    method FindByOwner(owner: nat) returns (r: seq<Task>)
      requires Valid()
      ensures forall t :: t in r <==> t.id in tasks && tasks[t.id] == t && t.owner == owner
      ensures forall i, j :: 0 <= i < j < |r| ==> r[i] != r[j]
      ensures forall i, j :: 0 <= i < j < |r| ==> r[i].createdAt >= r[j].createdAt
    {
      r := [];
      var rest := tasks.Keys;
      while rest != {}
        invariant rest <= tasks.Keys
        invariant StrictlyOrdered(r)
        invariant forall t :: t in r <==>
                    t.id in tasks && tasks[t.id] == t && t.owner == owner && t.id !in rest
        decreases rest
      {
        var id :| id in rest;
        var t := tasks[id];
        if t.owner == owner {
          r := InsertNewestFirst(r, t);
        }
        rest := rest - {id};
      }
    }

    /** `Task.findOneAndUpdate({ _id: id, user: owner }, { title, description, completed }, { new: true })`:
        only the task with this id and owner can change, and the updated document is returned. */
    method FindOneAndUpdate(id: nat, owner: nat, title: Option<string>, description: Option<string>,
                            completed: Option<bool>, now: nat)
      returns (r: Option<Task>)
      requires Valid()
      modifies this
      ensures Valid()
      ensures if id in old(tasks) && old(tasks)[id].owner == owner then
                && r.Some?
                && r.value.id == id && r.value.owner == owner
                && r.value.createdAt == old(tasks)[id].createdAt && r.value.updatedAt == now
                && tasks == old(tasks)[id := r.value]
              else
                r.None? && tasks == old(tasks)
    {
      if id in tasks && tasks[id].owner == owner {
        var t := tasks[id];
        var u := t.(title := title.GetOr(t.title),
                    description := if description.Some? then description else t.description,
                    completed := completed.GetOr(t.completed),
                    updatedAt := now);
        tasks := tasks[id := u];
        r := Some(u);
      } else {
        r := None;
      }
    }

    /** `Task.findOneAndDelete({ _id: id, user: owner })`: removes that task only. */
    method FindOneAndDelete(id: nat, owner: nat) returns (r: Option<Task>)
      requires Valid()
      modifies this
      ensures Valid()
      ensures if id in old(tasks) && old(tasks)[id].owner == owner then
                r == Some(old(tasks)[id]) && tasks == old(tasks) - {id}
              else
                r.None? && tasks == old(tasks)
    {
      if id in tasks && tasks[id].owner == owner {
        r := Some(tasks[id]);
        tasks := tasks - {id};
      } else {
        r := None;
      }
    }
  }
}
