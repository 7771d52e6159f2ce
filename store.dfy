/** The in-memory task store and the request handlers that act on it. Every
    handler first checks the API key, then the request body, then the store.
    A mutating handler either fails before changing anything or changes
    exactly one key. */
module Store {
  import opened Schema

  /** A stored task: the fields of a full payload plus the server-assigned id
      and timestamps (`Task` extends `TaskIn`). */
  datatype Task = Task(id: int, fields: TaskIn, createdAt: Timestamp, updatedAt: Timestamp)

  /** The key used when the environment configures none. */
  const DefaultApiKey := "supersecret123"

  /** No two tasks of the sequence share an id. */
  predicate DistinctIds(s: seq<Task>) {
    forall i, j :: 0 <= i < j < |s| ==> s[i].id != s[j].id
  }

  /** A non-empty set of ids has a member to pick. */
  lemma HasMember(s: set<int>)
    requires s != {}
    ensures exists k :: k in s
  {
    if forall k :: k !in s {
      assert false;
    }
  }

  class TaskStore {
    /** The configured secret every request must carry. */
    const apiKey: string
    /** The tasks, by id. */
    var db: map<int, Task>
    /** The id the next created task gets. */
    var nextId: int
    /** Every id handed out so far, deleted ones included. */
    ghost var Issued: set<int>

    ghost predicate Valid()
      reads this
    {
      && 1 <= nextId
      && (forall i :: i in Issued <==> 1 <= i < nextId)
      && db.Keys <= Issued
      && (forall id :: id in db ==> db[id].id == id && WithinLimits(db[id].fields))
    }

    constructor (apiKey: string)
      ensures Valid()
      ensures this.apiKey == apiKey && db == map[] && nextId == 1 && Issued == {}
    {
      this.apiKey := apiKey;
      db := map[];
      nextId := 1;
      Issued := {};
    }

    /** POST /tasks/: stores the validated payload under a fresh id, with both
        timestamps set to `now`. */
    method Create(key: string, payload: Payload, now: Timestamp, today: Day) returns (r: Result<Task>)
      requires Valid()
      modifies this
      ensures Valid()
      ensures key != apiKey ==> r == Err(Unauthorized)
      ensures key == apiKey && ParseTaskIn(payload, today).Err? ==> r == Err(Invalid)
      ensures key == apiKey && ParseTaskIn(payload, today).Ok? ==>
        && r == Ok(Task(old(nextId), ParseTaskIn(payload, today).value, now, now))
        && old(nextId) !in old(db)
        && db == old(db)[old(nextId) := r.value]
        && nextId == old(nextId) + 1
      ensures r.Ok? ==> r.value.id !in old(Issued) && Issued == old(Issued) + {r.value.id}
      ensures r.Ok? ==> forall i :: i in old(Issued) ==> i < r.value.id
      ensures r.Err? ==> db == old(db) && nextId == old(nextId) && Issued == old(Issued)
    {
      if key != apiKey {
        return Err(Unauthorized);
      }
      var parsed := ParseTaskIn(payload, today);
      if parsed.Err? {
        return Err(Invalid);
      }
      var tid := nextId;
      nextId := nextId + 1;
      Issued := Issued + {tid};
      // Rebuilding the record as a `Task` validates the dumped payload again.
      var rebuilt := ParseTaskIn(Dump(parsed.value), today);
      DumpRoundTrip(parsed.value, today);
      var task := Task(tid, rebuilt.value, now, now);
      db := db[tid := task];
      r := Ok(task);
    }

    /** GET /tasks/{id}: the stored task, or NotFound. */
    method Get(key: string, taskId: int) returns (r: Result<Task>)
      requires Valid()
      ensures key != apiKey ==> r == Err(Unauthorized)
      ensures key == apiKey ==> (r.Ok? <==> taskId in db)
      ensures key == apiKey && taskId !in db ==> r == Err(NotFound)
      ensures r.Ok? ==> r.value == db[taskId] && r.value.id == taskId
    {
      if key != apiKey {
        return Err(Unauthorized);
      }
      if taskId !in db {
        return Err(NotFound);
      }
      r := Ok(db[taskId]);
    }

    /** PUT /tasks/{id}: overwrites every client field from the payload, keeps
        the id and the original creation time, and sets the update time. */
    method Replace(key: string, taskId: int, payload: Payload, now: Timestamp, today: Day) returns (r: Result<Task>)
      requires Valid()
      modifies this
      ensures Valid()
      ensures nextId == old(nextId) && Issued == old(Issued)
      ensures key != apiKey ==> r == Err(Unauthorized)
      ensures key == apiKey && ParseTaskIn(payload, today).Err? ==> r == Err(Invalid)
      ensures key == apiKey && ParseTaskIn(payload, today).Ok? && taskId !in old(db) ==> r == Err(NotFound)
      ensures key == apiKey && ParseTaskIn(payload, today).Ok? && taskId in old(db) ==>
        r == Ok(Task(taskId, ParseTaskIn(payload, today).value, old(db)[taskId].createdAt, now))
      ensures r.Ok? ==> db == old(db)[taskId := r.value]
      ensures r.Err? ==> db == old(db)
    {
      if key != apiKey {
        return Err(Unauthorized);
      }
      var parsed := ParseTaskIn(payload, today);
      if parsed.Err? {
        return Err(Invalid);
      }
      if taskId !in db {
        return Err(NotFound);
      }
      // Rebuilding the record as a `Task` validates the dumped payload again.
      var rebuilt := ParseTaskIn(Dump(parsed.value), today);
      DumpRoundTrip(parsed.value, today);
      var task := Task(taskId, rebuilt.value, db[taskId].createdAt, now);
      db := db[taskId := task];
      r := Ok(task);
    }

    /** PATCH /tasks/{id}: applies the fields the client sent to the stored
        task and revalidates the result against the full rules before storing
        it; a merged record that fails them ends the request with `Unhandled`. */
    method Update(key: string, taskId: int, payload: Payload, now: Timestamp, today: Day) returns (r: Result<Task>)
      requires Valid()
      modifies this
      ensures Valid()
      ensures nextId == old(nextId) && Issued == old(Issued)
      ensures key != apiKey ==> r == Err(Unauthorized)
      ensures key == apiKey && ParseTaskUpdate(payload, today).Err? ==> r == Err(Invalid)
      ensures key == apiKey && ParseTaskUpdate(payload, today).Ok? && taskId !in old(db) ==> r == Err(NotFound)
      ensures key == apiKey && ParseTaskUpdate(payload, today).Ok? && taskId in old(db) ==>
        r == match ApplyPatch(old(db)[taskId].fields, ParseTaskUpdate(payload, today).value, today)
             case Ok(g) => Ok(Task(taskId, g, old(db)[taskId].createdAt, now))
             case Err(_) => Err(Unhandled)
      ensures r.Ok? ==> db == old(db)[taskId := r.value]
      ensures r.Err? ==> db == old(db)
    {
      if key != apiKey {
        return Err(Unauthorized);
      }
      var patch := ParseTaskUpdate(payload, today);
      if patch.Err? {
        return Err(Invalid);
      }
      if taskId !in db {
        return Err(NotFound);
      }
      var existing := db[taskId];
      // The merged record is rebuilt as a `Task` inside the handler; its
      // validation error is not a request error and is not caught.
      var merged := ApplyPatch(existing.fields, patch.value, today);
      if merged.Err? {
        return Err(Unhandled);
      }
      var task := Task(taskId, merged.value, existing.createdAt, now);
      db := db[taskId := task];
      r := Ok(task);
    }

    /** DELETE /tasks/{id}: removes exactly that id; its number is not handed out again. */
    method Delete(key: string, taskId: int) returns (r: Result<()>)
      requires Valid()
      modifies this
      ensures Valid()
      ensures nextId == old(nextId) && Issued == old(Issued)
      ensures key != apiKey ==> r == Err(Unauthorized)
      ensures key == apiKey ==> (r.Ok? <==> taskId in old(db))
      ensures key == apiKey && taskId !in old(db) ==> r == Err(NotFound)
      ensures r.Ok? ==> db == old(db) - {taskId}
      ensures r.Err? ==> db == old(db)
    {
      if key != apiKey {
        return Err(Unauthorized);
      }
      if taskId !in db {
        return Err(NotFound);
      }
      db := db - {taskId};
      r := Ok(());
    }

    /** GET /tasks: every stored task exactly once, in no particular order. */
    method List(key: string) returns (r: Result<seq<Task>>)
      requires Valid()
      ensures key != apiKey ==> r == Err(Unauthorized)
      ensures key == apiKey ==> r.Ok?
      ensures r.Ok? ==> |r.value| == |db|
      ensures r.Ok? ==> forall t :: t in r.value <==> t.id in db && db[t.id] == t
      ensures r.Ok? ==> DistinctIds(r.value)
    {
      if key != apiKey {
        return Err(Unauthorized);
      }
      var rest := db.Keys;
      ghost var done: set<int> := {};
      var out: seq<Task> := [];
      while rest != {}
        invariant rest !! done && rest + done == db.Keys
        invariant |out| == |done|
        invariant forall t :: t in out ==> t.id in done && db[t.id] == t
        invariant forall id :: id in done ==> db[id] in out
        invariant DistinctIds(out)
        decreases |rest|
      {
        HasMember(rest);
        var k :| k in rest;
        out := out + [db[k]];
        rest, done := rest - {k}, done + {k};
      }
      r := Ok(out);
    }
  }

  /** The walk-through of a fresh store: a task created from a title alone gets
      id 1 and the defaults; after it is deleted a get on id 1 is NotFound, and
      the next task gets id 2, not 1. */
  method DeletedIdNotReused(title: string, now: Timestamp, today: Day)
      returns (first: Result<Task>, afterDelete: Result<Task>, second: Result<Task>)
    requires MinTitleLength <= |title| <= MaxTitleLength
    ensures first == Ok(Task(1, TaskIn(title, None, Medium, Todo, None), now, now))
    ensures afterDelete == Err(NotFound)
    ensures second.Ok? && second.value.id == 2
  {
    var store := new TaskStore(DefaultApiKey);
    var body := Payload(Sent(title), Unset, Unset, Unset, Unset);
    TitleOnlyDefaults(title, today);
    first := store.Create(DefaultApiKey, body, now, today);
    var deleted := store.Delete(DefaultApiKey, 1);
    afterDelete := store.Get(DefaultApiKey, 1);
    second := store.Create(DefaultApiKey, body, now, today);
  }
}
