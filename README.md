# Task store of the FastAPI task list service

This project models the core of a small task-tracking HTTP service: an
in-memory store that maps integer ids to task records, an id counter that
only goes up, and the field rules that validate request bodies before the
store is touched. The HTTP layer is stripped away. Each endpoint becomes a
method of the class `Store.TaskStore` that returns `Ok(value)` or one of
four error kinds:

- `Unauthorized` is HTTP 401.
- `Invalid` is HTTP 422: the request body breaks a field rule.
- `NotFound` is HTTP 404.
- `Unhandled` is HTTP 500. The update handler rebuilds the merged record as a
  `Task` in its own body. When that record breaks a field rule, the resulting
  validation error is not a request error. The framework does not turn it into
  a 422; it escapes as an unhandled exception.

Two modules follow the structure of `main.py`:

- `Schema` (schema.dfy) holds the request schemas and their rules.
  - `TaskIn` is the full payload. `TaskUpdate` is the partial payload.
  - A raw JSON body is a `Payload`. Each of its fields is `Unset` (left out),
    `Null` (sent as null) or `Sent(v)`. The partial update relies on that
    distinction (`exclude_unset=True`).
  - `ParseTaskIn` and `ParseTaskUpdate` are the validators. `AcceptsFull` and
    `AcceptsPartial` state the rules field by field.
  - `Dump`, `DumpUpdate` and `Overlay` model `model_dump()`,
    `model_dump(exclude_unset=True)` and `dict.update`.
  - `ApplyPatch` is the merge-and-revalidate step of an update. `Task`
    extends `TaskIn`, so rebuilding the merged record runs the full rules
    again, including `due_not_past` on a due date the patch left alone.
- `Store` (store.dfy) holds the store.
  - `Task` is the stored record. It holds the `TaskIn` fields, the id and
    the two timestamps.
  - `TaskStore` has the fields `db: map<int, Task>` and `nextId`, plus a
    ghost set `Issued` of every id handed out so far.
  - `Valid()` is the store invariant:
    - every key equals its task's id;
    - every key has been issued, and an id is issued exactly when it is
      between 1 and `nextId - 1`;
    - every stored task meets the full length rules.

Every handler checks the API key first (`require_key`, main.py:12-14). It
then validates the body, then looks up the id, and for an update
revalidates the merged record. This is FastAPI's order: the `require_key`
dependency runs before the body is validated, and both run before the
handler. Each mutating handler (Create, Replace, Update, Delete) states four
things:

- which error comes first;
- that a failed call leaves `db`, `nextId` and `Issued` unchanged;
- that a successful call changes exactly one key of `db`;
- that it keeps `Valid()`.

Inputs that the source gets from the environment are parameters:

- `now` is a `Timestamp`, an integer instant.
- `today` is a `Day`, an integer day number.
- The configured API key is a constructor argument. `DefaultApiKey` holds
  the fallback value.

Two consequences of the code are worth stating:

- A PATCH that sends only a status can fail. Rebuilding the merged record
  runs `due_not_past` again on the stored due date. Once that date has
  passed, every patch that leaves the due date out fails the rebuild, and the
  request ends with an unhandled exception (`Unhandled`, HTTP 500).
  `Schema.OverduePatchRejected` proves the failed rebuild. `Schema.StatusOnlyPatch`
  proves that on a task that still meets the rules such a patch changes the
  status and nothing else.
- `updated_at` is set to the clock's value, `now`. Nothing makes it strictly
  increase.

## Model

| member | source | states |
|---|---|---|
| `Schema.ParsePriority` | main.py:17 | a text is accepted as a priority exactly when it is one of the three names, and the priority it yields has that name |
| `Schema.ParseStatus` | main.py:18 | a text is accepted as a status exactly when it is one of the three names, and the status it yields has that name |
| `Schema.ParseTaskIn` | main.py:20-33 | a full payload is accepted exactly when the title is sent with 4..100 characters, a sent description has at most 100, priority and status are left out or name a member, and a sent due date is not before today. The record then holds the sent values with the defaults (no description, "medium", "todo", no due date) for the rest and meets every full rule. Every refusal is `Invalid` |
| `Schema.ParseTaskUpdate` | main.py:35-48 | a partial payload is accepted exactly when a sent title has 1..100 characters, a sent description at most 500, a sent priority or status names a member, and a sent due date is not before today; any field may be null or left out. The validated update dumps back to exactly the fields that were sent |
| `Schema.ApplyPatch` | main.py:96-100 | the merged record keeps every field the patch left out, clears every field sent as null and takes every sent value. It meets every full rule. A failure is the validation error `Invalid` of the rebuilt `Task`, which `Store.TaskStore.Update` reports as `Unhandled` |
| `Schema.ApplyPatchComplete` | main.py:96-100 | conversely, whenever the record with the sent fields applied meets the full rules, the merge succeeds and yields that record |
| `Schema.DumpRoundTrip` | main.py:69 | dumping a record that meets the full rules and validating it again on the same day gives the same record, so the `Task(...)` rebuilt in create and replace never fails |
| `Schema.FullRulesStricter` | main.py:20-48 | every payload the full rules accept is accepted by the partial rules too |
| `Schema.ShortTitlePatchRejected` | main.py:22-37 | a patch with a 1..3 character title passes the partial rules, yet rebuilding the merged record fails with `Invalid`, whatever task is stored |
| `Schema.LongDescriptionPatchRejected` | main.py:23-38 | a patch with a 101..500 character description passes the partial rules, yet rebuilding the merged record fails with `Invalid`, whatever task is stored |
| `Schema.StatusOnlyPatch` | main.py:96-100 | a patch that sends only a status is accepted, and on a stored task that still meets the rules it changes the status and nothing else |
| `Schema.OverduePatchRejected` | main.py:97-100 | once the stored due date has passed, rebuilding the merged record fails with `Invalid` for every patch that leaves the due date out |
| `Schema.TitleOnlyDefaults` | main.py:22-26 | a body with only a valid title yields no description, priority "medium", status "todo" and no due date |
| `Store.TaskStore.constructor` | main.py:56-57 | the store starts empty, with the counter at 1, no id issued, and the configured key |
| `Store.TaskStore.Create` | main.py:64-71 | a wrong key gives `Unauthorized` and an invalid payload gives `Invalid`, both with the store unchanged. Otherwise the task is stored under the current counter value, which was not a key, with the validated fields and both timestamps `now`. The counter advances by one, and the new id was never issued before and exceeds every id issued before |
| `Store.TaskStore.Get` | main.py:73-79 | a wrong key gives `Unauthorized`; otherwise the call succeeds exactly when the id is a key, returning the stored task, whose id is that key, and fails with `NotFound` when it is not |
| `Store.TaskStore.Replace` | main.py:81-89 | key, then payload, then existence are checked, and each failure leaves the store unchanged. On success the task gets every field from the payload, keeps its id and original `created_at`, gets `updated_at = now`, and no other key changes |
| `Store.TaskStore.Update` | main.py:91-101 | key, then partial payload, then existence are checked, giving `Unauthorized`, `Invalid` or `NotFound`. A merged record that fails the rebuild gives `Unhandled`. Each failure leaves the store unchanged. On success the stored task becomes the merge of `ApplyPatch` with its id and `created_at` kept and `updated_at = now`, and no other key changes |
| `Store.TaskStore.Delete` | main.py:103-109 | a wrong key gives `Unauthorized`; otherwise the call succeeds exactly when the id is a key, and then removes exactly that key. The counter and the issued ids are unchanged, so the id is never handed out again |
| `Store.TaskStore.List` | main.py:111-114 | a wrong key gives `Unauthorized`; otherwise the result holds exactly the stored tasks, each once: its length is the size of the store, and no two entries share an id |
| `Store.DeletedIdNotReused` | main.py:57-109 | on a fresh store, a task created from a title alone gets id 1 and the defaults. After it is deleted, a get on id 1 gives `NotFound`, and the next task created gets id 2 |

## Left out

- HTTP routing, status codes, JSON serialisation and the FastAPI dependency plumbing are not modelled. Outcomes are the four error kinds.
- A missing `x-api-key` header is not modelled. The framework rejects it before `require_key` runs, because the header is declared required.
- The JSON type coercion of the schema library is not modelled. Each field of a `Payload` already has the right JSON type. Unknown body fields, which the library ignores, are not modelled either.
- The `YYYY-MM-DD` date format is not modelled. A date is a day number.
- A path id that is not an integer is not modelled: `task_id` is an `int`.
- The library reports every broken field at once. The model returns a single `Invalid`.
- The clocks (`datetime.now`, `date.today`) are the parameters `now` and `today`. Create, replace and update each call `date.today()` twice: once when the request body is validated, and once when the `Task` is rebuilt in the handler. A request that spans midnight can therefore pass the first check with a due date of today and fail the second with an unhandled exception. In create, the counter has already advanced by then, so that id is lost. With one `today` per request the model cannot show this race.
- The API key is read from the environment with a fallback. The model takes it as a constructor argument.
- The store is read with `DB.get(task_id)` and tested with `if not task`. Get is modelled as a plain membership test, because a stored task is always truthy.
- The order of the list is left out. The dictionary's iteration order is not part of the contract, so `List` promises only which tasks are listed and that each appears once.
- Concurrent requests are left out. The source has no locking, so interleavings promise nothing.
- The landing endpoint `root` returns a constant message and is not modelled.
