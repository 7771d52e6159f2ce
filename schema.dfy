/** The request schemas of the task service and the field rules that guard
    them: the full payload `TaskIn` (create and replace), the partial payload
    `TaskUpdate` (update), and the revalidation a merged record goes through
    when `Task`, which extends `TaskIn`, is rebuilt from it. */
module Schema {

  datatype Option<+T> = None | Some(value: T)

  /** The ways a request is refused: a wrong API key (401), a request body
      that breaks a field rule (422), an id that is not in the store (404),
      and a record that a handler rebuilds and that then breaks a field rule.
      The framework does not catch that last error, so it escapes as an
      unhandled exception (500). */
  datatype Error = Unauthorized | Invalid | NotFound | Unhandled

  datatype Result<+T> = Ok(value: T) | Err(error: Error) {
    predicate IsFailure() { Err? }

    function PropagateFailure<U>(): Result<U>
      requires Err?
    {
      Err(error)
    }

    function Extract(): T
      requires Ok?
    {
      value
    }
  }

  /** One field of a JSON request body: left out, sent as null, or sent with a value. */
  datatype Field<+T> = Unset | Null | Sent(value: T)

  datatype Priority = Low | Medium | High
  datatype Status = Todo | Doing | Done

  /** A calendar date, as a day number. */
  type Day = int
  /** A UTC instant. */
  type Timestamp = int

  /** A request body as the client sent it: the five client-settable fields,
      with priority and status still as text. */
  datatype Payload = Payload(
    title: Field<string>,
    description: Field<string>,
    priority: Field<string>,
    status: Field<string>,
    dueDate: Field<Day>)

  /** A full payload that passed validation, defaults filled in. */
  datatype TaskIn = TaskIn(
    title: string,
    description: Option<string>,
    priority: Priority,
    status: Status,
    dueDate: Option<Day>)

  /** A partial payload that passed validation; every field remembers whether it was sent. */
  datatype TaskUpdate = TaskUpdate(
    title: Field<string>,
    description: Field<string>,
    priority: Field<Priority>,
    status: Field<Status>,
    dueDate: Field<Day>)

  // Length bounds of the full payload.
  const MinTitleLength := 4
  const MaxTitleLength := 100
  const MaxDescriptionLength := 100

  // Length bounds of the partial payload.
  const MinPatchTitleLength := 1
  const MaxPatchTitleLength := 100
  const MaxPatchDescriptionLength := 500

  /** The defaults of the full payload: no description, priority "medium",
      status "todo", no due date; the title has none. */
  const Defaults := Payload(Unset, Null, Sent("medium"), Sent("todo"), Null)

  // ---------------------------------------------------------------------
  // Enumerations

  function PriorityName(p: Priority): string {
    match p
    case Low => "low"
    case Medium => "medium"
    case High => "high"
  }

  function StatusName(s: Status): string {
    match s
    case Todo => "todo"
    case Doing => "doing"
    case Done => "done"
  }

  /** The priority a text names, if it names one. */
  function ParsePriority(s: string): (r: Option<Priority>)
    ensures r.Some? ==> PriorityName(r.value) == s
    ensures r.None? ==> forall p :: PriorityName(p) != s
  {
    if s == "low" then Some(Low)
    else if s == "medium" then Some(Medium)
    else if s == "high" then Some(High)
    else None
  }

  /** The status a text names, if it names one. */
  function ParseStatus(s: string): (r: Option<Status>)
    ensures r.Some? ==> StatusName(r.value) == s
    ensures r.None? ==> forall t :: StatusName(t) != s
  {
    if s == "todo" then Some(Todo)
    else if s == "doing" then Some(Doing)
    else if s == "done" then Some(Done)
    else None
  }

  // ---------------------------------------------------------------------
  // The field rules

  /** The `due_not_past` validator: a due date, when there is one, is not before today. */
  predicate DueNotPast(d: Option<Day>, today: Day) {
    d.Some? ==> today <= d.value
  }

  /** The length bounds of the full payload, which do not depend on the day. */
  predicate WithinLimits(t: TaskIn) {
    && MinTitleLength <= |t.title| <= MaxTitleLength
    && (t.description.Some? ==> |t.description.value| <= MaxDescriptionLength)
  }

  /** A record satisfies every rule of the full payload on the given day. */
  predicate Conforms(t: TaskIn, today: Day) {
    WithinLimits(t) && DueNotPast(t.dueDate, today)
  }

  /** The rules of the full payload, field by field, as the schema declares them:
      a required title of 4..100 characters, an optional description of at most
      100, priority and status left out or naming a member of their enumeration,
      and a due date that is left out, null, or not before today. */
  predicate AcceptsFull(p: Payload, today: Day) {
    && p.title.Sent? && MinTitleLength <= |p.title.value| <= MaxTitleLength
    && (p.description.Sent? ==> |p.description.value| <= MaxDescriptionLength)
    && !p.priority.Null? && (p.priority.Sent? ==> ParsePriority(p.priority.value).Some?)
    && !p.status.Null? && (p.status.Sent? ==> ParseStatus(p.status.value).Some?)
    && (p.dueDate.Sent? ==> today <= p.dueDate.value)
  }

  /** The rules of the partial payload: every field may be left out or sent as
      null; a sent title has 1..100 characters, a sent description at most 500,
      a sent priority or status names a member, a sent due date is not before today. */
  predicate AcceptsPartial(p: Payload, today: Day) {
    && (p.title.Sent? ==> MinPatchTitleLength <= |p.title.value| <= MaxPatchTitleLength)
    && (p.description.Sent? ==> |p.description.value| <= MaxPatchDescriptionLength)
    && (p.priority.Sent? ==> ParsePriority(p.priority.value).Some?)
    && (p.status.Sent? ==> ParseStatus(p.status.value).Some?)
    && (p.dueDate.Sent? ==> today <= p.dueDate.value)
  }

  // ---------------------------------------------------------------------
  // Dumping and merging request bodies

  function FromOption<T>(o: Option<T>): Field<T> {
    match o
    case Some(v) => Sent(v)
    case None => Null
  }

  /** `model_dump()` of a full record: every field present, absent values as null. */
  function Dump(t: TaskIn): Payload {
    Payload(Sent(t.title), FromOption(t.description), Sent(PriorityName(t.priority)),
            Sent(StatusName(t.status)), FromOption(t.dueDate))
  }

  function NameField<T>(f: Field<T>, name: T -> string): Field<string> {
    match f
    case Unset => Unset
    case Null => Null
    case Sent(v) => Sent(name(v))
  }

  /** `model_dump(exclude_unset=True)` of a partial payload: only the fields the client sent. */
  function DumpUpdate(u: TaskUpdate): Payload {
    Payload(u.title, u.description, NameField(u.priority, PriorityName),
            NameField(u.status, StatusName), u.dueDate)
  }

  function Pick<T>(base: Field<T>, over: Field<T>): Field<T> {
    if over.Unset? then base else over
  }

  /** `dict.update`: every field present in `over`, null included, replaces the one in `base`. */
  function Overlay(base: Payload, over: Payload): Payload {
    Payload(Pick(base.title, over.title), Pick(base.description, over.description),
            Pick(base.priority, over.priority), Pick(base.status, over.status),
            Pick(base.dueDate, over.dueDate))
  }

  // ---------------------------------------------------------------------
  // Validation of the full payload

  function RequiredText(f: Field<string>, min: nat, max: nat): Result<string> {
    if f.Sent? && min <= |f.value| <= max then Ok(f.value) else Err(Invalid)
  }

  function OptionalText(f: Field<string>, max: nat): Result<Option<string>> {
    match f
    case Unset => Ok(None)
    case Null => Ok(None)
    case Sent(s) => if |s| <= max then Ok(Some(s)) else Err(Invalid)
  }

  function PriorityOr(f: Field<string>, default: Priority): Result<Priority> {
    match f
    case Unset => Ok(default)
    case Null => Err(Invalid)
    case Sent(s) => if ParsePriority(s).Some? then Ok(ParsePriority(s).value) else Err(Invalid)
  }

  function StatusOr(f: Field<string>, default: Status): Result<Status> {
    match f
    case Unset => Ok(default)
    case Null => Err(Invalid)
    case Sent(s) => if ParseStatus(s).Some? then Ok(ParseStatus(s).value) else Err(Invalid)
  }

  function DueDate(f: Field<Day>, today: Day): Result<Option<Day>> {
    match f
    case Unset => Ok(None)
    case Null => Ok(None)
    case Sent(d) => if today <= d then Ok(Some(d)) else Err(Invalid)
  }

  /** Validation of a full payload (`TaskIn`, and `Task` for the fields it
      inherits): it succeeds exactly when the payload meets the full rules, and
      then the record holds what was sent, with the defaults for what was not. */
  function ParseTaskIn(p: Payload, today: Day): (r: Result<TaskIn>)
    ensures r.Ok? <==> AcceptsFull(p, today)
    ensures r.Ok? ==> Dump(r.value) == Overlay(Defaults, p) && Conforms(r.value, today)
    ensures r.Err? ==> r.error == Invalid
  {
    var title :- RequiredText(p.title, MinTitleLength, MaxTitleLength);
    var description :- OptionalText(p.description, MaxDescriptionLength);
    var priority :- PriorityOr(p.priority, Medium);
    var status :- StatusOr(p.status, Todo);
    var dueDate :- DueDate(p.dueDate, today);
    Ok(TaskIn(title, description, priority, status, dueDate))
  }

  // ---------------------------------------------------------------------
  // Validation of the partial payload

  function PatchText(f: Field<string>, min: nat, max: nat): Result<Field<string>> {
    if f.Sent? && !(min <= |f.value| <= max) then Err(Invalid) else Ok(f)
  }

  function PatchPriority(f: Field<string>): Result<Field<Priority>> {
    match f
    case Unset => Ok(Unset)
    case Null => Ok(Null)
    case Sent(s) => if ParsePriority(s).Some? then Ok(Sent(ParsePriority(s).value)) else Err(Invalid)
  }

  function PatchStatus(f: Field<string>): Result<Field<Status>> {
    match f
    case Unset => Ok(Unset)
    case Null => Ok(Null)
    case Sent(s) => if ParseStatus(s).Some? then Ok(Sent(ParseStatus(s).value)) else Err(Invalid)
  }

  function PatchDueDate(f: Field<Day>, today: Day): Result<Field<Day>> {
    if f.Sent? && f.value < today then Err(Invalid) else Ok(f)
  }

  /** Validation of a partial payload (`TaskUpdate`): it succeeds exactly when
      the payload meets the partial rules, and the validated update dumps back
      to precisely the fields that were sent, nulls included. */
  function ParseTaskUpdate(p: Payload, today: Day): (r: Result<TaskUpdate>)
    ensures r.Ok? <==> AcceptsPartial(p, today)
    ensures r.Ok? ==> DumpUpdate(r.value) == p
    ensures r.Err? ==> r.error == Invalid
  {
    var title :- PatchText(p.title, MinPatchTitleLength, MaxPatchTitleLength);
    var description :- PatchText(p.description, 0, MaxPatchDescriptionLength);
    var priority :- PatchPriority(p.priority);
    var status :- PatchStatus(p.status);
    var dueDate :- PatchDueDate(p.dueDate, today);
    Ok(TaskUpdate(title, description, priority, status, dueDate))
  }

  // ---------------------------------------------------------------------
  // Applying a partial update

  /** The value a field has after a patch: kept when not sent, cleared when sent as null. */
  function After<T>(f: Field<T>, prev: Option<T>): Option<T> {
    match f
    case Unset => prev
    case Null => None
    case Sent(v) => Some(v)
  }

  /** `g` is `t` with exactly the fields sent in `u` applied (a required field
      sent as null has no such `g`). */
  predicate PatchedAs(t: TaskIn, u: TaskUpdate, g: TaskIn) {
    && Some(g.title) == After(u.title, Some(t.title))
    && g.description == After(u.description, t.description)
    && Some(g.priority) == After(u.priority, Some(t.priority))
    && Some(g.status) == After(u.status, Some(t.status))
    && g.dueDate == After(u.dueDate, t.dueDate)
  }

  /** The merge of an update: the stored record's dump, overlaid with the sent
      fields, revalidated against the full rules. On success only the sent
      fields changed and the result meets every full rule. */
  function ApplyPatch(t: TaskIn, u: TaskUpdate, today: Day): (r: Result<TaskIn>)
    ensures r.Ok? ==> PatchedAs(t, u, r.value) && Conforms(r.value, today)
    ensures r.Err? ==> r.error == Invalid
  {
    ParseTaskIn(Overlay(Dump(t), DumpUpdate(u)), today)
  }

  // ---------------------------------------------------------------------
  // Properties

  /** Dumping a record that meets the full rules and validating it again gives
      the same record back: the `Task(...)` rebuilt in create and replace from
      a payload validated that same day never fails. */
  lemma DumpRoundTrip(t: TaskIn, today: Day)
    requires Conforms(t, today)
    ensures ParseTaskIn(Dump(t), today) == Ok(t)
  {
  }

  /** The converse of `ApplyPatch`'s contract: whenever the record with the sent
      fields applied meets the full rules, the update goes through and yields it. */
  lemma ApplyPatchComplete(t: TaskIn, u: TaskUpdate, today: Day, g: TaskIn)
    requires PatchedAs(t, u, g) && Conforms(g, today)
    ensures ApplyPatch(t, u, today) == Ok(g)
  {
  }

  /** Every payload the full rules accept, the partial rules accept too. */
  lemma FullRulesStricter(p: Payload, today: Day)
    requires AcceptsFull(p, today)
    ensures AcceptsPartial(p, today)
  {
  }

  /** A title of 1 to 3 characters passes the partial rules but fails the
      revalidation of the merged record, whatever the stored task. */
  lemma ShortTitlePatchRejected(t: TaskIn, title: string, today: Day)
    requires 1 <= |title| < MinTitleLength
    ensures ParseTaskUpdate(Payload(Sent(title), Unset, Unset, Unset, Unset), today).Ok?
    ensures ApplyPatch(t, ParseTaskUpdate(Payload(Sent(title), Unset, Unset, Unset, Unset), today).value, today) == Err(Invalid)
  {
  }

  /** A description of 101 to 500 characters passes the partial rules but fails
      the revalidation of the merged record, whatever the stored task. */
  lemma LongDescriptionPatchRejected(t: TaskIn, description: string, today: Day)
    requires MaxDescriptionLength < |description| <= MaxPatchDescriptionLength
    ensures ParseTaskUpdate(Payload(Unset, Sent(description), Unset, Unset, Unset), today).Ok?
    ensures ApplyPatch(t, ParseTaskUpdate(Payload(Unset, Sent(description), Unset, Unset, Unset), today).value, today) == Err(Invalid)
  {
  }

  /** A patch that sends only a new status changes only the status, as long as
      the stored record still meets the full rules on the day of the patch. */
  lemma StatusOnlyPatch(t: TaskIn, s: Status, today: Day)
    requires Conforms(t, today)
    ensures ParseTaskUpdate(Payload(Unset, Unset, Unset, Sent(StatusName(s)), Unset), today) == Ok(TaskUpdate(Unset, Unset, Unset, Sent(s), Unset))
    ensures ApplyPatch(t, TaskUpdate(Unset, Unset, Unset, Sent(s), Unset), today) == Ok(t.(status := s))
  {
  }

  /** Once a stored due date has passed, every patch that leaves the due date
      out is refused, a status-only patch included: the stored date is
      revalidated against today. */
  lemma OverduePatchRejected(t: TaskIn, u: TaskUpdate, today: Day)
    requires t.dueDate.Some? && t.dueDate.value < today
    requires u.dueDate.Unset?
    ensures ApplyPatch(t, u, today) == Err(Invalid)
  {
  }

  /** A body with only a title gets no description, priority "medium", status "todo" and no due date. */
  lemma TitleOnlyDefaults(title: string, today: Day)
    requires MinTitleLength <= |title| <= MaxTitleLength
    ensures ParseTaskIn(Payload(Sent(title), Unset, Unset, Unset, Unset), today) == Ok(TaskIn(title, None, Medium, Todo, None))
  {
  }
}
