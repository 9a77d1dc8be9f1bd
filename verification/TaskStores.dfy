/** The customer agent's task stores: one abstract store and its two implementations. */
module TaskStores {
  import opened Domain

  datatype TaskState = AuthRequired | Working | Completed | TaskFailed | Canceled

  datatype Request = Request(
    idempotencyKey: string, caseId: string, merchantId: string, customerId: string,
    recoveryActionId: string, failedInvoiceId: string, exactAmountPaise: int, currency: string,
    surfaceType: string, surfaceReference: string, expiresAt: int, displayContext: string)

  datatype Mandate = Mandate(
    mandateId: string, nonce: string, taskId: string, merchantId: string, caseId: string,
    customerId: string, recoveryActionId: string, failedInvoiceId: string, exactAmountPaise: int,
    currency: string, surfaceType: string, surfaceReference: string, issuedAt: int, expiresAt: int)

  datatype Receipt = Receipt(
    receiptId: string, taskId: string, mandateId: string, merchantId: string, caseId: string,
    recoveryActionId: string, failedInvoiceId: string, exactAmountPaise: int, currency: string,
    providerReference: string)

  datatype Artifact = Authorization(mandate: Mandate) | Payment(receipt: Receipt)

  datatype Message = Message(id: string, taskId: Option<string>, body: string)

  datatype Task = Task(
    id: string, state: TaskState, artifacts: seq<Artifact>, history: seq<Message>,
    request: Request, updatedAt: int, revision: nat)

  datatype StoreError = VersionConflict | IdempotencyConflict | IdCollision

  // ---------------------------------------------------------- the abstract store

  datatype Store = Store(tasks: map<string, Task>, keys: map<string, string>)

  const EmptyStore := Store(map[], map[])

  ghost predicate StoreInv(s: Store) {
    && (forall k | k in s.keys :: s.keys[k] in s.tasks)
    && (forall k, l | k in s.keys && l in s.keys && s.keys[k] == s.keys[l] :: k == l)
    && (forall id | id in s.tasks :: s.tasks[id].id == id && s.tasks[id].revision >= 1)
  }

  function Created(s: Store, key: string, task: Task): (Store, Result<Task, StoreError>)
    requires forall k | k in s.keys :: s.keys[k] in s.tasks
  {
    if key in s.keys then
      var existing := s.tasks[s.keys[key]];
      (s, if existing.request == task.request then Ok(existing) else Err(IdempotencyConflict))
    else if task.id in s.tasks then (s, Err(IdCollision))
    else
      var stored := task.(revision := 1);
      (Store(s.tasks[task.id := stored], s.keys[key := task.id]), Ok(stored))
  }

  function Saved(s: Store, task: Task, expected: nat): (Store, Result<Task, StoreError>) {
    if task.id in s.tasks && s.tasks[task.id].revision == expected then
      var stored := task.(revision := expected + 1);
      (s.(tasks := s.tasks[task.id := stored]), Ok(stored))
    else (s, Err(VersionConflict))
  }

  datatype Op = Creating(key: string, task: Task) | Saving(task: Task, expected: nat)

  function Do(s: Store, op: Op): Store
    requires forall k | k in s.keys :: s.keys[k] in s.tasks
  {
    match op
    case Creating(key, task) => Created(s, key, task).0
    case Saving(task, expected) => Saved(s, task, expected).0
  }

  lemma DoKeeps(s: Store, op: Op)
    requires StoreInv(s)
    ensures StoreInv(Do(s, op))
    ensures forall k | k in s.keys :: k in Do(s, op).keys && Do(s, op).keys[k] == s.keys[k]
    ensures forall id | id in s.tasks :: id in Do(s, op).tasks
  {
  }

  ghost function DoAll(s: Store, ops: seq<Op>): (t: Store)
    requires StoreInv(s)
    ensures StoreInv(t)
    decreases |ops|
  {
    if ops == [] then s else
      DoKeeps(s, ops[0]);
      DoAll(Do(s, ops[0]), ops[1..])
  }

  /** How many of the operations are successful saves of the task. */
  ghost function SavesOf(s: Store, ops: seq<Op>, id: string): nat
    requires StoreInv(s)
    decreases |ops|
  {
    if ops == [] then 0 else
      DoKeeps(s, ops[0]);
      (if ops[0].Saving? && ops[0].task.id == id && Saved(s, ops[0].task, ops[0].expected).1.Ok? then 1 else 0)
      + SavesOf(Do(s, ops[0]), ops[1..], id)
  }

  lemma {:induction false} RevisionCountsSaves(s: Store, ops: seq<Op>, id: string)
    requires StoreInv(s) && id in s.tasks
    ensures id in DoAll(s, ops).tasks
    ensures DoAll(s, ops).tasks[id].revision == s.tasks[id].revision + SavesOf(s, ops, id)
    ensures SavesOf(s, ops, id) == 0 ==> DoAll(s, ops).tasks[id] == s.tasks[id]
    decreases |ops|
  {
    if ops != [] {
      DoKeeps(s, ops[0]);
      RevisionCountsSaves(Do(s, ops[0]), ops[1..], id);
    }
  }

  /** A save made from a copy read earlier succeeds exactly when no other save of that task
      succeeded in between; otherwise it changes nothing. */
  lemma SaveSucceedsIffNothingIntervened(s: Store, between: seq<Op>, task: Task)
    requires StoreInv(s) && task.id in s.tasks
    ensures var (after, r) := Saved(DoAll(s, between), task, s.tasks[task.id].revision);
            && (r.Ok? <==> SavesOf(s, between, task.id) == 0)
            && (r.Err? ==> after == DoAll(s, between))
  {
    RevisionCountsSaves(s, between, task.id);
  }

  lemma {:induction false} KeysStay(s: Store, ops: seq<Op>, key: string)
    requires StoreInv(s) && key in s.keys
    ensures key in DoAll(s, ops).keys && DoAll(s, ops).keys[key] == s.keys[key]
    decreases |ops|
  {
    if ops != [] {
      DoKeeps(s, ops[0]);
      KeysStay(Do(s, ops[0]), ops[1..], key);
    }
  }

  /** A request a task was created for is never rewritten by saves that keep it. */
  ghost predicate KeepsRequests(s: Store, ops: seq<Op>)
    requires StoreInv(s)
    decreases |ops|
  {
    ops == [] ||
    (&& (ops[0].Saving? && ops[0].task.id in s.tasks ==> ops[0].task.request == s.tasks[ops[0].task.id].request)
     && (DoKeeps(s, ops[0]); KeepsRequests(Do(s, ops[0]), ops[1..])))
  }

  lemma {:induction false} RequestStays(s: Store, ops: seq<Op>, id: string)
    requires StoreInv(s) && id in s.tasks && KeepsRequests(s, ops)
    ensures id in DoAll(s, ops).tasks && DoAll(s, ops).tasks[id].request == s.tasks[id].request
    decreases |ops|
  {
    if ops != [] {
      DoKeeps(s, ops[0]);
      RequestStays(Do(s, ops[0]), ops[1..], id);
    }
  }

  /** After a first creation every later one under the same key, whatever happened since,
      returns that task for an equal request, and fails without any change for another. */
  lemma RepeatedCreation(s: Store, key: string, first: Task, between: seq<Op>, again: Task)
    requires StoreInv(s) && key !in s.keys && first.id !in s.tasks
    requires StoreInv(Created(s, key, first).0) && KeepsRequests(Created(s, key, first).0, between)
    ensures var created := Created(s, key, first).0;
            var later := DoAll(created, between);
            var (after, r) := Created(later, key, again);
            && after == later
            && (again.request == first.request ==> first.id in later.tasks && r == Ok(later.tasks[first.id]))
            && (again.request != first.request ==> r == Err(IdempotencyConflict))
  {
    var created := Created(s, key, first).0;
    KeysStay(created, between, key);
    RequestStays(created, between, first.id);
  }

  // ------------------------------------------------------------- in memory

  class InMemoryTaskStore {
    var tasks: map<string, Task>
    var idempotency: map<string, string>

    constructor ()
      ensures Abs() == EmptyStore
    {
      tasks, idempotency := map[], map[];
    }

    ghost function Abs(): Store
      reads this
    {
      Store(tasks, idempotency)
    }

    ghost predicate Valid()
      reads this
    {
      StoreInv(Abs()) && "" !in tasks
    }

    /** Refines the abstract creation exactly when a new task's id is new: a reused id would
        replace the task it names. */
    method CreateOnce(key: string, task: Task) returns (r: Result<Task, StoreError>)
      requires Valid() && task.id != ""
      modifies this
      ensures key in old(idempotency) || task.id !in old(tasks) <==>
                (Abs(), r) == Created(old(Abs()), key, task)
      ensures key in old(idempotency) || task.id !in old(tasks) ==> Valid()
    {
      var existingId := if key in idempotency then idempotency[key] else "";
      if existingId != "" {
        var existing := tasks[existingId];
        if existing.request != task.request { return Err(IdempotencyConflict); }
        return Ok(existing);
      }
      ghost var before := Abs();
      var stored := task.(revision := 1);
      tasks := tasks[task.id := stored];
      idempotency := idempotency[key := task.id];
      if task.id !in before.tasks { DoKeeps(before, Creating(key, task)); }
      return Ok(stored);
    }

    method Get(id: string) returns (task: Option<Task>)
      ensures task == if id in Abs().tasks then Some(Abs().tasks[id]) else None
    {
      return if id in tasks then Some(tasks[id]) else None;
    }

    method Save(task: Task, expectedRevision: nat) returns (r: Result<Task, StoreError>)
      requires Valid()
      modifies this
      ensures Valid() && (Abs(), r) == Saved(old(Abs()), task, expectedRevision)
    {
      if task.id !in tasks || tasks[task.id].revision != expectedRevision { return Err(VersionConflict); }
      DoKeeps(Abs(), Saving(task, expectedRevision));
      var stored := task.(revision := expectedRevision + 1);
      tasks := tasks[task.id := stored];
      return Ok(stored);
    }

    /** What other callers do between two awaits of one call. */
    method Interleave(others: seq<Op>)
      requires Valid() && Harmless(Abs(), others)
      modifies this
      ensures Valid() && Abs() == DoAll(old(Abs()), others)
    {
      var i := 0;
      while i < |others|
        invariant 0 <= i <= |others| && Valid() && Harmless(Abs(), others[i..])
        invariant DoAll(Abs(), others[i..]) == DoAll(old(Abs()), others)
      {
        assert others[i..][0] == others[i] && others[i..][1..] == others[i + 1..];
        match others[i] {
          case Creating(key, task) => var _ := CreateOnce(key, task);
          case Saving(task, expected) => var _ := Save(task, expected);
        }
        i := i + 1;
      }
    }
  }

  /** Creations that the in-memory store performs as the abstract one does. */
  ghost predicate Harmless(s: Store, ops: seq<Op>)
    requires StoreInv(s)
    decreases |ops|
  {
    ops == [] ||
    (&& (ops[0].Creating? ==> ops[0].task.id != "" && (ops[0].key in s.keys || ops[0].task.id !in s.tasks))
     && (DoKeeps(s, ops[0]); Harmless(Do(s, ops[0]), ops[1..])))
  }

  // -------------------------------------------------------------------- SQL

  /** The JSON payload of a row: a task without its revision. */
  datatype Payload = Payload(
    id: string, state: TaskState, artifacts: seq<Artifact>, history: seq<Message>,
    request: Request, updatedAt: int)

  datatype TaskRow = TaskRow(idempotencyKey: string, state: TaskState, payload: Payload, version: nat, updatedAt: int)

  function TaskPayload(t: Task): Payload { Payload(t.id, t.state, t.artifacts, t.history, t.request, t.updatedAt) }

  function TaskFromRow(r: TaskRow): Task {
    Task(r.payload.id, r.payload.state, r.payload.artifacts, r.payload.history, r.payload.request, r.payload.updatedAt, r.version)
  }

  function TasksOf(rows: map<string, TaskRow>): map<string, Task> { map id | id in rows :: TaskFromRow(rows[id]) }

  /** Writing one row changes one task. */
  lemma RowAdded(rows: map<string, TaskRow>, id: string, row: TaskRow)
    ensures TasksOf(rows[id := row]) == TasksOf(rows)[id := TaskFromRow(row)]
  {
  }

  class SqlTaskStore {
    var rows: map<string, TaskRow>

    constructor ()
      ensures Valid() && Tasks() == map[]
    {
      rows := map[];
    }

    /** Primary key, unique idempotency key, positive version, and a projection in step. */
    ghost predicate Valid()
      reads this
    {
      && (forall id | id in rows :: rows[id].payload.id == id && rows[id].version >= 1)
      && (forall id | id in rows :: rows[id].state == rows[id].payload.state)
      && (forall i, j | i in rows && j in rows && rows[i].idempotencyKey == rows[j].idempotencyKey :: i == j)
    }

    ghost function Tasks(): map<string, Task>
      reads this
    {
      TasksOf(rows)
    }

    /** The store the rows stand for: each row's key leads to its task. */
    ghost predicate Represents(s: Store)
      reads this
    {
      && s.tasks == Tasks()
      && (forall k | k in s.keys :: s.keys[k] in rows && rows[s.keys[k]].idempotencyKey == k)
      && (forall id | id in rows :: rows[id].idempotencyKey in s.keys)
    }

    /** The unique constraints, not a read before the write, decide who creates. */
    method CreateOnce(key: string, task: Task, ghost s: Store) returns (r: Result<Task, StoreError>)
      requires Valid() && Represents(s)
      modifies this
      ensures Valid() && Represents(Created(s, key, task).0)
      ensures r == Created(s, key, task).1
    {
      var violates := task.id in rows || exists id :: id in rows && rows[id].idempotencyKey == key;
      if !violates {
        Insert(key, task);
        return Ok(TaskFromRow(rows[task.id]));
      }
      if id :| id in rows && rows[id].idempotencyKey == key {
        assert key in s.keys && s.keys[key] == id;
        var existing := TaskFromRow(rows[id]);
        if existing.request != task.request { return Err(IdempotencyConflict); }
        return Ok(existing);
      }
      return Err(IdCollision);
    }

    method Insert(key: string, task: Task)
      requires Valid() && task.id !in rows && forall id | id in rows :: rows[id].idempotencyKey != key
      modifies this
      ensures Valid() && Tasks() == old(Tasks())[task.id := task.(revision := 1)]
      ensures rows == old(rows)[task.id := TaskRow(key, task.state, TaskPayload(task), 1, task.updatedAt)]
    {
      var row := TaskRow(key, task.state, TaskPayload(task), 1, task.updatedAt);
      RowAdded(rows, task.id, row);
      rows := rows[task.id := row];
    }

    method Get(id: string) returns (task: Option<Task>)
      ensures task == if id in Tasks() then Some(Tasks()[id]) else None
    {
      return if id in rows then Some(TaskFromRow(rows[id])) else None;
    }

    method Save(task: Task, expectedRevision: nat, ghost s: Store) returns (r: Result<Task, StoreError>)
      requires Valid() && Represents(s)
      modifies this
      ensures Valid() && Represents(Saved(s, task, expectedRevision).0)
      ensures r == Saved(s, task, expectedRevision).1
    {
      if task.id !in rows || rows[task.id].version != expectedRevision { return Err(VersionConflict); }
      var row := rows[task.id].(state := task.state, payload := TaskPayload(task),
                                version := expectedRevision + 1, updatedAt := task.updatedAt);
      RowAdded(rows, task.id, row);
      rows := rows[task.id := row];
      return Ok(task.(revision := expectedRevision + 1));
    }
  }
}
