/**
 Review-task deduplication, one caller at a time (app/services/review_service.py).

 The lookup compares nullable columns as they are; the partial unique indexes compare
 them after COALESCE(feature_pk, '') and COALESCE(feature_id, ''), so null and the empty
 string are distinct to the lookup and equal to the index.
 */
module ReviewTasks {
  import opened Common

  type Findings = map<string, string>

  datatype Status = Open | Closed

  /** The columns the lookup filters on. */
  datatype Key = Key(
    tenantId: string, featureId: Option<string>, featurePk: Option<string>,
    featureVersionId: Option<string>, reviewType: string, triggerReason: string)

  /** `latest` is the entry a repeated call overwrites inside `findings_json`. */
  datatype Task = Task(
    id: string, key: Key, aiSystemId: Option<string>, severity: string, status: Status,
    occurrences: nat, findings: Findings, latest: Option<Findings>, resolutionNote: Option<string>,
    lastSeenAt: int, completedAt: Option<int>)

  /** One call of `get_or_create_open_review_task`, with the id and clock it would use. */
  datatype Call = Call(
    key: Key, severity: string, findings: Findings, aiSystemId: Option<string>, id: string, now: int)

  datatype IntegrityError = UniqueViolation

  function Coalesce(s: Option<string>): Option<string> {
    if s.Some? then s else Some("")
  }

  /** The columns of the partial index the key falls under. */
  function Indexed(key: Key): Key {
    key.(featureId := Coalesce(key.featureId), featurePk := Coalesce(key.featurePk))
  }

  /** Ids are null or non-empty, so lookup and index agree on which keys are equal. */
  predicate NoEmptyIds(key: Key) {
    key.featureId != Some("") && key.featurePk != Some("")
  }

  lemma IndexSeparatesKeys(a: Key, b: Key)
    requires NoEmptyIds(a) && NoEmptyIds(b)
    ensures Indexed(a) == Indexed(b) <==> a == b
  {
  }

  function FindOpenFrom(rows: seq<Task>, key: Key, from: nat): (found: Option<nat>)
    requires from <= |rows|
    ensures found.Some? ==>
              from <= found.value < |rows| && rows[found.value].status == Open && rows[found.value].key == key
    ensures found.None? <==> forall k :: from <= k < |rows| ==> !(rows[k].status == Open && rows[k].key == key)
    decreases |rows| - from
  {
    if from == |rows| then None
    else if rows[from].status == Open && rows[from].key == key then Some(from)
    else FindOpenFrom(rows, key, from + 1)
  }

  function FindOpen(rows: seq<Task>, key: Key): (found: Option<nat>)
    ensures found.Some? ==> found.value < |rows| && rows[found.value].status == Open && rows[found.value].key == key
    ensures found.None? <==> forall k :: 0 <= k < |rows| ==> !(rows[k].status == Open && rows[k].key == key)
  {
    FindOpenFrom(rows, key, 0)
  }

  /** The unique indexes refuse another open task with this key. */
  predicate Refused(rows: seq<Task>, key: Key) {
    exists k :: 0 <= k < |rows| && rows[k].status == Open && Indexed(rows[k].key) == Indexed(key)
  }

  function NewTask(c: Call): Task {
    Task(c.id, c.key, c.aiSystemId, c.severity, Open, 1, c.findings, None, None, c.now, None)
  }

  function Recur(t: Task, c: Call): Task {
    t.(occurrences := t.occurrences + 1, lastSeenAt := c.now, latest := Some(c.findings),
       aiSystemId := if t.aiSystemId.None? then c.aiSystemId else t.aiSystemId)
  }

  /** Serial outcome: the rows afterwards and the index of the caller's task. */
  function GetOrCreate(rows: seq<Task>, c: Call): Result<(seq<Task>, nat), IntegrityError> {
    match FindOpen(rows, c.key)
    case Some(k) => Ok((rows[k := Recur(rows[k], c)], k))
    case None =>
      if Refused(rows, c.key) then Err(UniqueViolation) else Ok((rows + [NewTask(c)], |rows|))
  }

  function FindId(rows: seq<Task>, tenant: string, id: string): (found: Option<nat>)
    ensures found.Some? ==>
              found.value < |rows| && rows[found.value].id == id && rows[found.value].key.tenantId == tenant
    ensures found.None? <==> forall k :: 0 <= k < |rows| ==> !(rows[k].id == id && rows[k].key.tenantId == tenant)
  {
    if rows == [] then None else
    var earlier := FindId(rows[..|rows| - 1], tenant, id);
    if earlier.Some? then earlier
    else if rows[|rows| - 1].id == id && rows[|rows| - 1].key.tenantId == tenant then Some(|rows| - 1)
    else None
  }

  function Close(rows: seq<Task>, tenant: string, id: string, note: Option<string>, now: int): seq<Task> {
    match FindId(rows, tenant, id)
    case None => rows
    case Some(k) =>
      rows[k := rows[k].(status := Closed, completedAt := Some(now),
                         resolutionNote := if Truthy(note) then note else rows[k].resolutionNote)]
  }

  /** The `review_tasks` table as one session sees it. */
  class TaskTable {
    var rows: seq<Task>

    constructor (rows: seq<Task>)
      ensures this.rows == rows
    {
      this.rows := rows;
    }

    /** The flush inside the savepoint: the row is added unless an index refuses it. */
    method InsertUnderSavepoint(task: Task) returns (violated: bool)
      modifies this
      ensures violated == Refused(old(rows), task.key)
      ensures rows == if violated then old(rows) else old(rows) + [task]
    {
      violated := Refused(rows, task.key);
      if !violated {
        rows := rows + [task];
      }
    }

    method Touch(k: nat, c: Call)
      requires k < |rows|
      modifies this
      ensures rows == old(rows)[k := Recur(old(rows)[k], c)]
    {
      var task := rows[k];
      task := task.(occurrences := task.occurrences + 1);
      task := task.(lastSeenAt := c.now, latest := Some(c.findings));
      if task.aiSystemId.None? && c.aiSystemId.Some? {
        task := task.(aiSystemId := c.aiSystemId);
      }
      rows := rows[k := task];
    }

    /**
     `atInsert` and `atRelookup` are what other sessions have committed by the time of the
     insert and of the second query; a serial caller passes the rows it already sees.
     */
    method GetOrCreateOpenReviewTask(c: Call, atInsert: seq<Task>, atRelookup: seq<Task>)
      returns (task: Result<nat, IntegrityError>)
      modifies this
      ensures FindOpen(old(rows), c.key).Some? ==>
                var k := FindOpen(old(rows), c.key).value;
                task == Ok(k) && rows == old(rows)[k := Recur(old(rows)[k], c)]
      ensures FindOpen(old(rows), c.key).None? && !Refused(atInsert, c.key) ==>
                task == Ok(|atInsert|) && rows == atInsert + [NewTask(c)]
      ensures FindOpen(old(rows), c.key).None? && Refused(atInsert, c.key) ==>
                match FindOpen(atRelookup, c.key)
                case Some(k) => task == Ok(k) && rows == atRelookup[k := Recur(atRelookup[k], c)]
                case None => task == Err(UniqueViolation) && rows == atRelookup
      ensures atInsert == atRelookup == old(rows) ==>
                match GetOrCreate(old(rows), c)
                case Ok(r) => rows == r.0 && task == Ok(r.1)
                case Err(e) => rows == old(rows) && task == Err(e)
    {
      var found := FindOpen(rows, c.key);
      if found.Some? {
        Touch(found.value, c);
        return Ok(found.value);
      }
      rows := atInsert;
      var violated := InsertUnderSavepoint(NewTask(c));
      if !violated {
        return Ok(|rows| - 1);
      }
      rows := atRelookup;
      found := FindOpen(rows, c.key);
      if found.None? {
        return Err(UniqueViolation);
      }
      Touch(found.value, c);
      return Ok(found.value);
    }

    /** The close route (app/routes/reviews.py): closing again only restamps the task. */
    method CloseReviewTask(tenant: string, id: string, note: Option<string>, now: int) returns (found: bool)
      modifies this
      ensures rows == Close(old(rows), tenant, id, note, now)
      ensures found == FindId(old(rows), tenant, id).Some?
    {
      var k := FindId(rows, tenant, id);
      if k.None? {
        return false;
      }
      var task := rows[k.value].(status := Closed, completedAt := Some(now));
      if Truthy(note) {
        task := task.(resolutionNote := note);
      }
      rows := rows[k.value := task];
      return true;
    }
  }

  // ---- Serial runs ------------------------------------------------------------------------

  datatype Op =
    | Called(call: Call)
    | Closing(tenantId: string, id: string, note: Option<string>, now: int)

  function Apply(rows: seq<Task>, op: Op): seq<Task> {
    match op
    case Called(c) => (match GetOrCreate(rows, c) case Ok(r) => r.0 case Err(_) => rows)
    case Closing(tenant, id, note, now) => Close(rows, tenant, id, note, now)
  }

  function Run(rows: seq<Task>, ops: seq<Op>): seq<Task>
    decreases |ops|
  {
    if ops == [] then rows else Run(Apply(rows, ops[0]), ops[1..])
  }

  ghost predicate AtMostOneOpen(rows: seq<Task>) {
    forall i, j :: 0 <= i < j < |rows| && rows[i].status == Open && rows[j].status == Open
                   ==> Indexed(rows[i].key) != Indexed(rows[j].key)
  }

  ghost predicate NoEmptyIdRows(rows: seq<Task>) {
    forall k :: 0 <= k < |rows| ==> NoEmptyIds(rows[k].key)
  }

  ghost predicate NoEmptyIdOps(ops: seq<Op>) {
    forall k :: 0 <= k < |ops| && ops[k].Called? ==> NoEmptyIds(ops[k].call.key)
  }

  /**
   A serial call raises exactly when some open task is the same to the index and another
   to the lookup, which takes an id that is null on one side and empty on the other.
   */
  lemma RaisesIffNullMeetsEmpty(rows: seq<Task>, c: Call)
    requires AtMostOneOpen(rows)
    ensures GetOrCreate(rows, c).Err? <==>
            exists k :: 0 <= k < |rows| && rows[k].status == Open
                        && Indexed(rows[k].key) == Indexed(c.key) && rows[k].key != c.key
    ensures NoEmptyIdRows(rows) && NoEmptyIds(c.key) ==> GetOrCreate(rows, c).Ok?
  {
    if NoEmptyIdRows(rows) && NoEmptyIds(c.key) {
      forall k | 0 <= k < |rows| && Indexed(rows[k].key) == Indexed(c.key)
        ensures rows[k].key == c.key
      {
        IndexSeparatesKeys(rows[k].key, c.key);
      }
    }
  }

  /** A caller with an empty feature_pk meets an open task whose feature_pk is null. */
  lemma NullMeetsEmpty(t: string, c: Call)
    requires c.key.featurePk == Some("")
    ensures GetOrCreate([NewTask(c.(key := c.key.(featurePk := None)))], c).Err?
  {
    var rows := [NewTask(c.(key := c.key.(featurePk := None)))];
    assert Indexed(rows[0].key) == Indexed(c.key);
  }

  ghost predicate IsOpenWith(t: Task, key: Key) {
    t.status == Open && t.key == key
  }

  /** A call that is answered counts up the key's open task, remembering its findings, or opens a first one. */
  lemma CallOutcome(rows: seq<Task>, c: Call)
    requires AtMostOneOpen(rows) && GetOrCreate(rows, c).Ok?
    ensures var (after, k) := GetOrCreate(rows, c).value;
            if exists j :: 0 <= j < |rows| && IsOpenWith(rows[j], c.key) then
              && k < |rows| && IsOpenWith(rows[k], c.key)
              && after == rows[k := rows[k].(occurrences := rows[k].occurrences + 1, latest := Some(c.findings),
                                             lastSeenAt := c.now,
                                             aiSystemId := if rows[k].aiSystemId.Some? then rows[k].aiSystemId
                                                           else c.aiSystemId)]
            else
              && k == |rows|
              && after == rows + [Task(c.id, c.key, c.aiSystemId, c.severity, Open, 1, c.findings, None, None, c.now,
                                       None)]
  {
    hide Refused, AtMostOneOpen;
    if j :| 0 <= j < |rows| && IsOpenWith(rows[j], c.key) {
      assert FindOpen(rows, c.key).Some?;
    }
  }

  /** A close reaches the tenant's task of that id and no other, and leaves what it has counted. */
  lemma CloseOutcome(rows: seq<Task>, tenant: string, id: string, note: Option<string>, now: int)
    ensures var after := Close(rows, tenant, id, note, now);
            if exists k :: 0 <= k < |rows| && rows[k].id == id && rows[k].key.tenantId == tenant then
              exists k :: 0 <= k < |rows| && rows[k].id == id && rows[k].key.tenantId == tenant
                && after == rows[k := rows[k].(status := Closed, completedAt := Some(now),
                                               resolutionNote := if Truthy(note) then note
                                                                 else rows[k].resolutionNote)]
            else after == rows
  {
    hide FindId;
  }

  /** A close ends deduplication: the key's next call opens a task of its own and leaves the closed one alone. */
  lemma ClosedTasksAreNotJoined(rows: seq<Task>, k: nat, note: Option<string>, now: int, c: Call)
    requires AtMostOneOpen(rows) && k < |rows| && IsOpenWith(rows[k], c.key)
    requires forall j :: 0 <= j < |rows| && rows[j].id == rows[k].id ==> j == k
    ensures var closed := Close(rows, c.key.tenantId, rows[k].id, note, now);
            && GetOrCreate(closed, c).Ok? && GetOrCreate(closed, c).value.1 == |rows|
            && var after := GetOrCreate(closed, c).value.0;
            && |after| == |rows| + 1 && IsOpenWith(after[|rows|], c.key) && after[|rows|].occurrences == 1
            && after[k].status == Closed && after[k].occurrences == rows[k].occurrences
            && forall j :: 0 <= j < |rows| && j != k ==> after[j] == rows[j]
  {
    hide FindId, FindOpen, Indexed;
    CloseOutcome(rows, c.key.tenantId, rows[k].id, note, now);
    assert FindId(rows, c.key.tenantId, rows[k].id) == Some(k);
  }

  lemma ApplyKeepsInvariant(rows: seq<Task>, op: Op)
    requires AtMostOneOpen(rows)
    ensures AtMostOneOpen(Apply(rows, op))
    ensures NoEmptyIdRows(rows) && (op.Called? ==> NoEmptyIds(op.call.key)) ==> NoEmptyIdRows(Apply(rows, op))
  {
  }

  /** Whatever is called and closed, in any order, no index key ever has two open tasks. */
  lemma {:induction false} NeverTwoOpen(rows: seq<Task>, ops: seq<Op>)
    requires AtMostOneOpen(rows)
    ensures AtMostOneOpen(Run(rows, ops))
    decreases |ops|
  {
    if ops != [] {
      ApplyKeepsInvariant(rows, ops[0]);
      NeverTwoOpen(Apply(rows, ops[0]), ops[1..]);
    }
  }

  /** Tasks are never removed or rekeyed; closed ones stay closed with their count frozen. */
  lemma {:induction false} ClosedTasksAreFrozen(rows: seq<Task>, ops: seq<Op>)
    ensures |rows| <= |Run(rows, ops)|
    ensures forall k :: 0 <= k < |rows| ==>
              var now := Run(rows, ops)[k];
              && now.id == rows[k].id && now.key == rows[k].key && now.findings == rows[k].findings
              && rows[k].occurrences <= now.occurrences
              && (rows[k].status == Closed ==> now.status == Closed && now.occurrences == rows[k].occurrences)
    decreases |ops|
  {
    if ops != [] {
      ClosedTasksAreFrozen(Apply(rows, ops[0]), ops[1..]);
    }
  }

  /** Occurrences recorded against a key by all its tasks, open and closed. */
  function Occurrences(rows: seq<Task>, key: Key): nat {
    if rows == [] then 0 else
    var n := |rows| - 1;
    Occurrences(rows[..n], key) + (if rows[n].key == key then rows[n].occurrences else 0)
  }

  function CallsWith(ops: seq<Op>, key: Key): nat {
    if ops == [] then 0 else (if ops[0].Called? && ops[0].call.key == key then 1 else 0) + CallsWith(ops[1..], key)
  }

  lemma {:induction false} OccurrencesUpdate(rows: seq<Task>, k: nat, t: Task, key: Key)
    requires k < |rows| && t.key == rows[k].key
    ensures Occurrences(rows[k := t], key)
            == Occurrences(rows, key) + (if t.key == key then t.occurrences - rows[k].occurrences else 0)
  {
    var n := |rows| - 1;
    if k == n {
      assert rows[k := t][..n] == rows[..n];
    } else {
      assert rows[k := t][..n] == rows[..n][k := t];
      OccurrencesUpdate(rows[..n], k, t, key);
    }
  }

  predicate Answers(rows: seq<Task>, op: Op, key: Key) {
    op.Called? && op.call.key == key && GetOrCreate(rows, op.call).Ok?
  }

  /** The calls with a key that return a task, along a run. */
  function AnsweredCalls(rows: seq<Task>, ops: seq<Op>, key: Key): nat
    decreases |ops|
  {
    if ops == [] then 0 else (if Answers(rows, ops[0], key) then 1 else 0) + AnsweredCalls(Apply(rows, ops[0]),
        ops[1..], key)
  }

  /** No call with the key raises along the run. */
  predicate NoneRaises(rows: seq<Task>, ops: seq<Op>, key: Key)
    decreases |ops|
  {
    || ops == []
    || (&& (ops[0].Called? && ops[0].call.key == key ==> GetOrCreate(rows, ops[0].call).Ok?)
        && NoneRaises(Apply(rows, ops[0]), ops[1..], key))
  }

  lemma ApplyCountsAnswers(rows: seq<Task>, op: Op, key: Key)
    ensures Occurrences(Apply(rows, op), key) == Occurrences(rows, key) + (if Answers(rows, op, key) then 1 else 0)
  {
    match op
    case Called(c) =>
      match FindOpen(rows, c.key) {
        case Some(k) => OccurrencesUpdate(rows, k, Recur(rows[k], c), key);
        case None => assert (rows + [NewTask(c)])[..|rows|] == rows;
      }
    case Closing(tenant, id, note, now) =>
      match FindId(rows, tenant, id) {
        case Some(k) => OccurrencesUpdate(rows, k, Close(rows, tenant, id, note, now)[k], key);
        case None =>
      }
  }

  /**
   Conservation over any tables, ids and run, with closes interleaved anywhere: a key's
   occurrences, over its tasks open and closed, are its calls that returned a task.
   */
  lemma {:induction false} OccurrencesAreAnsweredCalls(rows: seq<Task>, ops: seq<Op>, key: Key)
    ensures Occurrences(Run(rows, ops), key) == Occurrences(rows, key) + AnsweredCalls(rows, ops, key)
    decreases |ops|
  {
    hide Apply, Answers;
    if ops != [] {
      ApplyCountsAnswers(rows, ops[0], key);
      OccurrencesAreAnsweredCalls(Apply(rows, ops[0]), ops[1..], key);
    }
  }

  lemma {:induction false} AllAreAnsweredIff(rows: seq<Task>, ops: seq<Op>, key: Key)
    ensures AnsweredCalls(rows, ops, key) <= CallsWith(ops, key)
    ensures AnsweredCalls(rows, ops, key) == CallsWith(ops, key) <==> NoneRaises(rows, ops, key)
    decreases |ops|
  {
    hide Apply;
    if ops != [] {
      AllAreAnsweredIff(Apply(rows, ops[0]), ops[1..], key);
    }
  }

  /** They are all calls made with the key exactly when none of those raised. */
  lemma OccurrencesAreCallsIff(rows: seq<Task>, ops: seq<Op>, key: Key)
    ensures Occurrences(Run(rows, ops), key) == Occurrences(rows, key) + CallsWith(ops, key)
            <==> NoneRaises(rows, ops, key)
  {
    OccurrencesAreAnsweredCalls(rows, ops, key);
    AllAreAnsweredIff(rows, ops, key);
  }

  lemma {:induction false} NonEmptyIdsNeverRaise(rows: seq<Task>, ops: seq<Op>, key: Key)
    requires AtMostOneOpen(rows) && NoEmptyIdRows(rows) && NoEmptyIdOps(ops)
    ensures NoneRaises(rows, ops, key)
    decreases |ops|
  {
    if ops != [] {
      ApplyKeepsInvariant(rows, ops[0]);
      if ops[0].Called? {
        RaisesIffNullMeetsEmpty(rows, ops[0].call);
      }
      NonEmptyIdsNeverRaise(Apply(rows, ops[0]), ops[1..], key);
    }
  }

  /** With ids null or non-empty no call raises, so the occurrences are the calls. */
  lemma OccurrencesAreCalls(rows: seq<Task>, ops: seq<Op>, key: Key)
    requires AtMostOneOpen(rows) && NoEmptyIdRows(rows) && NoEmptyIdOps(ops)
    ensures Occurrences(Run(rows, ops), key) == Occurrences(rows, key) + CallsWith(ops, key)
  {
    NonEmptyIdsNeverRaise(rows, ops, key);
    OccurrencesAreCallsIff(rows, ops, key);
  }
}
