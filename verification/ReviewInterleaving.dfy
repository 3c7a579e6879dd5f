/**
 The same dedupe protocol run by several database sessions at once
 (app/services/review_service.py against the partial unique indexes of
 alembic/versions/0002_postgres_partial_indexes.py), as a state machine.

 Each step is one database round trip under READ COMMITTED: a query sees committed rows
 and the session's own, and an insert that meets another session's uncommitted row or
 uncommitted close waits, so in this model it is simply not enabled yet.
 */
module ReviewInterleaving {
  import opened Common
  import opened ReviewTasks

  type TaskId = string
  type SessionId = nat

  /** A committed task, reduced to what deduplication depends on. */
  datatype Row = Row(key: Key, open: bool)

  datatype Pc =
    | Ready
    | LookingUp(key: Key)
    | Inserting(key: Key)
    | Violated(key: Key, holder: TaskId)  // the index refused the insert because of `holder`
    | Joined(key: Key, id: TaskId)
    | Created(key: Key, id: TaskId)
    | Raised(key: Key, holder: TaskId)

  /** `inserts` and `closes` are the session's uncommitted work. */
  datatype Session = Session(pc: Pc, inserts: map<TaskId, Key>, closes: set<TaskId>)

  datatype World = World(table: map<TaskId, Row>, sessions: map<SessionId, Session>)

  datatype Step =
    | Begin(s: SessionId, key: Key)
    | Lookup(s: SessionId, found: Option<TaskId>)
    | InsertOk(s: SessionId, id: TaskId)
    | InsertRefused(s: SessionId, holder: TaskId)
    | Relookup(s: SessionId, found: Option<TaskId>)
    | CloseTask(s: SessionId, id: TaskId)
    | Commit(s: SessionId)
    | Rollback(s: SessionId)

  ghost predicate SeesOpen(w: World, s: SessionId, id: TaskId, key: Key)
    requires s in w.sessions
  {
    var me := w.sessions[s];
    || (id in me.inserts && me.inserts[id] == key)
    || (id in w.table && w.table[id] == Row(key, true) && id !in me.closes)
  }

  /** What the lookup query may return to `s`. */
  ghost predicate Answers(w: World, s: SessionId, key: Key, found: Option<TaskId>)
    requires s in w.sessions
  {
    match found
    case Some(id) => SeesOpen(w, s, id, key)
    case None => forall id :: !SeesOpen(w, s, id, key)
  }

  ghost predicate IsFresh(w: World, id: TaskId) {
    id !in w.table && forall t :: t in w.sessions ==> id !in w.sessions[t].inserts
  }

  /** No live entry, committed or in progress, collides with `key` in the index. */
  ghost predicate IndexAdmits(w: World, s: SessionId, key: Key)
    requires s in w.sessions
  {
    && (forall id :: id in w.table && w.table[id].open && id !in w.sessions[s].closes
                     ==> Indexed(w.table[id].key) != Indexed(key))
    && (forall t, id :: t in w.sessions && id in w.sessions[t].inserts
                        ==> Indexed(w.sessions[t].inserts[id]) != Indexed(key))
  }

  /** `holder` is a settled live entry that collides with `key`: committed, or the session's own. */
  ghost predicate IndexRefuses(w: World, s: SessionId, key: Key, holder: TaskId)
    requires s in w.sessions
  {
    || (holder in w.sessions[s].inserts && Indexed(w.sessions[s].inserts[holder]) == Indexed(key))
    || (&& holder in w.table && w.table[holder].open
        && (forall t :: t in w.sessions ==> holder !in w.sessions[t].closes)
        && Indexed(w.table[holder].key) == Indexed(key))
  }

  ghost predicate Enabled(w: World, step: Step) {
    step.s in w.sessions &&
    var me := w.sessions[step.s];
    match step
    case Begin(_, _) => me.pc.Ready? || me.pc.Joined? || me.pc.Created?
    case Lookup(s, found) => me.pc.LookingUp? && Answers(w, s, me.pc.key, found)
    case InsertOk(s, id) => me.pc.Inserting? && IsFresh(w, id) && IndexAdmits(w, s, me.pc.key)
    case InsertRefused(s, holder) => me.pc.Inserting? && IndexRefuses(w, s, me.pc.key, holder)
    case Relookup(s, found) => me.pc.Violated? && Answers(w, s, me.pc.key, found)
    case CloseTask(_, id) =>
      me.pc.Ready? && id in w.table && w.table[id].open && forall t :: t in w.sessions ==> id !in w.sessions[t].closes
    case Commit(_) => me.pc.Ready? || me.pc.Joined? || me.pc.Created?
    case Rollback(_) => true
  }

  ghost function With(w: World, s: SessionId, me: Session): World {
    w.(sessions := w.sessions[s := me])
  }

  ghost function Settle(table: map<TaskId, Row>, me: Session): map<TaskId, Row> {
    map id | id in table.Keys + me.inserts.Keys ::
      if id in me.inserts then Row(me.inserts[id], true)
      else if id in me.closes then table[id].(open := false)
      else table[id]
  }

  ghost function Next(w: World, step: Step): World
    requires Enabled(w, step)
  {
    var s := step.s;
    var me := w.sessions[s];
    match step
    case Begin(_, key) => With(w, s, me.(pc := LookingUp(key)))
    case Lookup(_, found) =>
      With(w, s, me.(pc := if found.Some? then Joined(me.pc.key, found.value) else Inserting(me.pc.key)))
    case InsertOk(_, id) => With(w, s, me.(pc := Created(me.pc.key, id), inserts := me.inserts[id := me.pc.key]))
    case InsertRefused(_, holder) => With(w, s, me.(pc := Violated(me.pc.key, holder)))
    case Relookup(_, found) =>
      With(w, s, me.(pc := if found.Some? then Joined(me.pc.key, found.value) else Raised(me.pc.key, me.pc.holder)))
    case CloseTask(_, id) => With(w, s, me.(closes := me.closes + {id}))
    case Commit(_) => World(Settle(w.table, me), w.sessions[s := Session(Ready, map[], {})])
    case Rollback(_) => With(w, s, Session(Ready, map[], {}))
  }

  ghost predicate OneOpen(table: map<TaskId, Row>) {
    forall a, b :: a in table && b in table && a != b && table[a].open && table[b].open
                   ==> Indexed(table[a].key) != Indexed(table[b].key)
  }

  ghost predicate Initial(w: World) {
    && (forall s :: s in w.sessions ==> w.sessions[s] == Session(Ready, map[], {}))
    && OneOpen(w.table)
  }

  /** `trace` is an execution from `trace[0]` taking `steps`. */
  ghost predicate IsExecution(trace: seq<World>, steps: seq<Step>) {
    && |trace| == |steps| + 1
    && Initial(trace[0])
    && forall k :: 0 <= k < |steps| ==> Enabled(trace[k], steps[k]) && trace[k + 1] == Next(trace[k], steps[k])
  }

  // ---- Safety -----------------------------------------------------------------------------

  /** An uncommitted insert collides only with rows its own session is closing. */
  ghost predicate InsertsAreGuarded(w: World) {
    forall s, i, c :: s in w.sessions && i in w.sessions[s].inserts && c in w.table && w.table[c].open
                      && Indexed(w.sessions[s].inserts[i]) == Indexed(w.table[c].key)
                      ==> c in w.sessions[s].closes
  }

  ghost predicate InsertsAreApart(w: World) {
    forall s, t, i, j :: s in w.sessions && t in w.sessions && i in w.sessions[s].inserts && j in w.sessions[t].inserts
                         && (s != t || i != j)
                         ==> i != j && Indexed(w.sessions[s].inserts[i]) != Indexed(w.sessions[t].inserts[j])
  }

  ghost predicate WorkIsPending(w: World) {
    && (forall s, i :: s in w.sessions && i in w.sessions[s].inserts ==> i !in w.table)
    && (forall s :: s in w.sessions ==> w.sessions[s].closes <= w.table.Keys)
  }

  ghost predicate Inv(w: World) {
    OneOpen(w.table) && InsertsAreGuarded(w) && InsertsAreApart(w) && WorkIsPending(w)
  }

  lemma CommitKeepsInv(w: World, s: SessionId)
    requires Inv(w) && Enabled(w, Commit(s))
    ensures Inv(Next(w, Commit(s)))
  {
    var w' := Next(w, Commit(s));
    var me := w.sessions[s];
    forall a, b | a in w'.table && b in w'.table && a != b && w'.table[a].open && w'.table[b].open
      ensures Indexed(w'.table[a].key) != Indexed(w'.table[b].key)
    {
      if a in me.inserts && b !in me.inserts {
        assert b in w.table && w.table[b].open;
      } else if b in me.inserts && a !in me.inserts {
        assert a in w.table && w.table[a].open;
      }
    }
  }

  /** Without a change of uncommitted work only the program counter moves. */
  lemma SameWorkKeepsInv(w: World, s: SessionId, me: Session)
    requires Inv(w) && s in w.sessions
    requires me.inserts == w.sessions[s].inserts && me.closes == w.sessions[s].closes
    ensures Inv(With(w, s, me))
  {
    hide OneOpen, Indexed;
    var w' := With(w, s, me);
    assert forall t :: t in w'.sessions ==>
             w'.sessions[t].inserts == w.sessions[t].inserts && w'.sessions[t].closes == w.sessions[t].closes;
  }

  lemma InsertStaysGuarded(w: World, s: SessionId, id: TaskId)
    requires InsertsAreGuarded(w) && Enabled(w, InsertOk(s, id))
    ensures InsertsAreGuarded(Next(w, InsertOk(s, id)))
  {
    hide Indexed;
  }

  lemma InsertStaysApart(w: World, s: SessionId, id: TaskId)
    requires InsertsAreApart(w) && Enabled(w, InsertOk(s, id))
    ensures InsertsAreApart(Next(w, InsertOk(s, id)))
  {
    hide Indexed;
  }

  lemma InsertKeepsInv(w: World, s: SessionId, id: TaskId)
    requires Inv(w) && Enabled(w, InsertOk(s, id))
    ensures Inv(Next(w, InsertOk(s, id)))
  {
    hide OneOpen, Indexed, InsertsAreGuarded, InsertsAreApart;
    InsertStaysGuarded(w, s, id);
    InsertStaysApart(w, s, id);
  }

  lemma CloseKeepsInv(w: World, s: SessionId, id: TaskId)
    requires Inv(w) && Enabled(w, CloseTask(s, id))
    ensures Inv(Next(w, CloseTask(s, id)))
  {
    hide OneOpen, Indexed;
  }

  lemma RollbackKeepsInv(w: World, s: SessionId)
    requires Inv(w) && Enabled(w, Rollback(s))
    ensures Inv(Next(w, Rollback(s)))
  {
    hide OneOpen, Indexed;
  }

  lemma StepKeepsInv(w: World, step: Step)
    requires Inv(w) && Enabled(w, step)
    ensures Inv(Next(w, step))
  {
    match step
    case Commit(s) => CommitKeepsInv(w, s);
    case InsertOk(s, id) => InsertKeepsInv(w, s, id);
    case CloseTask(s, id) => CloseKeepsInv(w, s, id);
    case Rollback(s) => RollbackKeepsInv(w, s);
    case Begin(s, _) => SameWorkKeepsInv(w, s, Next(w, step).sessions[s]);
    case Lookup(s, _) => SameWorkKeepsInv(w, s, Next(w, step).sessions[s]);
    case InsertRefused(s, _) => SameWorkKeepsInv(w, s, Next(w, step).sessions[s]);
    case Relookup(s, _) => SameWorkKeepsInv(w, s, Next(w, step).sessions[s]);
  }

  lemma {:induction false} ExecutionKeepsInv(trace: seq<World>, steps: seq<Step>, n: nat)
    requires IsExecution(trace, steps) && n < |trace|
    ensures Inv(trace[n])
  {
    if n > 0 {
      ExecutionKeepsInv(trace, steps, n - 1);
      StepKeepsInv(trace[n - 1], steps[n - 1]);
    }
  }

  /**
   Safety over every interleaving, whatever the ids: at no point are two open tasks of one
   index key committed, nor does any session see two, nor two with equal lookup keys.
   */
  lemma NeverTwoOpenTasks(trace: seq<World>, steps: seq<Step>, n: nat, s: SessionId, a: TaskId, b: TaskId, ka: Key,
                          kb: Key)
    requires IsExecution(trace, steps) && n < |trace| && s in trace[n].sessions
    requires SeesOpen(trace[n], s, a, ka) && SeesOpen(trace[n], s, b, kb) && a != b
    ensures OneOpen(trace[n].table)
    ensures Indexed(ka) != Indexed(kb) && ka != kb
  {
    ExecutionKeepsInv(trace, steps, n);
  }

  // ---- Joining and raising ------------------------------------------------------------------

  ghost predicate PcKeyOk(pc: Pc) {
    pc.Ready? || NoEmptyIds(pc.key)
  }

  /** Every id in play is null or non-empty. */
  ghost predicate KeysOk(w: World) {
    && (forall id :: id in w.table ==> NoEmptyIds(w.table[id].key))
    && (forall s, i :: s in w.sessions && i in w.sessions[s].inserts ==> NoEmptyIds(w.sessions[s].inserts[i]))
    && (forall s :: s in w.sessions ==> PcKeyOk(w.sessions[s].pc))
  }

  ghost predicate StepsKeysOk(steps: seq<Step>) {
    forall k :: 0 <= k < |steps| && steps[k].Begin? ==> NoEmptyIds(steps[k].key)
  }

  /** A session that is inserting, or was refused, has no task of that key of its own. */
  ghost predicate InsertIsNews(me: Session) {
    me.pc.Inserting? || me.pc.Violated? ==> forall i :: i in me.inserts ==> me.inserts[i] != me.pc.key
  }

  /** The task that refused an insert is a committed task of the very same key. */
  ghost predicate HolderHasKey(w: World, me: Session) {
    me.pc.Violated? ==> me.pc.holder in w.table && w.table[me.pc.holder].key == me.pc.key && me.pc.holder !in me.closes
  }

  ghost predicate PcInv(w: World) {
    && KeysOk(w)
    && forall s :: s in w.sessions ==> InsertIsNews(w.sessions[s]) && HolderHasKey(w, w.sessions[s])
  }

  lemma LookupFindsNoOwn(w: World, step: Step)
    requires Enabled(w, step) && step.Lookup? && step.found.None?
    ensures InsertIsNews(Next(w, step).sessions[step.s])
  {
    var me := w.sessions[step.s];
    forall i | i in me.inserts
      ensures me.inserts[i] != me.pc.key
    {
      assert !SeesOpen(w, step.s, i, me.pc.key);
    }
  }

  lemma StepKeepsKeysOk(w: World, step: Step)
    requires PcInv(w) && Enabled(w, step) && (step.Begin? ==> NoEmptyIds(step.key))
    ensures KeysOk(Next(w, step))
  {
    hide NoEmptyIds, Answers, IndexAdmits, IndexRefuses, IsFresh;
  }

  lemma OthersKeepPcInv(w: World, step: Step, s: SessionId)
    requires Inv(w) && PcInv(w) && Enabled(w, step) && s in w.sessions && s != step.s
    ensures InsertIsNews(Next(w, step).sessions[s]) && HolderHasKey(Next(w, step), Next(w, step).sessions[s])
  {
    hide Indexed, Answers, IndexAdmits, IndexRefuses, KeysOk, OneOpen, InsertsAreApart, InsertsAreGuarded;
    assert InsertIsNews(w.sessions[s]) && HolderHasKey(w, w.sessions[s]);
  }

  lemma OwnStepKeepsPcInv(w: World, step: Step)
    requires Inv(w) && PcInv(w) && Enabled(w, step)
    ensures InsertIsNews(Next(w, step).sessions[step.s]) && HolderHasKey(Next(w, step), Next(w, step).sessions[step.s])
  {
    if step.Lookup? && step.found.None? {
      LookupFindsNoOwn(w, step);
    }
    hide Inv, Answers, IndexAdmits, IsFresh;
    assert InsertIsNews(w.sessions[step.s]) && HolderHasKey(w, w.sessions[step.s]);
  }

  lemma StepKeepsPcInv(w: World, step: Step)
    requires Inv(w) && PcInv(w) && Enabled(w, step) && (step.Begin? ==> NoEmptyIds(step.key))
    ensures PcInv(Next(w, step))
  {
    StepKeepsKeysOk(w, step);
    var w' := Next(w, step);
    forall s | s in w'.sessions
      ensures InsertIsNews(w'.sessions[s]) && HolderHasKey(w', w'.sessions[s])
    {
      if s == step.s {
        OwnStepKeepsPcInv(w, step);
      } else {
        OthersKeepPcInv(w, step, s);
      }
    }
  }

  lemma {:induction false} ExecutionKeepsPcInv(trace: seq<World>, steps: seq<Step>, n: nat)
    requires IsExecution(trace, steps) && n < |trace| && KeysOk(trace[0]) && StepsKeysOk(steps)
    ensures Inv(trace[n]) && PcInv(trace[n])
  {
    ExecutionKeepsInv(trace, steps, n);
    if n > 0 {
      ExecutionKeepsPcInv(trace, steps, n - 1);
      StepKeepsPcInv(trace[n - 1], steps[n - 1]);
    }
  }

  /** While the task that caused the violation is open, the second lookup finds it and only it. */
  lemma ConflictJoinsTheHolder(trace: seq<World>, steps: seq<Step>, n: nat, s: SessionId, found: Option<TaskId>)
    requires IsExecution(trace, steps) && n < |trace| && KeysOk(trace[0]) && StepsKeysOk(steps)
    requires s in trace[n].sessions && trace[n].sessions[s].pc.Violated?
    ensures var pc := trace[n].sessions[s].pc;
            && pc.holder in trace[n].table
            && (trace[n].table[pc.holder].open ==> (Enabled(trace[n], Relookup(s, found)) <==>
                 found == Some(pc.holder)))
  {
    ExecutionKeepsPcInv(trace, steps, n);
    var w := trace[n];
    var pc := w.sessions[s].pc;
    assert HolderHasKey(w, w.sessions[s]);
    if w.table[pc.holder].open {
      assert SeesOpen(w, s, pc.holder, pc.key);
      if found.Some? && found != Some(pc.holder) && SeesOpen(w, s, found.value, pc.key) {
        NeverTwoOpenTasks(trace, steps, n, s, found.value, pc.holder, pc.key, pc.key);
      }
    }
  }

  /** The step at which session `s` met the violation it is now in. */
  lemma {:induction false} ViolationStep(trace: seq<World>, steps: seq<Step>, n: nat, s: SessionId) returns (m: nat)
    requires IsExecution(trace, steps) && n < |trace| && s in trace[n].sessions && trace[n].sessions[s].pc.Violated?
    ensures m < n && s in trace[m].sessions
    ensures steps[m] == InsertRefused(s, trace[n].sessions[s].pc.holder)
    ensures trace[m].sessions[s].pc == Inserting(trace[n].sessions[s].pc.key)
  {
    m := n - 1;
    if steps[m].s != s {
      m := ViolationStep(trace, steps, n - 1, s);
    }
  }

  lemma {:induction false} RaiseStep(trace: seq<World>, steps: seq<Step>, n: nat, s: SessionId) returns (r: nat)
    requires IsExecution(trace, steps) && n < |trace| && s in trace[n].sessions && trace[n].sessions[s].pc.Raised?
    ensures r < n && s in trace[r].sessions && steps[r] == Relookup(s, None)
    ensures var pc := trace[n].sessions[s].pc; trace[r].sessions[s].pc == Violated(pc.key, pc.holder)
  {
    r := n - 1;
    if steps[r].s != s {
      r := RaiseStep(trace, steps, n - 1, s);
    }
  }

  /**
   A caller raises only if the task that refused its insert, open and committed when the
   violation struck, had been closed by the time of the second lookup.
   */
  lemma RaisesOnlyIfClosedInBetween(trace: seq<World>, steps: seq<Step>, n: nat, s: SessionId)
    requires IsExecution(trace, steps) && n < |trace| && KeysOk(trace[0]) && StepsKeysOk(steps)
    requires s in trace[n].sessions && trace[n].sessions[s].pc.Raised?
    ensures var pc := trace[n].sessions[s].pc;
            exists m, r :: 0 <= m < r < n && steps[m] == InsertRefused(s, pc.holder) && steps[r] == Relookup(s, None)
                           && pc.holder in trace[m].table && trace[m].table[pc.holder] == Row(pc.key, true)
                           && pc.holder in trace[r].table && trace[r].table[pc.holder] == Row(pc.key, false)
  {
    var pc := trace[n].sessions[s].pc;
    var r := RaiseStep(trace, steps, n, s);
    var m := ViolationStep(trace, steps, r, s);
    ExecutionKeepsPcInv(trace, steps, m);
    ExecutionKeepsPcInv(trace, steps, r);
    assert trace[m + 1] == Next(trace[m], steps[m]);
    assert HolderHasKey(trace[r], trace[r].sessions[s]);
    assert !SeesOpen(trace[r], s, pc.holder, pc.key);
    var me := trace[m].sessions[s];
    assert InsertIsNews(me);
  }

  // ---- Raising with any ids ------------------------------------------------------------------------------

  /** What holds of every session whatever the ids: no own insert of its key, and its holder is not one it closes. */
  ghost predicate SessionsOk(w: World) {
    forall s :: s in w.sessions ==>
      InsertIsNews(w.sessions[s]) && (w.sessions[s].pc.Violated? ==> w.sessions[s].pc.holder !in w.sessions[s].closes)
  }

  lemma StepKeepsSessionsOk(w: World, step: Step)
    requires Inv(w) && SessionsOk(w) && Enabled(w, step)
    ensures SessionsOk(Next(w, step))
  {
    if step.Lookup? && step.found.None? {
      LookupFindsNoOwn(w, step);
    }
    hide Indexed, Answers, IndexAdmits, IsFresh, OneOpen, InsertsAreApart, InsertsAreGuarded;
    assert InsertIsNews(w.sessions[step.s]);
  }

  lemma {:induction false} ExecutionKeepsSessionsOk(trace: seq<World>, steps: seq<Step>, n: nat)
    requires IsExecution(trace, steps) && n < |trace|
    ensures Inv(trace[n]) && SessionsOk(trace[n])
  {
    ExecutionKeepsInv(trace, steps, n);
    if n > 0 {
      ExecutionKeepsSessionsOk(trace, steps, n - 1);
      StepKeepsSessionsOk(trace[n - 1], steps[n - 1]);
    }
  }

  lemma StepKeepsKeys(w: World, step: Step, id: TaskId)
    requires Inv(w) && Enabled(w, step) && id in w.table
    ensures id in Next(w, step).table && Next(w, step).table[id].key == w.table[id].key
  {
    hide Indexed, Answers, IndexAdmits, IndexRefuses, IsFresh, OneOpen, InsertsAreApart, InsertsAreGuarded;
  }

  /** Committed tasks are never removed or rekeyed. */
  lemma {:induction false} KeysAreFixed(trace: seq<World>, steps: seq<Step>, m: nat, n: nat, id: TaskId)
    requires IsExecution(trace, steps) && m <= n < |trace| && id in trace[m].table
    ensures id in trace[n].table && trace[n].table[id].key == trace[m].table[id].key
  {
    hide Initial, Enabled, Next, Inv;
    if m < n {
      KeysAreFixed(trace, steps, m, n - 1, id);
      ExecutionKeepsInv(trace, steps, n - 1);
      StepKeepsKeys(trace[n - 1], steps[n - 1], id);
    }
  }

  /** The lookup key of a task, as the session sees it. */
  ghost function KeySeenBy(w: World, s: SessionId, id: TaskId): Option<Key>
    requires s in w.sessions
  {
    if id in w.sessions[s].inserts then Some(w.sessions[s].inserts[id])
    else if id in w.table then Some(w.table[id].key) else None
  }

  /** The refusing task has the caller's index key; under the caller's lookup key it is open and committed. */
  lemma RefusalIsSeen(w: World, s: SessionId, key: Key, holder: TaskId)
    requires Inv(w) && SessionsOk(w) && Enabled(w, InsertRefused(s, holder)) && w.sessions[s].pc == Inserting(key)
    ensures KeySeenBy(w, s, holder).Some? && Indexed(KeySeenBy(w, s, holder).value) == Indexed(key)
    ensures KeySeenBy(w, s, holder) == Some(key) ==> holder in w.table && w.table[holder] == Row(key, true)
  {
    hide Indexed, OneOpen, InsertsAreApart, InsertsAreGuarded;
    assert InsertIsNews(w.sessions[s]);
  }

  /**
   With any ids at all, a caller raises only if the task that refused its insert has another
   lookup key than the caller's, equal only to the index, or was open at the violation and
   closed by the second lookup.
   */
  lemma EveryRaiseIsExplained(trace: seq<World>, steps: seq<Step>, n: nat, s: SessionId)
    requires IsExecution(trace, steps) && n < |trace| && s in trace[n].sessions && trace[n].sessions[s].pc.Raised?
    ensures var pc := trace[n].sessions[s].pc;
            exists m, r ::
              && 0 <= m < r < n && steps[m] == InsertRefused(s, pc.holder) && steps[r] == Relookup(s, None)
              && s in trace[m].sessions
              && var held := KeySeenBy(trace[m], s, pc.holder);
              && held.Some? && Indexed(held.value) == Indexed(pc.key)
              && (held.value != pc.key
                  || (&& pc.holder in trace[m].table && trace[m].table[pc.holder] == Row(pc.key, true)
                      && pc.holder in trace[r].table && trace[r].table[pc.holder] == Row(pc.key, false)))
  {
    hide Indexed, OneOpen, InsertsAreApart, InsertsAreGuarded;
    var pc := trace[n].sessions[s].pc;
    var r := RaiseStep(trace, steps, n, s);
    var m := ViolationStep(trace, steps, r, s);
    ExecutionKeepsSessionsOk(trace, steps, m);
    ExecutionKeepsSessionsOk(trace, steps, r);
    RefusalIsSeen(trace[m], s, pc.key, pc.holder);
    if KeySeenBy(trace[m], s, pc.holder) == Some(pc.key) {
      KeysAreFixed(trace, steps, m, r, pc.holder);
      assert !SeesOpen(trace[r], s, pc.holder, pc.key);
    }
  }
}
