/**
 The tenant-local evidence hash chain (app/services/evidence_service.py).

 A row's link is the hash of the tenant's row that is greatest by
 (created_at, event_id), so equal timestamps can make the chain a forest.  Hashing is
 a parameter of which only injectivity is ever assumed, and only where a lemma says so.
 Event ids stand for UUIDs: the order of their canonical text is the order of the
 128-bit numbers they denote.
 */
module EvidenceChain {
  import opened Common

  type Hash = string
  type EventId = nat

  /** The caller's event dictionary (the columns the model follows). */
  datatype EventData = EventData(
    tenantId: string, eventType: string, decision: string, status: string,
    riskLevel: string, riskScore: int, requestId: string,
    featureId: Option<string>, featurePk: Option<string>, featureVersionId: Option<string>,
    aiSystemId: Option<string>, metadataWarnings: seq<string>)

  /** What is hashed: the event data with id, timestamp and link added. */
  datatype BaseEvent = BaseEvent(eventId: EventId, timestamp: int, previous: Option<Hash>, data: EventData)

  datatype Crypto = Crypto(
    hash: BaseEvent -> Hash,
    sign: (Hash, Option<Hash>, EventId, int) -> string)

  /** One `evidence_logs` row; `createdAt` is set by the database, not hashed. */
  datatype Row = Row(
    eventId: EventId, tenantId: string, eventType: string,
    previous: Option<Hash>, hash: Hash, signature: string,
    evidence: BaseEvent, createdAt: int)

  /** One call of the writer: the data, a fresh id, the clock, the database's clock. */
  datatype Write = Write(data: EventData, eventId: EventId, timestamp: int, createdAt: int)

  ghost predicate Injective(crypto: Crypto) {
    forall a, b :: crypto.hash(a) == crypto.hash(b) ==> a == b
  }

  /** Ascending (created_at, event_id). */
  predicate Precedes(a: Row, b: Row) {
    a.createdAt < b.createdAt || (a.createdAt == b.createdAt && a.eventId < b.eventId)
  }

  /** The row the descending query returns first: index of the tenant's greatest row. */
  function LastIndex(rows: seq<Row>, tenant: string): (last: Option<nat>)
    ensures last.None? <==> forall k :: 0 <= k < |rows| ==> rows[k].tenantId != tenant
    ensures last.Some? ==>
              && last.value < |rows| && rows[last.value].tenantId == tenant
              && forall k :: 0 <= k < |rows| && rows[k].tenantId == tenant ==> !Precedes(rows[last.value], rows[k])
  {
    if rows == [] then None else
    var n := |rows| - 1;
    var best := LastIndex(rows[..n], tenant);
    if rows[n].tenantId != tenant then best
    else if best.None? || Precedes(rows[best.value], rows[n]) then Some(n)
    else best
  }

  function LastHash(rows: seq<Row>, tenant: string): Option<Hash> {
    match LastIndex(rows, tenant)
    case None => None
    case Some(k) => Some(rows[k].hash)
  }

  /** The row the writer adds to a table holding `rows`. */
  function NewRow(crypto: Crypto, rows: seq<Row>, w: Write): Row {
    var previous := LastHash(rows, w.data.tenantId);
    var base := BaseEvent(w.eventId, w.timestamp, previous, w.data);
    var hash := crypto.hash(base);
    Row(w.eventId, w.data.tenantId, w.data.eventType, previous, hash,
        crypto.sign(hash, previous, w.eventId, w.timestamp), base, w.createdAt)
  }

  predicate FreshId(rows: seq<Row>, id: EventId) {
    forall k :: 0 <= k < |rows| ==> rows[k].eventId != id
  }

  /** The `evidence_logs` table of one session. */
  class EvidenceTable {
    const crypto: Crypto
    var rows: seq<Row>

    constructor (crypto: Crypto, rows: seq<Row>)
      ensures this.crypto == crypto && this.rows == rows
    {
      this.crypto, this.rows := crypto, rows;
    }

    method GetLastEventHash(tenant: string) returns (hash: Option<Hash>)
      ensures hash == LastHash(rows, tenant)
    {
      var last: Option<nat> := None;
      for i := 0 to |rows|
        invariant last == LastIndex(rows[..i], tenant)
      {
        assert rows[..i + 1][..i] == rows[..i];
        if rows[i].tenantId == tenant && (last.None? || Precedes(rows[last.value], rows[i])) {
          last := Some(i);
        }
      }
      assert rows[..|rows|] == rows;
      hash := if last.None? then None else Some(rows[last.value].hash);
    }

    method WriteEvidenceLog(w: Write) returns (row: Row)
      modifies this
      ensures rows == old(rows) + [row]
      ensures row == NewRow(crypto, old(rows), w)
    {
      var previous := GetLastEventHash(w.data.tenantId);
      var base := BaseEvent(w.eventId, w.timestamp, previous, w.data);
      var hash := crypto.hash(base);
      var signature := crypto.sign(hash, previous, w.eventId, w.timestamp);
      row := Row(w.eventId, w.data.tenantId, w.data.eventType, previous, hash, signature, base, w.createdAt);
      rows := rows + [row];
    }
  }

  // ---- Logs that serialised writes can produce -------------------------------------

  /** The log after a run of serialised writes by any mix of tenants. */
  function Log(crypto: Crypto, writes: seq<Write>): (rows: seq<Row>)
    ensures |rows| == |writes|
  {
    if writes == [] then [] else
    var before := Log(crypto, writes[..|writes| - 1]);
    before + [NewRow(crypto, before, writes[|writes| - 1])]
  }

  ghost predicate DistinctIds(writes: seq<Write>) {
    forall i, j :: 0 <= i < j < |writes| ==> writes[i].eventId != writes[j].eventId
  }

  /** Columns agree with the hashed event, and the hash and signature with the columns. */
  ghost predicate Sealed(crypto: Crypto, row: Row) {
    && row.eventId == row.evidence.eventId
    && row.tenantId == row.evidence.data.tenantId
    && row.eventType == row.evidence.data.eventType
    && row.previous == row.evidence.previous
    && row.hash == crypto.hash(row.evidence)
    && row.signature == crypto.sign(row.hash, row.previous, row.eventId, row.evidence.timestamp)
  }

  /** Every row is sealed, ids are unique, and each link is the tenant's last hash before it. */
  ghost predicate Grown(crypto: Crypto, rows: seq<Row>) {
    && (forall i :: 0 <= i < |rows| ==> Sealed(crypto, rows[i]))
    && (forall i, j :: 0 <= i < j < |rows| ==> rows[i].eventId != rows[j].eventId)
    && (forall i :: 0 <= i < |rows| ==> rows[i].previous == LastHash(rows[..i], rows[i].tenantId))
  }

  lemma GrownAppend(crypto: Crypto, rows: seq<Row>, w: Write)
    requires Grown(crypto, rows) && FreshId(rows, w.eventId)
    ensures Grown(crypto, rows + [NewRow(crypto, rows, w)])
  {
    var all := rows + [NewRow(crypto, rows, w)];
    assert all[..|rows|] == rows;
    forall i | 0 <= i < |rows|
      ensures all[i].previous == LastHash(all[..i], all[i].tenantId)
    {
      assert all[..i] == rows[..i];
    }
  }

  lemma {:induction false} LogIsWritten(crypto: Crypto, writes: seq<Write>)
    ensures forall i :: 0 <= i < |writes| ==>
              var e := Log(crypto, writes)[i];
              && e.eventId == writes[i].eventId && e.evidence.data == writes[i].data
              && e.evidence.timestamp == writes[i].timestamp && e.createdAt == writes[i].createdAt
  {
    if writes != [] {
      LogIsWritten(crypto, writes[..|writes| - 1]);
    }
  }

  /** Every serialised run of writes with fresh ids grows the log one sealed link at a time. */
  lemma {:induction false} SerialisedWritesGrow(crypto: Crypto, writes: seq<Write>)
    requires DistinctIds(writes)
    ensures Grown(crypto, Log(crypto, writes))
    ensures forall i :: 0 <= i < |writes| ==>
              var e := Log(crypto, writes)[i];
              && e.eventId == writes[i].eventId && e.evidence.data == writes[i].data
              && e.evidence.timestamp == writes[i].timestamp && e.createdAt == writes[i].createdAt
  {
    LogIsWritten(crypto, writes);
    if writes != [] {
      var n := |writes| - 1;
      SerialisedWritesGrow(crypto, writes[..n]);
      LogIsWritten(crypto, writes[..n]);
      GrownAppend(crypto, Log(crypto, writes[..n]), writes[n]);
    }
  }

  // ---- Links ------------------------------------------------------------------------

  function Parent(rows: seq<Row>, i: nat): (parent: Option<nat>)
    requires i < |rows|
    ensures parent.Some? ==> parent.value < i && rows[parent.value].tenantId == rows[i].tenantId
  {
    LastIndex(rows[..i], rows[i].tenantId)
  }

  ghost predicate IsFirstOfTenant(rows: seq<Row>, i: nat)
    requires i < |rows|
  {
    forall j :: 0 <= j < i ==> rows[j].tenantId != rows[i].tenantId
  }

  /**
   A link is null exactly at its tenant's first event; otherwise exactly one row of the
   whole log carries the linked hash, and that row is earlier and of the same tenant.
   */
  lemma LinksNameAnEarlierEvent(crypto: Crypto, rows: seq<Row>, i: nat)
    requires Injective(crypto) && Grown(crypto, rows) && i < |rows|
    ensures rows[i].previous.None? <==> IsFirstOfTenant(rows, i)
    ensures rows[i].previous.Some? ==>
              && Parent(rows, i).Some?
              && forall j :: 0 <= j < |rows| ==>
                   (rows[j].hash == rows[i].previous.value <==> j == Parent(rows, i).value)
  {
    var parent := Parent(rows, i);
    if parent.None? {
      assert forall j :: 0 <= j < i ==> rows[..i][j] == rows[j];
    } else {
      var p := parent.value;
      assert rows[..i][p] == rows[p];
      assert rows[i].previous == Some(rows[p].hash);
      forall j | 0 <= j < |rows| && rows[j].hash == rows[p].hash
        ensures j == p
      {
        assert rows[j].evidence == rows[p].evidence;
      }
    }
  }

  /** The event a reader of the log finds by searching for a link's hash. */
  function Resolve(rows: seq<Row>, hash: Hash): (found: Option<nat>)
    ensures found.Some? ==> found.value < |rows| && rows[found.value].hash == hash
    ensures found.None? ==> forall k :: 0 <= k < |rows| ==> rows[k].hash != hash
  {
    if rows == [] then None
    else if rows[|rows| - 1].hash == hash then Some(|rows| - 1)
    else Resolve(rows[..|rows| - 1], hash)
  }

  ghost predicate LinkResolves(rows: seq<Row>, i: nat)
    requires i < |rows|
  {
    match rows[i].previous
    case None => IsFirstOfTenant(rows, i)
    case Some(hash) =>
      var found := Resolve(rows, hash);
      found.Some? && found.value < i && rows[found.value].tenantId == rows[i].tenantId
  }

  /** Every link resolves, by search for its hash, to an earlier event of the same tenant. */
  ghost predicate Linked(rows: seq<Row>) {
    forall i :: 0 <= i < |rows| ==> LinkResolves(rows, i)
  }

  lemma GrownLogsAreLinked(crypto: Crypto, rows: seq<Row>)
    requires Injective(crypto) && Grown(crypto, rows)
    ensures Linked(rows)
  {
    forall i | 0 <= i < |rows|
      ensures LinkResolves(rows, i)
    {
      LinksNameAnEarlierEvent(crypto, rows, i);
    }
  }

  /** The events met by following links from row `i`, newest first. */
  ghost function History(rows: seq<Row>, i: nat): (h: seq<Row>)
    requires Linked(rows) && i < |rows|
    ensures |h| > 0 && h[0] == rows[i]
    decreases i
  {
    assert LinkResolves(rows, i);
    match rows[i].previous
    case None => [rows[i]]
    case Some(hash) => [rows[i]] + History(rows, Resolve(rows, hash).value)
  }

  lemma OneGenesis(rows: seq<Row>, i: nat, j: nat)
    requires i < |rows| && j < |rows| && rows[i].tenantId == rows[j].tenantId
    requires IsFirstOfTenant(rows, i) && IsFirstOfTenant(rows, j)
    ensures i == j
  {
  }

  /** Following links stays inside the tenant and always ends at the tenant's one genesis event. */
  lemma {:induction false} LinksEndAtGenesis(rows: seq<Row>, i: nat, genesis: nat)
    requires Linked(rows) && i < |rows|
    requires genesis < |rows| && rows[genesis].tenantId == rows[i].tenantId && IsFirstOfTenant(rows, genesis)
    ensures var h := History(rows, i);
            && h[|h| - 1] == rows[genesis]
            && (forall k :: 0 <= k < |h| ==> h[k].tenantId == rows[i].tenantId && h[k] in rows)
            && (forall k :: 0 <= k < |h| - 1 ==> h[k].previous == Some(h[k + 1].hash))
    decreases i
  {
    assert LinkResolves(rows, i);
    if rows[i].previous.Some? {
      var parent := Resolve(rows, rows[i].previous.value).value;
      LinksEndAtGenesis(rows, parent, genesis);
      var h, t := History(rows, i), History(rows, parent);
      assert h == [rows[i]] + t;
      assert forall k :: 1 <= k < |h| ==> h[k] == t[k - 1];
    } else {
      OneGenesis(rows, i, genesis);
    }
  }

  ghost function Evidence(h: seq<Row>): (e: seq<BaseEvent>)
    ensures |e| == |h| && forall k :: 0 <= k < |h| ==> e[k] == h[k].evidence
  {
    seq(|h|, k requires 0 <= k < |h| => h[k].evidence)
  }

  lemma EqualHashesMeanEqualEvidence(crypto: Crypto, a: Row, b: Row)
    requires Injective(crypto) && Sealed(crypto, a) && Sealed(crypto, b) && a.hash == b.hash
    ensures a.evidence == b.evidence && a.previous == b.previous
  {
  }

  lemma {:induction false} HistoriesAgree(crypto: Crypto, a: seq<Row>, b: seq<Row>, i: nat, j: nat)
    requires Injective(crypto) && Linked(a) && Linked(b) && i < |a| && j < |b|
    requires forall k :: 0 <= k < |a| ==> Sealed(crypto, a[k])
    requires forall k :: 0 <= k < |b| ==> Sealed(crypto, b[k])
    requires a[i].hash == b[j].hash
    ensures Evidence(History(a, i)) == Evidence(History(b, j))
    decreases i
  {
    EqualHashesMeanEqualEvidence(crypto, a[i], b[j]);
    assert LinkResolves(a, i) && LinkResolves(b, j);
    hide Sealed, Injective, Resolve, IsFirstOfTenant;
    if a[i].previous.Some? {
      var hash := a[i].previous.value;
      var p, q := Resolve(a, hash).value, Resolve(b, hash).value;
      HistoriesAgree(crypto, a, b, p, q);
      assert History(a, i) == [a[i]] + History(a, p);
      assert History(b, j) == [b[j]] + History(b, q);
    }
  }

  /** Two logs that agree on one event's hash agree on that event's whole ancestry. */
  lemma EqualHashesMeanEqualHistories(crypto: Crypto, a: seq<Row>, b: seq<Row>, i: nat, j: nat)
    requires Injective(crypto) && Grown(crypto, a) && Grown(crypto, b) && i < |a| && j < |b|
    requires a[i].hash == b[j].hash
    ensures Linked(a) && Linked(b) && Evidence(History(a, i)) == Evidence(History(b, j))
  {
    GrownLogsAreLinked(crypto, a);
    GrownLogsAreLinked(crypto, b);
    HistoriesAgree(crypto, a, b, i, j);
  }

  // ---- When the chain is a list --------------------------------------------------------

  function NearestBefore(rows: seq<Row>, i: nat, tenant: string): (p: Option<nat>)
    requires i <= |rows|
    ensures p.None? <==> forall k :: 0 <= k < i ==> rows[k].tenantId != tenant
    ensures p.Some? ==> p.value < i && rows[p.value].tenantId == tenant
                        && forall k :: p.value < k < i ==> rows[k].tenantId != tenant
  {
    if i == 0 then None
    else if rows[i - 1].tenantId == tenant then Some(i - 1)
    else NearestBefore(rows, i - 1, tenant)
  }

  /** The nearest earlier row of the same tenant. */
  function Predecessor(rows: seq<Row>, i: nat): (p: Option<nat>)
    requires i < |rows|
    ensures p.None? <==> IsFirstOfTenant(rows, i)
    ensures p.Some? ==> p.value < i && rows[p.value].tenantId == rows[i].tenantId
                        && forall k :: p.value < k < i ==> rows[k].tenantId != rows[i].tenantId
  {
    NearestBefore(rows, i, rows[i].tenantId)
  }

  /** The tenant's chain is one list: each event links to the event written just before it. */
  ghost predicate IsList(rows: seq<Row>, tenant: string) {
    forall i :: 0 <= i < |rows| && rows[i].tenantId == tenant ==> Parent(rows, i) == Predecessor(rows, i)
  }

  /** Each tenant event that has a successor is later, in query order, than all before it. */
  ghost predicate AdvancesBeforeLast(rows: seq<Row>, tenant: string) {
    forall i, k, j :: 0 <= i < k < j < |rows|
                      && rows[i].tenantId == tenant && rows[k].tenantId == tenant && rows[j].tenantId == tenant
                      ==> Precedes(rows[i], rows[k])
  }

  lemma ParentIsGreatest(rows: seq<Row>, i: nat)
    requires i < |rows|
    ensures Parent(rows, i).None? <==> Predecessor(rows, i).None?
    ensures Parent(rows, i).Some? ==>
              forall k :: 0 <= k < i && rows[k].tenantId == rows[i].tenantId
                  ==> !Precedes(rows[Parent(rows, i).value], rows[k])
  {
    assert forall k :: 0 <= k < i ==> rows[..i][k] == rows[k];
  }

  lemma NextOfTenant(rows: seq<Row>, k: nat, j: nat, tenant: string) returns (next: nat)
    requires k < j < |rows| && rows[k].tenantId == tenant && rows[j].tenantId == tenant
    ensures k < next <= j && rows[next].tenantId == tenant && Predecessor(rows, next) == Some(k)
  {
    next := k + 1;
    while rows[next].tenantId != tenant
      invariant k < next <= j
      invariant forall m :: k < m < next ==> rows[m].tenantId != tenant
      decreases j - next
    {
      next := next + 1;
    }
  }

  /** Exactly when the chain is a list and not a forest. */
  lemma ListIffAdvancing(crypto: Crypto, rows: seq<Row>, tenant: string)
    requires Grown(crypto, rows)
    ensures IsList(rows, tenant) <==> AdvancesBeforeLast(rows, tenant)
  {
    if AdvancesBeforeLast(rows, tenant) {
      forall j | 0 <= j < |rows| && rows[j].tenantId == tenant
        ensures Parent(rows, j) == Predecessor(rows, j)
      {
        ParentIsGreatest(rows, j);
      }
    }
    if IsList(rows, tenant) {
      forall i, k, j | 0 <= i < k < j < |rows|
                       && rows[i].tenantId == tenant && rows[k].tenantId == tenant && rows[j].tenantId == tenant
        ensures Precedes(rows[i], rows[k])
      {
        var next := NextOfTenant(rows, k, j, tenant);
        ParentIsGreatest(rows, next);
      }
    }
  }

  ghost predicate ClockIncreases(rows: seq<Row>, tenant: string) {
    forall i, j :: 0 <= i < j < |rows| && rows[i].tenantId == tenant && rows[j].tenantId == tenant
                   ==> rows[i].createdAt < rows[j].createdAt
  }

  ghost predicate ClockNeverSteps(rows: seq<Row>, tenant: string) {
    forall i, j :: 0 <= i < j < |rows| && rows[i].tenantId == tenant && rows[j].tenantId == tenant
                   ==> rows[i].createdAt <= rows[j].createdAt
  }

  lemma StrictClockMakesAList(crypto: Crypto, rows: seq<Row>, tenant: string)
    requires Grown(crypto, rows) && ClockIncreases(rows, tenant)
    ensures IsList(rows, tenant)
  {
    ListIffAdvancing(crypto, rows, tenant);
  }

  /**
   Under a clock that may repeat but not step back, two events share a parent only if the
   earlier one was stamped with the parent's own time and has a smaller id than it.
   */
  lemma SiblingsShareTheParentsInstant(crypto: Crypto, rows: seq<Row>, i: nat, j: nat)
    requires Grown(crypto, rows) && i < j < |rows| && rows[i].tenantId == rows[j].tenantId
    requires ClockNeverSteps(rows, rows[i].tenantId)
    requires Parent(rows, i).Some? && Parent(rows, i) == Parent(rows, j)
    ensures var p := Parent(rows, i).value;
            rows[i].createdAt == rows[p].createdAt && rows[i].eventId < rows[p].eventId
  {
    ParentIsGreatest(rows, j);
  }

  lemma {:induction false} LogColumns(crypto: Crypto, writes: seq<Write>)
    ensures forall i :: 0 <= i < |writes| ==>
              && Log(crypto, writes)[i].tenantId == writes[i].data.tenantId
              && Log(crypto, writes)[i].createdAt == writes[i].createdAt
  {
    if writes != [] {
      LogColumns(crypto, writes[..|writes| - 1]);
    }
  }

  /** The tie the best-effort chain allows: four events in one instant, two with one parent. */
  lemma EqualInstantsFork(crypto: Crypto, d: EventData)
    ensures var w := [Write(d, 5, 0, 0), Write(d, 9, 0, 0), Write(d, 7, 0, 0), Write(d, 8, 0, 0)];
            var rows := Log(crypto, w);
            Parent(rows, 2) == Parent(rows, 3) == Some(1) && !IsList(rows, d.tenantId)
  {
    var w := [Write(d, 5, 0, 0), Write(d, 9, 0, 0), Write(d, 7, 0, 0), Write(d, 8, 0, 0)];
    var rows := Log(crypto, w);
    LogIsWritten(crypto, w);
    assert forall k :: 0 <= k < 4 ==> rows[k].tenantId == d.tenantId && rows[k].createdAt == 0 by {
      LogColumns(crypto, w);
    }
    ParentIsGreatest(rows, 2);
    ParentIsGreatest(rows, 3);
    assert Predecessor(rows, 3) == Some(2);
  }
}
