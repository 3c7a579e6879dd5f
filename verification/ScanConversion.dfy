/**
 Conversion of a completed website scan into a governed system
 (app/services/website_scanner_service.py:444-601).
 */
module ScanConversion {
  import opened Common
  import EC = EvidenceChain
  import OG = ObligationGraph

  /** The stored scan; `answers` are the questionnaire answers of its classification. */
  datatype Scan = Scan(
    id: string, tenantId: string, status: string, title: string, answers: OG.Answers,
    selectedRole: Option<string>, aiSystemId: Option<string>, intakeId: Option<string>)

  datatype System = System(id: string, tenantId: string, name: string)

  datatype Intake = Intake(id: string, tenantId: string, answers: OG.Answers, actorRole: string,
                           classification: string, graph: seq<OG.Obligation>)

  datatype Tables = Tables(
    scans: map<string, Scan>, systems: map<string, System>, intakes: map<string, Intake>,
    controls: seq<OG.Control>, log: seq<EC.Row>)

  /** Ids and clocks one conversion may draw. */
  datatype Ids = Ids(systemId: string, intakeId: string, controlIds: nat -> string, eventId: EC.EventId,
                     timestamp: int, createdAt: int)

  datatype Failure =
    | ScanNotFound | NotCompleted | ConvertedAs(role: string) | UnsupportedRole | SystemNotFound | IntakeNotFound
    | UniqueViolation

  /** What a conversion returns. */
  datatype Converted = Converted(scan: Scan, system: System, intake: Intake, controls: seq<OG.Control>,
                                 eventId: EC.EventId)

  const CONVERTED_EVENT := "website_scan_converted"

  const ROLES := ["Provider", "Deployer", "Importer/Distributor"]

  function RequestIdOf(scanId: string): string {
    "website-scan:" + scanId
  }

  function SelectedRole(role: Option<string>): string {
    if Truthy(role) then role.value else "Provider"
  }

  function AnswersForRole(a: OG.Answers, role: string): OG.Answers {
    (a - {"is_developer", "is_deployer"})
    + (if role == "Provider" then {"is_developer"} else {})
    + (if role == "Deployer" then {"is_deployer"} else {})
  }

  function NewIntake(tenant: string, id: string, answers: OG.Answers): (intake: Intake)
    ensures intake.id == id && intake.tenantId == tenant
  {
    var role, cls := OG.ActorRole(answers), OG.Classification(answers);
    Intake(id, tenant, answers, role, cls, OG.Graph(OG.DIMENSIONS, role, cls, answers))
  }

  predicate IsConversionEvent(row: EC.Row, tenant: string, systemId: string, scanId: string) {
    && row.tenantId == tenant && row.eventType == CONVERTED_EVENT
    && row.evidence.data.aiSystemId == Some(systemId) && row.evidence.data.requestId == RequestIdOf(scanId)
  }

  function FindEvent(log: seq<EC.Row>, tenant: string, systemId: string, scanId: string): (found: Option<nat>)
    ensures found.Some? ==> found.value < |log| && IsConversionEvent(log[found.value], tenant, systemId, scanId)
    ensures found.None? <==> forall k :: 0 <= k < |log| ==> !IsConversionEvent(log[k], tenant, systemId, scanId)
  {
    if log == [] then None else
    var earlier := FindEvent(log[..|log| - 1], tenant, systemId, scanId);
    if earlier.Some? then earlier
    else if IsConversionEvent(log[|log| - 1], tenant, systemId, scanId) then Some(|log| - 1)
    else None
  }

  function ConversionWrite(tenant: string, systemId: string, scanId: string, ids: Ids): EC.Write {
    EC.Write(EC.EventData(tenant, CONVERTED_EVENT, "allow", "completed", "unknown", 0, RequestIdOf(scanId),
                          None, None, None, Some(systemId), []),
             ids.eventId, ids.timestamp, ids.createdAt)
  }

  /** The log with the scan's conversion event in it, and that event's id. */
  function EnsureEvent(crypto: EC.Crypto, log: seq<EC.Row>, tenant: string, systemId: string, scanId: string,
                       ids: Ids): (seq<EC.Row>, EC.EventId) {
    match FindEvent(log, tenant, systemId, scanId)
    case Some(k) => (log, log[k].eventId)
    case None => (log + [EC.NewRow(crypto, log, ConversionWrite(tenant, systemId, scanId, ids))], ids.eventId)
  }

  function ScanOf(t: Tables, tenant: string, id: string): Option<Scan> {
    if id in t.scans && t.scans[id].tenantId == tenant then Some(t.scans[id]) else None
  }

  function SystemOf(t: Tables, tenant: string, id: string): Option<System> {
    if id in t.systems && t.systems[id].tenantId == tenant then Some(t.systems[id]) else None
  }

  function IntakeOf(t: Tables, tenant: string, id: string): Option<Intake> {
    if id in t.intakes && t.intakes[id].tenantId == tenant then Some(t.intakes[id]) else None
  }

  predicate IsLinked(scan: Scan) {
    Truthy(scan.aiSystemId) && Truthy(scan.intakeId)
  }

  /** The scan's system and intake: those it is linked to, or new ones it is then linked to. */
  datatype Linkage = Linkage(tables: Tables, scan: Scan, system: System, intake: Intake)

  function Link(t: Tables, tenant: string, scan: Scan, role: Option<string>, ids: Ids): Result<Linkage, Failure> {
    if IsLinked(scan) then
      match SystemOf(t, tenant, scan.aiSystemId.value)
      case None => Err(SystemNotFound)
      case Some(system) =>
        match IntakeOf(t, tenant, scan.intakeId.value)
        case None => Err(IntakeNotFound)
        case Some(intake) =>
          if Truthy(role) && intake.actorRole != role.value then Err(ConvertedAs(intake.actorRole))
          else Ok(Linkage(t, scan, system, intake))
    else if SelectedRole(role) !in ROLES then Err(UnsupportedRole)
    else
      var system := System(ids.systemId, tenant, scan.title);
      var intake := NewIntake(tenant, ids.intakeId, AnswersForRole(scan.answers, SelectedRole(role)));
      var scan' := scan.(aiSystemId := Some(system.id), intakeId := Some(intake.id),
                         selectedRole := Some(intake.actorRole));
      Ok(Linkage(t.(systems := t.systems[system.id := system], intakes := t.intakes[intake.id := intake],
                    scans := t.scans[scan.id := scan']),
                 scan', system, intake))
  }

  function Finish(crypto: EC.Crypto, l: Linkage, tenant: string, ids: Ids): Result<(Tables, Converted), Failure> {
    match OG.Seed(l.tables.controls, tenant, Some(l.system.id), l.intake.graph, ids.controlIds, l.intake.id)
    case Err(_) => Err(UniqueViolation)
    case Ok(seeded) =>
      var (log, eventId) := EnsureEvent(crypto, l.tables.log, tenant, l.system.id, l.scan.id, ids);
      Ok((l.tables.(controls := seeded.0, log := log), Converted(l.scan, l.system, l.intake, seeded.1, eventId)))
  }

  function Convert(crypto: EC.Crypto, t: Tables, tenant: string, scanId: string, role: Option<string>,
                   ids: Ids): Result<(Tables, Converted), Failure> {
    match ScanOf(t, tenant, scanId)
    case None => Err(ScanNotFound)
    case Some(scan) =>
      if scan.status != "completed" then Err(NotCompleted) else
      match Link(t, tenant, scan, role, ids)
      case Err(e) => Err(e)
      case Ok(l) => Finish(crypto, l, tenant, ids)
  }

  // ---- The service ------------------------------------------------------------------------------------

  class Converter {
    const crypto: EC.Crypto
    const controlTable: OG.ControlTable
    const evidence: EC.EvidenceTable
    var scans: map<string, Scan>
    var systems: map<string, System>
    var intakes: map<string, Intake>

    ghost predicate Valid() {
      evidence.crypto == crypto
    }

    constructor (crypto: EC.Crypto, t: Tables)
      ensures Valid() && View() == t && this.crypto == crypto && fresh(controlTable) && fresh(evidence)
    {
      this.crypto := crypto;
      scans, systems, intakes := t.scans, t.systems, t.intakes;
      controlTable := new OG.ControlTable(t.controls);
      evidence := new EC.EvidenceTable(crypto, t.log);
    }

    function View(): Tables
      reads this, controlTable, evidence
    {
      Tables(scans, systems, intakes, controlTable.controls, evidence.rows)
    }

    method EnsureConversionEvidence(tenant: string, systemId: string, scanId: string,
                                    ids: Ids) returns (eventId: EC.EventId)
      requires Valid()
      modifies evidence
      ensures (evidence.rows, eventId) == EnsureEvent(crypto, old(evidence.rows), tenant, systemId, scanId, ids)
    {
      var existing := FindEvent(evidence.rows, tenant, systemId, scanId);
      if existing.Some? {
        return evidence.rows[existing.value].eventId;
      }
      var row := evidence.WriteEvidenceLog(ConversionWrite(tenant, systemId, scanId, ids));
      return row.eventId;
    }

    method CreateIntake(tenant: string, id: string, answers: OG.Answers) returns (intake: Intake)
      modifies this`intakes
      ensures intake == NewIntake(tenant, id, answers) && intake.id == id
      ensures intakes == old(intakes)[id := intake]
    {
      var actorRole, classification := OG.ActorRole(answers), OG.Classification(answers);
      var graph := OG.BuildObligationGraph(actorRole, classification, answers);
      intake := Intake(id, tenant, answers, actorRole, classification, graph);
      intakes := intakes[intake.id := intake];
    }

    /** A failure rolls the session back to where it started. */
    method ConvertScan(tenant: string, scanId: string, role: Option<string>,
                       ids: Ids) returns (result: Result<Converted, Failure>)
      requires Valid()
      modifies this, controlTable, evidence
      ensures Valid()
      ensures match Convert(crypto, old(View()), tenant, scanId, role, ids)
              case Ok(r) => View() == r.0 && result == Ok(r.1)
              case Err(e) => View() == old(View()) && result == Err(e)
    {
      hide NewIntake, OG.SeedLoop, OG.UniqueControls, EnsureEvent, AnswersForRole;
      var before := View();
      var found := ScanOf(View(), tenant, scanId);
      if found.None? {
        return Err(ScanNotFound);
      }
      var scan := found.value;
      if scan.status != "completed" {
        return Err(NotCompleted);
      }
      var system, intake;
      if Truthy(scan.aiSystemId) && Truthy(scan.intakeId) {
        var linkedSystem := SystemOf(View(), tenant, scan.aiSystemId.value);
        if linkedSystem.None? {
          return Err(SystemNotFound);
        }
        var linkedIntake := IntakeOf(View(), tenant, scan.intakeId.value);
        if linkedIntake.None? {
          return Err(IntakeNotFound);
        }
        system, intake := linkedSystem.value, linkedIntake.value;
        if Truthy(role) && intake.actorRole != role.value {
          return Err(ConvertedAs(intake.actorRole));
        }
      } else {
        if SelectedRole(role) !in ROLES {
          return Err(UnsupportedRole);
        }
        var answers := AnswersForRole(scan.answers, SelectedRole(role));
        system := System(ids.systemId, tenant, scan.title);
        systems := systems[system.id := system];
        intake := CreateIntake(tenant, ids.intakeId, answers);
        var key := scan.id;
        scan := scan.(aiSystemId := Some(system.id));
        scan := scan.(intakeId := Some(intake.id), selectedRole := Some(intake.actorRole));
        scans := scans[key := scan];
      }
      var controls := controlTable.SeedFromObligationGraph(tenant, Some(system.id), intake.graph, ids.controlIds,
                                                           intake.id);
      if controls.Err? {
        scans, systems, intakes := before.scans, before.systems, before.intakes;
        return Err(UniqueViolation);
      }
      var eventId := EnsureConversionEvidence(tenant, system.id, scan.id, ids);
      return Ok(Converted(scan, system, intake, controls.value, eventId));
    }
  }

  // ---- Idempotence --------------------------------------------------------------------------------------

  /** Rows are stored under their own ids, and the control constraint holds. */
  ghost predicate TablesOk(t: Tables) {
    && (forall id :: id in t.scans ==> t.scans[id].id == id)
    && (forall id :: id in t.systems ==> t.systems[id].id == id)
    && (forall id :: id in t.intakes ==> t.intakes[id].id == id)
    && OG.UniqueControls(t.controls)
  }

  /** Minted ids are non-empty and name nothing stored, nor anything evidence refers to. */
  ghost predicate FreshIds(t: Tables, ids: Ids) {
    && ids.systemId != "" && ids.intakeId != ""
    && ids.systemId !in t.systems && ids.intakeId !in t.intakes
    && (forall k :: 0 <= k < |t.log| ==> t.log[k].evidence.data.aiSystemId != Some(ids.systemId))
    && (forall k :: 0 <= k < |t.controls| ==> t.controls[k].aiSystemId != Some(ids.systemId))
  }

  /** The scan is converted, with result `c`: everything a conversion makes is there. */
  ghost predicate Settled(t: Tables, tenant: string, scanId: string, c: Converted) {
    && ScanOf(t, tenant, scanId) == Some(c.scan) && c.scan.status == "completed" && c.scan.id == scanId
    && IsLinked(c.scan) && c.scan.aiSystemId == Some(c.system.id) && c.scan.intakeId == Some(c.intake.id)
    && SystemOf(t, tenant, c.system.id) == Some(c.system)
    && IntakeOf(t, tenant, c.intake.id) == Some(c.intake)
    && OG.Seeded(t.controls, tenant, Some(c.system.id), c.intake.graph, c.controls)
    && (var e := FindEvent(t.log, tenant, c.system.id, scanId); e.Some? && t.log[e.value].eventId == c.eventId)
  }

  lemma FindEventAppend(log: seq<EC.Row>, row: EC.Row, tenant: string, systemId: string, scanId: string)
    ensures var found := FindEvent(log, tenant, systemId, scanId);
            found.Some? ==> FindEvent(log + [row], tenant, systemId, scanId) == found
  {
    assert (log + [row])[..|log|] == log;
  }

  lemma EventIsEnsured(crypto: EC.Crypto, log: seq<EC.Row>, tenant: string, systemId: string, scanId: string,
                       ids: Ids)
    ensures var (log', id) := EnsureEvent(crypto, log, tenant, systemId, scanId, ids);
            var found := FindEvent(log', tenant, systemId, scanId);
            found.Some? && log'[found.value].eventId == id
  {
    var w := ConversionWrite(tenant, systemId, scanId, ids);
    var row := EC.NewRow(crypto, log, w);
    assert IsConversionEvent(row, tenant, systemId, scanId);
    assert (log + [row])[..|log|] == log;
    assert (log + [row])[|log|] == row;
  }

  /** What linking leaves: the scan tied to its own system and intake, everything else as it was. */
  ghost predicate LinkOk(t: Tables, l: Linkage, tenant: string, scanId: string) {
    && TablesOk(l.tables) && l.tables.controls == t.controls && l.tables.log == t.log
    && ScanOf(l.tables, tenant, scanId) == Some(l.scan) && l.scan.status == "completed" && l.scan.id == scanId
    && IsLinked(l.scan) && l.scan.aiSystemId == Some(l.system.id) && l.scan.intakeId == Some(l.intake.id)
    && SystemOf(l.tables, tenant, l.system.id) == Some(l.system)
    && IntakeOf(l.tables, tenant, l.intake.id) == Some(l.intake)
    && (forall id :: id in t.scans && id != scanId ==> id in l.tables.scans && l.tables.scans[id] == t.scans[id])
    && (forall id :: id in t.systems ==> id in l.tables.systems && l.tables.systems[id] == t.systems[id])
    && (forall id :: id in t.intakes ==> id in l.tables.intakes && l.tables.intakes[id] == t.intakes[id])
  }

  lemma LinkIsOk(t: Tables, tenant: string, scanId: string, role: Option<string>, ids: Ids)
    requires TablesOk(t) && FreshIds(t, ids) && ScanOf(t, tenant, scanId).Some?
    requires ScanOf(t, tenant, scanId).value.status == "completed"
    requires Link(t, tenant, ScanOf(t, tenant, scanId).value, role, ids).Ok?
    ensures LinkOk(t, Link(t, tenant, ScanOf(t, tenant, scanId).value, role, ids).value, tenant, scanId)
  {
    hide OG.Graph, OG.ActorRole, OG.Classification, OG.UniqueControls, AnswersForRole, SelectedRole;
  }

  /** A successful conversion leaves its scan settled with the result it returned. */
  lemma ConversionSettles(crypto: EC.Crypto, t: Tables, tenant: string, scanId: string, role: Option<string>,
                          ids: Ids)
    requires TablesOk(t) && FreshIds(t, ids) && Convert(crypto, t, tenant, scanId, role, ids).Ok?
    ensures var (t', c) := Convert(crypto, t, tenant, scanId, role, ids).value;
              TablesOk(t') && Settled(t', tenant, scanId, c)
  {
    hide Link, OG.SeedLoop, OG.Seeded, EnsureEvent, FindEvent, SelectedRole;
    LinkIsOk(t, tenant, scanId, role, ids);
    var scan := ScanOf(t, tenant, scanId).value;
    var l := Link(t, tenant, scan, role, ids).value;
    EventIsEnsured(crypto, l.tables.log, tenant, l.system.id, l.scan.id, ids);
    OG.SeedingIsIdempotent(l.tables.controls, tenant, l.system.id, l.intake.graph, ids.controlIds, l.intake.id);
  }

  /**
   Converting a converted scan again, naming no role or the role it was converted as,
   changes nothing and returns what the first conversion returned; naming another role
   fails and changes nothing.
   */
  lemma SettledScansStay(crypto: EC.Crypto, t: Tables, tenant: string, scanId: string, c: Converted,
                         role: Option<string>, ids: Ids)
    requires TablesOk(t) && Settled(t, tenant, scanId, c)
    ensures Convert(crypto, t, tenant, scanId, role, ids)
            == if Truthy(role) && role.value != c.intake.actorRole then Err(ConvertedAs(c.intake.actorRole))
                else Ok((t, c))
  {
    if !(Truthy(role) && role.value != c.intake.actorRole) {
      var s := OG.SeedLoop(t.controls, tenant, Some(c.system.id), c.intake.graph, ids.controlIds, c.intake.id);
      assert s == OG.Seeding(c.controls, []);
      assert t.controls + [] == t.controls;
    }
  }

  /** A conversion of any scan leaves every other settled scan settled with its own result. */
  lemma OthersStaySettled(crypto: EC.Crypto, t: Tables, tenant: string, scanId: string, c: Converted,
                          tenant2: string, scanId2: string, role: Option<string>, ids: Ids)
    requires TablesOk(t) && FreshIds(t, ids) && Settled(t, tenant, scanId, c)
    requires Convert(crypto, t, tenant2, scanId2, role, ids).Ok?
    ensures Settled(Convert(crypto, t, tenant2, scanId2, role, ids).value.0, tenant, scanId, c)
  {
    hide Link, OG.SeedLoop, EC.NewRow, FindEvent, SelectedRole;
    if scanId2 == scanId {
      SettledScansStay(crypto, t, tenant, scanId, c, role, ids);
    } else {
      LinkIsOk(t, tenant2, scanId2, role, ids);
      var l := Link(t, tenant2, ScanOf(t, tenant2, scanId2).value, role, ids).value;
      var s := OG.SeedLoop(l.tables.controls, tenant2, Some(l.system.id), l.intake.graph, ids.controlIds, l.intake.id);
      OG.SeededStays(t.controls, s.added, tenant, c.system.id, c.intake.graph, c.controls);
      var row := EC.NewRow(crypto, t.log, ConversionWrite(tenant2, l.system.id, l.scan.id, ids));
      FindEventAppend(t.log, row, tenant, c.system.id, scanId);
    }
  }

  /** One conversion request of a run, of this or any other scan and tenant. */
  datatype Request = Request(tenant: string, scanId: string, role: Option<string>, ids: Ids)

  function Apply(crypto: EC.Crypto, t: Tables, r: Request): Tables {
    match Convert(crypto, t, r.tenant, r.scanId, r.role, r.ids)
    case Ok(v) => v.0
    case Err(_) => t
  }

  function Run(crypto: EC.Crypto, t: Tables, rs: seq<Request>): Tables
    decreases |rs|
  {
    if rs == [] then t else Run(crypto, Apply(crypto, t, rs[0]), rs[1..])
  }

  ghost predicate FreshRun(crypto: EC.Crypto, t: Tables, rs: seq<Request>)
    decreases |rs|
  {
    rs == [] || (FreshIds(t, rs[0].ids) && FreshRun(crypto, Apply(crypto, t, rs[0]), rs[1..]))
  }

  lemma {:induction false} SettledThroughRuns(crypto: EC.Crypto, t: Tables, rs: seq<Request>, tenant: string,
                                              scanId: string, c: Converted)
    requires TablesOk(t) && FreshRun(crypto, t, rs) && Settled(t, tenant, scanId, c)
    ensures TablesOk(Run(crypto, t, rs)) && Settled(Run(crypto, t, rs), tenant, scanId, c)
    decreases |rs|
  {
    if rs != [] {
      var r := rs[0];
      if Convert(crypto, t, r.tenant, r.scanId, r.role, r.ids).Ok? {
        ConversionSettles(crypto, t, r.tenant, r.scanId, r.role, r.ids);
        OthersStaySettled(crypto, t, tenant, scanId, c, r.tenant, r.scanId, r.role, r.ids);
      }
      SettledThroughRuns(crypto, Apply(crypto, t, r), rs[1..], tenant, scanId, c);
    }
  }

  /**
   Converting any number of times is converting once: after a first conversion and any run
   of further conversions of this and other scans, converting again returns the very same
   result and changes nothing, and a different role is refused.
   */
  lemma ConversionIsIdempotent(crypto: EC.Crypto, t: Tables, tenant: string, scanId: string, role: Option<string>,
                               ids: Ids,
                               rs: seq<Request>, role2: Option<string>, ids2: Ids)
    requires TablesOk(t) && FreshIds(t, ids) && Convert(crypto, t, tenant, scanId, role, ids).Ok?
    requires FreshRun(crypto, Convert(crypto, t, tenant, scanId, role, ids).value.0, rs)
    ensures var (t1, c) := Convert(crypto, t, tenant, scanId, role, ids).value;
            var t2 := Run(crypto, t1, rs);
            Convert(crypto, t2, tenant, scanId, role2, ids2)
            == if Truthy(role2) && role2.value != c.intake.actorRole then Err(ConvertedAs(c.intake.actorRole))
                else Ok((t2, c))
  {
    var (t1, c) := Convert(crypto, t, tenant, scanId, role, ids).value;
    ConversionSettles(crypto, t, tenant, scanId, role, ids);
    SettledThroughRuns(crypto, t1, rs, tenant, scanId, c);
    SettledScansStay(crypto, Run(crypto, t1, rs), tenant, scanId, c, role2, ids2);
  }

  lemma RoleIsSelected(a: OG.Answers, role: string)
    requires role in ROLES
    ensures OG.ActorRole(AnswersForRole(a, role)) == role
  {
  }

  lemma {:induction false} AllAreNew(stored: seq<OG.Control>, tenant: string, systemId: string,
                                     g: seq<OG.Obligation>, ids: nat -> string, intakeId: string)
    requires forall k :: 0 <= k < |stored| ==> stored[k].aiSystemId != Some(systemId)
    requires forall o :: o in g ==> o.key != ""
    ensures var s := OG.SeedLoop(stored, tenant, Some(systemId), g, ids, intakeId);
            && s.added == s.returned && |s.added| == |g|
            && forall k :: 0 <= k < |g| ==>
                 s.added[k] == OG.NewControl(tenant, Some(systemId), g[k], ids(k), intakeId)
  {
    hide OG.NewControl, OG.ControlKey;
    if g != [] {
      AllAreNew(stored, tenant, systemId, g[..|g| - 1], ids, intakeId);
    }
  }

  /** The event of a conversion, stamped with this request's clocks. */
  ghost predicate Records(row: EC.Row, tenant: string, ids: Ids, scanId: string) {
    var d := row.evidence.data;
    && row.evidence.timestamp == ids.timestamp && row.createdAt == ids.createdAt
    && row.tenantId == d.tenantId == tenant && row.eventType == d.eventType == "website_scan_converted"
    && d.decision == "allow" && d.status == "completed"
    && d.aiSystemId == Some(ids.systemId) && d.requestId == "website-scan:" + scanId
  }

  /** The intake of a first conversion, and its controls: one for each obligation of the intake's graph, in order. */
  ghost predicate MadeFor(c: Converted, tenant: string, answers: OG.Answers, ids: Ids) {
    && c.intake == NewIntake(tenant, ids.intakeId, answers)
    && |c.controls| == |c.intake.graph|
    && forall k :: 0 <= k < |c.controls| ==>
         c.controls[k] == OG.NewControl(tenant, Some(ids.systemId), c.intake.graph[k], ids.controlIds(k), ids.intakeId)
  }

  /**
   A first conversion of a completed scan succeeds exactly for a supported role, adds one
   system, one intake, one control per obligation and one conversion event, and records
   the role selected.
   */
  lemma FirstConversion(crypto: EC.Crypto, t: Tables, tenant: string, scanId: string, role: Option<string>, ids: Ids)
    requires TablesOk(t) && FreshIds(t, ids)
    requires ScanOf(t, tenant, scanId).Some? && t.scans[scanId].status == "completed" && !IsLinked(t.scans[scanId])
    ensures var named := if Truthy(role) then role.value else "Provider";
            Convert(crypto, t, tenant, scanId, role, ids).Ok?
            <==> named == "Provider" || named == "Deployer" || named == "Importer/Distributor"
    ensures Convert(crypto, t, tenant, scanId, role, ids).Ok? ==>
              var (t', c) := Convert(crypto, t, tenant, scanId, role, ids).value;
              var scan, named := t.scans[scanId], if Truthy(role) then role.value else "Provider";
              && c.scan == scan.(selectedRole := Some(named), aiSystemId := Some(ids.systemId),
                                 intakeId := Some(ids.intakeId))
              && c.intake.actorRole == named && c.system == System(ids.systemId, tenant, scan.title)
              && t'.scans == t.scans[scanId := c.scan]
              && t'.systems == t.systems[ids.systemId := c.system] && t'.intakes == t.intakes[ids.intakeId := c.intake]
              && t'.controls == t.controls + c.controls
              && MadeFor(c, tenant, AnswersForRole(scan.answers, named), ids)
              && |t'.log| == |t.log| + 1 && t'.log[..|t.log|] == t.log && t'.log[|t.log|].eventId == c.eventId
              && c.eventId == ids.eventId && Records(t'.log[|t.log|], tenant, ids, scanId)
  {
    hide OG.Graph, OG.Classification, OG.ActorRole, OG.SeedLoop, OG.UniqueControls, OG.NewControl, FindEvent;
    hide AnswersForRole;
    if SelectedRole(role) in ROLES {
      RoleIsSelected(t.scans[scanId].answers, SelectedRole(role));
      var l := Link(t, tenant, t.scans[scanId], role, ids).value;
      OG.GraphKeysAreDistinct(l.intake.actorRole, l.intake.classification, l.intake.answers);
      OG.NoNewRepeatsSeed(t.controls, tenant, Some(ids.systemId), l.intake.graph, ids.controlIds, l.intake.id);
      AllAreNew(t.controls, tenant, ids.systemId, l.intake.graph, ids.controlIds, l.intake.id);
    }
  }
}
