/**
 What a scan's answers come to: its class, its obligations and the controls of its first
 conversion (app/services/classification_service.py:12-74,
 app/services/regulatory_knowledge.py:857-1000, app/services/website_scanner_service.py:444-601).
 */
module ConversionOutcomes {
  import opened Common
  import EC = EvidenceChain
  import OG = ObligationGraph
  import SC = ScanConversion

  /** Prohibited use outranks everything, either flag makes the rest high risk. */
  ghost predicate IsHighRisk(a: OG.Answers) {
    "is_prohibited_use" !in a && ("is_high_risk_annex_iii" in a || "is_safety_component" in a)
  }

  /** The five classes, each by its exact condition on the answers. */
  lemma ClassIff(a: OG.Answers)
    ensures var cls := OG.Classification(a);
            var spared := "is_prohibited_use" !in a && !IsHighRisk(a);
            && (cls == "Prohibited AI System" <==> "is_prohibited_use" in a)
            && (cls == "High-Risk AI System" <==> IsHighRisk(a))
            && (cls == "General Purpose AI (GPAI)" <==> spared && "is_gpai" in a)
            && (cls == "Limited Risk AI System" <==>
                  spared && "is_gpai" !in a && "has_transparency_obligation" in a)
            && (cls == "Minimal Risk AI System" <==>
                  spared && "is_gpai" !in a && "has_transparency_obligation" !in a)
  {
    var classes := ["Prohibited AI System", "High-Risk AI System", "General Purpose AI (GPAI)",
                    "Limited Risk AI System", "Minimal Risk AI System"];
    assert |classes[0]| == 20 && |classes[1]| == 19 && |classes[2]| == 25 && |classes[3]| == 22;
    assert classes[3][0] != classes[4][0];
  }

  // ---- The controls of a first conversion --------------------------------------------------------------------

  /** A control as a reader of the control list sees it: key, status and evidence domain. */
  type Line = (string, string, string)

  const LINES: seq<Line> := [
    ("ai_literacy", "not_started", "ai_literacy"),
    ("prohibited_practice_review", "blocked", "classification"),
    ("high_risk_classification", "not_started", "classification"),
    ("provider_high_risk_requirements", "not_started", "provider_controls"),
    ("deployer_high_risk_operations", "not_started", "deployer_controls"),
    ("fria_screening", "not_started", "governance_fria"),
    ("importer_distributor_verification", "blocked", "value_chain_review"),
    ("transparency_notice", "not_started", "transparency"),
    ("gpai_provider_obligations", "not_started", "gpai_documentation"),
    ("gpai_systemic_risk", "blocked", "gpai_systemic_risk"),
    ("post_market_monitoring", "not_started", "post_market_monitoring")]

  /** When the answers and the role call for each of them. */
  ghost predicate CalledFor(k: nat, a: OG.Answers, role: string) {
    match k
    case 0 => true
    case 1 => "is_prohibited_use" in a
    case 2 => IsHighRisk(a)
    case 3 => IsHighRisk(a) && role == "Provider"
    case 4 => IsHighRisk(a) && role == "Deployer"
    case 5 => IsHighRisk(a) && role == "Deployer"
    case 6 => IsHighRisk(a) && role == "Importer/Distributor"
    case 7 => "has_transparency_obligation" in a
    case 8 => "is_gpai" in a
    case 9 => "is_gpai_systemic_risk" in a
    case 10 => IsHighRisk(a) && role == "Provider"
    case _ => false
  }

  ghost predicate Expected(a: OG.Answers, role: string, line: Line) {
    exists k :: 0 <= k < |LINES| && LINES[k] == line && CalledFor(k, a, role)
  }

  ghost predicate Shows(c: OG.Control, line: Line) {
    c.key == "intake_" + line.0 && c.status == line.1 && c.evidenceDomain == line.2
  }

  /** The line of an obligation's control. */
  ghost function LineFor(o: OG.Obligation): Line {
    (o.key, if o.status == "blocking" || o.status == "review_required" then "blocked" else "not_started", o.domain)
  }

  lemma LineOfDimension(d: OG.Dimension, a: OG.Answers)
    requires d.id != "fria_screening" || d.status == "screening_required"
    ensures LineFor(OG.ToObligation(d, a)) == LineFor(OG.Obligation(d.id, d.status, d.domain))
  {
    hide OG.FriaLikely;
  }

  lemma AppliesIffCalledFor(k: nat, a: OG.Answers, role: string)
    requires k < |LINES|
    ensures |OG.DIMENSIONS| == |LINES|
    ensures OG.Applies(OG.DIMENSIONS[k], role, OG.Classification(a), a) <==> CalledFor(k, a, role)
  {
    ClassIff(a);
    hide IsHighRisk, OG.Classification;
  }

  /** A dimension applies exactly when its line is called for. */
  lemma DimensionIsLine(k: nat, a: OG.Answers, role: string)
    requires k < |LINES|
    ensures |OG.DIMENSIONS| == |LINES|
    ensures OG.Applies(OG.DIMENSIONS[k], role, OG.Classification(a), a) <==> CalledFor(k, a, role)
    ensures LineFor(OG.ToObligation(OG.DIMENSIONS[k], a)) == LINES[k]
  {
    AppliesIffCalledFor(k, a, role);
    hide CalledFor, OG.Applies, OG.Classification, OG.FriaLikely;
    assert k != 5 ==> |OG.DIMENSIONS[k].id| != |"fria_screening"|;
    LineOfDimension(OG.DIMENSIONS[k], a);
  }

  /** The graph of a classification shows exactly the expected lines. */
  lemma GraphShowsIff(a: OG.Answers, role: string, line: Line)
    ensures (exists o :: o in OG.Graph(OG.DIMENSIONS, role, OG.Classification(a), a) && LineFor(o) == line)
            <==> Expected(a, role, line)
  {
    hide LineFor, OG.Classification, OG.Graph, OG.Applies, OG.ToObligation, CalledFor;
    var cls := OG.Classification(a);
    if o :| o in OG.Graph(OG.DIMENSIONS, role, cls, a) && LineFor(o) == line {
      var d := OG.InGraphMeansApplies(OG.DIMENSIONS, role, cls, a, o);
      var k :| 0 <= k < |OG.DIMENSIONS| && OG.DIMENSIONS[k] == d;
      DimensionIsLine(k, a, role);
      assert LINES[k] == line;
    }
    if k :| 0 <= k < |LINES| && LINES[k] == line && CalledFor(k, a, role) {
      DimensionIsLine(k, a, role);
      OG.AppliesMeansInGraph(OG.DIMENSIONS, role, cls, a, OG.DIMENSIONS[k]);
    }
  }

  /** A deployer's impact assessment is required outright, not just screened for, for what serves the public. */
  lemma ImpactAssessmentIff(a: OG.Answers, role: string, o: OG.Obligation)
    requires o in OG.Graph(OG.DIMENSIONS, role, OG.Classification(a), a) && o.key == "fria_screening"
    ensures o.status == if "is_public_body" in a || "provides_public_service" in a
                           || "annex_iii_area_requires_fria" in a || "fria_required" in a
                        then "required" else "screening_required"
  {
    hide OG.Graph, OG.Classification;
    var d := OG.InGraphMeansApplies(OG.DIMENSIONS, role, OG.Classification(a), a, o);
    assert forall j :: 0 <= j < |OG.DIMENSIONS| && j != 5 ==> |OG.DIMENSIONS[j].id| != |"fria_screening"|;
  }

  ghost predicate ShowsSome(c: OG.Control, a: OG.Answers, role: string) {
    exists line :: Expected(a, role, line) && Shows(c, line)
  }

  ghost predicate IsShown(line: Line, controls: seq<OG.Control>) {
    exists k :: 0 <= k < |controls| && Shows(controls[k], line)
  }

  /** Every expected line is shown by some control, and every control shows one, no two the same. */
  ghost predicate ShowExpected(controls: seq<OG.Control>, a: OG.Answers, role: string) {
    && (forall k :: 0 <= k < |controls| ==> ShowsSome(controls[k], a, role))
    && (forall line :: Expected(a, role, line) ==> IsShown(line, controls))
    && (forall j, k :: 0 <= j < k < |controls| ==> controls[j].key != controls[k].key)
  }

  lemma NewControlShows(tenant: string, system: Option<string>, o: OG.Obligation, id: string, intakeId: string)
    requires o.domain != ""
    ensures Shows(OG.NewControl(tenant, system, o, id, intakeId), LineFor(o))
  {
  }

  lemma DomainsAreNamed(a: OG.Answers, role: string, cls: string, o: OG.Obligation)
    requires o in OG.Graph(OG.DIMENSIONS, role, cls, a)
    ensures o.domain != ""
  {
    hide OG.Graph, OG.Applies;
    var d := OG.InGraphMeansApplies(OG.DIMENSIONS, role, cls, a, o);
  }

  lemma MadeKeysAreDistinct(g: seq<OG.Obligation>, controls: seq<OG.Control>, tenant: string, system: Option<string>,
                            ids: nat -> string, intakeId: string)
    requires OG.DistinctKeys(g) && |controls| == |g|
    requires forall k :: 0 <= k < |g| ==> controls[k] == OG.NewControl(tenant, system, g[k], ids(k), intakeId)
    ensures forall j, k :: 0 <= j < k < |controls| ==> controls[j].key != controls[k].key
  {
    forall j, k | 0 <= j < k < |controls|
      ensures controls[j].key != controls[k].key
    {
      if controls[j].key == controls[k].key {
        OG.ControlKeyIsInjective(g[j].key, g[k].key);
      }
    }
  }

  /** Controls made for a graph, one for each obligation in order, show what the graph shows. */
  lemma MadeControlsShow(controls: seq<OG.Control>, a: OG.Answers, role: string, tenant: string,
                         system: Option<string>, ids: nat -> string, intakeId: string)
    requires var g := OG.Graph(OG.DIMENSIONS, role, OG.Classification(a), a);
             && |controls| == |g|
             && forall k :: 0 <= k < |g| ==> controls[k] == OG.NewControl(tenant, system, g[k], ids(k), intakeId)
    ensures ShowExpected(controls, a, role)
  {
    var cls := OG.Classification(a);
    var g := OG.Graph(OG.DIMENSIONS, role, cls, a);
    hide OG.Graph, OG.Classification, OG.NewControl, LineFor, Shows, Expected;
    forall k | 0 <= k < |g|
      ensures Expected(a, role, LineFor(g[k])) && Shows(controls[k], LineFor(g[k]))
    {
      assert g[k] in g;
      DomainsAreNamed(a, role, cls, g[k]);
      GraphShowsIff(a, role, LineFor(g[k]));
      NewControlShows(tenant, system, g[k], ids(k), intakeId);
    }
    forall line | Expected(a, role, line)
      ensures IsShown(line, controls)
    {
      GraphShowsIff(a, role, line);
      var k :| 0 <= k < |g| && LineFor(g[k]) == line;
      assert Shows(controls[k], line);
    }
    OG.GraphKeysAreDistinct(role, cls, a);
    MadeKeysAreDistinct(g, controls, tenant, system, ids, intakeId);
  }

  lemma FlagStays(a: OG.Answers, role: string, flag: string)
    requires |flag| != |"is_developer"| && |flag| != |"is_deployer"|
    ensures flag in SC.AnswersForRole(a, role) <==> flag in a
  {
  }

  /** The role flags decide the role and nothing else. */
  lemma RoleFlagsLeaveTheRest(a: OG.Answers, role: string)
    ensures OG.Classification(SC.AnswersForRole(a, role)) == OG.Classification(a)
    ensures forall line :: Expected(SC.AnswersForRole(a, role), role, line) <==> Expected(a, role, line)
  {
    FlagStays(a, role, "is_prohibited_use");
    FlagStays(a, role, "is_high_risk_annex_iii");
    FlagStays(a, role, "is_safety_component");
    FlagStays(a, role, "is_gpai");
    FlagStays(a, role, "is_gpai_systemic_risk");
    FlagStays(a, role, "has_transparency_obligation");
    hide SC.AnswersForRole;
    var a' := SC.AnswersForRole(a, role);
    assert forall k :: 0 <= k < |LINES| ==> (CalledFor(k, a', role) <==> CalledFor(k, a, role));
  }

  lemma MadeControlsAreExpected(c: SC.Converted, tenant: string, a: OG.Answers, named: string, ids: SC.Ids)
    requires named in SC.ROLES && SC.MadeFor(c, tenant, SC.AnswersForRole(a, named), ids)
    ensures ShowExpected(c.controls, a, named)
    ensures c.intake.classification == OG.Classification(a)
  {
    hide Expected, Shows, OG.Graph, OG.Classification, SC.AnswersForRole, OG.ActorRole;
    var a' := SC.AnswersForRole(a, named);
    SC.RoleIsSelected(a, named);
    RoleFlagsLeaveTheRest(a, named);
    MadeControlsShow(c.controls, a', named, tenant, Some(ids.systemId), ids.controlIds, ids.intakeId);
  }

  lemma AnswersNameTheRole(a: OG.Answers, named: string, flag: string)
    ensures flag in SC.AnswersForRole(a, named) <==>
              if flag == "is_developer" then named == "Provider"
              else if flag == "is_deployer" then named == "Deployer" else flag in a
  {
    assert |"is_developer"| != |"is_deployer"|;
    assert |"Provider"| == |"Deployer"| && "Provider"[0] != "Deployer"[0];
  }

  lemma CompletedIfConverted(crypto: EC.Crypto, t: SC.Tables, tenant: string, scanId: string, role: Option<string>,
                             ids: SC.Ids)
    requires SC.Convert(crypto, t, tenant, scanId, role, ids).Ok?
    ensures SC.ScanOf(t, tenant, scanId).Some? && t.scans[scanId].status == "completed"
  {
  }

  /**
   What a first conversion adds follows from the scan's answers and the role selected
   alone: a control of the new system for each expected line and no other, and an intake
   that keeps the answers with that role in place of any they named.
   */
  lemma FirstConversionControls(crypto: EC.Crypto, t: SC.Tables, tenant: string, scanId: string, role: Option<string>,
                                ids: SC.Ids)
    requires SC.TablesOk(t) && SC.FreshIds(t, ids) && SC.Convert(crypto, t, tenant, scanId, role, ids).Ok?
    requires scanId in t.scans && !SC.IsLinked(t.scans[scanId])
    ensures var (t', c) := SC.Convert(crypto, t, tenant, scanId, role, ids).value;
            var a, named := t.scans[scanId].answers, if Truthy(role) then role.value else "Provider";
            && t'.controls == t.controls + c.controls && ShowExpected(c.controls, a, named)
            && (forall k :: 0 <= k < |c.controls| ==>
                  c.controls[k].tenantId == tenant && c.controls[k].aiSystemId == Some(ids.systemId)
                  && c.controls[k].intakeId == ids.intakeId && c.controls[k].id == ids.controlIds(k))
            && c.intake.actorRole == named && c.intake.classification == OG.Classification(a)
            && (forall flag :: flag in c.intake.answers <==>
                  if flag == "is_developer" then named == "Provider"
                  else if flag == "is_deployer" then named == "Deployer" else flag in a)
  {
    hide SC.Convert, ShowExpected, OG.Classification, SC.AnswersForRole, SC.Records, SC.FreshIds, OG.UniqueControls;
    CompletedIfConverted(crypto, t, tenant, scanId, role, ids);
    SC.FirstConversion(crypto, t, tenant, scanId, role, ids);
    var c := SC.Convert(crypto, t, tenant, scanId, role, ids).value.1;
    var a, named := t.scans[scanId].answers, if Truthy(role) then role.value else "Provider";
    MadeControlsAreExpected(c, tenant, a, named, ids);
    forall flag
      ensures flag in c.intake.answers <==>
                if flag == "is_developer" then named == "Provider"
                else if flag == "is_deployer" then named == "Deployer" else flag in a
    {
      AnswersNameTheRole(a, named, flag);
    }
  }
}
