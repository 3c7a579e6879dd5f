/**
 The obligation graph of a classification (app/services/regulatory_knowledge.py:857-897,
 980-1000; app/services/classification_service.py:12-74) and the seeding of controls from
 it (app/services/compliance_control_service.py:466-525).
 */
module ObligationGraph {
  import opened Common

  /** Questionnaire answers: the flags that are true. */
  type Answers = set<string>

  /** When a dimension applies: always, or under the conditions it names. */
  datatype Rule = Always | When(answerTrue: Option<string>, classification: Option<string>, actorRole: Option<string>)

  datatype Dimension = Dimension(id: string, status: string, domain: string, rule: Rule)

  datatype Obligation = Obligation(key: string, status: string, domain: string)

  const HIGH_RISK := "High-Risk AI System"

  const DIMENSIONS: seq<Dimension> := [
    Dimension("ai_literacy", "required", "ai_literacy", Always),
    Dimension("prohibited_practice_review", "blocking", "classification", When(Some("is_prohibited_use"), None, None)),
    Dimension("high_risk_classification", "required", "classification", When(None, Some(HIGH_RISK), None)),
    Dimension("provider_high_risk_requirements", "required", "provider_controls",
              When(None, Some(HIGH_RISK), Some("Provider"))),
    Dimension("deployer_high_risk_operations", "required", "deployer_controls",
              When(None, Some(HIGH_RISK), Some("Deployer"))),
    Dimension("fria_screening", "screening_required", "governance_fria", When(None, Some(HIGH_RISK), Some("Deployer"))),
    Dimension("importer_distributor_verification", "review_required", "value_chain_review",
              When(None, Some(HIGH_RISK), Some("Importer/Distributor"))),
    Dimension("transparency_notice", "required", "transparency", When(Some("has_transparency_obligation"), None, None)),
    Dimension("gpai_provider_obligations", "required", "gpai_documentation", When(Some("is_gpai"), None, None)),
    Dimension("gpai_systemic_risk", "review_required", "gpai_systemic_risk",
              When(Some("is_gpai_systemic_risk"), None, None)),
    Dimension("post_market_monitoring", "required", "post_market_monitoring",
              When(None, Some(HIGH_RISK), Some("Provider")))]

  function ActorRole(a: Answers): string {
    if "is_developer" in a then "Provider" else if "is_deployer" in a then "Deployer" else "Importer/Distributor"
  }

  function Classification(a: Answers): string {
    if "is_prohibited_use" in a then "Prohibited AI System"
    else if "is_high_risk_annex_iii" in a || "is_safety_component" in a then HIGH_RISK
    else if "is_gpai" in a then "General Purpose AI (GPAI)"
    else if "has_transparency_obligation" in a then "Limited Risk AI System"
    else "Minimal Risk AI System"
  }

  predicate Applies(d: Dimension, role: string, classification: string, a: Answers) {
    match d.rule
    case Always => true
    case When(answer, cls, actor) =>
      && (answer.None? || answer.value in a)
      && (cls.None? || cls.value == classification)
      && (actor.None? || actor.value == role)
  }

  predicate FriaLikely(a: Answers) {
    exists f | f in ["is_public_body", "provides_public_service", "annex_iii_area_requires_fria",
                     "fria_required"] :: f in a
  }

  function ToObligation(d: Dimension, a: Answers): Obligation {
    Obligation(d.id, if d.id == "fria_screening" && FriaLikely(a) then "required" else d.status, d.domain)
  }

  /** The order-preserving filter over a dimension table. */
  function Graph(dims: seq<Dimension>, role: string, classification: string, a: Answers): (g: seq<Obligation>)
    ensures forall o :: o in g ==> exists d :: d in dims && o == ToObligation(d, a)
  {
    if dims == [] then [] else
    var n := |dims| - 1;
    var before := Graph(dims[..n], role, classification, a);
    if Applies(dims[n], role, classification, a) then before + [ToObligation(dims[n], a)] else before
  }

  method BuildObligationGraph(role: string, classification: string, a: Answers) returns (g: seq<Obligation>)
    ensures g == Graph(DIMENSIONS, role, classification, a)
  {
    g := [];
    for i := 0 to |DIMENSIONS|
      invariant g == Graph(DIMENSIONS[..i], role, classification, a)
    {
      assert DIMENSIONS[..i + 1][..i] == DIMENSIONS[..i];
      if Applies(DIMENSIONS[i], role, classification, a) {
        g := g + [ToObligation(DIMENSIONS[i], a)];
      }
    }
    assert DIMENSIONS[..|DIMENSIONS|] == DIMENSIONS;
  }

  ghost predicate DistinctKeys(g: seq<Obligation>) {
    forall i, j :: 0 <= i < j < |g| ==> g[i].key != g[j].key
  }

  ghost predicate DistinctIds(dims: seq<Dimension>) {
    forall i, j :: 0 <= i < j < |dims| ==> dims[i].id != dims[j].id
  }

  lemma {:induction false} DistinctDimensionsGiveDistinctKeys(dims: seq<Dimension>, role: string,
        classification: string, a: Answers)
    requires DistinctIds(dims)
    ensures DistinctKeys(Graph(dims, role, classification, a))
  {
    if dims != [] {
      var n := |dims| - 1;
      DistinctDimensionsGiveDistinctKeys(dims[..n], role, classification, a);
      var before := Graph(dims[..n], role, classification, a);
      forall k | 0 <= k < |before|
        ensures before[k].key != dims[n].id
      {
        assert before[k] in before;
        var d :| d in dims[..n] && before[k] == ToObligation(d, a);
      }
    }
  }

  /** An applicable dimension is in the graph, and what is in the graph comes from one. */
  lemma {:induction false} AppliesMeansInGraph(dims: seq<Dimension>, role: string, classification: string, a: Answers,
                                               d: Dimension)
    requires d in dims && Applies(d, role, classification, a)
    ensures ToObligation(d, a) in Graph(dims, role, classification, a)
  {
    hide Applies, ToObligation;
    var n := |dims| - 1;
    if d != dims[n] {
      assert dims == dims[..n] + [dims[n]];
      AppliesMeansInGraph(dims[..n], role, classification, a, d);
    }
  }

  lemma {:induction false} InGraphMeansApplies(dims: seq<Dimension>, role: string, classification: string, a: Answers,
                                               o: Obligation) returns (d: Dimension)
    requires o in Graph(dims, role, classification, a)
    ensures d in dims && Applies(d, role, classification, a) && o == ToObligation(d, a)
  {
    hide Applies, ToObligation;
    var n := |dims| - 1;
    if o in Graph(dims[..n], role, classification, a) {
      d := InGraphMeansApplies(dims[..n], role, classification, a, o);
    } else {
      d := dims[n];
    }
  }

  /** A key is in the graph exactly when its dimension applies. */
  lemma InGraphIff(dims: seq<Dimension>, role: string, classification: string, a: Answers, key: string)
    ensures (exists o :: o in Graph(dims, role, classification, a) && o.key == key) <==>
            (exists d :: d in dims && d.id == key && Applies(d, role, classification, a))
  {
    hide Applies, Graph, FriaLikely;
    if o :| o in Graph(dims, role, classification, a) && o.key == key {
      var d := InGraphMeansApplies(dims, role, classification, a, o);
    }
    if d :| d in dims && d.id == key && Applies(d, role, classification, a) {
      AppliesMeansInGraph(dims, role, classification, a, d);
      assert ToObligation(d, a).key == key;
    }
  }

  lemma DimensionIdsAreDistinct()
    ensures DistinctIds(DIMENSIONS)
  {
    assert forall i, j :: 0 <= i < j < |DIMENSIONS| ==> |DIMENSIONS[i].id| != |DIMENSIONS[j].id|;
  }

  /** Every graph the knowledge base can build has distinct, non-empty keys. */
  lemma GraphKeysAreDistinct(role: string, classification: string, a: Answers)
    ensures DistinctKeys(Graph(DIMENSIONS, role, classification, a))
    ensures forall o :: o in Graph(DIMENSIONS, role, classification, a) ==> o.key != ""
  {
    hide DistinctIds;
    DimensionIdsAreDistinct();
    DistinctDimensionsGiveDistinctKeys(DIMENSIONS, role, classification, a);
  }

  // ---- Seeding controls -----------------------------------------------------------------------------

  datatype Control = Control(
    id: string, tenantId: string, aiSystemId: Option<string>, key: string, status: string, evidenceDomain: string,
        intakeId: string)

  datatype SeedError = UniqueViolation

  function ControlKey(key: string): string {
    "intake_" + key
  }

  lemma ControlKeyIsInjective(a: string, b: string)
    requires ControlKey(a) == ControlKey(b)
    ensures a == b
  {
    assert ControlKey(a)[7..] == a && ControlKey(b)[7..] == b;
  }

  predicate SameSlot(c: Control, tenant: string, system: Option<string>, key: string) {
    c.tenantId == tenant && c.aiSystemId == system && c.key == key
  }

  function FindControl(controls: seq<Control>, tenant: string, system: Option<string>,
                       key: string): (found: Option<nat>)
    ensures found.Some? ==> found.value < |controls| && SameSlot(controls[found.value], tenant, system, key)
                            && forall k :: 0 <= k < found.value ==> !SameSlot(controls[k], tenant, system, key)
    ensures found.None? <==> forall k :: 0 <= k < |controls| ==> !SameSlot(controls[k], tenant, system, key)
  {
    if controls == [] then None else
    var earlier := FindControl(controls[..|controls| - 1], tenant, system, key);
    if earlier.Some? then earlier
    else if SameSlot(controls[|controls| - 1], tenant, system, key) then Some(|controls| - 1)
    else None
  }

  /** The unique constraint (tenant, system, key); null systems never collide. */
  predicate UniqueControls(controls: seq<Control>) {
    forall i, j :: 0 <= i < j < |controls| && controls[i].aiSystemId.Some? ==>
                     !SameSlot(controls[j], controls[i].tenantId, controls[i].aiSystemId, controls[i].key)
  }

  function NewControl(tenant: string, system: Option<string>, o: Obligation, id: string, intakeId: string): Control {
    Control(id, tenant, system, ControlKey(o.key), if o.status in ["blocking", "review_required"] then "blocked"
            else "not_started",
            if o.domain != "" then o.domain else "classification", intakeId)
  }

  /** What the seeding loop has returned, and which rows it has added, after its items. */
  datatype Seeding = Seeding(returned: seq<Control>, added: seq<Control>)

  /** The session does not autoflush, so every lookup sees only the controls stored before the call. */
  function SeedLoop(stored: seq<Control>, tenant: string, system: Option<string>, g: seq<Obligation>,
                    ids: nat -> string, intakeId: string): Seeding {
    if g == [] then Seeding([], []) else
    var n := |g| - 1;
    var s := SeedLoop(stored, tenant, system, g[..n], ids, intakeId);
    if g[n].key == "" then s else
    match FindControl(stored, tenant, system, ControlKey(g[n].key))
    case Some(k) => Seeding(s.returned + [stored[k]], s.added)
    case None =>
      var c := NewControl(tenant, system, g[n], ids(n), intakeId);
      Seeding(s.returned + [c], s.added + [c])
  }

  function Seed(stored: seq<Control>, tenant: string, system: Option<string>, g: seq<Obligation>,
                ids: nat -> string, intakeId: string)
    : Result<(seq<Control>, seq<Control>), SeedError>
  {
    var s := SeedLoop(stored, tenant, system, g, ids, intakeId);
    if UniqueControls(stored + s.added) then Ok((stored + s.added, s.returned)) else Err(UniqueViolation)
  }

  class ControlTable {
    var controls: seq<Control>

    constructor (controls: seq<Control>)
      ensures this.controls == controls
    {
      this.controls := controls;
    }

    method SeedFromObligationGraph(tenant: string, system: Option<string>, g: seq<Obligation>, ids: nat -> string,
                                   intakeId: string)
      returns (created: Result<seq<Control>, SeedError>)
      modifies this
      ensures match Seed(old(controls), tenant, system, g, ids, intakeId)
              case Ok(r) => created == Ok(r.1) && controls == r.0
              case Err(e) => created == Err(e) && controls == old(controls)
    {
      var returned, pending := [], [];
      for i := 0 to |g|
        invariant controls == old(controls)
        invariant Seeding(returned, pending) == SeedLoop(controls, tenant, system, g[..i], ids, intakeId)
      {
        assert g[..i + 1][..i] == g[..i];
        if g[i].key == "" {
          continue;
        }
        var existing := FindControl(controls, tenant, system, ControlKey(g[i].key));
        if existing.Some? {
          returned := returned + [controls[existing.value]];
          continue;
        }
        var control := NewControl(tenant, system, g[i], ids(i), intakeId);
        pending := pending + [control];
        returned := returned + [control];
      }
      assert g[..|g|] == g;
      if !UniqueControls(controls + pending) {
        return Err(UniqueViolation);
      }
      controls := controls + pending;
      return Ok(returned);
    }
  }

  /** Every non-empty key of the graph has its control among `controls`, and `returned` lists them in order. */
  ghost predicate Seeded(controls: seq<Control>, tenant: string, system: Option<string>, g: seq<Obligation>,
                         returned: seq<Control>) {
    forall ids: nat -> string, intakeId: string :: SeedLoop(controls, tenant, system, g, ids, intakeId)
        == Seeding(returned, [])
  }

  lemma {:induction false} FindControlAppend(a: seq<Control>, b: seq<Control>, tenant: string,
                                             system: Option<string>, key: string)
    requires FindControl(a, tenant, system, key).Some?
    ensures FindControl(a + b, tenant, system, key) == FindControl(a, tenant, system, key)
  {
    var k := FindControl(a, tenant, system, key).value;
    assert (a + b)[k] == a[k];
    assert forall j :: 0 <= j < k ==> (a + b)[j] == a[j];
  }

  /** The key has a control of this tenant and system. */
  ghost predicate HasControl(stored: seq<Control>, tenant: string, system: Option<string>, key: string) {
    exists k :: 0 <= k < |stored| && stored[k].tenantId == tenant && stored[k].aiSystemId == system
                && stored[k].key == "intake_" + key
  }

  lemma FindsIffHas(stored: seq<Control>, tenant: string, system: Option<string>, key: string)
    ensures FindControl(stored, tenant, system, ControlKey(key)).Some? <==> HasControl(stored, tenant, system, key)
  {
    hide FindControl;
    if FindControl(stored, tenant, system, ControlKey(key)).Some? {
      assert SameSlot(stored[FindControl(stored, tenant, system, ControlKey(key)).value], tenant, system,
                      ControlKey(key));
    }
  }

  /** No key that still lacks a control occurs twice in the graph. */
  ghost predicate NoNewRepeats(stored: seq<Control>, tenant: string, system: Option<string>, g: seq<Obligation>) {
    forall i, j :: 0 <= i < j < |g| && g[i].key == g[j].key && g[i].key != "" ==>
                     HasControl(stored, tenant, system, g[i].key)
  }

  /** What the loop adds are new rows of this slot family, one per position that found none. */
  lemma {:induction false} AddedRows(stored: seq<Control>, tenant: string, system: Option<string>,
                                     g: seq<Obligation>, ids: nat -> string, intakeId: string)
    ensures var s := SeedLoop(stored, tenant, system, g, ids, intakeId);
            && |s.added| <= |s.returned| <= |g|
            && forall c :: c in s.added ==>
                 && c.tenantId == tenant && c.aiSystemId == system
                 && exists k :: 0 <= k < |g| && g[k].key != "" && c.key == ControlKey(g[k].key)
                                && FindControl(stored, tenant, system, c.key).None?
  {
    if g != [] {
      AddedRows(stored, tenant, system, g[..|g| - 1], ids, intakeId);
    }
  }

  lemma {:induction false} AddedKeysAreDistinct(stored: seq<Control>, tenant: string, system: Option<string>,
                                                g: seq<Obligation>,
                                                ids: nat -> string, intakeId: string)
    requires NoNewRepeats(stored, tenant, system, g)
    ensures var s := SeedLoop(stored, tenant, system, g, ids, intakeId);
            forall i, j :: 0 <= i < j < |s.added| ==> s.added[i].key != s.added[j].key
  {
    hide FindControl, SameSlot, UniqueControls;
    if g != [] {
      var n := |g| - 1;
      AddedKeysAreDistinct(stored, tenant, system, g[..n], ids, intakeId);
      AddedRows(stored, tenant, system, g[..n], ids, intakeId);
      var s := SeedLoop(stored, tenant, system, g[..n], ids, intakeId);
      if FindControl(stored, tenant, system, ControlKey(g[n].key)).None? && g[n].key != "" {
        assert NewControl(tenant, system, g[n], ids(n), intakeId).key == ControlKey(g[n].key);
        forall c | c in s.added
          ensures c.key != ControlKey(g[n].key)
        {
          var k :| 0 <= k < |g[..n]| && g[..n][k].key != "" && c.key == ControlKey(g[..n][k].key);
          if c.key == ControlKey(g[n].key) {
            ControlKeyIsInjective(g[k].key, g[n].key);
            FindsIffHas(stored, tenant, system, g[n].key);
          }
        }
      }
    }
  }

  lemma NoNewRepeatsSeed(stored: seq<Control>, tenant: string, system: Option<string>, g: seq<Obligation>,
                         ids: nat -> string, intakeId: string)
    requires UniqueControls(stored) && NoNewRepeats(stored, tenant, system, g)
    ensures Seed(stored, tenant, system, g, ids, intakeId).Ok?
  {
    AddedRows(stored, tenant, system, g, ids, intakeId);
    AddedKeysAreDistinct(stored, tenant, system, g, ids, intakeId);
    var s := SeedLoop(stored, tenant, system, g, ids, intakeId);
    var all := stored + s.added;
    forall i, j | 0 <= i < j < |all| && all[i].aiSystemId.Some?
      ensures !SameSlot(all[j], all[i].tenantId, all[i].aiSystemId, all[i].key)
    {
      if j >= |stored| {
        assert all[j] in s.added;
        if i >= |stored| {
          assert all[i] == s.added[i - |stored|] && all[j] == s.added[j - |stored|];
        }
      }
    }
  }

  lemma AddedExtends(stored: seq<Control>, tenant: string, system: Option<string>, g: seq<Obligation>,
                     ids: nat -> string, intakeId: string)
    requires g != []
    ensures var before := SeedLoop(stored, tenant, system, g[..|g| - 1], ids, intakeId).added;
            var after := SeedLoop(stored, tenant, system, g, ids, intakeId).added;
            |before| <= |after| && after[..|before|] == before && forall k :: 0 <= k < |before| ==>
              after[k] == before[k]
  {
  }

  lemma {:induction false} AddedOnceAt(stored: seq<Control>, tenant: string, system: Option<string>,
                                       g: seq<Obligation>, ids: nat -> string, intakeId: string, i: nat)
    returns (a: nat)
    requires i < |g| && g[i].key != "" && FindControl(stored, tenant, system, ControlKey(g[i].key)).None?
    ensures var s := SeedLoop(stored, tenant, system, g, ids, intakeId);
            a < |s.added| && s.added[a] == NewControl(tenant, system, g[i], ids(i), intakeId)
  {
    hide NewControl;
    var n := |g| - 1;
    if i == n {
      a := |SeedLoop(stored, tenant, system, g[..n], ids, intakeId).added|;
    } else {
      AddedExtends(stored, tenant, system, g, ids, intakeId);
      a := AddedOnceAt(stored, tenant, system, g[..n], ids, intakeId, i);
    }
  }

  lemma {:induction false} AddedTwice(stored: seq<Control>, tenant: string, system: Option<string>,
                                      g: seq<Obligation>, ids: nat -> string, intakeId: string, i: nat, j: nat)
    returns (a: nat, b: nat)
    requires i < j < |g| && g[i].key == g[j].key != ""
             && FindControl(stored, tenant, system, ControlKey(g[i].key)).None?
    ensures var added := SeedLoop(stored, tenant, system, g, ids, intakeId).added;
            && a < b < |added| && added[a] == NewControl(tenant, system, g[i], ids(i), intakeId)
            && added[b] == NewControl(tenant, system, g[j], ids(j), intakeId)
  {
    hide NewControl;
    var n := |g| - 1;
    assert g[..n][i] == g[i];
    if j == n {
      a := AddedOnceAt(stored, tenant, system, g[..n], ids, intakeId, i);
      b := |SeedLoop(stored, tenant, system, g[..n], ids, intakeId).added|;
    } else {
      assert g[..n][j] == g[j];
      a, b := AddedTwice(stored, tenant, system, g[..n], ids, intakeId, i, j);
      AddedExtends(stored, tenant, system, g, ids, intakeId);
    }
  }

  lemma RepeatedKeyFails(stored: seq<Control>, tenant: string, system: string, g: seq<Obligation>,
                         ids: nat -> string, intakeId: string, i: nat, j: nat)
    requires i < j < |g| && g[i].key == g[j].key != ""
             && FindControl(stored, tenant, Some(system), ControlKey(g[i].key)).None?
    ensures Seed(stored, tenant, Some(system), g, ids, intakeId).Err?
  {
    var a, b := AddedTwice(stored, tenant, Some(system), g, ids, intakeId, i, j);
    var s := SeedLoop(stored, tenant, Some(system), g, ids, intakeId);
    var all := stored + s.added;
    assert all[|stored| + a] == s.added[a] && all[|stored| + b] == s.added[b];
    assert SameSlot(all[|stored| + b], tenant, Some(system), all[|stored| + a].key);
  }

  /**
   Seeding an AI system succeeds exactly when no key that lacks a control is repeated: the
   loop's lookups do not see the rows it has itself added, so a repeated new key is added
   twice and the flush meets the unique constraint.
   */
  lemma SeedingSucceedsIff(stored: seq<Control>, tenant: string, system: string, g: seq<Obligation>,
                           ids: nat -> string, intakeId: string)
    requires UniqueControls(stored)
    ensures Seed(stored, tenant, Some(system), g, ids, intakeId).Ok? <==> NoNewRepeats(stored, tenant, Some(system), g)
  {
    if NoNewRepeats(stored, tenant, Some(system), g) {
      NoNewRepeatsSeed(stored, tenant, Some(system), g, ids, intakeId);
    } else {
      var i, j :| 0 <= i < j < |g| && g[i].key == g[j].key && g[i].key != ""
                  && !HasControl(stored, tenant, Some(system), g[i].key);
      FindsIffHas(stored, tenant, Some(system), g[i].key);
      RepeatedKeyFails(stored, tenant, system, g, ids, intakeId, i, j);
    }
  }

  /** What seeding answers for one obligation: the control its key has, or a new one for it. */
  ghost predicate IsFor(stored: seq<Control>, tenant: string, system: Option<string>, o: Obligation, c: Control,
                        id: string, intakeId: string) {
    && c.tenantId == tenant && c.aiSystemId == system && c.key == "intake_" + o.key
    && if HasControl(stored, tenant, system, o.key) then c in stored
       else
         && c.id == id && c.intakeId == intakeId
         && c.status == (if o.status == "blocking" || o.status == "review_required" then "blocked" else "not_started")
         && c.evidenceDomain == if o.domain == "" then "classification" else o.domain
  }

  lemma OneAnswer(stored: seq<Control>, tenant: string, system: Option<string>, o: Obligation, id: string,
                  intakeId: string)
    ensures var found := FindControl(stored, tenant, system, ControlKey(o.key));
            IsFor(stored, tenant, system, o,
                  if found.Some? then stored[found.value] else NewControl(tenant, system, o, id, intakeId),
                  id, intakeId)
  {
    hide FindControl;
    FindsIffHas(stored, tenant, system, o.key);
  }

  /** One answer for each obligation, in order. */
  lemma {:induction false} LoopAnswers(stored: seq<Control>, tenant: string, system: Option<string>,
                                       g: seq<Obligation>, ids: nat -> string, intakeId: string)
    requires forall k :: 0 <= k < |g| ==> g[k].key != ""
    ensures var s := SeedLoop(stored, tenant, system, g, ids, intakeId);
            && |s.returned| == |g|
            && (forall k :: 0 <= k < |g| ==> IsFor(stored, tenant, system, g[k], s.returned[k], ids(k), intakeId))
  {
    hide HasControl, NewControl, IsFor, FindControl, ControlKey;
    if g != [] {
      var n := |g| - 1;
      LoopAnswers(stored, tenant, system, g[..n], ids, intakeId);
      OneAnswer(stored, tenant, system, g[n], ids(n), intakeId);
      var before := SeedLoop(stored, tenant, system, g[..n], ids, intakeId);
      var s := SeedLoop(stored, tenant, system, g, ids, intakeId);
      assert s.returned[..n] == before.returned;
    }
  }

  /** The answer at `k` is a new row. */
  ghost predicate IsNewAt(stored: seq<Control>, tenant: string, system: Option<string>, g: seq<Obligation>,
                          returned: seq<Control>, k: nat, c: Control)
    requires |returned| == |g|
  {
    k < |g| && c == returned[k] && !HasControl(stored, tenant, system, g[k].key)
  }

  /** The rows added are the answers that are new. */
  lemma {:induction false} LoopAdds(stored: seq<Control>, tenant: string, system: Option<string>,
                                    g: seq<Obligation>, ids: nat -> string, intakeId: string, c: Control)
    requires (forall k :: 0 <= k < |g| ==> g[k].key != "")
             && |SeedLoop(stored, tenant, system, g, ids, intakeId).returned| == |g|
    ensures var s := SeedLoop(stored, tenant, system, g, ids, intakeId);
            c in s.added <==> exists k: nat :: IsNewAt(stored, tenant, system, g, s.returned, k, c)
  {
    hide HasControl, NewControl, FindControl, ControlKey;
    if g != [] {
      var n := |g| - 1;
      LoopAdds(stored, tenant, system, g[..n], ids, intakeId, c);
      FindsIffHas(stored, tenant, system, g[n].key);
      var before := SeedLoop(stored, tenant, system, g[..n], ids, intakeId);
      var s := SeedLoop(stored, tenant, system, g, ids, intakeId);
      assert s.returned[..n] == before.returned;
      forall k: nat | k < n
        ensures IsNewAt(stored, tenant, system, g[..n], before.returned, k, c)
                <==> IsNewAt(stored, tenant, system, g, s.returned, k, c)
      {
        assert s.returned[k] == s.returned[..n][k];
      }
      assert IsNewAt(stored, tenant, system, g, s.returned, n, c)
             <==> c == s.returned[n] && !HasControl(stored, tenant, system, g[n].key);
    }
  }

  lemma AnswerIsStored(stored: seq<Control>, tenant: string, system: Option<string>, g: seq<Obligation>,
                       ids: nat -> string, intakeId: string, k: nat)
    requires k < |g| && forall j :: 0 <= j < |g| ==> g[j].key != ""
    ensures var s := SeedLoop(stored, tenant, system, g, ids, intakeId);
            k < |s.returned| && s.returned[k] in stored + s.added
  {
    hide HasControl, NewControl, FindControl, ControlKey;
    LoopAnswers(stored, tenant, system, g, ids, intakeId);
    var s := SeedLoop(stored, tenant, system, g, ids, intakeId);
    if !HasControl(stored, tenant, system, g[k].key) {
      assert IsNewAt(stored, tenant, system, g, s.returned, k, s.returned[k]);
      LoopAdds(stored, tenant, system, g, ids, intakeId, s.returned[k]);
    }
  }

  /**
   Seeding answers every obligation in order, with the control its key has or a new one of
   the status and domain it calls for; the rows added are just the new ones.
   */
  lemma SeedingAnswers(stored: seq<Control>, tenant: string, system: Option<string>, g: seq<Obligation>,
                       ids: nat -> string, intakeId: string)
    requires (forall k :: 0 <= k < |g| ==> g[k].key != "") && Seed(stored, tenant, system, g, ids, intakeId).Ok?
    ensures var (controls, returned) := Seed(stored, tenant, system, g, ids, intakeId).value;
            && |stored| <= |controls| && controls[..|stored|] == stored && |returned| == |g|
            && (forall k :: 0 <= k < |g| ==>
                  IsFor(stored, tenant, system, g[k], returned[k], ids(k), intakeId) && returned[k] in controls)
            && (forall c :: c in controls[|stored|..] <==>
                  exists k: nat :: IsNewAt(stored, tenant, system, g, returned, k, c))
  {
    hide HasControl, UniqueControls, IsNewAt;
    LoopAnswers(stored, tenant, system, g, ids, intakeId);
    var s := SeedLoop(stored, tenant, system, g, ids, intakeId);
    assert (stored + s.added)[|stored|..] == s.added;
    forall c
      ensures c in s.added <==> exists k: nat :: IsNewAt(stored, tenant, system, g, s.returned, k, c)
    {
      LoopAdds(stored, tenant, system, g, ids, intakeId, c);
    }
    forall k | 0 <= k < |g|
      ensures s.returned[k] in stored + s.added
    {
      AnswerIsStored(stored, tenant, system, g, ids, intakeId, k);
    }
  }

  lemma FindStored(controls: seq<Control>, c: Control)
    requires UniqueControls(controls) && c in controls && c.aiSystemId.Some?
    ensures var found := FindControl(controls, c.tenantId, c.aiSystemId, c.key);
            found.Some? && controls[found.value] == c
  {
    var k :| 0 <= k < |controls| && controls[k] == c;
    var found := FindControl(controls, c.tenantId, c.aiSystemId, c.key);
    assert SameSlot(controls[k], c.tenantId, c.aiSystemId, c.key);
  }

  /** Once controls found by the loop are stored, a later loop finds the same ones and adds nothing. */
  lemma {:induction false} SeededByPrefix(stored: seq<Control>, more: seq<Control>, tenant: string,
                                          system: Option<string>, g: seq<Obligation>,
                                          ids: nat -> string, intakeId: string, ids': nat -> string, intakeId': string)
    requires UniqueControls(stored + more) && system.Some?
    requires var s := SeedLoop(stored, tenant, system, g, ids, intakeId); forall c :: c in s.added ==> c in more
    ensures SeedLoop(stored + more, tenant, system, g, ids', intakeId')
            == Seeding(SeedLoop(stored, tenant, system, g, ids, intakeId).returned, [])
  {
    if g != [] {
      var n := |g| - 1;
      SeededByPrefix(stored, more, tenant, system, g[..n], ids, intakeId, ids', intakeId');
      if g[n].key != "" {
        var key := ControlKey(g[n].key);
        var found := FindControl(stored, tenant, system, key);
        if found.Some? {
          FindControlAppend(stored, more, tenant, system, key);
          assert (stored + more)[found.value] == stored[found.value];
        } else {
          var c := NewControl(tenant, system, g[n], ids(n), intakeId);
          assert c in SeedLoop(stored, tenant, system, g, ids, intakeId).added;
          FindStored(stored + more, c);
        }
      }
    }
  }

  /** Seeding is idempotent: seeding again, and later still, adds nothing and returns the same controls. */
  lemma SeedingIsIdempotent(stored: seq<Control>, tenant: string, system: string, g: seq<Obligation>,
                            ids: nat -> string, intakeId: string)
    requires Seed(stored, tenant, Some(system), g, ids, intakeId).Ok?
    ensures var (controls, returned) := Seed(stored, tenant, Some(system), g, ids, intakeId).value;
            && Seeded(controls, tenant, Some(system), g, returned)
            && forall ids', intakeId' ::
                 Seed(controls, tenant, Some(system), g, ids', intakeId') == Ok((controls, returned))
  {
    var s := SeedLoop(stored, tenant, Some(system), g, ids, intakeId);
    var controls := stored + s.added;
    forall ids': nat -> string, intakeId': string
      ensures SeedLoop(controls, tenant, Some(system), g, ids', intakeId') == Seeding(s.returned, [])
    {
      SeededByPrefix(stored, s.added, tenant, Some(system), g, ids, intakeId, ids', intakeId');
    }
    assert controls + [] == controls;
  }

  /** Rows added by anyone else leave a seeded graph seeded. */
  lemma {:induction false} SeededStays(controls: seq<Control>, more: seq<Control>, tenant: string, system: string,
                                       g: seq<Obligation>, returned: seq<Control>)
    requires UniqueControls(controls + more) && Seeded(controls, tenant, Some(system), g, returned)
    ensures Seeded(controls + more, tenant, Some(system), g, returned)
  {
    forall ids': nat -> string, intakeId': string
      ensures SeedLoop(controls + more, tenant, Some(system), g, ids', intakeId') == Seeding(returned, [])
    {
      SeededByPrefix(controls, more, tenant, Some(system), g, ids', intakeId', ids', intakeId');
    }
  }

  /** How many controls fill one slot. */
  function InSlot(controls: seq<Control>, tenant: string, system: Option<string>, key: string): nat {
    Count(controls, (c: Control) => SameSlot(c, tenant, system, key))
  }

  lemma {:induction false} UniqueMeansAtMostOne(controls: seq<Control>, tenant: string, system: string, key: string)
    requires UniqueControls(controls)
    ensures InSlot(controls, tenant, Some(system), key) == if FindControl(controls, tenant, Some(system), key).Some?
            then 1 else 0
  {
    if controls != [] {
      var n := |controls| - 1;
      UniqueMeansAtMostOne(controls[..n], tenant, system, key);
      var earlier := FindControl(controls[..n], tenant, Some(system), key);
      if earlier.Some? {
        assert !SameSlot(controls[n], controls[earlier.value].tenantId, controls[earlier.value].aiSystemId,
                         controls[earlier.value].key);
      }
    }
  }
}
