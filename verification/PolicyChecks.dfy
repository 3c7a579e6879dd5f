/**
 Runtime policy checks (app/services/policy_service.py:19-139).

 The prompt comes with its lower-cased text; the log keeps its rows in the order written.
 */
module PolicyChecks {
  import opened Common

  const MAX_PROMPT_LENGTH := 16000

  datatype Rule = Rule(id: string, patterns: seq<string>)

  const BLOCKED_PATTERNS := [
    Rule("jailbreak_attempt", ["ignore previous instructions", "ignore all instructions",
                               "disregard your instructions", "override your instructions",
                               "forget your system prompt"]),
    Rule("pii_exfiltration", ["social security number", "ssn:", "credit card number",
                              "passport number", "date of birth"])]

  datatype Decision = Allow | Block | Review

  datatype Feature = Feature(
    tenantId: string, pk: string, featureId: string, name: string, aiSystemId: Option<string>,
    riskLevel: Option<string>, complianceStatus: Option<string>)

  datatype Fria = Fria(tenantId: string, aiSystemId: string, status: string)

  datatype Request = Request(
    tenantId: string, prompt: string, lowered: string, featureId: Option<string>, now: int)

  datatype Check = Check(
    tenantId: string, featureId: Option<string>, aiSystemId: Option<string>, promptLength: nat,
    decision: Decision, policyRefs: seq<string>, createdAt: Option<int>)

  predicate OccursAt(text: string, part: string, i: nat)
    requires i + |part| <= |text|
  {
    text[i..i + |part|] == part
  }

  predicate Contains(text: string, part: string) {
    exists i :: 0 <= i <= |text| - |part| && OccursAt(text, part, i)
  }

  predicate Matches(rule: Rule, lowered: string) {
    exists p :: p in rule.patterns && Contains(lowered, p)
  }

  /** The ids of the rules with some pattern in the text, in rule order. */
  function Matched(rules: seq<Rule>, lowered: string): seq<string> {
    if rules == [] then []
    else Matched(rules[..|rules| - 1], lowered)
         + (if Matches(rules[|rules| - 1], lowered) then [rules[|rules| - 1].id] else [])
  }

  function Violations(prompt: string, lowered: string): seq<string> {
    Matched(BLOCKED_PATTERNS, lowered) + (if |prompt| > MAX_PROMPT_LENGTH then ["prompt_too_long"] else [])
  }

  method CheckContent(prompt: string, lowered: string) returns (violations: seq<string>)
    ensures violations == Violations(prompt, lowered)
  {
    violations := [];
    var i := 0;
    while i < |BLOCKED_PATTERNS|
      invariant i <= |BLOCKED_PATTERNS|
      invariant violations == Matched(BLOCKED_PATTERNS[..i], lowered)
    {
      var rule := BLOCKED_PATTERNS[i];
      ghost var before := violations;
      var j := 0;
      while j < |rule.patterns|
        invariant j <= |rule.patterns|
        invariant forall k :: 0 <= k < j ==> !Contains(lowered, rule.patterns[k])
        invariant violations == before
      {
        if Contains(lowered, rule.patterns[j]) {
          violations := violations + [rule.id];
          break;
        }
        j := j + 1;
      }
      assert Matches(rule, lowered) <==> j < |rule.patterns|;
      assert BLOCKED_PATTERNS[..i + 1][..i] == BLOCKED_PATTERNS[..i];
      i := i + 1;
    }
    assert BLOCKED_PATTERNS[..i] == BLOCKED_PATTERNS;
    if |prompt| > MAX_PROMPT_LENGTH {
      violations := violations + ["prompt_too_long"];
    }
  }

  predicate IsFeature(f: Feature, tenant: string, id: string) {
    f.tenantId == tenant && (f.featureId == id || f.pk == id)
  }

  function FindFeature(features: seq<Feature>, tenant: string, id: string): (found: Option<Feature>)
    ensures found.Some? ==> found.value in features && IsFeature(found.value, tenant, id)
    ensures found.None? <==> forall f :: f in features ==> !IsFeature(f, tenant, id)
  {
    if features == [] then None
    else if IsFeature(features[0], tenant, id) then Some(features[0])
    else FindFeature(features[1..], tenant, id)
  }

  predicate IsActive(f: Feature) {
    f.complianceStatus in {None, Some("active"), Some("approved")}
  }

  predicate HasClearedFria(frias: seq<Fria>, f: Feature) {
    Truthy(f.aiSystemId)
    && exists r :: r in frias && r.tenantId == f.tenantId && r.aiSystemId == f.aiSystemId.value
                   && r.status in {"approved", "completed"}
  }

  /** The AI system a check is filed under: that of the feature the gate looked up. */
  function LoggedSystem(features: seq<Feature>, r: Request): Option<string> {
    if Violations(r.prompt, r.lowered) != [] || !Truthy(r.featureId) then None else
    match FindFeature(features, r.tenantId, r.featureId.value)
    case Some(f) => f.aiSystemId
    case None => None
  }

  /** The decision table, each outcome by its exact condition, and the rules named for it. */
  ghost predicate Verdict(features: seq<Feature>, frias: seq<Fria>, r: Request, decision: Decision,
                          refs: seq<string>) {
    var violations := Violations(r.prompt, r.lowered);
    var known := if Truthy(r.featureId) then FindFeature(features, r.tenantId, r.featureId.value) else None;
    var unknown := Truthy(r.featureId) && known.None?;
    var inactive := known.Some? && !IsActive(known.value);
    && (decision == Block <==> violations != [] || unknown || inactive)
    && (decision == Review <==>
          && violations == [] && known.Some? && IsActive(known.value)
          && known.value.riskLevel == Some("high") && !HasClearedFria(frias, known.value))
    && refs == if violations != [] then violations
               else if unknown then ["unknown_feature"]
               else if inactive then ["feature_not_active"]
               else if decision == Review then ["fria_required"]
               else []
  }

  class PolicyService {
    var features: seq<Feature>
    var frias: seq<Fria>
    var checks: seq<Check>

    constructor (features: seq<Feature>, frias: seq<Fria>, checks: seq<Check>)
      ensures this.features == features && this.frias == frias && this.checks == checks
    {
      this.features, this.frias, this.checks := features, frias, checks;
    }

    /** One row is logged, with the decision returned; the decision table is exact. */
    method RunPolicyCheck(r: Request) returns (decision: Decision, policyRefs: seq<string>)
      modifies this`checks
      ensures checks == old(checks) + [Check(r.tenantId, r.featureId, LoggedSystem(features, r), |r.prompt|,
                                             decision, policyRefs, Some(r.now))]
      ensures Verdict(features, frias, r, decision, policyRefs)
    {
      decision, policyRefs := Allow, [];
      var aiSystemId := None;
      var violations := CheckContent(r.prompt, r.lowered);
      if violations != [] {
        decision := Block;
        policyRefs := policyRefs + violations;
      }
      if Truthy(r.featureId) && decision == Allow {
        var feature := FindFeature(features, r.tenantId, r.featureId.value);
        if feature.None? {
          decision := Block;
          policyRefs := policyRefs + ["unknown_feature"];
        } else {
          var f := feature.value;
          aiSystemId := f.aiSystemId;
          if !IsActive(f) {
            decision := Block;
            policyRefs := policyRefs + ["feature_not_active"];
          }
          if decision == Allow && f.riskLevel == Some("high") {
            if !HasClearedFria(frias, f) {
              decision := Review;
              policyRefs := policyRefs + ["fria_required"];
            }
          }
        }
      }
      checks := checks + [Check(r.tenantId, r.featureId, aiSystemId, |r.prompt|, decision, policyRefs, Some(r.now))];
    }
  }

  lemma {:induction false} MatchedIff(rules: seq<Rule>, lowered: string, id: string)
    ensures id in Matched(rules, lowered) <==>
              exists k :: 0 <= k < |rules| && rules[k].id == id && Matches(rules[k], lowered)
  {
    if rules != [] {
      var last := |rules| - 1;
      MatchedIff(rules[..last], lowered, id);
      if k :| 0 <= k < |rules| && rules[k].id == id && Matches(rules[k], lowered) {
        if k < last {
          assert rules[..last][k] == rules[k];
        }
      }
    }
  }

  ghost predicate Splits(text: string, before: string, part: string, after: string) {
    text == before + part + after
  }

  ghost predicate Occurs(text: string, part: string) {
    exists before, after :: Splits(text, before, part, after)
  }

  lemma ContainsIff(text: string, part: string)
    ensures Contains(text, part) <==> Occurs(text, part)
  {
    if i :| 0 <= i <= |text| - |part| && OccursAt(text, part, i) {
      assert Splits(text, text[..i], part, text[i + |part|..]);
    }
    if before, after :| Splits(text, before, part, after) {
      assert OccursAt(text, part, |before|);
    }
  }

  /** What content alone blocks: a blocked phrase of either rule, or a prompt over the limit. */
  lemma ContentIsCleanIff(prompt: string, lowered: string)
    ensures Violations(prompt, lowered) == [] <==>
              && |prompt| <= 16000
              && forall k, p :: 0 <= k < |BLOCKED_PATTERNS| && p in BLOCKED_PATTERNS[k].patterns ==> !Occurs(lowered, p)
  {
    forall k | 0 <= k < |BLOCKED_PATTERNS|
      ensures BLOCKED_PATTERNS[k].id in Matched(BLOCKED_PATTERNS, lowered) <==> Matches(BLOCKED_PATTERNS[k], lowered)
    {
      MatchedIff(BLOCKED_PATTERNS, lowered, BLOCKED_PATTERNS[k].id);
      assert BLOCKED_PATTERNS[0].id[0] != BLOCKED_PATTERNS[1].id[0];
    }
    if Matched(BLOCKED_PATTERNS, lowered) != [] {
      MatchedIff(BLOCKED_PATTERNS, lowered, Matched(BLOCKED_PATTERNS, lowered)[0]);
    }
    forall p
      ensures Contains(lowered, p) <==> Occurs(lowered, p)
    {
      ContainsIff(lowered, p);
    }
  }

  ghost predicate Names(f: Feature, r: Request) {
    r.featureId.Some? && f.tenantId == r.tenantId && (f.featureId == r.featureId.value || f.pk == r.featureId.value)
  }

  /** The first of the tenant's features that the request names, by its id or its key. */
  ghost predicate IsNamed(features: seq<Feature>, r: Request, k: nat) {
    k < |features| && Names(features[k], r) && forall j :: 0 <= j < k ==> !Names(features[j], r)
  }

  lemma {:induction false} FoundIsNamed(features: seq<Feature>, r: Request) returns (k: nat)
    requires r.featureId.Some? && FindFeature(features, r.tenantId, r.featureId.value).Some?
    ensures IsNamed(features, r, k) && FindFeature(features, r.tenantId, r.featureId.value).value == features[k]
  {
    if IsFeature(features[0], r.tenantId, r.featureId.value) {
      k := 0;
    } else {
      var rest := FoundIsNamed(features[1..], r);
      k := rest + 1;
      assert forall j :: 0 < j < k ==> features[1..][j - 1] == features[j];
    }
  }

  /** An approved or completed impact assessment of the feature's system is on file. */
  ghost predicate IsAssessed(frias: seq<Fria>, f: Feature) {
    exists a :: a in frias && a.tenantId == f.tenantId && f.aiSystemId == Some(a.aiSystemId) && a.aiSystemId != ""
                && (a.status == "approved" || a.status == "completed")
  }

  /** How a named feature decides about a clean prompt. */
  ghost predicate FeatureDecides(f: Feature, frias: seq<Fria>, decision: Decision, refs: seq<string>) {
    if f.complianceStatus.Some? && f.complianceStatus.value != "active" && f.complianceStatus.value != "approved" then
      decision == Block && refs == ["feature_not_active"]
    else if f.riskLevel == Some("high") && !IsAssessed(frias, f) then decision == Review && refs == ["fria_required"]
    else decision == Allow && refs == []
  }

  lemma AssessedIff(frias: seq<Fria>, f: Feature)
    ensures HasClearedFria(frias, f) <==> IsAssessed(frias, f)
  {
  }

  lemma NamedIsOne(features: seq<Feature>, r: Request, j: nat, k: nat)
    requires IsNamed(features, r, j) && IsNamed(features, r, k)
    ensures j == k
  {
    assert Names(features[j], r) && Names(features[k], r);
  }

  /** Whether a prompt that is clean goes through, from the feature and assessment rows alone. */
  lemma CleanPromptsAre(features: seq<Feature>, frias: seq<Fria>, r: Request, decision: Decision, refs: seq<string>)
    requires Verdict(features, frias, r, decision, refs) && Violations(r.prompt, r.lowered) == []
    ensures !Truthy(r.featureId) ==> decision == Allow && refs == [] && LoggedSystem(features, r) == None
    ensures Truthy(r.featureId) && (forall k :: 0 <= k < |features| ==> !Names(features[k], r)) ==>
              decision == Block && refs == ["unknown_feature"] && LoggedSystem(features, r) == None
    ensures forall k: nat :: Truthy(r.featureId) && IsNamed(features, r, k) ==>
              FeatureDecides(features[k], frias, decision, refs) && LoggedSystem(features, r) == features[k].aiSystemId
  {
    hide FindFeature, Violations;
    forall j: nat | Truthy(r.featureId) && IsNamed(features, r, j)
      ensures FeatureDecides(features[j], frias, decision, refs) && LoggedSystem(features, r) == features[j].aiSystemId
    {
      assert IsFeature(features[j], r.tenantId, r.featureId.value);
      var k := FoundIsNamed(features, r);
      NamedIsOne(features, r, j, k);
      AssessedIff(frias, features[k]);
      hide HasClearedFria, IsAssessed;
    }
  }
}
