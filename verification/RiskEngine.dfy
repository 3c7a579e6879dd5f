/**
 Risk scoring of a text (app/services/risk_engine.py) and the final verdict the chat
 pipeline draws from two scans (app/services/pipeline.py:277-298).

 Regular-expression search, substring search and lower-casing are parameters.
 */
module RiskEngine {
  import opened Common

  datatype Severity = Low | Medium | High | Critical

  datatype Level = LowRisk | MediumRisk | HighRisk

  /** A rule of a table: it fires on the first of `terms` found. */
  datatype Rule = Rule(ruleId: string, group: string, severity: Severity, action: string, terms: seq<string>)

  datatype RuleResult = RuleResult(ruleId: string, group: string, severity: Severity, action: string, trigger: string)

  datatype Risk = Risk(level: Level, score: nat, results: seq<RuleResult>, triggered: seq<string>)

  datatype Matcher = Matcher(
    search: (string, string) -> bool,    // re.search(pattern, text)
    contains: (string, string) -> bool,  // term in text
    lower: string -> string)

  const MAX_RISK_INPUT := 4000

  /** `terms` holds the name of the rule's regular expression. */
  const PII_RULES: seq<Rule> := [
    Rule("pii.email.detected", "pii", Medium, "redact", ["email"]),
    Rule("pii.phone.detected", "pii", Medium, "redact", ["phone"]),
    Rule("pii.credit_card.possible", "pii", High, "redact", ["credit card-like number"]),
    Rule("pii.iban.possible", "pii", Medium, "redact", ["IBAN-like identifier"])]

  const SECRET_RULES: seq<Rule> := [
    Rule("secret.keyword.password", "secrets", High, "block", ["password"]),
    Rule("secret.keyword.api_key", "secrets", High, "block", ["api key"]),
    Rule("secret.keyword.private_key", "secrets", High, "block", ["private key"]),
    Rule("secret.keyword.secret_token", "secrets", High, "block", ["secret token"]),
    Rule("secret.keyword.bearer_token", "secrets", High, "block", ["bearer token"])]

  const DOMAIN_RULES: seq<Rule> := [
    Rule("regulated.employment", "regulated_domain", Medium, "review",
         ["hiring", "employment", "resume screening", "candidate ranking"]),
    Rule("regulated.finance", "regulated_domain", Medium, "review",
         ["credit scoring", "loan approval", "insurance pricing"]),
    Rule("regulated.healthcare", "regulated_domain", Medium, "review",
         ["medical diagnosis", "patient treatment", "healthcare triage"]),
    Rule("regulated.education", "regulated_domain", Medium, "review", ["student scoring", "education admission"])]

  function FirstHit(terms: seq<string>, hit: string -> bool): (h: Option<string>)
    ensures h.Some? ==> h.value in terms && hit(h.value)
    ensures h.None? <==> forall t :: t in terms ==> !hit(t)
  {
    if terms == [] then None
    else if hit(terms[0]) then Some(terms[0])
    else FirstHit(terms[1..], hit)
  }

  function Fire(r: Rule, trigger: string): RuleResult {
    RuleResult(r.ruleId, r.group, r.severity, r.action, trigger)
  }

  /** The results of a rule table, in table order. */
  function Fired(rules: seq<Rule>, hit: string -> bool): (results: seq<RuleResult>)
    ensures |results| <= |rules|
  {
    if rules == [] then [] else
    var n := |rules| - 1;
    var before := Fired(rules[..n], hit);
    match FirstHit(rules[n].terms, hit)
    case Some(t) => before + [Fire(rules[n], t)]
    case None => before
  }

  /** The rule's result, naming the first of its terms that is found. */
  ghost predicate IsResultOf(x: RuleResult, r: Rule, hit: string -> bool) {
    && x.ruleId == r.ruleId && x.group == r.group && x.severity == r.severity && x.action == r.action
    && exists k :: 0 <= k < |r.terms| && r.terms[k] == x.trigger && hit(r.terms[k])
                   && forall j :: 0 <= j < k ==> !hit(r.terms[j])
  }

  lemma {:induction false} FirstHitIff(terms: seq<string>, hit: string -> bool, h: string)
    ensures FirstHit(terms, hit) == Some(h) <==>
            exists k :: 0 <= k < |terms| && terms[k] == h && hit(terms[k]) && forall j :: 0 <= j < k ==> !hit(terms[j])
  {
    if terms != [] && !hit(terms[0]) {
      FirstHitIff(terms[1..], hit, h);
      if k :| 0 <= k < |terms[1..]| && terms[1..][k] == h && hit(terms[1..][k])
              && forall j :: 0 <= j < k ==> !hit(terms[1..][j]) {
        assert terms[k + 1] == h && forall j :: 0 <= j < k + 1 ==> !hit(terms[j]);
      }
      if k :| 0 <= k < |terms| && terms[k] == h && hit(terms[k]) && forall j :: 0 <= j < k ==> !hit(terms[j]) {
        assert terms[1..][k - 1] == h && forall j :: 0 <= j < k - 1 ==> !hit(terms[1..][j]);
      }
    }
  }

  lemma FiresIff(r: Rule, hit: string -> bool, x: RuleResult)
    ensures (FirstHit(r.terms, hit).Some? && x == Fire(r, FirstHit(r.terms, hit).value)) <==> IsResultOf(x, r, hit)
  {
    hide FirstHit;
    FirstHitIff(r.terms, hit, x.trigger);
  }

  /** A rule is reported exactly when one of its terms is found, by the first of them. */
  lemma {:induction false} FiredIff(rules: seq<Rule>, hit: string -> bool, x: RuleResult)
    ensures x in Fired(rules, hit) <==> exists r :: r in rules && IsResultOf(x, r, hit)
  {
    if rules != [] {
      hide IsResultOf, FirstHit;
      var n := |rules| - 1;
      FiredIff(rules[..n], hit, x);
      FiresIff(rules[n], hit, x);
      assert rules == rules[..n] + [rules[n]];
    }
  }

  function Points(s: Severity): nat {
    match s
    case Low => 10
    case Medium => 25
    case High => 40
    case Critical => 60
  }

  function Total(results: seq<RuleResult>): nat {
    if results == [] then 0 else Total(results[..|results| - 1]) + Points(results[|results| - 1].severity)
  }

  /** The score counts 10, 25, 40 and 60 points for each result of a severity. */
  lemma {:induction false} TotalIsWeighted(results: seq<RuleResult>)
    ensures Total(results) == 10 * |Places(results, (x: RuleResult) => x.severity == Low)|
                              + 25 * |Places(results, (x: RuleResult) => x.severity == Medium)|
                              + 40 * |Places(results, (x: RuleResult) => x.severity == High)|
                              + 60 * |Places(results, (x: RuleResult) => x.severity == Critical)|
  {
    if results != [] {
      var n := |results| - 1;
      TotalIsWeighted(results[..n]);
      PlacesStep(results, (x: RuleResult) => x.severity == Low);
      PlacesStep(results, (x: RuleResult) => x.severity == Medium);
      PlacesStep(results, (x: RuleResult) => x.severity == High);
      PlacesStep(results, (x: RuleResult) => x.severity == Critical);
    }
  }

  /** No rule of the tables is worth less than 25 points. */
  ghost predicate WeighsAtLeast25(results: seq<RuleResult>) {
    forall k :: 0 <= k < |results| ==> results[k].severity in [Medium, High]
  }

  predicate NoneIsLow(rules: seq<Rule>) {
    forall k :: 0 <= k < |rules| ==> rules[k].severity in [Medium, High]
  }

  lemma NoRuleIsLow()
    ensures NoneIsLow(PII_RULES) && NoneIsLow(SECRET_RULES) && NoneIsLow(DOMAIN_RULES)
  {
  }

  lemma {:induction false} FiredWeighsAtLeast25(rules: seq<Rule>, hit: string -> bool)
    requires NoneIsLow(rules)
    ensures WeighsAtLeast25(Fired(rules, hit))
  {
    if rules != [] {
      FiredWeighsAtLeast25(rules[..|rules| - 1], hit);
    }
  }

  lemma {:induction false} TotalAtLeast25(results: seq<RuleResult>)
    requires WeighsAtLeast25(results)
    ensures Total(results) >= 25 * |results|
  {
    if results != [] {
      TotalAtLeast25(results[..|results| - 1]);
    }
  }

  // ---- Sorted rule ids -----------------------------------------------------------------------

  ghost predicate Ascending(ids: seq<string>) {
    forall i, j :: 0 <= i < j < |ids| ==> Less(ids[i], ids[j])
  }

  function InsertId(ids: seq<string>, id: string): (r: seq<string>)
    ensures forall x :: x in r <==> x in ids || x == id
  {
    if ids == [] then [id]
    else if ids[0] == id then ids
    else if Less(id, ids[0]) then [id] + ids
    else [ids[0]] + InsertId(ids[1..], id)
  }

  lemma {:induction false} InsertKeepsAscending(ids: seq<string>, id: string)
    requires Ascending(ids)
    ensures Ascending(InsertId(ids, id))
  {
    if ids != [] {
      LessIsTotal(id, ids[0]);
      var r := InsertId(ids, id);
      if Less(id, ids[0]) {
        forall j | 0 < j < |r|
          ensures Less(r[0], r[j])
        {
          if j > 1 {
            LessIsTransitive(id, ids[0], ids[j - 1]);
          }
        }
      } else if ids[0] != id {
        InsertKeepsAscending(ids[1..], id);
        forall j | 0 < j < |r|
          ensures Less(r[0], r[j])
        {
          assert r[j] in InsertId(ids[1..], id);
          if r[j] != id {
            var k :| 0 <= k < |ids[1..]| && ids[1..][k] == r[j];
            assert Less(ids[0], ids[k + 1]);
          }
        }
      }
    }
  }

  /** `sorted({r["rule_id"] for r in results})`. */
  function TriggeredIds(results: seq<RuleResult>): (ids: seq<string>)
    ensures forall id :: id in ids <==> exists k :: 0 <= k < |results| && results[k].ruleId == id
  {
    if results == [] then [] else InsertId(TriggeredIds(results[..|results| - 1]), results[|results| - 1].ruleId)
  }

  lemma {:induction false} TriggeredIdsAscend(results: seq<RuleResult>)
    ensures Ascending(TriggeredIds(results))
  {
    if results != [] {
      TriggeredIdsAscend(results[..|results| - 1]);
      InsertKeepsAscending(TriggeredIds(results[..|results| - 1]), results[|results| - 1].ruleId);
    }
  }

  // ---- Assessment ----------------------------------------------------------------------------

  function LevelOf(score: nat): Level {
    if score >= 60 then HighRisk else if score >= 25 then MediumRisk else LowRisk
  }

  function Truncated(text: string): string {
    if |text| <= MAX_RISK_INPUT then text else text[..MAX_RISK_INPUT]
  }

  function Joined(values: seq<string>): string {
    if values == [] then "" else if |values| == 1 then values[0]
        else Joined(values[..|values| - 1]) + " " + values[|values| - 1]
  }

  function Lowered(m: Matcher, values: seq<string>): (r: seq<string>)
  {
    seq(|values|, k requires 0 <= k < |values| => m.lower(values[k]))
  }

  function AllResults(m: Matcher, text: string, context: seq<string>): seq<RuleResult> {
    var t := Truncated(text);
    var haystack := m.lower(t) + " " + Joined(Lowered(m, context));
    Fired(PII_RULES, term => m.search(term, t))
    + Fired(SECRET_RULES, term => m.contains(term, m.lower(t)))
    + Fired(DOMAIN_RULES, term => m.contains(term, haystack))
  }

  function Assess(m: Matcher, text: string, context: seq<string>): Risk {
    var results := AllResults(m, text, context);
    var score := if Total(results) <= 100 then Total(results) else 100;
    Risk(LevelOf(score), score, results, TriggeredIds(results))
  }

  method PiiRules(table: seq<Rule>, m: Matcher, text: string) returns (rules: seq<RuleResult>)
    requires forall k :: 0 <= k < |table| ==> |table[k].terms| == 1
    ensures rules == Fired(table, term => m.search(term, text))
  {
    var hit := term => m.search(term, text);
    rules := [];
    for i := 0 to |table|
      invariant rules == Fired(table[..i], hit)
    {
      assert table[..i + 1][..i] == table[..i];
      var term := table[i].terms[0];
      assert FirstHit(table[i].terms, hit) == if hit(term) then Some(term) else None;
      if m.search(term, text) {
        rules := rules + [Fire(table[i], term)];
      }
    }
    assert table[..|table|] == table;
  }

  method RegulatedDomainRules(table: seq<Rule>, m: Matcher, haystack: string) returns (rules: seq<RuleResult>)
    ensures rules == Fired(table, term => m.contains(term, haystack))
  {
    var hit := term => m.contains(term, haystack);
    rules := [];
    for i := 0 to |table|
      invariant rules == Fired(table[..i], hit)
    {
      assert table[..i + 1][..i] == table[..i];
      var terms := table[i].terms;
      ghost var before := rules;
      for j := 0 to |terms|
        invariant rules == before
        invariant FirstHit(terms, hit) == FirstHit(terms[j..], hit)
      {
        if m.contains(terms[j], haystack) {
          rules := rules + [Fire(table[i], terms[j])];
          break;
        }
      }
    }
    assert table[..|table|] == table;
  }

  method AssessRisk(m: Matcher, text: string, context: seq<string>) returns (risk: Risk)
    ensures risk == Assess(m, text, context)
  {
    var t := Truncated(text);
    var pii := PiiRules(PII_RULES, m, t);
    var secrets := Fired(SECRET_RULES, term => m.contains(term, m.lower(t)));
    var domains := RegulatedDomainRules(DOMAIN_RULES, m, m.lower(t) + " " + Joined(Lowered(m, context)));
    var results := pii + secrets + domains;
    var score := if Total(results) <= 100 then Total(results) else 100;
    risk := Risk(LevelOf(score), score, results, TriggeredIds(results));
  }

  lemma AllWeighAtLeast25(m: Matcher, text: string, context: seq<string>)
    ensures WeighsAtLeast25(AllResults(m, text, context))
  {
    var t := Truncated(text);
    var haystack := m.lower(t) + " " + Joined(Lowered(m, context));
    NoRuleIsLow();
    FiredWeighsAtLeast25(PII_RULES, term => m.search(term, t));
    FiredWeighsAtLeast25(SECRET_RULES, term => m.contains(term, m.lower(t)));
    FiredWeighsAtLeast25(DOMAIN_RULES, term => m.contains(term, haystack));
  }

  /** `" ".join(values)`, read from the left. */
  lemma {:induction false} JoinedFromTheLeft(values: seq<string>)
    ensures Joined(values) == if values == [] then "" else if |values| == 1 then values[0]
                              else values[0] + " " + Joined(values[1..])
  {
    if |values| > 2 {
      var n := |values| - 1;
      JoinedFromTheLeft(values[..n]);
      assert values[..n][1..] == values[1..][..n - 1];
    }
  }

  /** What is reported: each table's rules, by the text that table looks at; no text counts beyond 4000 characters. */
  lemma ReportedIff(m: Matcher, text: string, context: seq<string>, x: RuleResult)
    ensures var t := if |text| <= 4000 then text else text[..4000];
            var haystack := m.lower(t) + " "
                            + Joined(seq(|context|, k requires 0 <= k < |context| => m.lower(context[k])));
            x in Assess(m, text, context).results <==>
              || (exists r :: r in PII_RULES && IsResultOf(x, r, term => m.search(term, t)))
              || (exists r :: r in SECRET_RULES && IsResultOf(x, r, term => m.contains(term, m.lower(t))))
              || (exists r :: r in DOMAIN_RULES && IsResultOf(x, r, term => m.contains(term, haystack)))
  {
    hide Fired, Total, IsResultOf, Joined, TriggeredIds;
    var t := Truncated(text);
    var haystack := m.lower(t) + " " + Joined(Lowered(m, context));
    assert Lowered(m, context) == seq(|context|, k requires 0 <= k < |context| => m.lower(context[k]));
    FiredIff(PII_RULES, term => m.search(term, t), x);
    FiredIff(SECRET_RULES, term => m.contains(term, m.lower(t)), x);
    FiredIff(DOMAIN_RULES, term => m.contains(term, haystack), x);
  }

  /** The capped score is the weighted number of results, and 25 and 60 are where the levels begin. */
  lemma ScoreIsExact(m: Matcher, text: string, context: seq<string>)
    ensures var r := Assess(m, text, context);
            var points := 25 * |Places(r.results, (x: RuleResult) => x.severity == Medium)|
                          + 40 * |Places(r.results, (x: RuleResult) => x.severity == High)|;
            && r.score == (if points <= 100 then points else 100)
            && r.level == if points >= 60 then HighRisk else if points >= 25 then MediumRisk else LowRisk
  {
    var results := AllResults(m, text, context);
    TotalIsWeighted(results);
    AllWeighAtLeast25(m, text, context);
    hide AllResults, Total;
    assert Places(results, (x: RuleResult) => x.severity == Low) == {};
    assert Places(results, (x: RuleResult) => x.severity == Critical) == {};
  }

  /** Scores lie in 0..100, level follows score, and anything that fires is worth at least 25. */
  lemma AssessmentIsSound(m: Matcher, text: string, context: seq<string>)
    ensures var r := Assess(m, text, context);
            && r.score <= 100
            && (r.level == HighRisk <==> r.score >= 60)
            && (r.results == [] <==> r.score < 25)
            && (r.results == [] <==> r.score == 0)
            && Ascending(r.triggered)
            && (forall id :: id in r.triggered <==> exists k :: 0 <= k < |r.results| && r.results[k].ruleId == id)
  {
    AllWeighAtLeast25(m, text, context);
    TotalAtLeast25(AllResults(m, text, context));
    TriggeredIdsAscend(AllResults(m, text, context));
  }

  lemma RulesAreGraded(r: Rule)
    requires r in PII_RULES || r in SECRET_RULES || r in DOMAIN_RULES
    ensures r.group in ["pii", "secrets", "regulated_domain"]
    ensures r.severity == if r.group == "secrets" || r.ruleId == "pii.credit_card.possible" then High else Medium
    ensures r.action == if r.group == "pii" then "redact" else if r.group == "secrets" then "block" else "review"
  {
    assert |"pii"| == 3 && |"secrets"| == 7 && |"pii.credit_card.possible"| == 24;
  }

  /** What a reported rule weighs and asks for follows from its group; only the card number stands out. */
  lemma ResultsAreGraded(m: Matcher, text: string, context: seq<string>, x: RuleResult)
    requires x in Assess(m, text, context).results
    ensures x.group in ["pii", "secrets", "regulated_domain"]
    ensures x.severity == if x.group == "secrets" || x.ruleId == "pii.credit_card.possible" then High else Medium
    ensures x.action == if x.group == "pii" then "redact" else if x.group == "secrets" then "block" else "review"
  {
    var t := if |text| <= 4000 then text else text[..4000];
    var haystack := m.lower(t) + " "
                    + Joined(seq(|context|, k requires 0 <= k < |context| => m.lower(context[k])));
    ReportedIff(m, text, context, x);
    hide Assess, Joined;
    var r :| (r in PII_RULES || r in SECRET_RULES || r in DOMAIN_RULES)
             && x.ruleId == r.ruleId && x.group == r.group && x.severity == r.severity && x.action == r.action;
    RulesAreGraded(r);
  }

  lemma OnlyTermIsReported(r: Rule, hit: string -> bool)
    requires |r.terms| == 1 && hit(r.terms[0])
    ensures IsResultOf(RuleResult(r.ruleId, r.group, r.severity, r.action, r.terms[0]), r, hit)
  {
  }

  lemma SecretIsReported(m: Matcher, text: string, context: seq<string>, r: Rule) returns (k: nat)
    requires r in SECRET_RULES && |r.terms| == 1
    requires m.contains(r.terms[0], m.lower(if |text| <= 4000 then text else text[..4000]))
    ensures var results := Assess(m, text, context).results;
            k < |results| && results[k] == RuleResult(r.ruleId, r.group, r.severity, r.action, r.terms[0])
  {
    hide Assess, IsResultOf, Joined;
    var t := m.lower(if |text| <= 4000 then text else text[..4000]);
    OnlyTermIsReported(r, term => m.contains(term, t));
    var x := RuleResult(r.ruleId, r.group, r.severity, r.action, r.terms[0]);
    ReportedIff(m, text, context, x);
    var results := Assess(m, text, context).results;
    k :| 0 <= k < |results| && results[k] == x;
  }

  const SECRETS: seq<string> := ["password", "api key", "private key", "secret token", "bearer token"]

  lemma SecretsAreRules(i: nat) returns (r: Rule)
    requires i < |SECRETS|
    ensures r in SECRET_RULES && r.terms == [SECRETS[i]] && r.severity == High
  {
    r := SECRET_RULES[i];
  }

  lemma TwoHighResults(m: Matcher, text: string, context: seq<string>, a: nat, b: nat)
    requires var results := Assess(m, text, context).results;
             a < |results| && b < |results| && a != b && results[a].severity == results[b].severity == High
    ensures Assess(m, text, context).level == HighRisk && Assess(m, text, context).score >= 80
  {
    hide Assess;
    ScoreIsExact(m, text, context);
    var high := Places(Assess(m, text, context).results, (x: RuleResult) => x.severity == High);
    assert {a, b} <= high && |{a, b}| == 2;
    SubsetIsSmaller({a, b}, high);
  }

  /** Two different secrets in the first 4000 characters make any text high risk. */
  lemma TwoSecretsAreHighRisk(m: Matcher, text: string, context: seq<string>, i: nat, j: nat)
    requires i < |SECRETS| && j < |SECRETS| && SECRETS[i] != SECRETS[j]
    requires var t := m.lower(if |text| <= 4000 then text else text[..4000]);
             m.contains(SECRETS[i], t) && m.contains(SECRETS[j], t)
    ensures Assess(m, text, context).level == HighRisk && Assess(m, text, context).score >= 80
  {
    var r := SecretsAreRules(i);
    var s := SecretsAreRules(j);
    hide Assess;
    var a := SecretIsReported(m, text, context, r);
    var b := SecretIsReported(m, text, context, s);
    TwoHighResults(m, text, context, a, b);
  }

  // ---- The verdict ------------------------------------------------------------------------------

  datatype Verdict = Verdict(decision: string, risk: Risk)

  /** No rule of the table has a term that is found. */
  ghost predicate NoneFound(rules: seq<Rule>, hit: string -> bool) {
    forall r, term :: r in rules && term in r.terms ==> !hit(term)
  }

  lemma {:induction false} NothingFiresIff(rules: seq<Rule>, hit: string -> bool)
    ensures Fired(rules, hit) == [] <==> NoneFound(rules, hit)
  {
    if rules != [] {
      var n := |rules| - 1;
      NothingFiresIff(rules[..n], hit);
      assert rules == rules[..n] + [rules[n]];
    }
  }

  /** A text scores zero exactly when no rule of a table has a term found in the text that table looks at. */
  lemma ScoresZeroIff(m: Matcher, text: string, context: seq<string>)
    ensures var t := if |text| <= 4000 then text else text[..4000];
            var haystack := m.lower(t) + " " + Joined(Lowered(m, context));
            Assess(m, text, context).score == 0 <==>
              && NoneFound(PII_RULES, term => m.search(term, t))
              && NoneFound(SECRET_RULES, term => m.contains(term, m.lower(t)))
              && NoneFound(DOMAIN_RULES, term => m.contains(term, haystack))
  {
    hide Fired, Total, NoneFound, Ascending, Joined, Lowered;
    var t := Truncated(text);
    var haystack := m.lower(t) + " " + Joined(Lowered(m, context));
    AssessmentIsSound(m, text, context);
    NothingFiresIff(PII_RULES, term => m.search(term, t));
    NothingFiresIff(SECRET_RULES, term => m.contains(term, m.lower(t)));
    NothingFiresIff(DOMAIN_RULES, term => m.contains(term, haystack));
  }

  function FinalVerdict(pre: Risk, post: Risk, candidate: bool): Verdict {
    var score := if pre.score >= post.score then pre.score else post.score;
    var results := pre.results + post.results;
    var decision :=
      if score >= 60 then "flag"
      else if score >= 25 then "allow_with_warning"
      else if candidate then "allow_with_warning"
      else "allow";
    Verdict(decision, Risk(LevelOf(score), score, results, TriggeredIds(results)))
  }

  /**
   For a request whose pre-check was not high: it is flagged exactly when the output
   scores 60 or more, allowed outright exactly when neither scan fired a rule and the
   version is no candidate; the ids are the sorted distinct union of both scans'.
   */
  lemma VerdictIsExact(m: Matcher, input: string, output: string, context: seq<string>, candidate: bool)
    requires Assess(m, input, context).level != HighRisk
    ensures var pre, post := Assess(m, input, context), Assess(m, output, context);
            var v := FinalVerdict(pre, post, candidate);
            && (v.decision == "flag" <==> post.score >= 60)
            && (v.decision == "allow" <==> pre.results == [] && post.results == [] && !candidate)
            && (v.decision in ["flag", "allow", "allow_with_warning"])
            && v.risk.score <= 100 && pre.score <= v.risk.score && post.score <= v.risk.score
               && v.risk.score in [pre.score, post.score]
            && Ascending(v.risk.triggered)
            && (forall id :: id in v.risk.triggered <==> id in pre.triggered || id in post.triggered)
  {
    hide Assess, TriggeredIds, Ascending, Total;
    AssessmentIsSound(m, input, context);
    AssessmentIsSound(m, output, context);
    var pre, post := Assess(m, input, context), Assess(m, output, context);
    var results := pre.results + post.results;
    TriggeredIdsAscend(results);
    forall id
      ensures id in TriggeredIds(results) <==> id in pre.triggered || id in post.triggered
    {
      if k :| 0 <= k < |pre.results| && pre.results[k].ruleId == id {
        assert results[k].ruleId == id;
      }
      if k :| 0 <= k < |post.results| && post.results[k].ruleId == id {
        assert results[|pre.results| + k].ruleId == id;
      }
    }
  }
}
