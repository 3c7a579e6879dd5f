/**
 What a governed request leaves on record (app/services/pipeline.py:104-317): a stopped
 request is filed under the first stage that refused it, with an open review task for it,
 and a completed one carries its verdict and the feature it ran for.
 */
module ChatRecords {
  import opened Common
  import opened EvidenceChain
  import opened ChatPipeline
  import opened ChatGuarantees
  import FL = FeatureLifecycle
  import Risk = RiskEngine
  import RT = ReviewTasks

  // ---- The table of refusals ---------------------------------------------------------------------------

  /** What a call makes of its review task: what a new task holds, and what a known one remembers as latest. */
  datatype TaskFiling = TaskFiling(key: RT.Key, severity: string, findings: RT.Findings, system: Option<string>)

  /** How a refusal is filed: its evidence event, its review task, the version its event names. */
  datatype Filing = Filing(
    eventType: string, decision: string, riskScore: nat, warnings: seq<string>, task: TaskFiling,
    eventVersion: Option<string>)

  function KeyOf(db: Db, req: Request): Option<string> {
    if IsRegistered(db, req) then Some(FeatureOf(db, req).feature.pk) else None
  }

  function SystemOf(db: Db, req: Request): Option<string> {
    if IsRegistered(db, req) then FeatureOf(db, req).feature.aiSystemId else None
  }

  /** The version that fits the request's configuration, found or made. */
  function VersionOf(cfg: Settings, db: Db, req: Request, env: Env): Option<string> {
    if IsRegistered(db, req)
    then Some(FL.Ensure(FeatureOf(db, req), ConfigOf(cfg, req), env.versionId, env.now).1.versionId)
    else None
  }

  function TaskFor(db: Db, req: Request, env: Env, version: Option<string>, reviewType: string, reason: string,
                   severity: string): TaskFiling {
    TaskFiling(RT.Key(req.tenantId, Some(NamedFeature(req)), KeyOf(db, req), version, reviewType, reason), severity,
               map["request_id" := env.requestId], SystemOf(db, req))
  }

  function PolicyFiling(db: Db, req: Request, env: Env, version: Option<string>, reason: string): Filing {
    Filing("request_blocked_feature_policy", "block", 60, [],
           TaskFor(db, req, env, version, "feature_governance", reason, "high"), None)
  }

  function CandidateFiling(db: Db, req: Request, env: Env, version: Option<string>, policy: CandidatePolicy): Filing {
    Filing(
      if policy == BlockCandidate then "request_blocked_candidate_version" else "request_quarantined_candidate_version",
      if policy == BlockCandidate then "block" else "quarantine", 60, ["candidate_feature_version"],
      TaskFor(db, req, env, version, "change_triggered", "candidate_version_requires_review", "medium"), version)
  }

  /** The warnings a request that passed the gate carries. */
  function WarningsOf(cfg: Settings, db: Db, req: Request, env: Env): seq<string> {
    if !Truthy(req.featureId) then ["missing_feature_id"]
    else if !NamesFeature(req) then []
    else if !IsRegistered(db, req) then ["unknown_feature_allowed_in_warn_mode"]
    else if FL.Ensure(FeatureOf(db, req), ConfigOf(cfg, req), env.versionId, env.now).1.status == FL.Candidate
    then ["candidate_feature_version"]
    else []
  }

  function PreCheckFiling(db: Db, req: Request, env: Env, version: Option<string>, score: nat,
                          warnings: seq<string>): Filing {
    Filing("request_blocked_pre_check", "block", score, warnings,
           TaskFor(db, req, env, version, "risk_review", "high_risk_pre_check", "high"), version)
  }

  /** Why the feature gate stops a request that names a feature, if it does. */
  function GateRefusal(cfg: Settings, db: Db, req: Request, env: Env): Option<Filing>
    requires NamesFeature(req)
  {
    if !IsRegistered(db, req) then
      if cfg.enforcement == Warn then None else Some(PolicyFiling(db, req, env, None, "feature_not_registered"))
    else
      var f, c := FeatureOf(db, req).feature, ConfigOf(cfg, req);
      if f.complianceStatus == "blocked" || f.complianceStatus == "inactive" then
        Some(PolicyFiling(db, req, env, None, "feature_not_active"))
      else if f.approvedProviders != [] && c.provider !in f.approvedProviders then
        Some(PolicyFiling(db, req, env, None, "provider_not_approved"))
      else if f.approvedModels != [] && c.model !in f.approvedModels then
        Some(PolicyFiling(db, req, env, None, "model_not_approved"))
      else
        var version := VersionOf(cfg, db, req, env);
        match FL.Ensure(FeatureOf(db, req), c, env.versionId, env.now).1.status
        case Rejected => Some(PolicyFiling(db, req, env, version, "version_rejected"))
        case Superseded => Some(PolicyFiling(db, req, env, version, "version_superseded"))
        case Approved => None
        case Candidate =>
          if cfg.candidatePolicy == AllowWithWarning then None
          else Some(CandidateFiling(db, req, env, version, cfg.candidatePolicy))
  }

  /** The first ground for stopping a request, in the order the stages look for one. */
  function FirstRefusal(cfg: Settings, db: Db, req: Request, env: Env): Option<Filing> {
    var missing := TaskFor(db, req, env, None, "feature_registration", "missing_feature_id", "medium");
    var input := Risk.Assess(cfg.matcher, req.text, req.policyContext);
    if !Truthy(req.featureId) && cfg.enforcement == BlockMissing then
      Some(Filing("request_blocked_missing_feature", "block", 60, ["missing_feature_id"], missing, None))
    else if !Truthy(req.featureId) && cfg.enforcement == QuarantineMissing then
      Some(Filing("request_quarantined", "quarantine", 60, ["missing_feature_id"], missing, None))
    else if NamesFeature(req) && GateRefusal(cfg, db, req, env).Some? then
      GateRefusal(cfg, db, req, env)
    else if input.score >= 60 then
      Some(PreCheckFiling(db, req, env, VersionOf(cfg, db, req, env), input.score, WarningsOf(cfg, db, req, env)))
    else None
  }

  // ---- What is on record -------------------------------------------------------------------------------

  ghost predicate IsTouched(task: RT.Task, t: TaskFiling, now: int) {
    && task.status == RT.Open && task.key == t.key && task.lastSeenAt == now
    && (t.system.Some? ==> task.aiSystemId.Some?)
    && if task.latest.None? then
         task.occurrences == 1 && task.severity == t.severity && task.findings == t.findings
         && task.aiSystemId == t.system
       else task.latest == Some(t.findings)
  }

  /** An open task of that very key which this request opened or touched. */
  ghost predicate HasOpenTask(tasks: seq<RT.Task>, t: TaskFiling, now: int) {
    exists k :: 0 <= k < |tasks| && IsTouched(tasks[k], t, now)
  }

  /** The context names the requested feature, with the row's keys when it is registered. */
  ghost predicate NamesTheFeature(db: Db, req: Request, ctx: Ctx) {
    ctx.featureId == NamedFeature(req) && ctx.featurePk == KeyOf(db, req) && ctx.aiSystemId == SystemOf(db, req)
  }

  /** The event is stamped with the clocks of this request and names its tenant, feature and system. */
  ghost predicate IsAbout(db: Db, e: Row, req: Request, env: Env) {
    var d := e.evidence.data;
    && e.evidence.timestamp == env.timestamp && e.createdAt == env.createdAt
    && d.tenantId == req.tenantId && d.requestId == env.requestId && d.featureId == Some(NamedFeature(req))
    && d.featurePk == KeyOf(db, req) && d.aiSystemId == SystemOf(db, req)
  }

  /** The event repeats the response's status, but for a misspelt "quarantined". */
  function StatusOnRecord(eventType: string, status: string): string {
    if eventType == "request_quarantined_candidate_version" then "quarantineed" else status
  }

  /** Response, last event and review tasks of the new tables record the refusal of this request. */
  ghost predicate IsFiled(db: Db, db': Db, resp: Response, req: Request, env: Env, f: Filing) {
    && resp.Stopped? && db'.log != []
    && resp.status == (if f.decision == "block" then "blocked" else "quarantined")
    && resp.eventHash == Last(db').hash && resp.eventId == Last(db').eventId == env.eventId
    && Last(db').eventType == f.eventType
    && var d := Last(db').evidence.data;
    && d.decision == f.decision && d.status == StatusOnRecord(f.eventType, resp.status)
    && d.riskScore == f.riskScore && d.riskLevel == "high" && d.metadataWarnings == f.warnings
    && IsAbout(db, Last(db'), req, env) && d.featureVersionId == f.eventVersion
    && HasOpenTask(db'.tasks, f.task, env.now)
  }

  ghost predicate StopsAs(db: Db, r: (Db, Flow), req: Request, env: Env, f: Filing) {
    r.1.Return? && IsFiled(db, r.0, r.1.response, req, env, f)
  }

  lemma RaisedTaskIsOpen(db: Db, c: RT.Call)
    requires RaiseTask(db, c).Ok?
    ensures HasOpenTask(RaiseTask(db, c).value.tasks, TaskFiling(c.key, c.severity, c.findings, c.aiSystemId), c.now)
  {
    hide RT.FindOpen, RT.Refused;
    var r := RT.GetOrCreate(db.tasks, c).value;
    assert IsTouched(r.0[r.1], TaskFiling(c.key, c.severity, c.findings, c.aiSystemId), c.now);
  }

  function StatusFor(f: Filing): string {
    if f.decision == "block" then "blocked" else "quarantined"
  }

  lemma StopIsFiled(cfg: Settings, db: Db, raised: Db, req: Request, env: Env, ctx: Ctx, f: Filing, risk: Risk.Risk)
    requires HasOpenTask(raised.tasks, f.task, env.now)
    requires NamesTheFeature(db, req, ctx) && ctx.featureVersionId == f.eventVersion && ctx.warnings == f.warnings
    requires risk.score == f.riskScore && risk.level == Risk.HighRisk
    ensures StopsAs(db, Stop(cfg, raised, req, env, ctx, f.eventType, f.decision, StatusFor(f), risk), req, env, f)
  {
    hide HasOpenTask, KeyOf, SystemOf, NamedFeature;
  }

  lemma MissingIsFiled(cfg: Settings, db: Db, req: Request, env: Env)
    requires TasksOk(db.tasks) && !Truthy(req.featureId) && cfg.enforcement != Warn
    ensures FirstRefusal(cfg, db, req, env).Some?
    ensures StopsAs(db, IdentifyFeature(cfg, db, req, env), req, env, FirstRefusal(cfg, db, req, env).value)
  {
    hide TasksOk, HasOpenTask, Stop, RaiseTask, StopsAs;
    var ctx := Ctx(UNMAPPED, None, None, None, ["missing_feature_id"]);
    var c := TaskCall(req, env, ctx, "feature_registration", "missing_feature_id", "medium", None, env.missingTaskId);
    TaskIsRaised(db, c);
    RaisedTaskIsOpen(db, c);
    var f := FirstRefusal(cfg, db, req, env).value;
    StopIsFiled(cfg, db, RaiseTask(db, c).value, req, env, ctx, f,
                if f.decision == "block" then GovernanceRisk("feature.missing_id_blocked", "block")
                else GovernanceRisk("feature.missing_id", "quarantine"));
  }

  lemma CandidateIsFiled(cfg: Settings, db: Db, db1: Db, req: Request, env: Env, ctx: Ctx)
    requires TasksOk(db1.tasks) && CtxOk(ctx) && NamesTheFeature(db, req, ctx)
    requires cfg.candidatePolicy != AllowWithWarning && ctx.warnings == []
    ensures StopsAs(db, CandidateStage(cfg, db1, req, env, ctx), req, env,
                    CandidateFiling(db, req, env, ctx.featureVersionId, cfg.candidatePolicy))
  {
    hide TasksOk, HasOpenTask, Stop, RaiseTask, StopsAs, KeyOf, SystemOf;
    var ctx1 := ctx.(warnings := ctx.warnings + ["candidate_feature_version"]);
    var c := TaskCall(req, env, ctx1, "change_triggered", "candidate_version_requires_review", "medium",
                      ctx1.featureVersionId, env.gateTaskId);
    TaskIsRaised(db1, c);
    RaisedTaskIsOpen(db1, c);
    var f := CandidateFiling(db, req, env, ctx.featureVersionId, cfg.candidatePolicy);
    StopIsFiled(cfg, db, RaiseTask(db1, c).value, req, env, ctx1, f,
                if f.decision == "block" then GovernanceRisk("feature.candidate_version_block", "block")
                else GovernanceRisk("feature.candidate_version_quarantine", "quarantine"));
  }

  function BarredVersion(gate: FL.Gate): Option<string>
    requires gate.Refuse?
  {
    if gate.barred.Some? then Some(gate.barred.value.versionId) else None
  }

  lemma RefusalIsFiled(cfg: Settings, db: Db, db1: Db, req: Request, env: Env, ctx: Ctx, gate: FL.Gate)
    requires TasksOk(db1.tasks) && CtxOk(ctx) && NamesTheFeature(db, req, ctx) && ctx.featureVersionId.None?
    requires ctx.warnings == []
    requires gate.Refuse? && !(cfg.enforcement == Warn && gate.reason == FL.NotRegistered)
    ensures StopsAs(db, RefusedStage(cfg, db1, req, env, ctx, gate), req, env,
                    PolicyFiling(db, req, env, BarredVersion(gate), FL.ReasonText(gate)))
  {
    hide TasksOk, HasOpenTask, Stop, RaiseTask, StopsAs, FL.ReasonText, KeyOf, SystemOf;
    var reason := FL.ReasonText(gate);
    var c := TaskCall(req, env, ctx, "feature_governance", reason, "high", BarredVersion(gate), env.gateTaskId);
    TaskIsRaised(db1, c);
    RaisedTaskIsOpen(db1, c);
    StopIsFiled(cfg, db, RaiseTask(db1, c).value, req, env, ctx,
                PolicyFiling(db, req, env, BarredVersion(gate), reason),
                GovernanceRisk("feature." + reason, "block"));
  }

  lemma PreCheckIsFiled(cfg: Settings, db: Db, db1: Db, req: Request, env: Env, ctx: Ctx)
    requires TasksOk(db1.tasks) && CtxOk(ctx) && NamesTheFeature(db, req, ctx)
    requires Risk.Assess(cfg.matcher, req.text, req.policyContext).score >= 60
    ensures StopsAs(db, PreCheckStage(cfg, db1, req, env, ctx), req, env,
                    PreCheckFiling(db, req, env, ctx.featureVersionId,
                                   Risk.Assess(cfg.matcher, req.text, req.policyContext).score, ctx.warnings))
  {
    hide TasksOk, HasOpenTask, Stop, RaiseTask, StopsAs, Risk.Assess, KeyOf, SystemOf;
    Risk.AssessmentIsSound(cfg.matcher, req.text, req.policyContext);
    var c := TaskCall(req, env, ctx, "risk_review", "high_risk_pre_check", "high", ctx.featureVersionId,
                      env.riskTaskId);
    TaskIsRaised(db1, c);
    RaisedTaskIsOpen(db1, c);
    var pre := PreCheck(cfg, req);
    StopIsFiled(cfg, db, RaiseTask(db1, c).value, req, env, ctx,
                PreCheckFiling(db, req, env, ctx.featureVersionId, pre.score, ctx.warnings), pre);
  }

  /** The gate's verdict on a feature, as the refusal table reads it. */
  lemma GateReads(cfg: Settings, db: Db, req: Request, env: Env, v: FL.Validation)
    requires NamesFeature(req) && ValidationOk(cfg, db, req, env, req.featureId.value, v)
    ensures var refusal := GateRefusal(cfg, db, req, env);
            match v.gate
            case Refuse(reason, _) =>
              refusal == if cfg.enforcement == Warn && reason == FL.NotRegistered then None
                         else Some(PolicyFiling(db, req, env, BarredVersion(v.gate), FL.ReasonText(v.gate)))
            case Allow(r) =>
              && VersionOf(cfg, db, req, env) == Some(r.versionId)
              && refusal == if r.status == FL.Candidate && cfg.candidatePolicy != AllowWithWarning
                            then Some(CandidateFiling(db, req, env, Some(r.versionId), cfg.candidatePolicy)) else None
  {
    hide FeaturesOk, TasksOk, FL.Ensure, KeyOf, TaskFor;
    if IsRegistered(db, req) {
      match FL.RowRefusal(FeatureOf(db, req).feature, ConfigOf(cfg, req))
      case Some(_) =>
      case None =>
    }
  }

  /** The context of a request before its feature is looked up. */
  ghost predicate NotLookedUp(req: Request, ctx: Ctx) {
    && ctx.featureId == NamedFeature(req) && ctx.featureId != ""
    && ctx.featurePk.None? && ctx.aiSystemId.None? && ctx.featureVersionId.None?
    && ctx.warnings == if Truthy(req.featureId) then [] else ["missing_feature_id"]
  }

  lemma LookupNamesTheFeature(db: Db, req: Request, ctx: Ctx)
    requires FeaturesOk(db.features) && NamesFeature(req) && NotLookedUp(req, ctx)
    ensures NamesTheFeature(db, req, LookedUp(db, req, ctx)) && CtxOk(LookedUp(db, req, ctx))
    ensures LookedUp(db, req, ctx).featureVersionId.None? && LookedUp(db, req, ctx).warnings == []
  {
    hide FL.Consistent;
  }

  lemma VersionKeepsTheFeature(db: Db, req: Request, ctx: Ctx, id: string)
    requires NamesTheFeature(db, req, ctx)
    ensures NamesTheFeature(db, req, ctx.(featureVersionId := Some(id)))
  {
  }

  lemma GateIsFiled(cfg: Settings, db: Db, req: Request, env: Env, ctx: Ctx)
    requires FeaturesOk(db.features) && TasksOk(db.tasks) && FreshVersion(db.features, env.versionId)
    requires NamesFeature(req) && NotLookedUp(req, ctx) && GateRefusal(cfg, db, req, env).Some?
    ensures StopsAs(db, GateStage(cfg, db, req, env, ctx), req, env, GateRefusal(cfg, db, req, env).value)
  {
    hide GateRefusal, FL.Validate, FeaturesOk, FL.Ensure, FL.RowRefusal, StopsAs, TasksOk, CandidateStage, RefusedStage;
    hide PolicyFiling, CandidateFiling, VersionOf, NamesTheFeature, LookedUp, GateStage;
    ValidationIsOk(cfg, db, req, env, ctx.featureId);
    GateShape(cfg, db, req, env, ctx);
    LookupNamesTheFeature(db, req, ctx);
    var v := Validated(cfg, db, req, env, ctx).value;
    GateReads(cfg, db, req, env, v);
    var db1, ctx1 := db.(features := v.features, tasks := v.tasks), LookedUp(db, req, ctx);
    match v.gate
    case Refuse(_, _) => RefusalIsFiled(cfg, db, db1, req, env, ctx1, v.gate);
    case Allow(r) =>
      VersionKeepsTheFeature(db, req, ctx1, r.versionId);
      CandidateIsFiled(cfg, db, db1, req, env, ctx1.(featureVersionId := Some(r.versionId)));
  }

  /** The refusal table and the gate's own condition are complementary. */
  lemma GateAgrees(cfg: Settings, db: Db, req: Request, env: Env)
    requires NamesFeature(req) && FeaturesOk(db.features) && FreshVersion(db.features, env.versionId)
    ensures GateRefusal(cfg, db, req, env).None? <==> GateOpens(cfg, db, req, env, req.featureId.value)
  {
    hide FL.Ensure, FeaturesOk, PolicyFiling, CandidateFiling, VersionOf;
  }

  /** What the gate hands on: the feature it looked up and the version it let through. */
  lemma GateKeepsTheFeature(cfg: Settings, db: Db, req: Request, env: Env, ctx: Ctx)
    requires FeaturesOk(db.features) && TasksOk(db.tasks) && FreshVersion(db.features, env.versionId)
    requires NotLookedUp(req, ctx) && GateStage(cfg, db, req, env, ctx).1.Go?
    ensures NamesTheFeature(db, req, GateStage(cfg, db, req, env, ctx).1.ctx)
    ensures GateStage(cfg, db, req, env, ctx).1.ctx.featureVersionId == VersionOf(cfg, db, req, env)
    ensures GateStage(cfg, db, req, env, ctx).1.ctx.warnings == WarningsOf(cfg, db, req, env)
  {
    hide FL.Validate, FL.Consistent, FL.Ensure, FL.RowRefusal, TasksOk, CandidateStage, RefusedStage, StageOk;
    GateIsOk(cfg, db, req, env, ctx);
    if ctx.featureId != UNMAPPED {
      ValidationIsOk(cfg, db, req, env, ctx.featureId);
      GateShape(cfg, db, req, env, ctx);
      LookupNamesTheFeature(db, req, ctx);
      var v := Validated(cfg, db, req, env, ctx).value;
      var db1, ctx1 := db.(features := v.features, tasks := v.tasks), LookedUp(db, req, ctx);
      match v.gate
      case Refuse(_, _) => RefusedIsOk(cfg, db1, req, env, ctx1, v.gate);
      case Allow(r) => CandidateIsOk(cfg, db1, req, env, ctx1.(featureVersionId := Some(r.versionId)));
    }
  }

  /** The table reads only the features, which identifying the request leaves alone. */
  lemma TableReadsFeatures(cfg: Settings, db: Db, db1: Db, req: Request, env: Env, ctx: Ctx)
    requires db1.features == db.features && NamesTheFeature(db1, req, ctx)
    ensures NamesTheFeature(db, req, ctx) && VersionOf(cfg, db1, req, env) == VersionOf(cfg, db, req, env)
    ensures WarningsOf(cfg, db1, req, env) == WarningsOf(cfg, db, req, env)
  {
    hide FL.Ensure;
  }

  /**
   The provider is called exactly when no stage has a ground for refusal; otherwise the
   request stops on the first ground, and response, evidence and review task record it.
   */
  lemma PreparationIsFiled(cfg: Settings, db: Db, req: Request, env: Env)
    requires DbOk(cfg, db) && FreshEnv(db, env)
    ensures CallsProvider(cfg, db, req, env) <==> FirstRefusal(cfg, db, req, env).None?
    ensures !CallsProvider(cfg, db, req, env) ==>
              StopsAs(db, Prepare(cfg, db, req, env), req, env, FirstRefusal(cfg, db, req, env).value)
  {
    hide GateRefusal, GateStage, PreCheckStage, Risk.Assess, StopsAs, FL.Consistent, Grown, MetersOk, GatePassed;
    hide FeatureAdmits, RT.AtMostOneOpen, VersionOf, WarningsOf, NamesTheFeature, TaskFor;
    IdentifyIsOk(cfg, db, req, env);
    var (db1, f1) := IdentifyFeature(cfg, db, req, env);
    if !f1.Go? {
      MissingIsFiled(cfg, db, req, env);
    } else {
      GateIsOk(cfg, db1, req, env, f1.ctx);
      if NamesFeature(req) {
        assert db1 == db;
        GateAgrees(cfg, db, req, env);
        if GateRefusal(cfg, db, req, env).Some? {
          GateIsFiled(cfg, db, req, env, f1.ctx);
        }
      }
      var (db2, f2) := GateStage(cfg, db1, req, env, f1.ctx);
      if f2.Go? {
        GateKeepsTheFeature(cfg, db1, req, env, f1.ctx);
        TableReadsFeatures(cfg, db, db1, req, env, f2.ctx);
        PreCheckIsOk(cfg, db2, req, env, f2.ctx);
        if Risk.Assess(cfg.matcher, req.text, req.policyContext).score >= 60 {
          PreCheckIsFiled(cfg, db, db2, req, env, f2.ctx);
        }
      }
    }
  }

  /** A stopped request's answer, committed event and open review task are those of its first refusal. */
  lemma StopsAreFiled(cfg: Settings, db: Db, req: Request, env: Env)
    requires DbOk(cfg, db) && FreshEnv(db, env)
    ensures Handle(cfg, db, req, env).1.Stopped? <==> FirstRefusal(cfg, db, req, env).Some? && !env.commitFails
    ensures Handle(cfg, db, req, env).1.Stopped? ==>
              IsFiled(db, Handle(cfg, db, req, env).0, Handle(cfg, db, req, env).1, req, env,
                      FirstRefusal(cfg, db, req, env).value)
  {
    hide Prepare, FirstRefusal, DbOk, FreshEnv, HasOpenTask, KeyOf, SystemOf;
    PreparationIsFiled(cfg, db, req, env);
  }

  /** No stage before the input scan has a ground for refusal. */
  predicate PassesTheGates(cfg: Settings, db: Db, req: Request, env: Env) {
    && (Truthy(req.featureId) || cfg.enforcement == Warn)
    && (NamesFeature(req) ==> GateRefusal(cfg, db, req, env).None?)
  }

  lemma ScanIsFiledIff(cfg: Settings, db: Db, req: Request, env: Env)
    ensures var refusal := FirstRefusal(cfg, db, req, env);
            var score := Risk.Assess(cfg.matcher, req.text, req.policyContext).score;
            && (refusal.Some? && refusal.value.eventType == "request_blocked_pre_check"
                <==> PassesTheGates(cfg, db, req, env) && score >= 60)
            && (PassesTheGates(cfg, db, req, env) && score >= 60 ==> refusal.value.riskScore == score)
  {
    hide FL.Ensure, TaskFor, VersionOf, Risk.Assess, WarningsOf;
    assert |"request_blocked_pre_check"| == 25;
  }

  /**
   The text sent is the text scanned: the provider never gets an input that scores 60 or
   more, and exactly such an input, having passed the gates, is filed under its score.
   */
  lemma HighRiskInputsAreFiled(cfg: Settings, db: Db, req: Request, env: Env)
    requires DbOk(cfg, db) && FreshEnv(db, env) && !env.commitFails
    ensures var input, (db', resp) := Risk.Assess(cfg.matcher, req.text, req.policyContext), Handle(cfg, db, req, env);
            && (CallsProvider(cfg, db, req, env) <==> PassesTheGates(cfg, db, req, env) && input.score < 60)
            && (resp.Stopped? && db'.log != [] && Last(db').eventType == "request_blocked_pre_check"
                <==> PassesTheGates(cfg, db, req, env) && input.score >= 60)
            && (PassesTheGates(cfg, db, req, env) && input.score >= 60 ==>
                  Last(db').evidence.data.riskScore == input.score)
  {
    hide Handle, Prepare, CallsProvider, GateRefusal, DbOk, FreshEnv, Risk.Assess, TaskFor, VersionOf, WarningsOf;
    hide IsAbout, HasOpenTask;
    PreparationIsFiled(cfg, db, req, env);
    StopsAreFiled(cfg, db, req, env);
    ScanIsFiledIff(cfg, db, req, env);
  }

  /** A feature's row lets the request pass, and the version it asks for is a candidate. */
  predicate MeetsCandidate(cfg: Settings, db: Db, req: Request, env: Env) {
    && IsRegistered(db, req)
    && FL.RowRefusal(FeatureOf(db, req).feature, ConfigOf(cfg, req)).None?
    && FL.Ensure(FeatureOf(db, req), ConfigOf(cfg, req), env.versionId, env.now).1.status == FL.Candidate
  }

  /** The request meets a candidate of a feature whose row lets it pass, where candidates are quarantined. */
  predicate QuarantinesCandidate(cfg: Settings, db: Db, req: Request, env: Env) {
    MeetsCandidate(cfg, db, req, env) && cfg.candidatePolicy == QuarantineCandidate
  }

  lemma QuarantineIsFiledIff(cfg: Settings, db: Db, req: Request, env: Env)
    requires FirstRefusal(cfg, db, req, env).Some?
    ensures FirstRefusal(cfg, db, req, env).value.eventType == "request_quarantined_candidate_version"
            <==> QuarantinesCandidate(cfg, db, req, env)
  {
    hide FL.Ensure, TaskFor, VersionOf, Risk.Assess, WarningsOf;
    assert |"request_quarantined_candidate_version"| == 37;
  }

  /** Event and response of a stopped request carry one status unless it meets a candidate to quarantine. */
  lemma StatusesAgreeIff(cfg: Settings, db: Db, req: Request, env: Env)
    requires DbOk(cfg, db) && FreshEnv(db, env) && Handle(cfg, db, req, env).1.Stopped?
    ensures var (db', resp) := Handle(cfg, db, req, env);
            && db'.log != []
            && (Last(db').evidence.data.status == resp.status <==> !QuarantinesCandidate(cfg, db, req, env))
  {
    hide Handle, FirstRefusal, QuarantinesCandidate, DbOk, FreshEnv, HasOpenTask, KeyOf, SystemOf;
    StopsAreFiled(cfg, db, req, env);
    QuarantineIsFiledIff(cfg, db, req, env);
    assert |"quarantineed"| != |"quarantined"| && |"quarantineed"| != |"blocked"|;
  }

  // ---- Completions ----------------------------------------------------------------------------------------

  lemma PreparedForTheFeature(cfg: Settings, db: Db, req: Request, env: Env)
    requires DbOk(cfg, db) && FreshEnv(db, env) && CallsProvider(cfg, db, req, env)
    ensures var ctx := Prepare(cfg, db, req, env).1.ctx;
            && NamesTheFeature(db, req, ctx) && ctx.featureVersionId == VersionOf(cfg, db, req, env)
            && ctx.warnings == WarningsOf(cfg, db, req, env)
  {
    hide GateStage, PreCheckStage, Risk.Assess, FL.Consistent, Grown, MetersOk, GatePassed, FeatureAdmits;
    hide RT.AtMostOneOpen;
    hide NamesTheFeature, VersionOf, WarningsOf;
    IdentifyIsOk(cfg, db, req, env);
    var (db1, f1) := IdentifyFeature(cfg, db, req, env);
    GateIsOk(cfg, db1, req, env, f1.ctx);
    var (db2, f2) := GateStage(cfg, db1, req, env, f1.ctx);
    GateKeepsTheFeature(cfg, db1, req, env, f1.ctx);
    TableReadsFeatures(cfg, db, db1, req, env, f2.ctx);
    PreCheckIsOk(cfg, db2, req, env, f2.ctx);
  }

  function LevelFor(score: int): string {
    if score >= 60 then "high" else if score >= 25 then "medium" else "low"
  }

  /**
   The committed event of a completed or failed call names the feature and version it ran
   for; it carries what the caller was told, or the score of the input that was sent.
   */
  lemma CallsAreFiled(cfg: Settings, db: Db, req: Request, env: Env)
    requires DbOk(cfg, db) && FreshEnv(db, env) && CallsProvider(cfg, db, req, env)
    ensures var (db', resp) := Handle(cfg, db, req, env);
            (resp.Completed? || resp.ProviderError?) ==>
              && db'.log != [] && IsAbout(db, Last(db'), req, env)
              && var d := Last(db').evidence.data;
              && d.featureVersionId == VersionOf(cfg, db, req, env)
              && d.metadataWarnings == WarningsOf(cfg, db, req, env)
              && (resp.Completed? ==>
                    && d.eventType == "ai_request_completed" && d.status == "completed"
                    && d.decision == resp.verdict.decision && d.riskScore == resp.verdict.risk.score
                    && d.riskLevel == LevelFor(d.riskScore)
                    && d.featureVersionId == resp.versionId && d.metadataWarnings == resp.warnings)
              && (resp.ProviderError? ==>
                    && d.eventType == "provider_error" && d.status == "error" && d.decision == "error"
                    && d.riskScore == Risk.Assess(cfg.matcher, req.text, req.policyContext).score
                    && d.riskLevel == LevelFor(d.riskScore))
  {
    hide Prepare, DbOk, FreshEnv, Risk.AllResults, Risk.TriggeredIds, KeyOf, SystemOf, VersionOf, WarningsOf;
    PreparedForTheFeature(cfg, db, req, env);
  }
}
