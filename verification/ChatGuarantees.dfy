/**
 What governed requests guarantee, over every reachable state of the tables
 (app/services/pipeline.py, feature_service.py, review_service.py, evidence_service.py
 and billing_service.py together).
 */
module ChatGuarantees {
  import opened Common
  import opened EvidenceChain
  import opened ChatPipeline
  import FL = FeatureLifecycle
  import Risk = RiskEngine
  import RT = ReviewTasks

  // ---- The state invariant ---------------------------------------------------------------------

  ghost predicate FeaturesOk(features: FL.Features) {
    forall key :: key in features ==>
      && FL.Consistent(features[key])
      && features[key].feature.tenantId == key.0 && features[key].feature.featureId == key.1
      && features[key].feature.pk != ""
  }

  ghost predicate TasksOk(tasks: seq<RT.Task>) {
    RT.AtMostOneOpen(tasks) && RT.NoEmptyIdRows(tasks)
  }

  function Completions(log: seq<Row>, tenant: string): nat {
    Count(log, (r: Row) => r.tenantId == tenant && r.eventType == COMPLETED)
  }

  ghost predicate MetersOk(log: seq<Row>, meters: map<(string, string), nat>) {
    forall tenant :: MeterOf(meters, tenant) == Completions(log, tenant)
  }

  ghost predicate DbOk(cfg: Settings, db: Db) {
    FeaturesOk(db.features) && TasksOk(db.tasks) && Grown(cfg.crypto, db.log) && MetersOk(db.log, db.meters)
  }

  ghost predicate FreshVersion(features: FL.Features, id: string) {
    forall key :: key in features ==> FL.FreshVersionId(features[key], id)
  }

  ghost predicate FreshEnv(db: Db, env: Env) {
    FreshId(db.log, env.eventId) && FreshVersion(db.features, env.versionId)
  }

  // ---- One stage ---------------------------------------------------------------------------------

  /** A stage never raises, keeps features and tasks sound, and logs only what it returns with. */
  ghost predicate StageOk(cfg: Settings, db: Db, r: (Db, Flow), req: Request, env: Env) {
    && FeaturesOk(r.0.features) && TasksOk(r.0.tasks) && r.0.meters == db.meters
    && match r.1
       case Raise => false
       case Go(ctx) => r.0.log == db.log && ctx.featureId != "" && ctx.featurePk != Some("")
       case Return(resp) =>
         && resp.Stopped?
         && exists w: Write ::
              && w.eventId == env.eventId && w.data.tenantId == req.tenantId && w.data.eventType != COMPLETED
              && r.0.log == db.log + [NewRow(cfg.crypto, db.log, w)]
              && resp == Stopped(resp.status, env.eventId, NewRow(cfg.crypto, db.log, w).hash)
  }

  ghost predicate CtxOk(ctx: Ctx) {
    ctx.featureId != "" && ctx.featurePk != Some("")
  }

  lemma TaskIsRaised(db: Db, c: RT.Call)
    requires TasksOk(db.tasks) && RT.NoEmptyIds(c.key)
    ensures RaiseTask(db, c).Ok?
    ensures var r := RaiseTask(db, c).value; TasksOk(r.tasks) && r == db.(tasks := r.tasks)
  {
    RT.RaisesIffNullMeetsEmpty(db.tasks, c);
    RT.ApplyKeepsInvariant(db.tasks, RT.Called(c));
  }

  lemma StopIsOk(cfg: Settings, db: Db, req: Request, env: Env, ctx: Ctx, eventType: string, decision: string,
                 status: string, risk: Risk.Risk)
    requires FeaturesOk(db.features) && TasksOk(db.tasks) && eventType != COMPLETED
    ensures var r := Stop(cfg, db, req, env, ctx, eventType, decision, status, risk);
            StageOk(cfg, db, r, req, env) && r.1.Return? && r.0.features == db.features
  {
    var w := EventWrite(req, env, ctx, eventType, decision, EventStatus(eventType, status), risk);
    assert Stop(cfg, db, req, env, ctx, eventType, decision, status, risk).0.log
           == db.log + [NewRow(cfg.crypto, db.log, w)];
  }

  function NamedFeature(req: Request): string {
    if Truthy(req.featureId) then req.featureId.value else "unmapped_feature"
  }

  lemma IdentifyIsOk(cfg: Settings, db: Db, req: Request, env: Env)
    requires FeaturesOk(db.features) && TasksOk(db.tasks)
    ensures var r := IdentifyFeature(cfg, db, req, env);
            && StageOk(cfg, db, r, req, env)
            && r.0.features == db.features
            && (r.1.Go? <==> Truthy(req.featureId) || cfg.enforcement == Warn)
            && (r.1.Go? ==> r.1.ctx.featureId == NamedFeature(req))
            && (r.1.Go? ==>
                 "candidate_feature_version" !in r.1.ctx.warnings && r.1.ctx.featureVersionId.None?
                 && r.1.ctx.featurePk.None?)
  {
    hide FeaturesOk, TasksOk, RaiseTask, Stop, NewRow;
    if !Truthy(req.featureId) {
      var ctx := Ctx(UNMAPPED, None, None, None, ["missing_feature_id"]);
      var c := TaskCall(req, env, ctx, "feature_registration", "missing_feature_id", "medium", None, env.missingTaskId);
      TaskIsRaised(db, c);
      var db1 := RaiseTask(db, c).value;
      StopIsOk(cfg, db1, req, env, ctx, "request_blocked_missing_feature", "block", "blocked",
               GovernanceRisk("feature.missing_id_blocked", "block"));
      StopIsOk(cfg, db1, req, env, ctx, "request_quarantined", "quarantine", "quarantined",
               GovernanceRisk("feature.missing_id", "quarantine"));
    }
  }

  lemma CandidateIsOk(cfg: Settings, db: Db, req: Request, env: Env, ctx: Ctx)
    requires FeaturesOk(db.features) && TasksOk(db.tasks) && CtxOk(ctx)
    ensures var r := CandidateStage(cfg, db, req, env, ctx);
            && StageOk(cfg, db, r, req, env)
            && r.0.features == db.features
            && (r.1.Go? <==> cfg.candidatePolicy == AllowWithWarning)
            && (r.1.Go? ==> r.1.ctx == ctx.(warnings := ctx.warnings + ["candidate_feature_version"]))
  {
    hide FeaturesOk, TasksOk, RaiseTask, Stop;
    var ctx1 := ctx.(warnings := ctx.warnings + ["candidate_feature_version"]);
    var c := TaskCall(req, env, ctx1, "change_triggered", "candidate_version_requires_review", "medium",
                      ctx1.featureVersionId, env.gateTaskId);
    TaskIsRaised(db, c);
    var db1 := RaiseTask(db, c).value;
    StopIsOk(cfg, db1, req, env, ctx1, "request_blocked_candidate_version", "block", "blocked",
             GovernanceRisk("feature.candidate_version_block", "block"));
    StopIsOk(cfg, db1, req, env, ctx1, "request_quarantined_candidate_version", "quarantine", "quarantined",
             GovernanceRisk("feature.candidate_version_quarantine", "quarantine"));
  }

  lemma RefusedIsOk(cfg: Settings, db: Db, req: Request, env: Env, ctx: Ctx, gate: FL.Gate)
    requires FeaturesOk(db.features) && TasksOk(db.tasks) && CtxOk(ctx) && gate.Refuse?
    ensures var r := RefusedStage(cfg, db, req, env, ctx, gate);
            && StageOk(cfg, db, r, req, env)
            && r.0.features == db.features
            && (r.1.Go? <==> cfg.enforcement == Warn && gate.reason == FL.NotRegistered)
            && (r.1.Go? ==> r.1.ctx == ctx.(warnings := ctx.warnings + ["unknown_feature_allowed_in_warn_mode"]))
  {
    hide FeaturesOk, TasksOk, RaiseTask, Stop, FL.ReasonText;
    var reason := FL.ReasonText(gate);
    var versionId := if gate.barred.Some? then Some(gate.barred.value.versionId) else None;
    var c := TaskCall(req, env, ctx, "feature_governance", reason, "high", versionId, env.gateTaskId);
    TaskIsRaised(db, c);
    StopIsOk(cfg, RaiseTask(db, c).value, req, env, ctx, "request_blocked_feature_policy", "block", "blocked",
             GovernanceRisk("feature." + reason, "block"));
  }

  lemma StoringKeepsFeaturesOk(features: FL.Features, key: (string, string), fs: FL.FeatureState)
    requires FeaturesOk(features) && FL.Consistent(fs)
    requires fs.feature.tenantId == key.0 && fs.feature.featureId == key.1 && fs.feature.pk != ""
    ensures FeaturesOk(features[key := fs])
  {
  }

  /** Ensuring a version keeps the features sound, and the task it may raise is accepted. */
  lemma EnsuringIsOk(features: FL.Features, tasks: seq<RT.Task>, key: (string, string), c: FL.Config, id: string,
                     taskId: string, now: int)
    requires FeaturesOk(features) && TasksOk(tasks) && key in features && key.1 != ""
             && FL.FreshVersionId(features[key], id)
    ensures var (fs', r) := FL.Ensure(features[key], c, id, now);
            && FeaturesOk(features[key := fs'])
            && var task := RT.GetOrCreate(tasks, FL.ChangeTask(fs'.feature, c, r, taskId, now));
               task.Ok? && TasksOk(task.value.0)
  {
    var fs := features[key];
    FL.EnsureKeepsConsistent(fs, c, id, now);
    var (fs', r) := FL.Ensure(fs, c, id, now);
    StoringKeepsFeaturesOk(features, key, fs');
    var call := FL.ChangeTask(fs'.feature, c, r, taskId, now);
    RT.RaisesIffNullMeetsEmpty(tasks, call);
    RT.ApplyKeepsInvariant(tasks, RT.Called(call));
  }

  /** Validation never raises in a sound state, and its gate is the version's where the row admits. */
  ghost predicate ValidationOk(cfg: Settings, db: Db, req: Request, env: Env, featureId: string, v: FL.Validation) {
    var key, c := (req.tenantId, featureId), ConfigOf(cfg, req);
    && FeaturesOk(v.features) && TasksOk(v.tasks)
    && if key !in db.features then v == FL.Validation(db.features, db.tasks, FL.Refuse(FL.NotRegistered, None))
       else match FL.RowRefusal(db.features[key].feature, c)
            case Some(reason) => v == FL.Validation(db.features, db.tasks, FL.Refuse(reason, None))
            case None =>
              var (fs', r) := FL.Ensure(db.features[key], c, env.versionId, env.now);
              v.features == db.features[key := fs'] && v.gate == FL.GateVersion(r)
  }

  /** What validation returns, by the branch it takes. */
  lemma ValidationShape(cfg: Settings, db: Db, req: Request, env: Env, featureId: string)
    requires (req.tenantId, featureId) in db.features
    ensures var fs, c := db.features[(req.tenantId, featureId)], ConfigOf(cfg, req);
            var v := FL.Validate(db.features, db.tasks, req.tenantId, featureId, c, env.versionId, env.changeTaskId,
                                 env.now);
            match FL.RowRefusal(fs.feature, c)
            case Some(reason) => v == Ok(FL.Validation(db.features, db.tasks, FL.Refuse(reason, None)))
            case None =>
              var (fs', r) := FL.Ensure(fs, c, env.versionId, env.now);
              var features' := db.features[(req.tenantId, featureId) := fs'];
              var task := RT.GetOrCreate(db.tasks, FL.ChangeTask(fs'.feature, c, r, env.changeTaskId, env.now));
              task.Ok? ==> v == Ok(FL.Validation(features', if FL.RaisesChangeTask(r) then task.value.0 else db.tasks,
                                                 FL.GateVersion(r)))
  {
  }

  lemma ValidationIsOk(cfg: Settings, db: Db, req: Request, env: Env, featureId: string)
    requires FeaturesOk(db.features) && TasksOk(db.tasks) && FreshVersion(db.features, env.versionId) && featureId != ""
    ensures var v := FL.Validate(db.features, db.tasks, req.tenantId, featureId, ConfigOf(cfg, req), env.versionId,
                                 env.changeTaskId, env.now);
            v.Ok? && ValidationOk(cfg, db, req, env, featureId, v.value)
  {
    var key, c := (req.tenantId, featureId), ConfigOf(cfg, req);
    if key in db.features {
      ValidationShape(cfg, db, req, env, featureId);
      EnsuringIsOk(db.features, db.tasks, key, c, env.versionId, env.changeTaskId, env.now);
    }
  }

  /** The grounds on which a registered feature lets a request through to the pre-check. */
  predicate FeatureAdmits(cfg: Settings, fs: FL.FeatureState, req: Request, env: Env) {
    var c := ConfigOf(cfg, req);
    && FL.RowRefusal(fs.feature, c).None?
    && var status := FL.Ensure(fs, c, env.versionId, env.now).1.status;
       status == FL.Approved || (status == FL.Candidate && cfg.candidatePolicy == AllowWithWarning)
  }

  predicate GateOpens(cfg: Settings, db: Db, req: Request, env: Env, featureId: string) {
    var key := (req.tenantId, featureId);
    || featureId == UNMAPPED
    || (if key in db.features then FeatureAdmits(cfg, db.features[key], req, env) else cfg.enforcement == Warn)
  }

  /** What the gate leaves behind when it lets the request through. */
  ghost predicate GatePassed(cfg: Settings, db: Db, req: Request, env: Env, featureId: string, db': Db, ctx: Ctx) {
    var key := (req.tenantId, featureId);
    if featureId != UNMAPPED && key in db.features then
      var (fs', v) := FL.Ensure(db.features[key], ConfigOf(cfg, req), env.versionId, env.now);
      && db'.features == db.features[key := fs']
      && ctx.featureVersionId == Some(v.versionId)
      && ("candidate_feature_version" in ctx.warnings <==> v.status == FL.Candidate)
    else
      ctx.featureVersionId.None? && "candidate_feature_version" !in ctx.warnings && db'.features == db.features
  }

  /** The gate's second half, once the feature has been validated. */
  function AfterValidation(cfg: Settings, db: Db, req: Request, env: Env, ctx: Ctx, gate: FL.Gate): (Db, Flow) {
    match gate
    case Refuse(_, _) => RefusedStage(cfg, db, req, env, ctx, gate)
    case Allow(r) =>
      var ctx2 := ctx.(featureVersionId := Some(r.versionId));
      if r.status == FL.Candidate then CandidateStage(cfg, db, req, env, ctx2) else (db, Go(ctx2))
  }

  lemma AfterValidationIsOk(cfg: Settings, db: Db, req: Request, env: Env, ctx: Ctx, gate: FL.Gate)
    requires FeaturesOk(db.features) && TasksOk(db.tasks) && CtxOk(ctx)
    requires "candidate_feature_version" !in ctx.warnings && ctx.featureVersionId.None?
    ensures var r := AfterValidation(cfg, db, req, env, ctx, gate);
            && StageOk(cfg, db, r, req, env)
            && r.0.features == db.features
            && (gate.Refuse? ==> (r.1.Go? <==> cfg.enforcement == Warn && gate.reason == FL.NotRegistered))
            && (gate.Allow? ==> (r.1.Go? <==> gate.version.status == FL.Candidate ==>
                 cfg.candidatePolicy == AllowWithWarning))
            && (r.1.Go? ==>
                  && r.1.ctx.featureVersionId == (if gate.Allow? then Some(gate.version.versionId) else None)
                  && ("candidate_feature_version" in r.1.ctx.warnings <==>
                       gate.Allow? && gate.version.status == FL.Candidate))
  {
    match gate
    case Refuse(_, _) => RefusedIsOk(cfg, db, req, env, ctx, gate);
    case Allow(r) => CandidateIsOk(cfg, db, req, env, ctx.(featureVersionId := Some(r.versionId)));
  }

  /** The context once the feature was looked up. */
  function LookedUp(db: Db, req: Request, ctx: Ctx): Ctx {
    var key := (req.tenantId, ctx.featureId);
    if key in db.features then
      ctx.(featurePk := Some(db.features[key].feature.pk), aiSystemId := db.features[key].feature.aiSystemId)
    else ctx
  }

  function Validated(cfg: Settings, db: Db, req: Request, env: Env, ctx: Ctx)
    : Result<FL.Validation, RT.IntegrityError>
  {
    FL.Validate(db.features, db.tasks, req.tenantId, ctx.featureId, ConfigOf(cfg, req), env.versionId,
                env.changeTaskId, env.now)
  }

  lemma GateShape(cfg: Settings, db: Db, req: Request, env: Env, ctx: Ctx)
    requires ctx.featureId != UNMAPPED && Validated(cfg, db, req, env, ctx).Ok?
    ensures var v := Validated(cfg, db, req, env, ctx).value;
            GateStage(cfg, db, req, env, ctx)
            == AfterValidation(cfg, db.(features := v.features, tasks := v.tasks), req, env, LookedUp(db, req, ctx),
                               v.gate)
  {
    hide FL.Validate, RefusedStage, CandidateStage;
  }

  lemma AfterGate(cfg: Settings, db: Db, req: Request, env: Env, ctx: Ctx, v: FL.Validation, r: (Db, Flow))
    requires ctx.featureId != UNMAPPED && ValidationOk(cfg, db, req, env, ctx.featureId, v)
    requires r.0.features == v.features && !r.1.Raise?
    requires v.gate.Refuse? ==> (r.1.Go? <==> cfg.enforcement == Warn && v.gate.reason == FL.NotRegistered)
    requires v.gate.Allow? ==> (r.1.Go? <==> v.gate.version.status == FL.Candidate ==>
               cfg.candidatePolicy == AllowWithWarning)
    requires r.1.Go? ==>
               && r.1.ctx.featureVersionId == (if v.gate.Allow? then Some(v.gate.version.versionId) else None)
               && ("candidate_feature_version" in r.1.ctx.warnings <==>
                    v.gate.Allow? && v.gate.version.status == FL.Candidate)
    ensures r.1.Go? <==> GateOpens(cfg, db, req, env, ctx.featureId)
    ensures r.1.Go? ==> GatePassed(cfg, db, req, env, ctx.featureId, r.0, r.1.ctx)
  {
    hide FeaturesOk, TasksOk, FL.Ensure;
    var key := (req.tenantId, ctx.featureId);
    if key in db.features {
      match FL.RowRefusal(db.features[key].feature, ConfigOf(cfg, req))
      case Some(_) =>
      case None =>
    }
  }

  lemma GateIsOk(cfg: Settings, db: Db, req: Request, env: Env, ctx: Ctx)
    requires FeaturesOk(db.features) && TasksOk(db.tasks) && FreshVersion(db.features, env.versionId)
    requires CtxOk(ctx) && ctx.featureVersionId.None? && "candidate_feature_version" !in ctx.warnings
    ensures var r := GateStage(cfg, db, req, env, ctx);
            && StageOk(cfg, db, r, req, env)
            && (r.1.Go? <==> GateOpens(cfg, db, req, env, ctx.featureId))
            && (r.1.Go? ==> GatePassed(cfg, db, req, env, ctx.featureId, r.0, r.1.ctx))
  {
    hide AfterValidation, FL.Validate, TasksOk, FL.Consistent;
    if ctx.featureId != UNMAPPED {
      ValidationIsOk(cfg, db, req, env, ctx.featureId);
      GateShape(cfg, db, req, env, ctx);
      assert CtxOk(LookedUp(db, req, ctx));
      var v := Validated(cfg, db, req, env, ctx).value;
      AfterValidationIsOk(cfg, db.(features := v.features, tasks := v.tasks), req, env, LookedUp(db, req, ctx), v.gate);
      AfterGate(cfg, db, req, env, ctx, v, GateStage(cfg, db, req, env, ctx));
    }
  }

  lemma PreCheckIsOk(cfg: Settings, db: Db, req: Request, env: Env, ctx: Ctx)
    requires FeaturesOk(db.features) && TasksOk(db.tasks) && CtxOk(ctx)
    ensures var r := PreCheckStage(cfg, db, req, env, ctx);
            && StageOk(cfg, db, r, req, env)
            && (r.1.Go? <==> Risk.Assess(cfg.matcher, req.text, req.policyContext).score < 60)
            && (r.1.Go? ==> r.1.ctx == ctx && r.0 == db)
  {
    hide FeaturesOk, TasksOk, RaiseTask, Stop, Risk.Assess;
    Risk.AssessmentIsSound(cfg.matcher, req.text, req.policyContext);
    var c := TaskCall(req, env, ctx, "risk_review", "high_risk_pre_check", "high", ctx.featureVersionId,
                      env.riskTaskId);
    TaskIsRaised(db, c);
    StopIsOk(cfg, RaiseTask(db, c).value, req, env, ctx, "request_blocked_pre_check", "block", "blocked",
             PreCheck(cfg, req));
  }

  // ---- The gate ------------------------------------------------------------------------------------

  /** The request names a feature, and not by the sentinel the code uses for "none". */
  predicate NamesFeature(req: Request) {
    Truthy(req.featureId) && req.featureId.value != "unmapped_feature"
  }

  predicate IsRegistered(db: Db, req: Request) {
    NamesFeature(req) && (req.tenantId, req.featureId.value) in db.features
  }

  function FeatureOf(db: Db, req: Request): FL.FeatureState
    requires IsRegistered(db, req)
  {
    db.features[(req.tenantId, req.featureId.value)]
  }

  /** All stages before the provider call, together. */
  lemma PrepareIsOk(cfg: Settings, db: Db, req: Request, env: Env)
    requires FeaturesOk(db.features) && TasksOk(db.tasks) && FreshVersion(db.features, env.versionId)
    ensures var r := Prepare(cfg, db, req, env);
            && StageOk(cfg, db, r, req, env)
            && (r.1.Go? ==> GatePassed(cfg, db, req, env, NamedFeature(req), r.0, r.1.ctx))
    ensures CallsProvider(cfg, db, req, env) <==>
            && Risk.Assess(cfg.matcher, req.text, req.policyContext).score < 60
            && (if IsRegistered(db, req) then FeatureAdmits(cfg, FeatureOf(db, req), req, env)
                else cfg.enforcement == Warn || req.featureId == Some("unmapped_feature"))
  {
    IdentifyIsOk(cfg, db, req, env);
    var (db1, f1) := IdentifyFeature(cfg, db, req, env);
    if f1.Go? {
      GateIsOk(cfg, db1, req, env, f1.ctx);
      var (db2, f2) := GateStage(cfg, db1, req, env, f1.ctx);
      if f2.Go? {
        PreCheckIsOk(cfg, db2, req, env, f2.ctx);
      }
    }
  }

  lemma PrepareNeverRaises(cfg: Settings, db: Db, req: Request, env: Env)
    requires DbOk(cfg, db) && FreshEnv(db, env)
    ensures var flow := Prepare(cfg, db, req, env).1; flow.Go? || (flow.Return? && flow.response.Stopped?)
  {
    hide FeaturesOk, TasksOk, Grown, MetersOk, Prepare, GatePassed, FeatureAdmits;
    PrepareIsOk(cfg, db, req, env);
  }

  /**
   Whenever the provider is called for a registered feature, that feature is active, lists
   the provider and the model if it lists any, and the input was not high risk.
   */
  lemma OnlyActiveFeaturesRun(cfg: Settings, db: Db, req: Request, env: Env)
    requires DbOk(cfg, db) && FreshEnv(db, env) && IsRegistered(db, req) && CallsProvider(cfg, db, req, env)
    ensures var f := FeatureOf(db, req).feature;
            && f.complianceStatus != "blocked" && f.complianceStatus != "inactive"
            && (f.approvedProviders == [] || "openai" in f.approvedProviders)
            && (f.approvedModels == []
                || (if Truthy(req.model) then req.model.value else cfg.defaultModel) in f.approvedModels)
            && Risk.Assess(cfg.matcher, req.text, req.policyContext).score < 60
  {
    hide FeaturesOk, TasksOk, Grown, MetersOk, Prepare, CallsProvider, GatePassed, FL.Ensure, FL.RowRefusal;
    PrepareIsOk(cfg, db, req, env);
    FL.RowAdmitsIff(FeatureOf(db, req).feature, ConfigOf(cfg, req));
  }

  /**
   The version a prepared request is about to run on, found in the session's own view: it
   is the very configuration asked for, and no version but the approved one runs unwarned.
   */
  ghost predicate RunsOn(cfg: Settings, db: Db, req: Request, ctx: Ctx, fs: FL.FeatureState, k: nat) {
    && k < |fs.versions|
    && ctx.featureVersionId == Some(fs.versions[k].id)
    && req.featureId == Some(fs.feature.featureId)
    && fs.versions[k].fingerprint
       == FL.Fingerprint(fs.feature.featureId, "openai",
                         if Truthy(req.model) then req.model.value else cfg.defaultModel,
                         cfg.sha256(req.text), fs.feature.policyBundle)
    && (FL.IsTheApproved(fs, k)
        || (fs.versions[k].status == FL.Candidate && cfg.candidatePolicy == AllowWithWarning
            && "candidate_feature_version" in ctx.warnings))
  }

  lemma RegisteredIsConsistent(db: Db, req: Request, versionId: string)
    requires FeaturesOk(db.features) && IsRegistered(db, req) && FreshVersion(db.features, versionId)
    ensures FL.Consistent(FeatureOf(db, req)) && FL.FreshVersionId(FeatureOf(db, req), versionId)
    ensures req.featureId == Some(FeatureOf(db, req).feature.featureId)
  {
  }

  /**
   The version a registered feature runs on is the one approved version its pointers name,
   or a candidate under allow_with_warning; rejected and superseded versions never run.
   */
  lemma OnlyApprovedOrWarnedVersionsRun(cfg: Settings, db: Db, req: Request, env: Env)
    requires DbOk(cfg, db) && FreshEnv(db, env) && IsRegistered(db, req) && CallsProvider(cfg, db, req, env)
    ensures var (db', flow) := Prepare(cfg, db, req, env);
            var key := (req.tenantId, req.featureId.value);
            key in db'.features && exists k :: RunsOn(cfg, db', req, flow.ctx, db'.features[key], k)
  {
    hide FeaturesOk, TasksOk, Grown, MetersOk, Prepare, FL.Ensure, FL.RowRefusal, FL.IsTheApproved;
    PrepareIsOk(cfg, db, req, env);
    RegisteredIsConsistent(db, req, env.versionId);
    var fs := FeatureOf(db, req);
    FL.AdmittedVersion(fs, ConfigOf(cfg, req), env.versionId, env.now);
    FL.EnsureOutcome(fs, ConfigOf(cfg, req), env.versionId, env.now);
    var (db', flow) := Prepare(cfg, db, req, env);
    var (fs', r) := FL.Ensure(fs, ConfigOf(cfg, req), env.versionId, env.now);
    var k :| 0 <= k < |fs'.versions| && fs'.versions[k].id == r.versionId
             && fs'.versions[k].fingerprint == FL.FingerprintOf(fs'.feature, ConfigOf(cfg, req))
             && (r.status == FL.Approved ==> FL.IsTheApproved(fs', k))
             && (r.status != FL.Approved ==> r.status == fs'.versions[k].status == FL.Candidate);
    assert RunsOn(cfg, db', req, flow.ctx, fs', k);
  }

  // ---- All or nothing -------------------------------------------------------------------------------

  function Last(db: Db): Row
    requires db.log != []
  {
    db.log[|db.log| - 1]
  }

  /** The log grew by one event of the tenant, linked to what was the tenant's last committed event. */
  ghost predicate OneEventAdded(db: Db, db': Db, tenant: string, id: EventId) {
    && |db'.log| == |db.log| + 1
    && db'.log[..|db.log|] == db.log
    && Last(db').eventId == id && Last(db').tenantId == tenant && Last(db').previous == LastHash(db.log, tenant)
  }

  lemma OneIsAdded(cfg: Settings, db: Db, db': Db, w: Write)
    requires db'.log == db.log + [NewRow(cfg.crypto, db.log, w)]
    ensures OneEventAdded(db, db', w.data.tenantId, w.eventId)
    ensures Last(db').hash == NewRow(cfg.crypto, db.log, w).hash && Last(db').eventType == w.data.eventType
  {
  }

  /** The committed tables change by nothing, by one failure event, or by a whole request with one event. */
  lemma RequestsAreAllOrNothing(cfg: Settings, db: Db, req: Request, env: Env)
    requires DbOk(cfg, db) && FreshEnv(db, env)
    ensures var (db', resp) := Handle(cfg, db, req, env);
            match resp
            case InternalError => db' == db
            case ProviderError(id) =>
              && CallsProvider(cfg, db, req, env) && env.reply.ProviderFailed?
              && OneEventAdded(db, db', req.tenantId, id) && Last(db').eventType == "provider_error"
              && db' == db.(log := db'.log)
            case Stopped(_, id, hash) =>
              && !CallsProvider(cfg, db, req, env)
              && OneEventAdded(db, db', req.tenantId, id) && Last(db').hash == hash && Last(db').eventType != COMPLETED
              && db' == Prepare(cfg, db, req, env).0 && db'.meters == db.meters
            case Completed(output, _, id, hash, _, _) =>
              && CallsProvider(cfg, db, req, env) && env.reply == Output(output)
              && OneEventAdded(db, db', req.tenantId, id) && Last(db').hash == hash && Last(db').eventType == COMPLETED
              && db'.features == Prepare(cfg, db, req, env).0.features
              && db'.tasks == Prepare(cfg, db, req, env).0.tasks
              && var meter := (req.tenantId, "governed_call");
                 db'.meters == db.meters[meter := (if meter in db.meters then db.meters[meter] else 0) + 1]
  {
    hide FeaturesOk, TasksOk, Grown, MetersOk, Prepare, GatePassed, FeatureAdmits, Risk.Assess, VerdictOf, NewRow;
    hide OneEventAdded, PreCheck;
    PrepareIsOk(cfg, db, req, env);
    var (db1, flow) := Prepare(cfg, db, req, env);
    match flow
    case Return(r) =>
      var w: Write :| w.eventId == env.eventId && w.data.tenantId == req.tenantId && w.data.eventType != COMPLETED
                      && db1.log == db.log + [NewRow(cfg.crypto, db.log, w)]
                      && r == Stopped(r.status, env.eventId, NewRow(cfg.crypto, db.log, w).hash);
      OneIsAdded(cfg, db, db1, w);
    case Go(ctx) =>
      var w := if env.reply.Output? then CompletionWrite(cfg, req, env, ctx, env.reply.text)
               else FailureWrite(cfg, req, env, ctx);
      OneIsAdded(cfg, db, Handle(cfg, db, req, env).0.(log := db.log + [NewRow(cfg.crypto, db.log, w)]), w);
  }

  /** A fingerprint the feature has no stored version for: the request would create one. */
  predicate NeedsNewVersion(cfg: Settings, db: Db, req: Request)
    requires IsRegistered(db, req)
  {
    var fs := FeatureOf(db, req);
    FL.FindFingerprint(fs.versions, FL.FingerprintOf(fs.feature, ConfigOf(cfg, req))).None?
  }

  lemma FailedCallOutcome(cfg: Settings, db: Db, req: Request, env: Env)
    requires CallsProvider(cfg, db, req, env) && env.reply.ProviderFailed? && !env.commitFails
    ensures var fits := FailureEvidenceFits(cfg, db, Prepare(cfg, db, req, env).1.ctx);
            && (Handle(cfg, db, req, env) == (db, InternalError) <==> !fits)
            && (Handle(cfg, db, req, env).1 == ProviderError(env.eventId) <==> fits)
  {
    hide Prepare, NewRow, FailureEvidenceFits, FailureWrite;
  }

  /** The version the request runs is committed unless the request itself created it. */
  lemma VersionIsStoredIff(cfg: Settings, db: Db, req: Request, env: Env)
    requires DbOk(cfg, db) && FreshEnv(db, env) && CallsProvider(cfg, db, req, env)
    ensures VersionStored(db, Prepare(cfg, db, req, env).1.ctx.featureVersionId)
            <==> !(IsRegistered(db, req) && NeedsNewVersion(cfg, db, req))
  {
    hide Prepare, StageOk, TasksOk, Grown, MetersOk, FL.Consistent, NewRow, PreCheck, FeatureAdmits, FL.FingerprintOf;
    hide ConfigOf;
    hide FeaturesOk;
    PrepareIsOk(cfg, db, req, env);
    if IsRegistered(db, req) {
      var fs := FeatureOf(db, req);
      var found := FL.FindFingerprint(fs.versions, FL.FingerprintOf(fs.feature, ConfigOf(cfg, req)));
      if found.Some? {
        var id := fs.versions[found.value].id;
        assert FL.FindVersion(db.features[(req.tenantId, req.featureId.value)].versions, id).Some?;
        assert VersionStored(db, Some(id));
      } else {
        assert forall key :: key in db.features ==> FL.FindVersion(db.features[key].versions, env.versionId).None?;
        assert !VersionStored(db, Some(env.versionId));
      }
    }
  }

  /**
   A provider failure is recorded except in exactly one case: the database checks foreign
   keys and the request itself created the version its evidence names, since the rollback
   before the independent write has just removed that version.
   */
  lemma FailureEvidenceIsLostIff(cfg: Settings, db: Db, req: Request, env: Env)
    requires DbOk(cfg, db) && FreshEnv(db, env) && CallsProvider(cfg, db, req, env)
    requires env.reply.ProviderFailed? && !env.commitFails
    ensures Handle(cfg, db, req, env) == (db, InternalError) <==>
            cfg.foreignKeys && IsRegistered(db, req) && NeedsNewVersion(cfg, db, req)
    ensures Handle(cfg, db, req, env).1 == ProviderError(env.eventId) <==>
            !(cfg.foreignKeys && IsRegistered(db, req) && NeedsNewVersion(cfg, db, req))
  {
    hide Prepare, Handle, DbOk, FreshEnv, VersionStored, NeedsNewVersion;
    FailedCallOutcome(cfg, db, req, env);
    VersionIsStoredIff(cfg, db, req, env);
  }

  /** Which answer a request gets; a refused commit or lost failure evidence is an internal error. */
  lemma AnswerIff(cfg: Settings, db: Db, req: Request, env: Env)
    requires DbOk(cfg, db) && FreshEnv(db, env)
    ensures var resp, calls := Handle(cfg, db, req, env).1, CallsProvider(cfg, db, req, env);
            && (resp.Stopped? <==> !calls && !env.commitFails)
            && (resp.Completed? <==> calls && env.reply.Output? && !env.commitFails)
            && (resp.ProviderError? <==>
                  && calls && env.reply.ProviderFailed? && !env.commitFails
                  && !(cfg.foreignKeys && IsRegistered(db, req) && NeedsNewVersion(cfg, db, req)))
  {
    hide DbOk, FreshEnv, Prepare, NewRow, NeedsNewVersion, FailureEvidenceFits;
    if CallsProvider(cfg, db, req, env) && env.reply.ProviderFailed? && !env.commitFails {
      FailureEvidenceIsLostIff(cfg, db, req, env);
    }
    PrepareNeverRaises(cfg, db, req, env);
  }

  /** One active feature without versions and nothing else. */
  function OnlyFeature(tenant: string, f: FL.Feature): Db {
    Db(map[(tenant, f.featureId) := FL.FeatureState(f, [])], [], [], map[])
  }

  lemma CreatingKeepsFeaturesOk(features: FL.Features, t: string, f: FL.Feature)
    requires FeaturesOk(features) && f.tenantId == t && f.pk != ""
    requires f.currentVersionId.None? && f.currentFingerprint.None? && f.currentPromptHash.None?
    ensures FeaturesOk(features[(t, f.featureId) := FL.FeatureState(f, [])])
  {
    StoringKeepsFeaturesOk(features, (t, f.featureId), FL.FeatureState(f, []));
  }

  lemma OnlyFeatureIsSound(cfg: Settings, tenant: string, f: FL.Feature, env: Env)
    requires f.tenantId == tenant && f.pk != ""
    requires f.currentVersionId.None? && f.currentFingerprint.None? && f.currentPromptHash.None?
    ensures DbOk(cfg, OnlyFeature(tenant, f)) && FreshEnv(OnlyFeature(tenant, f), env)
  {
    hide FL.Consistent;
    CreatingKeepsFeaturesOk(map[], tenant, f);
    assert OnlyFeature(tenant, f).features == map[][(tenant, f.featureId) := FL.FeatureState(f, [])];
  }

  lemma CallIsMade(cfg: Settings, db: Db, req: Request, env: Env)
    requires DbOk(cfg, db) && FreshEnv(db, env) && Risk.Assess(cfg.matcher, req.text, req.policyContext).score < 60
    requires IsRegistered(db, req) && FeatureAdmits(cfg, FeatureOf(db, req), req, env)
    ensures CallsProvider(cfg, db, req, env)
  {
    hide Prepare, StageOk, GatePassed, FeatureAdmits, Risk.Assess;
    PrepareIsOk(cfg, db, req, env);
  }

  /**
   The lost case occurs, in every state: a feature's first request, if its own row and the
   input scan let it through, the provider fails and the database checks references.
   */
  lemma FirstFailureIsLost(cfg: Settings, db: Db, req: Request, env: Env)
    requires DbOk(cfg, db) && FreshEnv(db, env) && IsRegistered(db, req) && FeatureOf(db, req).versions == []
    requires FL.RowRefusal(FeatureOf(db, req).feature, ConfigOf(cfg, req)).None?
    requires Risk.Assess(cfg.matcher, req.text, req.policyContext).score < 60
    requires cfg.foreignKeys && env.reply.ProviderFailed? && !env.commitFails
    ensures Handle(cfg, db, req, env) == (db, InternalError)
  {
    hide Handle, Prepare, CallsProvider, Risk.Assess, StageOk, GatePassed, Grown, MetersOk, TasksOk, FL.RowRefusal;
    RegisteredIsConsistent(db, req, env.versionId);
    CallIsMade(cfg, db, req, env);
    FailureEvidenceIsLostIff(cfg, db, req, env);
  }

  /** Such a state: nothing stored but one active feature that lists no provider and no model. */
  lemma FirstFailureOfTheOnlyFeature(cfg: Settings, f: FL.Feature, req: Request, env: Env)
    requires cfg.foreignKeys && env.reply.ProviderFailed? && !env.commitFails
    requires f.tenantId == req.tenantId && f.pk != "" && req.featureId == Some(f.featureId)
    requires f.featureId != "" && f.featureId != UNMAPPED && f.complianceStatus == "active"
    requires f.approvedProviders == [] && f.approvedModels == []
    requires f.currentVersionId.None? && f.currentFingerprint.None? && f.currentPromptHash.None?
    requires Risk.Assess(cfg.matcher, req.text, req.policyContext).score == 0
    ensures var db := OnlyFeature(req.tenantId, f);
            DbOk(cfg, db) && FreshEnv(db, env) && Handle(cfg, db, req, env) == (db, InternalError)
  {
    hide DbOk, FreshEnv, Handle, Prepare, CallsProvider, Risk.Assess;
    var db := OnlyFeature(req.tenantId, f);
    OnlyFeatureIsSound(cfg, req.tenantId, f, env);
    FirstFailureIsLost(cfg, db, req, env);
  }

  lemma CompletedShape(cfg: Settings, db: Db, req: Request, env: Env)
    requires DbOk(cfg, db) && FreshEnv(db, env) && Handle(cfg, db, req, env).1.Completed?
    ensures CallsProvider(cfg, db, req, env) && env.reply.Output?
            && Risk.Assess(cfg.matcher, req.text, req.policyContext).score < 60
    ensures var c, ctx := Handle(cfg, db, req, env).1, Prepare(cfg, db, req, env).1.ctx;
            && c.output == env.reply.text && c.verdict == VerdictOf(cfg, req, ctx, env.reply.text)
            && ("candidate_feature_version" in ctx.warnings <==>
                  IsRegistered(db, req)
                  && FL.Ensure(FeatureOf(db, req), ConfigOf(cfg, req), env.versionId, env.now).1.status == FL.Candidate)
  {
    hide Prepare, StageOk, FeaturesOk, TasksOk, Grown, MetersOk, NewRow, Risk.Assess, VerdictOf, FL.Ensure;
    hide FeatureAdmits;
    PrepareIsOk(cfg, db, req, env);
  }

  /** The verdict of a completed request, from the two scans and the version's status. */
  lemma CompletedVerdict(cfg: Settings, db: Db, req: Request, env: Env)
    requires DbOk(cfg, db) && FreshEnv(db, env) && Handle(cfg, db, req, env).1.Completed?
    ensures var c := Handle(cfg, db, req, env).1;
            var pre := Risk.Assess(cfg.matcher, req.text, req.policyContext);
            var post := Risk.Assess(cfg.matcher, c.output, req.policyContext);
            && pre.score < 60
            && c.verdict.risk.score == (if pre.score >= post.score then pre.score else post.score)
            && (c.verdict.decision == "flag" <==> post.score >= 60)
            && (c.verdict.decision == "allow" <==>
                  pre.results == [] && post.results == []
                  && !(IsRegistered(db, req)
                       && FL.Ensure(FeatureOf(db, req), ConfigOf(cfg, req), env.versionId, env.now).1.status
                          == FL.Candidate))
            && (c.verdict.decision in ["flag", "allow", "allow_with_warning"])
            && (forall id :: id in c.verdict.risk.triggered <==> id in pre.triggered || id in post.triggered)
  {
    hide Prepare, Handle, DbOk, FreshEnv, Risk.Assess, Risk.FinalVerdict, FL.Ensure, IsRegistered;
    CompletedShape(cfg, db, req, env);
    var ctx := Prepare(cfg, db, req, env).1.ctx;
    Risk.AssessmentIsSound(cfg.matcher, req.text, req.policyContext);
    Risk.VerdictIsExact(cfg.matcher, req.text, env.reply.text, req.policyContext,
                        "candidate_feature_version" in ctx.warnings);
  }

  // ---- Every reachable state ----------------------------------------------------------------------------

  /** Fields `update_feature` may set; the version pointers are not among them. */
  datatype FeatureChange = FeatureChange(
    complianceStatus: Option<string>, approvedProviders: Option<seq<string>>,
    approvedModels: Option<seq<string>>, aiSystemId: Option<Option<string>>)

  datatype Op =
    | Chat(req: Request, env: Env)
    | ApproveVersion(tenantId: string, featureId: string, versionId: string, now: int)
    | RejectVersion(tenantId: string, featureId: string, versionId: string, now: int)
    | CreateFeature(tenantId: string, feature: FL.Feature)
    | UpdateFeature(tenantId: string, featureId: string, change: FeatureChange)
    | CloseTask(tenantId: string, taskId: string, note: Option<string>, now: int)
    | OtherEvidence(write: Write)

  function Changed(f: FL.Feature, c: FeatureChange): FL.Feature {
    f.(complianceStatus := if c.complianceStatus.Some? then c.complianceStatus.value else f.complianceStatus,
       approvedProviders := if c.approvedProviders.Some? then c.approvedProviders.value else f.approvedProviders,
       approvedModels := if c.approvedModels.Some? then c.approvedModels.value else f.approvedModels,
       aiSystemId := if c.aiSystemId.Some? then c.aiSystemId.value else f.aiSystemId)
  }

  function WithFeature(db: Db, tenant: string, featureId: string, fs: Result<FL.FeatureState, FL.Failure>): Db {
    if fs.Ok? then db.(features := db.features[(tenant, featureId) := fs.value]) else db
  }

  function Apply(cfg: Settings, db: Db, op: Op): Db {
    match op
    case Chat(req, env) => Handle(cfg, db, req, env).0
    case ApproveVersion(t, f, v, now) =>
      if (t, f) in db.features then WithFeature(db, t, f,
                                                FL.ApproveOn(cfg.partialIndexes, db.features[(t, f)], v, now)) else db
    case RejectVersion(t, f, v, now) =>
      if (t, f) in db.features then WithFeature(db, t, f, FL.Reject(db.features[(t, f)], v, now)) else db
    case CreateFeature(t, f) =>
      if (t, f.featureId) in db.features then db
      else db.(features := db.features[(t, f.featureId) := FL.FeatureState(f, [])])
    case UpdateFeature(t, f, change) =>
      if (t, f) in db.features then
        var fs := db.features[(t, f)];
        db.(features := db.features[(t, f) := fs.(feature := Changed(fs.feature, change))])
      else db
    case CloseTask(t, id, note, now) => db.(tasks := RT.Close(db.tasks, t, id, note, now))
    case OtherEvidence(w) => Emit(cfg, db, w)
  }

  /** Minted ids are new, a created feature starts bare, and only the pipeline writes completions. */
  ghost predicate Admissible(db: Db, op: Op) {
    match op
    case Chat(_, env) => FreshEnv(db, env)
    case CreateFeature(t, f) =>
      f.tenantId == t && f.pk != "" && f.currentVersionId.None? && f.currentFingerprint.None?
          && f.currentPromptHash.None?
    case OtherEvidence(w) => FreshId(db.log, w.eventId) && w.data.eventType != COMPLETED
    case _ => true
  }

  ghost predicate AdmissibleRun(cfg: Settings, db: Db, ops: seq<Op>)
    decreases |ops|
  {
    ops == [] || (Admissible(db, ops[0]) && AdmissibleRun(cfg, Apply(cfg, db, ops[0]), ops[1..]))
  }

  function Run(cfg: Settings, db: Db, ops: seq<Op>): Db
    decreases |ops|
  {
    if ops == [] then db else Run(cfg, Apply(cfg, db, ops[0]), ops[1..])
  }

  lemma LoggingKeepsMeters(db: Db, db': Db, e: Row)
    requires MetersOk(db.log, db.meters) && db'.log == db.log + [e]
    requires forall t ::
               MeterOf(db'.meters, t)
               == MeterOf(db.meters, t) + (if e.tenantId == t && e.eventType == COMPLETED then 1 else 0)
    ensures MetersOk(db'.log, db'.meters)
  {
    forall t
      ensures MeterOf(db'.meters, t) == Completions(db'.log, t)
    {
      CountAppend(db.log, e, (r: Row) => r.tenantId == t && r.eventType == COMPLETED);
    }
  }

  lemma ChatKeepsDbOk(cfg: Settings, db: Db, req: Request, env: Env)
    requires DbOk(cfg, db) && FreshEnv(db, env)
    ensures DbOk(cfg, Handle(cfg, db, req, env).0)
  {
    hide Risk.Assess, FeaturesOk, TasksOk, Grown, MetersOk, Prepare, GatePassed, FeatureAdmits, PreCheck, VerdictOf;
    PrepareIsOk(cfg, db, req, env);
    var (db1, flow) := Prepare(cfg, db, req, env);
    var (db', resp) := Handle(cfg, db, req, env);
    match flow
    case Return(r) =>
      if !env.commitFails {
        var w: Write :| w.eventId == env.eventId && w.data.eventType != COMPLETED
                        && db1.log == db.log + [NewRow(cfg.crypto, db.log, w)];
        GrownAppend(cfg.crypto, db.log, w);
        LoggingKeepsMeters(db, db', NewRow(cfg.crypto, db.log, w));
      }
    case Go(ctx) =>
      if resp.ProviderError? {
        var w := FailureWrite(cfg, req, env, ctx);
        GrownAppend(cfg.crypto, db.log, w);
        LoggingKeepsMeters(db, db', NewRow(cfg.crypto, db.log, w));
      } else if resp.Completed? {
        var w := CompletionWrite(cfg, req, env, ctx, env.reply.text);
        GrownAppend(cfg.crypto, db.log, w);
        LoggingKeepsMeters(db, db', NewRow(cfg.crypto, db.log, w));
      }
  }

  lemma ChangeKeepsConsistent(fs: FL.FeatureState, change: FeatureChange)
    requires FL.Consistent(fs)
    ensures FL.Consistent(fs.(feature := Changed(fs.feature, change)))
  {
    if fs.versions != [] {
      var a: nat :| FL.IsTheApproved(fs, a);
      assert FL.IsTheApproved(fs.(feature := Changed(fs.feature, change)), a);
    }
  }

  lemma DecidingKeepsFeaturesOk(indexed: bool, features: FL.Features, t: string, f: string, v: string, now: int)
    requires FeaturesOk(features) && (t, f) in features
    ensures var r := FL.ApproveOn(indexed, features[(t, f)], v, now); r.Ok? ==> FeaturesOk(features[(t, f) := r.value])
    ensures var r := FL.Reject(features[(t, f)], v, now); r.Ok? ==> FeaturesOk(features[(t, f) := r.value])
  {
    hide FL.Consistent, FL.MeetsTheIndex;
    var fs := features[(t, f)];
    if FL.ApproveOn(indexed, fs, v, now).Ok? {
      FL.ApproveKeepsConsistent(fs, v, now);
      StoringKeepsFeaturesOk(features, (t, f), FL.Approve(fs, v, now).value);
    }
    FL.RejectOutcome(fs, v, now);
    if FL.Reject(fs, v, now).Ok? {
      StoringKeepsFeaturesOk(features, (t, f), FL.Reject(fs, v, now).value);
    }
  }

  lemma EditingKeepsFeaturesOk(features: FL.Features, t: string, f: string, change: FeatureChange)
    requires FeaturesOk(features) && (t, f) in features
    ensures var fs := features[(t, f)];
            FeaturesOk(features[(t, f) := fs.(feature := Changed(fs.feature, change))])
  {
    hide FL.Consistent;
    var fs := features[(t, f)];
    ChangeKeepsConsistent(fs, change);
    StoringKeepsFeaturesOk(features, (t, f), fs.(feature := Changed(fs.feature, change)));
  }

  lemma ClosingKeepsTasksOk(tasks: seq<RT.Task>, t: string, id: string, note: Option<string>, now: int)
    requires TasksOk(tasks)
    ensures TasksOk(RT.Close(tasks, t, id, note, now))
  {
    RT.ApplyKeepsInvariant(tasks, RT.Closing(t, id, note, now));
  }

  lemma ApplyKeepsDbOk(cfg: Settings, db: Db, op: Op)
    requires DbOk(cfg, db) && Admissible(db, op)
    ensures DbOk(cfg, Apply(cfg, db, op))
  {
    hide FeaturesOk, TasksOk, Grown, MetersOk, Handle;
    match op
    case Chat(req, env) => ChatKeepsDbOk(cfg, db, req, env);
    case ApproveVersion(t, f, v, now) =>
      if (t, f) in db.features {
        DecidingKeepsFeaturesOk(cfg.partialIndexes, db.features, t, f, v, now);
      }
    case RejectVersion(t, f, v, now) =>
      if (t, f) in db.features {
        DecidingKeepsFeaturesOk(cfg.partialIndexes, db.features, t, f, v, now);
      }
    case CreateFeature(t, f) => CreatingKeepsFeaturesOk(db.features, t, f);
    case UpdateFeature(t, f, change) =>
      if (t, f) in db.features {
        EditingKeepsFeaturesOk(db.features, t, f, change);
      }
    case CloseTask(t, id, note, now) => ClosingKeepsTasksOk(db.tasks, t, id, note, now);
    case OtherEvidence(w) =>
      GrownAppend(cfg.crypto, db.log, w);
      LoggingKeepsMeters(db, Emit(cfg, db, w), NewRow(cfg.crypto, db.log, w));
  }

  /**
   In every reachable state of a serial run mixing requests that block, quarantine, fail or
   complete with approvals, rejections, feature edits and task closures: each feature's
   lifecycle is consistent, no two open tasks share an index key, the evidence log is a
   sound chain, and each tenant's meter is its number of completed requests.
   */
  lemma {:induction false} ReachableStatesAreSound(cfg: Settings, db: Db, ops: seq<Op>)
    requires DbOk(cfg, db) && AdmissibleRun(cfg, db, ops)
    ensures DbOk(cfg, Run(cfg, db, ops))
    decreases |ops|
  {
    if ops != [] {
      ApplyKeepsDbOk(cfg, db, ops[0]);
      ReachableStatesAreSound(cfg, Apply(cfg, db, ops[0]), ops[1..]);
    }
  }

  lemma EmptyTablesAreSound(cfg: Settings)
    ensures DbOk(cfg, Db(map[], [], [], map[]))
  {
  }

  lemma MeterIsExact(log: seq<Row>, meters: map<(string, string), nat>, tenant: string)
    requires MetersOk(log, meters)
    ensures var meter := (tenant, "governed_call");
            (if meter in meters then meters[meter] else 0)
            == |Places(log, (r: Row) => r.tenantId == tenant && r.eventType == "ai_request_completed")|
  {
    var completed := (r: Row) => r.tenantId == tenant && r.eventType == "ai_request_completed";
    assert Completions(log, tenant) == Count(log, completed);
    CountIsPlaces(log, completed);
  }

  /** The meter law on its own, from empty tables. */
  lemma MetersCountCompletions(cfg: Settings, ops: seq<Op>, tenant: string)
    requires AdmissibleRun(cfg, Db(map[], [], [], map[]), ops)
    ensures var db, meter := Run(cfg, Db(map[], [], [], map[]), ops), (tenant, "governed_call");
            (if meter in db.meters then db.meters[meter] else 0)
            == |Places(db.log, (r: Row) => r.tenantId == tenant && r.eventType == "ai_request_completed")|
  {
    hide Run, AdmissibleRun, FeaturesOk, TasksOk, Grown, MetersOk;
    EmptyTablesAreSound(cfg);
    ReachableStatesAreSound(cfg, Db(map[], [], [], map[]), ops);
    var db := Run(cfg, Db(map[], [], [], map[]), ops);
    assert MetersOk(db.log, db.meters);
    MeterIsExact(db.log, db.meters, tenant);
  }
}
