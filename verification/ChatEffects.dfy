/**
 What a governed request leaves in the tables beside its event: the review tasks and the
 one feature it is about, and nothing else; and how an approval or a rejection reaches the
 requests after it (app/services/pipeline.py:135-238, app/services/feature_service.py:87-283).
 */
module ChatEffects {
  import opened Common
  import opened EvidenceChain
  import opened ChatPipeline
  import opened ChatGuarantees
  import opened ChatRecords
  import FL = FeatureLifecycle
  import Risk = RiskEngine
  import RT = ReviewTasks

  // ---- Change tasks ---------------------------------------------------------------------------------------

  /** The task of a version that is not the current one, whatever then becomes of the request. */
  function ChangeFiling(cfg: Settings, db: Db, req: Request, env: Env): TaskFiling
    requires IsRegistered(db, req)
  {
    var model := if Truthy(req.model) then req.model.value else cfg.defaultModel;
    TaskFiling(
      RT.Key(req.tenantId, req.featureId, KeyOf(db, req), VersionOf(cfg, db, req, env), "change_triggered",
             "feature_fingerprint_changed"),
      "medium", map["model" := model, "provider" := "openai"], None)
  }

  lemma OtherTasksStay(db: Db, c: RT.Call, t: TaskFiling, now: int)
    requires HasOpenTask(db.tasks, t, now) && RaiseTask(db, c).Ok? && c.key != t.key
    ensures HasOpenTask(RaiseTask(db, c).value.tasks, t, now)
  {
    hide RT.FindOpen, RT.Refused;
    var k :| 0 <= k < |db.tasks| && IsTouched(db.tasks[k], t, now);
    assert RaiseTask(db, c).value.tasks[k] == db.tasks[k];
  }

  lemma ValidationFilesTheChange(cfg: Settings, db: Db, req: Request, env: Env)
    requires FeaturesOk(db.features) && TasksOk(db.tasks) && FreshVersion(db.features, env.versionId)
    requires MeetsCandidate(cfg, db, req, env)
    ensures var v := FL.Validate(db.features, db.tasks, req.tenantId, req.featureId.value, ConfigOf(cfg, req),
                                 env.versionId, env.changeTaskId, env.now);
            && v.Ok? && TasksOk(v.value.tasks) && v.value.gate.Allow? && v.value.gate.version.status == FL.Candidate
            && VersionOf(cfg, db, req, env) == Some(v.value.gate.version.versionId)
            && HasOpenTask(v.value.tasks, ChangeFiling(cfg, db, req, env), env.now)
  {
    hide FL.Consistent, FL.Ensure, FL.RowRefusal, RT.AtMostOneOpen, HasOpenTask;
    var key, c := (req.tenantId, req.featureId.value), ConfigOf(cfg, req);
    var fs := db.features[key];
    ValidationShape(cfg, db, req, env, key.1);
    EnsuringIsOk(db.features, db.tasks, key, c, env.versionId, env.changeTaskId, env.now);
    FL.AllowedVersions(fs, c, env.versionId, env.now);
    FL.EnsureOutcome(fs, c, env.versionId, env.now);
    var (fs', r) := FL.Ensure(fs, c, env.versionId, env.now);
    var call := FL.ChangeTask(fs'.feature, c, r, env.changeTaskId, env.now);
    RaisedTaskIsOpen(db, call);
  }

  lemma GateFilesTheChange(cfg: Settings, db: Db, req: Request, env: Env, ctx: Ctx)
    requires FeaturesOk(db.features) && TasksOk(db.tasks) && FreshVersion(db.features, env.versionId)
    requires MeetsCandidate(cfg, db, req, env) && NotLookedUp(req, ctx)
    ensures HasOpenTask(GateStage(cfg, db, req, env, ctx).0.tasks, ChangeFiling(cfg, db, req, env), env.now)
  {
    hide FL.Validate, FL.Ensure, FL.RowRefusal, HasOpenTask, FeaturesOk, TasksOk, RaiseTask, KeyOf, VersionOf;
    ValidationFilesTheChange(cfg, db, req, env);
    GateShape(cfg, db, req, env, ctx);
    LookupNamesTheFeature(db, req, ctx);
    var v := Validated(cfg, db, req, env, ctx).value;
    var db1 := db.(features := v.features, tasks := v.tasks);
    var ctx1 := LookedUp(db, req, ctx).(featureVersionId := Some(v.gate.version.versionId));
    var ctx2 := ctx1.(warnings := ctx1.warnings + ["candidate_feature_version"]);
    var c := TaskCall(req, env, ctx2, "change_triggered", "candidate_version_requires_review", "medium",
                      ctx2.featureVersionId, env.gateTaskId);
    TaskIsRaised(db1, c);
    assert |"candidate_version_requires_review"| != |"feature_fingerprint_changed"|;
    OtherTasksStay(db1, c, ChangeFiling(cfg, db, req, env), env.now);
  }

  lemma PreCheckKeepsTheChange(cfg: Settings, db: Db, req: Request, env: Env, ctx: Ctx, t: TaskFiling)
    requires TasksOk(db.tasks) && CtxOk(ctx) && HasOpenTask(db.tasks, t, env.now)
    requires t.key.reviewType == "change_triggered"
    ensures HasOpenTask(PreCheckStage(cfg, db, req, env, ctx).0.tasks, t, env.now)
  {
    hide HasOpenTask, TasksOk, RaiseTask, Risk.Assess;
    var c := TaskCall(req, env, ctx, "risk_review", "high_risk_pre_check", "high", ctx.featureVersionId,
                      env.riskTaskId);
    TaskIsRaised(db, c);
    assert |"risk_review"| != |"change_triggered"|;
    OtherTasksStay(db, c, t, env.now);
  }

  /** Whatever then becomes of it, a request that meets a candidate leaves an open task for the change. */
  lemma CandidatesAreFiled(cfg: Settings, db: Db, req: Request, env: Env)
    requires DbOk(cfg, db) && FreshEnv(db, env) && MeetsCandidate(cfg, db, req, env)
    ensures var (db', resp) := Handle(cfg, db, req, env);
            resp.Stopped? || resp.Completed? ==> HasOpenTask(db'.tasks, ChangeFiling(cfg, db, req, env), env.now)
  {
    hide GateStage, PreCheckStage, HasOpenTask, FL.Consistent, RT.AtMostOneOpen, Grown, MetersOk, FL.Ensure;
    hide GateOpens, GatePassed, FL.RowRefusal, VersionOf, KeyOf;
    IdentifyIsOk(cfg, db, req, env);
    assert Truthy(req.featureId);
    var ctx := IdentifyFeature(cfg, db, req, env).1.ctx;
    GateFilesTheChange(cfg, db, req, env, ctx);
    GateIsOk(cfg, db, req, env, ctx);
    var (db2, f2) := GateStage(cfg, db, req, env, ctx);
    if f2.Go? {
      PreCheckKeepsTheChange(cfg, db2, req, env, f2.ctx, ChangeFiling(cfg, db, req, env));
    }
  }


  // ---- No other task ----------------------------------------------------------------------------------------

  /** Only tasks of these keys are changed or added. */
  ghost predicate OnlyTouches(before: seq<RT.Task>, after: seq<RT.Task>, keys: set<RT.Key>) {
    && |before| <= |after|
    && (forall k :: 0 <= k < |before| ==>
          after[k].key == before[k].key && (before[k].key !in keys ==> after[k] == before[k]))
    && (forall k :: |before| <= k < |after| ==> after[k].key in keys)
  }

  lemma RaisingTouchesOne(db: Db, c: RT.Call)
    requires RaiseTask(db, c).Ok?
    ensures OnlyTouches(db.tasks, RaiseTask(db, c).value.tasks, {c.key})
  {
    hide RT.FindOpen, RT.Refused;
  }

  lemma TouchesAddUp(a: seq<RT.Task>, b: seq<RT.Task>, c: seq<RT.Task>, k: set<RT.Key>, l: set<RT.Key>, m: set<RT.Key>)
    requires OnlyTouches(a, b, k) && OnlyTouches(b, c, l) && k + l <= m
    ensures OnlyTouches(a, c, m)
  {
  }

  lemma NothingTouched(tasks: seq<RT.Task>, keys: set<RT.Key>)
    ensures OnlyTouches(tasks, tasks, keys)
  {
  }

  lemma MoreKeys(a: seq<RT.Task>, b: seq<RT.Task>, k: set<RT.Key>, l: set<RT.Key>)
    requires OnlyTouches(a, b, k) && k <= l
    ensures OnlyTouches(a, b, l)
  {
  }

  /** The keys of the review tasks a request is about. */
  function KeysOf(cfg: Settings, db: Db, req: Request, env: Env): set<RT.Key> {
    var version := VersionOf(cfg, db, req, env);
    (if Truthy(req.featureId) then {}
     else {TaskFor(db, req, env, None, "feature_registration", "missing_feature_id", "medium").key})
    + (if NamesFeature(req) && !IsRegistered(db, req)
       then {PolicyFiling(db, req, env, None, "feature_not_registered").task.key} else {})
    + (if MeetsCandidate(cfg, db, req, env)
       then {ChangeFiling(cfg, db, req, env).key, CandidateFiling(db, req, env, version, BlockCandidate).task.key}
       else {})
    + (if FirstRefusal(cfg, db, req, env).Some? then {FirstRefusal(cfg, db, req, env).value.task.key} else {})
  }

  lemma IdentifyTouches(cfg: Settings, db: Db, req: Request, env: Env)
    requires TasksOk(db.tasks)
    ensures OnlyTouches(db.tasks, IdentifyFeature(cfg, db, req, env).0.tasks, KeysOf(cfg, db, req, env))
  {
    hide TasksOk, RaiseTask, OnlyTouches, FirstRefusal, MeetsCandidate, VersionOf, SystemOf;
    if Truthy(req.featureId) {
      NothingTouched(db.tasks, KeysOf(cfg, db, req, env));
    } else {
      var ctx := Ctx(UNMAPPED, None, None, None, ["missing_feature_id"]);
      var c := TaskCall(req, env, ctx, "feature_registration", "missing_feature_id", "medium", None, env.missingTaskId);
      TaskIsRaised(db, c);
      RaisingTouchesOne(db, c);
      MoreKeys(db.tasks, RaiseTask(db, c).value.tasks, {c.key}, KeysOf(cfg, db, req, env));
    }
  }

  lemma ValidationTouches(cfg: Settings, db: Db, req: Request, env: Env, v: FL.Validation)
    requires FeaturesOk(db.features) && TasksOk(db.tasks) && FreshVersion(db.features, env.versionId)
    requires NamesFeature(req) && ValidationOk(cfg, db, req, env, req.featureId.value, v)
    requires FL.Validate(db.features, db.tasks, req.tenantId, req.featureId.value, ConfigOf(cfg, req), env.versionId,
                         env.changeTaskId, env.now) == Ok(v)
    ensures MeetsCandidate(cfg, db, req, env) ==>
              OnlyTouches(db.tasks, v.tasks, {ChangeFiling(cfg, db, req, env).key})
    ensures !MeetsCandidate(cfg, db, req, env) ==> v.tasks == db.tasks
  {
    hide FL.Consistent, FL.Ensure, FL.RowRefusal, RT.AtMostOneOpen, OnlyTouches;
    if IsRegistered(db, req) && FL.RowRefusal(FeatureOf(db, req).feature, ConfigOf(cfg, req)).None? {
      var key, c := (req.tenantId, req.featureId.value), ConfigOf(cfg, req);
      var fs := db.features[key];
      ValidationShape(cfg, db, req, env, key.1);
      EnsuringIsOk(db.features, db.tasks, key, c, env.versionId, env.changeTaskId, env.now);
      FL.AllowedVersions(fs, c, env.versionId, env.now);
      FL.EnsureOutcome(fs, c, env.versionId, env.now);
      var (fs', r) := FL.Ensure(fs, c, env.versionId, env.now);
      RaisingTouchesOne(db, FL.ChangeTask(fs'.feature, c, r, env.changeTaskId, env.now));
    }
  }

  lemma RefusedTouches(cfg: Settings, db: Db, db1: Db, req: Request, env: Env, ctx: Ctx, gate: FL.Gate)
    requires TasksOk(db1.tasks) && CtxOk(ctx) && NamesTheFeature(db, req, ctx) && gate.Refuse?
    ensures OnlyTouches(db1.tasks, RefusedStage(cfg, db1, req, env, ctx, gate).0.tasks,
                        {PolicyFiling(db, req, env, BarredVersion(gate), FL.ReasonText(gate)).task.key})
  {
    hide TasksOk, RaiseTask, OnlyTouches, KeyOf, SystemOf, FL.ReasonText;
    var c := TaskCall(req, env, ctx, "feature_governance", FL.ReasonText(gate), "high", BarredVersion(gate),
                      env.gateTaskId);
    TaskIsRaised(db1, c);
    RaisingTouchesOne(db1, c);
  }

  lemma CandidateTouches(cfg: Settings, db: Db, db1: Db, req: Request, env: Env, ctx: Ctx)
    requires TasksOk(db1.tasks) && CtxOk(ctx) && NamesTheFeature(db, req, ctx)
    ensures OnlyTouches(db1.tasks, CandidateStage(cfg, db1, req, env, ctx).0.tasks,
                        {CandidateFiling(db, req, env, ctx.featureVersionId, BlockCandidate).task.key})
  {
    hide TasksOk, RaiseTask, OnlyTouches, KeyOf, SystemOf;
    var ctx1 := ctx.(warnings := ctx.warnings + ["candidate_feature_version"]);
    var c := TaskCall(req, env, ctx1, "change_triggered", "candidate_version_requires_review", "medium",
                      ctx1.featureVersionId, env.gateTaskId);
    TaskIsRaised(db1, c);
    RaisingTouchesOne(db1, c);
  }

  lemma ScanTouches(cfg: Settings, db: Db, db1: Db, req: Request, env: Env, ctx: Ctx)
    requires TasksOk(db1.tasks) && CtxOk(ctx) && NamesTheFeature(db, req, ctx)
    ensures var score := Risk.Assess(cfg.matcher, req.text, req.policyContext).score;
            OnlyTouches(db1.tasks, PreCheckStage(cfg, db1, req, env, ctx).0.tasks,
                        if score < 60 then {}
                        else {PreCheckFiling(db, req, env, ctx.featureVersionId, score, ctx.warnings).task.key})
  {
    hide TasksOk, RaiseTask, OnlyTouches, KeyOf, SystemOf, Risk.Assess;
    Risk.AssessmentIsSound(cfg.matcher, req.text, req.policyContext);
    var c := TaskCall(req, env, ctx, "risk_review", "high_risk_pre_check", "high", ctx.featureVersionId,
                      env.riskTaskId);
    TaskIsRaised(db1, c);
    RaisingTouchesOne(db1, c);
    NothingTouched(db1.tasks, {});
  }

  /** The gate's verdict on a registered feature whose row lets the request pass is that on its version. */
  lemma VerdictMeets(cfg: Settings, db: Db, req: Request, env: Env, v: FL.Validation)
    requires NamesFeature(req) && ValidationOk(cfg, db, req, env, req.featureId.value, v)
    ensures MeetsCandidate(cfg, db, req, env) <==> v.gate.Allow? && v.gate.version.status == FL.Candidate
    ensures !IsRegistered(db, req) <==> v.gate.Refuse? && v.gate.reason == FL.NotRegistered
    ensures !IsRegistered(db, req) ==> v.gate.barred.None?
  {
    hide FeaturesOk, TasksOk, FL.Ensure, FL.IsActive;
    if IsRegistered(db, req) {
      match FL.RowRefusal(FeatureOf(db, req).feature, ConfigOf(cfg, req))
      case Some(_) =>
      case None =>
    }
  }

  lemma RefusalIsFirst(cfg: Settings, db: Db, req: Request, env: Env)
    requires NamesFeature(req) && GateRefusal(cfg, db, req, env).Some?
    ensures GateRefusal(cfg, db, req, env).value.task.key in KeysOf(cfg, db, req, env)
  {
    hide GateRefusal, MeetsCandidate, ChangeFiling, CandidateFiling, Risk.Assess, VersionOf;
  }

  lemma UnknownIsKey(cfg: Settings, db: Db, req: Request, env: Env)
    requires NamesFeature(req) && !IsRegistered(db, req)
    ensures PolicyFiling(db, req, env, None, "feature_not_registered").task.key in KeysOf(cfg, db, req, env)
  {
    hide FirstRefusal, MeetsCandidate, ChangeFiling, CandidateFiling, PolicyFiling, VersionOf;
  }

  /** A refused request is about the task of its refusal. */
  lemma RefusalIsKey(cfg: Settings, db: Db, req: Request, env: Env, v: FL.Validation)
    requires NamesFeature(req) && ValidationOk(cfg, db, req, env, req.featureId.value, v) && v.gate.Refuse?
    ensures PolicyFiling(db, req, env, BarredVersion(v.gate), FL.ReasonText(v.gate)).task.key
            in KeysOf(cfg, db, req, env)
  {
    hide ValidationOk, GateRefusal, KeysOf, PolicyFiling, CandidateFiling, VersionOf;
    GateReads(cfg, db, req, env, v);
    VerdictMeets(cfg, db, req, env, v);
    if v.gate.reason == FL.NotRegistered {
      UnknownIsKey(cfg, db, req, env);
    } else {
      RefusalIsFirst(cfg, db, req, env);
    }
  }

  lemma CandidateKeysAreIn(cfg: Settings, db: Db, req: Request, env: Env)
    requires MeetsCandidate(cfg, db, req, env)
    ensures ChangeFiling(cfg, db, req, env).key in KeysOf(cfg, db, req, env)
    ensures CandidateFiling(db, req, env, VersionOf(cfg, db, req, env), BlockCandidate).task.key
            in KeysOf(cfg, db, req, env)
  {
    hide FirstRefusal, MeetsCandidate, ChangeFiling, CandidateFiling, PolicyFiling, VersionOf;
  }

  lemma GateTouches(cfg: Settings, db: Db, req: Request, env: Env, ctx: Ctx)
    requires FeaturesOk(db.features) && TasksOk(db.tasks) && FreshVersion(db.features, env.versionId)
    requires NotLookedUp(req, ctx) && NamesFeature(req)
    ensures OnlyTouches(db.tasks, GateStage(cfg, db, req, env, ctx).0.tasks, KeysOf(cfg, db, req, env))
  {
    hide FL.Validate, FL.Ensure, FL.RowRefusal, FeaturesOk, TasksOk, RaiseTask, OnlyTouches, VersionOf, KeyOf, SystemOf;
    hide GateRefusal, Risk.Assess, MeetsCandidate, FL.ReasonText, LookedUp, GateStage, RefusedStage, CandidateStage;
    hide PolicyFiling, CandidateFiling, ChangeFiling, KeysOf, NamesTheFeature;
    var keys := KeysOf(cfg, db, req, env);
    ValidationIsOk(cfg, db, req, env, ctx.featureId);
    GateShape(cfg, db, req, env, ctx);
    LookupNamesTheFeature(db, req, ctx);
    var v := Validated(cfg, db, req, env, ctx).value;
    VerdictMeets(cfg, db, req, env, v);
    GateReads(cfg, db, req, env, v);
    ValidationTouches(cfg, db, req, env, v);
    var db1, ctx1 := db.(features := v.features, tasks := v.tasks), LookedUp(db, req, ctx);
    var after := GateStage(cfg, db, req, env, ctx).0.tasks;
    match v.gate
    case Refuse(_, _) =>
      RefusedTouches(cfg, db, db1, req, env, ctx1, v.gate);
      RefusalIsKey(cfg, db, req, env, v);
      var filing := PolicyFiling(db, req, env, BarredVersion(v.gate), FL.ReasonText(v.gate));
      MoreKeys(db.tasks, after, {filing.task.key}, keys);
    case Allow(r) =>
      if r.status == FL.Candidate {
        var ctx2 := ctx1.(featureVersionId := Some(r.versionId));
        VersionKeepsTheFeature(db, req, ctx1, r.versionId);
        CandidateTouches(cfg, db, db1, req, env, ctx2);
        CandidateKeysAreIn(cfg, db, req, env);
        TouchesAddUp(db.tasks, v.tasks, after, {ChangeFiling(cfg, db, req, env).key},
                     {CandidateFiling(db, req, env, Some(r.versionId), BlockCandidate).task.key}, keys);
      } else {
        NothingTouched(db.tasks, keys);
      }
  }

  lemma SentinelSkipsTheGate(cfg: Settings, db: Db, req: Request, env: Env, ctx: Ctx)
    requires ctx.featureId == "unmapped_feature"
    ensures GateStage(cfg, db, req, env, ctx) == (db, Go(ctx))
  {
  }

  lemma IdentifyGoes(cfg: Settings, db: Db, req: Request, env: Env)
    requires TasksOk(db.tasks) && IdentifyFeature(cfg, db, req, env).1.Go?
    ensures NotLookedUp(req, IdentifyFeature(cfg, db, req, env).1.ctx)
    ensures Truthy(req.featureId) ==> IdentifyFeature(cfg, db, req, env).0 == db
  {
    hide TasksOk, RaiseTask;
  }

  lemma GatesTouch(cfg: Settings, db: Db, req: Request, env: Env)
    requires DbOk(cfg, db) && FreshEnv(db, env) && IdentifyFeature(cfg, db, req, env).1.Go?
    ensures var (db1, f1) := IdentifyFeature(cfg, db, req, env);
            OnlyTouches(db.tasks, GateStage(cfg, db1, req, env, f1.ctx).0.tasks, KeysOf(cfg, db, req, env))
  {
    hide GateStage, OnlyTouches, KeysOf, FL.Consistent, RT.AtMostOneOpen, Grown, MetersOk;
    IdentifyTouches(cfg, db, req, env);
    IdentifyIsOk(cfg, db, req, env);
    var (db1, f1) := IdentifyFeature(cfg, db, req, env);
    if NamesFeature(req) {
      GateTouches(cfg, db, req, env, f1.ctx);
    } else {
      SentinelSkipsTheGate(cfg, db1, req, env, f1.ctx);
    }
  }

  /** A high-risk input that passed the gates is what the request is first refused for. */
  lemma ScanKeyIsFiled(cfg: Settings, db: Db, req: Request, env: Env)
    requires PassesTheGates(cfg, db, req, env) && Risk.Assess(cfg.matcher, req.text, req.policyContext).score >= 60
    ensures PreCheckFiling(db, req, env, VersionOf(cfg, db, req, env),
                           Risk.Assess(cfg.matcher, req.text, req.policyContext).score,
                           WarningsOf(cfg, db, req, env)).task.key in KeysOf(cfg, db, req, env)
  {
    hide GateRefusal, MeetsCandidate, VersionOf, TaskFor, WarningsOf, Risk.Assess, ChangeFiling, CandidateFiling;
  }

  lemma PassedGates(cfg: Settings, db: Db, req: Request, env: Env)
    requires DbOk(cfg, db) && FreshEnv(db, env) && IdentifyFeature(cfg, db, req, env).1.Go?
    requires var (db1, f1) := IdentifyFeature(cfg, db, req, env); GateStage(cfg, db1, req, env, f1.ctx).1.Go?
    ensures PassesTheGates(cfg, db, req, env)
    ensures var (db1, f1) := IdentifyFeature(cfg, db, req, env);
            var (db2, f2) := GateStage(cfg, db1, req, env, f1.ctx);
            && TasksOk(db2.tasks) && CtxOk(f2.ctx) && NamesTheFeature(db, req, f2.ctx)
            && f2.ctx.featureVersionId == VersionOf(cfg, db, req, env)
            && f2.ctx.warnings == WarningsOf(cfg, db, req, env)
  {
    hide GateStage, GateRefusal, FL.Consistent, RT.AtMostOneOpen, Grown, MetersOk, IdentifyFeature, GatePassed;
    hide VersionOf, NamesTheFeature, WarningsOf, FeatureAdmits;
    IdentifyIsOk(cfg, db, req, env);
    IdentifyGoes(cfg, db, req, env);
    var (db1, f1) := IdentifyFeature(cfg, db, req, env);
    GateIsOk(cfg, db1, req, env, f1.ctx);
    GateKeepsTheFeature(cfg, db1, req, env, f1.ctx);
    TableReadsFeatures(cfg, db, db1, req, env, GateStage(cfg, db1, req, env, f1.ctx).1.ctx);
    if NamesFeature(req) {
      GateAgrees(cfg, db, req, env);
    }
  }

  lemma TasksAreOk(cfg: Settings, db: Db)
    requires DbOk(cfg, db)
    ensures TasksOk(db.tasks)
  {
  }

  lemma PrepareTouches(cfg: Settings, db: Db, req: Request, env: Env)
    requires DbOk(cfg, db) && FreshEnv(db, env)
    ensures OnlyTouches(db.tasks, Prepare(cfg, db, req, env).0.tasks, KeysOf(cfg, db, req, env))
  {
    hide GateStage, PreCheckStage, OnlyTouches, DbOk, FreshEnv, IdentifyFeature, KeysOf, VersionOf, WarningsOf;
    hide PassesTheGates, Risk.Assess, PreCheckFiling, NamesTheFeature, CtxOk, TasksOk;
    assert TasksOk(db.tasks) by {
      TasksAreOk(cfg, db);
    }
    IdentifyTouches(cfg, db, req, env);
    var (db1, f1) := IdentifyFeature(cfg, db, req, env);
    if f1.Go? {
      GatesTouch(cfg, db, req, env);
      var (db2, f2) := GateStage(cfg, db1, req, env, f1.ctx);
      if f2.Go? {
        PassedGates(cfg, db, req, env);
        ScanTouches(cfg, db, db2, req, env, f2.ctx);
        var score := Risk.Assess(cfg.matcher, req.text, req.policyContext).score;
        if score >= 60 {
          ScanKeyIsFiled(cfg, db, req, env);
        }
        TouchesAddUp(db.tasks, db2.tasks, PreCheckStage(cfg, db2, req, env, f2.ctx).0.tasks, KeysOf(cfg, db, req, env),
                     if score < 60 then {}
                     else {PreCheckFiling(db, req, env, f2.ctx.featureVersionId, score, f2.ctx.warnings).task.key},
                     KeysOf(cfg, db, req, env));
      }
    }
  }

  /** A request changes and adds only the review tasks it is about; every other task stays as it was. */
  lemma OnlyItsOwnTasks(cfg: Settings, db: Db, req: Request, env: Env)
    requires DbOk(cfg, db) && FreshEnv(db, env)
    ensures OnlyTouches(db.tasks, Handle(cfg, db, req, env).0.tasks, KeysOf(cfg, db, req, env))
  {
    hide Prepare, OnlyTouches, KeysOf, DbOk, FreshEnv;
    PrepareTouches(cfg, db, req, env);
    NothingTouched(db.tasks, KeysOf(cfg, db, req, env));
  }

  /** The features a request leaves: its own may have gained the version asked for, unless its row bars the request. */
  function FeaturesAfter(cfg: Settings, db: Db, req: Request, env: Env): FL.Features {
    if IsRegistered(db, req) && FL.RowRefusal(FeatureOf(db, req).feature, ConfigOf(cfg, req)).None? then
      db.features[(req.tenantId, req.featureId.value) :=
        FL.Ensure(FeatureOf(db, req), ConfigOf(cfg, req), env.versionId, env.now).0]
    else db.features
  }

  lemma GateFeatures(cfg: Settings, db: Db, req: Request, env: Env, ctx: Ctx)
    requires FeaturesOk(db.features) && TasksOk(db.tasks) && FreshVersion(db.features, env.versionId)
    requires NotLookedUp(req, ctx)
    ensures GateStage(cfg, db, req, env, ctx).0.features == FeaturesAfter(cfg, db, req, env)
  {
    hide FL.Validate, FL.Ensure, FL.RowRefusal, FeaturesOk, TasksOk, RefusedStage, CandidateStage, GateStage, StageOk;
    if NamesFeature(req) {
      ValidationIsOk(cfg, db, req, env, ctx.featureId);
      GateShape(cfg, db, req, env, ctx);
      LookupNamesTheFeature(db, req, ctx);
      var v := Validated(cfg, db, req, env, ctx).value;
      var db1 := db.(features := v.features, tasks := v.tasks);
      AfterValidationIsOk(cfg, db1, req, env, LookedUp(db, req, ctx), v.gate);
    } else {
      SentinelSkipsTheGate(cfg, db, req, env, ctx);
    }
  }

  lemma ScanKeepsFeatures(cfg: Settings, db: Db, req: Request, env: Env, ctx: Ctx)
    ensures PreCheckStage(cfg, db, req, env, ctx).0.features == db.features
  {
    hide RT.GetOrCreate, PreCheck;
  }

  lemma SameFeatures(cfg: Settings, db: Db, db1: Db, req: Request, env: Env)
    requires db1.features == db.features
    ensures FeaturesAfter(cfg, db1, req, env) == FeaturesAfter(cfg, db, req, env)
  {
  }

  /** A request that is kept, stopped or completed, stores the version asked for and touches no other feature. */
  lemma OnlyItsOwnFeature(cfg: Settings, db: Db, req: Request, env: Env)
    requires DbOk(cfg, db) && FreshEnv(db, env)
    ensures var (db', resp) := Handle(cfg, db, req, env);
            resp.Stopped? || resp.Completed? ==> db'.features == FeaturesAfter(cfg, db, req, env)
  {
    hide GateStage, PreCheckStage, FL.Consistent, RT.AtMostOneOpen, Grown, MetersOk, IdentifyFeature, FL.Ensure;
    hide GatePassed, GateOpens, FL.RowRefusal;
    IdentifyIsOk(cfg, db, req, env);
    var (db1, f1) := IdentifyFeature(cfg, db, req, env);
    if f1.Go? {
      IdentifyGoes(cfg, db, req, env);
      GateFeatures(cfg, db1, req, env, f1.ctx);
      assert FeaturesAfter(cfg, db1, req, env) == FeaturesAfter(cfg, db, req, env) by {
        SameFeatures(cfg, db, db1, req, env);
      }
      var (db2, f2) := GateStage(cfg, db1, req, env, f1.ctx);
      if f2.Go? {
        ScanKeepsFeatures(cfg, db2, req, env, f2.ctx);
      }
    }
  }

  // ---- Decisions reach requests ----------------------------------------------------------------------------

  /** Version `k` of the feature is the configuration the request asks for. */
  predicate AsksFor(cfg: Settings, req: Request, fs: FL.FeatureState, k: nat)
    requires k < |fs.versions|
  {
    var model := if Truthy(req.model) then req.model.value else cfg.defaultModel;
    fs.versions[k].fingerprint
    == FL.Fingerprint(fs.feature.featureId, "openai", model, cfg.sha256(req.text), fs.feature.policyBundle)
  }

  lemma AskedVersionIsEnsured(cfg: Settings, db: Db, req: Request, env: Env, k: nat)
    requires FeaturesOk(db.features) && IsRegistered(db, req) && k < |FeatureOf(db, req).versions|
    requires AsksFor(cfg, req, FeatureOf(db, req), k)
    ensures var r := FL.Ensure(FeatureOf(db, req), ConfigOf(cfg, req), env.versionId, env.now).1;
            r.status == FeatureOf(db, req).versions[k].status && r.versionId == FeatureOf(db, req).versions[k].id
  {
    hide FL.Ensure, FL.CurrentIsApproved;
    FL.EnsureOutcome(FeatureOf(db, req), ConfigOf(cfg, req), env.versionId, env.now);
  }

  /** The feature's row lets the request pass on to version `k`. */
  predicate Reaches(cfg: Settings, req: Request, fs: FL.FeatureState, k: nat) {
    k < |fs.versions| && AsksFor(cfg, req, fs, k) && FL.RowRefusal(fs.feature, ConfigOf(cfg, req)).None?
  }

  /** After a decision the request still asks for the same version of a feature that lets it pass. */
  lemma ApprovalKeepsTheConfiguration(cfg: Settings, req: Request, fs: FL.FeatureState, k: nat, now: int)
    requires FL.Consistent(fs) && Reaches(cfg, req, fs, k)
    requires FL.ApproveOn(cfg.partialIndexes, fs, fs.versions[k].id, now).Ok?
    ensures var fs' := FL.ApproveOn(cfg.partialIndexes, fs, fs.versions[k].id, now).value;
            && Reaches(cfg, req, fs', k)
            && fs'.versions[k].id == fs.versions[k].id && fs'.versions[k].status == FL.Approved
  {
    hide FL.FindVersion, FL.MeetsTheIndex, FL.Consistent, FL.SupersedeOthers;
    FL.ApproveOutcome(fs, fs.versions[k].id, now);
  }

  lemma RejectionKeepsTheConfiguration(cfg: Settings, req: Request, fs: FL.FeatureState, k: nat, now: int)
    requires FL.Consistent(fs) && Reaches(cfg, req, fs, k) && FL.Reject(fs, fs.versions[k].id, now).Ok?
    ensures var fs' := FL.Reject(fs, fs.versions[k].id, now).value;
            && Reaches(cfg, req, fs', k)
            && fs'.versions[k].id == fs.versions[k].id && fs'.versions[k].status == FL.Rejected
  {
    hide FL.Reject, FL.Consistent;
    FL.RejectedVersion(fs, fs.versions[k].id, now);
    FL.RejectOutcome(fs, fs.versions[k].id, now);
  }

  lemma FeatureIsConsistent(db: Db, req: Request)
    requires FeaturesOk(db.features) && IsRegistered(db, req)
    ensures FL.Consistent(FeatureOf(db, req))
  {
  }

  /** Once its version is rejected, every request of that configuration is refused as rejected. */
  lemma RejectionReachesRequests(cfg: Settings, db: Db, req: Request, env: Env, k: nat, now: int)
    requires DbOk(cfg, db) && IsRegistered(db, req) && Reaches(cfg, req, FeatureOf(db, req), k)
    requires FL.Reject(FeatureOf(db, req), FeatureOf(db, req).versions[k].id, now).Ok?
    ensures var id := FeatureOf(db, req).versions[k].id;
            var db' := Apply(cfg, db, RejectVersion(req.tenantId, req.featureId.value, id, now));
            FirstRefusal(cfg, db', req, env) == Some(PolicyFiling(db', req, env, Some(id), "version_rejected"))
  {
    hide FL.Ensure, FL.RowRefusal, FL.Reject, Risk.Assess, TaskFor, PolicyFiling, AsksFor, Grown, MetersOk, TasksOk;
    hide FL.Consistent;
    var op := RejectVersion(req.tenantId, req.featureId.value, FeatureOf(db, req).versions[k].id, now);
    ApplyKeepsDbOk(cfg, db, op);
    FeatureIsConsistent(db, req);
    RejectionKeepsTheConfiguration(cfg, req, FeatureOf(db, req), k, now);
    AskedVersionIsEnsured(cfg, Apply(cfg, db, op), req, env, k);
    FL.RowAdmitsIff(FeatureOf(Apply(cfg, db, op), req).feature, ConfigOf(cfg, req));
  }

  /** Once it is approved, such a request runs on it without a warning unless the input is high risk. */
  lemma ApprovalReachesRequests(cfg: Settings, db: Db, req: Request, env: Env, k: nat, now: int)
    requires DbOk(cfg, db) && IsRegistered(db, req) && Reaches(cfg, req, FeatureOf(db, req), k)
    requires FL.ApproveOn(cfg.partialIndexes, FeatureOf(db, req), FeatureOf(db, req).versions[k].id, now).Ok?
    ensures var id := FeatureOf(db, req).versions[k].id;
            var db' := Apply(cfg, db, ApproveVersion(req.tenantId, req.featureId.value, id, now));
            FreshEnv(db', env) ==>
              var flow := Prepare(cfg, db', req, env).1;
              && (flow.Go? <==> Risk.Assess(cfg.matcher, req.text, req.policyContext).score < 60)
              && (flow.Go? ==> flow.ctx.featureVersionId == Some(id) && flow.ctx.warnings == [])
  {
    hide FL.Ensure, FL.RowRefusal, FL.ApproveOn, Risk.Assess, AsksFor, Grown, MetersOk, TasksOk, Prepare, StageOk;
    hide FL.Consistent, GatePassed;
    var op := ApproveVersion(req.tenantId, req.featureId.value, FeatureOf(db, req).versions[k].id, now);
    var db' := Apply(cfg, db, op);
    ApplyKeepsDbOk(cfg, db, op);
    FeatureIsConsistent(db, req);
    ApprovalKeepsTheConfiguration(cfg, req, FeatureOf(db, req), k, now);
    AskedVersionIsEnsured(cfg, db', req, env, k);
    if FreshEnv(db', env) {
      PrepareIsOk(cfg, db', req, env);
      if CallsProvider(cfg, db', req, env) {
        PreparedForTheFeature(cfg, db', req, env);
      }
    }
  }
}
