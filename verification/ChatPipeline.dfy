/**
 The governed chat request (app/services/pipeline.py): gates, provider call, evidence,
 usage meter, and the transaction around them.

 A request works on the session's view of the tables and either commits it as a whole or
 rolls it back; evidence of a provider failure is written by a session of its own.
 */
module ChatPipeline {
  import opened Common
  import opened EvidenceChain
  import FL = FeatureLifecycle
  import Risk = RiskEngine
  import RT = ReviewTasks

  datatype Enforcement = Warn | QuarantineMissing | BlockMissing

  datatype CandidatePolicy = AllowWithWarning | QuarantineCandidate | BlockCandidate

  /** Whether the database checks references and has the partial indexes (PostgreSQL does, SQLite here does not). */
  datatype Settings = Settings(
    defaultModel: string, enforcement: Enforcement, candidatePolicy: CandidatePolicy,
    matcher: Risk.Matcher, sha256: string -> string, crypto: Crypto,
    foreignKeys: bool, partialIndexes: bool)

  datatype Request = Request(
    tenantId: string, featureId: Option<string>, model: Option<string>, text: string, policyContext: seq<string>)

  datatype Reply = ProviderFailed(message: string) | Output(text: string)

  /** What one request draws from its surroundings: ids, clocks, the provider, the commit. */
  datatype Env = Env(
    requestId: string, eventId: EventId, timestamp: int, createdAt: int, now: int, versionId: string,
    missingTaskId: string, changeTaskId: string, gateTaskId: string, riskTaskId: string,
    reply: Reply, commitFails: bool)

  /** The tables a request can touch. */
  datatype Db = Db(
    features: FL.Features, tasks: seq<RT.Task>, log: seq<Row>, meters: map<(string, string), nat>)

  /** The locals that later stages and the evidence refer to. */
  datatype Ctx = Ctx(
    featureId: string, featurePk: Option<string>, featureVersionId: Option<string>,
    aiSystemId: Option<string>, warnings: seq<string>)

  datatype Response =
    | Stopped(status: string, eventId: EventId, eventHash: Hash)
    | Completed(output: string, verdict: Risk.Verdict, eventId: EventId, eventHash: Hash, versionId: Option<string>,
                warnings: seq<string>)
    | ProviderError(eventId: EventId)
    | InternalError

  /** A stage of the request continues, returns early, or raises. */
  datatype Flow = Go(ctx: Ctx) | Return(response: Response) | Raise

  const UNMAPPED := "unmapped_feature"
  const PROVIDER := "openai"
  const COMPLETED := "ai_request_completed"
  const GOVERNED_CALL := "governed_call"

  function ModelOf(cfg: Settings, req: Request): string {
    if Truthy(req.model) then req.model.value else cfg.defaultModel
  }

  function ConfigOf(cfg: Settings, req: Request): FL.Config {
    FL.Config(PROVIDER, ModelOf(cfg, req), cfg.sha256(req.text))
  }

  function PreCheck(cfg: Settings, req: Request): Risk.Risk {
    Risk.Assess(cfg.matcher, req.text, req.policyContext)
  }

  function GovernanceRisk(ruleId: string, action: string): Risk.Risk {
    Risk.Risk(Risk.HighRisk, 60, [Risk.RuleResult(ruleId, "feature_governance", Risk.High, action, ruleId)], [ruleId])
  }

  function LevelText(level: Risk.Level): string {
    match level
    case LowRisk => "low"
    case MediumRisk => "medium"
    case HighRisk => "high"
  }

  // ---- Writes --------------------------------------------------------------------------------

  function EventWrite(req: Request, env: Env, ctx: Ctx, eventType: string, decision: string, status: string,
                      risk: Risk.Risk): Write {
    Write(
      EventData(req.tenantId, eventType, decision, status, LevelText(risk.level), risk.score, env.requestId,
                Some(ctx.featureId), ctx.featurePk, ctx.featureVersionId, ctx.aiSystemId, ctx.warnings),
      env.eventId, env.timestamp, env.createdAt)
  }

  function Emit(cfg: Settings, db: Db, w: Write): Db {
    db.(log := db.log + [NewRow(cfg.crypto, db.log, w)])
  }

  function TaskCall(req: Request, env: Env, ctx: Ctx, reviewType: string, reason: string, severity: string,
                    versionId: Option<string>, taskId: string): RT.Call {
    RT.Call(RT.Key(req.tenantId, Some(ctx.featureId), ctx.featurePk, versionId, reviewType, reason),
            severity, map["request_id" := env.requestId], ctx.aiSystemId, taskId, env.now)
  }

  function RaiseTask(db: Db, c: RT.Call): Result<Db, RT.IntegrityError> {
    var r :- RT.GetOrCreate(db.tasks, c);
    Ok(db.(tasks := r.0))
  }

  function MeterOf(meters: map<(string, string), nat>, tenant: string): nat {
    if (tenant, GOVERNED_CALL) in meters then meters[(tenant, GOVERNED_CALL)] else 0
  }

  function RecordUsage(db: Db, tenant: string): Db {
    db.(meters := db.meters[(tenant, GOVERNED_CALL) := MeterOf(db.meters, tenant) + 1])
  }

  // ---- Stages ---------------------------------------------------------------------------------

  /** The response says "quarantined"; the candidate's event spells the same status differently. */
  function EventStatus(eventType: string, status: string): string {
    if eventType == "request_quarantined_candidate_version" then "quarantineed" else status
  }

  function Stop(cfg: Settings, db: Db, req: Request, env: Env, ctx: Ctx, eventType: string, decision: string,
                status: string, risk: Risk.Risk): (Db, Flow) {
    var w := EventWrite(req, env, ctx, eventType, decision, EventStatus(eventType, status), risk);
    (Emit(cfg, db, w), Return(Stopped(status, w.eventId, NewRow(cfg.crypto, db.log, w).hash)))
  }

  function IdentifyFeature(cfg: Settings, db: Db, req: Request, env: Env): (Db, Flow) {
    if Truthy(req.featureId) then (db, Go(Ctx(req.featureId.value, None, None, None, []))) else
    var ctx := Ctx(UNMAPPED, None, None, None, ["missing_feature_id"]);
    match RaiseTask(db, TaskCall(req, env, ctx, "feature_registration", "missing_feature_id", "medium", None,
                                 env.missingTaskId))
    case Err(_) => (db, Raise)
    case Ok(db1) =>
      match cfg.enforcement
      case BlockMissing =>
        Stop(cfg, db1, req, env, ctx, "request_blocked_missing_feature", "block", "blocked",
             GovernanceRisk("feature.missing_id_blocked", "block"))
      case QuarantineMissing =>
        Stop(cfg, db1, req, env, ctx, "request_quarantined", "quarantine", "quarantined",
             GovernanceRisk("feature.missing_id", "quarantine"))
      case Warn => (db1, Go(ctx))
  }

  function CandidateStage(cfg: Settings, db: Db, req: Request, env: Env, ctx: Ctx): (Db, Flow) {
    var ctx1 := ctx.(warnings := ctx.warnings + ["candidate_feature_version"]);
    match RaiseTask(db, TaskCall(req, env, ctx1, "change_triggered", "candidate_version_requires_review", "medium",
                                 ctx1.featureVersionId, env.gateTaskId))
    case Err(_) => (db, Raise)
    case Ok(db1) =>
      match cfg.candidatePolicy
      case BlockCandidate =>
        Stop(cfg, db1, req, env, ctx1, "request_blocked_candidate_version", "block", "blocked",
             GovernanceRisk("feature.candidate_version_block", "block"))
      case QuarantineCandidate =>
        Stop(cfg, db1, req, env, ctx1, "request_quarantined_candidate_version", "quarantine", "quarantined",
             GovernanceRisk("feature.candidate_version_quarantine", "quarantine"))
      case AllowWithWarning => (db1, Go(ctx1))
  }

  function RefusedStage(cfg: Settings, db: Db, req: Request, env: Env, ctx: Ctx, gate: FL.Gate): (Db, Flow)
    requires gate.Refuse?
  {
    var reason := FL.ReasonText(gate);
    var versionId := if gate.barred.Some? then Some(gate.barred.value.versionId) else None;
    match RaiseTask(db, TaskCall(req, env, ctx, "feature_governance", reason, "high", versionId, env.gateTaskId))
    case Err(_) => (db, Raise)
    case Ok(db1) =>
      if cfg.enforcement == Warn && gate.reason == FL.NotRegistered then
        (db1, Go(ctx.(warnings := ctx.warnings + ["unknown_feature_allowed_in_warn_mode"])))
      else
        Stop(cfg, db1, req, env, ctx, "request_blocked_feature_policy", "block", "blocked",
             GovernanceRisk("feature." + reason, "block"))
  }

  function GateStage(cfg: Settings, db: Db, req: Request, env: Env, ctx: Ctx): (Db, Flow) {
    if ctx.featureId == UNMAPPED then (db, Go(ctx)) else
    match FL.Validate(db.features, db.tasks, req.tenantId, ctx.featureId, ConfigOf(cfg, req), env.versionId,
                      env.changeTaskId, env.now)
    case Err(_) => (db, Raise)
    case Ok(v) =>
      var db1 := db.(features := v.features, tasks := v.tasks);
      var ctx1 :=
        if (req.tenantId, ctx.featureId) in db.features then
          var f := db.features[(req.tenantId, ctx.featureId)].feature;
          ctx.(featurePk := Some(f.pk), aiSystemId := f.aiSystemId)
        else ctx;
      match v.gate
      case Refuse(_, _) => RefusedStage(cfg, db1, req, env, ctx1, v.gate)
      case Allow(r) =>
        var ctx2 := ctx1.(featureVersionId := Some(r.versionId));
        if r.status == FL.Candidate then CandidateStage(cfg, db1, req, env, ctx2) else (db1, Go(ctx2))
  }

  function PreCheckStage(cfg: Settings, db: Db, req: Request, env: Env, ctx: Ctx): (Db, Flow) {
    var pre := PreCheck(cfg, req);
    if pre.level != Risk.HighRisk then (db, Go(ctx)) else
    match RaiseTask(db, TaskCall(req, env, ctx, "risk_review", "high_risk_pre_check", "high", ctx.featureVersionId,
                                 env.riskTaskId))
    case Err(_) => (db, Raise)
    case Ok(db1) => Stop(cfg, db1, req, env, ctx, "request_blocked_pre_check", "block", "blocked", pre)
  }

  /** Everything before the provider call, on the session's view. */
  function Prepare(cfg: Settings, db: Db, req: Request, env: Env): (Db, Flow) {
    var (db1, f1) := IdentifyFeature(cfg, db, req, env);
    if !f1.Go? then (db1, f1) else
    var (db2, f2) := GateStage(cfg, db1, req, env, f1.ctx);
    if !f2.Go? then (db2, f2) else
    PreCheckStage(cfg, db2, req, env, f2.ctx)
  }

  /** The provider is called exactly when every stage lets the request through. */
  predicate CallsProvider(cfg: Settings, db: Db, req: Request, env: Env) {
    Prepare(cfg, db, req, env).1.Go?
  }

  function VerdictOf(cfg: Settings, req: Request, ctx: Ctx, output: string): Risk.Verdict {
    Risk.FinalVerdict(PreCheck(cfg, req), Risk.Assess(cfg.matcher, output, req.policyContext),
                      "candidate_feature_version" in ctx.warnings)
  }

  function CompletionWrite(cfg: Settings, req: Request, env: Env, ctx: Ctx, output: string): Write {
    var v := VerdictOf(cfg, req, ctx, output);
    EventWrite(req, env, ctx, COMPLETED, v.decision, "completed", v.risk)
  }

  function FailureWrite(cfg: Settings, req: Request, env: Env, ctx: Ctx): Write {
    EventWrite(req, env, ctx, "provider_error", "error", "error", PreCheck(cfg, req))
  }

  predicate VersionStored(db: Db, id: Option<string>) {
    id.None? || exists key | key in db.features :: FL.FindVersion(db.features[key].versions, id.value).Some?
  }

  /** The independent writer's insert satisfies the references of the committed tables. */
  predicate FailureEvidenceFits(cfg: Settings, committed: Db, ctx: Ctx) {
    cfg.foreignKeys ==> VersionStored(committed, ctx.featureVersionId)
  }

  /** The committed tables after a request, and what its caller gets. */
  function Handle(cfg: Settings, committed: Db, req: Request, env: Env): (Db, Response) {
    var (db, flow) := Prepare(cfg, committed, req, env);
    match flow
    case Raise => (committed, InternalError)
    case Return(r) => if env.commitFails then (committed, InternalError) else (db, r)
    case Go(ctx) =>
      match env.reply
      case ProviderFailed(_) =>
        if env.commitFails || !FailureEvidenceFits(cfg, committed, ctx) then (committed, InternalError)
        else (Emit(cfg, committed, FailureWrite(cfg, req, env, ctx)), ProviderError(env.eventId))
      case Output(text) =>
        if env.commitFails then (committed, InternalError) else
        var w := CompletionWrite(cfg, req, env, ctx, text);
        (RecordUsage(Emit(cfg, db, w), req.tenantId),
         Completed(text, VerdictOf(cfg, req, ctx, text), w.eventId, NewRow(cfg.crypto, db.log, w).hash,
                   ctx.featureVersionId, ctx.warnings))
  }
}
