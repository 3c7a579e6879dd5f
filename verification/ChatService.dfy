/**
 The chat request as the session executes it (app/services/pipeline.py:104-317), proved
 against `ChatPipeline.Handle`.
 */
module ChatService {
  import opened Common
  import opened EvidenceChain
  import opened ChatPipeline
  import FL = FeatureLifecycle
  import Risk = RiskEngine
  import RT = ReviewTasks

  /** The `usage_meters` table, keyed by tenant and event type. */
  class UsageMeters {
    var counts: map<(string, string), nat>

    constructor (counts: map<(string, string), nat>)
      ensures this.counts == counts
    {
      this.counts := counts;
    }

    method Add(tenant: string, eventType: string, count: nat)
      modifies this
      ensures counts == old(counts)[(tenant, eventType) :=
                          (if (tenant, eventType) in old(counts) then old(counts)[(tenant, eventType)] else 0) + count]
    {
      if (tenant, eventType) !in counts {
        counts := counts[(tenant, eventType) := count];
      } else {
        counts := counts[(tenant, eventType) := counts[(tenant, eventType)] + count];
      }
    }
  }

  /** The tables hold the session's flushed view; `committed` is what other sessions see. */
  class Service {
    const cfg: Settings
    const registry: FL.FeatureRegistry
    const tasks: RT.TaskTable
    const log: EvidenceTable
    const meters: UsageMeters
    var committed: Db

    ghost predicate Valid() {
      registry.reviewTasks == tasks && log.crypto == cfg.crypto
    }

    constructor (cfg: Settings, db: Db)
      ensures Valid() && this.cfg == cfg && committed == db && View() == db
      ensures fresh(registry) && fresh(tasks) && fresh(log) && fresh(meters)
    {
      this.cfg, this.committed := cfg, db;
      var t := new RT.TaskTable(db.tasks);
      this.tasks := t;
      this.registry := new FL.FeatureRegistry(db.features, t, cfg.partialIndexes);
      this.log := new EvidenceTable(cfg.crypto, db.log);
      this.meters := new UsageMeters(db.meters);
    }

    function View(): Db
      reads registry, tasks, log, meters
    {
      Db(registry.features, tasks.rows, log.rows, meters.counts)
    }

    method Commit(fails: bool) returns (done: bool)
      modifies this
      ensures done == !fails
      ensures committed == if fails then old(committed) else View()
    {
      if !fails {
        committed := View();
      }
      done := !fails;
    }

    method Rollback()
      modifies registry, tasks, log, meters
      ensures View() == committed
    {
      registry.features := committed.features;
      tasks.rows := committed.tasks;
      log.rows := committed.log;
      meters.counts := committed.meters;
    }

    method OpenTask(c: RT.Call) returns (ok: bool)
      modifies tasks
      ensures ok == RaiseTask(old(View()), c).Ok?
      ensures View() == if ok then RaiseTask(old(View()), c).value else old(View())
    {
      var task := tasks.GetOrCreateOpenReviewTask(c, tasks.rows, tasks.rows);
      ok := task.Ok?;
    }

    method StopWith(req: Request, env: Env, ctx: Ctx, eventType: string, decision: string, status: string,
                    risk: Risk.Risk)
      returns (flow: Flow)
      requires Valid()
      modifies log
      ensures (View(), flow) == Stop(cfg, old(View()), req, env, ctx, eventType, decision, status, risk)
    {
      var event := log.WriteEvidenceLog(EventWrite(req, env, ctx, eventType, decision, EventStatus(eventType, status),
                                                   risk));
      flow := Return(Stopped(status, event.eventId, event.hash));
    }

    method CheckFeatureId(req: Request, env: Env) returns (flow: Flow)
      requires Valid()
      modifies tasks, log
      ensures flow == IdentifyFeature(cfg, old(View()), req, env).1
      ensures !flow.Raise? ==> View() == IdentifyFeature(cfg, old(View()), req, env).0
    {
      if Truthy(req.featureId) {
        return Go(Ctx(req.featureId.value, None, None, None, []));
      }
      var ctx := Ctx(UNMAPPED, None, None, None, ["missing_feature_id"]);
      var ok := OpenTask(TaskCall(req, env, ctx, "feature_registration", "missing_feature_id", "medium", None,
                                  env.missingTaskId));
      if !ok {
        return Raise;
      }
      if cfg.enforcement == BlockMissing {
        flow := StopWith(req, env, ctx, "request_blocked_missing_feature", "block", "blocked",
                         GovernanceRisk("feature.missing_id_blocked", "block"));
        return;
      }
      if cfg.enforcement == QuarantineMissing {
        flow := StopWith(req, env, ctx, "request_quarantined", "quarantine", "quarantined",
                         GovernanceRisk("feature.missing_id", "quarantine"));
        return;
      }
      return Go(ctx);
    }

    method CheckFeature(req: Request, env: Env, ctx0: Ctx) returns (flow: Flow)
      requires Valid()
      modifies registry, tasks, log
      ensures flow == GateStage(cfg, old(View()), req, env, ctx0).1
      ensures !flow.Raise? ==> View() == GateStage(cfg, old(View()), req, env, ctx0).0
    {
      var ctx := ctx0;
      if ctx.featureId == UNMAPPED {
        return Go(ctx);
      }
      if (req.tenantId, ctx.featureId) in registry.features {
        var feature := registry.features[(req.tenantId, ctx.featureId)].feature;
        ctx := ctx.(featurePk := Some(feature.pk), aiSystemId := feature.aiSystemId);
      }
      var gate := registry.ValidateRegisteredFeature(
        req.tenantId, ctx.featureId, ConfigOf(cfg, req), env.versionId, env.changeTaskId, env.now);
      if gate.Err? {
        return Raise;
      }
      if gate.value.Allow? {
        ctx := ctx.(featureVersionId := Some(gate.value.version.versionId));
        if gate.value.version.status == FL.Candidate {
          flow := WarnAboutCandidate(req, env, ctx);
          return;
        }
        return Go(ctx);
      }
      flow := HandleRefusal(req, env, ctx, gate.value);
    }

    method WarnAboutCandidate(req: Request, env: Env, ctx0: Ctx) returns (flow: Flow)
      requires Valid()
      modifies tasks, log
      ensures flow == CandidateStage(cfg, old(View()), req, env, ctx0).1
      ensures !flow.Raise? ==> View() == CandidateStage(cfg, old(View()), req, env, ctx0).0
    {
      var ctx := ctx0.(warnings := ctx0.warnings + ["candidate_feature_version"]);
      var ok := OpenTask(TaskCall(req, env, ctx, "change_triggered", "candidate_version_requires_review", "medium",
                                  ctx.featureVersionId, env.gateTaskId));
      if !ok {
        return Raise;
      }
      if cfg.candidatePolicy == BlockCandidate {
        flow := StopWith(req, env, ctx, "request_blocked_candidate_version", "block", "blocked",
                         GovernanceRisk("feature.candidate_version_block", "block"));
        return;
      }
      if cfg.candidatePolicy == QuarantineCandidate {
        flow := StopWith(req, env, ctx, "request_quarantined_candidate_version", "quarantine", "quarantined",
                         GovernanceRisk("feature.candidate_version_quarantine", "quarantine"));
        return;
      }
      return Go(ctx);
    }

    method HandleRefusal(req: Request, env: Env, ctx: Ctx, gate: FL.Gate) returns (flow: Flow)
      requires Valid() && gate.Refuse?
      modifies tasks, log
      ensures flow == RefusedStage(cfg, old(View()), req, env, ctx, gate).1
      ensures !flow.Raise? ==> View() == RefusedStage(cfg, old(View()), req, env, ctx, gate).0
    {
      var reason := FL.ReasonText(gate);
      var versionId := if gate.barred.Some? then Some(gate.barred.value.versionId) else None;
      var ok := OpenTask(TaskCall(req, env, ctx, "feature_governance", reason, "high", versionId, env.gateTaskId));
      if !ok {
        return Raise;
      }
      if cfg.enforcement == Warn && gate.reason == FL.NotRegistered {
        return Go(ctx.(warnings := ctx.warnings + ["unknown_feature_allowed_in_warn_mode"]));
      }
      flow := StopWith(req, env, ctx, "request_blocked_feature_policy", "block", "blocked",
                       GovernanceRisk("feature." + reason, "block"));
    }

    method CheckInput(req: Request, env: Env, ctx: Ctx, pre: Risk.Risk) returns (flow: Flow)
      requires Valid() && pre == PreCheck(cfg, req)
      modifies tasks, log
      ensures flow == PreCheckStage(cfg, old(View()), req, env, ctx).1
      ensures !flow.Raise? ==> View() == PreCheckStage(cfg, old(View()), req, env, ctx).0
    {
      if pre.level != Risk.HighRisk {
        return Go(ctx);
      }
      var ok := OpenTask(TaskCall(req, env, ctx, "risk_review", "high_risk_pre_check", "high", ctx.featureVersionId,
                                  env.riskTaskId));
      if !ok {
        return Raise;
      }
      flow := StopWith(req, env, ctx, "request_blocked_pre_check", "block", "blocked", pre);
    }

    method PrepareRequest(req: Request, env: Env, pre: Risk.Risk) returns (flow: Flow)
      requires Valid() && pre == PreCheck(cfg, req)
      modifies registry, tasks, log
      ensures flow == Prepare(cfg, old(View()), req, env).1
      ensures !flow.Raise? ==> View() == Prepare(cfg, old(View()), req, env).0
    {
      flow := CheckFeatureId(req, env);
      if !flow.Go? {
        return;
      }
      flow := CheckFeature(req, env, flow.ctx);
      if !flow.Go? {
        return;
      }
      flow := CheckInput(req, env, flow.ctx, pre);
    }

    /** `record_usage` commits the whole session, the request's evidence included. */
    method RecordUsageAndCommit(tenant: string, fails: bool) returns (done: bool)
      modifies this, meters
      ensures View() == RecordUsage(old(View()), tenant)
      ensures done == !fails
      ensures committed == if fails then old(committed) else View()
    {
      meters.Add(tenant, GOVERNED_CALL, 1);
      done := Commit(fails);
    }

    /** A session of its own: it reads and extends the committed log, nothing else. */
    method WriteFailureEvidenceIndependently(w: Write, references: Option<string>,
                                             fails: bool) returns (event: Option<Row>)
      requires Valid()
      modifies this
      ensures event.Some? <==> !fails && (cfg.foreignKeys ==> VersionStored(old(committed), references))
      ensures committed == if event.Some? then Emit(cfg, old(committed), w) else old(committed)
      ensures event.Some? ==> event.value == NewRow(cfg.crypto, old(committed).log, w)
    {
      var own := new EvidenceTable(cfg.crypto, committed.log);
      if cfg.foreignKeys && !VersionStored(committed, references) {
        return None;
      }
      var row := own.WriteEvidenceLog(w);
      if fails {
        return None;
      }
      committed := committed.(log := own.rows);
      return Some(row);
    }

    method RunChatPipeline(req: Request, env: Env) returns (response: Response)
      requires Valid() && View() == committed
      modifies this, registry, tasks, log, meters
      ensures Valid() && View() == committed
      ensures (committed, response) == Handle(cfg, old(committed), req, env)
    {
      hide Prepare, Risk.Assess, Risk.FinalVerdict;
      var pre := Risk.AssessRisk(cfg.matcher, req.text, req.policyContext);
      var flow := PrepareRequest(req, env, pre);
      if flow.Raise? {
        Rollback();
        return InternalError;
      }
      if flow.Return? {
        var done := Commit(env.commitFails);
        if !done {
          Rollback();
          return InternalError;
        }
        return flow.response;
      }
      var ctx := flow.ctx;
      if env.reply.ProviderFailed? {
        Rollback();
        var event := WriteFailureEvidenceIndependently(FailureWrite(cfg, req, env, ctx), ctx.featureVersionId,
                                                       env.commitFails);
        Rollback();
        return if event.Some? then ProviderError(event.value.eventId) else InternalError;
      }
      var post := Risk.AssessRisk(cfg.matcher, env.reply.text, req.policyContext);
      var verdict := Risk.FinalVerdict(pre, post, "candidate_feature_version" in ctx.warnings);
      var event := log.WriteEvidenceLog(EventWrite(req, env, ctx, COMPLETED, verdict.decision, "completed",
                                                   verdict.risk));
      var done := RecordUsageAndCommit(req.tenantId, env.commitFails);
      if !done {
        Rollback();
        return InternalError;
      }
      return Completed(env.reply.text, verdict, event.eventId, event.hash, ctx.featureVersionId, ctx.warnings);
    }
  }
}
