/**
 The feature-version lifecycle (app/services/feature_service.py).

 A feature's row and the version rows that point at it are kept together; a fingerprint
 is the tuple that is hashed, so equal fingerprints mean equal configurations.
 */
module FeatureLifecycle {
  import opened Common
  import ReviewTasks

  datatype Status = Candidate | Approved | Superseded | Rejected

  datatype Fingerprint = Fingerprint(
    featureId: string, provider: string, model: string, promptHash: string, policyBundle: string)

  datatype Version = Version(
    id: string, number: nat, provider: string, model: string, promptHash: string,
    fingerprint: Fingerprint, policyBundle: string, changeReason: string, status: Status,
    approvedAt: Option<int>, supersededAt: Option<int>, rejectedAt: Option<int>)

  datatype Feature = Feature(
    pk: string, tenantId: string, featureId: string, aiSystemId: Option<string>, complianceStatus: string,
    approvedProviders: seq<string>, approvedModels: seq<string>, policyBundle: string,
    currentVersionId: Option<string>, currentFingerprint: Option<Fingerprint>, currentPromptHash: Option<string>)

  datatype FeatureState = FeatureState(feature: Feature, versions: seq<Version>)

  type Features = map<(string, string), FeatureState>

  /** The model configuration of one request. */
  datatype Config = Config(provider: string, model: string, promptHash: string)

  datatype VersionResult = VersionResult(versionId: string, fingerprint: Fingerprint, changed: bool, status: Status)

  datatype Failure = FeatureNotFound | VersionNotFound | NoReplacement | IndexViolation

  function FingerprintOf(f: Feature, c: Config): Fingerprint {
    Fingerprint(f.featureId, c.provider, c.model, c.promptHash, f.policyBundle)
  }

  // ---- Queries ------------------------------------------------------------------------------

  function FindFingerprint(vs: seq<Version>, fp: Fingerprint): (found: Option<nat>)
    ensures found.Some? ==> found.value < |vs| && vs[found.value].fingerprint == fp
    ensures found.None? <==> forall k :: 0 <= k < |vs| ==> vs[k].fingerprint != fp
  {
    if vs == [] then None
    else if vs[|vs| - 1].fingerprint == fp then Some(|vs| - 1)
    else FindFingerprint(vs[..|vs| - 1], fp)
  }

  function FindVersion(vs: seq<Version>, id: string): (found: Option<nat>)
    ensures found.Some? ==> found.value < |vs| && vs[found.value].id == id
    ensures found.None? <==> forall k :: 0 <= k < |vs| ==> vs[k].id != id
  {
    if vs == [] then None
    else if vs[|vs| - 1].id == id then Some(|vs| - 1)
    else FindVersion(vs[..|vs| - 1], id)
  }

  function FindOtherApproved(vs: seq<Version>, id: string): (found: Option<nat>)
    ensures found.Some? ==> found.value < |vs| && vs[found.value].status == Approved && vs[found.value].id != id
    ensures found.None? <==> forall k :: 0 <= k < |vs| ==> vs[k].status != Approved || vs[k].id == id
  {
    if vs == [] then None
    else if vs[|vs| - 1].status == Approved && vs[|vs| - 1].id != id then Some(|vs| - 1)
    else FindOtherApproved(vs[..|vs| - 1], id)
  }

  /** The highest version number, 0 for none. */
  function LatestNumber(vs: seq<Version>): (n: nat)
    ensures forall k :: 0 <= k < |vs| ==> vs[k].number <= n
    ensures vs != [] ==> exists k :: 0 <= k < |vs| && vs[k].number == n
    ensures vs == [] ==> n == 0
  {
    if vs == [] then 0 else
    var rest := LatestNumber(vs[..|vs| - 1]);
    if vs[|vs| - 1].number > rest then vs[|vs| - 1].number else rest
  }

  // ---- Transitions --------------------------------------------------------------------------

  predicate Changed(f: Feature, fp: Fingerprint) {
    f.currentFingerprint.Some? && f.currentFingerprint.value != fp
  }

  function NewVersion(fs: FeatureState, c: Config, id: string, now: int): Version {
    var fp := FingerprintOf(fs.feature, c);
    var changed := Changed(fs.feature, fp);
    Version(id, LatestNumber(fs.versions) + 1, c.provider, c.model, c.promptHash, fp, fs.feature.policyBundle,
            if changed then "fingerprint_changed" else "initial_version",
            if changed then Candidate else Approved,
            if changed then None else Some(now), None, None)
  }

  function Ensure(fs: FeatureState, c: Config, id: string, now: int): (FeatureState, VersionResult) {
    var fp := FingerprintOf(fs.feature, c);
    var changed := Changed(fs.feature, fp);
    match FindFingerprint(fs.versions, fp)
    case Some(k) => (fs, VersionResult(fs.versions[k].id, fp, changed, fs.versions[k].status))
    case None =>
      var v := NewVersion(fs, c, id, now);
      var feature :=
        if fs.feature.currentFingerprint.None?
        then fs.feature.(currentFingerprint := Some(fp), currentPromptHash := Some(c.promptHash),
                         currentVersionId := Some(id))
        else fs.feature;
      (FeatureState(feature, fs.versions + [v]), VersionResult(id, fp, changed, v.status))
  }

  function MakeApproved(v: Version, now: int): Version {
    v.(status := Approved, approvedAt := Some(now), supersededAt := None, rejectedAt := None)
  }

  function MakeSuperseded(v: Version, now: int): Version {
    v.(status := Superseded, supersededAt := Some(now), approvedAt := None, rejectedAt := None)
  }

  function MakeRejected(v: Version, now: int): Version {
    v.(status := Rejected, rejectedAt := Some(now), approvedAt := None, supersededAt := None)
  }

  function PointAt(f: Feature, v: Version): Feature {
    f.(currentFingerprint := Some(v.fingerprint), currentPromptHash := Some(v.promptHash),
       currentVersionId := Some(v.id))
  }

  function SupersedeOthers(vs: seq<Version>, id: string, now: int): (r: seq<Version>)
    ensures |r| == |vs|
    ensures forall k :: 0 <= k < |vs| ==>
              r[k] == if vs[k].status == Approved && vs[k].id != id then MakeSuperseded(vs[k], now) else vs[k]
  {
    seq(|vs|, k requires 0 <= k < |vs| =>
      if vs[k].status == Approved && vs[k].id != id then MakeSuperseded(vs[k], now) else vs[k])
  }

  function Approve(fs: FeatureState, id: string, now: int): Result<FeatureState, Failure> {
    match FindVersion(fs.versions, id)
    case None => Err(VersionNotFound)
    case Some(k) =>
      var v := MakeApproved(fs.versions[k], now);
      Ok(FeatureState(PointAt(fs.feature, v), SupersedeOthers(fs.versions, id, now)[k := v]))
  }

  /** The rows while a flush is under way: it updates them in the order of their ids, and has come to `last`. */
  function PartlyFlushed(before: seq<Version>, after: seq<Version>, last: string): (r: seq<Version>)
    requires |before| == |after|
    ensures |r| == |before|
    ensures forall k :: 0 <= k < |r| ==> r[k] == if Less(last, before[k].id) then before[k] else after[k]
  {
    seq(|before|, k requires 0 <= k < |before| => if Less(last, before[k].id) then before[k] else after[k])
  }

  predicate TwoApproved(vs: seq<Version>) {
    exists j, k :: 0 <= j < k < |vs| && vs[j].status == Approved && vs[k].status == Approved
  }

  /** At some point of the flush the partial unique index on approved versions is violated. */
  predicate MeetsTheIndex(before: seq<Version>, after: seq<Version>)
    requires |before| == |after|
  {
    exists c :: 0 <= c < |before| && TwoApproved(PartlyFlushed(before, after, before[c].id))
  }

  /** The approval as committed; `indexed` says whether the database has the index (PostgreSQL). */
  function ApproveOn(indexed: bool, fs: FeatureState, id: string, now: int): Result<FeatureState, Failure> {
    match Approve(fs, id, now)
    case Err(e) => Err(e)
    case Ok(r) => if indexed && MeetsTheIndex(fs.versions, r.versions) then Err(IndexViolation) else Ok(r)
  }

  function Reject(fs: FeatureState, id: string, now: int): Result<FeatureState, Failure> {
    match FindVersion(fs.versions, id)
    case None => Err(VersionNotFound)
    case Some(k) =>
      var v := MakeRejected(fs.versions[k], now);
      if fs.feature.currentVersionId == Some(id) && fs.versions[k].status == Approved then
        match FindOtherApproved(fs.versions, id)
        case None => Err(NoReplacement)
        case Some(r) => Ok(FeatureState(PointAt(fs.feature, fs.versions[r]), fs.versions[k := v]))
      else
        Ok(fs.(versions := fs.versions[k := v]))
  }

  // ---- The lifecycle invariant ----------------------------------------------------------------

  ghost predicate StampsMatchStatus(v: Version) {
    && (v.approvedAt.Some? <==> v.status == Approved)
    && (v.supersededAt.Some? <==> v.status == Superseded)
    && (v.rejectedAt.Some? <==> v.status == Rejected)
  }

  ghost predicate PointersName(f: Feature, v: Version) {
    && f.currentVersionId == Some(v.id)
    && f.currentFingerprint == Some(v.fingerprint)
    && f.currentPromptHash == Some(v.promptHash)
  }

  ghost predicate IsTheApproved(fs: FeatureState, a: nat) {
    && a < |fs.versions|
    && PointersName(fs.feature, fs.versions[a])
    && forall k :: 0 <= k < |fs.versions| ==> (fs.versions[k].status == Approved <==> k == a)
  }

  ghost predicate CurrentIsApproved(fs: FeatureState) {
    if fs.versions == [] then
      fs.feature.currentVersionId.None? && fs.feature.currentFingerprint.None? && fs.feature.currentPromptHash.None?
    else
      exists a :: IsTheApproved(fs, a)
  }

  ghost predicate VersionsWellFormed(fs: FeatureState) {
    && (forall k :: 0 <= k < |fs.versions| ==>
          var v := fs.versions[k];
          && v.number == k + 1
          && v.fingerprint == Fingerprint(fs.feature.featureId, v.provider, v.model, v.promptHash, v.policyBundle)
          && StampsMatchStatus(v))
    && (forall i, j :: 0 <= i < j < |fs.versions| ==>
          fs.versions[i].fingerprint != fs.versions[j].fingerprint && fs.versions[i].id != fs.versions[j].id)
  }

  ghost predicate Consistent(fs: FeatureState) {
    VersionsWellFormed(fs) && CurrentIsApproved(fs)
  }

  predicate FreshVersionId(fs: FeatureState, id: string) {
    forall k :: 0 <= k < |fs.versions| ==> fs.versions[k].id != id
  }

  lemma LatestNumberIsTheCount(fs: FeatureState)
    requires VersionsWellFormed(fs)
    ensures LatestNumber(fs.versions) == |fs.versions|
  {
    var n := |fs.versions|;
    if n > 0 {
      assert fs.versions[n - 1].number == n;
    }
  }

  lemma EnsureKeepsVersions(fs: FeatureState, c: Config, id: string, now: int)
    requires VersionsWellFormed(fs) && FreshVersionId(fs, id)
    ensures VersionsWellFormed(Ensure(fs, c, id, now).0)
  {
    hide LatestNumber;
    LatestNumberIsTheCount(fs);
  }

  lemma EnsureKeepsCurrent(fs: FeatureState, c: Config, id: string, now: int)
    requires VersionsWellFormed(fs) && CurrentIsApproved(fs)
    ensures CurrentIsApproved(Ensure(fs, c, id, now).0)
  {
    hide LatestNumber;
    var fs' := Ensure(fs, c, id, now).0;
    if FindFingerprint(fs.versions, FingerprintOf(fs.feature, c)).None? {
      LatestNumberIsTheCount(fs);
      var n := |fs.versions|;
      if n == 0 {
        assert IsTheApproved(fs', 0);
      } else {
        var a: nat :| IsTheApproved(fs, a);
        assert fs'.versions[n].status == Candidate;
        assert IsTheApproved(fs', a);
      }
    }
  }

  lemma EnsureKeepsConsistent(fs: FeatureState, c: Config, id: string, now: int)
    requires Consistent(fs) && FreshVersionId(fs, id)
    ensures Consistent(Ensure(fs, c, id, now).0)
  {
    hide Ensure, VersionsWellFormed, CurrentIsApproved;
    EnsureKeepsVersions(fs, c, id, now);
    EnsureKeepsCurrent(fs, c, id, now);
  }

  ghost predicate HasConfiguration(vs: seq<Version>, fp: Fingerprint) {
    exists k :: 0 <= k < |vs| && vs[k].fingerprint == fp
  }

  /**
   A stored configuration is returned as it is; a new one is approved on the spot when it
   is the feature's first, and otherwise becomes a candidate that moves no pointer.
   */
  lemma EnsureOutcome(fs: FeatureState, c: Config, id: string, now: int)
    requires Consistent(fs)
    ensures var (fs', r) := Ensure(fs, c, id, now);
            var f, n := fs.feature, |fs.versions|;
            var fp := Fingerprint(f.featureId, c.provider, c.model, c.promptHash, f.policyBundle);
            && r.fingerprint == fp && (r.changed <==> n > 0 && f.currentFingerprint != Some(fp))
            && if HasConfiguration(fs.versions, fp) then
                 fs' == fs && exists k :: 0 <= k < n && fs.versions[k].fingerprint == fp
                                          && r.versionId == fs.versions[k].id && r.status == fs.versions[k].status
               else
                 && |fs'.versions| == n + 1 && fs'.versions[..n] == fs.versions && r.versionId == id
                 && fs'.versions[n] == Version(id, n + 1, c.provider, c.model, c.promptHash, fp, f.policyBundle,
                                               if n == 0 then "initial_version" else "fingerprint_changed", r.status,
                                               if n == 0 then Some(now) else None, None, None)
                 && r.status == (if n == 0 then Approved else Candidate)
                 && fs'.feature == if n > 0 then f
                                   else f.(currentVersionId := Some(id), currentFingerprint := Some(fp),
                                           currentPromptHash := Some(c.promptHash))
  {
    LatestNumberIsTheCount(fs);
    hide LatestNumber;
    var fp := FingerprintOf(fs.feature, c);
    assert FindFingerprint(fs.versions, fp).Some? <==> HasConfiguration(fs.versions, fp);
  }

  lemma ApproveKeepsConsistent(fs: FeatureState, id: string, now: int)
    requires Consistent(fs) && Approve(fs, id, now).Ok?
    ensures Consistent(Approve(fs, id, now).value)
    ensures Approve(fs, id, now).value.feature.currentVersionId == Some(id)
  {
    hide FindVersion, SupersedeOthers;
    var k := FindVersion(fs.versions, id).value;
    assert IsTheApproved(Approve(fs, id, now).value, k);
  }

  /** Approval reaches two versions: the one named, and the approved one it replaces. */
  lemma ApproveOutcome(fs: FeatureState, id: string, now: int)
    requires Consistent(fs)
    ensures Approve(fs, id, now).Ok? <==> exists k :: 0 <= k < |fs.versions| && fs.versions[k].id == id
    ensures Approve(fs, id, now).Ok? ==>
              var fs' := Approve(fs, id, now).value;
              && |fs'.versions| == |fs.versions|
              && forall k :: 0 <= k < |fs.versions| ==>
                   var v := fs.versions[k];
                   fs'.versions[k] ==
                   if v.id == id then
                     v.(status := Approved, approvedAt := Some(now), supersededAt := None, rejectedAt := None)
                   else if fs.feature.currentVersionId == Some(v.id) then
                     v.(status := Superseded, approvedAt := None, supersededAt := Some(now), rejectedAt := None)
                   else v
  {
    hide FindVersion;
  }

  lemma NoneIsBefore(a: string)
    ensures !Less(a, a)
  {
    LessIsTotal(a, a);
  }

  /** While version `k` replaces the approved `a`, both are approved exactly when `k` is flushed first. */
  lemma FlushOverlapsIff(vs: seq<Version>, after: seq<Version>, a: nat, k: nat)
    requires |vs| == |after| && a < |vs| && k < |vs| && a != k && vs[a].id != vs[k].id
    requires forall j :: 0 <= j < |vs| ==> (vs[j].status == Approved <==> j == a)
    requires forall j :: 0 <= j < |vs| ==> (after[j].status == Approved <==> j == k)
    ensures MeetsTheIndex(vs, after) <==> Less(vs[k].id, vs[a].id)
  {
    LessIsTotal(vs[a].id, vs[k].id);
    if Less(vs[k].id, vs[a].id) {
      NoneIsBefore(vs[k].id);
      var midway := PartlyFlushed(vs, after, vs[k].id);
      assert midway[k].status == Approved && midway[a].status == Approved;
      assert TwoApproved(midway);
    } else {
      forall c | 0 <= c < |vs|
        ensures !TwoApproved(PartlyFlushed(vs, after, vs[c].id))
      {
        if Less(vs[c].id, vs[a].id) {
          LessIsTransitive(vs[c].id, vs[a].id, vs[k].id);
        }
      }
    }
  }

  /**
   On a database with the index an approval succeeds exactly when no approved version has
   a greater id, since a flush updates rows in the order of their ids.
   */
  lemma ApprovalSucceedsIff(fs: FeatureState, id: string, now: int)
    requires Consistent(fs) && FindVersion(fs.versions, id).Some?
    ensures ApproveOn(true, fs, id, now) == Approve(fs, id, now) <==>
            forall k :: 0 <= k < |fs.versions| && fs.versions[k].status == Approved ==> !Less(id, fs.versions[k].id)
    ensures ApproveOn(true, fs, id, now) != Approve(fs, id, now) ==> ApproveOn(true, fs, id, now) == Err(IndexViolation)
  {
    hide FindVersion, Less;
    var k := FindVersion(fs.versions, id).value;
    var a: nat :| IsTheApproved(fs, a);
    var after := Approve(fs, id, now).value.versions;
    NoneIsBefore(id);
    if a == k {
      assert forall j :: 0 <= j < |after| ==> (after[j].status == Approved <==> j == k);
      assert !MeetsTheIndex(fs.versions, after);
    } else {
      FlushOverlapsIff(fs.versions, after, a, k);
    }
  }

  /** Two configurations, the second given the smaller id: its approval is refused. */
  lemma SmallerIdIsRefused(feature: Feature, c: Config, d: Config, now: int)
    requires Consistent(FeatureState(feature, [])) && c.model != d.model
    ensures var fs := Ensure(Ensure(FeatureState(feature, []), c, "b", now).0, d, "a", now).0;
            Consistent(fs) && ApproveOn(true, fs, "a", now) == Err(IndexViolation)
  {
    var first := Ensure(FeatureState(feature, []), c, "b", now).0;
    EnsureKeepsConsistent(FeatureState(feature, []), c, "b", now);
    assert FreshVersionId(first, "a") by {
      assert "a"[0] != "b"[0];
    }
    EnsureKeepsConsistent(first, d, "a", now);
    var fs := Ensure(first, d, "a", now).0;
    assert FindFingerprint([], FingerprintOf(feature, c)).None?;
    assert first.versions == [NewVersion(FeatureState(feature, []), c, "b", now)];
    assert fs.versions[0].id == "b" && fs.versions[0].status == Approved && fs.versions[1].id == "a";
    assert Less("a", "b");
    ApprovalSucceedsIff(fs, "a", now);
  }

  /** In a consistent feature no second approved version exists, so no replacement is ever found. */
  lemma RejectOutcome(fs: FeatureState, id: string, now: int)
    requires Consistent(fs)
    ensures Reject(fs, id, now) == Err(NoReplacement) <==>
            FindVersion(fs.versions, id).Some? && fs.feature.currentVersionId == Some(id)
    ensures FindVersion(fs.versions, id).Some? && fs.versions[FindVersion(fs.versions, id).value].status == Approved
            ==> fs.feature.currentVersionId == Some(id) && FindOtherApproved(fs.versions, id).None?
    ensures Reject(fs, id, now).Ok? ==> Consistent(Reject(fs, id, now).value)
                                        && Reject(fs, id, now).value.feature == fs.feature
  {
    var found := FindVersion(fs.versions, id);
    if found.Some? {
      var a: nat :| IsTheApproved(fs, a);
      if Reject(fs, id, now).Ok? {
        assert IsTheApproved(Reject(fs, id, now).value, a);
      }
    }
  }

  /** A rejection succeeds for every stored version but the current one, and rejects it and nothing else. */
  lemma RejectedVersion(fs: FeatureState, id: string, now: int)
    requires Consistent(fs)
    ensures Reject(fs, id, now).Ok? <==>
              fs.feature.currentVersionId != Some(id) && exists k :: 0 <= k < |fs.versions| && fs.versions[k].id == id
    ensures Reject(fs, id, now).Ok? ==>
              var fs' := Reject(fs, id, now).value;
              && |fs'.versions| == |fs.versions|
              && forall k :: 0 <= k < |fs.versions| ==>
                   var v := fs.versions[k];
                   fs'.versions[k] ==
                   if v.id == id then
                     v.(status := Rejected, approvedAt := None, supersededAt := None, rejectedAt := Some(now))
                   else v
  {
    RejectOutcome(fs, id, now);
    hide FindVersion, FindOtherApproved;
  }

  // ---- Runs ------------------------------------------------------------------------------------

  datatype Op =
    | Ensuring(config: Config, id: string, now: int)
    | Approving(indexed: bool, id: string, now: int)
    | Rejecting(id: string, now: int)

  function Apply(fs: FeatureState, op: Op): FeatureState {
    match op
    case Ensuring(c, id, now) => Ensure(fs, c, id, now).0
    case Approving(indexed, id, now) => (match ApproveOn(indexed, fs, id, now) case Ok(r) => r case Err(_) => fs)
    case Rejecting(id, now) => (match Reject(fs, id, now) case Ok(r) => r case Err(_) => fs)
  }

  /** Every id minted along the run is new when it is minted. */
  ghost predicate MintsFreshIds(fs: FeatureState, ops: seq<Op>)
    decreases |ops|
  {
    ops == [] || ((ops[0].Ensuring? ==> FreshVersionId(fs, ops[0].id)) && MintsFreshIds(Apply(fs, ops[0]), ops[1..]))
  }

  function Run(fs: FeatureState, ops: seq<Op>): FeatureState
    decreases |ops|
  {
    if ops == [] then fs else Run(Apply(fs, ops[0]), ops[1..])
  }

  lemma ApplyKeepsConsistent(fs: FeatureState, op: Op)
    requires Consistent(fs) && (op.Ensuring? ==> FreshVersionId(fs, op.id))
    ensures Consistent(Apply(fs, op))
  {
    match op
    case Ensuring(c, id, now) => EnsureKeepsConsistent(fs, c, id, now);
    case Approving(_, id, now) =>
      if Approve(fs, id, now).Ok? {
        ApproveKeepsConsistent(fs, id, now);
      }
    case Rejecting(id, now) => RejectOutcome(fs, id, now);
  }

  lemma {:induction false} RunKeepsConsistent(fs: FeatureState, ops: seq<Op>)
    requires Consistent(fs) && MintsFreshIds(fs, ops)
    ensures Consistent(Run(fs, ops))
    decreases |ops|
  {
    if ops != [] {
      ApplyKeepsConsistent(fs, ops[0]);
      RunKeepsConsistent(Apply(fs, ops[0]), ops[1..]);
    }
  }

  /** After any run, rejecting the current version is refused and leaves everything as it was. */
  lemma CurrentVersionCannotBeRejected(fs: FeatureState, ops: seq<Op>, now: int)
    requires Consistent(fs) && MintsFreshIds(fs, ops) && Run(fs, ops).versions != []
    ensures var s := Run(fs, ops);
            && s.feature.currentVersionId.Some?
            && Reject(s, s.feature.currentVersionId.value, now) == Err(NoReplacement)
            && Apply(s, Rejecting(s.feature.currentVersionId.value, now)) == s
  {
    RunKeepsConsistent(fs, ops);
    var s := Run(fs, ops);
    var a: nat :| IsTheApproved(s, a);
    RejectOutcome(s, s.versions[a].id, now);
  }

  /** A stored version keeps its identity, number, fingerprint and configuration. */
  ghost predicate Extends(before: seq<Version>, after: seq<Version>) {
    && |before| <= |after|
    && forall k :: 0 <= k < |before| ==>
         after[k] == before[k].(status := after[k].status, approvedAt := after[k].approvedAt,
                                supersededAt := after[k].supersededAt, rejectedAt := after[k].rejectedAt)
  }

  lemma StepExtends(fs: FeatureState, op: Op)
    ensures Extends(fs.versions, Apply(fs, op).versions)
  {
    hide FindVersion, FindFingerprint, MeetsTheIndex;
  }

  /** Versions are an append-only history: a run only ever changes status and the matching stamp. */
  lemma {:induction false} HistoryIsAppendOnly(fs: FeatureState, ops: seq<Op>)
    ensures Extends(fs.versions, Run(fs, ops).versions)
    decreases |ops|
  {
    hide Apply;
    if ops != [] {
      StepExtends(fs, ops[0]);
      HistoryIsAppendOnly(Apply(fs, ops[0]), ops[1..]);
    }
  }

  // ---- The gate ----------------------------------------------------------------------------------

  datatype Refusal = NotRegistered | NotActive | ProviderNotApproved | ModelNotApproved | VersionBarred

  datatype Gate =
    | Refuse(reason: Refusal, barred: Option<VersionResult>)
    | Allow(version: VersionResult)

  function ReasonText(g: Gate): string
    requires g.Refuse?
  {
    match g.reason
    case NotRegistered => "feature_not_registered"
    case NotActive => "feature_not_active"
    case ProviderNotApproved => "provider_not_approved"
    case ModelNotApproved => "model_not_approved"
    case VersionBarred =>
      if g.barred.Some? && g.barred.value.status == Rejected then "version_rejected" else "version_superseded"
  }

  predicate IsActive(f: Feature) {
    f.complianceStatus !in ["blocked", "inactive"]
  }

  /** The checks on the feature's own row, in the order the source makes them. */
  function RowRefusal(f: Feature, c: Config): Option<Refusal> {
    if !IsActive(f) then Some(NotActive)
    else if f.approvedProviders != [] && c.provider !in f.approvedProviders then Some(ProviderNotApproved)
    else if f.approvedModels != [] && c.model !in f.approvedModels then Some(ModelNotApproved)
    else None
  }

  lemma RowAdmitsIff(f: Feature, c: Config)
    ensures RowRefusal(f, c).None? <==>
            && f.complianceStatus != "blocked" && f.complianceStatus != "inactive"
            && (f.approvedProviders == [] || c.provider in f.approvedProviders)
            && (f.approvedModels == [] || c.model in f.approvedModels)
  {
  }

  function GateVersion(r: VersionResult): Gate {
    if r.status == Rejected || r.status == Superseded then Refuse(VersionBarred, Some(r)) else Allow(r)
  }

  /** The task a changed candidate raises while its version is ensured. */
  function ChangeTask(f: Feature, c: Config, r: VersionResult, taskId: string, now: int): ReviewTasks.Call {
    ReviewTasks.Call(
      ReviewTasks.Key(f.tenantId, Some(f.featureId), Some(f.pk), Some(r.versionId), "change_triggered",
                      "feature_fingerprint_changed"),
      "medium", map["model" := c.model, "provider" := c.provider], None, taskId, now)
  }

  predicate RaisesChangeTask(r: VersionResult) {
    r.changed && r.status == Candidate
  }

  /** What a version result promises about the feature it was computed from. */
  ghost predicate ResultDenotes(fs: FeatureState, c: Config, r: VersionResult) {
    exists k :: 0 <= k < |fs.versions| && fs.versions[k].id == r.versionId && fs.versions[k].status == r.status
                && fs.versions[k].fingerprint == r.fingerprint == FingerprintOf(fs.feature, c)
  }

  /** A feature lets a request through on exactly one of two grounds: the version the pointers name, or a candidate. */
  lemma AllowedVersions(fs: FeatureState, c: Config, id: string, now: int)
    requires Consistent(fs) && FreshVersionId(fs, id)
    ensures var (fs', r) := Ensure(fs, c, id, now);
            && ResultDenotes(fs', c, r)
            && (r.status == Approved <==> fs'.feature.currentVersionId == Some(r.versionId))
            && (r.status == Approved <==> fs'.feature.currentFingerprint == Some(FingerprintOf(fs.feature, c)))
            && (GateVersion(r).Allow? <==> r.status == Approved || r.status == Candidate)
            && (RaisesChangeTask(r) <==> r.status == Candidate)
  {
    EnsureKeepsConsistent(fs, c, id, now);
    var (fs', r) := Ensure(fs, c, id, now);
    var fp := FingerprintOf(fs.feature, c);
    var a: nat :| IsTheApproved(fs', a);
    match FindFingerprint(fs.versions, fp) {
      case Some(k) => assert fs'.versions[k].fingerprint == fp;
      case None => assert fs'.versions[|fs.versions|].fingerprint == fp;
    }
  }

  /** The version a request may use: the feature's one approved version, or a candidate. */
  lemma AdmittedVersion(fs: FeatureState, c: Config, id: string, now: int)
    requires Consistent(fs) && FreshVersionId(fs, id) && GateVersion(Ensure(fs, c, id, now).1).Allow?
    ensures var (fs', r) := Ensure(fs, c, id, now);
            exists k :: 0 <= k < |fs'.versions| && fs'.versions[k].id == r.versionId
              && fs'.versions[k].fingerprint == FingerprintOf(fs'.feature, c)
              && (r.status == Approved ==> IsTheApproved(fs', k))
              && (r.status != Approved ==> r.status == fs'.versions[k].status == Candidate)
  {
    AllowedVersions(fs, c, id, now);
    EnsureKeepsConsistent(fs, c, id, now);
    var (fs', r) := Ensure(fs, c, id, now);
    var k :| 0 <= k < |fs'.versions| && fs'.versions[k].id == r.versionId && fs'.versions[k].status == r.status
             && fs'.versions[k].fingerprint == r.fingerprint == FingerprintOf(fs.feature, c);
    var a: nat :| IsTheApproved(fs', a);
    assert fs'.versions[k].status == Approved ==> k == a;
  }

  /** Somewhere along the run an approval of `id` succeeds. */
  predicate ApprovedAlong(fs: FeatureState, ops: seq<Op>, id: string)
    decreases |ops|
  {
    && ops != []
    && (|| (ops[0].Approving? && ops[0].id == id && ApproveOn(ops[0].indexed, fs, id, ops[0].now).Ok?)
        || ApprovedAlong(Apply(fs, ops[0]), ops[1..], id))
  }

  lemma StepKeepsRejected(fs: FeatureState, op: Op, k: nat)
    requires Consistent(fs) && k < |fs.versions| && fs.versions[k].status == Rejected
    requires op.Approving? && op.id == fs.versions[k].id ==> ApproveOn(op.indexed, fs, op.id, op.now).Err?
    ensures var fs' := Apply(fs, op);
            && k < |fs'.versions| && fs'.versions[k].status == Rejected && fs'.versions[k].id == fs.versions[k].id
            && fs'.feature.featureId == fs.feature.featureId && fs'.feature.policyBundle == fs.feature.policyBundle
            && fs'.versions[k].fingerprint == fs.versions[k].fingerprint
  {
    hide FindVersion, FindOtherApproved, FindFingerprint, MeetsTheIndex, CurrentIsApproved, FingerprintOf;
    if op.Approving? && ApproveOn(op.indexed, fs, op.id, op.now).Ok? {
      assert fs.versions[k].id != op.id;
    }
  }

  /**
   Whatever else is ensured, approved and rejected, a rejected version stays rejected, and
   the gate refuses its configuration, until an approval of that very version succeeds.
   */
  lemma {:induction false} RejectedConfigurationsStayOut(fs: FeatureState, ops: seq<Op>, k: nat, c: Config, id: string,
                                                         now: int)
    requires Consistent(fs) && MintsFreshIds(fs, ops) && k < |fs.versions| && fs.versions[k].status == Rejected
    requires !ApprovedAlong(fs, ops, fs.versions[k].id)
    requires fs.versions[k].fingerprint
             == Fingerprint(fs.feature.featureId, c.provider, c.model, c.promptHash, fs.feature.policyBundle)
    ensures var s, v := Run(fs, ops), fs.versions[k];
            && k < |s.versions| && s.versions[k].id == v.id && s.versions[k].status == Rejected
            && (var r := Ensure(s, c, id, now).1;
                r.versionId == v.id && GateVersion(r) == Refuse(VersionBarred, Some(r))
                && ReasonText(GateVersion(r)) == "version_rejected")
    decreases |ops|
  {
    if ops == [] {
      EnsureOutcome(fs, c, id, now);
    } else {
      hide Ensure, Approve, ApproveOn, Reject, Consistent;
      ApplyKeepsConsistent(fs, ops[0]);
      StepKeepsRejected(fs, ops[0], k);
      RejectedConfigurationsStayOut(Apply(fs, ops[0]), ops[1..], k, c, id, now);
    }
  }

  datatype Validation = Validation(features: Features, tasks: seq<ReviewTasks.Task>, gate: Gate)

  function Validate(features: Features, tasks: seq<ReviewTasks.Task>, tenant: string, featureId: string, c: Config,
                    id: string, taskId: string, now: int): Result<Validation, ReviewTasks.IntegrityError>
  {
    if (tenant, featureId) !in features then Ok(Validation(features, tasks, Refuse(NotRegistered, None))) else
    var fs := features[(tenant, featureId)];
    match RowRefusal(fs.feature, c)
    case Some(reason) => Ok(Validation(features, tasks, Refuse(reason, None)))
    case None =>
      var (fs', r) := Ensure(fs, c, id, now);
      var features' := features[(tenant, featureId) := fs'];
      if RaisesChangeTask(r) then
        match ReviewTasks.GetOrCreate(tasks, ChangeTask(fs'.feature, c, r, taskId, now))
        case Err(e) => Err(e)
        case Ok(t) => Ok(Validation(features', t.0, GateVersion(r)))
      else Ok(Validation(features', tasks, GateVersion(r)))
  }

  // ---- The service -----------------------------------------------------------------------------

  /** The `ai_features` and `feature_versions` tables, with the task table of the same session. */
  class FeatureRegistry {
    var features: Features
    const reviewTasks: ReviewTasks.TaskTable
    const indexed: bool

    constructor (features: Features, reviewTasks: ReviewTasks.TaskTable, indexed: bool)
      ensures this.features == features && this.reviewTasks == reviewTasks && this.indexed == indexed
    {
      this.features, this.reviewTasks, this.indexed := features, reviewTasks, indexed;
    }

    method EnsureFeatureVersionCandidate(tenant: string, featureId: string, c: Config, id: string, taskId: string,
                                         now: int)
      returns (result: Result<VersionResult, ReviewTasks.IntegrityError>)
      requires (tenant, featureId) in features
      modifies this, reviewTasks
      ensures var (fs', r) := Ensure(old(features)[(tenant, featureId)], c, id, now);
              && features == old(features)[(tenant, featureId) := fs']
              && (!RaisesChangeTask(r) ==> result == Ok(r) && reviewTasks.rows == old(reviewTasks.rows))
              && (RaisesChangeTask(r) ==>
                    match ReviewTasks.GetOrCreate(old(reviewTasks.rows), ChangeTask(fs'.feature, c, r, taskId, now))
                    case Ok(t) => result == Ok(r) && reviewTasks.rows == t.0
                    case Err(e) => result == Err(e) && reviewTasks.rows == old(reviewTasks.rows))
    {
      var fs := features[(tenant, featureId)];
      var feature, versions := fs.feature, fs.versions;
      var fp := FingerprintOf(feature, c);
      var changed := feature.currentFingerprint.Some? && feature.currentFingerprint.value != fp;
      var found := FindFingerprint(versions, fp);
      var r;
      if found.Some? {
        r := VersionResult(versions[found.value].id, fp, changed, versions[found.value].status);
        features := features[(tenant, featureId) := fs];
      } else {
        var status := if changed then Candidate else Approved;
        var version := Version(
          id, LatestNumber(versions) + 1, c.provider, c.model, c.promptHash, fp, feature.policyBundle,
          if changed then "fingerprint_changed" else "initial_version", status,
          if status == Approved then Some(now) else None, None, None);
        versions := versions + [version];
        if feature.currentFingerprint.None? {
          feature := feature.(currentFingerprint := Some(fp));
          feature := feature.(currentPromptHash := Some(c.promptHash));
          feature := feature.(currentVersionId := Some(id));
        }
        features := features[(tenant, featureId) := FeatureState(feature, versions)];
        r := VersionResult(id, fp, changed, status);
      }
      if r.changed && r.status == Candidate {
        var task := reviewTasks.GetOrCreateOpenReviewTask(
          ChangeTask(feature, c, r, taskId, now), reviewTasks.rows, reviewTasks.rows);
        if task.Err? {
          return Err(task.error);
        }
      }
      return Ok(r);
    }

    /** The flush of the changed rows, which the index can refuse half-way. */
    method Flush(before: seq<Version>, after: seq<Version>) returns (violated: bool)
      requires |before| == |after|
      ensures violated == (indexed && MeetsTheIndex(before, after))
    {
      violated := indexed && MeetsTheIndex(before, after);
    }

    /** Supersedes every other approved version in place, then approves `id` and repoints the feature. */
    method ApproveFeatureVersion(tenant: string, featureId: string, id: string,
                                 now: int) returns (failure: Option<Failure>)
      modifies this
      ensures (tenant, featureId) !in old(features) ==> failure == Some(FeatureNotFound) && features == old(features)
      ensures (tenant, featureId) in old(features) ==>
                match ApproveOn(indexed, old(features)[(tenant, featureId)], id, now)
                case Err(e) => failure == Some(e) && features == old(features)
                case Ok(fs') => failure == None && features == old(features)[(tenant, featureId) := fs']
    {
      if (tenant, featureId) !in features {
        return Some(FeatureNotFound);
      }
      var fs := features[(tenant, featureId)];
      var found := FindVersion(fs.versions, id);
      if found.None? {
        return Some(VersionNotFound);
      }
      var versions := fs.versions;
      for i := 0 to |versions|
        invariant |versions| == |fs.versions|
        invariant forall k :: 0 <= k < i ==> versions[k] == SupersedeOthers(fs.versions, id, now)[k]
        invariant forall k :: i <= k < |versions| ==> versions[k] == fs.versions[k]
      {
        if versions[i].status == Approved && versions[i].id != id {
          versions := versions[i := versions[i].(status := Superseded)];
          versions := versions[i := versions[i].(supersededAt := Some(now), approvedAt := None, rejectedAt := None)];
        }
      }
      assert versions == SupersedeOthers(fs.versions, id, now);
      var version := versions[found.value].(status := Approved, approvedAt := Some(now));
      version := version.(supersededAt := None, rejectedAt := None);
      versions := versions[found.value := version];
      var violated := Flush(fs.versions, versions);
      if violated {
        return Some(IndexViolation);
      }
      features := features[(tenant, featureId) := FeatureState(PointAt(fs.feature, version), versions)];
      return None;
    }

    method RejectFeatureVersion(tenant: string, featureId: string, id: string,
                                now: int) returns (failure: Option<Failure>)
      modifies this
      ensures (tenant, featureId) !in old(features) ==> failure == Some(FeatureNotFound) && features == old(features)
      ensures (tenant, featureId) in old(features) ==>
                match Reject(old(features)[(tenant, featureId)], id, now)
                case Err(e) => failure == Some(e) && features == old(features)
                case Ok(fs') => failure == None && features == old(features)[(tenant, featureId) := fs']
    {
      if (tenant, featureId) !in features {
        return Some(FeatureNotFound);
      }
      var fs := features[(tenant, featureId)];
      var found := FindVersion(fs.versions, id);
      if found.None? {
        return Some(VersionNotFound);
      }
      var rejectingCurrentApproved :=
        fs.feature.currentVersionId == Some(id) && fs.versions[found.value].status == Approved;
      var replacement := None;
      if rejectingCurrentApproved {
        replacement := FindOtherApproved(fs.versions, id);
        if replacement.None? {
          return Some(NoReplacement);
        }
      }
      var version := fs.versions[found.value].(status := Rejected, rejectedAt := Some(now));
      version := version.(approvedAt := None, supersededAt := None);
      var feature := fs.feature;
      if replacement.Some? {
        feature := PointAt(feature, fs.versions[replacement.value]);
      }
      features := features[(tenant, featureId) := FeatureState(feature, fs.versions[found.value := version])];
      return None;
    }

    method ValidateRegisteredFeature(tenant: string, featureId: string, c: Config, id: string, taskId: string,
                                     now: int)
      returns (gate: Result<Gate, ReviewTasks.IntegrityError>)
      modifies this, reviewTasks
      ensures match Validate(old(features), old(reviewTasks.rows), tenant, featureId, c, id, taskId, now)
              case Err(e) => gate == Err(e)
              case Ok(v) => gate == Ok(v.gate) && features == v.features && reviewTasks.rows == v.tasks
    {
      if (tenant, featureId) !in features {
        return Ok(Refuse(NotRegistered, None));
      }
      var feature := features[(tenant, featureId)].feature;
      if feature.complianceStatus == "blocked" || feature.complianceStatus == "inactive" {
        return Ok(Refuse(NotActive, None));
      }
      if feature.approvedProviders != [] && c.provider !in feature.approvedProviders {
        return Ok(Refuse(ProviderNotApproved, None));
      }
      if feature.approvedModels != [] && c.model !in feature.approvedModels {
        return Ok(Refuse(ModelNotApproved, None));
      }
      var r := EnsureFeatureVersionCandidate(tenant, featureId, c, id, taskId, now);
      if r.Err? {
        return Err(r.error);
      }
      if r.value.status == Rejected || r.value.status == Superseded {
        return Ok(Refuse(VersionBarred, Some(r.value)));
      }
      return Ok(Allow(r.value));
    }
  }
}
