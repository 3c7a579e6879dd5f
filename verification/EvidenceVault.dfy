/**
 Sealed, linked evidence items and their two writers: the vault
 (app/services/evidence_vault_service.py) and the placeholder evidence of lifecycle
 reviews (app/services/ai_system_service.py:80-103, 184-250).

 A time is a wall clock with an optional UTC offset; what is hashed is its rendering, so
 the wall clock and the offset both matter.  Committing and refreshing an item passes
 its times through the database, which keeps the instant (PostgreSQL) or the wall clock
 (SQLite) but never a foreign offset.
 */
module EvidenceVault {
  import opened Common

  datatype Stamp = Stamp(wall: int, offset: Option<int>)

  datatype Database = Postgres | Sqlite

  datatype Attachment = Attachment(controlId: string, previousControlId: Option<string>, aiSystemId: Option<string>,
                                   attachedAt: Stamp)

  datatype ArtifactSummary = ArtifactSummary(id: string, fileName: string, size: nat, hash: string)

  datatype Metadata = Metadata(
    other: map<string, string>, history: seq<Attachment>, latestAttachment: Option<Attachment>,
    artifacts: seq<ArtifactSummary>, artifactCount: Option<nat>, latestArtifactHash: Option<string>)

  datatype Item = Item(
    id: string, tenantId: string, aiSystemId: Option<string>, controlId: Option<string>,
    title: string, description: Option<string>, evidenceType: string, source: string, sourceUrl: Option<string>,
    ownerEmail: Option<string>, status: string,
    collectedAt: Option<Stamp>, reviewAt: Option<Stamp>, expiresAt: Option<Stamp>,
    metadata: Metadata, hash: string, signature: string)

  /** What is hashed: every field but the hash and the signature, with rendered times. */
  datatype Fingerprint = Fingerprint(fields: Item, collected: Option<Stamp>, review: Option<Stamp>,
                                     expires: Option<Stamp>)

  datatype Crypto = Crypto(hash: Fingerprint -> string, sign: (string, string, string) -> string)

  datatype Control = Control(id: string, tenantId: string, aiSystemId: Option<string>)

  datatype Artifact = Artifact(summary: ArtifactSummary, tenantId: string, itemId: string)

  /** The tables; an AI system is known by its tenant and id. */
  datatype Tables = Tables(
    items: map<string, Item>, controls: map<string, Control>, systems: set<(string, string)>, artifacts: seq<Artifact>)

  datatype Failure = SystemNotFound | ControlNotFound | OtherSystem | ItemNotFound | EmptyArtifact | ArtifactTooLarge

  const MAX_ARTIFACT_BYTES := 5 * 1024 * 1024

  ghost predicate Injective(c: Crypto) {
    forall a, b :: c.hash(a) == c.hash(b) ==> a == b
  }

  // ---- Times -------------------------------------------------------------------------------------

  /** A naive time is taken as UTC; an aware one is kept as it is. */
  function Aware(s: Stamp): Stamp {
    if s.offset.None? then Stamp(s.wall, Some(0)) else s
  }

  /** The same instant on the UTC clock. */
  function InUtc(s: Stamp): Stamp {
    if s.offset.None? then Stamp(s.wall, Some(0)) else Stamp(s.wall - s.offset.value, Some(0))
  }

  function Reload(db: Database, s: Stamp): Stamp {
    match db
    case Postgres => InUtc(s)
    case Sqlite => Stamp(s.wall, None)
  }

  function MapStamp(s: Option<Stamp>, f: Stamp -> Stamp): Option<Stamp> {
    if s.None? then None else Some(f(s.value))
  }

  predicate IsUtc(s: Option<Stamp>) {
    s.None? || s.value.offset.None? || s.value.offset == Some(0)
  }

  predicate TimesAreUtc(i: Item) {
    IsUtc(i.collectedAt) && IsUtc(i.reviewAt) && IsUtc(i.expiresAt)
  }

  /** The item as read back after commit and refresh. */
  function Refreshed(db: Database, i: Item): Item {
    i.(collectedAt := MapStamp(i.collectedAt, s => Reload(db, s)),
       reviewAt := MapStamp(i.reviewAt, s => Reload(db, s)),
       expiresAt := MapStamp(i.expiresAt, s => Reload(db, s)))
  }

  // ---- Seals -------------------------------------------------------------------------------------

  function Unstamped(i: Item): Item {
    i.(collectedAt := None, reviewAt := None, expiresAt := None, hash := "", signature := "")
  }

  function FingerprintBy(i: Item, render: Stamp -> Stamp): Fingerprint {
    Fingerprint(Unstamped(i), MapStamp(i.collectedAt, render), MapStamp(i.reviewAt, render),
                MapStamp(i.expiresAt, render))
  }

  /** The vault renders aware times as they are; the review service converts them to UTC first. */
  function VaultFingerprint(i: Item): Fingerprint {
    FingerprintBy(i, s => Aware(s))
  }

  function ReviewFingerprint(i: Item): Fingerprint {
    FingerprintBy(i, s => InUtc(s))
  }

  function SealWith(c: Crypto, i: Item, f: Fingerprint): Item {
    var hash := c.hash(f);
    i.(hash := hash, signature := c.sign(i.id, i.tenantId, hash))
  }

  function SealItem(c: Crypto, i: Item): Item {
    SealWith(c, i, VaultFingerprint(i))
  }

  /** The stored hash and signature are those recomputed from the current fields. */
  ghost predicate Sealed(c: Crypto, i: Item) {
    i.hash == c.hash(VaultFingerprint(i)) && i.signature == c.sign(i.id, i.tenantId, i.hash)
  }

  /** Both seal functions compute the same fingerprint exactly when every time is UTC or naive. */
  lemma SealersAgreeIff(i: Item)
    ensures VaultFingerprint(i) == ReviewFingerprint(i) <==> TimesAreUtc(i)
  {
  }

  /** A vault seal is still right after the reload exactly when every time was UTC or naive. */
  lemma SealSurvivesReloadIff(c: Crypto, db: Database, i: Item)
    requires Injective(c)
    ensures Sealed(c, Refreshed(db, SealItem(c, i))) <==> TimesAreUtc(i)
  {
    var r := Refreshed(db, SealItem(c, i));
    assert Unstamped(r) == Unstamped(i);
    assert VaultFingerprint(r) == VaultFingerprint(i) <==> TimesAreUtc(i);
  }

  /** The review service stamps its placeholders in UTC, so its seal agrees with the vault's after any reload. */
  lemma ReviewSealSurvivesReload(c: Crypto, db: Database, i: Item)
    requires TimesAreUtc(i)
    ensures Sealed(c, Refreshed(db, SealWith(c, i, ReviewFingerprint(i))))
  {
    var r := Refreshed(db, SealWith(c, i, ReviewFingerprint(i)));
    assert Unstamped(r) == Unstamped(i);
    assert VaultFingerprint(r) == ReviewFingerprint(i);
  }

  lemma ReloadedTimesAreUtc(db: Database, i: Item)
    ensures TimesAreUtc(Refreshed(db, i))
  {
  }

  // ---- Operations ----------------------------------------------------------------------------------

  function ControlOf(t: Tables, tenant: string, id: string): Option<Control> {
    if id in t.controls && t.controls[id].tenantId == tenant then Some(t.controls[id]) else None
  }

  function ItemOf(t: Tables, tenant: string, id: string): Option<Item> {
    if id in t.items && t.items[id].tenantId == tenant then Some(t.items[id]) else None
  }

  function ResolveLinks(t: Tables, tenant: string, system: Option<string>,
                        control: Option<string>): Result<Option<string>, Failure> {
    if Truthy(system) && (tenant, system.value) !in t.systems then Err(SystemNotFound)
    else if !Truthy(control) then Ok(system)
    else match ControlOf(t, tenant, control.value)
         case None => Err(ControlNotFound)
         case Some(c) =>
           if Truthy(c.aiSystemId) && Truthy(system) && c.aiSystemId != system then Err(OtherSystem)
           else if Truthy(c.aiSystemId) && !Truthy(system) then Ok(c.aiSystemId)
           else Ok(system)
  }

  /** The caller's fields of a new item; an absent collection time means now. */
  function Draft(payload: Item, id: string, tenant: string, system: Option<string>, now: Stamp): Item {
    payload.(id := id, tenantId := tenant, aiSystemId := system,
             collectedAt := if payload.collectedAt.None? then Some(now) else payload.collectedAt)
  }

  function Store(db: Database, t: Tables, i: Item): Tables {
    t.(items := t.items[i.id := Refreshed(db, i)])
  }

  function Create(c: Crypto, db: Database, t: Tables, tenant: string, payload: Item, id: string,
                  now: Stamp): Result<Tables, Failure> {
    var system :- ResolveLinks(t, tenant, payload.aiSystemId, payload.controlId);
    Ok(Store(db, t, SealItem(c, Draft(payload, id, tenant, system, now))))
  }

  /** The fields an update sets; `None` leaves a field alone. */
  datatype Update = Update(
    aiSystemId: Option<Option<string>>, controlId: Option<Option<string>>,
    title: Option<string>, description: Option<Option<string>>, evidenceType: Option<string>, source: Option<string>,
    sourceUrl: Option<Option<string>>, ownerEmail: Option<Option<string>>, status: Option<string>,
    collectedAt: Option<Option<Stamp>>, reviewAt: Option<Option<Stamp>>, expiresAt: Option<Option<Stamp>>,
    metadata: Option<Metadata>)

  function Or<T>(change: Option<T>, current: T): T {
    if change.Some? then change.value else current
  }

  function Updated(i: Item, u: Update, system: Option<string>): Item {
    i.(aiSystemId := system, controlId := Or(u.controlId, i.controlId), title := Or(u.title, i.title),
       description := Or(u.description, i.description), evidenceType := Or(u.evidenceType, i.evidenceType),
       source := Or(u.source, i.source), sourceUrl := Or(u.sourceUrl, i.sourceUrl),
       ownerEmail := Or(u.ownerEmail, i.ownerEmail), status := Or(u.status, i.status),
           collectedAt := Or(u.collectedAt, i.collectedAt),
       reviewAt := Or(u.reviewAt, i.reviewAt), expiresAt := Or(u.expiresAt, i.expiresAt),
       metadata := Or(u.metadata, i.metadata))
  }

  function Revise(c: Crypto, db: Database, t: Tables, tenant: string, id: string, u: Update)
    : Result<Tables, Failure>
  {
    match ItemOf(t, tenant, id)
    case None => Err(ItemNotFound)
    case Some(i) =>
      var system :- ResolveLinks(t, tenant, Or(u.aiSystemId, i.aiSystemId), Or(u.controlId, i.controlId));
      Ok(Store(db, t, SealItem(c, Updated(i, u, system))))
  }

  function FirstTen(h: seq<Attachment>): (r: seq<Attachment>)
    ensures |r| <= 10 && r <= h
  {
    if |h| <= 10 then h else h[..10]
  }

  function AttachedTo(i: Item, c: Control, now: Stamp): Item {
    var system := if Truthy(c.aiSystemId) && !Truthy(i.aiSystemId) then c.aiSystemId else i.aiSystemId;
    var event := Attachment(c.id, i.controlId, system, now);
    i.(aiSystemId := system, controlId := Some(c.id),
       metadata := i.metadata.(history := FirstTen([event] + i.metadata.history), latestAttachment := Some(event)))
  }

  function Attach(c: Crypto, db: Database, t: Tables, tenant: string, id: string, controlId: string,
                  now: Stamp): Result<Tables, Failure> {
    match ControlOf(t, tenant, controlId)
    case None => Err(ControlNotFound)
    case Some(control) =>
      match ItemOf(t, tenant, id)
      case None => Err(ItemNotFound)
      case Some(i) =>
        if Truthy(i.aiSystemId) && Truthy(control.aiSystemId) && i.aiSystemId != control.aiSystemId
            then Err(OtherSystem)
        else Ok(Store(db, t, SealItem(c, AttachedTo(i, control, now))))
  }

  function Others(s: seq<ArtifactSummary>, id: string): seq<ArtifactSummary> {
    if s == [] then [] else (if s[0].id != id then [s[0]] else []) + Others(s[1..], id)
  }

  function WithArtifact(i: Item, a: ArtifactSummary): Item {
    var listed := [a] + Others(i.metadata.artifacts, a.id);
    i.(metadata := i.metadata.(artifacts := listed, artifactCount := Some(|listed|),
                               latestArtifactHash := Some(a.hash)))
  }

  function Upload(c: Crypto, db: Database, t: Tables, tenant: string, id: string,
                  a: ArtifactSummary): Result<Tables, Failure> {
    match ItemOf(t, tenant, id)
    case None => Err(ItemNotFound)
    case Some(i) =>
      if a.size == 0 then Err(EmptyArtifact)
      else if a.size > MAX_ARTIFACT_BYTES then Err(ArtifactTooLarge)
      else Ok(Store(db, t.(artifacts := t.artifacts + [Artifact(a, tenant, id)]), SealItem(c, WithArtifact(i, a))))
  }

  /** Follow-up links of a review action (the evidence item half only blocks, it stores nothing). */
  function ValidateFollowUp(t: Tables, tenant: string, system: string, control: Option<string>): Option<Failure> {
    if !Truthy(control) then None
    else match ControlOf(t, tenant, control.value)
         case None => Some(ControlNotFound)
         case Some(c) => if Truthy(c.aiSystemId) && c.aiSystemId != Some(system) then Some(OtherSystem) else None
  }

  /** The placeholder's times are the clock's and a due date already coerced to UTC. */
  function Placeholder(payload: Item, id: string, tenant: string, system: string, now: int,
                       dueAt: Option<Stamp>): Item {
    payload.(id := id, tenantId := tenant, aiSystemId := Some(system), source := "ai_system_review", sourceUrl := None,
             status := "needs_review", collectedAt := Some(Stamp(now, Some(0))),
             reviewAt := MapStamp(dueAt, s => InUtc(s)), expiresAt := None)
  }

  function FollowUp(c: Crypto, db: Database, t: Tables, tenant: string, system: string, payload: Item, id: string,
                    now: int,
                    dueAt: Option<Stamp>): Result<Tables, Failure>
  {
    if (tenant, system) !in t.systems then Err(SystemNotFound)
    else match ValidateFollowUp(t, tenant, system, payload.controlId)
         case Some(e) => Err(e)
         case None =>
           var i := Placeholder(payload, id, tenant, system, now, dueAt);
           Ok(Store(db, t, SealWith(c, i, ReviewFingerprint(i))))
  }

  // ---- The invariant over runs ----------------------------------------------------------------------

  /** The item's control, if it has one, is of its tenant and is tenant-wide or of the item's own system. */
  ghost predicate LinkOk(t: Tables, i: Item) {
    Truthy(i.controlId) ==>
      && i.controlId.value in t.controls
      && t.controls[i.controlId.value].tenantId == i.tenantId
      && (Truthy(t.controls[i.controlId.value].aiSystemId) ==> i.aiSystemId == t.controls[i.controlId.value].aiSystemId)
  }

  /** Rows are stored under their own ids, with times as the database returns them. */
  ghost predicate RowsOk(t: Tables) {
    && (forall id :: id in t.items ==> t.items[id].id == id && TimesAreUtc(t.items[id]))
    && (forall id :: id in t.controls ==> t.controls[id].id == id)
  }

  ghost predicate LinksOk(t: Tables) {
    forall id :: id in t.items ==> LinkOk(t, t.items[id])
  }

  ghost predicate VaultOk(c: Crypto, t: Tables) {
    RowsOk(t) && LinksOk(t) && forall id :: id in t.items ==> Sealed(c, t.items[id])
  }

  datatype Op =
    | Creating(tenant: string, payload: Item, id: string, now: int)
    | Revising(tenant: string, id: string, update: Update)
    | Attaching(tenant: string, id: string, controlId: string, now: int)
    | Uploading(tenant: string, id: string, artifact: ArtifactSummary)
    | FollowingUp(tenant: string, system: string, payload: Item, id: string, now: int, dueAt: Option<Stamp>)
    | AddingControl(control: Control)
    | AddingSystem(tenant: string, id: string)

  function Settle(t: Tables, r: Result<Tables, Failure>): Tables {
    if r.Ok? then r.value else t
  }

  function Apply(c: Crypto, db: Database, t: Tables, op: Op): Tables {
    match op
    case Creating(tenant, p, id, now) => Settle(t, Create(c, db, t, tenant, p, id, Stamp(now, Some(0))))
    case Revising(tenant, id, u) => Settle(t, Revise(c, db, t, tenant, id, u))
    case Attaching(tenant, id, controlId, now) => Settle(t,
                                                         Attach(c, db, t, tenant, id, controlId, Stamp(now, Some(0))))
    case Uploading(tenant, id, a) => Settle(t, Upload(c, db, t, tenant, id, a))
    case FollowingUp(tenant, s, p, id, now, due) => Settle(t, FollowUp(c, db, t, tenant, s, p, id, now, due))
    case AddingControl(control) => if control.id in t.controls then t
        else t.(controls := t.controls[control.id := control])
    case AddingSystem(tenant, id) => t.(systems := t.systems + {(tenant, id)})
  }

  /** The times a caller supplies are naive or UTC. */
  predicate SuppliesUtc(op: Op) {
    match op
    case Creating(_, p, _, _) => TimesAreUtc(p)
    case Revising(_, _, u) => IsUtc(Or(u.collectedAt, None)) && IsUtc(Or(u.reviewAt, None))
        && IsUtc(Or(u.expiresAt, None))
    case _ => true
  }

  function Run(c: Crypto, db: Database, t: Tables, ops: seq<Op>): Tables
    decreases |ops|
  {
    if ops == [] then t else Run(c, db, Apply(c, db, t, ops[0]), ops[1..])
  }

  lemma VaultSealSurvives(c: Crypto, db: Database, i: Item)
    requires TimesAreUtc(i)
    ensures Sealed(c, Refreshed(db, SealItem(c, i)))
  {
    var r := Refreshed(db, SealItem(c, i));
    assert Unstamped(r) == Unstamped(i);
    assert VaultFingerprint(r) == VaultFingerprint(i);
  }

  /** A seal broken by a foreign offset is repaired by the item's next write. */
  lemma NextWriteRepairsTheSeal(c: Crypto, db: Database, i: Item)
    ensures Sealed(c, Refreshed(db, SealItem(c, Refreshed(db, i))))
  {
    ReloadedTimesAreUtc(db, i);
    VaultSealSurvives(c, db, Refreshed(db, i));
  }

  /** What link resolution returns always satisfies the link rule. */
  lemma ResolvedLinksAreOk(t: Tables, tenant: string, system: Option<string>, control: Option<string>)
    requires ResolveLinks(t, tenant, system, control).Ok?
    ensures Truthy(control) ==>
              && control.value in t.controls && t.controls[control.value].tenantId == tenant
              && (Truthy(t.controls[control.value].aiSystemId) ==>
                    ResolveLinks(t, tenant, system, control).value == t.controls[control.value].aiSystemId)
    ensures Truthy(system) ==>
              ResolveLinks(t, tenant, system, control).value == system && (tenant, system.value) in t.systems
  {
  }

  // ---- What one operation writes -----------------------------------------------------------------------

  /** The item an operation writes, before it is sealed; none if it fails or writes no item. */
  function Written(t: Tables, op: Op): Option<Item> {
    match op
    case Creating(tenant, p, id, now) =>
      (match ResolveLinks(t, tenant, p.aiSystemId, p.controlId)
       case Err(_) => None
       case Ok(system) => Some(Draft(p, id, tenant, system, Stamp(now, Some(0)))))
    case Revising(tenant, id, u) =>
      (match ItemOf(t, tenant, id)
       case None => None
       case Some(i) =>
         match ResolveLinks(t, tenant, Or(u.aiSystemId, i.aiSystemId), Or(u.controlId, i.controlId))
         case Err(_) => None
         case Ok(system) => Some(Updated(i, u, system)))
    case Attaching(tenant, id, controlId, now) =>
      (match ControlOf(t, tenant, controlId)
       case None => None
       case Some(control) =>
         match ItemOf(t, tenant, id)
         case None => None
         case Some(i) =>
           if Truthy(i.aiSystemId) && Truthy(control.aiSystemId) && i.aiSystemId != control.aiSystemId then None
           else Some(AttachedTo(i, control, Stamp(now, Some(0)))))
    case Uploading(tenant, id, a) =>
      (match ItemOf(t, tenant, id)
       case None => None
       case Some(i) => if a.size == 0 || a.size > MAX_ARTIFACT_BYTES then None else Some(WithArtifact(i, a)))
    case FollowingUp(tenant, s, p, id, now, due) =>
      if (tenant, s) !in t.systems || ValidateFollowUp(t, tenant, s, p.controlId).Some? then None
      else Some(Placeholder(p, id, tenant, s, now, due))
    case AddingControl(_) => None
    case AddingSystem(_, _) => None
  }

  /** The seal of the service the operation belongs to. */
  function SealedBy(c: Crypto, op: Op, i: Item): Item {
    if op.FollowingUp? then SealWith(c, i, ReviewFingerprint(i)) else SealItem(c, i)
  }

  lemma WrittenKeepsId(t: Tables, op: Op)
    ensures Written(t, op).Some? ==>
              forall c, db ::
                var i := Written(t, op).value;
                Store(db, t, SealedBy(c, op, i)).items == t.items[i.id := Refreshed(db, SealedBy(c, op, i))]
  {
    hide Refreshed, ReviewFingerprint, VaultFingerprint;
  }

  lemma ApplyStores(c: Crypto, db: Database, t: Tables, op: Op)
    ensures var t' := Apply(c, db, t, op);
            match Written(t, op)
            case Some(i) => t'.items == t.items[i.id := Refreshed(db, SealedBy(c, op, i))] && t'.controls == t.controls
            case None =>
              && t'.items == t.items
              && (t'.controls == t.controls
                  || (op.AddingControl? && op.control.id !in t.controls
                      && t'.controls == t.controls[op.control.id := op.control]))
  {
    hide Refreshed, SealWith, SealItem, Draft, Updated, AttachedTo, WithArtifact, Placeholder;
    hide ReviewFingerprint, VaultFingerprint;
    WrittenKeepsId(t, op);
  }

  lemma WrittenLinkIsOk(t: Tables, op: Op)
    requires RowsOk(t) && LinksOk(t) && Written(t, op).Some?
    ensures LinkOk(t, Written(t, op).value)
  {
    match op
    case Creating(tenant, p, _, _) => ResolvedLinksAreOk(t, tenant, p.aiSystemId, p.controlId);
    case Revising(tenant, id, u) =>
      var i := ItemOf(t, tenant, id).value;
      ResolvedLinksAreOk(t, tenant, Or(u.aiSystemId, i.aiSystemId), Or(u.controlId, i.controlId));
    case _ =>
  }

  /** An operation writes UTC or naive times exactly when those its caller supplies are. */
  lemma WrittenUtcIff(t: Tables, op: Op)
    requires RowsOk(t) && Written(t, op).Some?
    ensures TimesAreUtc(Written(t, op).value) <==> SuppliesUtc(op)
  {
    hide ResolveLinks, ValidateFollowUp;
  }

  lemma FollowUpsAreUtc(op: Op)
    ensures op.FollowingUp? ==> SuppliesUtc(op)
  {
  }

  lemma WrittenSealIff(c: Crypto, db: Database, t: Tables, op: Op)
    requires RowsOk(t) && Written(t, op).Some?
    ensures var stored := Refreshed(db, SealedBy(c, op, Written(t, op).value));
            (SuppliesUtc(op) ==> Sealed(c, stored)) && (Injective(c) && Sealed(c, stored) ==> SuppliesUtc(op))
  {
    hide Written, Refreshed, Sealed, SealItem, SealWith, SuppliesUtc, TimesAreUtc, ReviewFingerprint;
    var i := Written(t, op).value;
    WrittenUtcIff(t, op);
    if SuppliesUtc(op) {
      VaultSealSurvives(c, db, i);
      ReviewSealSurvivesReload(c, db, i);
    } else {
      assert !op.FollowingUp? by {
        FollowUpsAreUtc(op);
      }
      if Injective(c) {
        SealSurvivesReloadIff(c, db, i);
      }
    }
  }

  // ---- Every run -------------------------------------------------------------------------------------------

  /** Sealing and reloading change neither the id nor the links. */
  lemma StoredKeepsTheRest(c: Crypto, db: Database, op: Op, i: Item)
    ensures var r := Refreshed(db, SealedBy(c, op, i));
            && TimesAreUtc(r) && r.id == i.id && r.tenantId == i.tenantId
            && r.controlId == i.controlId && r.aiSystemId == i.aiSystemId
  {
  }

  lemma ApplyKeepsRows(c: Crypto, db: Database, t: Tables, op: Op)
    requires RowsOk(t)
    ensures RowsOk(Apply(c, db, t, op))
  {
    hide Apply, Written, Refreshed, SealedBy;
    ApplyStores(c, db, t, op);
    if Written(t, op).Some? {
      StoredKeepsTheRest(c, db, op, Written(t, op).value);
    }
  }

  lemma ApplyKeepsLinks(c: Crypto, db: Database, t: Tables, op: Op)
    requires RowsOk(t) && LinksOk(t)
    ensures LinksOk(Apply(c, db, t, op))
  {
    hide Apply, Written, Refreshed, SealedBy;
    ApplyStores(c, db, t, op);
    if Written(t, op).Some? {
      WrittenLinkIsOk(t, op);
      StoredKeepsTheRest(c, db, op, Written(t, op).value);
    }
  }

  /** After any sequence of operations every item's control is of its tenant and tenant-wide or of its own system. */
  lemma {:induction false} LinksHoldInEveryRun(c: Crypto, db: Database, t: Tables, ops: seq<Op>)
    requires RowsOk(t) && LinksOk(t)
    ensures RowsOk(Run(c, db, t, ops)) && LinksOk(Run(c, db, t, ops))
    decreases |ops|
  {
    hide Apply, RowsOk, LinksOk;
    if ops != [] {
      ApplyKeepsRows(c, db, t, ops[0]);
      ApplyKeepsLinks(c, db, t, ops[0]);
      LinksHoldInEveryRun(c, db, Apply(c, db, t, ops[0]), ops[1..]);
    }
  }

  /** The items whose last write supplied a time with a foreign offset, after one more operation. */
  function MisstampedBy(t: Tables, op: Op, before: set<string>): set<string> {
    match Written(t, op)
    case None => before
    case Some(i) => if SuppliesUtc(op) then before - {i.id} else before + {i.id}
  }

  function Misstamped(c: Crypto, db: Database, t: Tables, ops: seq<Op>, before: set<string>): set<string>
    decreases |ops|
  {
    if ops == [] then before else Misstamped(c, db, Apply(c, db, t, ops[0]), ops[1..], MisstampedBy(t, ops[0], before))
  }

  /** Every item outside `bad` is sealed, and no item inside it when the hash is injective. */
  ghost predicate SealedOutside(c: Crypto, t: Tables, bad: set<string>) {
    forall id :: id in t.items ==>
      (id !in bad ==> Sealed(c, t.items[id])) && (Injective(c) && Sealed(c, t.items[id]) ==> id !in bad)
  }

  lemma ApplyTracksSeals(c: Crypto, db: Database, t: Tables, op: Op, bad: set<string>)
    requires RowsOk(t) && SealedOutside(c, t, bad)
    ensures SealedOutside(c, Apply(c, db, t, op), MisstampedBy(t, op, bad))
  {
    hide Apply, Written, Refreshed, SealedBy, Sealed, SuppliesUtc, Injective;
    ApplyStores(c, db, t, op);
    if Written(t, op).Some? {
      WrittenSealIff(c, db, t, op);
    }
  }

  /**
   After any sequence of operations an item's hash and signature are those recomputed from
   its current fields exactly when its last write supplied naive or UTC times only.
   */
  lemma {:induction false} SealsFollowTheLastWrite(c: Crypto, db: Database, t: Tables, ops: seq<Op>, bad: set<string>)
    requires RowsOk(t) && SealedOutside(c, t, bad)
    ensures SealedOutside(c, Run(c, db, t, ops), Misstamped(c, db, t, ops, bad))
    decreases |ops|
  {
    hide Apply, RowsOk, SealedOutside, MisstampedBy;
    if ops != [] {
      ApplyKeepsRows(c, db, t, ops[0]);
      ApplyTracksSeals(c, db, t, ops[0], bad);
      SealsFollowTheLastWrite(c, db, Apply(c, db, t, ops[0]), ops[1..], MisstampedBy(t, ops[0], bad));
    }
  }

  lemma {:induction false} NoneIsMisstamped(c: Crypto, db: Database, t: Tables, ops: seq<Op>)
    requires forall k :: 0 <= k < |ops| ==> SuppliesUtc(ops[k])
    ensures Misstamped(c, db, t, ops, {}) == {}
    decreases |ops|
  {
    hide Apply, Written, SuppliesUtc;
    if ops != [] {
      assert MisstampedBy(t, ops[0], {}) == {};
      NoneIsMisstamped(c, db, Apply(c, db, t, ops[0]), ops[1..]);
    }
  }

  /**
   After any sequence of operations whose supplied times are naive or UTC, every stored
   item carries the hash and signature recomputed from its current fields, by either seal
   function, and respects the link rule.
   */
  lemma VaultStaysSealed(c: Crypto, db: Database, t: Tables, ops: seq<Op>)
    requires VaultOk(c, t) && forall k :: 0 <= k < |ops| ==> SuppliesUtc(ops[k])
    ensures VaultOk(c, Run(c, db, t, ops))
    ensures forall id :: id in Run(c, db, t, ops).items ==>
              var i := Run(c, db, t, ops).items[id];
                i.hash == c.hash(ReviewFingerprint(i)) == c.hash(VaultFingerprint(i))
  {
    hide Run, Misstamped, SuppliesUtc, ReviewFingerprint, VaultFingerprint, TimesAreUtc, LinkOk;
    LinksHoldInEveryRun(c, db, t, ops);
    NoneIsMisstamped(c, db, t, ops);
    SealsFollowTheLastWrite(c, db, t, ops, {});
    var items := Run(c, db, t, ops).items;
    forall id | id in items
      ensures VaultFingerprint(items[id]) == ReviewFingerprint(items[id])
    {
      SealersAgreeIff(items[id]);
    }
  }

  // ---- The services ------------------------------------------------------------------------------------

  class Vault {
    const crypto: Crypto
    const database: Database
    var items: map<string, Item>
    var controls: map<string, Control>
    var systems: set<(string, string)>
    var artifacts: seq<Artifact>

    constructor (crypto: Crypto, database: Database, t: Tables)
      ensures View() == t && this.crypto == crypto && this.database == database
    {
      this.crypto, this.database := crypto, database;
      items, controls, systems, artifacts := t.items, t.controls, t.systems, t.artifacts;
    }

    function View(): Tables
      reads this
    {
      Tables(items, controls, systems, artifacts)
    }

    /** `db.commit()` then `db.refresh(item)`. */
    method CommitItem(item: Item)
      modifies this`items
      ensures View() == Store(database, old(View()), item)
    {
      items := items[item.id := Refreshed(database, item)];
    }

    method SealedCopy(item: Item) returns (r: Item)
      ensures r == SealItem(crypto, item)
    {
      r := item.(hash := crypto.hash(VaultFingerprint(item)));
      r := r.(signature := crypto.sign(r.id, r.tenantId, r.hash));
    }

    method CreateItem(tenant: string, payload: Item, id: string, now: Stamp) returns (failure: Option<Failure>)
      modifies this`items
      ensures match Create(crypto, database, old(View()), tenant, payload, id, now)
              case Ok(t) => failure == None && View() == t
              case Err(e) => failure == Some(e) && View() == old(View())
    {
      var system := ResolveLinks(View(), tenant, payload.aiSystemId, payload.controlId);
      if system.Err? {
        return Some(system.error);
      }
      var item := payload.(id := id, tenantId := tenant, aiSystemId := system.value);
      if item.collectedAt.None? {
        item := item.(collectedAt := Some(now));
      }
      item := SealedCopy(item);
      CommitItem(item);
      return None;
    }

    method UpdateItem(tenant: string, id: string, u: Update) returns (failure: Option<Failure>)
      modifies this`items
      ensures match Revise(crypto, database, old(View()), tenant, id, u)
              case Ok(t) => failure == None && View() == t
              case Err(e) => failure == Some(e) && View() == old(View())
    {
      var found := ItemOf(View(), tenant, id);
      if found.None? {
        return Some(ItemNotFound);
      }
      var item := found.value;
      var nextSystem, nextControl := Or(u.aiSystemId, item.aiSystemId), Or(u.controlId, item.controlId);
      var system := ResolveLinks(View(), tenant, nextSystem, nextControl);
      if system.Err? {
        return Some(system.error);
      }
      item := Updated(item, u, system.value);
      item := SealedCopy(item);
      CommitItem(item);
      return None;
    }

    method AttachItemToControl(tenant: string, id: string, controlId: string,
                               now: Stamp) returns (failure: Option<Failure>)
      modifies this`items
      ensures match Attach(crypto, database, old(View()), tenant, id, controlId, now)
              case Ok(t) => failure == None && View() == t
              case Err(e) => failure == Some(e) && View() == old(View())
    {
      var control := ControlOf(View(), tenant, controlId);
      if control.None? {
        return Some(ControlNotFound);
      }
      var found := ItemOf(View(), tenant, id);
      if found.None? {
        return Some(ItemNotFound);
      }
      var item := found.value;
      if Truthy(item.aiSystemId) && Truthy(control.value.aiSystemId) && item.aiSystemId != control.value.aiSystemId {
        return Some(OtherSystem);
      }
      var previousControlId := item.controlId;
      if Truthy(control.value.aiSystemId) && !Truthy(item.aiSystemId) {
        item := item.(aiSystemId := control.value.aiSystemId);
      }
      item := item.(controlId := Some(control.value.id));
      var event := Attachment(control.value.id, previousControlId, item.aiSystemId, now);
      var metadata := item.metadata.(history := FirstTen([event] + item.metadata.history));
      metadata := metadata.(latestAttachment := Some(event));
      item := item.(metadata := metadata);
      item := SealedCopy(item);
      CommitItem(item);
      return None;
    }

    method AttachArtifact(tenant: string, id: string, a: ArtifactSummary) returns (failure: Option<Failure>)
      modifies this`items, this`artifacts
      ensures match Upload(crypto, database, old(View()), tenant, id, a)
              case Ok(t) => failure == None && View() == t
              case Err(e) => failure == Some(e) && View() == old(View())
    {
      var found := ItemOf(View(), tenant, id);
      if found.None? {
        return Some(ItemNotFound);
      }
      if a.size == 0 {
        return Some(EmptyArtifact);
      }
      if a.size > MAX_ARTIFACT_BYTES {
        return Some(ArtifactTooLarge);
      }
      artifacts := artifacts + [Artifact(a, tenant, id)];
      var item := found.value;
      var listed := [a] + Others(item.metadata.artifacts, a.id);
      var metadata := item.metadata.(artifacts := listed);
      metadata := metadata.(artifactCount := Some(|listed|), latestArtifactHash := Some(a.hash));
      item := item.(metadata := metadata);
      item := SealedCopy(item);
      CommitItem(item);
      return None;
    }

    /** The review service's writer: its own link check and its own seal. */
    method CreatePlaceholderEvidence(tenant: string, system: string, payload: Item, id: string, now: int,
                                     dueAt: Option<Stamp>)
      returns (failure: Option<Failure>)
      modifies this`items
      ensures match FollowUp(crypto, database, old(View()), tenant, system, payload, id, now, dueAt)
              case Ok(t) => failure == None && View() == t
              case Err(e) => failure == Some(e) && View() == old(View())
    {
      if (tenant, system) !in systems {
        return Some(SystemNotFound);
      }
      failure := ValidateFollowUp(View(), tenant, system, payload.controlId);
      if failure.Some? {
        return;
      }
      var item := Placeholder(payload, id, tenant, system, now, dueAt);
      item := item.(hash := crypto.hash(ReviewFingerprint(item)));
      item := item.(signature := crypto.sign(item.id, item.tenantId, item.hash));
      CommitItem(item);
    }
  }
}
