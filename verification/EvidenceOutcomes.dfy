/**
 What each write of an evidence item stores, read off the row afterwards
 (app/services/evidence_vault_service.py:91-321, app/services/ai_system_service.py:80-103, 213-250).
 */
module EvidenceOutcomes {
  import opened Common
  import opened EvidenceVault

  // ---- What a seal protects --------------------------------------------------------------------------------

  /** Seconds on the UTC clock. */
  ghost function Instant(s: Stamp): int {
    s.wall - if s.offset.Some? then s.offset.value else 0
  }

  ghost predicate SameInstant(a: Option<Stamp>, b: Option<Stamp>) {
    a.Some? == b.Some? && (a.Some? ==> Instant(a.value) == Instant(b.value))
  }

  ghost predicate SameButTimes(a: Item, b: Item) {
    && a.id == b.id && a.tenantId == b.tenantId && a.aiSystemId == b.aiSystemId && a.controlId == b.controlId
    && a.title == b.title && a.description == b.description && a.evidenceType == b.evidenceType
    && a.source == b.source && a.sourceUrl == b.sourceUrl && a.ownerEmail == b.ownerEmail && a.status == b.status
    && a.metadata == b.metadata
  }

  /** Two sealed items carry one hash exactly when no field differs and their times are the same, clock for clock. */
  lemma SealsTellItemsApart(c: Crypto, a: Item, b: Item)
    requires Injective(c) && Sealed(c, a) && Sealed(c, b) && TimesAreUtc(a) && TimesAreUtc(b)
    ensures a.hash == b.hash <==>
              && SameButTimes(a, b) && SameInstant(a.collectedAt, b.collectedAt)
              && SameInstant(a.reviewAt, b.reviewAt) && SameInstant(a.expiresAt, b.expiresAt)
    ensures a.hash == b.hash ==> a.signature == b.signature
  {
    var fa, fb := VaultFingerprint(a), VaultFingerprint(b);
    if a.hash == b.hash {
      assert fa == fb;
    }
    if SameButTimes(a, b) && SameInstant(a.collectedAt, b.collectedAt) && SameInstant(a.reviewAt, b.reviewAt)
       && SameInstant(a.expiresAt, b.expiresAt) {
      assert fa == fb;
    }
  }

  // ---- Reading a row back ----------------------------------------------------------------------------------

  /** PostgreSQL gives back the instant in UTC, SQLite the bare wall clock. */
  ghost predicate ReadBack(db: Database, written: Option<Stamp>, read: Option<Stamp>) {
    && written.Some? == read.Some?
    && (written.Some? ==>
          match db
          case Postgres => read.value.offset == Some(0) && read.value.wall == Instant(written.value)
          case Sqlite => read.value == Stamp(written.value.wall, None))
  }

  /** Only the item `id` is stored anew, as `written` with its times read back; its UTC-stamped seal is right. */
  ghost predicate StoresOnly(c: Crypto, db: Database, t: Tables, t': Tables, id: string, written: Item) {
    && t'.controls == t.controls && t'.systems == t.systems
    && id in t'.items && t'.items == t.items[id := t'.items[id]]
    && var stored := t'.items[id];
    && SameButTimes(stored, written)
    && ReadBack(db, written.collectedAt, stored.collectedAt) && ReadBack(db, written.reviewAt, stored.reviewAt)
    && ReadBack(db, written.expiresAt, stored.expiresAt)
    && (TimesAreUtc(written) ==> Sealed(c, stored))
  }

  lemma StoringStores(c: Crypto, db: Database, t: Tables, i: Item)
    ensures StoresOnly(c, db, t, Store(db, t, SealItem(c, i)), i.id, i)
    ensures StoresOnly(c, db, t, Store(db, t, SealWith(c, i, ReviewFingerprint(i))), i.id, i)
    ensures forall j :: Store(db, t, j).artifacts == t.artifacts
  {
    if TimesAreUtc(i) {
      VaultSealSurvives(c, db, i);
      ReviewSealSurvivesReload(c, db, i);
    }
  }

  // ---- Links -----------------------------------------------------------------------------------------------

  ghost predicate IsControl(t: Tables, tenant: string, id: string) {
    id in t.controls && t.controls[id].tenantId == tenant
  }

  ghost predicate IsItem(t: Tables, tenant: string, id: string) {
    id in t.items && t.items[id].tenantId == tenant
  }

  /** Both name a system, and not the same. */
  ghost predicate Clash(a: Option<string>, b: Option<string>) {
    Truthy(a) && Truthy(b) && a != b
  }

  /** The control's system, if it has one and the control is named. */
  ghost function SystemOfControl(t: Tables, control: Option<string>): Option<string>
    requires Truthy(control) ==> control.value in t.controls
  {
    if Truthy(control) then t.controls[control.value].aiSystemId else None
  }

  /** Links are accepted exactly when both ends are the tenant's and agree; an open end takes the control's system. */
  lemma LinksResolveIff(t: Tables, tenant: string, system: Option<string>, control: Option<string>)
    ensures var r := ResolveLinks(t, tenant, system, control);
            var known := Truthy(system) ==> (tenant, system.value) in t.systems;
            var found := Truthy(control) ==> IsControl(t, tenant, control.value);
            && (r == Err(SystemNotFound) <==> !known)
            && (r == Err(ControlNotFound) <==> known && !found)
            && (r == Err(OtherSystem) <==> known && found && Clash(SystemOfControl(t, control), system))
            && (r.Ok? <==> known && found && !Clash(SystemOfControl(t, control), system))
            && (r.Ok? ==> r.value == if !Truthy(system) && Truthy(SystemOfControl(t, control))
                                     then SystemOfControl(t, control) else system)
  {
  }

  // ---- The writers -----------------------------------------------------------------------------------------

  lemma RowHasItsId(t: Tables, id: string)
    requires RowsOk(t) && id in t.items
    ensures t.items[id].id == id && TimesAreUtc(t.items[id])
  {
  }

  lemma CreateOutcome(c: Crypto, db: Database, t: Tables, tenant: string, payload: Item, id: string, now: Stamp)
    ensures var r, links := Create(c, db, t, tenant, payload, id, now),
                            ResolveLinks(t, tenant, payload.aiSystemId, payload.controlId);
            && (r.Err? <==> links.Err?) && (r.Err? ==> r.error == links.error)
            && (r.Ok? ==>
                  && r.value.artifacts == t.artifacts
                  && StoresOnly(c, db, t, r.value, id,
                                payload.(id := id, tenantId := tenant, aiSystemId := links.value,
                                         collectedAt := Some(if payload.collectedAt.Some? then payload.collectedAt.value
                                                             else now))))
  {
    hide ResolveLinks, StoresOnly, Store, SealItem;
    var links := ResolveLinks(t, tenant, payload.aiSystemId, payload.controlId);
    if links.Ok? {
      StoringStores(c, db, t, Draft(payload, id, tenant, links.value, now));
    }
  }

  /** `after` is what the update names, and `before` elsewhere. */
  ghost predicate Overwrites<T>(change: Option<T>, before: T, after: T) {
    after == match change case Some(v) => v case None => before
  }

  ghost predicate IsUpdate(before: Item, u: Update, system: Option<string>, after: Item) {
    && after.id == before.id && after.tenantId == before.tenantId && after.aiSystemId == system
    && Overwrites(u.controlId, before.controlId, after.controlId)
    && Overwrites(u.title, before.title, after.title)
    && Overwrites(u.description, before.description, after.description)
    && Overwrites(u.evidenceType, before.evidenceType, after.evidenceType)
    && Overwrites(u.source, before.source, after.source)
    && Overwrites(u.sourceUrl, before.sourceUrl, after.sourceUrl)
    && Overwrites(u.ownerEmail, before.ownerEmail, after.ownerEmail)
    && Overwrites(u.status, before.status, after.status)
    && Overwrites(u.collectedAt, before.collectedAt, after.collectedAt)
    && Overwrites(u.reviewAt, before.reviewAt, after.reviewAt)
    && Overwrites(u.expiresAt, before.expiresAt, after.expiresAt)
    && Overwrites(u.metadata, before.metadata, after.metadata)
  }

  lemma UpdatedIsUpdate(i: Item, u: Update, system: Option<string>)
    ensures IsUpdate(i, u, system, Updated(i, u, system)) && Updated(i, u, system).id == i.id
  {
  }

  /** An update leaves the fields it does not name, resolves the links it ends up with and seals the result. */
  lemma ReviseOutcome(c: Crypto, db: Database, t: Tables, tenant: string, id: string, u: Update)
    requires RowsOk(t)
    ensures var r := Revise(c, db, t, tenant, id, u);
            && (r == Err(ItemNotFound) <==> !IsItem(t, tenant, id))
            && (IsItem(t, tenant, id) ==>
                  var i := t.items[id];
                  var system := match u.aiSystemId case Some(v) => v case None => i.aiSystemId;
                  var control := match u.controlId case Some(v) => v case None => i.controlId;
                  var links := ResolveLinks(t, tenant, system, control);
                  && (r.Err? <==> links.Err?) && (r.Err? ==> r.error == links.error)
                  && (r.Ok? ==>
                        && r.value.artifacts == t.artifacts
                        && exists after :: IsUpdate(i, u, links.value, after)
                                           && StoresOnly(c, db, t, r.value, id, after)))
  {
    if IsItem(t, tenant, id) {
      var i := t.items[id];
      LinksResolveIff(t, tenant, Or(u.aiSystemId, i.aiSystemId), Or(u.controlId, i.controlId));
      hide ResolveLinks, StoresOnly, Store, SealItem, RowsOk, IsControl, Clash, SystemOfControl, IsUpdate, Updated;
      var links := ResolveLinks(t, tenant, Or(u.aiSystemId, i.aiSystemId), Or(u.controlId, i.controlId));
      if links.Ok? {
        var after := Updated(i, u, links.value);
        UpdatedIsUpdate(i, u, links.value);
        RowHasItsId(t, id);
        StoringStores(c, db, t, after);
      }
    }
  }

  /** The new event, then what was there before, up to ten entries. */
  ghost predicate IsHistory(after: seq<Attachment>, event: Attachment, before: seq<Attachment>) {
    && after != [] && after[0] == event
    && |after| == (if |before| < 9 then |before| else 9) + 1
    && forall k :: 0 < k < |after| ==> after[k] == before[k - 1]
  }

  /** Attaching links the item to the control, and remembers the last ten attachments, newest first. */
  lemma AttachOutcome(c: Crypto, db: Database, t: Tables, tenant: string, id: string, controlId: string, now: Stamp)
    requires RowsOk(t)
    ensures var r := Attach(c, db, t, tenant, id, controlId, now);
            && (r == Err(ControlNotFound) <==> !IsControl(t, tenant, controlId))
            && (r == Err(ItemNotFound) <==> IsControl(t, tenant, controlId) && !IsItem(t, tenant, id))
            && (IsControl(t, tenant, controlId) && IsItem(t, tenant, id) ==>
                  var i, system := t.items[id], t.controls[controlId].aiSystemId;
                  && (r == Err(OtherSystem) <==> Clash(i.aiSystemId, system))
                  && (r.Ok? <==> !Clash(i.aiSystemId, system))
                  && (r.Ok? ==>
                        var stored := r.value.items[id];
                        && r.value.artifacts == t.artifacts && Sealed(c, stored)
                        && stored.controlId == Some(controlId)
                        && stored.aiSystemId
                           == (if !Truthy(i.aiSystemId) && Truthy(system) then system else i.aiSystemId)
                        && var event := Attachment(controlId, i.controlId, stored.aiSystemId, now);
                        && IsHistory(stored.metadata.history, event, i.metadata.history)
                        && StoresOnly(c, db, t, r.value, id,
                                      i.(controlId := stored.controlId, aiSystemId := stored.aiSystemId,
                                         metadata := i.metadata.(history := stored.metadata.history,
                                                                 latestAttachment := Some(event))))))
  {
    if IsControl(t, tenant, controlId) && IsItem(t, tenant, id) {
      var i, control := t.items[id], t.controls[controlId];
      RowHasItsId(t, id);
      assert control.id == controlId;
      var after := AttachedTo(i, control, now);
      StoringStores(c, db, t, after);
      hide Store, SealItem, FirstTen, Sealed;
    }
  }

  /** The artifact's summary heads the list; an older one of the same id is dropped, the rest keep their order. */
  lemma {:induction false} OthersAre(s: seq<ArtifactSummary>, t: seq<ArtifactSummary>, id: string)
    requires forall k :: 0 <= k < |s| ==> s[k].id != id
    ensures Others(s + t, id) == s + Others(t, id)
  {
    if s == [] {
      assert s + t == t;
    } else {
      assert (s + t)[1..] == s[1..] + t;
      OthersAre(s[1..], t, id);
    }
  }

  lemma {:induction false} NoneIsDropped(s: seq<ArtifactSummary>, id: string)
    requires forall k :: 0 <= k < |s| ==> s[k].id != id
    ensures Others(s, id) == s
  {
    OthersAre(s, [], id);
    assert s + [] == s;
  }

  ghost predicate Lacks(s: seq<ArtifactSummary>, id: string) {
    forall k :: 0 <= k < |s| ==> s[k].id != id
  }

  /** `after` is `before` without its entry of that id, if it has one. */
  ghost predicate Drops(before: seq<ArtifactSummary>, id: string, after: seq<ArtifactSummary>) {
    && (Lacks(before, id) ==> after == before)
    && (forall n :: 0 <= n < |before| && before[n].id == id && Lacks(before[..n], id) && Lacks(before[n + 1..], id)
                    ==> after == before[..n] + before[n + 1..])
    && Lacks(after, id)
  }

  lemma {:induction false} OthersLack(s: seq<ArtifactSummary>, id: string)
    ensures Lacks(Others(s, id), id)
  {
    if s != [] {
      OthersLack(s[1..], id);
    }
  }

  lemma HeadIsDropped(a: ArtifactSummary, after: seq<ArtifactSummary>)
    ensures Others([a] + after, a.id) == Others(after, a.id)
  {
    assert ([a] + after)[1..] == after;
  }

  lemma OneIsDropped(before: seq<ArtifactSummary>, a: ArtifactSummary, after: seq<ArtifactSummary>)
    requires Lacks(before, a.id) && Lacks(after, a.id)
    ensures Others(before + [a] + after, a.id) == before + after
  {
    hide Others;
    assert before + [a] + after == before + ([a] + after);
    OthersAre(before, [a] + after, a.id);
    HeadIsDropped(a, after);
    NoneIsDropped(after, a.id);
  }

  lemma OthersDrop(s: seq<ArtifactSummary>, id: string)
    ensures Drops(s, id, Others(s, id))
  {
    hide Others;
    OthersLack(s, id);
    if Lacks(s, id) {
      NoneIsDropped(s, id);
    }
    forall n | 0 <= n < |s| && s[n].id == id && Lacks(s[..n], id) && Lacks(s[n + 1..], id)
      ensures Others(s, id) == s[..n] + s[n + 1..]
    {
      assert s == s[..n] + [s[n]] + s[n + 1..];
      OneIsDropped(s[..n], s[n], s[n + 1..]);
    }
  }

  /** An artifact of 1 byte to 5 MB is stored for the tenant's item, which lists it first and is sealed again. */
  lemma UploadOutcome(c: Crypto, db: Database, t: Tables, tenant: string, id: string, a: ArtifactSummary)
    requires RowsOk(t)
    ensures var r := Upload(c, db, t, tenant, id, a);
            && (r == Err(ItemNotFound) <==> !IsItem(t, tenant, id))
            && (r == Err(EmptyArtifact) <==> IsItem(t, tenant, id) && a.size == 0)
            && (r == Err(ArtifactTooLarge) <==> IsItem(t, tenant, id) && a.size > 5242880)
            && (r.Ok? <==> IsItem(t, tenant, id) && 0 < a.size <= 5242880)
            && (r.Ok? ==>
                  var i, stored := t.items[id], r.value.items[id];
                  var listed := stored.metadata.artifacts;
                  && r.value.artifacts == t.artifacts + [Artifact(a, tenant, id)] && Sealed(c, stored)
                  && listed != [] && listed[0] == a && Drops(i.metadata.artifacts, a.id, listed[1..])
                  && StoresOnly(c, db, t, r.value, id,
                                i.(metadata := i.metadata.(artifacts := listed, artifactCount := Some(|listed|),
                                                           latestArtifactHash := Some(a.hash)))))
  {
    if IsItem(t, tenant, id) {
      var i := t.items[id];
      RowHasItsId(t, id);
      var after := WithArtifact(i, a);
      StoringStores(c, db, t.(artifacts := t.artifacts + [Artifact(a, tenant, id)]), after);
      OthersDrop(i.metadata.artifacts, a.id);
      hide Store, SealItem, Sealed, Drops, Others;
    }
  }

  /** A follow-up stores a placeholder of the reviewed system, whose control must be tenant-wide or that system's. */
  lemma FollowUpOutcome(c: Crypto, db: Database, t: Tables, tenant: string, system: string, payload: Item, id: string,
                        now: int, dueAt: Option<Stamp>)
    ensures var r, control := FollowUp(c, db, t, tenant, system, payload, id, now, dueAt), payload.controlId;
            var known := (tenant, system) in t.systems;
            var found := Truthy(control) ==> IsControl(t, tenant, control.value);
            var foreign := Truthy(control) && found && Truthy(t.controls[control.value].aiSystemId)
                           && t.controls[control.value].aiSystemId != Some(system);
            && (r == Err(SystemNotFound) <==> !known)
            && (r == Err(ControlNotFound) <==> known && !found)
            && (r == Err(OtherSystem) <==> known && found && foreign)
            && (r.Ok? <==> known && found && !foreign)
            && (r.Ok? ==>
                  && r.value.artifacts == t.artifacts && id in r.value.items
                  && Sealed(c, r.value.items[id]) && SameInstant(r.value.items[id].reviewAt, dueAt)
                  && StoresOnly(c, db, t, r.value, id,
                                payload.(id := id, tenantId := tenant, aiSystemId := Some(system),
                                         source := "ai_system_review", sourceUrl := None, status := "needs_review",
                                         collectedAt := Some(Stamp(now, Some(0))), expiresAt := None,
                                         reviewAt := match dueAt case Some(d) => Some(Stamp(Instant(d), Some(0)))
                                                                 case None => None)))
  {
    var i := Placeholder(payload, id, tenant, system, now, dueAt);
    StoringStores(c, db, t, i);
    hide Store, SealWith, ReviewFingerprint, Sealed;
  }
}
