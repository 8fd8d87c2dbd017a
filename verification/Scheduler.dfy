/**
 * The schedule reconciler: a durable keyed store of repeatable jobs, driven to
 * the set that the active tenants call for.
 */
module Scheduler {
  import opened Common
  import opened MigrationText
  import opened TenantGates

  const SCHEDULER_PREFIX := "bp:scheduled:"
  const PAGE_SIZE := 100

  datatype JobOpts = JobOpts(attempts: nat, backoffMs: nat, keepDoneFor: nat, keepDone: nat, keepFailedFor: nat)

  const SWEEP_JOB_OPTS := JobOpts(3, 2_000, 24 * 3600, 100, 7 * 24 * 3600)

  datatype Entry = Entry(every: nat, name: string, data: Json, opts: Option<JobOpts>)

  function ScheduledJobName(queue: string): string {
    if queue == AUDIT_VERIFY then "verify" else if queue == "key-health" then "check" else "sweep"
  }

  // ---- Ids --------------------------------------------------------------------

  function OwnPrefix(queue: string): string {
    SCHEDULER_PREFIX + queue + ":"
  }

  /** `tenantSchedulerId` */
  function SchedulerId(queue: string, organisationId: string): string {
    OwnPrefix(queue) + organisationId
  }

  /** `isOurScheduler` */
  predicate IsOurs(id: string, queue: string) {
    OwnPrefix(queue) <= id
  }

  /** The organisation of an owned id. */
  function OrganisationIn(id: string, queue: string): string
    requires IsOurs(id, queue)
  {
    id[|OwnPrefix(queue)|..]
  }

  lemma IdRoundTrip(queue: string, organisationId: string)
    ensures IsOurs(SchedulerId(queue, organisationId), queue)
    ensures OrganisationIn(SchedulerId(queue, organisationId), queue) == organisationId
    ensures forall id :: IsOurs(id, queue) ==> SchedulerId(queue, OrganisationIn(id, queue)) == id
  {
  }

  /** No queue owns another queue's ids, so an id names one queue and one organisation. */
  lemma IdsAreInjective(queue: string, organisationId: string, other: string, otherId: string)
    requires FreeOf(queue, ":") && FreeOf(other, ":")
    ensures IsOurs(SchedulerId(queue, organisationId), other) ==> queue == other
    ensures SchedulerId(queue, organisationId) == SchedulerId(other, otherId) ==>
      queue == other && organisationId == otherId
  {
    var id := SchedulerId(queue, organisationId);
    if IsOurs(id, other) {
      var n := |SCHEDULER_PREFIX|;
      assert id[n..] == queue + ":" + organisationId;
      assert id[n..] == other + ":" + OrganisationIn(id, other);
      SameUpToColon(queue, organisationId, other, OrganisationIn(id, other));
    }
    IdRoundTrip(queue, organisationId);
    IdRoundTrip(other, otherId);
  }

  lemma SameUpToColon(a: string, x: string, b: string, y: string)
    requires FreeOf(a, ":") && FreeOf(b, ":") && a + ":" + x == b + ":" + y
    ensures a == b
  {
    assert Borderless(":");
    FirstOccurrence(a, ":", x);
    FirstOccurrence(b, ":", y);
    assert a == (a + ":" + x)[..|a|] && b == (b + ":" + y)[..|b|];
  }

  // ---- What a reconcile makes of a store ----------------------------------------

  function TenantData(organisationId: string, id: string): Json {
    JObject(map["organisationId" := JString(organisationId), "correlationId" := JString(id)])
  }

  function PlatformData(id: string): Json {
    JObject(map["organisationId" := JString(PLATFORM_CHAIN_ID), "correlationId" := JString(id),
                "platformChain" := JBool(true)])
  }

  function TenantEntry(queue: string, organisationId: string, every: nat, opts: Option<JobOpts>): Entry {
    var id := SchedulerId(queue, organisationId);
    Entry(every, ScheduledJobName(queue), TenantData(organisationId, id), opts)
  }

  predicate IsWanted(id: string, queue: string, organisations: seq<string>, protectedIds: seq<string>) {
    (IsOurs(id, queue) && OrganisationIn(id, queue) in organisations) || id in protectedIds
  }

  /** After the upserts: each tenant's entry is fresh, everything else is as it was. */
  function Upserted(
    named: map<string, Entry>, queue: string, organisations: seq<string>, every: nat, opts: Option<JobOpts>)
    : map<string, Entry>
  {
    if organisations == [] then named
    else
      var last := organisations[|organisations| - 1];
      Upserted(named, queue, organisations[..|organisations| - 1], every, opts)
        [SchedulerId(queue, last) := TenantEntry(queue, last, every, opts)]
  }

  function Stale(named: map<string, Entry>, queue: string, organisations: seq<string>, protectedIds: seq<string>)
    : set<string>
  {
    set id | id in named && IsOurs(id, queue) && !IsWanted(id, queue, organisations, protectedIds)
  }

  /** The store a reconcile of one queue leaves. */
  function Reconciled(
    named: map<string, Entry>, queue: string, organisations: seq<string>, every: nat, protectedIds: seq<string>,
    opts: Option<JobOpts>): map<string, Entry>
  {
    Upserted(named, queue, organisations, every, opts) - Stale(named, queue, organisations, protectedIds)
  }

  lemma {:induction false} UpsertedAt(
    named: map<string, Entry>, queue: string, organisations: seq<string>, every: nat, opts: Option<JobOpts>,
    id: string)
    ensures
      var after := Upserted(named, queue, organisations, every, opts);
      var isTenant := IsOurs(id, queue) && OrganisationIn(id, queue) in organisations;
      && (id in after <==> isTenant || id in named)
      && (isTenant ==> after[id] == TenantEntry(queue, OrganisationIn(id, queue), every, opts))
      && (!isTenant && id in named ==> after[id] == named[id])
  {
    hide IsOurs, SchedulerId, OrganisationIn, TenantEntry;
    if organisations != [] {
      var last := organisations[|organisations| - 1];
      var front := organisations[..|organisations| - 1];
      UpsertedAt(named, queue, front, every, opts, id);
      IdRoundTrip(queue, last);
      IdRoundTrip(queue, if IsOurs(id, queue) then OrganisationIn(id, queue) else "");
      assert organisations == front + [last];
    }
  }

  lemma ReconciledAt(
    named: map<string, Entry>, queue: string, organisations: seq<string>, every: nat, protectedIds: seq<string>,
    opts: Option<JobOpts>, id: string)
    ensures
      var after := Reconciled(named, queue, organisations, every, protectedIds, opts);
      if !IsOurs(id, queue) then
        (id in after <==> id in named) && (id in named ==> after[id] == named[id])
      else if OrganisationIn(id, queue) in organisations then
        id in after && after[id] == TenantEntry(queue, OrganisationIn(id, queue), every, opts)
      else
        (id in after <==> id in named && id in protectedIds) && (id in after ==> after[id] == named[id])
  {
    hide Upserted, IsOurs, OrganisationIn, TenantEntry;
    UpsertedAt(named, queue, organisations, every, opts, id);
  }

  /**
   * Reconcile exactness, id by id. A foreign entry is unchanged; the queue's
   * own ids are exactly the wanted tenants', each with an entry that emits the
   * queue's job at the given interval and with the given options, for that
   * organisation, the id being its correlation id; and the protected ids that
   * were there, as they were.
   */
  lemma ReconciledExactly(
    named: map<string, Entry>, queue: string, organisations: seq<string>, every: nat, protectedIds: seq<string>,
    opts: Option<JobOpts>, id: string)
    ensures
      var after := Reconciled(named, queue, organisations, every, protectedIds, opts);
      var prefix := "bp:scheduled:" + queue + ":";
      if !(prefix <= id) then
        (id in after <==> id in named) && (id in named ==> after[id] == named[id])
      else if id[|prefix|..] in organisations then
        id in after && after[id] == Entry(
          every,
          if queue == "audit-verify" then "verify" else if queue == "key-health" then "check" else "sweep",
          JObject(map["organisationId" := JString(id[|prefix|..]), "correlationId" := JString(id)]),
          opts)
      else
        (id in after <==> id in named && id in protectedIds) && (id in after ==> after[id] == named[id])
  {
    ReconciledAt(named, queue, organisations, every, protectedIds, opts, id);
    IdRoundTrip(queue, "");
    hide Reconciled;
  }

  lemma ReconcileIsIdempotent(
    named: map<string, Entry>, queue: string, organisations: seq<string>, every: nat, protectedIds: seq<string>,
    opts: Option<JobOpts>)
    ensures
      var after := Reconciled(named, queue, organisations, every, protectedIds, opts);
      && Reconciled(after, queue, organisations, every, protectedIds, opts) == after
      && Stale(after, queue, organisations, protectedIds) == {}
  {
    hide Upserted, Stale, IsOurs, OrganisationIn, TenantEntry, Reconciled;
    var after := Reconciled(named, queue, organisations, every, protectedIds, opts);
    var again := Reconciled(after, queue, organisations, every, protectedIds, opts);
    forall id
      ensures id in again <==> id in after
      ensures id in after ==> again[id] == after[id]
    {
      ReconciledAt(named, queue, organisations, every, protectedIds, opts, id);
      ReconciledAt(after, queue, organisations, every, protectedIds, opts, id);
    }
    NothingStale(named, queue, organisations, every, protectedIds, opts);
  }

  lemma NothingStale(
    named: map<string, Entry>, queue: string, organisations: seq<string>, every: nat, protectedIds: seq<string>,
    opts: Option<JobOpts>)
    ensures
      var after := Reconciled(named, queue, organisations, every, protectedIds, opts);
      Stale(after, queue, organisations, protectedIds) == {}
  {
    hide Upserted, IsOurs, OrganisationIn, TenantEntry, Reconciled;
    var after := Reconciled(named, queue, organisations, every, protectedIds, opts);
    forall id
      ensures id !in Stale(after, queue, organisations, protectedIds)
    {
      ReconciledAt(named, queue, organisations, every, protectedIds, opts, id);
    }
  }

  // ---- The platform chain -------------------------------------------------------

  lemma NonBlankTrims(s: string)
    requires s != "" && !IsSpace(s[0])
    ensures Trim(s) != ""
  {
    TrimRightKeepsHead(s);
  }

  lemma {:induction false} TrimRightKeepsHead(s: string)
    requires s != "" && !IsSpace(s[0])
    ensures TrimRight(s) != ""
  {
    if IsSpace(s[|s| - 1]) {
      TrimRightKeepsHead(s[..|s| - 1]);
    }
  }

  lemma IdIsNotBlank(queue: string, organisationId: string)
    ensures Trim(SchedulerId(queue, organisationId)) != ""
  {
    var id := SchedulerId(queue, organisationId);
    assert id[0] == SCHEDULER_PREFIX[0] == 'b';
    NonBlankTrims(id);
  }

  function PlatformId(): string {
    SchedulerId(AUDIT_VERIFY, PLATFORM_CHAIN_ID)
  }

  function PlatformEntry(every: nat): Entry {
    Entry(every, "verify", PlatformData(PlatformId()), None)
  }

  /** The audit queue's store after a reconcile that includes the platform chain. */
  function AuditReconciled(named: map<string, Entry>, organisations: seq<string>, every: nat): map<string, Entry> {
    Reconciled(named[PlatformId() := PlatformEntry(every)], AUDIT_VERIFY, organisations, every, [PlatformId()], None)
  }

  /** The platform chain's schedule, as it reads. */
  lemma PlatformEntryIs(every: nat)
    ensures PlatformId() == "bp:scheduled:audit-verify:platform"
    ensures PlatformEntry(every) == Entry(
      every, "verify",
      JObject(map["organisationId" := JString("platform"), "correlationId" := JString(PlatformId()),
                  "platformChain" := JBool(true)]),
      None)
  {
  }

  /**
   * The platform schedule always survives, and its jobs pass `isPlatformAuditJob`
   * exactly when no organisation is called `platform`: such an organisation's
   * own schedule has the same id and overwrites the flag.
   */
  lemma PlatformFlagSurvives(named: map<string, Entry>, organisations: seq<string>, every: nat)
    ensures
      var after := AuditReconciled(named, organisations, every);
      && PlatformId() in after
      && (IsPlatformAuditJob(AUDIT_VERIFY, after[PlatformId()].data) <==> PLATFORM_CHAIN_ID !in organisations)
      && (PLATFORM_CHAIN_ID !in organisations ==> after[PlatformId()] == PlatformEntry(every))
  {
    hide Reconciled, SchedulerId, Trim, ScheduledJobName, AUDIT_VERIFY, PLATFORM_CHAIN_ID;
    var start := named[PlatformId() := PlatformEntry(every)];
    ReconciledAt(start, AUDIT_VERIFY, organisations, every, [PlatformId()], None, PlatformId());
    IdRoundTrip(AUDIT_VERIFY, PLATFORM_CHAIN_ID);
    IdIsNotBlank(AUDIT_VERIFY, PLATFORM_CHAIN_ID);
    DataFields(PLATFORM_CHAIN_ID, PlatformId());
  }

  lemma DataFields(organisationId: string, id: string)
    ensures Field(PlatformData(id), "platformChain") == JBool(true)
    ensures Field(PlatformData(id), "organisationId") == JString(PLATFORM_CHAIN_ID)
    ensures Field(PlatformData(id), "correlationId") == JString(id)
    ensures Field(TenantData(organisationId, id), "platformChain") == JOther
  {
    assert |"organisationId"| == 14 && |"correlationId"| == 13 && "platformChain"[0] != "correlationId"[0];
  }

  // ---- The store ------------------------------------------------------------------

  /** The ids of a listing, in the listing's order; some schedulers have none. */
  ghost predicate Lists(listing: seq<Option<string>>, named: map<string, Entry>) {
    && (forall id :: Some(id) in listing <==> id in named)
    && Distinct(listing)
  }

  ghost predicate Distinct(listing: seq<Option<string>>) {
    forall i, j :: 0 <= i < j < |listing| && listing[i].Some? ==> listing[i] != listing[j]
  }

  function Unnamed(listing: seq<Option<string>>): nat {
    multiset(listing)[None]
  }

  method PlaceOf(listing: seq<Option<string>>, id: string) returns (at: nat)
    requires Some(id) in listing
    ensures at < |listing| && listing[at] == Some(id)
  {
    at := 0;
    while listing[at] != Some(id)
      invariant at < |listing| && Some(id) in listing[at..]
      decreases |listing| - at
    {
      at := at + 1;
    }
  }

  class ScheduledQueue {
    var named: map<string, Entry>
    var listing: seq<Option<string>>

    ghost predicate Valid()
      reads this
    {
      Lists(listing, named)
    }

    constructor ()
      ensures Valid() && named == map[] && listing == []
    {
      named, listing := map[], [];
    }

    method GetJobSchedulers(start: nat, end: nat) returns (page: seq<Option<string>>)
      requires start <= end
      ensures page == if |listing| <= start then [] else listing[start..if |listing| <= end then |listing| else end + 1]
    {
      if |listing| <= start {
        page := [];
      } else {
        page := listing[start..if |listing| <= end then |listing| else end + 1];
      }
    }

    /** An existing entry is replaced; a new one is listed at a place of the queue's choosing. */
    method UpsertJobScheduler(id: string, entry: Entry, place: nat)
      requires Valid()
      modifies this
      ensures Valid() && named == old(named)[id := entry] && Unnamed(listing) == Unnamed(old(listing))
    {
      if id !in named {
        var at := if place <= |listing| then place else |listing|;
        ghost var before := listing;
        assert listing == listing[..at] + listing[at..];
        listing := listing[..at] + [Some(id)] + listing[at..];
        ListsMore(before, named, at, id, entry);
      }
      named := named[id := entry];
    }

    method RemoveJobScheduler(id: string) returns (removed: bool)
      requires Valid()
      modifies this
      ensures Valid() && named == old(named) - {id} && Unnamed(listing) == Unnamed(old(listing))
      ensures removed <==> id in old(named)
    {
      removed := id in named;
      if removed {
        var at := PlaceOf(listing, id);
        ListsLess(listing, named, at, id);
        listing := listing[..at] + listing[at + 1..];
      }
      named := named - {id};
    }

    /**
     * `allSchedulers`: page by page until a short page. A listing of any length,
     * exact multiples of the page size included, comes back whole.
     */
    method AllSchedulers() returns (schedulers: seq<Option<string>>)
      ensures schedulers == listing
    {
      schedulers := [];
      var start := 0;
      while true
        invariant start <= |listing| && schedulers == listing[..start]
        decreases |listing| - start
      {
        var page := GetJobSchedulers(start, start + PAGE_SIZE - 1);
        schedulers := schedulers + page;
        if |page| < PAGE_SIZE {
          return;
        }
        start := start + PAGE_SIZE;
      }
    }
  }

  lemma ListsMore(listing: seq<Option<string>>, named: map<string, Entry>, at: nat, id: string, entry: Entry)
    requires Lists(listing, named) && id !in named && at <= |listing|
    ensures Lists(listing[..at] + [Some(id)] + listing[at..], named[id := entry])
  {
    var more := listing[..at] + [Some(id)] + listing[at..];
    forall i, j | 0 <= i < j < |more| && more[i].Some?
      ensures more[i] != more[j]
    {
      assert Some(id) !in listing;
    }
    forall x
      ensures Some(x) in more <==> x in named[id := entry]
    {
      assert listing == listing[..at] + listing[at..];
    }
  }

  lemma ListsLess(listing: seq<Option<string>>, named: map<string, Entry>, at: nat, id: string)
    requires Lists(listing, named) && at < |listing| && listing[at] == Some(id)
    ensures Lists(listing[..at] + listing[at + 1..], named - {id})
    ensures Unnamed(listing[..at] + listing[at + 1..]) == Unnamed(listing)
  {
    var less := listing[..at] + listing[at + 1..];
    assert listing == listing[..at] + [Some(id)] + listing[at + 1..];
    LessIsDistinct(listing, at);
    forall x
      ensures Some(x) in less <==> x in named - {id}
    {
      assert Some(x) in listing <==> Some(x) in less || x == id;
    }
  }

  lemma LessIsDistinct(listing: seq<Option<string>>, at: nat)
    requires Distinct(listing) && at < |listing| && listing[at].Some?
    ensures Distinct(listing[..at] + listing[at + 1..])
    ensures listing[at] !in listing[..at] + listing[at + 1..]
  {
  }

  // ---- Reconciling one queue --------------------------------------------------------

  method UpsertTenants(
    queue: ScheduledQueue, queueName: string, organisationIds: seq<string>, every: nat, jobOpts: Option<JobOpts>)
    requires queue.Valid()
    modifies queue
    ensures queue.Valid() && Unnamed(queue.listing) == Unnamed(old(queue.listing))
    ensures queue.named == Upserted(old(queue.named), queueName, organisationIds, every, jobOpts)
  {
    for i := 0 to |organisationIds|
      invariant queue.Valid() && Unnamed(queue.listing) == Unnamed(old(queue.listing))
      invariant queue.named == Upserted(old(queue.named), queueName, organisationIds[..i], every, jobOpts)
    {
      assert organisationIds[..i + 1][..i] == organisationIds[..i];
      queue.UpsertJobScheduler(
        SchedulerId(queueName, organisationIds[i]), TenantEntry(queueName, organisationIds[i], every, jobOpts), 0);
    }
    assert organisationIds[..|organisationIds|] == organisationIds;
  }

  /** The stale ids of a listing, in its order. */
  method StaleIds(
    existing: seq<Option<string>>, queueName: string, organisationIds: seq<string>, protectedIds: seq<string>,
    ghost named: map<string, Entry>)
    returns (stale: seq<string>)
    requires Lists(existing, named)
    ensures forall id :: id in stale <==> id in Stale(named, queueName, organisationIds, protectedIds)
    ensures forall i, j :: 0 <= i < j < |stale| ==> stale[i] != stale[j]
  {
    hide IsOurs, IsWanted;
    stale := [];
    for i := 0 to |existing|
      invariant forall id :: id in stale <==>
        Some(id) in existing[..i] && IsOurs(id, queueName) && !IsWanted(id, queueName, organisationIds, protectedIds)
      invariant forall k, j :: 0 <= k < j < |stale| ==> stale[k] != stale[j]
    {
      assert existing[..i + 1] == existing[..i] + [existing[i]];
      if existing[i].Some? && IsOurs(existing[i].value, queueName)
         && !IsWanted(existing[i].value, queueName, organisationIds, protectedIds) {
        assert existing[i] !in existing[..i];
        stale := stale + [existing[i].value];
      }
    }
    assert existing[..|existing|] == existing;
  }

  function Members(ids: seq<string>): (r: set<string>)
    ensures forall id :: id in r <==> id in ids
  {
    set id | id in ids
  }

  lemma MembersNext(ids: seq<string>, i: nat)
    requires i < |ids| && forall k, j :: 0 <= k < j < |ids| ==> ids[k] != ids[j]
    ensures Members(ids[..i + 1]) == Members(ids[..i]) + {ids[i]}
    ensures |Members(ids[..i + 1])| == |Members(ids[..i])| + 1
  {
    assert ids[..i + 1] == ids[..i] + [ids[i]];
    assert ids[i] !in Members(ids[..i]);
    assert Members(ids[..i + 1]) == Members(ids[..i]) + {ids[i]};
  }

  method RemoveAll(queue: ScheduledQueue, stale: seq<string>)
    requires queue.Valid() && forall i, j :: 0 <= i < j < |stale| ==> stale[i] != stale[j]
    modifies queue
    ensures queue.Valid() && Unnamed(queue.listing) == Unnamed(old(queue.listing))
    ensures queue.named == old(queue.named) - Members(stale) && |stale| == |Members(stale)|
  {
    hide Members, Unnamed, ScheduledQueue.Valid;
    assert Members(stale[..0]) == {};
    for i := 0 to |stale|
      invariant queue.Valid() && Unnamed(queue.listing) == Unnamed(old(queue.listing))
      invariant queue.named == old(queue.named) - Members(stale[..i]) && i == |Members(stale[..i])|
    {
      MembersNext(stale, i);
      var removed := queue.RemoveJobScheduler(stale[i]);
    }
    assert stale[..|stale|] == stale;
  }

  /**
   * `reconcileQueue`: the store becomes `Reconciled`, whatever its size, and the
   * count returned is the number of owned ids that vanished.
   */
  method ReconcileQueue(
    queue: ScheduledQueue, queueName: string, organisationIds: seq<string>, every: nat, protectedIds: seq<string>,
    jobOpts: Option<JobOpts>)
    returns (removed: nat)
    requires queue.Valid()
    modifies queue
    ensures queue.Valid() && Unnamed(queue.listing) == Unnamed(old(queue.listing))
    ensures queue.named == Reconciled(old(queue.named), queueName, organisationIds, every, protectedIds, jobOpts)
    ensures removed == |old(queue.named).Keys - queue.named.Keys|
    ensures removed == |Stale(old(queue.named), queueName, organisationIds, protectedIds)|
  {
    hide Upserted, Stale, IsOurs, IsWanted, Members;
    ghost var before := queue.named;
    UpsertTenants(queue, queueName, organisationIds, every, jobOpts);
    var existing := queue.AllSchedulers();
    var stale := StaleIds(existing, queueName, organisationIds, protectedIds, queue.named);
    StaleAfterUpserts(before, queueName, organisationIds, every, protectedIds, jobOpts);
    assert Members(stale) == Stale(before, queueName, organisationIds, protectedIds);
    RemoveAll(queue, stale);
    removed := |stale|;
    OnlyStaleVanish(before, queueName, organisationIds, every, protectedIds, jobOpts);
  }

  /** The upserts add nothing stale and replace nothing stale. */
  lemma StaleAfterUpserts(
    named: map<string, Entry>, queue: string, organisations: seq<string>, every: nat, protectedIds: seq<string>,
    opts: Option<JobOpts>)
    ensures Stale(Upserted(named, queue, organisations, every, opts), queue, organisations, protectedIds)
      == Stale(named, queue, organisations, protectedIds)
  {
    hide Upserted, IsOurs, OrganisationIn;
    forall id
      ensures id in Stale(Upserted(named, queue, organisations, every, opts), queue, organisations, protectedIds)
        <==> id in Stale(named, queue, organisations, protectedIds)
    {
      UpsertedAt(named, queue, organisations, every, opts, id);
    }
  }

  lemma OnlyStaleVanish(
    named: map<string, Entry>, queue: string, organisations: seq<string>, every: nat, protectedIds: seq<string>,
    opts: Option<JobOpts>)
    ensures named.Keys - Reconciled(named, queue, organisations, every, protectedIds, opts).Keys
      == Stale(named, queue, organisations, protectedIds)
  {
    hide Upserted, IsOurs, OrganisationIn;
    var after := Reconciled(named, queue, organisations, every, protectedIds, opts);
    forall id
      ensures id in named.Keys - after.Keys <==> id in Stale(named, queue, organisations, protectedIds)
    {
      UpsertedAt(named, queue, organisations, every, opts, id);
    }
  }

  // ---- Reconciling every queue --------------------------------------------------------

  ghost predicate AreDistinct(ids: seq<string>) {
    forall i, j :: 0 <= i < j < |ids| ==> ids[i] != ids[j]
  }

  /** `[...new Set(ids)].filter(Boolean)` */
  function DistinctIds(ids: seq<string>): (r: seq<string>)
    ensures forall id :: id in r <==> id in ids && id != ""
    ensures AreDistinct(r)
  {
    if ids == [] then []
    else
      var last := ids[|ids| - 1];
      var front := DistinctIds(ids[..|ids| - 1]);
      assert ids == ids[..|ids| - 1] + [last];
      if last == "" || last in front then front else front + [last]
  }

  datatype Intervals = Intervals(
    auditVerifyMs: nat, retentionSweepMs: nat, reminderSweepMs: Option<nat>, webhookSweepMs: Option<nat>,
    keyHealthMs: Option<nat>, evidenceScanSweepMs: Option<nat>, exportSweepMs: Option<nat>)

  function Or(given: Option<nat>, fallback: nat): (r: nat)
    ensures given == None ==> r == fallback
    ensures given.Some? ==> given == Some(r)
  {
    if given.Some? then given.value else fallback
  }

  datatype Input = Input(
    organisationIds: seq<string>, auditQueue: ScheduledQueue, retentionQueue: ScheduledQueue,
    reminderQueue: ScheduledQueue?, webhookQueue: ScheduledQueue?, keyHealthQueue: ScheduledQueue?,
    malwareScanQueue: ScheduledQueue?, exportQueue: ScheduledQueue?, intervals: Intervals,
    includePlatformChain: bool)

  /** Two queues of a call are different ones, if both are given. */
  predicate Apart(queue: ScheduledQueue?, other: ScheduledQueue?) {
    queue == null || queue != other
  }

  predicate AreApart(input: Input) {
    && input.auditQueue != input.retentionQueue
    && Apart(input.reminderQueue, input.auditQueue)
    && Apart(input.reminderQueue, input.retentionQueue)
    && Apart(input.webhookQueue, input.auditQueue)
    && Apart(input.webhookQueue, input.retentionQueue)
    && Apart(input.webhookQueue, input.reminderQueue)
    && Apart(input.keyHealthQueue, input.auditQueue)
    && Apart(input.keyHealthQueue, input.retentionQueue)
    && Apart(input.keyHealthQueue, input.reminderQueue)
    && Apart(input.keyHealthQueue, input.webhookQueue)
    && Apart(input.malwareScanQueue, input.auditQueue)
    && Apart(input.malwareScanQueue, input.retentionQueue)
    && Apart(input.malwareScanQueue, input.reminderQueue)
    && Apart(input.malwareScanQueue, input.webhookQueue)
    && Apart(input.malwareScanQueue, input.keyHealthQueue)
    && Apart(input.exportQueue, input.auditQueue)
    && Apart(input.exportQueue, input.retentionQueue)
    && Apart(input.exportQueue, input.reminderQueue)
    && Apart(input.exportQueue, input.webhookQueue)
    && Apart(input.exportQueue, input.keyHealthQueue)
    && Apart(input.exportQueue, input.malwareScanQueue)
  }

  ghost predicate AreValid(input: Input)
    reads input.auditQueue, input.retentionQueue, input.reminderQueue, input.webhookQueue, input.keyHealthQueue,
      input.malwareScanQueue, input.exportQueue
  {
    && input.auditQueue.Valid()
    && input.retentionQueue.Valid()
    && (input.reminderQueue != null ==> input.reminderQueue.Valid())
    && (input.webhookQueue != null ==> input.webhookQueue.Valid())
    && (input.keyHealthQueue != null ==> input.keyHealthQueue.Valid())
    && (input.malwareScanQueue != null ==> input.malwareScanQueue.Valid())
    && (input.exportQueue != null ==> input.exportQueue.Valid())
  }

  /** The tenant entries a store holds for a queue. */
  function TenantIds(named: map<string, Entry>, queue: string, organisations: seq<string>): set<string> {
    set id | id in named && IsOurs(id, queue) && OrganisationIn(id, queue) in organisations
  }

  /** How many of the organisations a queue has an entry for; none, if it is not given. */
  function CountIn(queue: ScheduledQueue?, queueName: string, organisations: seq<string>): nat
    reads queue
  {
    if queue == null then 0 else |TenantIds(queue.named, queueName, organisations)|
  }

  lemma {:induction false} DistinctIdsCount(queue: string, organisations: seq<string>)
    requires AreDistinct(organisations)
    ensures |set o | o in organisations :: SchedulerId(queue, o)| == |organisations|
  {
    hide SchedulerId;
    if organisations != [] {
      var last := organisations[|organisations| - 1];
      var front := organisations[..|organisations| - 1];
      DistinctIdsCount(queue, front);
      assert organisations == front + [last];
      var ids := set o | o in front :: SchedulerId(queue, o);
      assert (set o | o in organisations :: SchedulerId(queue, o)) == ids + {SchedulerId(queue, last)};
      forall o | o in front
        ensures SchedulerId(queue, o) != SchedulerId(queue, last)
      {
        IdRoundTrip(queue, o);
        IdRoundTrip(queue, last);
      }
    }
  }

  /** A reconciled store holds one entry for each organisation. */
  lemma ReconciledCount(
    named: map<string, Entry>, queue: string, organisations: seq<string>, every: nat, protectedIds: seq<string>,
    opts: Option<JobOpts>)
    requires AreDistinct(organisations)
    ensures var after := Reconciled(named, queue, organisations, every, protectedIds, opts);
      |TenantIds(after, queue, organisations)| == |organisations|
  {
    hide Upserted, IsOurs, OrganisationIn, SchedulerId;
    var after := Reconciled(named, queue, organisations, every, protectedIds, opts);
    var ids := set o | o in organisations :: SchedulerId(queue, o);
    forall id
      ensures id in TenantIds(after, queue, organisations) <==> id in ids
    {
      UpsertedAt(named, queue, organisations, every, opts, id);
      IdRoundTrip(queue, if IsOurs(id, queue) then OrganisationIn(id, queue) else "");
      forall o | o in organisations && SchedulerId(queue, o) == id
        ensures IsOurs(id, queue) && OrganisationIn(id, queue) == o
      {
        IdRoundTrip(queue, o);
      }
    }
    assert TenantIds(after, queue, organisations) == ids;
    DistinctIdsCount(queue, organisations);
  }

  function Count(queue: ScheduledQueue?, organisationIds: seq<string>): nat {
    if queue == null then 0 else |organisationIds|
  }

  /** What a queue holds; nothing, if it is not given. */
  function Store(queue: ScheduledQueue?): map<string, Entry>
    reads queue
  {
    if queue == null then map[] else queue.named
  }

  /** A queue that is given has been reconciled. */
  ghost predicate IsDone(
    queue: ScheduledQueue?, before: map<string, Entry>, queueName: string, ids: seq<string>, every: nat,
    opts: Option<JobOpts>)
    reads queue
  {
    queue != null ==> queue.Valid() && queue.named == Reconciled(before, queueName, ids, every, [], opts)
  }

  lemma Counted(
    queue: ScheduledQueue?, before: map<string, Entry>, queueName: string, ids: seq<string>, every: nat,
    opts: Option<JobOpts>)
    requires IsDone(queue, before, queueName, ids, every, opts) && AreDistinct(ids)
    ensures CountIn(queue, queueName, ids) == Count(queue, ids)
  {
    hide Reconciled, TenantIds, AreDistinct, ScheduledQueue.Valid;
    ReconciledCount(before, queueName, ids, every, [], opts);
  }

  method ReconcileIfGiven(
    queue: ScheduledQueue?, queueName: string, ids: seq<string>, every: nat, opts: Option<JobOpts>)
    returns (removed: nat)
    requires queue != null ==> queue.Valid()
    modifies queue
    ensures IsDone(queue, old(Store(queue)), queueName, ids, every, opts)
    ensures removed == |old(Store(queue)).Keys - Store(queue).Keys|
  {
    hide Reconciled, Stale, ScheduledQueue.Valid;
    removed := 0;
    if queue != null {
      removed := ReconcileQueue(queue, queueName, ids, every, [], opts);
    }
  }

  /** The platform entry is protected, so upserting it first changes nothing about what vanishes. */
  lemma PlatformNeverVanishes(named: map<string, Entry>, organisations: seq<string>, every: nat)
    ensures
      var start := named[PlatformId() := PlatformEntry(every)];
      var after := Reconciled(start, AUDIT_VERIFY, organisations, every, [PlatformId()], None);
      start.Keys - after.Keys == named.Keys - after.Keys
  {
    hide Reconciled, PlatformId, PlatformEntry, AUDIT_VERIFY;
    ReconciledAt(named[PlatformId() := PlatformEntry(every)], AUDIT_VERIFY, organisations, every, [PlatformId()], None,
                 PlatformId());
  }

  /** The audit queue, with the platform chain's schedule upserted first where the call asks for it. */
  ghost predicate IsAuditDone(
    queue: ScheduledQueue, before: map<string, Entry>, ids: seq<string>, every: nat, platform: bool)
    reads queue
  {
    && queue.Valid()
    && queue.named ==
       if platform then AuditReconciled(before, ids, every)
       else Reconciled(before, "audit-verify", ids, every, [], None)
  }

  lemma AuditCounted(queue: ScheduledQueue, before: map<string, Entry>, ids: seq<string>, every: nat, platform: bool)
    requires IsAuditDone(queue, before, ids, every, platform) && AreDistinct(ids)
    ensures |TenantIds(queue.named, "audit-verify", ids)| == |ids|
  {
    hide Reconciled, TenantIds, AreDistinct, PlatformId, PlatformEntry, ScheduledQueue.Valid;
    ReconciledCount(before, "audit-verify", ids, every, [], None);
    ReconciledCount(before[PlatformId() := PlatformEntry(every)], "audit-verify", ids, every, [PlatformId()], None);
  }

  method ReconcileAuditQueue(queue: ScheduledQueue, ids: seq<string>, every: nat, platform: bool)
    returns (removed: nat)
    requires queue.Valid()
    modifies queue
    ensures IsAuditDone(queue, old(Store(queue)), ids, every, platform)
    ensures removed == |old(Store(queue)).Keys - Store(queue).Keys|
  {
    hide Reconciled, Stale, PlatformId, PlatformEntry, ScheduledQueue.Valid, Unnamed;
    if platform {
      PlatformNeverVanishes(queue.named, ids, every);
      queue.UpsertJobScheduler(PlatformId(), PlatformEntry(every), 0);
    }
    removed := ReconcileQueue(queue, AUDIT_VERIFY, ids, every, if platform then [PlatformId()] else [], None);
  }

  /** `ReconcileSchedulesResult`: what was scheduled on each queue, and what was removed from all of them. */
  datatype Result = Result(
    auditSchedulers: nat, retentionSchedulers: nat, reminderSchedulers: nat, webhookSweepSchedulers: nat,
    keyHealthSchedulers: nat, scanSchedulers: nat, exportSchedulers: nat, removedSchedulers: nat)

  /** The queues that a call need not be given. */
  method ReconcileOptional(input: Input, ids: seq<string>) returns (removed: nat)
    requires AreApart(input)
    requires input.reminderQueue != null ==> input.reminderQueue.Valid()
    requires input.webhookQueue != null ==> input.webhookQueue.Valid()
    requires input.keyHealthQueue != null ==> input.keyHealthQueue.Valid()
    requires input.malwareScanQueue != null ==> input.malwareScanQueue.Valid()
    requires input.exportQueue != null ==> input.exportQueue.Valid()
    modifies input.reminderQueue, input.webhookQueue, input.keyHealthQueue, input.malwareScanQueue, input.exportQueue
    ensures IsDone(
      input.reminderQueue, old(Store(input.reminderQueue)), "reminder", ids,
      Or(input.intervals.reminderSweepMs, 900_000), None)
    ensures IsDone(
      input.webhookQueue, old(Store(input.webhookQueue)), "webhook", ids,
      Or(input.intervals.webhookSweepMs, 900_000), Some(SWEEP_JOB_OPTS))
    ensures IsDone(
      input.keyHealthQueue, old(Store(input.keyHealthQueue)), "key-health", ids,
      Or(input.intervals.keyHealthMs, 300_000), None)
    ensures IsDone(
      input.malwareScanQueue, old(Store(input.malwareScanQueue)), "malware-scan", ids,
      Or(input.intervals.evidenceScanSweepMs, 300_000), Some(SWEEP_JOB_OPTS))
    ensures IsDone(
      input.exportQueue, old(Store(input.exportQueue)), "export", ids,
      Or(input.intervals.exportSweepMs, 900_000), Some(SWEEP_JOB_OPTS))
    ensures removed ==
      |old(Store(input.reminderQueue)).Keys - Store(input.reminderQueue).Keys|
      + |old(Store(input.webhookQueue)).Keys - Store(input.webhookQueue).Keys|
      + |old(Store(input.keyHealthQueue)).Keys - Store(input.keyHealthQueue).Keys|
      + |old(Store(input.malwareScanQueue)).Keys - Store(input.malwareScanQueue).Keys|
      + |old(Store(input.exportQueue)).Keys - Store(input.exportQueue).Keys|
  {
    hide IsDone, Store, SWEEP_JOB_OPTS, ScheduledQueue.Valid;
    var reminders := ReconcileIfGiven(
      input.reminderQueue, "reminder", ids, Or(input.intervals.reminderSweepMs, 900_000), None);
    var webhooks := ReconcileIfGiven(
      input.webhookQueue, "webhook", ids, Or(input.intervals.webhookSweepMs, 900_000), Some(SWEEP_JOB_OPTS));
    var keyHealth := ReconcileIfGiven(
      input.keyHealthQueue, "key-health", ids, Or(input.intervals.keyHealthMs, 300_000), None);
    var scans := ReconcileIfGiven(
      input.malwareScanQueue, MALWARE_SCAN, ids, Or(input.intervals.evidenceScanSweepMs, 300_000),
      Some(SWEEP_JOB_OPTS));
    var exports := ReconcileIfGiven(
      input.exportQueue, "export", ids, Or(input.intervals.exportSweepMs, 900_000), Some(SWEEP_JOB_OPTS));
    removed := reminders + webhooks + keyHealth + scans + exports;
  }

  /** `reconcileTenantSchedules`, up to its report. */
  method ReconcileStores(input: Input, ids: seq<string>) returns (removed: nat)
    requires AreApart(input) && AreValid(input)
    modifies input.auditQueue, input.retentionQueue, input.reminderQueue, input.webhookQueue, input.keyHealthQueue,
      input.malwareScanQueue, input.exportQueue
    ensures IsAuditDone(
      input.auditQueue, old(Store(input.auditQueue)), ids, input.intervals.auditVerifyMs, input.includePlatformChain)
    ensures IsDone(
      input.retentionQueue, old(Store(input.retentionQueue)), "retention", ids, input.intervals.retentionSweepMs, None)
    ensures IsDone(
      input.reminderQueue, old(Store(input.reminderQueue)), "reminder", ids,
      Or(input.intervals.reminderSweepMs, 900_000), None)
    ensures IsDone(
      input.webhookQueue, old(Store(input.webhookQueue)), "webhook", ids,
      Or(input.intervals.webhookSweepMs, 900_000), Some(SWEEP_JOB_OPTS))
    ensures IsDone(
      input.keyHealthQueue, old(Store(input.keyHealthQueue)), "key-health", ids,
      Or(input.intervals.keyHealthMs, 300_000), None)
    ensures IsDone(
      input.malwareScanQueue, old(Store(input.malwareScanQueue)), "malware-scan", ids,
      Or(input.intervals.evidenceScanSweepMs, 300_000), Some(SWEEP_JOB_OPTS))
    ensures IsDone(
      input.exportQueue, old(Store(input.exportQueue)), "export", ids,
      Or(input.intervals.exportSweepMs, 900_000), Some(SWEEP_JOB_OPTS))
    ensures removed ==
      |old(Store(input.auditQueue)).Keys - Store(input.auditQueue).Keys|
      + |old(Store(input.retentionQueue)).Keys - Store(input.retentionQueue).Keys|
      + |old(Store(input.reminderQueue)).Keys - Store(input.reminderQueue).Keys|
      + |old(Store(input.webhookQueue)).Keys - Store(input.webhookQueue).Keys|
      + |old(Store(input.keyHealthQueue)).Keys - Store(input.keyHealthQueue).Keys|
      + |old(Store(input.malwareScanQueue)).Keys - Store(input.malwareScanQueue).Keys|
      + |old(Store(input.exportQueue)).Keys - Store(input.exportQueue).Keys|
  {
    hide IsAuditDone, IsDone, Store, SWEEP_JOB_OPTS, ScheduledQueue.Valid;
    var audits := ReconcileAuditQueue(
      input.auditQueue, ids, input.intervals.auditVerifyMs, input.includePlatformChain);
    var retentions := ReconcileIfGiven(input.retentionQueue, "retention", ids, input.intervals.retentionSweepMs, None);
    var others := ReconcileOptional(input, ids);
    removed := audits + retentions + others;
  }

  /**
   * `reconcileTenantSchedules`: every queue of the call is reconciled to the
   * distinct, non-empty organisations, with its own name, interval and job
   * options, and holds one entry for each of them; the counts are those of the
   * queues given, and of the entries that vanished from any of them.
   */
  method ReconcileTenantSchedules(input: Input) returns (result: Result)
    requires AreApart(input) && AreValid(input)
    modifies input.auditQueue, input.retentionQueue, input.reminderQueue, input.webhookQueue, input.keyHealthQueue,
      input.malwareScanQueue, input.exportQueue
    ensures AreValid(input)
    ensures input.auditQueue.named ==
      var before, ids, every :=
        old(input.auditQueue.named), DistinctIds(input.organisationIds), input.intervals.auditVerifyMs;
      if input.includePlatformChain then
        Reconciled(before[PlatformId() := PlatformEntry(every)], "audit-verify", ids, every, [PlatformId()], None)
      else Reconciled(before, "audit-verify", ids, every, [], None)
    ensures input.retentionQueue.named == Reconciled(
      old(input.retentionQueue.named), "retention", DistinctIds(input.organisationIds),
      input.intervals.retentionSweepMs, [], None)
    ensures input.reminderQueue != null ==> input.reminderQueue.named == Reconciled(
      old(input.reminderQueue.named), "reminder", DistinctIds(input.organisationIds),
      Or(input.intervals.reminderSweepMs, 900_000), [], None)
    ensures input.webhookQueue != null ==> input.webhookQueue.named == Reconciled(
      old(input.webhookQueue.named), "webhook", DistinctIds(input.organisationIds),
      Or(input.intervals.webhookSweepMs, 900_000), [], Some(JobOpts(3, 2_000, 86_400, 100, 604_800)))
    ensures input.keyHealthQueue != null ==> input.keyHealthQueue.named == Reconciled(
      old(input.keyHealthQueue.named), "key-health", DistinctIds(input.organisationIds),
      Or(input.intervals.keyHealthMs, 300_000), [], None)
    ensures input.malwareScanQueue != null ==> input.malwareScanQueue.named == Reconciled(
      old(input.malwareScanQueue.named), "malware-scan", DistinctIds(input.organisationIds),
      Or(input.intervals.evidenceScanSweepMs, 300_000), [], Some(JobOpts(3, 2_000, 86_400, 100, 604_800)))
    ensures input.exportQueue != null ==> input.exportQueue.named == Reconciled(
      old(input.exportQueue.named), "export", DistinctIds(input.organisationIds),
      Or(input.intervals.exportSweepMs, 900_000), [], Some(JobOpts(3, 2_000, 86_400, 100, 604_800)))
    ensures
      var ids := DistinctIds(input.organisationIds);
      && result.auditSchedulers == |TenantIds(Store(input.auditQueue), "audit-verify", ids)| == |ids|
      && result.retentionSchedulers == |TenantIds(Store(input.retentionQueue), "retention", ids)| == |ids|
      && result.reminderSchedulers == CountIn(input.reminderQueue, "reminder", ids)
      && result.webhookSweepSchedulers == CountIn(input.webhookQueue, "webhook", ids)
      && result.keyHealthSchedulers == CountIn(input.keyHealthQueue, "key-health", ids)
      && result.scanSchedulers == CountIn(input.malwareScanQueue, "malware-scan", ids)
      && result.exportSchedulers == CountIn(input.exportQueue, "export", ids)
    ensures result.removedSchedulers ==
      |old(Store(input.auditQueue)).Keys - Store(input.auditQueue).Keys|
      + |old(Store(input.retentionQueue)).Keys - Store(input.retentionQueue).Keys|
      + |old(Store(input.reminderQueue)).Keys - Store(input.reminderQueue).Keys|
      + |old(Store(input.webhookQueue)).Keys - Store(input.webhookQueue).Keys|
      + |old(Store(input.keyHealthQueue)).Keys - Store(input.keyHealthQueue).Keys|
      + |old(Store(input.malwareScanQueue)).Keys - Store(input.malwareScanQueue).Keys|
      + |old(Store(input.exportQueue)).Keys - Store(input.exportQueue).Keys|
  {
    hide DistinctIds, AreDistinct, Reconciled, TenantIds, PlatformId, PlatformEntry, ScheduledQueue.Valid;
    assert SWEEP_JOB_OPTS == JobOpts(3, 2_000, 86_400, 100, 604_800);
    hide SWEEP_JOB_OPTS;
    var ids, every := DistinctIds(input.organisationIds), input.intervals;
    var removed := ReconcileStores(input, ids);
    result := Result(
      |ids|, |ids|, Count(input.reminderQueue, ids), Count(input.webhookQueue, ids),
      Count(input.keyHealthQueue, ids), Count(input.malwareScanQueue, ids), Count(input.exportQueue, ids), removed);
    AuditCounted(input.auditQueue, old(Store(input.auditQueue)), ids, every.auditVerifyMs, input.includePlatformChain);
    Counted(input.retentionQueue, old(Store(input.retentionQueue)), "retention", ids, every.retentionSweepMs, None);
    Counted(
      input.reminderQueue, old(Store(input.reminderQueue)), "reminder", ids, Or(every.reminderSweepMs, 900_000), None);
    Counted(
      input.webhookQueue, old(Store(input.webhookQueue)), "webhook", ids, Or(every.webhookSweepMs, 900_000),
      Some(SWEEP_JOB_OPTS));
    Counted(
      input.keyHealthQueue, old(Store(input.keyHealthQueue)), "key-health", ids, Or(every.keyHealthMs, 300_000), None);
    Counted(
      input.malwareScanQueue, old(Store(input.malwareScanQueue)), "malware-scan", ids,
      Or(every.evidenceScanSweepMs, 300_000), Some(SWEEP_JOB_OPTS));
    Counted(
      input.exportQueue, old(Store(input.exportQueue)), "export", ids, Or(every.exportSweepMs, 900_000),
      Some(SWEEP_JOB_OPTS));
  }
}
