/**
 * The pure decisions of the worker: which payload is the platform audit job,
 * what a key status means for a job, and when a failed job is exhausted.
 */
module TenantGates {
  import opened Common
  import opened MigrationText

  const TENANT_KEY_PAUSE_MS := 30_000
  const PLATFORM_CHAIN_ID := "platform"
  const MALWARE_SCAN := "malware-scan"
  const AUDIT_VERIFY := "audit-verify"

  /** The queue names the worker registers. */
  const QUEUE_NAMES := [
    "malware-scan", "email", "notification", "audit-verify", "retention", "export",
    "webhook", "reminder", "encryption-backfill", "key-health", "key-rewrap"]

  /** A payload as it comes back from Redis. */
  datatype Json = JNull | JBool(b: bool) | JString(s: string) | JOther | JObject(fields: map<string, Json>)

  function Field(data: Json, name: string): Json {
    if data.JObject? && name in data.fields then data.fields[name] else JOther
  }

  /** `isPlatformAuditJob` */
  predicate IsPlatformAuditJob(queue: string, data: Json) {
    && queue == AUDIT_VERIFY && data.JObject?
    && Field(data, "platformChain") == JBool(true)
    && Field(data, "organisationId") == JString(PLATFORM_CHAIN_ID)
    && Field(data, "correlationId").JString? && Trim(Field(data, "correlationId").s) != ""
  }

  /** The organisation a payload names; empty when it names none. */
  function OrganisationOf(data: Json): string {
    if Field(data, "organisationId").JString? then Field(data, "organisationId").s else ""
  }

  datatype OrganisationStatus = Draft | Onboarding | Active | Suspended | Closed

  /** `isOrganisationAcceptingWork`, on the status found for the organisation. */
  predicate AcceptsWork(id: string, found: Option<OrganisationStatus>) {
    id != "" && found.Some? && found.value in {Draft, Onboarding, Active}
  }

  datatype KeyStatus = NoKey | KeyActive | KeyDisabled | KeyPendingDeletion | KeyPendingValidation | KeyUnavailable

  datatype GateAction = RunJob | PauseJob

  function TenantJobAction(status: KeyStatus): GateAction {
    if status == NoKey || status == KeyActive then RunJob else PauseJob
  }

  /** Mail-sending queues have a rate limiter. */
  predicate HasLimiter(queue: string) {
    queue == "email" || queue == "notification"
  }

  function MaxAttempts(configured: Option<int>): int {
    if configured.Some? && configured.value > 0 then configured.value else 1
  }

  /** `queueFailureSignal(job).alert` */
  predicate Exhausted(attemptsMade: nat, configured: Option<int>) {
    attemptsMade >= MaxAttempts(configured)
  }

  /** BullMQ's own test, on the attempts made before this failure. */
  predicate Retries(attemptsBefore: nat, configured: Option<int>) {
    attemptsBefore + 1 < if configured.Some? then configured.value else 0
  }

  /** The alert is raised on exactly the failures after which BullMQ does not retry. */
  lemma AlertMeansNoRetry(attemptsBefore: nat, configured: Option<int>)
    ensures Exhausted(attemptsBefore + 1, configured) <==> !Retries(attemptsBefore, configured)
  {
  }

  // ---- Refs ------------------------------------------------------------------------

  function MakeRef(queue: string, id: string): string {
    queue + ":" + id
  }

  /** `splitRef` */
  function SplitRef(ref: string): (r: Option<(string, string)>) {
    match IndexOf(ref, ":", 0)
    case None => None
    case Some(split) =>
      if split <= 0 || ref[split + 1..] == "" || ref[..split] !in QUEUE_NAMES then None
      else Some((ref[..split], ref[split + 1..]))
  }

  /** The queues the worker registers, one by one. */
  predicate IsQueueName(queue: string) {
    || queue == "malware-scan" || queue == "email" || queue == "notification" || queue == "audit-verify"
    || queue == "retention" || queue == "export" || queue == "webhook" || queue == "reminder"
    || queue == "encryption-backfill" || queue == "key-health" || queue == "key-rewrap"
  }

  lemma RegisteredIsNamed(queue: string)
    requires queue in QUEUE_NAMES
    ensures IsQueueName(queue)
  {
    var i :| 0 <= i < |QUEUE_NAMES| && QUEUE_NAMES[i] == queue;
  }

  lemma NamedIsRegistered(queue: string)
    requires IsQueueName(queue)
    ensures queue in QUEUE_NAMES
  {
    var l := QUEUE_NAMES;
    var i :=
      if queue == "malware-scan" then 0 else if queue == "email" then 1 else if queue == "notification" then 2
      else if queue == "audit-verify" then 3 else if queue == "retention" then 4 else if queue == "export" then 5
      else if queue == "webhook" then 6 else if queue == "reminder" then 7
      else if queue == "encryption-backfill" then 8 else if queue == "key-health" then 9 else 10;
    assert l[i] == queue;
  }

  lemma QueueNamesHaveNoColon(queue: string)
    requires queue in QUEUE_NAMES
    ensures queue != "" && FreeOf(queue, ":")
  {
    forall i
      ensures !OccursAt(queue, ":", i)
    {
      assert 0 <= i < |queue| ==> queue[i] != ':' && queue[i..i + 1] == [queue[i]];
    }
  }

  /** A ref the worker makes is never malformed: it gives back its queue and id, colons in the id included. */
  lemma SplitUndoesMake(queue: string, id: string)
    requires queue in QUEUE_NAMES && id != ""
    ensures SplitRef(MakeRef(queue, id)) == Some((queue, id))
  {
    hide QUEUE_NAMES;
    QueueNamesHaveNoColon(queue);
    assert Borderless(":");
    FirstOccurrence(queue, ":", id);
    var ref := MakeRef(queue, id);
    assert ref[..|queue|] == queue && ref[|queue| + 1..] == id;
  }

  /** What `splitRef` accepts is a ref of what it returns. */
  lemma MakeUndoesSplit(ref: string)
    requires SplitRef(ref).Some?
    ensures ref == MakeRef(SplitRef(ref).value.0, SplitRef(ref).value.1)
    ensures SplitRef(ref).value.0 in QUEUE_NAMES && SplitRef(ref).value.1 != ""
  {
    hide QUEUE_NAMES;
    var at := IndexOf(ref, ":", 0).value;
    assert ref == ref[..at] + ref[at..at + 1] + ref[at + 1..];
  }

  /** `splitRef` accepts exactly a registered queue, a colon and an id that is not empty. */
  lemma SplitExactly(ref: string, queue: string, id: string)
    ensures SplitRef(ref) == Some((queue, id)) <==> ref == queue + ":" + id && id != "" && IsQueueName(queue)
  {
    hide QUEUE_NAMES, IsQueueName, SplitRef;
    if SplitRef(ref) == Some((queue, id)) {
      MakeUndoesSplit(ref);
      RegisteredIsNamed(queue);
    }
    if IsQueueName(queue) && id != "" {
      NamedIsRegistered(queue);
      SplitUndoesMake(queue, id);
    }
  }
}
