/** The durable rows of the integration database: webhook events, normalized leads and the
    singleton runtime row, with the CHECK constraints that PostgreSQL enforces on them. */
module Schema {

  datatype Option<+T> = None | Some(value: T)

  datatype Result<+T, +E> = Ok(value: T) | Err(error: E)

  /** An instant, in microseconds. */
  type Time = int

  function Seconds(n: int): Time { n * 1_000_000 }

  /** 0001-01-01T00:00:00, the first instant a timestamp can represent. */
  const MIN_INSTANT: Time := -62_135_596_800_000_000

  /** 9999-12-31T23:59:59.999999, the last one. */
  const MAX_INSTANT: Time := 253_402_300_799_999_999

  /** A wall-clock reading with its offset from UTC. */
  datatype Zoned = Zoned(local: Time, offset: Time)

  function Utc(z: Zoned): Time { z.local - z.offset }

  /** Converting such a reading to UTC raises when the result cannot be represented. */
  predicate ConversionRaises(z: Zoned) { !(MIN_INSTANT <= Utc(z) <= MAX_INSTANT) }

  /** SQL `t <= now`: NULL never compares. */
  predicate DueBy(t: Option<Time>, now: Time) { t.Some? && t.value <= now }

  // ---------- webhook_events ----------

  datatype EventStatus = Received | Processing | Normalized | NormalizationFailed

  /** The stored JSON body; only the validating library looks inside it. */
  datatype RawPayload = RawPayload(json: string)

  datatype NormalizationFault = ProviderValidation | ContactValidation

  datatype Event = Event(
    source: string, eventId: string, payload: RawPayload, status: EventStatus,
    receivedAt: Time, processingStartedAt: Option<Time>, normalizedAt: Option<Time>,
    completedAt: Option<Time>, fault: Option<NormalizationFault>, notifiedAt: Option<Time>)

  const SOURCES: set<string> := {"website", "linkedin", "partner"}

  predicate EventChecks(source: string, eventId: string) {
    source in SOURCES && 1 <= |eventId| <= 128
  }

  // ---------- normalized_leads ----------

  /** The fields that cross the CRM boundary. */
  datatype ContactInput = ContactInput(
    firstName: string, lastName: string, integrationReference: string,
    email: Option<string>, phone: Option<string>, company: Option<string>,
    jobTitle: Option<string>, city: Option<string>, country: Option<string>)

  /** Provider-specific values that are stored as one JSON object. */
  datatype Metadata = Metadata(json: string)

  /** The columns of a lead that are written once, when the row is inserted. */
  datatype Identity = Identity(
    webhookEventId: nat, source: string, sourceEventId: string, submittedAt: Time,
    contact: ContactInput, campaign: Option<string>, leadSource: string, metadata: Metadata,
    createdAt: Time)

  datatype DeliveryStatus =
    | Pending | Sending | RetryPending | Unknown
    | Success | ExistingContact | FailedEscalated | UnknownEscalated

  datatype CreateCategory =
    | CreateSuccess | CreateAuthFailure | CreateConfigFailure | ConflictRequiresLookup
    | RetryableFailure | RateLimited | CreateUnknown | BadRequestRequiresClassification
    | UnclassifiedPermanentFailure

  datatype ReadCategory =
    | Found | ActiveNotFound | ReadAuthFailure | ReadConfigFailure
    | RetryableReadFailure | IndeterminateRead

  datatype ErrorCategory =
    | OfCreate(create: CreateCategory) | OfRead(read: ReadCategory)
    | StaleSendingUnknown | CrmDataIntegrity | CrmReferenceCollision
    | UnknownNotFoundExhausted | FollowUpReadIndeterminate
    | UnclassifiedBadRequest | UnclassifiedConflict

  /** The columns of a lead that the delivery protocol rewrites. */
  datatype Delivery = Delivery(
    status: DeliveryStatus, writeAttempts: int, retries: int, nextRetryAt: Option<Time>,
    lastAttemptAt: Option<Time>, firstFailureAt: Option<Time>, lastFailureAt: Option<Time>,
    notFound: int, errors: int, nextReconciliationAt: Option<Time>,
    errorCategory: Option<ErrorCategory>, crmRecordId: Option<string>, sentAt: Option<Time>,
    failureAt: Option<Time>, lastTechnicalFailureAt: Option<Time>)

  /** The columns of a lead that the notification machines rewrite. */
  datatype Notice = Notice(
    escalationNotifiedAt: Option<Time>, clusterPendingAt: Option<Time>,
    clusterAlertedAt: Option<Time>)

  datatype Lead = Lead(identity: Identity, crm: Delivery, notice: Notice)

  type Leads = map<nat, Lead>

  /** A freshly inserted row: status PENDING, the column defaults elsewhere. */
  const NEW_DELIVERY: Delivery :=
    Delivery(Pending, 0, 0, None, None, None, None, 0, 0, None, None, None, None, None, None)

  const NEW_NOTICE: Notice := Notice(None, None, None)

  predicate Waiting(status: DeliveryStatus) { status == Pending || status == RetryPending }

  predicate Escalated(status: DeliveryStatus) {
    status == FailedEscalated || status == UnknownEscalated
  }

  /** The CHECK constraints of `normalized_leads` on the delivery columns. */
  predicate DeliveryChecks(d: Delivery) {
    && d.writeAttempts >= 0
    && 0 <= d.retries <= 3
    && d.notFound >= 0
    && d.errors >= 0
    && (d.status == Success ==> d.crmRecordId.Some? && d.sentAt.Some?)
    && (d.status == ExistingContact ==> d.crmRecordId.Some?)
    && (d.status == RetryPending ==> d.nextRetryAt.Some?)
    && (d.status == Unknown ==> d.nextReconciliationAt.Some?)
    && (Escalated(d.status) ==> d.failureAt.Some?)
  }

  // ---------- integration_runtime_state ----------

  datatype PauseReason = Auth | Config

  datatype Pause = Pause(
    paused: bool, reason: Option<PauseReason>, pausedAt: Option<Time>,
    alertSentAt: Option<Time>, alertError: Option<string>)

  const UNPAUSED: Pause := Pause(false, None, None, None, None)

  /** The CHECK constraint `pause_state_consistent`. */
  predicate PauseChecks(p: Pause) {
    && (p.paused <==> p.reason.Some?)
    && (p.paused <==> p.pausedAt.Some?)
  }

  /** The three scheduling columns of one batch-notification stream. */
  datatype Stream = Stream(
    lastAttemptAt: Option<Time>, lastSuccessAt: Option<Time>, lastError: Option<string>)

  datatype StreamName = CrmFailures | NormalizationFailures

  // ---------- the whole database ----------

  datatype Db = Db(
    events: map<nat, Event>, leads: Leads, pause: Pause,
    crmStream: Stream, normalizationStream: Stream,
    nextEventId: nat, nextLeadId: nat)

  const EMPTY_STREAM: Stream := Stream(None, None, None)

  const EMPTY_DB: Db := Db(map[], map[], UNPAUSED, EMPTY_STREAM, EMPTY_STREAM, 1, 1)

  // ---------- configuration ----------

  datatype Settings = Settings(
    leaseSeconds: int, retryDelay1: int, retryDelay2: int, retryDelay3: int,
    reconcileInitial: int, reconcileNotFound2: int, reconcileNotFound3: int,
    reconcileError1: int, reconcileError2: int,
    clusterThreshold: int, clusterWindow: int,
    batchInterval: int, batchMaxItems: nat, failureRetry: int)

  /** Every one of these settings is declared `gt=0`. */
  predicate ValidSettings(s: Settings) {
    && s.leaseSeconds > 0
    && s.retryDelay1 > 0 && s.retryDelay2 > 0 && s.retryDelay3 > 0
    && s.reconcileInitial > 0 && s.reconcileNotFound2 > 0 && s.reconcileNotFound3 > 0
    && s.reconcileError1 > 0 && s.reconcileError2 > 0
    && s.clusterThreshold > 0 && s.clusterWindow > 0
    && s.batchInterval > 0 && s.batchMaxItems > 0 && s.failureRetry > 0
  }

  // ---------- libraries ----------

  /** A provider payload after the provider's own model has accepted and trimmed it. */
  datatype Submission = Submission(
    eventId: string, submittedAt: Time, firstName: string, lastName: string,
    email: Option<string>, phone: Option<string>, company: Option<string>,
    jobTitle: Option<string>, city: Option<string>, country: Option<string>,
    campaign: Option<string>, metadata: Metadata)

  /** What a provider model makes of a payload before it converts the timestamp to UTC: it refuses
      the payload, or lets some exception but a validation error escape, or it has read the
      timestamp and will accept or refuse the other fields. */
  datatype Parsed = Refusal | Escape | Dated(submittedAt: Zoned, submission: Option<Submission>)

  /** An HTTP-date, when the text is one and names its zone. */
  type DateReader = string -> Option<Zoned>

  /** The deterministic library functions the integration calls and this model does not look
      into: provider-model validation by source, the e-mail rule (validate and lowercase), and
      the HTTP-date reader. */
  datatype Library = Library(
    parse: (string, RawPayload) -> Parsed,
    email: string -> Option<string>,
    httpDate: DateReader)
}
