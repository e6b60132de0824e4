/** The pure part of the delivery protocol: how one lead row and the pause row change. */
module CrmDelivery {
  import opened Schema
  import opened Queries
  import opened HubSpot
  import Reference

  datatype Action =
    | CrmBlocked | NoWork | PauseActivated | Succeeded | RetryScheduled | BecameUnknown
    | StillUnknown | UnknownGaveUp | FoundExisting | Failed

  datatype DeliveryError =
    | NotSending | NotUnknown | NeedsClassification | MissingContactId | InvalidContact | DateOutOfRange

  // ---------- selection ----------

  function SendingKeys(leads: Leads): Keys {
    map id | id in leads && leads[id].crm.status == Sending :: leads[id].crm.lastAttemptAt
  }

  predicate IsDueUnknown(l: Lead, now: Time) {
    l.crm.status == Unknown && DueBy(l.crm.nextReconciliationAt, now)
  }

  function DueUnknownKeys(leads: Leads, now: Time): Keys {
    map id | id in leads && IsDueUnknown(leads[id], now) :: leads[id].crm.nextReconciliationAt
  }

  predicate Claimable(l: Lead, now: Time) {
    || l.crm.status == Pending
    || (l.crm.status == RetryPending && DueBy(l.crm.nextRetryAt, now))
  }

  /** The `due_or_created` sort column. */
  function DueOrCreated(l: Lead): Option<Time> {
    if l.crm.status == RetryPending then l.crm.nextRetryAt else Some(l.identity.createdAt)
  }

  function ClaimableKeys(leads: Leads, now: Time): Keys {
    map id | id in leads && Claimable(leads[id], now) :: DueOrCreated(leads[id])
  }

  // ---------- provider-directed delay ----------

  /** `Retry-After`, section 10.2.3 of RFC 9110: delay-seconds, or else an HTTP-date. Seconds
      beyond the range of timestamps are ignored; a date that UTC cannot represent raises. */
  function RetryAfterTime(value: Option<string>, now: Time, httpDate: DateReader): Result<Option<Time>, DeliveryError> {
    if value.None? || Strip(value.value) == [] then Ok(None)
    else
      var candidate := Strip(value.value);
      if Reference.AllDigits(candidate) then
        var t := now + Seconds(Reference.ParseDigits(candidate));
        Ok(if t > MAX_INSTANT then None else Some(t))
      else
        var date := httpDate(candidate);
        if date.None? then Ok(None)
        else if ConversionRaises(date.value) then Err(DateOutOfRange)
        else Ok(Some(Utc(date.value)))
  }

  /** `max(configured, provider or configured)`. */
  function LaterOf(configured: Time, provider: Option<Time>): Time {
    if provider.Some? && provider.value > configured then provider.value else configured
  }

  function RetryDelay(s: Settings, count: int): int {
    if count == 1 then s.retryDelay1 else if count == 2 then s.retryDelay2 else s.retryDelay3
  }

  // ---------- one lead row ----------

  function RecordFailure(d: Delivery, category: ErrorCategory, now: Time, technical: bool): Delivery {
    d.(firstFailureAt := if d.firstFailureAt.Some? then d.firstFailureAt else Some(now),
       lastFailureAt := Some(now),
       errorCategory := Some(category),
       lastTechnicalFailureAt := if technical then Some(now) else d.lastTechnicalFailureAt)
  }

  function StartSending(d: Delivery, now: Time): Delivery {
    d.(status := Sending, writeAttempts := d.writeAttempts + 1,
       lastAttemptAt := Some(now), nextRetryAt := None)
  }

  function EnterUnknown(d: Delivery, dueAt: Time): Delivery {
    d.(status := Unknown, notFound := 0, errors := 0,
       nextReconciliationAt := Some(dueAt), nextRetryAt := None)
  }

  function Recover(d: Delivery, now: Time): Delivery {
    EnterUnknown(RecordFailure(d, StaleSendingUnknown, now, true), now)
  }

  function GiveUp(d: Delivery, status: DeliveryStatus, now: Time): Delivery {
    d.(status := status, failureAt := Some(now), nextRetryAt := None, nextReconciliationAt := None)
  }

  function Confirm(d: Delivery, status: DeliveryStatus, contactId: string): Delivery {
    d.(status := status, crmRecordId := Some(contactId),
       nextRetryAt := None, nextReconciliationAt := None, errorCategory := None)
  }

  function ReturnToPending(d: Delivery): Delivery { d.(status := Pending, nextRetryAt := None) }

  /** What applying a result does: the new row, the pause it asks for, and the reported action. */
  datatype Applied = Applied(row: Delivery, pause: Option<PauseReason>, action: Action)

  function ApplyCreate(d: Delivery, result: CreateResult, s: Settings, httpDate: DateReader, now: Time)
    : Result<Applied, DeliveryError>
  {
    match result.category
    case BadRequestRequiresClassification => Err(NeedsClassification)
    case ConflictRequiresLookup => Err(NeedsClassification)
    case CreateSuccess =>
      if result.contactId.None? || Strip(result.contactId.value) == [] then Err(MissingContactId)
      else Ok(Applied(Confirm(d, Success, Strip(result.contactId.value)).(sentAt := Some(now)), None, Succeeded))
    case RetryableFailure => ApplyRetryable(d, result, s, httpDate, now)
    case RateLimited => ApplyRetryable(d, result, s, httpDate, now)
    case CreateUnknown =>
      var failed := RecordFailure(d, OfCreate(result.category), now, true);
      Ok(Applied(EnterUnknown(failed, now + Seconds(s.reconcileInitial)), None, BecameUnknown))
    case CreateAuthFailure =>
      var failed := RecordFailure(d, OfCreate(result.category), now, false);
      Ok(Applied(ReturnToPending(failed), Some(Auth), PauseActivated))
    case CreateConfigFailure =>
      var failed := RecordFailure(d, OfCreate(result.category), now, false);
      Ok(Applied(ReturnToPending(failed), Some(Config), PauseActivated))
    case UnclassifiedPermanentFailure =>
      var failed := RecordFailure(d, OfCreate(result.category), now, true);
      Ok(Applied(GiveUp(failed, FailedEscalated, now), None, Failed))
  }

  function ApplyRetryable(d: Delivery, result: CreateResult, s: Settings, httpDate: DateReader, now: Time)
    : Result<Applied, DeliveryError>
  {
    var failed := RecordFailure(d, OfCreate(result.category), now, true);
    if d.retries >= 3 then
      Ok(Applied(GiveUp(failed, FailedEscalated, now), None, Failed))
    else
      var provider := RetryAfterTime(result.retryAfter, now, httpDate);
      if provider.Err? then Err(provider.error)
      else
        var due := LaterOf(now + Seconds(RetryDelay(s, d.retries + 1)), provider.value);
        Ok(Applied(failed.(status := RetryPending, retries := d.retries + 1,
                           nextRetryAt := Some(due), nextReconciliationAt := None),
                   None, RetryScheduled))
  }

  /** What the follow-up reads after a 400 or a 409 decide. */
  datatype Decision =
    | PauseFor(reason: PauseReason, category: ErrorCategory)
    | Existing(contactId: string)
    | Fail(category: ErrorCategory)

  function ReferenceMatches(read: ReadResult, contact: ContactInput): bool {
    && Get(read.properties, ReferenceProperty) == Some(contact.integrationReference)
    && Get(read.properties, EmailProperty) == contact.email
  }

  function ReadBlocker(read: ReadResult): Option<Decision> {
    match read.category
    case ReadAuthFailure => Some(PauseFor(Auth, OfRead(read.category)))
    case ReadConfigFailure => Some(PauseFor(Config, OfRead(read.category)))
    case RetryableReadFailure => Some(Fail(FollowUpReadIndeterminate))
    case IndeterminateRead => Some(Fail(FollowUpReadIndeterminate))
    case Found => None
    case ActiveNotFound => None
  }

  function CollisionDecision(read: ReadResult, contact: ContactInput): Decision {
    PauseFor(Config, if ReferenceMatches(read, contact) then CrmReferenceCollision else CrmDataIntegrity)
  }

  function ClassifyBadRequest(contact: ContactInput, read: ReadResult): Decision {
    var blocker := ReadBlocker(read);
    if blocker.Some? then blocker.value
    else if read.category == Found then CollisionDecision(read, contact)
    else Fail(UnclassifiedBadRequest)
  }

  /** The first read after a 409; None asks for the e-mail read. */
  function ClassifyConflictByReference(contact: ContactInput, read: ReadResult): Option<Decision> {
    var blocker := ReadBlocker(read);
    if blocker.Some? then blocker
    else if read.category == Found then Some(CollisionDecision(read, contact))
    else if contact.email.None? then Some(Fail(UnclassifiedConflict))
    else None
  }

  function ClassifyConflictByEmail(email: string, read: ReadResult): Decision {
    var blocker := ReadBlocker(read);
    if blocker.Some? then blocker.value
    else if read.category == Found then
      if && read.contactId.Some? && Strip(read.contactId.value) != []
         && Get(read.properties, EmailProperty) == Some(email)
      then Existing(Strip(read.contactId.value))
      else PauseFor(Config, CrmDataIntegrity)
    else Fail(UnclassifiedConflict)
  }

  /** `_classify_conflict`: the reference is read first; the e-mail only when the reference is
      not found and the lead has one. */
  function ClassifyConflict(contact: ContactInput, byReference: ReadResult, byEmail: ReadResult): Decision {
    var decision := ClassifyConflictByReference(contact, byReference);
    if decision.Some? then decision.value
    else if contact.email.Some? then ClassifyConflictByEmail(contact.email.value, byEmail)
    else Fail(UnclassifiedConflict)
  }

  /** The read a conflict is decided by. */
  function DecidingRead(contact: ContactInput, byReference: ReadResult, byEmail: ReadResult): ReadResult {
    if byReference.category == ActiveNotFound && contact.email.Some? then byEmail else byReference
  }

  predicate FoundByEmail(contact: ContactInput, byReference: ReadResult, byEmail: ReadResult) {
    && byReference.category == ActiveNotFound && contact.email.Some? && byEmail.category == Found
    && ValidContactId(byEmail.contactId).Some? && Get(byEmail.properties, EmailProperty) == contact.email
  }

  /** A conflict ends in an existing contact exactly when the reference is unknown to HubSpot and
      the e-mail names a contact that carries it; it fails the lead exactly when the deciding read
      finds nothing or says nothing; everything else stops CRM work for the operator. */
  lemma ConflictVerdicts(contact: ContactInput, byReference: ReadResult, byEmail: ReadResult)
    ensures var decision := ClassifyConflict(contact, byReference, byEmail);
      var deciding := DecidingRead(contact, byReference, byEmail).category;
      && (decision.Existing? <==> FoundByEmail(contact, byReference, byEmail))
      && (decision.Existing? ==> Some(decision.contactId) == ValidContactId(byEmail.contactId))
      && (decision.Fail? <==> deciding in {ActiveNotFound, RetryableReadFailure, IndeterminateRead})
      && (decision.PauseFor? ==> (decision.reason == Auth <==> deciding == ReadAuthFailure))
  {
  }

  function ApplyDecision(d: Delivery, decision: Decision, now: Time): Applied {
    match decision
    case PauseFor(reason, category) =>
      Applied(ReturnToPending(RecordFailure(d, category, now, false)), Some(reason), PauseActivated)
    case Existing(contactId) =>
      Applied(Confirm(d, ExistingContact, contactId), None, FoundExisting)
    case Fail(category) =>
      Applied(GiveUp(RecordFailure(d, category, now, true), FailedEscalated, now), None, Failed)
  }

  function EvidenceMatches(contact: ContactInput, read: ReadResult): bool {
    && read.contactId.Some? && Strip(read.contactId.value) != []
    && ReferenceProperty in read.properties && EmailProperty in read.properties
    && read.properties[ReferenceProperty] == Some(contact.integrationReference)
    && read.properties[EmailProperty] == contact.email
  }

  function ApplyEvidence(
      d: Delivery, contact: ContactInput, read: ReadResult, s: Settings, httpDate: DateReader, now: Time)
    : Result<Applied, DeliveryError>
  {
    match read.category
    case Found =>
      if EvidenceMatches(contact, read) then
        var found := Confirm(d, Success, Strip(read.contactId.value));
        Ok(Applied(found.(sentAt := Some(now), notFound := 0, errors := 0), None, Succeeded))
      else
        Ok(Applied(RecordFailure(d, CrmDataIntegrity, now, false), Some(Config), PauseActivated))
    case ActiveNotFound =>
      if d.notFound + 1 >= 3 then
        var failed := RecordFailure(d, UnknownNotFoundExhausted, now, true);
        Ok(Applied(GiveUp(failed, UnknownEscalated, now).(notFound := 3, errors := 0), None, UnknownGaveUp))
      else
        var delay := if d.notFound + 1 == 1 then s.reconcileNotFound2 else s.reconcileNotFound3;
        var later := d.(notFound := d.notFound + 1, errors := 0, nextReconciliationAt := Some(now + Seconds(delay)));
        Ok(Applied(later, None, StillUnknown))
    case RetryableReadFailure => ApplyFailedRead(d, read, s, httpDate, now)
    case IndeterminateRead => ApplyFailedRead(d, read, s, httpDate, now)
    case ReadAuthFailure =>
      Ok(Applied(RecordFailure(d, OfRead(read.category), now, false), Some(Auth), PauseActivated))
    case ReadConfigFailure =>
      Ok(Applied(RecordFailure(d, OfRead(read.category), now, false), Some(Config), PauseActivated))
  }

  function ApplyFailedRead(d: Delivery, read: ReadResult, s: Settings, httpDate: DateReader, now: Time)
    : Result<Applied, DeliveryError>
  {
    var failed := RecordFailure(d, OfRead(read.category), now, true);
    if d.errors + 1 >= 3 then
      Ok(Applied(GiveUp(failed, UnknownEscalated, now).(errors := 3), None, UnknownGaveUp))
    else
      var provider :=
        if read.category == RetryableReadFailure then RetryAfterTime(read.retryAfter, now, httpDate) else Ok(None);
      if provider.Err? then Err(provider.error)
      else
        var delay := if d.errors + 1 == 1 then s.reconcileError1 else s.reconcileError2;
        var due := LaterOf(now + Seconds(delay), provider.value);
        Ok(Applied(failed.(errors := d.errors + 1, nextReconciliationAt := Some(due)), None, StillUnknown))
  }

  // ---------- the pause row ----------

  /** The first reason is kept: an active pause is left as it is. */
  function ActivatePause(p: Pause, reason: Option<PauseReason>, now: Time): Pause {
    if reason.None? || p.paused then p else Pause(true, reason, Some(now), None, None)
  }

  function ClearPause(p: Pause): Pause { if p.paused then UNPAUSED else p }

  // ---------- transactions ----------

  /** The gate before every CRM selection, run inside the caller's transaction. */
  datatype Gate = Clear | Blocked(lead: nat) | Recovered(lead: nat)

  predicate StaleSending(d: Delivery, lease: int, now: Time) {
    d.lastAttemptAt.Some? && d.lastAttemptAt.value < now - Seconds(lease)
  }

  ghost predicate GateTransaction(leads: Leads, lease: int, now: Time, leads': Leads, gate: Gate) {
    match gate
    case Clear => SendingKeys(leads) == map[] && leads' == leads
    case Blocked(id) =>
      IsLeast(SendingKeys(leads), id) && !StaleSending(leads[id].crm, lease, now) && leads' == leads
    case Recovered(id) =>
      && IsLeast(SendingKeys(leads), id) && StaleSending(leads[id].crm, lease, now)
      && leads' == leads[id := leads[id].(crm := Recover(leads[id].crm, now))]
  }

  datatype Claim = NoClaim | Claimed(lead: nat, contact: ContactInput)

  /** `claim_one_crm_create`. A contact that fails its validators rolls the claim back. */
  ghost predicate ClaimTransaction(
      db: Db, lease: int, now: Time, db': Db, gate: Gate, result: Result<Claim, DeliveryError>)
  {
    && GateTransaction(db.leads, lease, now, if gate.Recovered? then db'.leads else db.leads, gate)
    && db' == db.(leads := db'.leads)
    && match result
       case Ok(NoClaim) =>
         && (!gate.Recovered? ==> db' == db)
         && (gate.Clear? ==>
              || db.pause.paused
              || DueUnknownKeys(db.leads, now) != map[]
              || ClaimableKeys(db.leads, now) == map[])
       case Ok(Claimed(id, contact)) =>
         && gate.Clear? && !db.pause.paused && DueUnknownKeys(db.leads, now) == map[]
         && IsLeast(ClaimableKeys(db.leads, now), id)
         && contact == db.leads[id].identity.contact && ValidContact(contact)
         && db'.leads == db.leads[id := db.leads[id].(crm := StartSending(db.leads[id].crm, now))]
       case Err(e) =>
         && gate.Clear? && !db.pause.paused && DueUnknownKeys(db.leads, now) == map[]
         && e == InvalidContact && db' == db
         && exists id :: IsLeast(ClaimableKeys(db.leads, now), id) && !ValidContact(db.leads[id].identity.contact)
  }

  /** `_prepare_unknown_reconciliation`. */
  ghost predicate PrepareTransaction(db: Db, lease: int, now: Time, db': Db, gate: Gate, candidate: Option<nat>) {
    && GateTransaction(db.leads, lease, now, db'.leads, gate)
    && db' == db.(leads := db'.leads)
    && match candidate
       case None => gate.Blocked? || db.pause.paused || DueUnknownKeys(db'.leads, now) == map[]
       case Some(id) => !gate.Blocked? && !db.pause.paused && IsLeast(DueUnknownKeys(db'.leads, now), id)
  }

  /** Writing an applied result back: the lead and the pause row change in one transaction. */
  function Commit(db: Db, id: nat, a: Applied, now: Time): Db
    requires id in db.leads
  {
    db.(leads := db.leads[id := db.leads[id].(crm := a.row)], pause := ActivatePause(db.pause, a.pause, now))
  }

  predicate HasStatus(db: Db, id: nat, status: DeliveryStatus) {
    id in db.leads && db.leads[id].crm.status == status
  }

  /** `apply_create_result`; an error leaves the database alone. */
  function CreateResultTransaction(
      db: Db, id: nat, result: CreateResult, s: Settings, httpDate: DateReader, now: Time)
    : Result<(Db, Action), DeliveryError>
  {
    if !HasStatus(db, id, Sending) then Err(NotSending)
    else
      match ApplyCreate(db.leads[id].crm, result, s, httpDate, now)
      case Err(e) => Err(e)
      case Ok(a) => Ok((Commit(db, id, a, now), a.action))
  }

  /** `_apply_deferred_decision`. */
  function DecisionTransaction(db: Db, id: nat, decision: Decision, now: Time): Result<(Db, Action), DeliveryError> {
    if !HasStatus(db, id, Sending) then Err(NotSending)
    else
      var a := ApplyDecision(db.leads[id].crm, decision, now);
      Ok((Commit(db, id, a, now), a.action))
  }

  /** `apply_reconciliation_result`. */
  function EvidenceTransaction(db: Db, id: nat, read: ReadResult, s: Settings, httpDate: DateReader, now: Time)
    : Result<(Db, Action), DeliveryError>
  {
    if !HasStatus(db, id, Unknown) then Err(NotUnknown)
    else
      match ApplyEvidence(db.leads[id].crm, db.leads[id].identity.contact, read, s, httpDate, now)
      case Err(e) => Err(e)
      case Ok(a) => Ok((Commit(db, id, a, now), a.action))
  }
}
