/** What each answer of HubSpot does to the database, said of the raw answer and the columns. */
module Verdicts {
  import opened Schema
  import opened HubSpot
  import opened CrmDelivery
  import opened Reference

  // ---------- what a written result looks like ----------

  type Outcome = Result<(Db, Action), DeliveryError>

  /** `e` is `d` with a failure on record: the first one is kept, the last one is this, and only a
      technical one moves the technical column. */
  predicate Noted(d: Delivery, e: Delivery, category: ErrorCategory, technical: bool, now: Time) {
    && e == d.(firstFailureAt := e.firstFailureAt, lastFailureAt := e.lastFailureAt,
               errorCategory := e.errorCategory, lastTechnicalFailureAt := e.lastTechnicalFailureAt)
    && (d.firstFailureAt.Some? ==> e.firstFailureAt == d.firstFailureAt)
    && (d.firstFailureAt.None? ==> e.firstFailureAt == Some(now))
    && e.lastFailureAt == Some(now) && e.errorCategory == Some(category)
    && (technical ==> e.lastTechnicalFailureAt == Some(now))
    && (!technical ==> e.lastTechnicalFailureAt == d.lastTechnicalFailureAt)
  }

  /** One lead has a new row; the pause asked for is in force unless there was one before; nothing
      else of the database differs. */
  predicate Wrote(db: Db, id: nat, row: Delivery, pause: Option<PauseReason>, now: Time, db': Db) {
    && id in db.leads
    && db' == db.(leads := db.leads[id := db.leads[id].(crm := row)], pause := db'.pause)
    && (pause.None? || db.pause.paused ==> db'.pause == db.pause)
    && (pause.Some? && !db.pause.paused ==> db'.pause == Pause(true, pause, Some(now), None, None))
  }

  /** The result was written as exactly this row, without a pause. */
  predicate Confirmed(db: Db, id: nat, outcome: Outcome, row: Delivery, action: Action, now: Time) {
    outcome.Ok? && outcome.value.1 == action && Wrote(db, id, row, None, now, outcome.value.0)
  }

  /** The result was written as this row with a failure on record. */
  predicate Failing(
      db: Db, id: nat, outcome: Outcome, row: Delivery, category: ErrorCategory, technical: bool,
      pause: Option<PauseReason>, action: Action, now: Time)
  {
    && outcome.Ok? && outcome.value.1 == action && id in outcome.value.0.leads
    && Noted(row, outcome.value.0.leads[id].crm, category, technical, now)
    && Wrote(db, id, outcome.value.0.leads[id].crm, pause, now, outcome.value.0)
  }

  /** A pause was asked for and the lead went back to PENDING. */
  predicate Returned(
      db: Db, id: nat, outcome: Outcome, d: Delivery, category: ErrorCategory, reason: PauseReason, now: Time)
  {
    var row := d.(status := Pending, nextRetryAt := None);
    Failing(db, id, outcome, row, category, false, Some(reason), PauseActivated, now)
  }

  /** The lead was given up. */
  predicate GivenUp(db: Db, id: nat, outcome: Outcome, d: Delivery, category: ErrorCategory, now: Time) {
    var row := d.(status := FailedEscalated, failureAt := Some(now), nextRetryAt := None, nextReconciliationAt := None);
    Failing(db, id, outcome, row, category, true, None, Failed, now)
  }

  // ---------- Retry-After ----------

  lemma {:induction false} BlankStripsAway(left: string, text: string, right: string)
    requires Blank(left) && Blank(right) && text != [] && !IsSpace(text[0]) && !IsSpace(text[|text| - 1])
    ensures Strip(left + text + right) == text
  {
    StripsLeft(left, text + right);
    assert left + text + right == left + (text + right);
    StripsRight(text, right);
  }

  lemma {:induction false} StripsLeft(left: string, rest: string)
    requires Blank(left) && (rest == [] || !IsSpace(rest[0]))
    ensures StripLeft(left + rest) == rest
  {
    if left != [] {
      assert (left + rest)[1..] == left[1..] + rest;
      StripsLeft(left[1..], rest);
    } else {
      assert left + rest == rest;
    }
  }

  lemma {:induction false} StripsRight(rest: string, right: string)
    requires Blank(right) && (rest == [] || !IsSpace(rest[|rest| - 1]))
    ensures StripRight(rest + right) == rest
  {
    if right != [] {
      var all := rest + right;
      assert all[..|all| - 1] == rest + right[..|right| - 1];
      StripsRight(rest, right[..|right| - 1]);
    } else {
      assert rest + right == rest;
    }
  }

  /** The time that a `Retry-After` header asks for. */
  function Asked(header: Option<string>, now: Time, httpDate: DateReader): Result<Option<Time>, DeliveryError> {
    RetryAfterTime(SafeRetryAfter(header), now, httpDate)
  }

  /** What printable ASCII of at most 128 characters, trimmed, asks for: digits are a number of
      seconds from now, ignored beyond the last timestamp; anything else is the date the reader
      makes of it, and one that UTC cannot hold raises. */
  predicate AsksFor(
      text: string, n: nat, now: Time, httpDate: DateReader, asked: Result<Option<Time>, DeliveryError>)
  {
    && (text == Decimal(n) ==>
         asked == Ok(if now + n * 1_000_000 <= MAX_INSTANT then Some(now + n * 1_000_000) else None))
    && (!AllDigits(text) ==>
         asked == match httpDate(text)
                  case None => Ok(None)
                  case Some(z) =>
                    if MIN_INSTANT <= z.local - z.offset <= MAX_INSTANT then Ok(Some(z.local - z.offset))
                    else Err(DateOutOfRange))
  }

  predicate PlainText(text: string) { |text| <= 128 && forall k | 0 <= k < |text| :: ' ' <= text[k] <= '~' }

  /** White space around the text of a header does not matter, and a text that is longer or not
      printable asks for nothing. */
  lemma RetryAfterMeaning(left: string, text: string, right: string, n: nat, now: Time, httpDate: DateReader)
    requires Blank(left) && Blank(right) && text != [] && !IsSpace(text[0]) && !IsSpace(text[|text| - 1])
    ensures var asked := Asked(Some(left + text + right), now, httpDate);
      if PlainText(text) then AsksFor(text, n, now, httpDate, asked) else asked == Ok(None)
  {
    BlankStripsAway(left, text, right);
    if PlainText(text) {
      BlankStripsAway([], text, []);
      assert [] + text + [] == text;
      TrimmedMeaning(text, n, now, httpDate);
    }
  }

  lemma TrimmedMeaning(text: string, n: nat, now: Time, httpDate: DateReader)
    requires text != [] && Strip(text) == text
    ensures AsksFor(text, n, now, httpDate, RetryAfterTime(Some(text), now, httpDate))
  {
    if text == Decimal(n) { DecimalRoundTrip(n); }
  }

  /** No header, or a blank one, asks for nothing. */
  lemma {:induction false} BlankRetryAfter(text: string, now: Time, httpDate: DateReader)
    requires Blank(text)
    ensures Asked(None, now, httpDate) == Asked(Some(text), now, httpDate) == Ok(None)
  {
    StripsLeft(text, []);
    assert text + [] == text;
  }

  /** A due time is the configured one, or a later one that was asked for. */
  predicate DueAsAsked(due: Option<Time>, configured: Time, asked: Option<Time>) {
    if asked.Some? && asked.value > configured then due == asked else due == Some(configured)
  }

  // ---------- the answer to a create ----------

  predicate InStatus(db: Db, id: nat, status: DeliveryStatus) { id in db.leads && db.leads[id].crm.status == status }

  /** Answers after which the design resends automatically. */
  predicate Retryable(raw: RawCreate) { raw.PreTransmissionFailure? || Status(raw, {423, 429, 477}) }

  function HeaderOf(raw: RawCreate): Option<string> { if raw.CreateResponse? then raw.retryAfter else None }

  /** The retry of a lead that has one left. */
  ghost predicate Retried(
      db: Db, id: nat, outcome: Outcome, d: Delivery, raw: RawCreate, s: Settings, httpDate: DateReader, now: Time)
    requires 0 <= d.retries <= 2
  {
    var asked := Asked(HeaderOf(raw), now, httpDate);
    if asked.Err? then outcome == Err(DateOutOfRange)
    else
      && outcome.Ok? && id in outcome.value.0.leads
      && var due := outcome.value.0.leads[id].crm.nextRetryAt;
         var row := d.(status := RetryPending, retries := d.retries + 1, nextRetryAt := due,
                       nextReconciliationAt := None);
         var category := if Status(raw, {429}) then RateLimited else RetryableFailure;
      && DueAsAsked(due, now + [s.retryDelay1, s.retryDelay2, s.retryDelay3][d.retries] * 1_000_000, asked.value)
      && Failing(db, id, outcome, row, OfCreate(category), true, None, RetryScheduled, now)
  }

  /** An answer that proves nothing was created and asks for patience: the lead is resent after
      its configured delay, until its three retries are used up. */
  ghost predicate RetryVerdict(
      db: Db, id: nat, raw: RawCreate, s: Settings, httpDate: DateReader, now: Time, outcome: Outcome)
    requires InStatus(db, id, Sending)
  {
    var d := db.leads[id].crm;
    && (Retryable(raw) && d.retries >= 3 ==>
         GivenUp(db, id, outcome, d, OfCreate(if Status(raw, {429}) then RateLimited else RetryableFailure), now))
    && (Retryable(raw) && 0 <= d.retries <= 2 ==> Retried(db, id, outcome, d, raw, s, httpDate, now))
  }

  /** Every other answer. A lead is confirmed exactly by a 2xx that names a contact, goes to
      reconciliation exactly when nothing is known, is given up on a 4xx without treatment, and
      goes back to PENDING behind a pause on 401, 403, 404 and 405. A 400 or 409 is not written by
      this transaction. */
  predicate AnswerVerdict(db: Db, id: nat, raw: RawCreate, s: Settings, now: Time, outcome: Outcome)
    requires InStatus(db, id, Sending)
  {
    var d := db.leads[id].crm;
    && (NamesContact(raw) ==>
         var row := d.(status := Success, crmRecordId := Some(Strip(raw.payloadId.value)), sentAt := Some(now),
                       nextRetryAt := None, nextReconciliationAt := None, errorCategory := None);
         Confirmed(db, id, outcome, row, Succeeded, now))
    && (Uncertain(raw) ==>
         var row := d.(status := Unknown, notFound := 0, errors := 0, nextRetryAt := None,
                       nextReconciliationAt := Some(now + s.reconcileInitial * 1_000_000));
         Failing(db, id, outcome, row, OfCreate(CreateUnknown), true, None, BecameUnknown, now))
    && (UnlistedClientError(raw) ==> GivenUp(db, id, outcome, d, OfCreate(UnclassifiedPermanentFailure), now))
    && (Status(raw, {401}) ==> Returned(db, id, outcome, d, OfCreate(CreateAuthFailure), Auth, now))
    && (Status(raw, {403, 404, 405}) ==> Returned(db, id, outcome, d, OfCreate(CreateConfigFailure), Config, now))
    && (Status(raw, {400, 409}) ==> outcome == Err(NeedsClassification))
  }

  /** What writing the answer to a create does. */
  ghost predicate CreateVerdict(
      db: Db, id: nat, raw: RawCreate, s: Settings, httpDate: DateReader, now: Time, outcome: Outcome)
  {
    if InStatus(db, id, Sending) then
      AnswerVerdict(db, id, raw, s, now, outcome) && RetryVerdict(db, id, raw, s, httpDate, now, outcome)
    else outcome == Err(NotSending)
  }

  lemma CreateVerdicts(db: Db, id: nat, raw: RawCreate, s: Settings, httpDate: DateReader, now: Time)
    ensures CreateVerdict(db, id, raw, s, httpDate, now,
                          CreateResultTransaction(db, id, ClassifyCreate(raw), s, httpDate, now))
  {
    if InStatus(db, id, Sending) {
      AnswerVerdicts(db, id, raw, s, httpDate, now);
      RetryVerdicts(db, id, raw, s, httpDate, now);
    }
  }

  lemma AnswerVerdicts(db: Db, id: nat, raw: RawCreate, s: Settings, httpDate: DateReader, now: Time)
    requires InStatus(db, id, Sending)
    ensures AnswerVerdict(db, id, raw, s, now, CreateResultTransaction(db, id, ClassifyCreate(raw), s, httpDate, now))
  {
    CreateCategories(raw);
    if NamesContact(raw) { StripIsIdempotent(raw.payloadId.value); }
  }

  lemma RetryVerdicts(db: Db, id: nat, raw: RawCreate, s: Settings, httpDate: DateReader, now: Time)
    requires InStatus(db, id, Sending)
    ensures RetryVerdict(db, id, raw, s, httpDate, now,
                         CreateResultTransaction(db, id, ClassifyCreate(raw), s, httpDate, now))
  {
    CreateCategories(raw);
  }

  // ---------- the reads after a 400 or a 409 ----------

  /** The text a found contact quotes for a property; absent and null read alike. */
  function Quoted(raw: RawRead, name: PropertyName): Option<string>
    requires NamesFound(raw)
  {
    var p := raw.properties.value;
    if name in p && p[name].Text? then Some(p[name].text) else None
  }

  /** The found contact has the lead's reference and its e-mail. */
  predicate Bears(raw: RawRead, contact: ContactInput) {
    && NamesFound(raw)
    && Quoted(raw, ReferenceProperty) == Some(contact.integrationReference)
    && Quoted(raw, EmailProperty) == contact.email
  }

  /** What a read that names no contact does to the lead that asked for it, unless it is a 404. */
  predicate BlockedRead(db: Db, id: nat, raw: RawRead, now: Time, outcome: Outcome)
    requires id in db.leads
  {
    var d := db.leads[id].crm;
    && (ReadStatus(raw, {401}) ==> Returned(db, id, outcome, d, OfRead(ReadAuthFailure), Auth, now))
    && (ReadStatus(raw, {400, 403, 405}) ==> Returned(db, id, outcome, d, OfRead(ReadConfigFailure), Config, now))
    && (ReadStatus(raw, {423, 429, 477}) || ReadSaysNothing(raw) ==>
         GivenUp(db, id, outcome, d, FollowUpReadIndeterminate, now))
  }

  /** A contact found by the reference of a refused create stops CRM work. */
  predicate Collides(db: Db, id: nat, raw: RawRead, now: Time, outcome: Outcome)
    requires id in db.leads
  {
    var l := db.leads[id];
    var category := if Bears(raw, l.identity.contact) then CrmReferenceCollision else CrmDataIntegrity;
    NamesFound(raw) ==> Returned(db, id, outcome, l.crm, category, Config, now)
  }

  /** After a 400 the reference is read: a contact that has it stops CRM work, a 404 fails the
      lead, and so does a read that says nothing. */
  predicate BadRequestVerdict(db: Db, id: nat, raw: RawRead, now: Time, outcome: Outcome) {
    if InStatus(db, id, Sending) then
      && BlockedRead(db, id, raw, now, outcome) && Collides(db, id, raw, now, outcome)
      && (ReadStatus(raw, {404}) ==> GivenUp(db, id, outcome, db.leads[id].crm, UnclassifiedBadRequest, now))
    else outcome == Err(NotSending)
  }

  lemma BadRequestVerdicts(db: Db, id: nat, contact: ContactInput, raw: RawRead, now: Time)
    requires id in db.leads ==> contact == db.leads[id].identity.contact
    ensures BadRequestVerdict(db, id, raw, now,
                              DecisionTransaction(db, id, ClassifyBadRequest(contact, ClassifyRead(raw)), now))
  {
    ReadCategories(raw);
    MatchMeaning(raw, contact);
  }

  lemma MatchMeaning(raw: RawRead, contact: ContactInput)
    ensures NamesFound(raw) ==> (ReferenceMatches(ClassifyRead(raw), contact) <==> Bears(raw, contact))
    ensures NamesFound(raw) ==>
      forall name: PropertyName | !name.Unrequested? :: Get(ClassifyRead(raw).properties, name) == Quoted(raw, name)
  {
  }

  /** What is made of a read by e-mail: the contact found is the existing one when it has the
      e-mail that was asked for. */
  predicate EmailVerdict(db: Db, id: nat, raw: RawRead, now: Time, outcome: Outcome)
    requires id in db.leads
  {
    var l := db.leads[id];
    && BlockedRead(db, id, raw, now, outcome)
    && (ReadStatus(raw, {404}) ==> GivenUp(db, id, outcome, l.crm, UnclassifiedConflict, now))
    && (NamesFound(raw) && Quoted(raw, EmailProperty) == l.identity.contact.email ==>
         var row := l.crm.(status := ExistingContact, crmRecordId := Some(Strip(raw.payloadId.value)),
                           nextRetryAt := None, nextReconciliationAt := None, errorCategory := None);
         Confirmed(db, id, outcome, row, FoundExisting, now))
    && (NamesFound(raw) && Quoted(raw, EmailProperty) != l.identity.contact.email ==>
         Returned(db, id, outcome, l.crm, CrmDataIntegrity, Config, now))
  }

  /** After a 409 the reference is read, and the e-mail when the reference is not found and the
      lead has one. */
  predicate ConflictVerdict(db: Db, id: nat, byReference: RawRead, byEmail: RawRead, now: Time, outcome: Outcome) {
    if InStatus(db, id, Sending) then
      var contact := db.leads[id].identity.contact;
      && BlockedRead(db, id, byReference, now, outcome) && Collides(db, id, byReference, now, outcome)
      && (ReadStatus(byReference, {404}) && contact.email.None? ==>
           GivenUp(db, id, outcome, db.leads[id].crm, UnclassifiedConflict, now))
      && (ReadStatus(byReference, {404}) && contact.email.Some? ==> EmailVerdict(db, id, byEmail, now, outcome))
    else outcome == Err(NotSending)
  }

  lemma ConflictOutcomes(
      db: Db, id: nat, contact: ContactInput, byReference: RawRead, byEmail: RawRead, now: Time)
    requires id in db.leads ==> contact == db.leads[id].identity.contact
    ensures var decision := ClassifyConflict(contact, ClassifyRead(byReference), ClassifyRead(byEmail));
      ConflictVerdict(db, id, byReference, byEmail, now, DecisionTransaction(db, id, decision, now))
  {
    ReadCategories(byReference);
    MatchMeaning(byReference, contact);
    if ReadStatus(byReference, {404}) && contact.email.Some? && InStatus(db, id, Sending) {
      EmailOutcomes(db, id, byEmail, now);
    }
  }

  lemma EmailOutcomes(db: Db, id: nat, byEmail: RawRead, now: Time)
    requires InStatus(db, id, Sending) && db.leads[id].identity.contact.email.Some?
    ensures var decision := ClassifyConflictByEmail(db.leads[id].identity.contact.email.value, ClassifyRead(byEmail));
      EmailVerdict(db, id, byEmail, now, DecisionTransaction(db, id, decision, now))
  {
    ReadCategories(byEmail);
    MatchMeaning(byEmail, db.leads[id].identity.contact);
    if NamesFound(byEmail) { StripIsIdempotent(byEmail.payloadId.value); }
  }

  /** What a create answered by `raw` comes to, given what the reads after it would find. */
  ghost predicate WrittenAs(
      db: Db, id: nat, raw: RawCreate, byReference: RawRead, byEmail: RawRead, s: Settings, httpDate: DateReader,
      now: Time, outcome: Outcome)
  {
    && (Status(raw, {400}) ==> BadRequestVerdict(db, id, byReference, now, outcome))
    && (Status(raw, {409}) ==> ConflictVerdict(db, id, byReference, byEmail, now, outcome))
    && (!Status(raw, {400, 409}) ==> CreateVerdict(db, id, raw, s, httpDate, now, outcome))
  }

  // ---------- the read of a reconciliation ----------

  /** The contact quotes both properties, and both are the lead's. */
  predicate Confirms(raw: RawRead, contact: ContactInput) {
    && NamesFound(raw)
    && var p := raw.properties.value;
    && ReferenceProperty in p && EmailProperty in p
    && p[ReferenceProperty] == Text(contact.integrationReference)
    && p[EmailProperty] == if contact.email.Some? then Text(contact.email.value) else Null
  }

  /** A read that found no contact: the third one in all gives the lead up, the first two put it
      off, and each forgets the errors before it. */
  predicate Missed(db: Db, id: nat, s: Settings, now: Time, outcome: Outcome)
    requires id in db.leads
  {
    var d := db.leads[id].crm;
    if d.notFound >= 2 then
      var row := d.(status := UnknownEscalated, failureAt := Some(now), notFound := 3, errors := 0,
                    nextRetryAt := None, nextReconciliationAt := None);
      Failing(db, id, outcome, row, UnknownNotFoundExhausted, true, None, UnknownGaveUp, now)
    else
      var delay := if d.notFound == 0 then s.reconcileNotFound2 else s.reconcileNotFound3;
      var row := d.(notFound := d.notFound + 1, errors := 0, nextReconciliationAt := Some(now + delay * 1_000_000));
      Confirmed(db, id, outcome, row, StillUnknown, now)
  }

  /** A read that failed: the third in a row gives the lead up, the first two put it off, at
      HubSpot's own request for longer. */
  ghost predicate ReadFailed(
      db: Db, id: nat, raw: RawRead, s: Settings, httpDate: DateReader, now: Time, outcome: Outcome)
    requires id in db.leads
  {
    var d := db.leads[id].crm;
    var busy := ReadStatus(raw, {423, 429, 477});
    var category := OfRead(if busy then RetryableReadFailure else IndeterminateRead);
    var asked := if busy then Asked(raw.retryAfter, now, httpDate) else Ok(None);
    if d.errors >= 2 then
      var row := d.(status := UnknownEscalated, failureAt := Some(now), errors := 3,
                    nextRetryAt := None, nextReconciliationAt := None);
      Failing(db, id, outcome, row, category, true, None, UnknownGaveUp, now)
    else if asked.Err? then outcome == Err(DateOutOfRange)
    else
      && outcome.Ok? && id in outcome.value.0.leads
      && var due := outcome.value.0.leads[id].crm.nextReconciliationAt;
         var delay := if d.errors == 0 then s.reconcileError1 else s.reconcileError2;
      && DueAsAsked(due, now + delay * 1_000_000, asked.value)
      && Failing(db, id, outcome, d.(errors := d.errors + 1, nextReconciliationAt := due),
                 category, true, None, StillUnknown, now)
  }

  /** What the evidence of a read does to an UNKNOWN lead. It is confirmed exactly by a contact
      that quotes its reference and its e-mail; any other contact stops CRM work and leaves the
      lead as it is, a failure on record. */
  ghost predicate EvidenceVerdict(
      db: Db, id: nat, raw: RawRead, s: Settings, httpDate: DateReader, now: Time, outcome: Outcome)
  {
    if InStatus(db, id, Unknown) then
      FoundVerdict(db, id, raw, now, outcome) && OtherVerdict(db, id, raw, s, httpDate, now, outcome)
    else outcome == Err(NotUnknown)
  }

  predicate FoundVerdict(db: Db, id: nat, raw: RawRead, now: Time, outcome: Outcome)
    requires InStatus(db, id, Unknown)
  {
    var d := db.leads[id].crm;
    && (Confirms(raw, db.leads[id].identity.contact) ==>
         var row := d.(status := Success, crmRecordId := Some(Strip(raw.payloadId.value)), sentAt := Some(now),
                       notFound := 0, errors := 0, nextRetryAt := None, nextReconciliationAt := None,
                       errorCategory := None);
         Confirmed(db, id, outcome, row, Succeeded, now))
    && (NamesFound(raw) && !Confirms(raw, db.leads[id].identity.contact) ==>
         Failing(db, id, outcome, d, CrmDataIntegrity, false, Some(Config), PauseActivated, now))
  }

  ghost predicate OtherVerdict(
      db: Db, id: nat, raw: RawRead, s: Settings, httpDate: DateReader, now: Time, outcome: Outcome)
    requires InStatus(db, id, Unknown)
  {
    var d := db.leads[id].crm;
    && (ReadStatus(raw, {404}) ==> Missed(db, id, s, now, outcome))
    && (ReadStatus(raw, {423, 429, 477}) || ReadSaysNothing(raw) ==>
         ReadFailed(db, id, raw, s, httpDate, now, outcome))
    && (ReadStatus(raw, {401}) ==>
         Failing(db, id, outcome, d, OfRead(ReadAuthFailure), false, Some(Auth), PauseActivated, now))
    && (ReadStatus(raw, {400, 403, 405}) ==>
         Failing(db, id, outcome, d, OfRead(ReadConfigFailure), false, Some(Config), PauseActivated, now))
  }

  lemma EvidenceMeaning(raw: RawRead, contact: ContactInput)
    requires NamesFound(raw)
    ensures EvidenceMatches(contact, ClassifyRead(raw)) <==> Confirms(raw, contact)
  {
    ReadCategories(raw);
    StripIsIdempotent(raw.payloadId.value);
  }

  lemma EvidenceVerdicts(db: Db, id: nat, raw: RawRead, s: Settings, httpDate: DateReader, now: Time)
    ensures EvidenceVerdict(db, id, raw, s, httpDate, now,
                            EvidenceTransaction(db, id, ClassifyRead(raw), s, httpDate, now))
  {
    if InStatus(db, id, Unknown) {
      FoundVerdicts(db, id, raw, s, httpDate, now);
      OtherVerdicts(db, id, raw, s, httpDate, now);
    }
  }

  lemma FoundVerdicts(db: Db, id: nat, raw: RawRead, s: Settings, httpDate: DateReader, now: Time)
    requires InStatus(db, id, Unknown)
    ensures FoundVerdict(db, id, raw, now, EvidenceTransaction(db, id, ClassifyRead(raw), s, httpDate, now))
  {
    ReadCategories(raw);
    if NamesFound(raw) {
      StripIsIdempotent(raw.payloadId.value);
      EvidenceMeaning(raw, db.leads[id].identity.contact);
    }
  }

  lemma OtherVerdicts(db: Db, id: nat, raw: RawRead, s: Settings, httpDate: DateReader, now: Time)
    requires InStatus(db, id, Unknown)
    ensures OtherVerdict(db, id, raw, s, httpDate, now,
                         EvidenceTransaction(db, id, ClassifyRead(raw), s, httpDate, now))
  {
    ReadCategories(raw);
  }
}
