/** What becomes of a delivery and of its payload, said of the columns and of what the libraries
    make of the text. */
module IntakeVerdicts {
  import opened Schema
  import opened Normalization
  import opened Reference
  import opened Selections

  // ---------- storing ----------

  predicate StoredAs(db: Db, e: nat, source: string, eventId: string) {
    e in db.events && db.events[e].source == source && db.events[e].eventId == eventId
  }

  predicate Storable(source: string, eventId: string) {
    (source == "website" || source == "linkedin" || source == "partner") && 1 <= |eventId| <= 128
  }

  /** A delivery that the table admits is stored once: as a RECEIVED row with its payload, unless
      there is a row with its key. An id is used up in every case. */
  ghost predicate PersistVerdict(
      db: Db, source: string, eventId: string, payload: RawPayload, now: Time, db': Db, outcome: Persisted)
  {
    var known := exists e :: StoredAs(db, e, source, eventId);
    && (outcome == Inserted <==> Storable(source, eventId) && !known)
    && (outcome == Duplicate <==> Storable(source, eventId) && known)
    && (outcome == Violation <==> !Storable(source, eventId))
    && db' == db.(events := db'.events, nextEventId := db.nextEventId + 1)
    && (outcome != Inserted ==> db'.events == db.events)
    && (outcome == Inserted ==>
         var row := Event(source, eventId, payload, Received, now, None, None, None, None, None);
         db'.events == db.events[db.nextEventId := row])
  }

  lemma PersistVerdicts(
      db: Db, source: string, eventId: string, payload: RawPayload, now: Time, db': Db, outcome: Persisted)
    requires PersistTransaction(db, source, eventId, payload, now, db', outcome)
    ensures PersistVerdict(db, source, eventId, payload, now, db', outcome)
  {
    if e: nat :| e in db.events && db.events[e].source == source && db.events[e].eventId == eventId {
      assert StoredAs(db, e, source, eventId);
    }
  }

  // ---------- the payload ----------

  function EmailOf(p: Submission, lib: Library): Option<string> {
    if p.email.Some? && |p.email.value| <= 254 then lib.email(p.email.value) else None
  }

  function PhoneOf(p: Submission): Option<string> {
    if p.phone.Some? && ValidPhone(p.phone.value) then p.phone else None
  }

  /** Contacts were offered, and none is good. */
  predicate NoContactLeft(p: Submission, lib: Library) {
    (p.email.Some? || p.phone.Some?) && EmailOf(p, lib).None? && PhoneOf(p).None?
  }

  predicate UpTo(field: Option<string>, max: nat) { field.None? || |field.value| <= max }

  /** The lengths that a normalized lead may have. */
  predicate LengthsFit(p: Submission, lib: Library) {
    && 1 <= |p.eventId| <= 128 && 1 <= |p.firstName| <= 100 && 1 <= |p.lastName| <= 100
    && UpTo(EmailOf(p, lib), 254) && UpTo(p.company, 200) && UpTo(p.jobTitle, 150)
    && UpTo(p.country, 100) && UpTo(p.city, 100) && UpTo(p.campaign, 200)
  }

  predicate Representable(at: Zoned) { MIN_INSTANT <= at.local - at.offset <= MAX_INSTANT }

  /** The payload is dated `at` and its other fields are accepted as `p`. */
  predicate ReadAs(source: string, payload: RawPayload, lib: Library, at: Zoned, p: Submission) {
    && source in SOURCES && lib.parse(source, payload) == Dated(at, Some(p)) && Representable(at)
  }

  /** How normalization ends, by what the provider model makes of the payload. */
  predicate PayloadVerdict(source: string, eventId: string, payload: RawPayload, lib: Library, verdict: Verdict) {
    if source !in SOURCES then verdict == Rejected(ProviderValidation)
    else
      match lib.parse(source, payload)
      case Refusal => verdict == Rejected(ProviderValidation)
      case Escape => verdict == Raised
      case Dated(at, submission) =>
        && (!Representable(at) ==> verdict == Raised)
        && (Representable(at) && submission.None? ==> verdict == Rejected(ProviderValidation))
        && (Representable(at) && submission.Some? ==>
             SubmissionVerdict(submission.value, source, eventId, at, lib, verdict))
  }

  /** A lead is refused for its contacts exactly when some were offered and none is good. */
  predicate SubmissionVerdict(
      p: Submission, source: string, eventId: string, at: Zoned, lib: Library, verdict: Verdict)
  {
    && (verdict == Rejected(ContactValidation) <==> NoContactLeft(p, lib))
    && (verdict == Raised <==> !NoContactLeft(p, lib) && !LengthsFit(p, lib))
    && (verdict == Rejected(ProviderValidation) <==>
         !NoContactLeft(p, lib) && LengthsFit(p, lib) && p.eventId != eventId)
    && (verdict.Accepted? ==>
         verdict.data == LeadData(source, p.(submittedAt := at.local - at.offset, email := EmailOf(p, lib),
                                             phone := PhoneOf(p))))
  }

  lemma PayloadVerdicts(source: string, eventId: string, payload: RawPayload, lib: Library)
    ensures PayloadVerdict(source, eventId, payload, lib, NormalizePayload(source, eventId, payload, lib))
  {
  }

  // ---------- the lead ----------

  function LeadSourceFor(source: string): string
    requires source in SOURCES
  {
    match source
    case "website" => "website_form"
    case "linkedin" => "linkedin_like"
    case _ => "partner"
  }

  /** The columns of the lead that is made of an event, field by field. */
  predicate MadeOf(i: Identity, id: nat, event: nat, source: string, at: Zoned, p: Submission, lib: Library)
    requires source in SOURCES
  {
    && i.webhookEventId == event && i.source == source && i.sourceEventId == p.eventId
    && i.submittedAt == at.local - at.offset && i.campaign == p.campaign && i.metadata == p.metadata
    && i.leadSource == LeadSourceFor(source)
    && i.contact.firstName == p.firstName && i.contact.lastName == p.lastName
    && i.contact.email == EmailOf(p, lib) && i.contact.phone == PhoneOf(p)
    && i.contact.company == p.company && i.contact.jobTitle == p.jobTitle
    && i.contact.city == p.city && i.contact.country == p.country
    && i.contact.integrationReference == ReferenceFor(id)
  }

  lemma IdentityMeaning(event: nat, stored: StoredEvent, lib: Library, id: nat, now: Time)
    requires NormalizePayload(stored.source, stored.eventId, stored.payload, lib).Accepted?
    ensures var data := NormalizePayload(stored.source, stored.eventId, stored.payload, lib).data;
      exists at, p ::
        && ReadAs(stored.source, stored.payload, lib, at, p) && p.eventId == stored.eventId && !NoContactLeft(p, lib)
        && MadeOf(NewIdentity(event, data, id, now), id, event, stored.source, at, p, lib)
  {
    PayloadVerdicts(stored.source, stored.eventId, stored.payload, lib);
    var parsed := lib.parse(stored.source, stored.payload);
    assert ReadAs(stored.source, stored.payload, lib, parsed.submittedAt, parsed.submission.value);
  }

  // ---------- the transaction ----------

  /** The event is the one that was claimed, it is still in PROCESSING and has no lead. */
  ghost predicate InOrder(db: Db, stored: StoredEvent) {
    && StoredAs(db, stored.id, stored.source, stored.eventId) && db.events[stored.id].status == Processing
    && !exists id :: id in db.leads && db.leads[id].identity.webhookEventId == stored.id
  }

  /** The next lead id is in range and nothing stands in its way. */
  ghost predicate IdIsFree(db: Db) {
    && db.nextLeadId <= MAX_BIGINT && db.nextLeadId !in db.leads
    && !exists j :: j in db.leads && db.leads[j].identity.contact.integrationReference == ReferenceFor(db.nextLeadId)
  }

  /** How normalizing an event that is in order ends: with its lead PENDING and the event
      NORMALIZED, with the fault on record, or with an exception that leaves no trace. */
  ghost predicate NormalizeVerdict(
      db: Db, stored: StoredEvent, lib: Library, now: Time, db': Db,
      result: Result<NormalizationOutcome, NormalizationError>)
    requires stored.id in db.events
  {
    var event := db.events[stored.id];
    var verdict := NormalizePayload(stored.source, stored.eventId, stored.payload, lib);
    && (verdict.Raised? ==> result == Err(PayloadRaised) && db' == db)
    && (verdict.Rejected? ==>
         && result == Ok(NewFailure(verdict.fault))
         && var event' := event.(status := NormalizationFailed, completedAt := Some(now), fault := Some(verdict.fault));
            db' == db.(events := db.events[stored.id := event']))
    && (verdict.Accepted? && IdIsFree(db) ==>
         && result == Ok(NewLead(db.nextLeadId)) && db.nextLeadId in db'.leads
         && FreshLead(db'.leads[db.nextLeadId], db.nextLeadId, stored, lib, now)
         && var event' :=
              event.(status := Normalized, normalizedAt := Some(now), completedAt := Some(now), fault := None);
            db' == db.(events := db.events[stored.id := event'], nextLeadId := db.nextLeadId + 1,
                       leads := db.leads[db.nextLeadId := db'.leads[db.nextLeadId]]))
    && (verdict.Accepted? && !IdIsFree(db) ==>
         result.Err? && db' == db.(nextLeadId := db'.nextLeadId))
  }

  /** A new lead: PENDING, nothing attempted, nothing notified, and made of its payload. */
  ghost predicate FreshLead(l: Lead, id: nat, stored: StoredEvent, lib: Library, now: Time) {
    && l.crm == Delivery(Pending, 0, 0, None, None, None, None, 0, 0, None, None, None, None, None, None)
    && l.notice == Notice(None, None, None) && l.identity.createdAt == now
    && exists at, p ::
         && ReadAs(stored.source, stored.payload, lib, at, p)
         && MadeOf(l.identity, id, stored.id, stored.source, at, p, lib)
  }

  lemma NormalizeVerdicts(
      db: Db, stored: StoredEvent, lib: Library, now: Time, db': Db,
      result: Result<NormalizationOutcome, NormalizationError>)
    requires NormalizeTransaction(db, stored, lib, now, db', result) && InOrder(db, stored)
    ensures NormalizeVerdict(db, stored, lib, now, db', result)
  {
    LeadMeaning(db.leads, stored.id);
    if NormalizePayload(stored.source, stored.eventId, stored.payload, lib).Accepted? {
      IdentityMeaning(stored.id, stored, lib, db.nextLeadId, now);
    }
  }

  /** Out of order nothing is inserted: the event keeps its ending, or is repaired when its lead
      was there before it. */
  lemma OutOfOrder(
      db: Db, stored: StoredEvent, lib: Library, now: Time, db': Db,
      result: Result<NormalizationOutcome, NormalizationError>)
    requires NormalizeTransaction(db, stored, lib, now, db', result) && !InOrder(db, stored)
    ensures db'.leads == db.leads && db'.nextLeadId == db.nextLeadId
    ensures db' == db || (stored.id in db.events && result.Ok? && result.value.AlreadyNormalized?
                          && db' == db.(events := db.events[stored.id := MarkNormalized(db.events[stored.id], now)]))
  {
    LeadMeaning(db.leads, stored.id);
  }
}
