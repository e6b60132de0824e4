/** Intake and normalization: the deterministic adapters, and the transactions that carry a
    webhook event from insertion to its normalized lead. */
module Normalization {
  import opened Schema
  import opened Queries
  import opened Reference
  import HubSpot

  // ---------- contact fields ----------

  predicate PhoneCharacter(c: char) { IsDigit(c) || c in " -()" || c == '+' }

  function CountDigits(s: string): nat {
    if s == [] then 0 else CountDigits(s[..|s| - 1]) + if IsDigit(s[|s| - 1]) then 1 else 0
  }

  /** A phone keeps its presentation; a plus sign may only lead; 7 to 15 digits. */
  predicate ValidPhone(s: string) {
    && |s| <= 64
    && (forall k | 0 <= k < |s| :: PhoneCharacter(s[k]))
    && (forall k | 0 <= k < |s| :: s[k] == '+' ==> k == 0)
    && 7 <= CountDigits(s) <= 15
  }

  /** `value.count("+")` */
  function CountPlus(s: string): nat {
    if s == [] then 0 else CountPlus(s[..|s| - 1]) + if s[|s| - 1] == '+' then 1 else 0
  }

  lemma {:induction false} PlusSigns(s: string)
    ensures (CountPlus(s) == 0) <==> ('+' !in s)
    ensures (CountPlus(s) > 1 || ('+' in s && s[0] != '+')) <==>
            (exists k :: 1 <= k < |s| && s[k] == '+')
  {
    if s != [] {
      var t := s[..|s| - 1];
      PlusSigns(t);
      assert s == t + [s[|s| - 1]];
      if exists k :: 1 <= k < |t| && t[k] == '+' {
        var k :| 1 <= k < |t| && t[k] == '+';
        assert s[k] == '+';
      }
      if t != [] && t[0] == '+' { assert CountPlus(t) >= 1; }
    }
  }

  /** `_normalize_phone`: the value itself when it is acceptable, else the error flag. */
  method NormalizePhone(value: Option<string>) returns (phone: Option<string>, invalid: bool)
    ensures invalid <==> value.Some? && !ValidPhone(value.value)
    ensures phone == if invalid then None else value
  {
    if value.None? { return None, false; }
    var s := value.value;
    if |s| > 64 { return None, true; }
    PlusSigns(s);
    if CountPlus(s) > 1 || ('+' in s && s[0] != '+') {
      var k :| 1 <= k < |s| && s[k] == '+';
      return None, true;
    }
    assert forall k | 0 <= k < |s| :: s[k] == '+' ==> k == 0;
    var digits := 0;
    for i := 0 to |s|
      invariant digits == CountDigits(s[..i])
      invariant forall k | 0 <= k < i :: PhoneCharacter(s[k])
    {
      assert s[..i + 1][..i] == s[..i];
      if IsDigit(s[i]) {
        digits := digits + 1;
      } else if s[i] == '+' && i == 0 {
      } else if s[i] !in " -()" {
        assert !PhoneCharacter(s[i]);
        return None, true;
      }
    }
    assert s[..|s|] == s;
    if !(7 <= digits <= 15) { return None, true; }
    return value, false;
  }

  function NormalizedEmail(value: Option<string>, lib: Library): Option<string> {
    if value.None? || |value.value| > 254 then None else lib.email(value.value)
  }

  function NormalizedPhone(value: Option<string>): Option<string> {
    if value.Some? && ValidPhone(value.value) then value else None
  }

  /** A lead is refused for its contacts only when no contact survives and at least one was
      offered: one good contact makes up for a bad one, and none offered is acceptable. */
  predicate ContactsAcceptable(email: Option<string>, phone: Option<string>, lib: Library) {
    || NormalizedEmail(email, lib).Some?
    || NormalizedPhone(phone).Some?
    || (email.None? && phone.None?)
  }

  // ---------- adapters ----------

  /** The provider-neutral data of one event: the submission with its contacts normalized. */
  datatype LeadData = LeadData(source: string, submission: Submission)

  /** `Raised` is an exception that no handler catches: the timestamp cannot be converted to UTC,
      the provider model lets something escape, or `NormalizedLeadData` raises. */
  datatype Verdict = Accepted(data: LeadData) | Rejected(fault: NormalizationFault) | Raised

  predicate TextLength(field: string, max: nat) { 1 <= |field| <= max }

  /** The validators of `NormalizedLeadData`: lengths only. */
  predicate ValidLeadData(p: Submission) {
    && TextLength(p.eventId, 128) && TextLength(p.firstName, 100) && TextLength(p.lastName, 100)
    && HubSpot.AtMost(p.email, 254) && HubSpot.AtMost(p.phone, 64) && HubSpot.AtMost(p.company, 200)
    && HubSpot.AtMost(p.jobTitle, 150) && HubSpot.AtMost(p.country, 100) && HubSpot.AtMost(p.city, 100)
    && HubSpot.AtMost(p.campaign, 200)
  }

  function WithNormalizedContacts(p: Submission, lib: Library): Submission {
    p.(email := NormalizedEmail(p.email, lib), phone := NormalizedPhone(p.phone))
  }

  /** `normalize_payload`: each source has its own model and adapter, and every adapter stamps
      its own source and takes the source event id from the payload. */
  function NormalizePayload(source: string, eventId: string, payload: RawPayload, lib: Library): Verdict {
    if source !in SOURCES then Rejected(ProviderValidation)
    else
      match lib.parse(source, payload)
      case Refusal => Rejected(ProviderValidation)
      case Escape => Raised
      case Dated(submittedAt, submission) =>
        if ConversionRaises(submittedAt) then Raised
        else if submission.None? then Rejected(ProviderValidation)
        else
          var p := submission.value.(submittedAt := Utc(submittedAt));
          if !ContactsAcceptable(p.email, p.phone, lib) then Rejected(ContactValidation)
          else if !ValidLeadData(WithNormalizedContacts(p, lib)) then Raised
          else if p.eventId != eventId then Rejected(ProviderValidation)
          else Accepted(LeadData(source, WithNormalizedContacts(p, lib)))
  }

  function ContactOf(s: Submission, reference: string): ContactInput {
    ContactInput(s.firstName, s.lastName, reference, s.email, s.phone, s.company, s.jobTitle, s.city, s.country)
  }

  /** The one demand of the CRM boundary that normalization does not make: `str.strip` leaves
      something of both names. */
  predicate NamesVisible(firstName: string, lastName: string) {
    HubSpot.Strip(firstName) != [] && HubSpot.Strip(lastName) != []
  }

  /** A lead that normalization produces passes the validators of the CRM boundary if and only
      if neither of its names is blank. */
  lemma NormalizedContactIsValidIff(
      source: string, eventId: string, payload: RawPayload, lib: Library, id: nat)
    requires id <= MAX_BIGINT && NormalizePayload(source, eventId, payload, lib).Accepted?
    ensures var p := NormalizePayload(source, eventId, payload, lib).data.submission;
      HubSpot.ValidContact(ContactOf(p, ReferenceFor(id))) <==> NamesVisible(p.firstName, p.lastName)
  {
    ReferenceFitsItsColumn(id);
    ReferenceIsNotBlank(id);
  }

  /** U+001C is white space to `str.strip` and not to the provider models, which trim the
      characters with the Unicode property White_Space. */
  const BLANK_NAME: string := "\U{1c}"

  /** A submission whose first name is that one character is accepted whenever the same
      submission with a proper name is, and its lead is refused at the CRM boundary. */
  lemma BlankNameIsAccepted(
      source: string, eventId: string, payload: RawPayload, at: Zoned, p: Submission, lib: Library, id: nat)
    requires source in SOURCES && lib.parse(source, payload) == Dated(at, Some(p.(firstName := BLANK_NAME)))
    requires !ConversionRaises(at) && p.eventId == eventId && ContactsAcceptable(p.email, p.phone, lib)
    requires ValidLeadData(WithNormalizedContacts(p, lib))
    ensures var verdict := NormalizePayload(source, eventId, payload, lib);
      && verdict.Accepted?
      && !HubSpot.ValidContact(ContactOf(verdict.data.submission, ReferenceFor(id)))
  {
    assert HubSpot.StripLeft(BLANK_NAME) == HubSpot.StripLeft(BLANK_NAME[1..]);
    assert HubSpot.Strip(BLANK_NAME) == [];
  }

  /** 0001-01-01T00:00:00+01:00: one hour before the first representable instant. */
  const BEFORE_TIME: Zoned := Zoned(MIN_INSTANT, Seconds(3600))

  /** Such a timestamp passes every check on its text and its zone, and then escapes, whatever
      the rest of the payload is. */
  lemma BeforeTimeRaises(
      source: string, eventId: string, payload: RawPayload, submission: Option<Submission>, lib: Library)
    requires source in SOURCES && lib.parse(source, payload) == Dated(BEFORE_TIME, submission)
    ensures NormalizePayload(source, eventId, payload, lib) == Raised
  {
  }

  lemma ReferenceIsNotBlank(id: nat)
    ensures |ReferenceFor(id)| >= 1 && HubSpot.Strip(ReferenceFor(id)) != []
  {
    ReferenceRoundTrip(id);
    var r := ReferenceFor(id);
    assert r[|r| - 1] == r[3..][|r| - 4];
    assert HubSpot.StripLeft(r) == r;
    assert HubSpot.StripRight(r) == r;
  }

  // ---------- transactions ----------

  ghost predicate HasEvent(db: Db, source: string, eventId: string) {
    exists e :: e in db.events && db.events[e].source == source && db.events[e].eventId == eventId
  }

  function NewEvent(source: string, eventId: string, payload: RawPayload, now: Time): Event {
    Event(source, eventId, payload, Received, now, None, None, None, None, None)
  }

  datatype Persisted = Inserted | Duplicate | Violation

  function PersistOutcome(allowed: bool, stored: bool): Persisted {
    if !allowed then Violation else if stored then Duplicate else Inserted
  }

  /** `persist_webhook_event`. A value that fails a CHECK raises and aborts the insert; a
      duplicate key inserts nothing. The id sequence is not transactional: it advances in every
      case. */
  ghost predicate PersistTransaction(
      db: Db, source: string, eventId: string, payload: RawPayload, now: Time, db': Db, outcome: Persisted)
  {
    && outcome == PersistOutcome(EventChecks(source, eventId), HasEvent(db, source, eventId))
    && db' == db.(nextEventId := db.nextEventId + 1,
                  events := if outcome.Inserted?
                            then db.events[db.nextEventId := NewEvent(source, eventId, payload, now)]
                            else db.events)
  }

  /** The event as the claiming transaction read it; it lives in the worker's memory. */
  datatype StoredEvent = StoredEvent(id: nat, source: string, eventId: string, payload: RawPayload)

  function ReceivedKeys(db: Db): Keys {
    map e | e in db.events && db.events[e].status == Received :: Some(db.events[e].receivedAt)
  }

  function StoredFrom(db: Db, e: nat): StoredEvent
    requires e in db.events
  {
    StoredEvent(e, db.events[e].source, db.events[e].eventId, db.events[e].payload)
  }

  /** `claim_one_received`. */
  ghost predicate ClaimEventTransaction(db: Db, now: Time, db': Db, claimed: Option<StoredEvent>) {
    match claimed
    case None => db' == db && ReceivedKeys(db) == map[]
    case Some(stored) =>
      && IsLeast(ReceivedKeys(db), stored.id) && stored == StoredFrom(db, stored.id)
      && db' == db.(events := db.events[stored.id :=
           db.events[stored.id].(status := Processing, processingStartedAt := Some(now), completedAt := None)])
  }

  function StaleKeys(db: Db, lease: int, now: Time): Keys {
    map e | && e in db.events && db.events[e].status == Processing
            && db.events[e].processingStartedAt.Some?
            && db.events[e].processingStartedAt.value < now - Seconds(lease)
      :: db.events[e].processingStartedAt
  }

  ghost predicate IsLeadOf(leads: Leads, id: nat, event: nat) {
    id in leads && leads[id].identity.webhookEventId == event
  }

  ghost predicate HasLead(leads: Leads, event: nat) { exists id :: IsLeadOf(leads, id, event) }

  function MarkNormalized(e: Event, now: Time): Event {
    e.(status := Normalized, normalizedAt := Some(now), completedAt := Some(now), fault := None)
  }

  datatype Recovery = NoRecovery | ResetToReceived(event: nat) | RepairedNormalized(event: nat)

  /** `recover_one_stale_processing`. */
  ghost predicate RecoverEventTransaction(db: Db, lease: int, now: Time, db': Db, recovery: Recovery) {
    match recovery
    case NoRecovery => db' == db && StaleKeys(db, lease, now) == map[]
    case ResetToReceived(e) =>
      && IsLeast(StaleKeys(db, lease, now), e) && !HasLead(db.leads, e)
      && db' == db.(events := db.events[e :=
           db.events[e].(status := Received, processingStartedAt := None, completedAt := None)])
    case RepairedNormalized(e) =>
      && IsLeast(StaleKeys(db, lease, now), e) && HasLead(db.leads, e)
      && db' == db.(events := db.events[e := MarkNormalized(db.events[e], now)])
  }

  datatype NormalizationOutcome =
    | AlreadyNormalized(lead: nat, repaired: bool) | AlreadyFailed
    | NewLead(lead: nat) | NewFailure(fault: NormalizationFault)

  datatype NormalizationError =
    | PayloadRaised | EventMissing | EventIdentityChanged | StatusConflict | NotProcessing
    | SequenceExhausted | UniqueViolation

  function LeadSourceOf(source: string): string {
    if source == "website" then "website_form" else if source == "linkedin" then "linkedin_like" else "partner"
  }

  function NewIdentity(event: nat, data: LeadData, id: nat, now: Time): Identity {
    var p := data.submission;
    Identity(event, data.source, p.eventId, p.submittedAt, ContactOf(p, ReferenceFor(id)),
             p.campaign, LeadSourceOf(data.source), p.metadata, now)
  }

  function NewLeadRow(event: nat, data: LeadData, id: nat, now: Time): Lead {
    Lead(NewIdentity(event, data, id, now), NEW_DELIVERY, NEW_NOTICE)
  }

  /** The new row would break the primary key or the unique reference. */
  ghost predicate Clashes(db: Db, id: nat) {
    || id in db.leads
    || exists other :: other in db.leads
        && db.leads[other].identity.contact.integrationReference == ReferenceFor(id)
  }

  function InsertLead(db: Db, stored: StoredEvent, data: LeadData, now: Time): Db
    requires stored.id in db.events
  {
    db.(leads := db.leads[db.nextLeadId := NewLeadRow(stored.id, data, db.nextLeadId, now)],
        events := db.events[stored.id := MarkNormalized(db.events[stored.id], now)],
        nextLeadId := db.nextLeadId + 1)
  }

  function MarkFailed(db: Db, e: nat, fault: NormalizationFault, now: Time): Db
    requires e in db.events
  {
    db.(events := db.events[e :=
      db.events[e].(status := NormalizationFailed, completedAt := Some(now), fault := Some(fault))])
  }

  /** `normalize_webhook_event`. The payload is normalized before the transaction begins; an
      error in the transaction rolls everything but the lead sequence back. */
  ghost predicate NormalizeTransaction(
      db: Db, stored: StoredEvent, lib: Library, now: Time,
      db': Db, result: Result<NormalizationOutcome, NormalizationError>)
  {
    var verdict := NormalizePayload(stored.source, stored.eventId, stored.payload, lib);
    if verdict.Raised? then
      result == Err(PayloadRaised) && db' == db
    else if stored.id !in db.events then
      result == Err(EventMissing) && db' == db
    else
      var event := db.events[stored.id];
      if event.source != stored.source || event.eventId != stored.eventId then
        result == Err(EventIdentityChanged) && db' == db
      else if HasLead(db.leads, stored.id) then
        if event.status == Processing then
          && result.Ok? && result.value.AlreadyNormalized? && result.value.repaired
          && IsLeadOf(db.leads, result.value.lead, stored.id)
          && db' == db.(events := db.events[stored.id := MarkNormalized(event, now)])
        else if event.status == Normalized then
          && result.Ok? && result.value.AlreadyNormalized? && !result.value.repaired
          && IsLeadOf(db.leads, result.value.lead, stored.id)
          && db' == db
        else result == Err(StatusConflict) && db' == db
      else if event.status == NormalizationFailed then
        result == Ok(AlreadyFailed) && db' == db
      else if event.status != Processing then
        result == Err(NotProcessing) && db' == db
      else if verdict.Rejected? then
        result == Ok(NewFailure(verdict.fault)) && db' == MarkFailed(db, stored.id, verdict.fault, now)
      else if db.nextLeadId > MAX_BIGINT then
        result == Err(SequenceExhausted) && db' == db
      else if Clashes(db, db.nextLeadId) then
        result == Err(UniqueViolation) && db' == db.(nextLeadId := db.nextLeadId + 1)
      else
        result == Ok(NewLead(db.nextLeadId)) && db' == InsertLead(db, stored, verdict.data, now)
  }
}
