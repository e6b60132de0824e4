/** Where the protocol fails or gets stuck: behind a lead with a blank name, and on a date that
    cannot be converted. */
module DeadEnds {
  import opened Schema
  import opened Queries
  import opened HubSpot
  import opened CrmDelivery
  import opened Normalization
  import opened System
  import opened DeliverySafety
  import opened DeliveryProgress
  import opened ClaimQueue
  import opened EndToEnd
  import opened Scenarios

  // ---------- which leads pass the CRM boundary ----------

  predicate Named(c: ContactInput) { NamesVisible(c.firstName, c.lastName) }

  ghost predicate AllNamed(leads: Leads) { forall id | id in leads :: Named(leads[id].identity.contact) }

  predicate ValidIffNamed(c: ContactInput) { ValidContact(c) <==> Named(c) }

  ghost predicate ContactsOk(leads: Leads) { forall id | id in leads :: ValidIffNamed(leads[id].identity.contact) }

  lemma MovedContacts(w: World, id: nat, w': World)
    requires ContactsOk(w.db.leads) && (Still(w, w') || Moved(w, id, w'))
    ensures ContactsOk(w'.db.leads)
  {
    forall j | j in w'.db.leads ensures ValidIffNamed(w'.db.leads[j].identity.contact) {
      assert w'.db.leads[j].identity == w.db.leads[j].identity;
    }
  }

  lemma IntakeContacts(site: Site, w: World, step: IntakeStep, w': World)
    requires ContactsOk(w.db.leads) && IntakeNext(site, w, step, w')
    ensures ContactsOk(w'.db.leads)
  {
    IntakeLeads(site, w, step, w');
    if w'.db.leads != w.db.leads { InsertedContact(site, w, step, w'); }
  }

  lemma InsertedContact(site: Site, w: World, step: IntakeStep, w': World)
    requires ContactsOk(w.db.leads) && IntakeNext(site, w, step, w')
    requires step.Normalize? && step.result == Ok(NewLead(w.db.nextLeadId))
    ensures ContactsOk(w'.db.leads)
  {
    var stored, id := w.normalizers[step.k], w.db.nextLeadId;
    var data := NormalizePayload(stored.source, stored.eventId, stored.payload, site.lib).data;
    assert w'.db == InsertLead(w.db, stored, data, w.clock);
    NormalizedContactIsValidIff(stored.source, stored.eventId, stored.payload, site.lib, id);
    NewContact(w.db.leads, id, w'.db.leads[id]);
  }

  lemma NewContact(leads: Leads, id: nat, row: Lead)
    requires ContactsOk(leads) && ValidIffNamed(row.identity.contact)
    ensures ContactsOk(leads[id := row])
  {
  }

  lemma SameContacts(leads: Leads, leads': Leads)
    requires ContactsOk(leads) && SameDelivery(leads, leads')
    ensures ContactsOk(leads')
  {
    forall j | j in leads' ensures ValidIffNamed(leads'[j].identity.contact) {
      assert leads'[j].identity == leads[j].identity;
    }
  }

  lemma StepContacts(site: Site, w: World, step: Step, w': World)
    requires Safe(w) && ContactsOk(w.db.leads) && Next(site, w, step, w')
    ensures ContactsOk(w'.db.leads)
  {
    match step
    case Crm(c) =>
      CrmMoves(site, w, c, w');
      MovedContacts(w, Mover(w, c), w');
    case Intake(i) => IntakeContacts(site, w, i, w');
    case Notify(n) =>
      NotifyLeads(site, w, n, w');
      SameContacts(w.db.leads, w'.db.leads);
    case Outside(o) => OutsideLeads(w, o, w');
  }

  // ---------- exactly when a step fails ----------

  /** The gate is open and the lead to be claimed has a blank name. */
  ghost predicate BlankHead(w: World) {
    && !w.db.pause.paused && SendingKeys(w.db.leads) == map[] && DueUnknownKeys(w.db.leads, w.now) == map[]
    && exists id :: IsLeast(ClaimableKeys(w.db.leads, w.now), id) && !Named(w.db.leads[id].identity.contact)
  }

  lemma ClaimFaults(site: Site, w: World, gate: Gate, result: Result<Claim, DeliveryError>, w': World)
    requires CrmNext(site, w, TryClaim(gate, result), w') && ContactsOk(w.db.leads)
    ensures w'.crm.faults > w.crm.faults <==> BlankHead(w)
    ensures BlankHead(w) ==> result == Err(InvalidContact) && w'.db == w.db
    ensures w'.crm.faults == w.crm.faults || w'.crm.faults == w.crm.faults + 1
  {
    if BlankHead(w) {
      var id :| IsLeast(ClaimableKeys(w.db.leads, w.now), id) && !Named(w.db.leads[id].identity.contact);
      assert ValidIffNamed(w.db.leads[id].identity.contact);
      if result.Ok? && result.value.Claimed? { LeastIsUnique(ClaimableKeys(w.db.leads, w.now), id, result.value.lead); }
    }
  }

  /** The result in hand asks to be retried after a date that UTC cannot represent, and its lead
      has a retry left to be scheduled. */
  ghost predicate DateRaises(site: Site, w: World, step: CrmStep) {
    match w.phase
    case HoldingCreate(id, result) =>
      && step == CommitCreate && id in w.db.leads && w.db.leads[id].crm.retries < 3
      && (result.category == RetryableFailure || result.category == RateLimited)
      && RetryAfterTime(result.retryAfter, w.now, site.lib.httpDate).Err?
    case HoldingEvidence(id, read) =>
      && step == CommitEvidence && id in w.db.leads && w.db.leads[id].crm.errors < 2
      && read.category == RetryableReadFailure
      && RetryAfterTime(read.retryAfter, w.now, site.lib.httpDate).Err?
    case _ => false
  }

  /** A usable result can only fail to be written for its date. */
  lemma CreateFailsIff(d: Delivery, result: CreateResult, s: Settings, httpDate: DateReader, now: Time)
    requires UsableResult(result) && 0 <= d.retries <= 3
    ensures ApplyCreate(d, result, s, httpDate, now).Err? <==>
      && d.retries < 3 && (result.category == RetryableFailure || result.category == RateLimited)
      && RetryAfterTime(result.retryAfter, now, httpDate).Err?
  {
  }

  lemma CreateFaults(site: Site, w: World, w': World)
    requires PhaseOk(w.phase, w.db.leads, w.db.pause.paused, w.now, w.hub.calls)
    requires RowsOk(w.db.leads, w.crm) && CrmNext(site, w, CommitCreate, w')
    ensures w'.crm.faults == w.crm.faults + if DateRaises(site, w, CommitCreate) then 1 else 0
    ensures DateRaises(site, w, CommitCreate) ==> w'.db == w.db
  {
    var d := w.db.leads[w.phase.lead].crm;
    assert RowOk(d, LedgerOf(w.crm, w.phase.lead));
    CreateFailsIff(d, w.phase.result, site.settings, site.lib.httpDate, w.now);
  }

  lemma DecisionFaults(site: Site, w: World, w': World)
    requires PhaseOk(w.phase, w.db.leads, w.db.pause.paused, w.now, w.hub.calls)
    requires CrmNext(site, w, CommitDecision, w')
    ensures w'.crm.faults == w.crm.faults
  {
  }

  lemma EvidenceFaults(site: Site, w: World, w': World)
    requires PhaseOk(w.phase, w.db.leads, w.db.pause.paused, w.now, w.hub.calls)
    requires CrmNext(site, w, CommitEvidence, w')
    ensures w'.crm.faults == w.crm.faults + if DateRaises(site, w, CommitEvidence) then 1 else 0
    ensures DateRaises(site, w, CommitEvidence) ==> w'.db == w.db
  {
  }

  predicate TriesClaim(step: Step) { step.Crm? && step.c.TryClaim? }

  /** Exactly the steps that fail. */
  ghost predicate Fails(site: Site, w: World, step: Step) {
    (TriesClaim(step) && BlankHead(w)) || (step.Crm? && DateRaises(site, w, step.c))
  }

  lemma CrmFaults(site: Site, w: World, step: CrmStep, w': World)
    requires Safe(w) && ContactsOk(w.db.leads) && CrmNext(site, w, step, w')
    ensures w'.crm.faults == w.crm.faults + if Fails(site, w, Crm(step)) then 1 else 0
  {
    match step
    case TryClaim(gate, result) => ClaimFaults(site, w, gate, result, w');
    case CommitCreate => CreateFaults(site, w, w');
    case CommitDecision => DecisionFaults(site, w, w');
    case CommitEvidence => EvidenceFaults(site, w, w');
    case _ =>
  }

  lemma StepFaults(site: Site, w: World, step: Step, w': World)
    requires Safe(w) && ContactsOk(w.db.leads) && Next(site, w, step, w')
    ensures w'.crm.faults == w.crm.faults + if Fails(site, w, step) then 1 else 0
  {
    match step
    case Crm(c) => CrmFaults(site, w, c, w');
    case Intake(i) => IntakeLeads(site, w, i, w');
    case Notify(n) => NotifyLeads(site, w, n, w');
    case Outside(o) => OutsideFaults(w, o, w');
  }

  lemma OutsideFaults(w: World, step: OutsideStep, w': World)
    requires OutsideNext(w, step, w')
    ensures w'.crm.faults == w.crm.faults
  {
  }

  lemma {:induction false} RunContacts(site: Site, r: Run)
    requires Valid(site, r)
    ensures Safe(r.w) && ContactsOk(r.w.db.leads)
  {
    RunsAreSafe(site, r);
    if r.Then? {
      LastStep(site, r);
      RunContacts(site, r.before);
      StepContacts(site, r.before.w, r.step, r.w);
    }
  }

  /** A delivery transaction of a run fails if and only if it is a claim behind an open gate whose
      lead has a blank name, or writes a result whose `Retry-After` date UTC cannot represent. No
      consistency error is ever raised, and a failed transaction changes nothing. */
  lemma TransactionsFailIff(site: Site, r: Run)
    requires Valid(site, r) && r.Then?
    ensures r.w.crm.faults == r.before.w.crm.faults + if Fails(site, r.before.w, r.step) then 1 else 0
  {
    LastStep(site, r);
    RunContacts(site, r.before);
    StepFaults(site, r.before.w, r.step, r.w);
  }

  // ---------- no other dead ends ----------

  /** The stored payloads that normalization accepts all give two names that are not blank. */
  ghost predicate PayloadsNamed(events: map<nat, Event>, lib: Library) {
    forall e | e in events && VerdictOf(events[e], lib).Accepted? ::
      var p := VerdictOf(events[e], lib).data.submission;
      NamesVisible(p.firstName, p.lastName)
  }

  lemma NamedPayloadsMakeNamedLeads(w: World, lib: Library)
    requires Ready(w, lib) && PayloadsNamed(w.db.events, lib)
    ensures AllNamed(w.db.leads)
  {
    forall id | id in w.db.leads ensures Named(w.db.leads[id].identity.contact) {
      assert LeadFits(w.db.events, w.db.leads[id], id, lib);
    }
  }

  lemma PayloadsStay(site: Site, w: World, step: Step, w': World)
    requires Ready(w, site.lib) && Next(site, w, step, w') && PayloadsNamed(w'.db.events, site.lib)
    ensures PayloadsNamed(w.db.events, site.lib)
  {
    StepPreserves(site, w, step, w');
    forall e | e in w.db.events ensures VerdictOf(w.db.events[e], site.lib) == VerdictOf(w'.db.events[e], site.lib) {
      assert Preserved(w.db.events[e], w'.db.events[e]);
    }
  }

  /** How often a result was lost to a `Retry-After` date that UTC cannot represent. */
  ghost function DatesRaised(site: Site, r: Run): nat {
    if r.Start? then 0
    else DatesRaised(site, r.before) + if r.step.Crm? && DateRaises(site, r.before.w, r.step.c) then 1 else 0
  }

  lemma {:induction false} OnlyDatesFailWithNames(site: Site, r: Run)
    requires Valid(site, r) && PayloadsNamed(r.w.db.events, site.lib)
    ensures r.w.crm.faults == DatesRaised(site, r)
  {
    if r.Then? {
      LastStep(site, r);
      RunsAreReady(site, r.before);
      PayloadsStay(site, r.before.w, r.step, r.w);
      OnlyDatesFailWithNames(site, r.before);
      NamedPayloadsMakeNamedLeads(r.before.w, site.lib);
      TransactionsFailIff(site, r);
    }
  }

  ghost predicate EventsChecked(events: map<nat, Event>) {
    forall e | e in events :: EventChecks(events[e].source, events[e].eventId)
  }

  lemma StepChecksEvents(site: Site, w: World, step: Step, w': World)
    requires Ready(w, site.lib) && EventsChecked(w.db.events) && Next(site, w, step, w')
    ensures EventsChecked(w'.db.events)
  {
    match step
    case Crm(c) => CrmFrame(site, w, c, w');
    case Intake(i) => IntakeChecksEvents(site, w, i, w');
    case Notify(n) => NotifyFrame(site, w, n, w');
    case Outside(o) => OutsideFrame(w, o, w');
  }

  lemma IntakeChecksEvents(site: Site, w: World, step: IntakeStep, w': World)
    requires EventsChecked(w.db.events) && IntakeNext(site, w, step, w')
    ensures EventsChecked(w'.db.events)
  {
    match step
    case ClaimEvent(claimed) =>
      if claimed.Some? { assert claimed.value.id in ReceivedKeys(w.db); }
    case RecoverEvent(recovery) =>
      if !recovery.NoRecovery? { assert recovery.event in StaleKeys(w.db, site.settings.leaseSeconds, w.now); }
    case _ =>
  }

  lemma {:induction false} RunChecksEvents(site: Site, r: Run)
    requires Valid(site, r)
    ensures Ready(r.w, site.lib) && EventsChecked(r.w.db.events)
  {
    RunsAreReady(site, r);
    if r.Then? {
      LastStep(site, r);
      RunChecksEvents(site, r.before);
      StepChecksEvents(site, r.before.w, r.step, r.w);
    }
  }

  /** Every CHECK constraint of the three tables. */
  ghost predicate ChecksHold(db: Db) {
    && EventsChecked(db.events)
    && (forall id | id in db.leads ::
         && db.leads[id].identity.source in SOURCES
         && Reference.WellFormedReference(db.leads[id].identity.contact.integrationReference)
         && DeliveryChecks(db.leads[id].crm))
    && PauseChecks(db.pause)
  }

  lemma ReadyChecks(w: World, lib: Library)
    requires Ready(w, lib) && EventsChecked(w.db.events)
    ensures ChecksHold(w.db)
  {
    forall id | id in w.db.leads
      ensures w.db.leads[id].identity.source in SOURCES
      ensures Reference.WellFormedReference(w.db.leads[id].identity.contact.integrationReference)
      ensures DeliveryChecks(w.db.leads[id].crm)
    {
      assert LeadFits(w.db.events, w.db.leads[id], id, lib);
      assert RowOk(w.db.leads[id].crm, LedgerOf(w.crm, id));
      Reference.ReferenceRoundTrip(id);
    }
  }

  /** No run violates a CHECK constraint; and as long as no stored payload gives a blank name, the
      only transactions that fail are those lost to a `Retry-After` date. */
  lemma NoDeadEnds(site: Site, r: Run)
    requires Valid(site, r)
    ensures ChecksHold(r.w.db)
    ensures PayloadsNamed(r.w.db.events, site.lib) ==> r.w.crm.faults == DatesRaised(site, r)
    ensures forall id | id in r.w.db.leads :: ValidIffNamed(r.w.db.leads[id].identity.contact)
  {
    RunChecksEvents(site, r);
    ReadyChecks(r.w, site.lib);
    RunContacts(site, r);
    if PayloadsNamed(r.w.db.events, site.lib) { OnlyDatesFailWithNames(site, r); }
  }

  // ---------- behind a blank name ----------

  /** Lead `id` has a blank name, is first in the queue for good, and nothing is under way. */
  ghost predicate Stuck(w: World, id: nat) {
    && id in w.db.leads && Claimable(w.db.leads[id], w.now) && DueBy(DueOrCreated(w.db.leads[id]), w.now)
    && !Named(w.db.leads[id].identity.contact)
    && AheadOf(w.db.leads, id) == {} && NoneSending(w.db.leads)
  }

  ghost predicate StaysStuck(w: World, w': World, id: nat) {
    Stuck(w', id) && w'.crm.claims == w.crm.claims && |w'.hub.calls| == |w.hub.calls|
  }

  lemma StuckPrepare(site: Site, w: World, gate: Gate, candidate: Option<nat>, w': World, id: nat)
    requires Stuck(w, id) && CrmNext(site, w, Prepare(gate, candidate), w')
    ensures StaysStuck(w, w', id)
  {
    SelectionMeaning(w.db.leads, w.now);
    assert w'.db == w.db;
  }

  lemma StuckClaim(site: Site, w: World, gate: Gate, result: Result<Claim, DeliveryError>, w': World, id: nat)
    requires Stuck(w, id) && ValidIffNamed(w.db.leads[id].identity.contact)
    requires CrmNext(site, w, TryClaim(gate, result), w')
    ensures StaysStuck(w, w', id)
  {
    SelectionMeaning(w.db.leads, w.now);
    if result.Ok? && result.value.Claimed? { ClaimAdvances(w.db.leads, w.now, result.value.lead, id); }
    assert w'.db == w.db;
  }

  lemma StuckEvidence(site: Site, w: World, w': World, id: nat)
    requires Safe(w) && Stuck(w, id) && CrmNext(site, w, CommitEvidence, w')
    ensures StaysStuck(w, w', id)
  {
    var m, s := w.phase.lead, site.settings;
    var l := w.db.leads[m];
    var applied := ApplyEvidence(l.crm, l.identity.contact, w.phase.read, s, site.lib.httpDate, w.now);
    if applied.Ok? {
      EvidenceRowOk(l.crm, LedgerOf(w.crm, m), l.identity.contact, w.phase.read, s, site.lib.httpDate, w.now);
      assert w'.db.leads == WithRow(w.db.leads, m, applied.value.row);
      AheadAfterUpdate(w.db.leads, id, m, applied.value.row);
    }
  }

  lemma StuckCrm(site: Site, w: World, step: CrmStep, w': World, id: nat)
    requires Safe(w) && Stuck(w, id) && ValidIffNamed(w.db.leads[id].identity.contact)
    requires CrmNext(site, w, step, w')
    ensures StaysStuck(w, w', id)
  {
    match step
    case Prepare(gate, candidate) => StuckPrepare(site, w, gate, candidate, w', id);
    case TryClaim(gate, result) => StuckClaim(site, w, gate, result, w', id);
    case CommitEvidence => StuckEvidence(site, w, w', id);
    case SendCreate => StuckElsewhere(site, w, step, w', id);
    case CreateOutcome(_) => StuckElsewhere(site, w, step, w', id);
    case FollowUpRead(_) => StuckElsewhere(site, w, step, w', id);
    case CommitCreate => StuckElsewhere(site, w, step, w', id);
    case CommitDecision => StuckElsewhere(site, w, step, w', id);
    case EvidenceRead(_) => StuckElsewhere(site, w, step, w', id);
  }

  /** Every other CRM step is a read, or needs a lead that is SENDING. */
  lemma StuckElsewhere(site: Site, w: World, step: CrmStep, w': World, id: nat)
    requires Safe(w) && Stuck(w, id) && CrmNext(site, w, step, w')
    requires !step.Prepare? && !step.TryClaim? && !step.CommitEvidence?
    ensures StaysStuck(w, w', id)
  {
    if step.EvidenceRead? { MemoryStep(site, w, step, w'); }
  }

  lemma StuckIntake(site: Site, w: World, step: IntakeStep, w': World, id: nat)
    requires TimesOk(w) && Stuck(w, id) && IntakeNext(site, w, step, w')
    ensures StaysStuck(w, w', id)
  {
    IntakeLeads(site, w, step, w');
    if w'.db.leads != w.db.leads {
      assert w'.db.leads[w.db.nextLeadId].identity.createdAt == w.clock;
      assert AheadOf(w'.db.leads, id) == AheadOf(w.db.leads, id);
    }
  }

  lemma StuckNotify(site: Site, w: World, step: NotifyStep, w': World, id: nat)
    requires Stuck(w, id) && NotifyNext(site, w, step, w')
    ensures StaysStuck(w, w', id)
  {
    NotifyLeads(site, w, step, w');
    assert AheadOf(w'.db.leads, id) == AheadOf(w.db.leads, id);
  }

  lemma StuckOutside(w: World, step: OutsideStep, w': World, id: nat)
    requires TimesOk(w) && Stuck(w, id) && OutsideNext(w, step, w')
    ensures StaysStuck(w, w', id)
  {
    assert w'.db.leads == w.db.leads && w'.now >= w.now;
  }

  lemma StuckStep(site: Site, w: World, step: Step, w': World, id: nat)
    requires Safe(w) && TimesOk(w) && Stuck(w, id) && ValidIffNamed(w.db.leads[id].identity.contact)
    requires Next(site, w, step, w')
    ensures StaysStuck(w, w', id)
  {
    match step
    case Crm(c) => StuckCrm(site, w, c, w', id);
    case Intake(i) => StuckIntake(site, w, i, w', id);
    case Notify(n) => StuckNotify(site, w, n, w', id);
    case Outside(o) => StuckOutside(w, o, w', id);
  }

  /** Behind a blank name the queue stands still for good: whatever the worker, the operator and
      new deliveries do, no lead is ever claimed and no create is ever sent again. */
  lemma {:induction false} BlankNameBlocksForever(site: Site, early: Run, late: Run, id: nat)
    requires Valid(site, late) && Prefix(early, late) && Stuck(early.w, id)
    ensures StaysStuck(early.w, late.w, id)
    decreases late
  {
    if late != early {
      LastStep(site, late);
      BlankNameBlocksForever(site, early, late.before, id);
      RunTimes(site, late.before);
      RunContacts(site, late.before);
      StuckStep(site, late.before.w, late.step, late.w, id);
    }
  }

  lemma FirstBlankIsStuck(w: World)
    requires w == Normalizing(IDLE, "a", Plain("a", BLANK_NAME), 0)
    ensures Stuck(w, 1)
  {
    assert StripLeft(BLANK_NAME) == StripLeft(BLANK_NAME[1..]);
    assert Strip(BLANK_NAME) == [];
  }

  /** One delivery with such a name is enough. */
  lemma OneBlankNameIsEnough() returns (site: Site, r: Run)
    ensures ValidSite(site) && Valid(site, r) && |r.w.db.events| == 1 && Stuck(r.w, 1)
  {
    site := Everyone(BLANK_NAME);
    r := Beginning(site, "a");
    EveryoneIsAccepted("a", BLANK_NAME);
    r := OneDelivery(site, r, "a", Plain("a", BLANK_NAME), 0);
    FirstBlankIsStuck(r.w);
  }
}
