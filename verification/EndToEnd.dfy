/** From webhook delivery to CRM create: whatever is delivered twice, crashes, stalls or is
    claimed again, an event becomes at most one lead and at most one effective create. */
module EndToEnd {
  import opened Schema
  import opened Normalization
  import opened System
  import opened DeliverySafety
  import opened DeliveryProgress
  import opened ClaimQueue
  import opened RecordSoundness
  import opened DeliveryTheorems

  // ---------- invariants ----------

  function VerdictOf(e: Event, lib: Library): Verdict {
    NormalizePayload(e.source, e.eventId, e.payload, lib)
  }

  ghost predicate OnlyKey(events: map<nat, Event>, e: nat, source: string, eventId: string) {
    forall f | f in events && f != e :: events[f].source != source || events[f].eventId != eventId
  }

  /** The `(source, event_id)` key is unique and ids come from the sequence. */
  ghost predicate EventsOk(events: map<nat, Event>, next: nat) {
    && (forall e | e in events :: e < next)
    && (forall e | e in events :: OnlyKey(events, e, events[e].source, events[e].eventId))
  }

  /** A lead is exactly what normalization makes of its NORMALIZED event. */
  ghost predicate LeadFits(events: map<nat, Event>, l: Lead, id: nat, lib: Library) {
    var e := l.identity.webhookEventId;
    && e in events && events[e].status == Normalized
    && l.identity.source == events[e].source && l.identity.sourceEventId == events[e].eventId
    && VerdictOf(events[e], lib).Accepted?
    && l.identity == NewIdentity(e, VerdictOf(events[e], lib).data, id, l.identity.createdAt)
  }

  ghost predicate LeadsFit(events: map<nat, Event>, leads: Leads, lib: Library) {
    forall id | id in leads :: LeadFits(events, leads[id], id, lib)
  }

  ghost predicate OnlyLeadOf(leads: Leads, id: nat, event: nat) {
    forall j | j in leads && j != id :: leads[j].identity.webhookEventId != event
  }

  ghost predicate OneLeadPerEvent(leads: Leads) {
    forall id | id in leads :: OnlyLeadOf(leads, id, leads[id].identity.webhookEventId)
  }

  /** A terminal event ended the way its own content dictates. */
  ghost predicate EventSettled(e: Event, id: nat, leads: Leads, lib: Library) {
    && (e.status == Normalized ==> HasLead(leads, id))
    && (e.status == NormalizationFailed ==>
         VerdictOf(e, lib).Rejected? && e.fault == Some(VerdictOf(e, lib).fault) && e.completedAt.Some?)
  }

  ghost predicate EventsSettled(events: map<nat, Event>, leads: Leads, lib: Library) {
    forall e | e in events :: EventSettled(events[e], e, leads, lib)
  }

  /** Every normalizer still holds the stored columns of its event. */
  ghost predicate MemoryOk(db: Db, normalizers: seq<StoredEvent>) {
    forall k | 0 <= k < |normalizers| ::
      normalizers[k].id in db.events && normalizers[k] == StoredFrom(db, normalizers[k].id)
  }

  ghost predicate IntakeOk(w: World, lib: Library) {
    && EventsOk(w.db.events, w.db.nextEventId)
    && LeadsFit(w.db.events, w.db.leads, lib)
    && OneLeadPerEvent(w.db.leads)
    && EventsSettled(w.db.events, w.db.leads, lib)
    && MemoryOk(w.db, w.normalizers)
  }

  // ---------- frames ----------

  /** Events may gain a notification mark; leads may change in anything but identity. */
  ghost predicate SameIntake(db: Db, db': Db) {
    && db'.nextEventId == db.nextEventId
    && db'.events.Keys == db.events.Keys
    && (forall e | e in db.events :: db'.events[e] == db.events[e].(notifiedAt := db'.events[e].notifiedAt))
    && db'.leads.Keys == db.leads.Keys
    && (forall id | id in db.leads :: db'.leads[id].identity == db.leads[id].identity)
  }

  lemma SameIntakeKeeps(w: World, w': World, lib: Library)
    requires IntakeOk(w, lib) && SameIntake(w.db, w'.db) && w'.normalizers == w.normalizers
    ensures IntakeOk(w', lib)
  {
    forall id | id in w'.db.leads ensures LeadFits(w'.db.events, w'.db.leads[id], id, lib) {
      assert LeadFits(w.db.events, w.db.leads[id], id, lib);
    }
    forall e | e in w'.db.events ensures EventSettled(w'.db.events[e], e, w'.db.leads, lib) {
      assert EventSettled(w.db.events[e], e, w.db.leads, lib);
      if HasLead(w.db.leads, e) {
        var id :| IsLeadOf(w.db.leads, id, e);
        assert IsLeadOf(w'.db.leads, id, e);
      }
    }
  }

  lemma CrmFrame(site: Site, w: World, step: CrmStep, w': World)
    requires Safe(w) && CrmNext(site, w, step, w')
    ensures SameIntake(w.db, w'.db) && w'.normalizers == w.normalizers
  {
    CrmMoves(site, w, step, w');
    CrmLeavesEvents(site, w, step, w');
    MovedFrame(w, Mover(w, step), w');
  }

  lemma MovedFrame(w: World, id: nat, w': World)
    requires Still(w, w') || Moved(w, id, w')
    requires w'.db.events == w.db.events && w'.db.nextEventId == w.db.nextEventId
    ensures SameIntake(w.db, w'.db)
  {
  }

  lemma CrmLeavesEvents(site: Site, w: World, step: CrmStep, w': World)
    requires CrmNext(site, w, step, w')
    ensures w'.db.events == w.db.events && w'.db.nextEventId == w.db.nextEventId && w'.normalizers == w.normalizers
  {
  }

  lemma NotifyFrame(site: Site, w: World, step: NotifyStep, w': World)
    requires NotifyNext(site, w, step, w')
    ensures SameIntake(w.db, w'.db) && w'.normalizers == w.normalizers
  {
    NotifyLeads(site, w, step, w');
    NotifyEvents(site, w, step, w');
  }

  lemma NotifyEvents(site: Site, w: World, step: NotifyStep, w': World)
    requires NotifyNext(site, w, step, w')
    ensures w'.db.nextEventId == w.db.nextEventId && w'.normalizers == w.normalizers
    ensures w'.db.events.Keys == w.db.events.Keys
    ensures forall e | e in w.db.events :: w'.db.events[e] == w.db.events[e].(notifiedAt := w'.db.events[e].notifiedAt)
  {
    if step.Finish? { FinishEvents(site, w, w'); }
  }

  lemma FinishEvents(site: Site, w: World, w': World)
    requires NotifyNext(site, w, Finish, w')
    ensures w'.db.nextEventId == w.db.nextEventId && w'.normalizers == w.normalizers
    ensures w'.db.events.Keys == w.db.events.Keys
    ensures forall e | e in w.db.events :: w'.db.events[e] == w.db.events[e].(notifiedAt := w'.db.events[e].notifiedAt)
  {
  }

  lemma OutsideFrame(w: World, step: OutsideStep, w': World)
    requires OutsideNext(w, step, w')
    ensures w'.db.events == w.db.events && w'.db.leads == w.db.leads
    ensures w'.db.nextEventId == w.db.nextEventId && w'.normalizers == w.normalizers
  {
  }

  // ---------- intake steps ----------

  lemma PersistKeeps(
      site: Site, w: World, source: string, eventId: string, payload: RawPayload, outcome: Persisted, w': World,
      lib: Library)
    requires IntakeOk(w, lib) && IntakeNext(site, w, Persist(source, eventId, payload, outcome), w')
    ensures IntakeOk(w', lib)
  {
    if outcome.Inserted? { InsertEventKeeps(w.db, source, eventId, payload, w.clock, w.normalizers, lib); }
  }

  lemma InsertEventKeeps(
      db: Db, source: string, eventId: string, payload: RawPayload, now: Time, normalizers: seq<StoredEvent>,
      lib: Library)
    requires EventsOk(db.events, db.nextEventId) && LeadsFit(db.events, db.leads, lib)
    requires EventsSettled(db.events, db.leads, lib) && MemoryOk(db, normalizers)
    requires !HasEvent(db, source, eventId)
    ensures var db' := db.(nextEventId := db.nextEventId + 1,
                           events := db.events[db.nextEventId := NewEvent(source, eventId, payload, now)]);
      && EventsOk(db'.events, db'.nextEventId) && LeadsFit(db'.events, db'.leads, lib)
      && EventsSettled(db'.events, db'.leads, lib) && MemoryOk(db', normalizers)
  {
    var n := db.nextEventId;
    var db' := db.(nextEventId := n + 1, events := db.events[n := NewEvent(source, eventId, payload, now)]);
    assert n !in db.events;
    forall id | id in db'.leads ensures LeadFits(db'.events, db'.leads[id], id, lib) {
      assert LeadFits(db.events, db.leads[id], id, lib);
    }
    forall e | e in db'.events ensures EventSettled(db'.events[e], e, db'.leads, lib) {
      if e != n { assert EventSettled(db.events[e], e, db.leads, lib); }
    }
  }

  /** Moving one unfinished event between unfinished states. */
  lemma MoveEventKeeps(db: Db, e: nat, event: Event, normalizers: seq<StoredEvent>, lib: Library)
    requires EventsOk(db.events, db.nextEventId) && LeadsFit(db.events, db.leads, lib)
    requires EventsSettled(db.events, db.leads, lib) && MemoryOk(db, normalizers)
    requires e in db.events && db.events[e].status in {Received, Processing} && event.status in {Received, Processing}
    requires event.source == db.events[e].source && event.eventId == db.events[e].eventId
    requires event.payload == db.events[e].payload
    ensures var db' := db.(events := db.events[e := event]);
      && EventsOk(db'.events, db'.nextEventId) && LeadsFit(db'.events, db'.leads, lib)
      && EventsSettled(db'.events, db'.leads, lib) && MemoryOk(db', normalizers)
      && StoredFrom(db', e) == StoredFrom(db, e)
  {
    var db' := db.(events := db.events[e := event]);
    forall id | id in db'.leads ensures LeadFits(db'.events, db'.leads[id], id, lib) {
      assert LeadFits(db.events, db.leads[id], id, lib);
    }
    forall f | f in db'.events ensures EventSettled(db'.events[f], f, db'.leads, lib) {
      if f != e { assert EventSettled(db.events[f], f, db.leads, lib); }
    }
  }

  lemma ClaimEventKeeps(site: Site, w: World, claimed: Option<StoredEvent>, w': World, lib: Library)
    requires IntakeOk(w, lib) && IntakeNext(site, w, ClaimEvent(claimed), w')
    ensures IntakeOk(w', lib)
  {
    if claimed.Some? {
      var e := claimed.value.id;
      assert e in ReceivedKeys(w.db);
      MoveEventKeeps(w.db, e, w'.db.events[e], w.normalizers, lib);
    }
  }

  /** An event in PROCESSING never has a lead, so the repair is never taken. */
  lemma UnfinishedHasNoLead(w: World, e: nat, lib: Library)
    requires IntakeOk(w, lib) && e in w.db.events && w.db.events[e].status != Normalized
    ensures !HasLead(w.db.leads, e)
  {
    forall id ensures !IsLeadOf(w.db.leads, id, e) {
      if id in w.db.leads { assert LeadFits(w.db.events, w.db.leads[id], id, lib); }
    }
  }

  lemma RecoverEventKeeps(site: Site, w: World, recovery: Recovery, w': World, lib: Library)
    requires IntakeOk(w, lib) && IntakeNext(site, w, RecoverEvent(recovery), w')
    ensures IntakeOk(w', lib) && !recovery.RepairedNormalized?
  {
    if !recovery.NoRecovery? {
      assert recovery.event in StaleKeys(w.db, site.settings.leaseSeconds, w.now);
      UnfinishedHasNoLead(w, recovery.event, lib);
      MoveEventKeeps(w.db, recovery.event, w'.db.events[recovery.event], w.normalizers, lib);
    }
  }

  /** The outcomes that can occur at all, with any number of stalled normalizers. */
  predicate ExpectedOutcome(result: Result<NormalizationOutcome, NormalizationError>) {
    match result
    case Ok(outcome) => outcome.AlreadyNormalized? ==> !outcome.repaired
    case Err(e) => e == PayloadRaised || e == NotProcessing || e == SequenceExhausted
  }

  lemma NoClash(w: World)
    requires TimesOk(w) && RefsOk(w.db.leads)
    ensures !Clashes(w.db, w.db.nextLeadId)
  {
    forall other | other in w.db.leads
      ensures w.db.leads[other].identity.contact.integrationReference != Reference.ReferenceFor(w.db.nextLeadId)
    {
      if w.db.leads[other].identity.contact.integrationReference == Reference.ReferenceFor(w.db.nextLeadId) {
        Reference.ReferencesAreUnique(other, w.db.nextLeadId);
      }
    }
  }

  lemma NormalizeOutcome(
      site: Site, w: World, k: nat, result: Result<NormalizationOutcome, NormalizationError>, w': World)
    requires IntakeOk(w, site.lib) && TimesOk(w) && RefsOk(w.db.leads)
    requires IntakeNext(site, w, Normalize(k, result), w')
    ensures ExpectedOutcome(result)
  {
    var stored := w.normalizers[k];
    NoClash(w);
    if w.db.events[stored.id].status != Normalized { UnfinishedHasNoLead(w, stored.id, site.lib); }
  }

  lemma MemoryAfter(db: Db, normalizers: seq<StoredEvent>, k: nat)
    requires MemoryOk(db, normalizers) && k < |normalizers|
    ensures MemoryOk(db, Without(normalizers, k))
  {
    var rest := Without(normalizers, k);
    assert forall i | 0 <= i < |rest| :: rest[i] == if i < k then normalizers[i] else normalizers[i + 1];
  }

  lemma FailEventKeeps(w: World, e: nat, fault: NormalizationFault, now: Time, lib: Library)
    requires IntakeOk(w, lib) && e in w.db.events && w.db.events[e].status == Processing
    requires VerdictOf(w.db.events[e], lib) == Rejected(fault)
    ensures IntakeOk(w.(db := MarkFailed(w.db, e, fault, now)), lib)
  {
    var db' := MarkFailed(w.db, e, fault, now);
    forall id | id in db'.leads ensures LeadFits(db'.events, db'.leads[id], id, lib) {
      assert LeadFits(w.db.events, w.db.leads[id], id, lib);
    }
    forall f | f in db'.events ensures EventSettled(db'.events[f], f, db'.leads, lib) {
      if f != e { assert EventSettled(w.db.events[f], f, w.db.leads, lib); }
    }
  }

  lemma InsertedLeadFits(w: World, stored: StoredEvent, data: LeadData, now: Time, lib: Library)
    requires LeadsFit(w.db.events, w.db.leads, lib) && stored.id in w.db.events && stored == StoredFrom(w.db, stored.id)
    requires VerdictOf(w.db.events[stored.id], lib) == Accepted(data) && !HasLead(w.db.leads, stored.id)
    ensures var db' := InsertLead(w.db, stored, data, now); LeadsFit(db'.events, db'.leads, lib)
  {
    var n, db' := w.db.nextLeadId, InsertLead(w.db, stored, data, now);
    forall id | id in db'.leads ensures LeadFits(db'.events, db'.leads[id], id, lib) {
      if id != n { assert LeadFits(w.db.events, w.db.leads[id], id, lib); }
    }
  }

  lemma InsertedLeadSettles(w: World, stored: StoredEvent, data: LeadData, now: Time, lib: Library)
    requires EventsSettled(w.db.events, w.db.leads, lib) && stored.id in w.db.events && w.db.nextLeadId !in w.db.leads
    ensures var db' := InsertLead(w.db, stored, data, now); EventsSettled(db'.events, db'.leads, lib)
  {
    var e, n, db' := stored.id, w.db.nextLeadId, InsertLead(w.db, stored, data, now);
    forall f | f in db'.events ensures EventSettled(db'.events[f], f, db'.leads, lib) {
      if f == e {
        assert IsLeadOf(db'.leads, n, e);
      } else {
        assert EventSettled(w.db.events[f], f, w.db.leads, lib);
        if HasLead(w.db.leads, f) {
          var id :| IsLeadOf(w.db.leads, id, f);
          assert IsLeadOf(db'.leads, id, f);
        }
      }
    }
  }

  lemma InsertedLeadIsOnly(leads: Leads, id: nat, row: Lead)
    requires OneLeadPerEvent(leads) && id !in leads && !HasLead(leads, row.identity.webhookEventId)
    ensures OneLeadPerEvent(leads[id := row])
  {
    var leads' := leads[id := row];
    forall j | j in leads ensures leads[j].identity.webhookEventId != row.identity.webhookEventId {
      assert !IsLeadOf(leads, j, row.identity.webhookEventId);
    }
    forall j | j in leads' ensures OnlyLeadOf(leads', j, leads'[j].identity.webhookEventId) {
      if j != id { assert OnlyLeadOf(leads, j, leads[j].identity.webhookEventId); }
    }
  }

  lemma UpdatedEventKeepsKeys(events: map<nat, Event>, next: nat, e: nat, event: Event)
    requires EventsOk(events, next) && e in events
    requires event.source == events[e].source && event.eventId == events[e].eventId
    ensures EventsOk(events[e := event], next)
  {
    var events' := events[e := event];
    forall f | f in events' ensures OnlyKey(events', f, events'[f].source, events'[f].eventId) {
      assert OnlyKey(events, f, events[f].source, events[f].eventId);
    }
  }

  lemma InsertLeadKeeps(w: World, stored: StoredEvent, data: LeadData, now: Time, lib: Library)
    requires IntakeOk(w, lib) && TimesOk(w) && stored.id in w.db.events && stored == StoredFrom(w.db, stored.id)
    requires w.db.events[stored.id].status == Processing && VerdictOf(w.db.events[stored.id], lib) == Accepted(data)
    ensures IntakeOk(w.(db := InsertLead(w.db, stored, data, now)), lib)
  {
    var db' := InsertLead(w.db, stored, data, now);
    UnfinishedHasNoLead(w, stored.id, lib);
    InsertedLeadFits(w, stored, data, now, lib);
    InsertedLeadSettles(w, stored, data, now, lib);
    InsertedLeadIsOnly(w.db.leads, w.db.nextLeadId, db'.leads[w.db.nextLeadId]);
    UpdatedEventKeepsKeys(w.db.events, w.db.nextEventId, stored.id, db'.events[stored.id]);
  }

  lemma NormalizeKeeps(
      site: Site, w: World, k: nat, result: Result<NormalizationOutcome, NormalizationError>, w': World)
    requires IntakeOk(w, site.lib) && TimesOk(w) && RefsOk(w.db.leads)
    requires IntakeNext(site, w, Normalize(k, result), w')
    ensures IntakeOk(w', site.lib)
  {
    NormalizeOutcome(site, w, k, result, w');
    var stored := w.normalizers[k];
    var verdict := NormalizePayload(stored.source, stored.eventId, stored.payload, site.lib);
    match result {
      case Ok(NewFailure(fault)) => FailEventKeeps(w, stored.id, fault, w.clock, site.lib);
      case Ok(NewLead(_)) => InsertLeadKeeps(w, stored, verdict.data, w.clock, site.lib);
      case _ =>
    }
    MemoryAfter(w'.db, w.normalizers, k);
  }

  lemma IntakeStepKeeps(site: Site, w: World, step: IntakeStep, w': World)
    requires IntakeOk(w, site.lib) && TimesOk(w) && RefsOk(w.db.leads) && IntakeNext(site, w, step, w')
    ensures IntakeOk(w', site.lib)
  {
    match step
    case Persist(source, eventId, payload, outcome) =>
      PersistKeeps(site, w, source, eventId, payload, outcome, w', site.lib);
    case ClaimEvent(claimed) => ClaimEventKeeps(site, w, claimed, w', site.lib);
    case RecoverEvent(recovery) => RecoverEventKeeps(site, w, recovery, w', site.lib);
    case Normalize(k, result) => NormalizeKeeps(site, w, k, result, w');
    case AbandonNormalizer(k, _) => MemoryAfter(w.db, w.normalizers, k);
  }

  lemma StepKeepsIntake(site: Site, w: World, step: Step, w': World)
    requires Safe(w) && IntakeOk(w, site.lib) && TimesOk(w) && RefsOk(w.db.leads) && Next(site, w, step, w')
    ensures IntakeOk(w', site.lib)
  {
    match step
    case Crm(c) =>
      CrmFrame(site, w, c, w');
      SameIntakeKeeps(w, w', site.lib);
    case Intake(i) => IntakeStepKeeps(site, w, i, w');
    case Notify(n) =>
      NotifyFrame(site, w, n, w');
      SameIntakeKeeps(w, w', site.lib);
    case Outside(o) =>
      OutsideFrame(w, o, w');
      SameIntakeKeeps(w, w', site.lib);
  }

  /** Everything that holds between the steps of a run. */
  ghost predicate Ready(w: World, lib: Library) {
    Safe(w) && TimesOk(w) && RefsOk(w.db.leads) && IntakeOk(w, lib)
  }

  lemma {:induction false} RunsAreReady(site: Site, r: Run)
    requires Valid(site, r)
    ensures Ready(r.w, site.lib)
  {
    RunTimes(site, r);
    RunRefs(site, r);
    if r.Then? {
      LastStep(site, r);
      RunsAreReady(site, r.before);
      StepKeepsIntake(site, r.before.w, r.step, r.w);
    }
  }

  // ---------- the promises ----------

  /** A lead exists for an event exactly when the event is NORMALIZED. */
  lemma LeadIffNormalized(site: Site, r: Run, e: nat)
    requires Valid(site, r) && e in r.w.db.events
    ensures HasLead(r.w.db.leads, e) <==> r.w.db.events[e].status == Normalized
  {
    RunsAreReady(site, r);
    ReadyEvent(r.w, e, site.lib);
  }

  lemma ReadyEvent(w: World, e: nat, lib: Library)
    requires Ready(w, lib) && e in w.db.events
    ensures HasLead(w.db.leads, e) <==> w.db.events[e].status == Normalized
  {
    assert EventSettled(w.db.events[e], e, w.db.leads, lib);
    if w.db.events[e].status != Normalized { UnfinishedHasNoLead(w, e, lib); }
  }

  predicate Finished(e: Event) { e.status == Normalized || e.status == NormalizationFailed }

  /** The columns that do not come from the sequences or the clock. */
  function Content(i: Identity): Identity {
    i.(webhookEventId := 0, createdAt := 0, contact := i.contact.(integrationReference := ""))
  }

  /** Two leads that differ at most in the ids and the time they were given. */
  predicate SameData(l: Lead, m: Lead) { Content(l.identity) == Content(m.identity) }

  /** Confluence: in any two runs, however normalizers stalled and events were recovered and
      claimed again, equal stored events end in the same status with the same lead data. */
  lemma NormalizationIsConfluent(site: Site, r: Run, q: Run, e: nat, f: nat)
    requires Valid(site, r) && Valid(site, q) && e in r.w.db.events && f in q.w.db.events
    requires StoredFrom(r.w.db, e).(id := 0) == StoredFrom(q.w.db, f).(id := 0)
    requires Finished(r.w.db.events[e]) && Finished(q.w.db.events[f])
    ensures r.w.db.events[e].status == q.w.db.events[f].status
    ensures r.w.db.events[e].status == NormalizationFailed ==> r.w.db.events[e].fault == q.w.db.events[f].fault
    ensures forall i, j | IsLeadOf(r.w.db.leads, i, e) && IsLeadOf(q.w.db.leads, j, f) ::
      SameData(r.w.db.leads[i], q.w.db.leads[j])
  {
    RunsAreReady(site, r);
    RunsAreReady(site, q);
    ReadyConfluence(r.w, q.w, e, f, site.lib);
  }

  lemma ReadyConfluence(w: World, v: World, e: nat, f: nat, lib: Library)
    requires Ready(w, lib) && Ready(v, lib) && e in w.db.events && f in v.db.events
    requires StoredFrom(w.db, e).(id := 0) == StoredFrom(v.db, f).(id := 0)
    requires Finished(w.db.events[e]) && Finished(v.db.events[f])
    ensures w.db.events[e].status == v.db.events[f].status
    ensures w.db.events[e].status == NormalizationFailed ==> w.db.events[e].fault == v.db.events[f].fault
    ensures forall i, j | IsLeadOf(w.db.leads, i, e) && IsLeadOf(v.db.leads, j, f) ::
      SameData(w.db.leads[i], v.db.leads[j])
  {
    EventDecides(w, e, lib);
    EventDecides(v, f, lib);
    forall i, j | IsLeadOf(w.db.leads, i, e) && IsLeadOf(v.db.leads, j, f)
      ensures SameData(w.db.leads[i], v.db.leads[j])
    {
      assert LeadFits(w.db.events, w.db.leads[i], i, lib) && LeadFits(v.db.events, v.db.leads[j], j, lib);
    }
  }

  /** The terminal status is the verdict of normalization on the stored columns. */
  lemma EventDecides(w: World, e: nat, lib: Library)
    requires Ready(w, lib) && e in w.db.events && Finished(w.db.events[e])
    ensures w.db.events[e].status == Normalized <==> VerdictOf(w.db.events[e], lib).Accepted?
    ensures w.db.events[e].status == NormalizationFailed ==>
      VerdictOf(w.db.events[e], lib).Rejected? && w.db.events[e].fault == Some(VerdictOf(w.db.events[e], lib).fault)
  {
    assert EventSettled(w.db.events[e], e, w.db.leads, lib);
    if w.db.events[e].status == Normalized {
      var id :| IsLeadOf(w.db.leads, id, e);
      assert LeadFits(w.db.events, w.db.leads[id], id, lib);
    }
  }

  /** The repair branches are dead, no unique constraint fires, and a stalled normalizer can
      only find its event taken back (or the sequence used up). */
  lemma RepairsAreNeverNeeded(site: Site, r: Run)
    requires Valid(site, r) && r.Then? && r.step.Intake?
    ensures r.step.i.RecoverEvent? ==> !r.step.i.recovery.RepairedNormalized?
    ensures r.step.i.Normalize? ==> ExpectedOutcome(r.step.i.result)
  {
    LastStep(site, r);
    RunsAreReady(site, r.before);
    ReadyOutcome(site, r.before.w, r.step.i, r.w);
  }

  lemma ReadyOutcome(site: Site, w: World, step: IntakeStep, w': World)
    requires Ready(w, site.lib) && IntakeNext(site, w, step, w')
    ensures step.RecoverEvent? ==> !step.recovery.RepairedNormalized?
    ensures step.Normalize? ==> ExpectedOutcome(step.result)
  {
    match step
    case RecoverEvent(recovery) => RecoverEventKeeps(site, w, recovery, w', site.lib);
    case Normalize(k, result) => NormalizeOutcome(site, w, k, result, w');
    case _ =>
  }

  /** No two leads stand for the same delivery, although no constraint says so. */
  lemma OneLeadPerDelivery(site: Site, r: Run, i: nat, j: nat)
    requires Valid(site, r) && i in r.w.db.leads && j in r.w.db.leads
    requires r.w.db.leads[i].identity.source == r.w.db.leads[j].identity.source
    requires r.w.db.leads[i].identity.sourceEventId == r.w.db.leads[j].identity.sourceEventId
    ensures i == j
  {
    RunsAreReady(site, r);
    ReadyLeads(r.w, i, j, site.lib);
  }

  lemma ReadyLeads(w: World, i: nat, j: nat, lib: Library)
    requires Ready(w, lib) && i in w.db.leads && j in w.db.leads
    requires w.db.leads[i].identity.source == w.db.leads[j].identity.source
    requires w.db.leads[i].identity.sourceEventId == w.db.leads[j].identity.sourceEventId
    ensures i == j
  {
    assert LeadFits(w.db.events, w.db.leads[i], i, lib) && LeadFits(w.db.events, w.db.leads[j], j, lib);
  }

  /** Request `k` was made for the delivery `(source, eventId)`. */
  ghost predicate RequestFor(w: World, k: nat, source: string, eventId: string) {
    && k < |w.hub.calls| && w.hub.calls[k].lead in w.db.leads
    && w.db.leads[w.hub.calls[k].lead].identity.source == source
    && w.db.leads[w.hub.calls[k].lead].identity.sourceEventId == eventId
  }

  /** End to end: every create request is made for a stored delivery, and of all the requests
      ever made for one `(source, event_id)` at most one has taken effect or still can. */
  lemma OneEffectiveCreatePerDelivery(site: Site, r: Run, source: string, eventId: string, i: nat, j: nat)
    requires Valid(site, r)
    requires RequestFor(r.w, i, source, eventId) && r.w.hub.calls[i].fate != Refused
    requires RequestFor(r.w, j, source, eventId) && r.w.hub.calls[j].fate != Refused
    ensures i == j && HasEvent(r.w.db, source, eventId)
  {
    OneLeadPerDelivery(site, r, r.w.hub.calls[i].lead, r.w.hub.calls[j].lead);
    AtMostOneEffectiveCreate(site, r, i, j);
    RunsAreReady(site, r);
    LeadHasEvent(r.w, r.w.hub.calls[i].lead, site.lib);
  }

  lemma LeadHasEvent(w: World, id: nat, lib: Library)
    requires Ready(w, lib) && id in w.db.leads
    ensures HasEvent(w.db, w.db.leads[id].identity.source, w.db.leads[id].identity.sourceEventId)
  {
    assert LeadFits(w.db.events, w.db.leads[id], id, lib);
  }

  /** No request is ever made for anything but a stored delivery that normalization accepted. */
  lemma EveryRequestIsForADelivery(site: Site, r: Run, k: nat)
    requires Valid(site, r) && k < |r.w.hub.calls|
    ensures exists e :: e in r.w.db.events && MadeFor(r.w, k, e, site.lib)
  {
    RunsAreReady(site, r);
    ReadyRequest(r.w, k, site.lib);
  }

  /** The event is NORMALIZED, and what request `k` carries is what normalization makes of it. */
  ghost predicate MadeFor(w: World, k: nat, e: nat, lib: Library)
    requires k < |w.hub.calls| && e in w.db.events
  {
    var event, call := w.db.events[e], w.hub.calls[k];
    && event.status == Normalized && VerdictOf(event, lib).Accepted?
    && RequestFor(w, k, event.source, event.eventId)
    && call.contact == ContactOf(VerdictOf(event, lib).data.submission, Reference.ReferenceFor(call.lead))
  }

  lemma ReadyRequest(w: World, k: nat, lib: Library)
    requires Ready(w, lib) && k < |w.hub.calls|
    ensures exists e :: e in w.db.events && MadeFor(w, k, e, lib)
  {
    var id := w.hub.calls[k].lead;
    assert LeadFits(w.db.events, w.db.leads[id], id, lib);
    assert MadeFor(w, k, w.db.leads[id].identity.webhookEventId, lib);
  }

  /** The reference of every lead satisfies the column's CHECK and leads back to the lead. */
  lemma ReferencesLeadBack(site: Site, r: Run, id: nat)
    requires Valid(site, r) && id in r.w.db.leads
    ensures var reference := r.w.db.leads[id].identity.contact.integrationReference;
      Reference.WellFormedReference(reference) && Reference.ParseDigits(reference[3..]) == id
  {
    RunRefs(site, r);
    Reference.ReferenceRoundTrip(id);
  }

  // ---------- stored deliveries ----------

  /** What intake never changes about a stored event: what was delivered, and how it ended. */
  predicate Preserved(e: Event, e': Event) {
    && e'.source == e.source && e'.eventId == e.eventId && e'.payload == e.payload && e'.receivedAt == e.receivedAt
    && (Finished(e) ==>
         && e'.status == e.status && e'.fault == e.fault
         && e'.normalizedAt == e.normalizedAt && e'.completedAt == e.completedAt)
  }

  ghost predicate AllPreserved(events: map<nat, Event>, events': map<nat, Event>) {
    forall e | e in events :: e in events' && Preserved(events[e], events'[e])
  }

  lemma IntakePreserves(site: Site, w: World, step: IntakeStep, w': World)
    requires EventsOk(w.db.events, w.db.nextEventId) && IntakeNext(site, w, step, w')
    requires step.Normalize? ==> ExpectedOutcome(step.result)
    ensures AllPreserved(w.db.events, w'.db.events)
  {
    match step
    case Persist(_, _, _, _) => assert w.db.nextEventId !in w.db.events;
    case ClaimEvent(claimed) =>
      if claimed.Some? { assert claimed.value.id in ReceivedKeys(w.db); }
    case RecoverEvent(recovery) =>
      if !recovery.NoRecovery? { assert recovery.event in StaleKeys(w.db, site.settings.leaseSeconds, w.now); }
    case Normalize(_, _) =>
    case AbandonNormalizer(_, _) =>
  }

  lemma StepPreserves(site: Site, w: World, step: Step, w': World)
    requires Ready(w, site.lib) && Next(site, w, step, w')
    ensures AllPreserved(w.db.events, w'.db.events)
  {
    match step
    case Crm(c) => CrmFrame(site, w, c, w');
    case Intake(i) =>
      ReadyOutcome(site, w, i, w');
      IntakePreserves(site, w, i, w');
    case Notify(n) => NotifyFrame(site, w, n, w');
    case Outside(o) => OutsideFrame(w, o, w');
  }

  /** A stored delivery is never overwritten by a duplicate, lost or reopened: its content stays,
      and once its event has ended it ends no other way. */
  lemma {:induction false} StoredDeliveriesAreFinal(site: Site, early: Run, late: Run)
    requires Valid(site, late) && Prefix(early, late)
    ensures AllPreserved(early.w.db.events, late.w.db.events)
    decreases late
  {
    if late != early {
      LastStep(site, late);
      StoredDeliveriesAreFinal(site, early, late.before);
      RunsAreReady(site, late.before);
      StepPreserves(site, late.before.w, late.step, late.w);
    }
  }

  /** An event whose payload makes `NormalizedLeadData` raise is never finished: it goes round
      between claim and recovery. */
  lemma RaisingEventsNeverFinish(site: Site, r: Run, e: nat)
    requires Valid(site, r) && e in r.w.db.events && VerdictOf(r.w.db.events[e], site.lib).Raised?
    ensures !Finished(r.w.db.events[e])
  {
    RunsAreReady(site, r);
    if Finished(r.w.db.events[e]) { EventDecides(r.w, e, site.lib); }
  }

  // ---------- one sequential worker ----------

  /** The worker claims and recovers events only between normalizations. */
  ghost predicate Sequential(r: Run) {
    r.Then? ==>
      && Sequential(r.before)
      && (r.step.Intake? && (r.step.i.ClaimEvent? || r.step.i.RecoverEvent?) ==> r.before.w.normalizers == [])
  }

  /** At most one event is in hand, and it is still PROCESSING. */
  ghost predicate InHand(w: World) {
    && |w.normalizers| <= 1
    && (w.normalizers != [] ==>
         w.normalizers[0].id in w.db.events && w.db.events[w.normalizers[0].id].status == Processing)
  }

  lemma IntakeKeepsInHand(site: Site, w: World, step: IntakeStep, w': World)
    requires EventsOk(w.db.events, w.db.nextEventId) && InHand(w) && IntakeNext(site, w, step, w')
    requires step.ClaimEvent? || step.RecoverEvent? ==> w.normalizers == []
    ensures InHand(w')
  {
    if step.ClaimEvent? && step.claimed.Some? { assert step.claimed.value.id in ReceivedKeys(w.db); }
  }

  lemma StepKeepsInHand(site: Site, w: World, step: Step, w': World)
    requires Ready(w, site.lib) && InHand(w) && Next(site, w, step, w')
    requires step.Intake? && (step.i.ClaimEvent? || step.i.RecoverEvent?) ==> w.normalizers == []
    ensures InHand(w')
  {
    match step
    case Crm(c) => CrmFrame(site, w, c, w');
    case Intake(i) => IntakeKeepsInHand(site, w, i, w');
    case Notify(n) => NotifyFrame(site, w, n, w');
    case Outside(o) => OutsideFrame(w, o, w');
  }

  lemma {:induction false} SequentialRunsHoldOne(site: Site, r: Run)
    requires Valid(site, r) && Sequential(r)
    ensures InHand(r.w)
  {
    if r.Then? {
      LastStep(site, r);
      SequentialRunsHoldOne(site, r.before);
      RunsAreReady(site, r.before);
      StepKeepsInHand(site, r.before.w, r.step, r.w);
    }
  }

  /** What a normalization of this verdict does when nothing has interfered. */
  function PlainOutcome(verdict: Verdict, nextLeadId: nat): Result<NormalizationOutcome, NormalizationError> {
    match verdict
    case Raised => Err(PayloadRaised)
    case Rejected(fault) => Ok(NewFailure(fault))
    case Accepted(_) =>
      if nextLeadId > Reference.MAX_BIGINT then Err(SequenceExhausted) else Ok(NewLead(nextLeadId))
  }

  lemma InHandOutcome(
      site: Site, w: World, k: nat, result: Result<NormalizationOutcome, NormalizationError>, w': World)
    requires Ready(w, site.lib) && InHand(w) && IntakeNext(site, w, Normalize(k, result), w')
    ensures w.normalizers[k].id in w.db.events
    ensures result == PlainOutcome(VerdictOf(w.db.events[w.normalizers[k].id], site.lib), w.db.nextLeadId)
  {
    assert k == 0;
    NormalizeOutcome(site, w, k, result, w');
    UnfinishedHasNoLead(w, w.normalizers[0].id, site.lib);
  }

  /** With one worker a normalization ends as its event's content dictates, even after crashes:
      no state error is raised. */
  lemma SequentialNormalizationFollowsItsVerdict(site: Site, r: Run)
    requires Valid(site, r) && Sequential(r) && r.Then? && r.step.Intake? && r.step.i.Normalize?
    ensures var w, k := r.before.w, r.step.i.k;
      && k < |w.normalizers| && w.normalizers[k].id in w.db.events
      && r.step.i.result == PlainOutcome(VerdictOf(w.db.events[w.normalizers[k].id], site.lib), w.db.nextLeadId)
  {
    LastStep(site, r);
    SequentialRunsHoldOne(site, r.before);
    RunsAreReady(site, r.before);
    InHandOutcome(site, r.before.w, r.step.i.k, r.step.i.result, r.w);
  }
}
