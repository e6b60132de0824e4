/** What a stored CRM record id means, in runs where HubSpot's answers are truthful. */
module RecordSoundness {
  import opened Schema
  import opened HubSpot
  import opened CrmDelivery
  import opened System
  import opened DeliverySafety
  import opened DeliveryProgress

  // ---------- truthful answers ----------

  /** A FOUND answer names an existing contact and quotes its properties. */
  ghost predicate TruthfulRead(hub: Hub, read: ReadResult) {
    read.category == Found && read.contactId.Some? ==>
      && read.contactId.value in hub.contacts
      && (ReferenceProperty in read.properties ==>
           read.properties[ReferenceProperty] == hub.contacts[read.contactId.value].reference)
      && (EmailProperty in read.properties ==>
           read.properties[EmailProperty] == hub.contacts[read.contactId.value].email)
  }

  /** A 2xx with an id names the contact that this very request made. */
  ghost predicate TruthfulCreate(w: World, response: RawCreate) {
    var result := ClassifyCreate(response);
    result.category == CreateSuccess && result.contactId.Some? && w.phase.Calling? && w.phase.call < |w.hub.calls| ==>
      w.hub.calls[w.phase.call].fate == Landed(result.contactId.value)
  }

  ghost predicate TruthfulStep(w: World, step: Step) {
    match step
    case Crm(CreateOutcome(response)) => TruthfulCreate(w, response)
    case Crm(FollowUpRead(raw)) => TruthfulRead(w.hub, ClassifyRead(raw))
    case Crm(EvidenceRead(raw)) => TruthfulRead(w.hub, ClassifyRead(raw))
    case _ => true
  }

  ghost predicate Truthful(r: Run) {
    r.Then? ==> Truthful(r.before) && TruthfulStep(r.before.w, r.step)
  }

  // ---------- invariants ----------

  ghost predicate Carries(hub: Hub, contactId: string, reference: string) {
    contactId in hub.contacts && hub.contacts[contactId].reference == Some(reference)
  }

  /** The contact carried this e-mail at some moment so far. */
  ghost predicate Carried(hub: Hub, contactId: string, email: string) {
    contactId in hub.contacts && email in hub.contacts[contactId].everEmails
  }

  /** The contact has the lead's reference, and carried its e-mail when the lead has one. */
  ghost predicate Stands(hub: Hub, contactId: string, contact: ContactInput) {
    && Carries(hub, contactId, contact.integrationReference)
    && (contact.email.Some? ==> Carried(hub, contactId, contact.email.value))
  }

  ghost predicate RowRecorded(hub: Hub, l: Lead) {
    && (l.crm.status == Success ==>
         l.crm.crmRecordId.Some? && Stands(hub, l.crm.crmRecordId.value, l.identity.contact))
    && (l.crm.status == ExistingContact ==>
         l.crm.crmRecordId.Some? && l.identity.contact.email.Some?
         && Carried(hub, l.crm.crmRecordId.value, l.identity.contact.email.value))
  }

  ghost predicate RowsRecorded(hub: Hub, leads: Leads) { forall id | id in leads :: RowRecorded(hub, leads[id]) }

  ghost predicate HubOk(hub: Hub) {
    && (forall c | c in hub.contacts :: EmailSet(hub.contacts[c].email) <= hub.contacts[c].everEmails)
    && (forall k | 0 <= k < |hub.calls| && hub.calls[k].fate.Landed? ::
         Stands(hub, hub.calls[k].fate.contactId, hub.calls[k].contact))
  }

  /** What the worker holds in memory is backed by contacts. */
  ghost predicate HeldRecord(hub: Hub, leads: Leads, phase: Phase) {
    match phase
    case HoldingCreate(lead, result) =>
      lead in leads && result.category == CreateSuccess && result.contactId.Some? ==>
        && Strip(result.contactId.value) == result.contactId.value
        && Stands(hub, result.contactId.value, leads[lead].identity.contact)
    case HoldingDecision(lead, Existing(contactId)) =>
      lead in leads ==>
        leads[lead].identity.contact.email.Some? && Carried(hub, contactId, leads[lead].identity.contact.email.value)
    case HoldingEvidence(lead, read) =>
      read.category == Found && read.contactId.Some? ==>
        && Strip(read.contactId.value) == read.contactId.value
        && read.contactId.value in hub.contacts
        && (ReferenceProperty in read.properties ==>
             read.properties[ReferenceProperty] == hub.contacts[read.contactId.value].reference)
        && (EmailProperty in read.properties && read.properties[EmailProperty].Some? ==>
             Carried(hub, read.contactId.value, read.properties[EmailProperty].value))
    case _ => true
  }

  ghost predicate Recorded(w: World) {
    HubOk(w.hub) && RowsRecorded(w.hub, w.db.leads) && HeldRecord(w.hub, w.db.leads, w.phase)
  }

  /** Contacts are only added, references are immutable, and past e-mails are remembered. */
  ghost predicate HubGrows(hub: Hub, hub': Hub) {
    forall c | c in hub.contacts ::
      && c in hub'.contacts && hub'.contacts[c].reference == hub.contacts[c].reference
      && hub.contacts[c].everEmails <= hub'.contacts[c].everEmails
  }

  lemma GrowthKeeps(hub: Hub, hub': Hub, leads: Leads, phase: Phase)
    requires HubGrows(hub, hub') && RowsRecorded(hub, leads) && HeldRecord(hub, leads, phase)
    ensures RowsRecorded(hub', leads) && HeldRecord(hub', leads, phase)
  {
    forall id | id in leads ensures RowRecorded(hub', leads[id]) { assert RowRecorded(hub, leads[id]); }
  }

  lemma HubStep(w: World, step: OutsideStep, w': World)
    requires HubOk(w.hub) && OutsideNext(w, step, w')
    ensures HubOk(w'.hub) && HubGrows(w.hub, w'.hub)
  {
    match step
    case Land(call, contactId) => LandHub(w.hub, call, contactId);
    case AddContact(contactId, contact) =>
    case EditEmail(contactId, email) =>
    case Archive(contactId) =>
    case _ =>
  }

  lemma LandHub(hub: Hub, call: nat, contactId: string)
    requires HubOk(hub) && call < |hub.calls| && contactId !in hub.contacts
    ensures var c := hub.calls[call].contact;
      var hub' := SetFate(hub, call, Landed(contactId)).(contacts :=
        hub.contacts[contactId := Contact(Some(c.integrationReference), c.email, EmailSet(c.email), false)]);
      HubOk(hub') && HubGrows(hub, hub')
  {
  }

  lemma OutsideKeepsRecords(w: World, step: OutsideStep, w': World)
    requires Recorded(w) && OutsideNext(w, step, w')
    ensures Recorded(w')
  {
    HubStep(w, step, w');
    GrowthKeeps(w.hub, w'.hub, w.db.leads, w.phase);
    assert w'.db.leads == w.db.leads;
  }

  /** Rewriting the delivery columns of one row. */
  lemma UpdateRecords(hub: Hub, leads: Leads, id: nat, d: Delivery)
    requires RowsRecorded(hub, leads) && id in leads && RowRecorded(hub, leads[id].(crm := d))
    ensures RowsRecorded(hub, WithRow(leads, id, d))
  {
    var leads' := WithRow(leads, id, d);
    forall j | j in leads' ensures RowRecorded(hub, leads'[j]) {
      if j != id { assert RowRecorded(hub, leads[j]); }
    }
  }

  // ---------- CRM steps ----------

  lemma PrepareRecords(site: Site, w: World, step: CrmStep, w': World)
    requires Recorded(w) && CrmNext(site, w, step, w') && (step.Prepare? || step.TryClaim?)
    ensures Recorded(w')
  {
    if step.gate.Recovered? {
      assert step.gate.lead in SendingKeys(w.db.leads);
      UpdateRecords(w.hub, w.db.leads, step.gate.lead, w'.db.leads[step.gate.lead].crm);
    } else if step.TryClaim? && step.result.Ok? && step.result.value.Claimed? {
      var id := step.result.value.lead;
      assert id in ClaimableKeys(w.db.leads, w.now);
      UpdateRecords(w.hub, w.db.leads, id, w'.db.leads[id].crm);
    }
  }

  lemma OutcomeRecords(site: Site, w: World, response: RawCreate, w': World)
    requires Recorded(w) && CrmNext(site, w, CreateOutcome(response), w') && TruthfulCreate(w, response)
    requires PhaseOk(w.phase, w.db.leads, w.db.pause.paused, w.now, w.hub.calls)
    requires CallsOk(w.db.leads, w.hub.calls)
    ensures Recorded(w')
  {
    ResendableIffNoContactMade(response);
    GrowthKeeps(w.hub, w'.hub, w.db.leads, w.phase);
    assert HubOk(w'.hub);
  }

  lemma FollowUpRecords(site: Site, w: World, raw: RawRead, w': World)
    requires Recorded(w) && CrmNext(site, w, FollowUpRead(raw), w') && TruthfulRead(w.hub, ClassifyRead(raw))
    requires PhaseOk(w.phase, w.db.leads, w.db.pause.paused, w.now, w.hub.calls)
    ensures Recorded(w')
  {
    var read := ClassifyRead(raw);
    FoundNamesAContact(raw);
    if w.phase.ReadingEmail? && ClassifyConflictByEmail(w.phase.email, read).Existing? {
      var c := w.hub.contacts[read.contactId.value];
      assert EmailSet(c.email) <= c.everEmails;
      assert c.email == Some(w.phase.email);
      assert w.phase.email in EmailSet(c.email);
    }
  }

  lemma CommitRecords(w: World, id: nat, a: Applied, w': World)
    requires Recorded(w) && id in w.db.leads
    requires CommitStep(w, id, Ok((Commit(w.db, id, a, w.now), a.action)), w')
    requires RowRecorded(w.hub, w.db.leads[id].(crm := a.row))
    ensures Recorded(w')
  {
    UpdateRecords(w.hub, w.db.leads, id, a.row);
  }

  lemma CommitCreateRecords(site: Site, w: World, w': World)
    requires Recorded(w) && CrmNext(site, w, CommitCreate, w')
    requires PhaseOk(w.phase, w.db.leads, w.db.pause.paused, w.now, w.hub.calls)
    ensures Recorded(w')
  {
    var id := w.phase.lead;
    var applied := ApplyCreate(w.db.leads[id].crm, w.phase.result, site.settings, site.lib.httpDate, w.now);
    if applied.Ok? { CommitRecords(w, id, applied.value, w'); }
  }

  lemma CommitDecisionRecords(site: Site, w: World, w': World)
    requires Recorded(w) && CrmNext(site, w, CommitDecision, w')
    requires PhaseOk(w.phase, w.db.leads, w.db.pause.paused, w.now, w.hub.calls)
    ensures Recorded(w')
  {
    CommitRecords(w, w.phase.lead, ApplyDecision(w.db.leads[w.phase.lead].crm, w.phase.decision, w.now), w');
  }

  lemma CommitEvidenceRecords(site: Site, w: World, w': World)
    requires Recorded(w) && CrmNext(site, w, CommitEvidence, w')
    requires PhaseOk(w.phase, w.db.leads, w.db.pause.paused, w.now, w.hub.calls)
    ensures Recorded(w')
  {
    var l := w.db.leads[w.phase.lead];
    var applied := ApplyEvidence(l.crm, l.identity.contact, w.phase.read, site.settings, site.lib.httpDate, w.now);
    if applied.Ok? { CommitRecords(w, w.phase.lead, applied.value, w'); }
  }

  lemma SendRecords(site: Site, w: World, w': World)
    requires Recorded(w) && CrmNext(site, w, SendCreate, w')
    ensures Recorded(w')
  {
    GrowthKeeps(w.hub, w'.hub, w.db.leads, w.phase);
    assert HubOk(w'.hub);
  }

  lemma EvidenceReadRecords(site: Site, w: World, raw: RawRead, w': World)
    requires Recorded(w) && CrmNext(site, w, EvidenceRead(raw), w') && TruthfulRead(w.hub, ClassifyRead(raw))
    ensures Recorded(w')
  {
    FoundNamesAContact(raw);
    var read := ClassifyRead(raw);
    if read.category == Found && read.contactId.Some? {
      var c := w.hub.contacts[read.contactId.value];
      assert EmailSet(c.email) <= c.everEmails;
      assert c.email.Some? ==> c.email.value in EmailSet(c.email);
    }
  }

  lemma CrmKeepsRecords(site: Site, w: World, step: CrmStep, w': World)
    requires Safe(w) && Recorded(w) && CrmNext(site, w, step, w') && TruthfulStep(w, Crm(step))
    ensures Recorded(w')
  {
    match step
    case Prepare(_, _) => PrepareRecords(site, w, step, w');
    case TryClaim(_, _) => PrepareRecords(site, w, step, w');
    case SendCreate => SendRecords(site, w, w');
    case CreateOutcome(response) => OutcomeRecords(site, w, response, w');
    case FollowUpRead(raw) => FollowUpRecords(site, w, raw, w');
    case EvidenceRead(raw) => EvidenceReadRecords(site, w, raw, w');
    case CommitCreate => CommitCreateRecords(site, w, w');
    case CommitDecision => CommitDecisionRecords(site, w, w');
    case CommitEvidence => CommitEvidenceRecords(site, w, w');
  }

  // ---------- other steps ----------

  lemma IntakeKeepsRecords(site: Site, w: World, step: IntakeStep, w': World)
    requires Recorded(w) && IntakeNext(site, w, step, w')
    requires PhaseOk(w.phase, w.db.leads, w.db.pause.paused, w.now, w.hub.calls)
    ensures Recorded(w')
  {
    IntakeLeads(site, w, step, w');
    if w'.db.leads != w.db.leads {
      var id := w.db.nextLeadId;
      forall j | j in w'.db.leads ensures RowRecorded(w.hub, w'.db.leads[j]) {
        if j != id { assert RowRecorded(w.hub, w.db.leads[j]); }
      }
    }
  }

  lemma NotifyKeepsRecords(site: Site, w: World, step: NotifyStep, w': World)
    requires Recorded(w) && NotifyNext(site, w, step, w')
    ensures Recorded(w')
  {
    NotifyLeads(site, w, step, w');
    forall j | j in w'.db.leads ensures RowRecorded(w.hub, w'.db.leads[j]) {
      assert RowRecorded(w.hub, w.db.leads[j]);
    }
  }

  lemma StepKeepsRecords(site: Site, w: World, step: Step, w': World)
    requires Safe(w) && Recorded(w) && Next(site, w, step, w') && TruthfulStep(w, step)
    ensures Recorded(w')
  {
    match step
    case Crm(c) => CrmKeepsRecords(site, w, c, w');
    case Intake(i) => IntakeKeepsRecords(site, w, i, w');
    case Notify(n) => NotifyKeepsRecords(site, w, n, w');
    case Outside(o) => OutsideKeepsRecords(w, o, w');
  }

  lemma {:induction false} RunsAreRecorded(site: Site, r: Run)
    requires Valid(site, r) && Truthful(r)
    ensures Safe(r.w) && Recorded(r.w)
  {
    RunsAreSafe(site, r);
    if r.Then? {
      LastStep(site, r);
      RunsAreRecorded(site, r.before);
      StepKeepsRecords(site, r.before.w, r.step, r.w);
    }
  }

  // ---------- references ----------

  /** Every lead carries the reference printed from its own id. */
  ghost predicate RefsOk(leads: Leads) {
    forall id | id in leads :: leads[id].identity.contact.integrationReference == Reference.ReferenceFor(id)
  }

  lemma StepKeepsRefs(site: Site, w: World, step: Step, w': World)
    requires Safe(w) && RefsOk(w.db.leads) && Next(site, w, step, w')
    ensures RefsOk(w'.db.leads)
  {
    match step
    case Crm(c) =>
      CrmMoves(site, w, c, w');
      MovedRefs(w, Mover(w, c), w');
    case Intake(i) => IntakeLeads(site, w, i, w');
    case Notify(n) => NotifyLeads(site, w, n, w');
    case Outside(o) => OutsideLeads(w, o, w');
  }

  lemma MovedRefs(w: World, id: nat, w': World)
    requires RefsOk(w.db.leads) && (Still(w, w') || Moved(w, id, w'))
    ensures RefsOk(w'.db.leads)
  {
  }

  lemma {:induction false} RunRefs(site: Site, r: Run)
    requires Valid(site, r)
    ensures RefsOk(r.w.db.leads)
  {
    if r.Then? {
      LastStep(site, r);
      RunRefs(site, r.before);
      RunsAreSafe(site, r.before);
      StepKeepsRefs(site, r.before.w, r.step, r.w);
    }
  }

  // ---------- the promises ----------

  /** The record id of a SUCCESS lead names a contact that has that lead's reference and carried
      its e-mail, and that of an EXISTING_CONTACT lead names one that carried its e-mail. */
  lemma RecordsAreSound(site: Site, r: Run, id: nat)
    requires Valid(site, r) && Truthful(r) && id in r.w.db.leads
    ensures RowRecorded(r.w.hub, r.w.db.leads[id])
  {
    RunsAreRecorded(site, r);
  }

  /** No two SUCCESS leads share a record id. */
  lemma SuccessRecordsAreDistinct(site: Site, r: Run, i: nat, j: nat)
    requires Valid(site, r) && Truthful(r) && i in r.w.db.leads && j in r.w.db.leads
    requires r.w.db.leads[i].crm.status == Success && r.w.db.leads[j].crm.status == Success
    requires r.w.db.leads[i].crm.crmRecordId == r.w.db.leads[j].crm.crmRecordId
    ensures i == j
  {
    RecordsAreSound(site, r, i);
    RecordsAreSound(site, r, j);
    RunRefs(site, r);
    Reference.ReferencesAreUnique(i, j);
  }
}
