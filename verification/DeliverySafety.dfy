/** What every step of every run keeps: the delivery protocol never lets two create requests
    of one lead take effect, never sends through a closed gate, and never gets stuck. */
module DeliverySafety {
  import opened Schema
  import opened HubSpot
  import opened CrmDelivery
  import opened Normalization
  import opened System

  // ---------- rows ----------

  /** How many more committed reads an UNKNOWN row can absorb. */
  function Patience(d: Delivery): int { 3 * (3 - d.notFound) - d.errors }

  /** One row against its ledger. `writeAttempts` is accounted for exactly; UNKNOWN is entered
      at most once and each committed read uses up at least one of nine units of patience. */
  predicate RowOk(d: Delivery, g: Ledger) {
    && DeliveryChecks(d)
    && d.writeAttempts == d.retries + g.returned + (if Waiting(d.status) then 0 else 1)
    && (d.status == Sending ==> d.lastAttemptAt.Some?)
    && (Waiting(d.status) || d.status == Sending ==> g.uncertain == 0 && g.evidence == 0)
    && (d.status == Unknown || d.status == UnknownEscalated ==> g.uncertain == 1)
    && (d.status == Unknown ==>
         && 0 <= d.notFound <= 2 && 0 <= d.errors <= 2 && g.evidence + Patience(d) <= 9)
    && g.uncertain <= 1 && g.evidence <= 9 && (g.uncertain == 0 ==> g.evidence == 0)
    && (g.uncertain == 1 ==> d.status == Unknown || d.status == Success || d.status == UnknownEscalated)
  }

  lemma ClaimRowOk(d: Delivery, g: Ledger, now: Time)
    requires RowOk(d, g) && Waiting(d.status)
    ensures RowOk(StartSending(d, now), g)
  {
  }

  lemma RecoverRowOk(d: Delivery, g: Ledger, now: Time)
    requires RowOk(d, g) && d.status == Sending
    ensures RowOk(Recover(d, now), g.(uncertain := g.uncertain + 1))
  {
  }

  /** The ledger entry that a committed result leaves behind. */
  function Booked(g: Ledger, before: Delivery, after: Delivery, action: Action): Ledger {
    Ledger(g.returned + (if after.status == Pending then 1 else 0),
           g.uncertain + (if before.status == Sending && after.status == Unknown then 1 else 0),
           g.evidence + (if before.status == Unknown && action != PauseActivated then 1 else 0))
  }

  lemma CreateRowOk(
      d: Delivery, g: Ledger, result: CreateResult, s: Settings, httpDate: DateReader, now: Time)
    requires RowOk(d, g) && d.status == Sending
    requires ApplyCreate(d, result, s, httpDate, now).Ok?
    ensures var a := ApplyCreate(d, result, s, httpDate, now).value;
      && RowOk(a.row, Booked(g, d, a.row, a.action))
      && a.row.status != Sending
      && (a.row.status == Pending <==> a.pause.Some?)
      && (Waiting(a.row.status) ==> ProvesNoContact(result.category))
  {
  }

  lemma DecisionRowOk(d: Delivery, g: Ledger, decision: Decision, now: Time)
    requires RowOk(d, g) && d.status == Sending
    ensures var a := ApplyDecision(d, decision, now);
      && RowOk(a.row, Booked(g, d, a.row, a.action))
      && a.row.status != Sending
      && (a.row.status == Pending <==> a.pause.Some?)
  {
  }

  lemma EvidenceRowOk(
      d: Delivery, g: Ledger, contact: ContactInput, read: ReadResult, s: Settings, httpDate: DateReader,
      now: Time)
    requires RowOk(d, g) && d.status == Unknown && ApplyEvidence(d, contact, read, s, httpDate, now).Ok?
    ensures var a := ApplyEvidence(d, contact, read, s, httpDate, now).value;
      && RowOk(a.row, Booked(g, d, a.row, a.action))
      && a.row.status in {Unknown, Success, UnknownEscalated}
      && (a.pause.Some? <==> a.action == PauseActivated)
      && (a.pause.Some? ==>
           && a.row.status == Unknown && a.row.notFound == d.notFound && a.row.errors == d.errors
           && a.row.nextReconciliationAt == d.nextReconciliationAt)
  {
  }

  ghost predicate RowsOk(leads: Leads, log: CrmLog) {
    && (forall id | id in leads :: RowOk(leads[id].crm, LedgerOf(log, id)))
    && (forall id | id in log.ledgers :: id in leads)
  }

  ghost predicate NoneSending(leads: Leads) { forall id | id in leads :: leads[id].crm.status != Sending }

  ghost predicate NoneDue(leads: Leads, now: Time) { forall id | id in leads :: !IsDueUnknown(leads[id], now) }

  ghost predicate OnlySending(leads: Leads, id: nat) {
    forall j | j in leads && j != id :: leads[j].crm.status != Sending
  }

  ghost predicate SingleSending(leads: Leads) {
    forall id | id in leads && leads[id].crm.status == Sending :: OnlySending(leads, id)
  }

  // ---------- requests ----------

  /** No request for this lead has taken effect or ever can. */
  ghost predicate NoLiveCall(calls: seq<Call>, lead: nat) {
    forall k | 0 <= k < |calls| :: calls[k].lead == lead ==> calls[k].fate == Refused
  }

  /** Every other request for the lead of request `i` is refused. */
  ghost predicate OthersRefused(calls: seq<Call>, i: nat)
    requires i < |calls|
  {
    forall j | 0 <= j < |calls| && j != i :: calls[j].lead == calls[i].lead ==> calls[j].fate == Refused
  }

  /** At most one request per lead has taken effect or ever can. */
  ghost predicate AtMostOneLiveCall(calls: seq<Call>) {
    forall i | 0 <= i < |calls| && calls[i].fate != Refused :: OthersRefused(calls, i)
  }

  ghost predicate CallsOk(leads: Leads, calls: seq<Call>) {
    && AtMostOneLiveCall(calls)
    && (forall k | 0 <= k < |calls| ::
         calls[k].lead in leads && calls[k].contact == leads[calls[k].lead].identity.contact)
    && (forall id | id in leads :: Waiting(leads[id].crm.status) ==> NoLiveCall(calls, id))
  }

  // ---------- the gate and the worker ----------

  /** The gate as it stood when this lead was claimed still stands. */
  ghost predicate GateHeld(leads: Leads, paused: bool, now: Time, lead: nat) {
    lead in leads && leads[lead].crm.status == Sending && !paused && NoneDue(leads, now)
  }

  ghost predicate ReadHeld(leads: Leads, paused: bool, lead: nat) {
    lead in leads && leads[lead].crm.status == Unknown && !paused && NoneSending(leads)
  }

  predicate UsableResult(r: CreateResult) {
    && r.category != BadRequestRequiresClassification && r.category != ConflictRequiresLookup
    && (r.category == CreateSuccess ==> r.contactId.Some? && Strip(r.contactId.value) != [])
  }

  ghost predicate PhaseOk(phase: Phase, leads: Leads, paused: bool, now: Time, calls: seq<Call>) {
    match phase
    case Idle => true
    case ClaimedCreate(lead, contact) =>
      GateHeld(leads, paused, now, lead) && contact == leads[lead].identity.contact && NoLiveCall(calls, lead)
    case Calling(lead, contact, call) =>
      && GateHeld(leads, paused, now, lead) && contact == leads[lead].identity.contact
      && call < |calls| && calls[call].lead == lead && calls[call].fate != Refused
    case ReadingAfter400(lead, contact) =>
      GateHeld(leads, paused, now, lead) && contact == leads[lead].identity.contact && NoLiveCall(calls, lead)
    case ReadingAfter409(lead, contact) =>
      GateHeld(leads, paused, now, lead) && contact == leads[lead].identity.contact && NoLiveCall(calls, lead)
    case ReadingEmail(lead, email) =>
      GateHeld(leads, paused, now, lead) && Some(email) == leads[lead].identity.contact.email && NoLiveCall(calls, lead)
    case HoldingCreate(lead, result) =>
      && GateHeld(leads, paused, now, lead) && UsableResult(result)
      && (ProvesNoContact(result.category) ==> NoLiveCall(calls, lead))
    case HoldingDecision(lead, _) => GateHeld(leads, paused, now, lead) && NoLiveCall(calls, lead)
    case Reconciling(lead) => ReadHeld(leads, paused, lead)
    case HoldingEvidence(lead, _) => ReadHeld(leads, paused, lead)
  }

  /** Pauses, clears and pause returns balance. */
  ghost predicate PauseOk(pause: Pause, log: CrmLog) {
    && PauseChecks(pause)
    && |log.episodes| == log.clears + (if pause.paused then 1 else 0)
    && log.pauseReturns <= |log.episodes|
  }

  ghost predicate LeadsOk(leads: Leads, log: CrmLog, calls: seq<Call>) {
    && RowsOk(leads, log) && SingleSending(leads) && CallsOk(leads, calls)
  }

  ghost predicate Safe(w: World) {
    && LeadsOk(w.db.leads, w.crm, w.hub.calls)
    && PhaseOk(w.phase, w.db.leads, w.db.pause.paused, w.now, w.hub.calls)
    && PauseOk(w.db.pause, w.crm)
  }

  function WithRow(leads: Leads, id: nat, d: Delivery): Leads
    requires id in leads
  {
    leads[id := leads[id].(crm := d)]
  }

  lemma UpdateRows(leads: Leads, log: CrmLog, id: nat, d: Delivery, g: Ledger, log': CrmLog)
    requires RowsOk(leads, log) && id in leads && RowOk(d, g)
    requires log'.ledgers == log.ledgers[id := g] || (log'.ledgers == log.ledgers && g == LedgerOf(log, id))
    ensures RowsOk(WithRow(leads, id, d), log')
  {
    var leads' := WithRow(leads, id, d);
    forall j | j in leads' ensures RowOk(leads'[j].crm, LedgerOf(log', j)) {
      if j != id { assert RowOk(leads[j].crm, LedgerOf(log, j)); }
    }
  }

  lemma UpdateSending(leads: Leads, id: nat, d: Delivery)
    requires SingleSending(leads) && id in leads
    requires d.status == Sending ==> NoneSending(leads)
    ensures SingleSending(WithRow(leads, id, d))
  {
    var leads' := WithRow(leads, id, d);
    forall i | i in leads' && leads'[i].crm.status == Sending ensures OnlySending(leads', i) {
      assert i != id ==> OnlySending(leads, i);
    }
  }

  lemma UpdateCalls(leads: Leads, calls: seq<Call>, id: nat, d: Delivery)
    requires CallsOk(leads, calls) && id in leads
    requires Waiting(d.status) ==> NoLiveCall(calls, id)
    ensures CallsOk(WithRow(leads, id, d), calls)
  {
    var leads' := WithRow(leads, id, d);
    forall j | j in leads' && Waiting(leads'[j].crm.status) ensures NoLiveCall(calls, j) {
      if j != id { assert leads'[j] == leads[j]; }
    }
  }

  /** Rewriting the delivery columns of one row. */
  lemma UpdateKeeps(leads: Leads, log: CrmLog, calls: seq<Call>, id: nat, d: Delivery, g: Ledger, log': CrmLog)
    requires LeadsOk(leads, log, calls) && id in leads && RowOk(d, g)
    requires log'.ledgers == log.ledgers[id := g] || (log'.ledgers == log.ledgers && g == LedgerOf(log, id))
    requires d.status == Sending ==> NoneSending(leads)
    requires Waiting(d.status) ==> NoLiveCall(calls, id)
    ensures LeadsOk(WithRow(leads, id, d), log', calls)
  {
    UpdateRows(leads, log, id, d, g, log');
    UpdateCalls(leads, calls, id, d);
    UpdateSending(leads, id, d);
  }

  // ---------- selection ----------

  lemma SelectionMeaning(leads: Leads, now: Time)
    ensures SendingKeys(leads) == map[] <==> NoneSending(leads)
    ensures DueUnknownKeys(leads, now) == map[] <==> NoneDue(leads, now)
  {
    if SendingKeys(leads) == map[] {
      forall id | id in leads ensures leads[id].crm.status != Sending { assert id !in SendingKeys(leads); }
    }
    if DueUnknownKeys(leads, now) == map[] {
      forall id | id in leads ensures !IsDueUnknown(leads[id], now) { assert id !in DueUnknownKeys(leads, now); }
    }
  }

  // ---------- CRM steps ----------

  lemma GateKeeps(leads: Leads, log: CrmLog, calls: seq<Call>, lease: int, now: Time, leads': Leads, gate: Gate)
    requires LeadsOk(leads, log, calls) && GateTransaction(leads, lease, now, leads', gate)
    ensures LeadsOk(leads', LogGate(log, gate), calls)
    ensures !gate.Blocked? ==> NoneSending(leads')
    ensures gate.Clear? ==> leads' == leads
  {
    SelectionMeaning(leads, now);
    if gate.Recovered? {
      var d := leads[gate.lead].crm;
      assert d.status == Sending;
      var g := LedgerOf(log, gate.lead);
      RecoverRowOk(d, g, now);
      assert OnlySending(leads, gate.lead);
      UpdateKeeps(leads, log, calls, gate.lead, Recover(d, now), g.(uncertain := g.uncertain + 1), LogGate(log, gate));
    }
  }

  lemma PrepareKeeps(site: Site, w: World, gate: Gate, candidate: Option<nat>, w': World)
    requires Safe(w) && CrmNext(site, w, Prepare(gate, candidate), w')
    ensures Safe(w')
  {
    GateKeeps(w.db.leads, w.crm, w.hub.calls, site.settings.leaseSeconds, w.now, w'.db.leads, gate);
    SelectionMeaning(w'.db.leads, w.now);
    if candidate.Some? { assert candidate.value in DueUnknownKeys(w'.db.leads, w.now); }
  }

  lemma ClaimedKeeps(leads: Leads, log: CrmLog, calls: seq<Call>, id: nat, now: Time, log': CrmLog)
    requires LeadsOk(leads, log, calls) && id in leads && Waiting(leads[id].crm.status)
    requires NoneSending(leads) && NoneDue(leads, now) && log'.ledgers == log.ledgers
    ensures var leads' := WithRow(leads, id, StartSending(leads[id].crm, now));
      LeadsOk(leads', log', calls) && NoneDue(leads', now) && NoLiveCall(calls, id)
  {
    ClaimRowOk(leads[id].crm, LedgerOf(log, id), now);
    UpdateKeeps(leads, log, calls, id, StartSending(leads[id].crm, now), LedgerOf(log, id), log');
  }

  lemma TryClaimKeeps(site: Site, w: World, gate: Gate, result: Result<Claim, DeliveryError>, w': World)
    requires Safe(w) && CrmNext(site, w, TryClaim(gate, result), w')
    ensures Safe(w')
  {
    var leads, calls := w.db.leads, w.hub.calls;
    var gated := if gate.Recovered? then w'.db.leads else leads;
    GateKeeps(leads, w.crm, calls, site.settings.leaseSeconds, w.now, gated, gate);
    SelectionMeaning(leads, w.now);
    if result.Ok? && result.value.Claimed? {
      var id := result.value.lead;
      assert id in ClaimableKeys(leads, w.now);
      ClaimedKeeps(leads, w.crm, calls, id, w.now, w'.crm);
    }
  }

  lemma SendCreateKeeps(site: Site, w: World, w': World)
    requires Safe(w) && CrmNext(site, w, SendCreate, w')
    ensures Safe(w')
  {
    var lead, calls, calls' := w.phase.lead, w.hub.calls, w'.hub.calls;
    assert forall id | id != lead && NoLiveCall(calls, id) :: NoLiveCall(calls', id);
    assert AtMostOneLiveCall(calls');
    assert CallsOk(w.db.leads, calls');
  }

  lemma HeardKeeps(leads: Leads, hub: Hub, call: nat, raw: RawCreate)
    requires CallsOk(leads, hub.calls) && call < |hub.calls| && hub.calls[call].fate != Refused
    ensures var calls' := Heard(hub, call, raw).calls;
      CallsOk(leads, calls') && (NoContactMade(raw) ==> NoLiveCall(calls', hub.calls[call].lead))
  {
    var calls, calls' := hub.calls, Heard(hub, call, raw).calls;
    assert OthersRefused(calls, call);
    assert forall id | NoLiveCall(calls, id) :: NoLiveCall(calls', id);
    forall i | 0 <= i < |calls'| && calls'[i].fate != Refused ensures OthersRefused(calls', i) {
      assert OthersRefused(calls, i);
    }
  }

  lemma CreateOutcomeKeeps(site: Site, w: World, response: RawCreate, w': World)
    requires Safe(w) && CrmNext(site, w, CreateOutcome(response), w')
    ensures Safe(w')
  {
    ResendableIffNoContactMade(response);
    HeardKeeps(w.db.leads, w.hub, w.phase.call, response);
  }

  /** A committed result leaves the worker idle. */
  lemma CommitKeeps(w: World, id: nat, a: Applied, w': World)
    requires Safe(w) && id in w.db.leads && !w.db.pause.paused
    requires CommitStep(w, id, Ok((Commit(w.db, id, a, w.now), a.action)), w')
    requires RowOk(a.row, Booked(LedgerOf(w.crm, id), w.db.leads[id].crm, a.row, a.action))
    requires a.row.status != Sending
    requires a.row.status == Pending ==> a.pause.Some?
    requires Waiting(a.row.status) ==> NoLiveCall(w.hub.calls, id)
    ensures Safe(w')
  {
    var g := Booked(LedgerOf(w.crm, id), w.db.leads[id].crm, a.row, a.action);
    UpdateKeeps(w.db.leads, w.crm, w.hub.calls, id, a.row, g, w'.crm);
  }

  lemma CommitCreateKeeps(site: Site, w: World, w': World)
    requires Safe(w) && CrmNext(site, w, CommitCreate, w')
    ensures Safe(w')
  {
    var id, result := w.phase.lead, w.phase.result;
    var d := w.db.leads[id].crm;
    var applied := ApplyCreate(d, result, site.settings, site.lib.httpDate, w.now);
    if applied.Ok? {
      CreateRowOk(d, LedgerOf(w.crm, id), result, site.settings, site.lib.httpDate, w.now);
      CommitKeeps(w, id, applied.value, w');
    }
  }

  lemma CommitDecisionKeeps(site: Site, w: World, w': World)
    requires Safe(w) && CrmNext(site, w, CommitDecision, w')
    ensures Safe(w')
  {
    var id := w.phase.lead;
    DecisionRowOk(w.db.leads[id].crm, LedgerOf(w.crm, id), w.phase.decision, w.now);
    CommitKeeps(w, id, ApplyDecision(w.db.leads[id].crm, w.phase.decision, w.now), w');
  }

  lemma CommitEvidenceKeeps(site: Site, w: World, w': World)
    requires Safe(w) && CrmNext(site, w, CommitEvidence, w')
    ensures Safe(w')
  {
    var id := w.phase.lead;
    var lead := w.db.leads[id];
    var s, httpDate, contact, read := site.settings, site.lib.httpDate, lead.identity.contact, w.phase.read;
    var applied := ApplyEvidence(lead.crm, contact, read, s, httpDate, w.now);
    if applied.Ok? {
      EvidenceRowOk(lead.crm, LedgerOf(w.crm, id), contact, read, s, httpDate, w.now);
      CommitKeeps(w, id, applied.value, w');
    }
  }

  /** A classification or evidence read touches only the worker's memory. */
  lemma ReadKeeps(site: Site, w: World, step: CrmStep, w': World)
    requires Safe(w) && CrmNext(site, w, step, w') && (step.FollowUpRead? || step.EvidenceRead?)
    ensures Safe(w')
  {
  }

  lemma CrmKeeps(site: Site, w: World, step: CrmStep, w': World)
    requires Safe(w) && CrmNext(site, w, step, w')
    ensures Safe(w')
  {
    match step
    case Prepare(gate, candidate) => PrepareKeeps(site, w, gate, candidate, w');
    case TryClaim(gate, result) => TryClaimKeeps(site, w, gate, result, w');
    case SendCreate => SendCreateKeeps(site, w, w');
    case CreateOutcome(response) => CreateOutcomeKeeps(site, w, response, w');
    case FollowUpRead(raw) => ReadKeeps(site, w, step, w');
    case CommitCreate => CommitCreateKeeps(site, w, w');
    case CommitDecision => CommitDecisionKeeps(site, w, w');
    case EvidenceRead(raw) => ReadKeeps(site, w, step, w');
    case CommitEvidence => CommitEvidenceKeeps(site, w, w');
  }

  // ---------- every other step ----------

  /** Intake leaves the leads alone or inserts one fresh PENDING row. */
  lemma IntakeLeads(site: Site, w: World, step: IntakeStep, w': World)
    requires IntakeNext(site, w, step, w')
    ensures w'.db.pause == w.db.pause
    ensures w' == w.(db := w'.db, normalizers := w'.normalizers)
    ensures w'.db.leads != w.db.leads ==>
      (step.Normalize? && step.result == Ok(NewLead(w.db.nextLeadId)) && w.db.nextLeadId !in w.db.leads
       && exists stored, data ::
         w'.db.leads == w.db.leads[w.db.nextLeadId := NewLeadRow(stored, data, w.db.nextLeadId, w.clock)])
  {
    if step.Normalize? && w'.db.leads != w.db.leads {
      var stored := w.normalizers[step.k];
      var data := NormalizePayload(stored.source, stored.eventId, stored.payload, site.lib);
      assert w'.db == InsertLead(w.db, stored, data.data, w.clock);
    }
  }

  lemma InsertKeeps(leads: Leads, log: CrmLog, calls: seq<Call>, id: nat, row: Lead)
    requires LeadsOk(leads, log, calls) && id !in leads && row.crm == NEW_DELIVERY
    ensures LeadsOk(leads[id := row], log, calls)
  {
    var leads' := leads[id := row];
    forall j | j in leads' ensures RowOk(leads'[j].crm, LedgerOf(log, j)) {
      if j != id { assert leads'[j] == leads[j]; }
    }
    forall j | j in leads' && leads'[j].crm.status == Sending ensures OnlySending(leads', j) {
      assert OnlySending(leads, j);
    }
    forall j | j in leads' && Waiting(leads'[j].crm.status) ensures NoLiveCall(calls, j) {
      if j != id { assert leads'[j] == leads[j]; }
    }
  }

  lemma InsertKeepsPhase(phase: Phase, leads: Leads, paused: bool, now: Time, calls: seq<Call>, id: nat, row: Lead)
    requires PhaseOk(phase, leads, paused, now, calls) && id !in leads && row.crm == NEW_DELIVERY
    ensures PhaseOk(phase, leads[id := row], paused, now, calls)
  {
    var leads' := leads[id := row];
    assert NoneDue(leads, now) ==> NoneDue(leads', now);
    assert NoneSending(leads) ==> NoneSending(leads');
  }

  lemma IntakeKeeps(site: Site, w: World, step: IntakeStep, w': World)
    requires Safe(w) && IntakeNext(site, w, step, w')
    ensures Safe(w')
  {
    IntakeLeads(site, w, step, w');
    if w'.db.leads != w.db.leads {
      var id := w.db.nextLeadId;
      InsertKeeps(w.db.leads, w.crm, w.hub.calls, id, w'.db.leads[id]);
      InsertKeepsPhase(w.phase, w.db.leads, w.db.pause.paused, w.now, w.hub.calls, id, w'.db.leads[id]);
    }
  }

  /** Only notification columns differ. */
  ghost predicate SameDelivery(leads: Leads, leads': Leads) {
    && leads'.Keys == leads.Keys
    && forall id | id in leads :: leads'[id].crm == leads[id].crm && leads'[id].identity == leads[id].identity
  }

  lemma SameDeliveryKeeps(w: World, leads': Leads)
    requires Safe(w) && SameDelivery(w.db.leads, leads')
    ensures LeadsOk(leads', w.crm, w.hub.calls)
    ensures PhaseOk(w.phase, leads', w.db.pause.paused, w.now, w.hub.calls)
  {
    var leads := w.db.leads;
    assert forall id | id in leads' :: id in leads;
    assert RowsOk(leads', w.crm);
    forall j | j in leads' && leads'[j].crm.status == Sending ensures OnlySending(leads', j) {
      assert OnlySending(leads, j);
    }
    assert CallsOk(leads', w.hub.calls);
    assert NoneDue(leads, w.now) ==> NoneDue(leads', w.now);
    assert NoneSending(leads) ==> NoneSending(leads');
  }

  lemma NotifyLeads(site: Site, w: World, step: NotifyStep, w': World)
    requires NotifyNext(site, w, step, w')
    ensures SameDelivery(w.db.leads, w'.db.leads)
    ensures w'.db.pause.paused == w.db.pause.paused
    ensures w'.db.pause.reason == w.db.pause.reason && w'.db.pause.pausedAt == w.db.pause.pausedAt
    ensures w'.phase == w.phase && w'.now == w.now && w'.hub == w.hub
    ensures w'.crm == w.crm.(faults := w'.crm.faults)
    ensures PauseChecks(w.db.pause) ==> w'.crm == w.crm
  {
    NotifyRows(site, w, step, w');
    NotifyPause(site, w, step, w');
  }

  lemma NotifyRows(site: Site, w: World, step: NotifyStep, w': World)
    requires NotifyNext(site, w, step, w')
    ensures SameDelivery(w.db.leads, w'.db.leads)
  {
    if step.Finish? { FinishRows(site, w, w'); }
  }

  lemma FinishRows(site: Site, w: World, w': World)
    requires NotifyNext(site, w, Finish, w')
    ensures SameDelivery(w.db.leads, w'.db.leads)
  {
  }

  lemma NotifyPause(site: Site, w: World, step: NotifyStep, w': World)
    requires NotifyNext(site, w, step, w')
    ensures w'.db.pause.paused == w.db.pause.paused
    ensures w'.db.pause.reason == w.db.pause.reason && w'.db.pause.pausedAt == w.db.pause.pausedAt
    ensures w'.phase == w.phase && w'.now == w.now && w'.hub == w.hub
    ensures w'.crm == w.crm.(faults := w'.crm.faults)
    ensures PauseChecks(w.db.pause) ==> w'.crm == w.crm
  {
  }

  lemma NotifyKeeps(site: Site, w: World, step: NotifyStep, w': World)
    requires Safe(w) && NotifyNext(site, w, step, w')
    ensures Safe(w')
  {
    NotifyLeads(site, w, step, w');
    SameDeliveryKeeps(w, w'.db.leads);
  }

  lemma LandKeeps(leads: Leads, calls: seq<Call>, call: nat, contactId: string)
    requires CallsOk(leads, calls) && call < |calls| && calls[call].fate == InFlight
    ensures var calls' := calls[call := calls[call].(fate := Landed(contactId))];
      && CallsOk(leads, calls')
      && forall id :: NoLiveCall(calls, id) ==> NoLiveCall(calls', id)
  {
    var calls' := calls[call := calls[call].(fate := Landed(contactId))];
    assert OthersRefused(calls, call);
    forall id | NoLiveCall(calls, id) ensures NoLiveCall(calls', id) {
      assert id != calls[call].lead;
    }
    forall i | 0 <= i < |calls'| && calls'[i].fate != Refused ensures OthersRefused(calls', i) {
      assert OthersRefused(calls, i);
    }
  }

  lemma OutsideLeads(w: World, step: OutsideStep, w': World)
    requires OutsideNext(w, step, w')
    ensures w'.db.leads == w.db.leads
  {
  }

  lemma OutsideKeeps(w: World, step: OutsideStep, w': World)
    requires Safe(w) && OutsideNext(w, step, w')
    ensures Safe(w')
  {
    if step.Land? { LandKeeps(w.db.leads, w.hub.calls, step.call, step.contactId); }
  }

  lemma StepKeeps(site: Site, w: World, step: Step, w': World)
    requires Safe(w) && Next(site, w, step, w')
    ensures Safe(w')
  {
    match step
    case Crm(c) => CrmKeeps(site, w, c, w');
    case Intake(i) => IntakeKeeps(site, w, i, w');
    case Notify(n) => NotifyKeeps(site, w, n, w');
    case Outside(o) => OutsideKeeps(w, o, w');
  }

  lemma InitialSafe(w: World)
    requires Init(w)
    ensures Safe(w)
  {
  }

  lemma {:induction false} RunsAreSafe(site: Site, r: Run)
    requires Valid(site, r)
    ensures Safe(r.w)
  {
    match r
    case Start(w) => InitialSafe(w);
    case Then(before, step, w) =>
      LastStep(site, r);
      RunsAreSafe(site, before);
      StepKeeps(site, before.w, step, w);
  }
}
