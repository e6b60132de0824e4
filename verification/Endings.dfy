/** How a lead leaves SENDING: by the answer to its own last request, or when its lease is over. */
module Endings {
  import opened Schema
  import opened HubSpot
  import opened System
  import opened DeliverySafety
  import opened Verdicts
  import opened Selections

  // ---------- what the worker holds ----------

  /** The last request ever sent is for this lead. */
  predicate LastIsFor(calls: seq<Call>, lead: nat) { calls != [] && calls[|calls| - 1].lead == lead }

  /** What the client reported on the last request. */
  function LastAnswer(calls: seq<Call>): Option<RawCreate> {
    if calls == [] then None else calls[|calls| - 1].answer
  }

  predicate AnsweredWith(calls: seq<Call>, lead: nat, statuses: set<int>) {
    LastIsFor(calls, lead) && LastAnswer(calls).Some? && Status(LastAnswer(calls).value, statuses)
  }

  /** The worker's memory is about the last request, and about the answer to it. */
  predicate HandOk(phase: Phase, calls: seq<Call>) {
    match phase
    case Calling(lead, _, call) => LastIsFor(calls, lead) && call == |calls| - 1
    case ReadingAfter400(lead, _) => AnsweredWith(calls, lead, {400})
    case ReadingAfter409(lead, _) => AnsweredWith(calls, lead, {409})
    case ReadingEmail(lead, _) => AnsweredWith(calls, lead, {409})
    case HoldingCreate(lead, result) =>
      && LastIsFor(calls, lead) && LastAnswer(calls).Some? && result == ClassifyCreate(LastAnswer(calls).value)
    case HoldingDecision(lead, _) => AnsweredWith(calls, lead, {400, 409})
    case _ => true
  }

  lemma CrmKeepsHand(site: Site, w: World, step: CrmStep, w': World)
    requires HandOk(w.phase, w.hub.calls) && CrmNext(site, w, step, w')
    ensures HandOk(w'.phase, w'.hub.calls)
  {
    match step
    case CreateOutcome(raw) => OutcomeKeepsHand(site, w, raw, w');
    case FollowUpRead(raw) => ReadKeepsHand(site, w, raw, w');
    case _ =>
  }

  lemma OutcomeKeepsHand(site: Site, w: World, raw: RawCreate, w': World)
    requires HandOk(w.phase, w.hub.calls) && CrmNext(site, w, CreateOutcome(raw), w')
    ensures HandOk(w'.phase, w'.hub.calls)
  {
    CreateCategories(raw);
  }

  lemma ReadKeepsHand(site: Site, w: World, raw: RawRead, w': World)
    requires HandOk(w.phase, w.hub.calls) && CrmNext(site, w, FollowUpRead(raw), w')
    ensures HandOk(w'.phase, w'.hub.calls)
  {
  }

  /** Requests are appended, and their leads and answers stay. */
  lemma OutsideKeepsHand(w: World, step: OutsideStep, w': World)
    requires HandOk(w.phase, w.hub.calls) && OutsideNext(w, step, w')
    ensures HandOk(w'.phase, w'.hub.calls)
  {
  }

  lemma StepKeepsHand(site: Site, w: World, step: Step, w': World)
    requires HandOk(w.phase, w.hub.calls) && Next(site, w, step, w')
    ensures HandOk(w'.phase, w'.hub.calls)
  {
    match step
    case Crm(c) => CrmKeepsHand(site, w, c, w');
    case Intake(i) => IntakeLeads(site, w, i, w');
    case Notify(n) => NotifyLeads(site, w, n, w');
    case Outside(o) => OutsideKeepsHand(w, o, w');
  }

  lemma {:induction false} RunHands(site: Site, r: Run)
    requires Valid(site, r)
    ensures Safe(r.w) && HandOk(r.w.phase, r.w.hub.calls)
  {
    RunsAreSafe(site, r);
    if r.Then? {
      LastStep(site, r);
      RunHands(site, r.before);
      StepKeepsHand(site, r.before.w, r.step, r.w);
    }
  }

  // ---------- the ways out of SENDING ----------

  /** The answer to the lead's last request was written. */
  ghost predicate EndedByAnswer(site: Site, w: World, step: Step, w': World, id: nat) {
    && step == Crm(CommitCreate) && w'.now == w.now
    && LastIsFor(w.hub.calls, id) && LastAnswer(w.hub.calls).Some?
    && exists action :: CreateVerdict(w.db, id, LastAnswer(w.hub.calls).value, site.settings, site.lib.httpDate,
                                      w.now, Ok((w'.db, action)))
  }

  /** The lead's last request was answered 400 or 409, and what the reads after it decided was
      written: no read makes such a lead wait for a retry or for a reconciliation. */
  ghost predicate EndedByDecision(w: World, step: Step, w': World, id: nat) {
    && step == Crm(CommitDecision) && w'.now == w.now && AnsweredWith(w.hub.calls, id, {400, 409})
    && id in w'.db.leads && w'.db.leads[id].crm.status in {Pending, ExistingContact, FailedEscalated}
    && (w'.db.leads[id].crm.status == Pending ==> w'.db.pause.paused)
  }

  /** The lease ran out: the lead is UNKNOWN and due at once. */
  ghost predicate EndedByLease(site: Site, w: World, step: Step, w': World, id: nat) {
    && (step.Crm? && (step.c.Prepare? || step.c.TryClaim?)) && w'.now == w.now
    && ExpiredAt(w.db.leads, site.settings.leaseSeconds, w.now, id)
    && RecoveredRow(w.db.leads, id, w.now, w'.db.leads)
  }

  ghost predicate Ended(site: Site, w: World, step: Step, w': World, id: nat) {
    || EndedByAnswer(site, w, step, w', id)
    || EndedByDecision(w, step, w', id)
    || EndedByLease(site, w, step, w', id)
  }

  predicate SameRow(w: World, w': World, id: nat) {
    id in w.db.leads && id in w'.db.leads && w'.db.leads[id].crm == w.db.leads[id].crm
  }

  lemma GateEnds(site: Site, w: World, step: CrmStep, w': World, id: nat)
    requires CrmNext(site, w, step, w') && (step.Prepare? || step.TryClaim?) && Sends(w.db.leads, id)
    requires SingleSending(w.db.leads)
    ensures SameRow(w, w', id) || EndedByLease(site, w, Crm(step), w', id)
  {
    var lease := site.settings.leaseSeconds;
    match step
    case Prepare(gate, candidate) =>
      PrepareVerdicts(w.db, lease, w.now, w'.db, gate, candidate);
    case TryClaim(gate, result) =>
      ClaimVerdicts(w.db, lease, w.now, w'.db, gate, result);
  }

  lemma AnswerEnds(site: Site, w: World, w': World, id: nat)
    requires HandOk(w.phase, w.hub.calls) && CrmNext(site, w, CommitCreate, w') && Sends(w.db.leads, id)
    ensures SameRow(w, w', id) || EndedByAnswer(site, w, Crm(CommitCreate), w', id)
  {
    var m, raw := w.phase.lead, LastAnswer(w.hub.calls).value;
    CreateVerdicts(w.db, m, raw, site.settings, site.lib.httpDate, w.now);
  }

  lemma DecisionEnds(site: Site, w: World, w': World, id: nat)
    requires HandOk(w.phase, w.hub.calls) && CrmNext(site, w, CommitDecision, w') && Sends(w.db.leads, id)
    ensures SameRow(w, w', id) || EndedByDecision(w, Crm(CommitDecision), w', id)
  {
  }

  lemma EvidenceEndsNone(site: Site, w: World, w': World, id: nat)
    requires CrmNext(site, w, CommitEvidence, w') && Sends(w.db.leads, id)
    ensures SameRow(w, w', id)
  {
  }

  lemma CrmEnds(site: Site, w: World, step: CrmStep, w': World, id: nat)
    requires HandOk(w.phase, w.hub.calls) && SingleSending(w.db.leads)
    requires CrmNext(site, w, step, w') && Sends(w.db.leads, id)
    ensures SameRow(w, w', id) || Ended(site, w, Crm(step), w', id)
  {
    match step
    case Prepare(_, _) => GateEnds(site, w, step, w', id);
    case TryClaim(_, _) => GateEnds(site, w, step, w', id);
    case CommitCreate => AnswerEnds(site, w, w', id);
    case CommitDecision => DecisionEnds(site, w, w', id);
    case CommitEvidence => EvidenceEndsNone(site, w, w', id);
    case _ =>
  }

  lemma StepEnds(site: Site, w: World, step: Step, w': World, id: nat)
    requires Safe(w) && HandOk(w.phase, w.hub.calls) && Next(site, w, step, w') && Sends(w.db.leads, id)
    ensures SameRow(w, w', id) || Ended(site, w, step, w', id)
  {
    match step
    case Crm(c) => CrmEnds(site, w, c, w', id);
    case Intake(i) => IntakeLeads(site, w, i, w');
    case Notify(n) => NotifyLeads(site, w, n, w');
    case Outside(o) => OutsideLeads(w, o, w');
  }

  /** In every run, a lead leaves SENDING as the answer to its own last request says, or as the
      reads after a 400 or 409 decided, or because its lease is over. */
  lemma SendingEndsAsAnswered(site: Site, r: Run, id: nat)
    requires Valid(site, r) && r.Then? && Sends(r.before.w.db.leads, id) && !Sends(r.w.db.leads, id)
    ensures Ended(site, r.before.w, r.step, r.w, id)
  {
    LastStep(site, r);
    RunHands(site, r.before);
    StepEnds(site, r.before.w, r.step, r.w, id);
  }

  // ---------- uncertain answers ----------

  /** The last of the lead's requests. */
  ghost predicate IsLastOf(calls: seq<Call>, id: nat, k: nat) {
    k < |calls| && calls[k].lead == id && forall j | k < j < |calls| :: calls[j].lead != id
  }

  /** A lead whose last request was answered with nothing that says whether it took effect is
      always reconciled: it leaves SENDING only for UNKNOWN, due after the initial delay, or at
      once when its answer was lost and its lease is over. */
  lemma UncertainAnswersAreReconciled(site: Site, r: Run, id: nat, k: nat)
    requires Valid(site, r) && r.Then? && Sends(r.before.w.db.leads, id) && !Sends(r.w.db.leads, id)
    requires IsLastOf(r.before.w.hub.calls, id, k)
    requires r.before.w.hub.calls[k].answer.Some? && Uncertain(r.before.w.hub.calls[k].answer.value)
    ensures id in r.w.db.leads && r.w.db.leads[id].crm.status == Unknown
    ensures r.w.db.leads[id].crm.nextReconciliationAt
         == Some(if r.step == Crm(CommitCreate) then r.w.now + site.settings.reconcileInitial * 1_000_000 else r.w.now)
    ensures r.step == Crm(CommitCreate) || ExpiredAt(r.before.w.db.leads, site.settings.leaseSeconds, r.w.now, id)
  {
    SendingEndsAsAnswered(site, r, id);
    var calls := r.before.w.hub.calls;
    assert LastIsFor(calls, id) ==> k == |calls| - 1;
  }

  // ---------- failures ----------

  /** Request `k` is the last of this lead, and was answered with a 4xx without treatment. */
  ghost predicate FailedBy(calls: seq<Call>, id: nat, k: nat) {
    IsLastOf(calls, id, k) && calls[k].answer.Some? && UnlistedClientError(calls[k].answer.value)
  }

  ghost predicate FailureShown(calls: seq<Call>, id: nat) {
    NoLiveCall(calls, id) || exists k :: FailedBy(calls, id, k)
  }

  ghost predicate FailuresShown(leads: Leads, calls: seq<Call>) {
    forall id | id in leads && leads[id].crm.status == FailedEscalated :: FailureShown(calls, id)
  }

  /** No request of this lead was added, and none lost its answer or its refusal. */
  ghost predicate RequestsKept(calls: seq<Call>, calls': seq<Call>, id: nat) {
    && |calls| <= |calls'| && (forall k | |calls| <= k < |calls'| :: calls'[k].lead != id)
    && forall k | 0 <= k < |calls| ::
         && calls'[k].lead == calls[k].lead
         && (calls[k].lead == id && calls[k].answer.Some? ==> calls'[k].answer == calls[k].answer)
         && (calls[k].lead == id && calls[k].fate == Refused ==> calls'[k].fate == Refused)
  }

  lemma ShownStays(calls: seq<Call>, calls': seq<Call>, id: nat)
    requires FailureShown(calls, id) && RequestsKept(calls, calls', id)
    ensures FailureShown(calls', id)
  {
    if k :| FailedBy(calls, id, k) { assert FailedBy(calls', id, k); }
  }

  /** Only a SENDING lead is sent for or hears an answer. */
  lemma RequestsStay(site: Site, w: World, step: Step, w': World, id: nat)
    requires Safe(w) && HandOk(w.phase, w.hub.calls) && Next(site, w, step, w') && !Sends(w.db.leads, id)
    ensures RequestsKept(w.hub.calls, w'.hub.calls, id)
  {
    match step
    case Crm(c) => CrmRequestsStay(site, w, c, w', id);
    case Intake(i) => IntakeLeads(site, w, i, w');
    case Notify(n) => NotifyLeads(site, w, n, w');
    case Outside(o) => OutsideRequestsStay(w, o, w', id);
  }

  lemma OutsideRequestsStay(w: World, step: OutsideStep, w': World, id: nat)
    requires OutsideNext(w, step, w')
    ensures RequestsKept(w.hub.calls, w'.hub.calls, id)
  {
  }

  lemma CrmRequestsStay(site: Site, w: World, step: CrmStep, w': World, id: nat)
    requires PhaseOk(w.phase, w.db.leads, w.db.pause.paused, w.now, w.hub.calls)
    requires CrmNext(site, w, step, w') && !Sends(w.db.leads, id)
    ensures RequestsKept(w.hub.calls, w'.hub.calls, id)
  {
  }

  /** A lead is given up by the answer of a request only when the answer shows that nothing was
      created, or is a 4xx without treatment. */
  lemma AnswerFailureIsShown(site: Site, w: World, w': World, id: nat)
    requires Safe(w) && HandOk(w.phase, w.hub.calls) && CrmNext(site, w, CommitCreate, w')
    requires Sends(w.db.leads, id) && EndedByAnswer(site, w, Crm(CommitCreate), w', id)
    requires id in w'.db.leads && w'.db.leads[id].crm.status == FailedEscalated
    ensures FailureShown(w'.hub.calls, id)
  {
    var calls, raw := w.hub.calls, LastAnswer(w.hub.calls).value;
    assert RowOk(w.db.leads[id].crm, LedgerOf(w.crm, id));
    CommitKeepsHub(site, w, w');
    if UnlistedClientError(raw) {
      assert FailedBy(calls, id, |calls| - 1);
    } else {
      OnlyRetriesRunOut(site, w, w', id, raw);
      RefusedInHand(w, id);
    }
  }

  lemma CommitKeepsHub(site: Site, w: World, w': World)
    requires CrmNext(site, w, CommitCreate, w')
    ensures w'.hub == w.hub && w.phase.HoldingCreate?
  {
  }

  lemma RefusedInHand(w: World, id: nat)
    requires w.phase.HoldingCreate? && HandOk(w.phase, w.hub.calls) && LastIsFor(w.hub.calls, id)
    requires PhaseOk(w.phase, w.db.leads, w.db.pause.paused, w.now, w.hub.calls)
    requires Retryable(LastAnswer(w.hub.calls).value)
    ensures NoLiveCall(w.hub.calls, id)
  {
    CreateCategories(LastAnswer(w.hub.calls).value);
  }

  /** Of the other answers only those that end the retries give a lead up. */
  lemma OnlyRetriesRunOut(site: Site, w: World, w': World, id: nat, raw: RawCreate)
    requires EndedByAnswer(site, w, Crm(CommitCreate), w', id) && raw == LastAnswer(w.hub.calls).value
    requires Sends(w.db.leads, id) && 0 <= w.db.leads[id].crm.retries && !UnlistedClientError(raw)
    requires id in w'.db.leads && w'.db.leads[id].crm.status == FailedEscalated
    ensures Retryable(raw)
  {
  }

  lemma DecisionFailureIsShown(site: Site, w: World, w': World, id: nat)
    requires Safe(w) && HandOk(w.phase, w.hub.calls) && CrmNext(site, w, CommitDecision, w')
    requires Sends(w.db.leads, id) && AnsweredWith(w.hub.calls, id, {400, 409})
    ensures FailureShown(w'.hub.calls, id)
  {
  }

  lemma StepShowsFailures(site: Site, w: World, step: Step, w': World, id: nat)
    requires Safe(w) && HandOk(w.phase, w.hub.calls) && Next(site, w, step, w')
    requires FailuresShown(w.db.leads, w.hub.calls)
    requires id in w'.db.leads && w'.db.leads[id].crm.status == FailedEscalated
    ensures FailureShown(w'.hub.calls, id)
  {
    if Sends(w.db.leads, id) {
      NewFailureIsShown(site, w, step, w', id);
    } else {
      OldFailureIsShown(site, w, step, w', id);
    }
  }

  lemma NewFailureIsShown(site: Site, w: World, step: Step, w': World, id: nat)
    requires Safe(w) && HandOk(w.phase, w.hub.calls) && Next(site, w, step, w') && Sends(w.db.leads, id)
    requires id in w'.db.leads && w'.db.leads[id].crm.status == FailedEscalated
    ensures FailureShown(w'.hub.calls, id)
  {
    StepEnds(site, w, step, w', id);
    NoFailureByLease(site, w, step, w', id);
    if step == Crm(CommitCreate) {
      AnswerFailureIsShown(site, w, w', id);
    } else {
      DecisionFailureIsShown(site, w, w', id);
    }
  }

  lemma NoFailureByLease(site: Site, w: World, step: Step, w': World, id: nat)
    requires Sends(w.db.leads, id) && (SameRow(w, w', id) || Ended(site, w, step, w', id))
    requires id in w'.db.leads && w'.db.leads[id].crm.status == FailedEscalated
    ensures EndedByAnswer(site, w, step, w', id) || EndedByDecision(w, step, w', id)
  {
  }

  lemma OldFailureIsShown(site: Site, w: World, step: Step, w': World, id: nat)
    requires Safe(w) && HandOk(w.phase, w.hub.calls) && Next(site, w, step, w') && !Sends(w.db.leads, id)
    requires FailuresShown(w.db.leads, w.hub.calls)
    requires id in w'.db.leads && w'.db.leads[id].crm.status == FailedEscalated
    ensures FailureShown(w'.hub.calls, id)
  {
    FailedBefore(site, w, step, w', id);
    assert FailureShown(w.hub.calls, id);
    RequestsStay(site, w, step, w', id);
    ShownStays(w.hub.calls, w'.hub.calls, id);
  }

  /** FAILED_ESCALATED is entered from SENDING only. */
  lemma FailedBefore(site: Site, w: World, step: Step, w': World, id: nat)
    requires Safe(w) && Next(site, w, step, w') && !Sends(w.db.leads, id)
    requires id in w'.db.leads && w'.db.leads[id].crm.status == FailedEscalated
    ensures id in w.db.leads && w.db.leads[id].crm.status == FailedEscalated
  {
    match step
    case Crm(c) => CrmFailedBefore(site, w, c, w', id);
    case Intake(i) => IntakeLeads(site, w, i, w');
    case Notify(n) => NotifyLeads(site, w, n, w');
    case Outside(o) => OutsideLeads(w, o, w');
  }

  lemma CrmFailedBefore(site: Site, w: World, step: CrmStep, w': World, id: nat)
    requires Safe(w) && CrmNext(site, w, step, w') && !Sends(w.db.leads, id)
    requires id in w'.db.leads && w'.db.leads[id].crm.status == FailedEscalated
    ensures id in w.db.leads && w.db.leads[id].crm.status == FailedEscalated
  {
    if step.Prepare? || step.TryClaim? {
      GateFailsNone(site, w, step, w', id);
    } else if step.CommitEvidence? {
      EvidenceFailsNone(site, w, w', id);
    }
  }

  lemma GateFailsNone(site: Site, w: World, step: CrmStep, w': World, id: nat)
    requires CrmNext(site, w, step, w') && (step.Prepare? || step.TryClaim?)
    requires id in w'.db.leads && w'.db.leads[id].crm.status == FailedEscalated
    ensures id in w.db.leads && w.db.leads[id].crm.status == FailedEscalated
  {
    var lease := site.settings.leaseSeconds;
    match step
    case Prepare(gate, candidate) => PrepareVerdicts(w.db, lease, w.now, w'.db, gate, candidate);
    case TryClaim(gate, result) => ClaimVerdicts(w.db, lease, w.now, w'.db, gate, result);
  }

  lemma EvidenceFailsNone(site: Site, w: World, w': World, id: nat)
    requires CrmNext(site, w, CommitEvidence, w')
    requires id in w'.db.leads && w'.db.leads[id].crm.status == FailedEscalated
    ensures id in w.db.leads && w.db.leads[id].crm.status == FailedEscalated
  {
  }

  lemma {:induction false} RunFailures(site: Site, r: Run)
    requires Valid(site, r)
    ensures FailuresShown(r.w.db.leads, r.w.hub.calls)
  {
    if r.Then? {
      LastStep(site, r);
      RunFailures(site, r.before);
      RunHands(site, r.before);
      forall id | id in r.w.db.leads && r.w.db.leads[id].crm.status == FailedEscalated
        ensures FailureShown(r.w.hub.calls, id)
      {
        StepShowsFailures(site, r.before.w, r.step, r.w, id);
      }
    }
  }

  /** In every run, a lead is FAILED_ESCALATED only when every request for it is known to have made
      no contact, or when its last one was answered with a 4xx outside the nine that have a
      treatment. */
  lemma FailuresAreShown(site: Site, r: Run, id: nat)
    requires Valid(site, r) && id in r.w.db.leads && r.w.db.leads[id].crm.status == FailedEscalated
    ensures NoLiveCall(r.w.hub.calls, id) || exists k :: FailedBy(r.w.hub.calls, id, k)
  {
    RunFailures(site, r);
    assert FailureShown(r.w.hub.calls, id);
  }

  // ---------- leases ----------

  /** The lead is SENDING at every moment between the two. */
  ghost predicate SendsAllAlong(early: Run, late: Run, id: nat) {
    && Sends(late.w.db.leads, id)
    && (late == early || (late.Then? && SendsAllAlong(early, late.before, id)))
  }

  /** The last step of the run claims the lead. */
  predicate ClaimsLead(r: Run, id: nat) {
    r.Then? && !Sends(r.before.w.db.leads, id) && Sends(r.w.db.leads, id)
  }

  /** SENDING is entered by a claim, which stamps the worker's time. */
  lemma StepClaims(site: Site, w: World, step: Step, w': World, id: nat)
    requires Safe(w) && Next(site, w, step, w') && !Sends(w.db.leads, id) && Sends(w'.db.leads, id)
    ensures w'.db.leads[id].crm.lastAttemptAt == Some(w'.now)
  {
    match step
    case Crm(c) => CrmClaims(site, w, c, w', id);
    case Intake(i) => IntakeLeads(site, w, i, w');
    case Notify(n) => NotifyLeads(site, w, n, w');
    case Outside(o) => OutsideLeads(w, o, w');
  }

  lemma CrmClaims(site: Site, w: World, step: CrmStep, w': World, id: nat)
    requires Safe(w) && CrmNext(site, w, step, w') && !Sends(w.db.leads, id) && Sends(w'.db.leads, id)
    ensures w'.db.leads[id].crm.lastAttemptAt == Some(w'.now)
  {
    if step.Prepare? || step.TryClaim? {
      GateClaims(site, w, step, w', id);
    } else {
      NoOtherClaims(site, w, step, w', id);
    }
  }

  lemma GateClaims(site: Site, w: World, step: CrmStep, w': World, id: nat)
    requires CrmNext(site, w, step, w') && (step.Prepare? || step.TryClaim?)
    requires !Sends(w.db.leads, id) && Sends(w'.db.leads, id)
    ensures w'.db.leads[id].crm.lastAttemptAt == Some(w'.now)
  {
    var lease := site.settings.leaseSeconds;
    match step
    case Prepare(gate, candidate) => PrepareVerdicts(w.db, lease, w.now, w'.db, gate, candidate);
    case TryClaim(gate, result) => ClaimVerdicts(w.db, lease, w.now, w'.db, gate, result);
  }

  lemma NoOtherClaims(site: Site, w: World, step: CrmStep, w': World, id: nat)
    requires CrmNext(site, w, step, w') && !step.Prepare? && !step.TryClaim? && !Sends(w.db.leads, id)
    ensures !Sends(w'.db.leads, id)
  {
  }

  lemma {:induction false} ClaimTimeIsKept(site: Site, claim: Run, late: Run, id: nat)
    requires Valid(site, late) && ClaimsLead(claim, id) && SendsAllAlong(claim, late, id)
    ensures late.w.db.leads[id].crm.lastAttemptAt == Some(claim.w.now)
    decreases late
  {
    LastStep(site, late);
    RunHands(site, late.before);
    if late == claim {
      StepClaims(site, late.before.w, late.step, late.w, id);
    } else {
      ClaimTimeIsKept(site, claim, late.before, id);
      StepKeepsClaimTime(site, late.before.w, late.step, late.w, id);
    }
  }

  lemma StepKeepsClaimTime(site: Site, w: World, step: Step, w': World, id: nat)
    requires Safe(w) && HandOk(w.phase, w.hub.calls) && Next(site, w, step, w')
    requires Sends(w.db.leads, id) && Sends(w'.db.leads, id)
    ensures w'.db.leads[id].crm.lastAttemptAt == w.db.leads[id].crm.lastAttemptAt
  {
    StepEnds(site, w, step, w', id);
    if !SameRow(w, w', id) { EndedMeansNotSending(site, w, step, w', id); }
  }

  lemma EndedMeansNotSending(site: Site, w: World, step: Step, w': World, id: nat)
    requires Sends(w.db.leads, id) && Ended(site, w, step, w', id) && 0 <= w.db.leads[id].crm.retries <= 3
    ensures !Sends(w'.db.leads, id)
  {
  }

  /** A lead that was claimed at some time and leaves SENDING by anything but a result of its own
      create does so only when more than the lease has passed since. */
  lemma LeasesAreHonoured(site: Site, claim: Run, late: Run, id: nat)
    requires Valid(site, late) && late.Then? && ClaimsLead(claim, id) && SendsAllAlong(claim, late.before, id)
    requires !Sends(late.w.db.leads, id) && late.step != Crm(CommitCreate) && late.step != Crm(CommitDecision)
    ensures late.w.now > claim.w.now + site.settings.leaseSeconds * 1_000_000
    ensures id in late.w.db.leads && late.w.db.leads[id].crm.status == Unknown
    ensures late.w.db.leads[id].crm.nextReconciliationAt == Some(late.w.now)
  {
    LastStep(site, late);
    ClaimTimeIsKept(site, claim, late.before, id);
    SendingEndsAsAnswered(site, late, id);
  }
}
