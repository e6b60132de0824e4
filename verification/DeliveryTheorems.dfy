/** The delivery protocol's promises, stated over every run. */
module DeliveryTheorems {
  import opened Schema
  import opened HubSpot
  import opened CrmDelivery
  import opened System
  import opened DeliverySafety

  // ---------- at most one effective create ----------

  /** In no run, with any crashes, retries, pauses, clears and late arrivals, can two create
      requests of one lead have taken effect, or one have taken effect and the other still be
      able to. */
  lemma AtMostOneEffectiveCreate(site: Site, r: Run, i: nat, j: nat)
    requires Valid(site, r) && i < |r.w.hub.calls| && j < |r.w.hub.calls|
    requires r.w.hub.calls[i].lead == r.w.hub.calls[j].lead
    requires r.w.hub.calls[i].fate != Refused && r.w.hub.calls[j].fate != Refused
    ensures i == j
  {
    RunsAreSafe(site, r);
    assert OthersRefused(r.w.hub.calls, i);
  }

  /** The lead is past its create: uncertain, confirmed or given up. */
  predicate Settled(status: DeliveryStatus) { !Waiting(status) && status != Sending }

  predicate SettledLead(w: World, id: nat) { id in w.db.leads && Settled(w.db.leads[id].crm.status) }

  /** The lead is still settled and no new request is its own. */
  ghost predicate StaysSettled(w: World, w': World, id: nat) {
    && SettledLead(w', id)
    && |w.hub.calls| <= |w'.hub.calls|
    && forall k | |w.hub.calls| <= k < |w'.hub.calls| :: w'.hub.calls[k].lead != id
  }

  lemma SettledNotifyStep(site: Site, w: World, step: NotifyStep, w': World, id: nat)
    requires NotifyNext(site, w, step, w') && SettledLead(w, id)
    ensures StaysSettled(w, w', id)
  {
    NotifyLeads(site, w, step, w');
    assert w'.db.leads[id].crm == w.db.leads[id].crm;
  }

  lemma SettledIntakeStep(site: Site, w: World, step: IntakeStep, w': World, id: nat)
    requires IntakeNext(site, w, step, w') && SettledLead(w, id)
    ensures StaysSettled(w, w', id)
  {
    IntakeLeads(site, w, step, w');
  }

  lemma SettledOutsideStep(w: World, step: OutsideStep, w': World, id: nat)
    requires OutsideNext(w, step, w') && SettledLead(w, id)
    ensures StaysSettled(w, w', id)
  {
    assert w'.db.leads == w.db.leads && |w'.hub.calls| == |w.hub.calls|;
  }

  lemma SettledStep(site: Site, w: World, step: Step, w': World, id: nat)
    requires Safe(w) && Next(site, w, step, w') && SettledLead(w, id)
    ensures StaysSettled(w, w', id)
  {
    match step
    case Crm(c) => SettledCrmStep(site, w, c, w', id);
    case Intake(i) => SettledIntakeStep(site, w, i, w', id);
    case Notify(n) => SettledNotifyStep(site, w, n, w', id);
    case Outside(o) => SettledOutsideStep(w, o, w', id);
  }

  lemma SettledClaimStep(site: Site, w: World, step: CrmStep, w': World, id: nat)
    requires CrmNext(site, w, step, w') && SettledLead(w, id) && (step.Prepare? || step.TryClaim?)
    ensures StaysSettled(w, w', id)
  {
    match step
    case Prepare(gate, _) =>
      if gate.Recovered? { assert gate.lead in SendingKeys(w.db.leads); }
    case TryClaim(gate, result) =>
      if gate.Recovered? { assert gate.lead in SendingKeys(w.db.leads); }
      if result.Ok? && result.value.Claimed? { assert result.value.lead in ClaimableKeys(w.db.leads, w.now); }
  }

  lemma SettledCommitStep(site: Site, w: World, step: CrmStep, w': World, id: nat)
    requires RowsOk(w.db.leads, w.crm) && CrmNext(site, w, step, w') && SettledLead(w, id)
    requires step.CommitCreate? || step.CommitDecision? || step.CommitEvidence?
    ensures StaysSettled(w, w', id)
  {
    var lead := w.phase.lead;
    if step.CommitEvidence? && HasStatus(w.db, lead, Unknown) {
      var l := w.db.leads[lead];
      assert RowOk(l.crm, LedgerOf(w.crm, lead));
      if ApplyEvidence(l.crm, l.identity.contact, w.phase.read, site.settings, site.lib.httpDate, w.now).Ok? {
        EvidenceRowOk(l.crm, LedgerOf(w.crm, lead), l.identity.contact, w.phase.read, site.settings,
                      site.lib.httpDate, w.now);
      }
    }
  }

  lemma SettledCrmStep(site: Site, w: World, step: CrmStep, w': World, id: nat)
    requires Safe(w) && CrmNext(site, w, step, w') && SettledLead(w, id)
    ensures StaysSettled(w, w', id)
  {
    match step
    case Prepare(_, _) => SettledClaimStep(site, w, step, w', id);
    case TryClaim(_, _) => SettledClaimStep(site, w, step, w', id);
    case CommitCreate => SettledCommitStep(site, w, step, w', id);
    case CommitDecision => SettledCommitStep(site, w, step, w', id);
    case CommitEvidence => SettledCommitStep(site, w, step, w', id);
    case _ =>
  }

  /** Once the outcome of a create is uncertain, or the lead is finished, no request for it is
      ever issued again. */
  lemma {:induction false} NoCreateAfterUncertainty(site: Site, early: Run, late: Run, id: nat)
    requires Valid(site, late) && Prefix(early, late) && SettledLead(early.w, id)
    ensures StaysSettled(early.w, late.w, id)
    decreases late
  {
    if late != early {
      LastStep(site, late);
      NoCreateAfterUncertainty(site, early, late.before, id);
      RunsAreSafe(site, late.before);
      SettledStep(site, late.before.w, late.step, late.w, id);
      SameRequests(site, late.before.w, late.step, late.w);
    }
  }

  /** The request log only grows, and no logged request changes its lead. */
  lemma SameRequests(site: Site, w: World, step: Step, w': World)
    requires Next(site, w, step, w')
    ensures |w.hub.calls| <= |w'.hub.calls|
    ensures forall k | 0 <= k < |w.hub.calls| :: w'.hub.calls[k].lead == w.hub.calls[k].lead
  {
    match step
    case Crm(c) => SameCrmRequests(site, w, c, w');
    case Intake(i) => IntakeLeads(site, w, i, w');
    case Notify(n) => NotifyLeads(site, w, n, w');
    case Outside(o) => SameOutsideRequests(w, o, w');
  }

  lemma SameCrmRequests(site: Site, w: World, step: CrmStep, w': World)
    requires CrmNext(site, w, step, w')
    ensures |w.hub.calls| <= |w'.hub.calls|
    ensures forall k | 0 <= k < |w.hub.calls| :: w'.hub.calls[k].lead == w.hub.calls[k].lead
  {
  }

  lemma SameOutsideRequests(w: World, step: OutsideStep, w': World)
    requires OutsideNext(w, step, w')
    ensures |w.hub.calls| == |w'.hub.calls|
    ensures forall k | 0 <= k < |w.hub.calls| :: w'.hub.calls[k].lead == w.hub.calls[k].lead
  {
  }

  // ---------- the gate ----------

  predicate CreatePhase(phase: Phase) {
    !phase.Idle? && !phase.Reconciling? && !phase.HoldingEvidence?
  }

  /** From claim to commit, a create holds the gate: its lead is the only one SENDING, CRM work
      is not paused and no UNKNOWN lead was due; and a reconciliation read runs only while no
      lead is SENDING. */
  ghost predicate GateIsSafe(w: World) {
    && SingleSending(w.db.leads)
    && (CreatePhase(w.phase) ==>
         && w.phase.lead in w.db.leads && w.db.leads[w.phase.lead].crm.status == Sending
         && !w.db.pause.paused && NoneDue(w.db.leads, w.now))
    && (w.phase.Reconciling? || w.phase.HoldingEvidence? ==>
         && w.phase.lead in w.db.leads && w.db.leads[w.phase.lead].crm.status == Unknown
         && !w.db.pause.paused && NoneSending(w.db.leads))
  }

  lemma SafeGate(w: World)
    requires Safe(w)
    ensures GateIsSafe(w)
  {
  }

  lemma GateSafety(site: Site, r: Run)
    requires Valid(site, r)
    ensures GateIsSafe(r.w)
  {
    RunsAreSafe(site, r);
    SafeGate(r.w);
  }

  // ---------- reconciliation ----------

  /** UNKNOWN is entered at most once, its counters stay at most 2, and the ninth committed
      read that does not pause has already resolved the lead. */
  ghost predicate Bounded(d: Delivery, g: Ledger) {
    && g.uncertain <= 1 && g.evidence <= 9
    && (d.status == Unknown ==> 0 <= d.notFound <= 2 && 0 <= d.errors <= 2 && g.evidence <= 8)
    && (g.evidence == 9 ==> d.status == Success || d.status == UnknownEscalated)
  }

  lemma SafeRowsAreBounded(w: World, id: nat)
    requires Safe(w) && id in w.db.leads
    ensures Bounded(w.db.leads[id].crm, LedgerOf(w.crm, id))
  {
    assert RowOk(w.db.leads[id].crm, LedgerOf(w.crm, id));
  }

  lemma ReconciliationIsBounded(site: Site, r: Run, id: nat)
    requires Valid(site, r) && id in r.w.db.leads
    ensures Bounded(r.w.db.leads[id].crm, LedgerOf(r.w.crm, id))
  {
    RunsAreSafe(site, r);
    SafeRowsAreBounded(r.w, id);
  }

  /** The row after reads of these categories, none of which found a contact. */
  function AfterReads(
      d: Delivery, answers: seq<ReadCategory>, contact: ContactInput, s: Settings, httpDate: DateReader,
      now: Time): Delivery
  {
    if answers == [] then d
    else
      var last := answers[|answers| - 1];
      ApplyEvidence(AfterReads(d, answers[..|answers| - 1], contact, s, httpDate, now), contact,
                    ReadResult(last, None, map[], None), s, httpDate, now).value.row
  }

  predicate MissOrError(c: ReadCategory) { c == ActiveNotFound || c == IndeterminateRead || c == RetryableReadFailure }

  const ROUND: seq<ReadCategory> := [IndeterminateRead, IndeterminateRead, ActiveNotFound]

  function Rounds(n: nat): seq<ReadCategory> { if n == 0 then [] else Rounds(n - 1) + ROUND }

  /** Two errors and a miss cost one miss and no errors: the errors are forgotten. */
  lemma {:induction false} RoundsCountMisses(
      d: Delivery, n: nat, contact: ContactInput, s: Settings, httpDate: DateReader, now: Time)
    requires d.status == Unknown && d.notFound == 0 && d.errors == 0 && n <= 3
    ensures var e := AfterReads(d, Rounds(n), contact, s, httpDate, now);
      if n == 3 then e.status == UnknownEscalated else e.status == Unknown && e.errors == 0 && e.notFound == n
    ensures n < 3 ==> forall j | 0 <= j < 3 ::
      AfterReads(d, Rounds(n) + ROUND[..j], contact, s, httpDate, now).status == Unknown
  {
    if n > 0 { RoundsCountMisses(d, n - 1, contact, s, httpDate, now); }
    if n > 0 { OneRound(d, Rounds(n - 1), contact, s, httpDate, now); }
    if n < 3 { OneRound(d, Rounds(n), contact, s, httpDate, now); }
  }

  lemma OneRound(
      d: Delivery, answers: seq<ReadCategory>, contact: ContactInput, s: Settings, httpDate: DateReader,
      now: Time)
    requires var e := AfterReads(d, answers, contact, s, httpDate, now);
      e.status == Unknown && e.errors == 0 && 0 <= e.notFound <= 2
    ensures forall j | 0 <= j < 3 :: AfterReads(d, answers + ROUND[..j], contact, s, httpDate, now).status == Unknown
    ensures var e := AfterReads(d, answers, contact, s, httpDate, now);
      var e' := AfterReads(d, answers + ROUND, contact, s, httpDate, now);
      && (e.notFound < 2 ==> e'.status == Unknown && e'.errors == 0 && e'.notFound == e.notFound + 1)
      && (e.notFound == 2 ==> e'.status == UnknownEscalated)
  {
    var one, two, three := answers + ROUND[..1], answers + ROUND[..2], answers + ROUND;
    assert answers + ROUND[..0] == answers && one[..|one| - 1] == answers;
    assert two[..|two| - 1] == one && three[..|three| - 1] == two;
  }

  lemma PrefixOfRounds(k: nat)
    requires k < 9
    ensures |Rounds(3)| == 9 && Rounds(3)[..k] == Rounds(k / 3) + ROUND[..k % 3]
    ensures forall c | c in Rounds(3) :: MissOrError(c)
  {
    var e, n := IndeterminateRead, ActiveNotFound;
    assert Rounds(1) == [e, e, n];
    assert Rounds(2) == [e, e, n, e, e, n];
    assert Rounds(3) == [e, e, n, e, e, n, e, e, n];
    if k < 3 { assert k / 3 == 0 && k % 3 == k; }
    else if k < 6 { assert k / 3 == 1 && k % 3 == k - 3; }
    else { assert k / 3 == 2 && k % 3 == k - 6; }
  }

  /** The bound of nine is tight: from a lead that has just become UNKNOWN, some nine reads leave
      it UNKNOWN until the ninth. */
  lemma NineReadsCanBeNeeded(
      d: Delivery, contact: ContactInput, s: Settings, httpDate: DateReader, now: Time)
    returns (answers: seq<ReadCategory>)
    requires d.status == Unknown && d.notFound == 0 && d.errors == 0
    ensures |answers| == 9 && forall c | c in answers :: MissOrError(c)
    ensures forall k | 0 <= k < 9 :: AfterReads(d, answers[..k], contact, s, httpDate, now).status == Unknown
    ensures AfterReads(d, answers, contact, s, httpDate, now).status == UnknownEscalated
  {
    answers := Rounds(3);
    PrefixOfRounds(0);
    RoundsCountMisses(d, 3, contact, s, httpDate, now);
    forall k | 0 <= k < 9 ensures AfterReads(d, answers[..k], contact, s, httpDate, now).status == Unknown {
      PrefixOfRounds(k);
      RoundsCountMisses(d, k / 3, contact, s, httpDate, now);
    }
  }
}
