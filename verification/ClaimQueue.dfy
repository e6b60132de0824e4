/** Fairness of the claim queue: a waiting lead is overtaken only by the leads that were ahead
    of it, and by returns from a pause. */
module ClaimQueue {
  import opened Schema
  import opened Queries
  import opened HubSpot
  import opened CrmDelivery
  import opened System
  import opened DeliverySafety
  import opened DeliveryProgress

  // ---------- clocks and sequences ----------

  /** The worker's sampled clock lags the wall clock, the lead sequence is ahead of every id and
      no lead was created in the future. */
  ghost predicate TimesOk(w: World) {
    && w.now <= w.clock
    && (forall id | id in w.db.leads :: id < w.db.nextLeadId)
    && (forall id | id in w.db.leads :: w.db.leads[id].identity.createdAt <= w.clock)
  }

  lemma StepKeepsTimes(site: Site, w: World, step: Step, w': World)
    requires Safe(w) && TimesOk(w) && Next(site, w, step, w')
    ensures TimesOk(w') && w.now <= w'.now
  {
    match step
    case Crm(c) => CrmKeepsTimes(site, w, c, w');
    case Intake(i) => IntakeKeepsTimes(site, w, i, w');
    case Notify(n) => NotifyKeepsTimes(site, w, n, w');
    case Outside(o) => OutsideKeepsTimes(w, o, w');
  }

  lemma CrmKeepsTimes(site: Site, w: World, step: CrmStep, w': World)
    requires Safe(w) && TimesOk(w) && CrmNext(site, w, step, w')
    ensures TimesOk(w') && w'.now == w.now
  {
    CrmMoves(site, w, step, w');
    CrmLeavesClock(site, w, step, w');
    MovedKeepsTimes(w, Mover(w, step), w');
  }

  lemma CrmLeavesClock(site: Site, w: World, step: CrmStep, w': World)
    requires CrmNext(site, w, step, w')
    ensures w'.clock == w.clock && w'.now == w.now && w'.db.nextLeadId == w.db.nextLeadId
  {
  }

  lemma MovedKeepsTimes(w: World, id: nat, w': World)
    requires TimesOk(w) && (Still(w, w') || Moved(w, id, w'))
    requires w'.clock == w.clock && w'.now == w.now && w'.db.nextLeadId == w.db.nextLeadId
    ensures TimesOk(w')
  {
    assert w'.db.leads.Keys == w.db.leads.Keys;
  }

  lemma IntakeKeepsTimes(site: Site, w: World, step: IntakeStep, w': World)
    requires TimesOk(w) && IntakeNext(site, w, step, w')
    ensures TimesOk(w') && w'.now == w.now
  {
    IntakeLeads(site, w, step, w');
  }

  lemma NotifyKeepsTimes(site: Site, w: World, step: NotifyStep, w': World)
    requires TimesOk(w) && NotifyNext(site, w, step, w')
    ensures TimesOk(w') && w'.now == w.now
  {
    NotifyLeads(site, w, step, w');
    assert w'.db.nextLeadId == w.db.nextLeadId && w'.clock == w.clock;
  }

  lemma OutsideKeepsTimes(w: World, step: OutsideStep, w': World)
    requires TimesOk(w) && OutsideNext(w, step, w')
    ensures TimesOk(w') && w.now <= w'.now
  {
    assert w'.db.leads == w.db.leads && w'.db.nextLeadId == w.db.nextLeadId;
  }

  lemma {:induction false} RunTimes(site: Site, r: Run)
    requires Valid(site, r)
    ensures Safe(r.w) && TimesOk(r.w)
  {
    RunsAreSafe(site, r);
    if r.Then? {
      LastStep(site, r);
      RunTimes(site, r.before);
      StepKeepsTimes(site, r.before.w, r.step, r.w);
    }
  }

  /** The worker's time never goes back. */
  lemma {:induction false} TimeGoesOn(site: Site, early: Run, late: Run)
    requires Valid(site, late) && Prefix(early, late)
    ensures early.w.now <= late.w.now
    decreases late
  {
    if late != early {
      LastStep(site, late);
      TimeGoesOn(site, early, late.before);
      RunTimes(site, late.before);
      StepKeepsTimes(site, late.before.w, late.step, late.w);
    }
  }

  // ---------- the queue ----------

  /** Lead `id` can be claimed now. */
  ghost predicate Queued(leads: Leads, now: Time, id: nat) { id in leads && Claimable(leads[id], now) }

  /** The waiting leads whose place is before that of lead `id`. */
  ghost function AheadOf(leads: Leads, id: nat): set<nat>
    requires id in leads
  {
    set m | && m in leads && m != id && Waiting(leads[m].crm.status)
            && Precedes(DueOrCreated(leads[m]), m, DueOrCreated(leads[id]), id)
  }

  /** Two sets that differ at most in one element. */
  lemma DifferInOne(a: set<nat>, b: set<nat>, m: nat)
    requires b - {m} == a - {m}
    ensures |b| <= |a| + 1
    ensures m !in b ==> |b| <= |a|
    ensures m !in b && m in a ==> |b| + 1 == |a|
  {
    var rest := a - {m};
    if m in a {
      assert a == rest + {m};
    } else {
      assert a == rest;
    }
    if m in b {
      assert b == rest + {m};
    } else {
      assert b == rest;
    }
  }

  /** Rewriting another row can only add or remove that row. */
  lemma AheadAfterUpdate(leads: Leads, id: nat, m: nat, d: Delivery)
    requires id in leads && m in leads && m != id
    ensures var leads' := WithRow(leads, m, d);
      && AheadOf(leads', id) - {m} == AheadOf(leads, id) - {m}
      && |AheadOf(leads', id)| <= |AheadOf(leads, id)| + 1
      && (m !in AheadOf(leads', id) ==> |AheadOf(leads', id)| <= |AheadOf(leads, id)|)
      && (m !in AheadOf(leads', id) && m in AheadOf(leads, id) ==> |AheadOf(leads', id)| + 1 == |AheadOf(leads, id)|)
  {
    var leads' := WithRow(leads, m, d);
    var a, b := AheadOf(leads, id), AheadOf(leads', id);
    forall x: nat | x != m ensures x in b <==> x in a {
      if x in leads { assert leads'[x] == leads[x]; }
    }
    assert b - {m} == a - {m};
    DifferInOne(a, b, m);
  }

  /** Lead `m` has come back from a create as a scheduled retry, with a place before lead `id`. */
  ghost predicate BackAhead(leads: Leads, leads': Leads, m: nat, id: nat)
    requires id in leads'
  {
    && m in leads && leads[m].crm.status == Sending
    && m in leads' && leads'[m].crm.status == RetryPending && m in AheadOf(leads', id)
  }

  ghost predicate CutsIn(leads: Leads, leads': Leads, id: nat)
    requires id in leads'
  {
    exists m :: BackAhead(leads, leads', m, id)
  }

  /** What a step adds to the claims and to the leads ahead of `id` is accounted for by pause
      returns and by retries that cut in. */
  ghost predicate QueueAdvances(w: World, w': World, id: nat)
    requires id in w.db.leads && id in w'.db.leads
  {
    && w'.db.leads[id].crm == w.db.leads[id].crm && w'.db.leads[id].identity == w.db.leads[id].identity
    && w'.crm.claims + |AheadOf(w'.db.leads, id)| + w.crm.pauseReturns
       <= w.crm.claims + |AheadOf(w.db.leads, id)| + w'.crm.pauseReturns
          + if CutsIn(w.db.leads, w'.db.leads, id) then 1 else 0
  }

  lemma PrepareAdvances(site: Site, w: World, gate: Gate, candidate: Option<nat>, w': World, id: nat)
    requires CrmNext(site, w, Prepare(gate, candidate), w') && Queued(w.db.leads, w.now, id)
    ensures id in w'.db.leads && QueueAdvances(w, w', id)
  {
    if gate.Recovered? { RecoveryAdvances(w.db.leads, site.settings.leaseSeconds, w.now, w'.db.leads, gate, id); }
  }

  lemma RecoveryAdvances(leads: Leads, lease: int, now: Time, leads': Leads, gate: Gate, id: nat)
    requires GateTransaction(leads, lease, now, leads', gate) && gate.Recovered?
    requires id in leads && Claimable(leads[id], now)
    ensures id in leads' && leads'[id] == leads[id] && |AheadOf(leads', id)| <= |AheadOf(leads, id)|
  {
    assert gate.lead in SendingKeys(leads);
    AheadAfterUpdate(leads, id, gate.lead, Recover(leads[gate.lead].crm, now));
  }

  /** The claimed lead was ahead, and leaves the queue. */
  lemma ClaimAdvances(leads: Leads, now: Time, m: nat, id: nat)
    requires IsLeast(ClaimableKeys(leads, now), m) && id in leads && Claimable(leads[id], now) && m != id
    ensures m in AheadOf(leads, id)
    ensures |AheadOf(WithRow(leads, m, StartSending(leads[m].crm, now)), id)| + 1 == |AheadOf(leads, id)|
  {
    assert m in ClaimableKeys(leads, now) && id in ClaimableKeys(leads, now);
    assert m in AheadOf(leads, id);
    AheadAfterUpdate(leads, id, m, StartSending(leads[m].crm, now));
  }

  lemma TryClaimAdvances(
      site: Site, w: World, gate: Gate, result: Result<Claim, DeliveryError>, w': World, id: nat)
    requires CrmNext(site, w, TryClaim(gate, result), w') && Queued(w.db.leads, w.now, id)
    requires id in w'.db.leads ==> Waiting(w'.db.leads[id].crm.status)
    ensures id in w'.db.leads && QueueAdvances(w, w', id)
  {
    if gate.Recovered? {
      RecoveryAdvances(w.db.leads, site.settings.leaseSeconds, w.now, w'.db.leads, gate, id);
    } else if result.Ok? && result.value.Claimed? {
      ClaimAdvances(w.db.leads, w.now, result.value.lead, id);
    }
  }

  /** A row that comes back ahead is a pause return or a retry that cuts in. */
  lemma CommitAdvances(w: World, m: nat, a: Applied, w': World, id: nat)
    requires m in w.db.leads && m != id && Queued(w.db.leads, w.now, id)
    requires CommitStep(w, m, Ok((Commit(w.db, m, a, w.now), a.action)), w')
    requires a.row.status == RetryPending ==> w.db.leads[m].crm.status == Sending
    ensures id in w'.db.leads && QueueAdvances(w, w', id)
  {
    AheadAfterUpdate(w.db.leads, id, m, a.row);
    if a.row.status == RetryPending && m in AheadOf(w'.db.leads, id) {
      assert BackAhead(w.db.leads, w'.db.leads, m, id);
    }
  }

  lemma CreateResultAdvances(site: Site, w: World, w': World, id: nat)
    requires PhaseOk(w.phase, w.db.leads, w.db.pause.paused, w.now, w.hub.calls)
    requires CrmNext(site, w, CommitCreate, w') && Queued(w.db.leads, w.now, id)
    ensures id in w'.db.leads && QueueAdvances(w, w', id)
  {
    var m := w.phase.lead;
    var applied := ApplyCreate(w.db.leads[m].crm, w.phase.result, site.settings, site.lib.httpDate, w.now);
    if applied.Ok? { CommitAdvances(w, m, applied.value, w', id); }
  }

  lemma DecisionAdvances(site: Site, w: World, w': World, id: nat)
    requires PhaseOk(w.phase, w.db.leads, w.db.pause.paused, w.now, w.hub.calls)
    requires CrmNext(site, w, CommitDecision, w') && Queued(w.db.leads, w.now, id)
    ensures id in w'.db.leads && QueueAdvances(w, w', id)
  {
    var m := w.phase.lead;
    CommitAdvances(w, m, ApplyDecision(w.db.leads[m].crm, w.phase.decision, w.now), w', id);
  }

  lemma EvidenceAdvances(site: Site, w: World, w': World, id: nat)
    requires PhaseOk(w.phase, w.db.leads, w.db.pause.paused, w.now, w.hub.calls)
    requires CrmNext(site, w, CommitEvidence, w') && Queued(w.db.leads, w.now, id)
    ensures id in w'.db.leads && QueueAdvances(w, w', id)
  {
    var l := w.db.leads[w.phase.lead];
    var applied := ApplyEvidence(l.crm, l.identity.contact, w.phase.read, site.settings, site.lib.httpDate, w.now);
    EvidenceIsCommitted(site, w, w', applied);
    if applied.Ok? { CommitAdvances(w, w.phase.lead, applied.value, w', id); }
    else { StillAdvances(w, w', id); }
  }

  /** What a reconciliation writes is never a retry. */
  lemma EvidenceIsCommitted(site: Site, w: World, w': World, applied: Result<Applied, DeliveryError>)
    requires CrmNext(site, w, CommitEvidence, w') && HasStatus(w.db, w.phase.lead, Unknown)
    requires var l := w.db.leads[w.phase.lead];
      applied == ApplyEvidence(l.crm, l.identity.contact, w.phase.read, site.settings, site.lib.httpDate, w.now)
    ensures applied.Ok? ==>
      && applied.value.row.status != RetryPending
      && CommitStep(w, w.phase.lead, Ok((Commit(w.db, w.phase.lead, applied.value, w.now), applied.value.action)), w')
    ensures applied.Err? ==> w'.db == w.db && w'.crm == w.crm.(faults := w'.crm.faults)
  {
  }

  /** A step that leaves the leads and the counts alone. */
  lemma StillAdvances(w: World, w': World, id: nat)
    requires Queued(w.db.leads, w.now, id) && w'.db.leads == w.db.leads
    requires w'.crm.claims == w.crm.claims && w'.crm.pauseReturns == w.crm.pauseReturns
    ensures id in w'.db.leads && QueueAdvances(w, w', id)
  {
  }

  lemma MemoryStep(site: Site, w: World, step: CrmStep, w': World)
    requires CrmNext(site, w, step, w')
    requires step.SendCreate? || step.CreateOutcome? || step.FollowUpRead? || step.EvidenceRead?
    ensures w'.db == w.db && w'.crm == w.crm
  {
  }

  lemma CrmAdvances(site: Site, w: World, step: CrmStep, w': World, id: nat)
    requires PhaseOk(w.phase, w.db.leads, w.db.pause.paused, w.now, w.hub.calls)
    requires CrmNext(site, w, step, w') && Queued(w.db.leads, w.now, id)
    requires id in w'.db.leads ==> Waiting(w'.db.leads[id].crm.status)
    ensures id in w'.db.leads && QueueAdvances(w, w', id)
  {
    if step.CommitCreate? || step.CommitDecision? || step.CommitEvidence? {
      ResultAdvances(site, w, step, w', id);
    } else {
      SelectionAdvances(site, w, step, w', id);
    }
  }

  lemma ResultAdvances(site: Site, w: World, step: CrmStep, w': World, id: nat)
    requires PhaseOk(w.phase, w.db.leads, w.db.pause.paused, w.now, w.hub.calls)
    requires CrmNext(site, w, step, w') && Queued(w.db.leads, w.now, id)
    requires step.CommitCreate? || step.CommitDecision? || step.CommitEvidence?
    ensures id in w'.db.leads && QueueAdvances(w, w', id)
  {
    match step
    case CommitCreate => CreateResultAdvances(site, w, w', id);
    case CommitDecision => DecisionAdvances(site, w, w', id);
    case CommitEvidence => EvidenceAdvances(site, w, w', id);
  }

  lemma SelectionAdvances(site: Site, w: World, step: CrmStep, w': World, id: nat)
    requires CrmNext(site, w, step, w') && Queued(w.db.leads, w.now, id)
    requires !step.CommitCreate? && !step.CommitDecision? && !step.CommitEvidence?
    requires id in w'.db.leads ==> Waiting(w'.db.leads[id].crm.status)
    ensures id in w'.db.leads && QueueAdvances(w, w', id)
  {
    match step
    case Prepare(gate, candidate) => PrepareAdvances(site, w, gate, candidate, w', id);
    case TryClaim(gate, result) => TryClaimAdvances(site, w, gate, result, w', id);
    case _ =>
      MemoryStep(site, w, step, w');
      StillAdvances(w, w', id);
  }

  /** A new lead is created no earlier than any place in the queue and takes a larger id. */
  lemma IntakeAdvances(site: Site, w: World, step: IntakeStep, w': World, id: nat)
    requires TimesOk(w) && IntakeNext(site, w, step, w') && Queued(w.db.leads, w.now, id)
    ensures id in w'.db.leads && QueueAdvances(w, w', id)
  {
    IntakeLeads(site, w, step, w');
    if w'.db.leads != w.db.leads {
      assert w'.db.leads[w.db.nextLeadId].identity.createdAt == w.clock;
      assert w.db.leads[id].identity.createdAt <= w.clock;
      assert AheadOf(w'.db.leads, id) == AheadOf(w.db.leads, id);
    }
  }

  lemma NotifyAdvances(site: Site, w: World, step: NotifyStep, w': World, id: nat)
    requires NotifyNext(site, w, step, w') && Queued(w.db.leads, w.now, id)
    ensures id in w'.db.leads && QueueAdvances(w, w', id)
  {
    NotifyLeads(site, w, step, w');
    assert AheadOf(w'.db.leads, id) == AheadOf(w.db.leads, id);
  }

  lemma OutsideAdvances(w: World, step: OutsideStep, w': World, id: nat)
    requires OutsideNext(w, step, w') && Queued(w.db.leads, w.now, id)
    ensures id in w'.db.leads && QueueAdvances(w, w', id)
  {
    assert w'.db.leads == w.db.leads && w'.crm.claims == w.crm.claims && w'.crm.pauseReturns == w.crm.pauseReturns;
  }

  lemma StepAdvances(site: Site, w: World, step: Step, w': World, id: nat)
    requires Safe(w) && TimesOk(w) && Next(site, w, step, w') && Queued(w.db.leads, w.now, id)
    requires id in w'.db.leads ==> Waiting(w'.db.leads[id].crm.status)
    ensures Queued(w'.db.leads, w'.now, id) && QueueAdvances(w, w', id)
  {
    StepKeepsTimes(site, w, step, w');
    match step
    case Crm(c) => CrmAdvances(site, w, c, w', id);
    case Intake(i) => IntakeAdvances(site, w, i, w', id);
    case Notify(n) => NotifyAdvances(site, w, n, w', id);
    case Outside(o) => OutsideAdvances(w, o, w', id);
  }

  /** Lead `id` is not claimed anywhere between the two moments. */
  ghost predicate Waits(early: Run, late: Run, id: nat) {
    && (id in late.w.db.leads ==> Waiting(late.w.db.leads[id].crm.status))
    && (late == early || (late.Then? && Waits(early, late.before, id)))
  }

  /** The steps between the two moments at which a retry cut in before lead `id`. */
  ghost function Cuts(early: Run, late: Run, id: nat): nat {
    if late == early || late.Start? then 0
    else
      var here := if id in late.w.db.leads && CutsIn(late.before.w.db.leads, late.w.db.leads, id) then 1 else 0;
      Cuts(early, late.before, id) + here
  }

  /** While a claimable lead waits, the other claims number at most the leads that were ahead of
      it, the pause returns since, and the retries that have cut in since. New leads never count. */
  lemma {:induction false} BoundedOvertaking(site: Site, early: Run, late: Run, id: nat)
    requires Valid(site, late) && Waits(early, late, id) && Queued(early.w.db.leads, early.w.now, id)
    ensures Queued(late.w.db.leads, late.w.now, id)
    ensures late.w.db.leads[id].crm == early.w.db.leads[id].crm
    ensures late.w.db.leads[id].identity == early.w.db.leads[id].identity
    ensures late.w.crm.claims - early.w.crm.claims + |AheadOf(late.w.db.leads, id)|
         <= |AheadOf(early.w.db.leads, id)| + late.w.crm.pauseReturns - early.w.crm.pauseReturns
            + Cuts(early, late, id)
    decreases late
  {
    if late != early {
      LastStep(site, late);
      BoundedOvertaking(site, early, late.before, id);
      RunTimes(site, late.before);
      StepAdvances(site, late.before.w, late.step, late.w, id);
    }
  }

  // ---------- when retries can cut in ----------

  function ShortestRetry(s: Settings): int {
    var d := if s.retryDelay1 < s.retryDelay2 then s.retryDelay1 else s.retryDelay2;
    if d < s.retryDelay3 then d else s.retryDelay3
  }

  /** The row's place in the queue is before every retry that could be scheduled from now on.
      A RETRY_PENDING row that can be claimed always is; a PENDING row is unless normalizing it
      took the shortest retry delay or more after the worker sampled its clock. */
  predicate PlaceIsSafe(l: Lead, now: Time, s: Settings) {
    DueOrCreated(l).Some? && DueOrCreated(l).value < now + Seconds(ShortestRetry(s))
  }

  /** A scheduled retry is at least the shortest configured delay away. */
  predicate RetryKeepsItsDistance(d: Delivery, now: Time, s: Settings) {
    d.status == RetryPending ==>
      d.nextRetryAt.Some? && d.nextRetryAt.value >= now + Seconds(ShortestRetry(s))
  }

  /** The k-th retry waits for its own configured delay, or longer when `Retry-After` asks for
      it, and there are only three. A `Retry-After` that cannot be converted to UTC raises, unless
      no retry is left to be scheduled. */
  lemma RetrySchedule(d: Delivery, result: CreateResult, s: Settings, httpDate: DateReader, now: Time)
    requires 0 <= d.retries <= 3 && (result.category == RetryableFailure || result.category == RateLimited)
    ensures ApplyCreate(d, result, s, httpDate, now) == Err(DateOutOfRange) <==>
      d.retries < 3 && RetryAfterTime(result.retryAfter, now, httpDate).Err?
    ensures ApplyCreate(d, result, s, httpDate, now) != Err(DateOutOfRange) ==>
      && ApplyCreate(d, result, s, httpDate, now).Ok?
      && var row := ApplyCreate(d, result, s, httpDate, now).value.row;
      if d.retries == 3 then row.status == FailedEscalated && row.failureAt == Some(now)
      else
        var asked := RetryAfterTime(result.retryAfter, now, httpDate).value;
        var delays := [s.retryDelay1, s.retryDelay2, s.retryDelay3];
        && row.status == RetryPending && row.retries == d.retries + 1 && row.nextRetryAt.Some?
        && row.nextRetryAt.value >= now + Seconds(delays[d.retries])
        && (asked.Some? ==> row.nextRetryAt.value >= asked.value)
        && (row.nextRetryAt == Some(now + Seconds(delays[d.retries])) || row.nextRetryAt == asked)
  {
  }

  /** Whatever `Retry-After` says, a retry is never sooner than the configured delay. */
  lemma RetryIsNeverSooner(d: Delivery, result: CreateResult, s: Settings, httpDate: DateReader, now: Time)
    requires ApplyCreate(d, result, s, httpDate, now).Ok?
    ensures RetryKeepsItsDistance(ApplyCreate(d, result, s, httpDate, now).value.row, now, s)
  {
  }

  /** Every new retry keeps its distance. */
  ghost predicate NewRetriesAreFar(leads: Leads, leads': Leads, now: Time, s: Settings) {
    forall m | m in leads && m in leads' && leads[m].crm.status == Sending ::
      RetryKeepsItsDistance(leads'[m].crm, now, s)
  }

  lemma CommitIsFar(site: Site, w: World, step: CrmStep, w': World)
    requires CrmNext(site, w, step, w') && (step.CommitCreate? || step.CommitDecision? || step.CommitEvidence?)
    ensures NewRetriesAreFar(w.db.leads, w'.db.leads, w.now, site.settings)
  {
    var m, s, httpDate := w.phase.lead, site.settings, site.lib.httpDate;
    if step.CommitCreate? && HasStatus(w.db, m, Sending) {
      var applied := ApplyCreate(w.db.leads[m].crm, w.phase.result, s, httpDate, w.now);
      if applied.Ok? { RetryIsNeverSooner(w.db.leads[m].crm, w.phase.result, s, httpDate, w.now); }
    }
  }

  lemma CrmIsFar(site: Site, w: World, step: CrmStep, w': World)
    requires CrmNext(site, w, step, w')
    ensures NewRetriesAreFar(w.db.leads, w'.db.leads, w.now, site.settings)
  {
    if step.CommitCreate? || step.CommitDecision? || step.CommitEvidence? { CommitIsFar(site, w, step, w'); }
  }

  lemma StepIsFar(site: Site, w: World, step: Step, w': World)
    requires Safe(w) && Next(site, w, step, w')
    ensures NewRetriesAreFar(w.db.leads, w'.db.leads, w.now, site.settings)
  {
    match step
    case Crm(c) => CrmIsFar(site, w, c, w');
    case Intake(i) => IntakeLeads(site, w, i, w');
    case Notify(n) => NotifyLeads(site, w, n, w');
    case Outside(o) => OutsideLeads(w, o, w');
  }

  lemma FarRetriesDoNotCutIn(leads: Leads, leads': Leads, now: Time, s: Settings, id: nat)
    requires NewRetriesAreFar(leads, leads', now, s) && id in leads' && PlaceIsSafe(leads'[id], now, s)
    ensures !CutsIn(leads, leads', id)
  {
    forall m ensures !BackAhead(leads, leads', m, id) {
      if m in leads && m in leads' && leads[m].crm.status == Sending {
        assert RetryKeepsItsDistance(leads'[m].crm, now, s);
      }
    }
  }

  /** Before a lead whose place is safe no retry ever cuts in. */
  lemma {:induction false} SafePlacesAreKept(site: Site, early: Run, late: Run, id: nat)
    requires Valid(site, late) && Waits(early, late, id) && Queued(early.w.db.leads, early.w.now, id)
    requires PlaceIsSafe(early.w.db.leads[id], early.w.now, site.settings)
    ensures Cuts(early, late, id) == 0 && early.w.now <= late.w.now
    decreases late
  {
    if late != early {
      LastStep(site, late);
      SafePlacesAreKept(site, early, late.before, id);
      BoundedOvertaking(site, early, late.before, id);
      BoundedOvertaking(site, early, late, id);
      RunTimes(site, late.before);
      StepKeepsTimes(site, late.before.w, late.step, late.w);
      StepIsFar(site, late.before.w, late.step, late.w);
      FarRetriesDoNotCutIn(late.before.w.db.leads, late.w.db.leads, late.before.w.now, site.settings, id);
    }
  }
}
