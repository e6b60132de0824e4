/** Exactly when a retry cuts in before a claimable lead, and a run in which one does. */
module Overtaking {
  import opened Schema
  import opened Queries
  import opened HubSpot
  import opened CrmDelivery
  import opened System
  import opened DeliverySafety
  import opened ClaimQueue
  import opened Worker
  import opened Scenarios

  // ---------- exactly when ----------

  /** HubSpot answers `raw` to the request in flight, and writing the result puts the requesting
      lead before lead `id` as a retry. */
  ghost predicate CutsInBy(site: Site, w: World, raw: RawCreate, w1: World, w2: World, id: nat)
    requires w.phase.Calling? && id in w.db.leads
  {
    && CrmNext(site, w, CreateOutcome(raw), w1) && CrmNext(site, w1, CommitCreate, w2)
    && id in w2.db.leads && BackAhead(w1.db.leads, w2.db.leads, w.phase.lead, id)
  }

  ghost predicate CanCutIn(site: Site, w: World, id: nat)
    requires w.phase.Calling? && id in w.db.leads
  {
    exists raw, w1, w2 :: CutsInBy(site, w, raw, w1, w2, id)
  }

  /** The request can still be refused, the lead has a retry left, and that retry's configured
      delay ends before the place of lead `id`. */
  predicate RetryFitsBefore(s: Settings, w: World, id: nat)
    requires w.phase.Calling? && id in w.db.leads && w.phase.lead in w.db.leads && w.phase.call < |w.hub.calls|
  {
    var m, d := w.phase.lead, w.db.leads[w.phase.lead].crm;
    && w.hub.calls[w.phase.call].fate == InFlight && d.retries < 3
    && Precedes(Some(w.now + Seconds(RetryDelay(s, d.retries + 1))), m, DueOrCreated(w.db.leads[id]), id)
  }

  /** The row that the two steps leave behind. */
  lemma CutInRow(site: Site, w: World, raw: RawCreate, w1: World, w2: World, id: nat)
    requires Safe(w) && w.phase.Calling? && id in w.db.leads && CutsInBy(site, w, raw, w1, w2, id)
    ensures w.phase.lead in w.db.leads && w.phase.lead in w2.db.leads
    ensures NoContactMade(raw) && w.hub.calls[w.phase.call].fate == InFlight
    ensures var m, result := w.phase.lead, ClassifyCreate(raw);
      var applied := ApplyCreate(w.db.leads[m].crm, result, site.settings, site.lib.httpDate, w.now);
      applied.Ok? && w2.db.leads == WithRow(w.db.leads, m, applied.value.row)
  {
    ResendableIffNoContactMade(raw);
    var m, result := w.phase.lead, ClassifyCreate(raw);
    assert w1.db == w.db && w1.now == w.now && w1.phase == HoldingCreate(m, result);
    CommittedRow(site, w1, w2, m, result);
  }

  lemma CommittedRow(site: Site, w: World, w': World, m: nat, result: CreateResult)
    requires CrmNext(site, w, CommitCreate, w') && w.phase == HoldingCreate(m, result) && HasStatus(w.db, m, Sending)
    ensures var applied := ApplyCreate(w.db.leads[m].crm, result, site.settings, site.lib.httpDate, w.now);
      w'.db.leads == if applied.Ok? then WithRow(w.db.leads, m, applied.value.row) else w.db.leads
  {
  }

  lemma CutInFits(site: Site, w: World, raw: RawCreate, w1: World, w2: World, id: nat)
    requires Safe(w) && w.phase.Calling? && Queued(w.db.leads, w.now, id) && CutsInBy(site, w, raw, w1, w2, id)
    ensures w.phase.lead in w.db.leads && RetryFitsBefore(site.settings, w, id)
  {
    CutInRow(site, w, raw, w1, w2, id);
    assert RowOk(w.db.leads[w.phase.lead].crm, LedgerOf(w.crm, w.phase.lead));
    ScheduledRetryFits(w.db.leads, w.phase.lead, id, ClassifyCreate(raw), site.settings, site.lib.httpDate, w.now);
  }

  lemma ScheduledRetryFits(
      leads: Leads, m: nat, id: nat, result: CreateResult, s: Settings, httpDate: DateReader, now: Time)
    requires m in leads && id in leads && 0 <= leads[m].crm.retries <= 3 && leads[m].crm.status == Sending
    requires ApplyCreate(leads[m].crm, result, s, httpDate, now).Ok?
    requires var leads' := WithRow(leads, m, ApplyCreate(leads[m].crm, result, s, httpDate, now).value.row);
      BackAhead(leads, leads', m, id)
    ensures leads[m].crm.retries < 3
    ensures Precedes(Some(now + Seconds(RetryDelay(s, leads[m].crm.retries + 1))), m, DueOrCreated(leads[id]), id)
  {
    RetrySchedule(leads[m].crm, result, s, httpDate, now);
  }

  lemma FittingRetryCutsIn(site: Site, w: World, id: nat)
    requires Safe(w) && w.phase.Calling? && Queued(w.db.leads, w.now, id) && RetryFitsBefore(site.settings, w, id)
    ensures CanCutIn(site, w, id)
  {
    var m, raw := w.phase.lead, PreTransmissionFailure;
    var d, result := w.db.leads[m].crm, ClassifyCreate(raw);
    var w1 := Answered(w, raw);
    assert RowOk(d, LedgerOf(w.crm, m));
    assert CrmNext(site, w, CreateOutcome(raw), w1);
    HeldStep(site, w1);
    var w2 := Committed(w1, m, HeldOutcome(site, w1));
    var row := ApplyRetryable(d, result, site.settings, site.lib.httpDate, w.now).value.row;
    assert w2.db.leads == WithRow(w.db.leads, m, row);
    assert CutsInBy(site, w, raw, w1, w2, id);
  }

  /** In any run, while a create is in flight: its lead can come back before another, claimable
      lead if and only if the request can still be refused, a retry is left, and the configured
      delay ends before the other lead's place. */
  lemma RetryCutsInIff(site: Site, r: Run, id: nat)
    requires Valid(site, r) && r.w.phase.Calling? && Queued(r.w.db.leads, r.w.now, id)
    ensures r.w.phase.lead in r.w.db.leads && r.w.phase.call < |r.w.hub.calls|
    ensures CanCutIn(site, r.w, id) <==> RetryFitsBefore(site.settings, r.w, id)
  {
    RunsAreSafe(site, r);
    if RetryFitsBefore(site.settings, r.w, id) { FittingRetryCutsIn(site, r.w, id); }
    if CanCutIn(site, r.w, id) {
      var raw, w1, w2 :| CutsInBy(site, r.w, raw, w1, w2, id);
      CutInFits(site, r.w, raw, w1, w2, id);
    }
  }

  // ---------- a run in which a retry cuts in ----------

  /** Lead `second` was normalized so slowly that, by the worker's clock, it was created after
      the first retry of lead `first` would be due. */
  ghost predicate SlowlyNormalized(site: Site, w: World, first: nat, second: nat) {
    && w.db.leads.Keys == {first, second} && first < second
    && w.db.leads[first].crm == NEW_DELIVERY && w.db.leads[second].crm == NEW_DELIVERY
    && ValidContact(w.db.leads[first].identity.contact)
    && w.db.leads[first].identity.createdAt <= w.now
    && w.now + Seconds(site.settings.retryDelay1) <= w.db.leads[second].identity.createdAt <= w.clock
    && !w.db.pause.paused && CanStartCrm(w)
  }

  /** Nothing is in the way of claiming lead `m`. */
  ghost predicate NextToClaim(w: World, m: nat) {
    && CanStartCrm(w) && !w.db.pause.paused
    && SendingKeys(w.db.leads) == map[] && DueUnknownKeys(w.db.leads, w.now) == map[]
    && IsLeast(ClaimableKeys(w.db.leads, w.now), m) && ValidContact(w.db.leads[m].identity.contact)
  }

  function ClaimedDb(w: World, m: nat): Db
    requires m in w.db.leads
  {
    w.db.(leads := WithRow(w.db.leads, m, StartSending(w.db.leads[m].crm, w.now)))
  }

  function AfterClaimOf(w: World, m: nat): World
    requires m in w.db.leads
  {
    AfterClaim(w, ClaimedDb(w, m), Clear, Ok(Claimed(m, w.db.leads[m].identity.contact)))
  }

  lemma ClaimNext(site: Site, w: World, m: nat)
    requires NextToClaim(w, m)
    ensures m in w.db.leads
    ensures CrmNext(site, w, TryClaim(Clear, Ok(Claimed(m, w.db.leads[m].identity.contact))), AfterClaimOf(w, m))
  {
    assert m in ClaimableKeys(w.db.leads, w.now);
    ClaimStep(site, w, ClaimedDb(w, m), Clear, Ok(Claimed(m, w.db.leads[m].identity.contact)));
  }

  lemma SlowLeadWaits(site: Site, w: World, first: nat, second: nat)
    requires SlowlyNormalized(site, w, first, second) && ValidSettings(site.settings)
    ensures NextToClaim(w, first) && Queued(w.db.leads, w.now, second) && AheadOf(w.db.leads, second) == {first}
  {
  }

  /** One more step during which lead `id` still waits. */
  lemma WaitsOn(site: Site, early: Run, late: Run, step: Step, w: World, id: nat)
    requires Valid(site, late) && Waits(early, late, id) && Next(site, late.w, step, w)
    requires id in w.db.leads ==> Waiting(w.db.leads[id].crm.status)
    ensures Valid(site, Then(late, step, w)) && Waits(early, Then(late, step, w), id)
  {
    OneMoreStep(site, late, step, w);
  }

  /** What a refused create leaves in the row of a lead that has a retry left. */
  function RefusedRow(site: Site, d: Delivery, now: Time): Delivery {
    ApplyRetryable(StartSending(d, now), ClassifyCreate(PreTransmissionFailure), site.settings,
                   site.lib.httpDate, now).value.row
  }

  predicate HasRetryLeft(w: World, m: nat) { m in w.db.leads && w.db.leads[m].crm.retries < 3 }

  function AfterRefusal(site: Site, w: World, m: nat): World
    requires m in w.db.leads
  {
    var w1 := Answered(Sent(AfterClaimOf(w, m)), PreTransmissionFailure);
    Committed(w1, m, CreateResultTransaction(w1.db, m, ClassifyCreate(PreTransmissionFailure), site.settings,
                                             site.lib.httpDate, w1.now))
  }

  lemma RefusedWorld(site: Site, w: World, m: nat)
    requires HasRetryLeft(w, m) && CanStartCrm(w)
    ensures var w' := AfterRefusal(site, w, m);
      && w'.db == w.db.(leads := WithRow(w.db.leads, m, RefusedRow(site, w.db.leads[m].crm, w.now)))
      && w'.crm.claims == w.crm.claims + 1 && w'.crm.pauseReturns == w.crm.pauseReturns
      && CanStartCrm(w') && w'.now == w.now && w'.clock == w.clock && w'.mail == w.mail
  {
  }

  /** A claim and its request, while lead `id` waits. */
  lemma RequestedCreate(site: Site, early: Run, m: nat, id: nat) returns (late: Run)
    requires Valid(site, early) && NextToClaim(early.w, m) && m in early.w.db.leads
    requires id != m && (id in early.w.db.leads ==> Waiting(early.w.db.leads[id].crm.status))
    ensures Valid(site, late) && Waits(early, late, id) && late.w == Sent(AfterClaimOf(early.w, m))
  {
    var w := early.w;
    var claim, v1 := Crm(TryClaim(Clear, Ok(Claimed(m, w.db.leads[m].identity.contact)))), AfterClaimOf(w, m);
    ClaimNext(site, w, m);
    WaitsOn(site, early, early, claim, v1, id);
    late := Then(early, claim, v1);
    RequestSteps(site, v1, PreTransmissionFailure);
    WaitsOn(site, early, late, Crm(SendCreate), Sent(v1), id);
    late := Then(late, Crm(SendCreate), Sent(v1));
  }

  lemma RefusalSteps(site: Site, w: World, m: nat)
    requires HasRetryLeft(w, m) && CanStartCrm(w)
    ensures var v, raw := Sent(AfterClaimOf(w, m)), PreTransmissionFailure;
      && CrmNext(site, v, CreateOutcome(raw), Answered(v, raw))
      && CrmNext(site, Answered(v, raw), CommitCreate, AfterRefusal(site, w, m))
  {
    var v1 := AfterClaimOf(w, m);
    RequestSteps(site, v1, PreTransmissionFailure);
    HeldStep(site, Answered(Sent(v1), PreTransmissionFailure));
  }

  lemma AnsweredCreate(site: Site, early: Run, m: nat, id: nat) returns (late: Run)
    requires Valid(site, early) && NextToClaim(early.w, m) && m in early.w.db.leads
    requires early.w.db.leads[m].crm.retries < 3
    requires id != m && (id in early.w.db.leads ==> Waiting(early.w.db.leads[id].crm.status))
    ensures Valid(site, late) && Waits(early, late, id)
    ensures late.w == Answered(Sent(AfterClaimOf(early.w, m)), PreTransmissionFailure)
  {
    late := RequestedCreate(site, early, m, id);
    RefusalSteps(site, early.w, m);
    var v := Answered(late.w, PreTransmissionFailure);
    WaitsOn(site, early, late, Crm(CreateOutcome(PreTransmissionFailure)), v, id);
    late := Then(late, Crm(CreateOutcome(PreTransmissionFailure)), v);
  }

  /** Claim, request, refusal and result, all while lead `id` waits. */
  lemma RefusedCreate(site: Site, early: Run, m: nat, id: nat) returns (late: Run)
    requires Valid(site, early) && NextToClaim(early.w, m) && m in early.w.db.leads
    requires early.w.db.leads[m].crm.retries < 3
    requires id != m && (id in early.w.db.leads ==> Waiting(early.w.db.leads[id].crm.status))
    ensures Valid(site, late) && Waits(early, late, id) && late.w == AfterRefusal(site, early.w, m)
  {
    late := AnsweredCreate(site, early, m, id);
    RefusalSteps(site, early.w, m);
    RefusedWorld(site, early.w, m);
    WaitsOn(site, early, late, Crm(CommitCreate), AfterRefusal(site, early.w, m), id);
    late := Then(late, Crm(CommitCreate), AfterRefusal(site, early.w, m));
  }

  /** The next cycle begins, while lead `id` waits. */
  lemma NextCycle(site: Site, early: Run, late: Run, id: nat) returns (later: Run)
    requires Valid(site, late) && Waits(early, late, id) && CanStartCrm(late.w)
    ensures Valid(site, later) && Waits(early, later, id) && later.w == late.w.(now := late.w.clock, checking := false)
  {
    var w := late.w.(now := late.w.clock, checking := false);
    WaitsOn(site, early, late, Outside(BeginCycle), w, id);
    later := Then(late, Outside(BeginCycle), w);
  }

  lemma ClaimWhile(site: Site, early: Run, late: Run, m: nat, id: nat) returns (later: Run)
    requires Valid(site, late) && Waits(early, late, id) && NextToClaim(late.w, m) && m in late.w.db.leads && id != m
    ensures Valid(site, later) && Waits(early, later, id)
    ensures later.w.crm.claims == late.w.crm.claims + 1 && later.w.crm.pauseReturns == late.w.crm.pauseReturns
  {
    ClaimNext(site, late.w, m);
    var claim := Crm(TryClaim(Clear, Ok(Claimed(m, late.w.db.leads[m].identity.contact))));
    WaitsOn(site, early, late, claim, AfterClaimOf(late.w, m), id);
    later := Then(late, claim, AfterClaimOf(late.w, m));
  }

  /** In the next cycle the refused lead is again the one to claim. */
  lemma RefusedLeadIsNext(site: Site, w: World, w': World, first: nat, second: nat)
    requires SlowlyNormalized(site, w, first, second) && ValidSettings(site.settings)
    requires w'.db == w.db.(leads := WithRow(w.db.leads, first, RefusedRow(site, NEW_DELIVERY, w.now)))
    requires CanStartCrm(w') && w'.now == w.clock
    ensures NextToClaim(w', first)
  {
    FreshRefusal(site, w.now);
    assert w'.db.leads[first].crm == RefusedRow(site, NEW_DELIVERY, w.now);
    assert w'.db.leads[second] == w.db.leads[second];
  }

  lemma FreshRefusal(site: Site, now: Time)
    ensures var row := RefusedRow(site, NEW_DELIVERY, now);
      row.status == RetryPending && row.nextRetryAt == Some(now + Seconds(site.settings.retryDelay1))
  {
  }

  /** From such a moment on, the first lead is claimed twice before the second, which had only
      one lead ahead of it and saw no pause return: without the cuts the bound would fail. */
  lemma OvertakenTwice(site: Site, early: Run, first: nat, second: nat) returns (late: Run)
    requires Valid(site, early) && ValidSettings(site.settings) && SlowlyNormalized(site, early.w, first, second)
    ensures Valid(site, late) && Waits(early, late, second)
    ensures Queued(early.w.db.leads, early.w.now, second) && |AheadOf(early.w.db.leads, second)| == 1
    ensures late.w.crm.claims == early.w.crm.claims + 2 && late.w.crm.pauseReturns == early.w.crm.pauseReturns
  {
    var w := early.w;
    SlowLeadWaits(site, w, first, second);
    RefusedWorld(site, w, first);
    late := RefusedCreate(site, early, first, second);
    var next := NextCycle(site, early, late, second);
    RefusedLeadIsNext(site, w, next.w, first, second);
    late := ClaimWhile(site, early, next, first, second);
  }

  // ---------- such a moment occurs ----------

  /** The first cycle is cut off after its normalization, and the next one begins a second later. */
  function SecondLater(w: World): World { w.(clock := w.clock + Seconds(1), now := w.clock + Seconds(1)) }

  lemma CutOffCycle(site: Site, r: Run) returns (t: Run)
    requires Valid(site, r) && CanStartCrm(r.w)
    ensures Valid(site, t) && t.w == SecondLater(r.w)
  {
    OneMoreStep(site, r, Outside(Abandon), r.w);
    t := Then(r, Outside(Abandon), r.w);
    var w1 := r.w.(clock := r.w.clock + Seconds(1));
    OneMoreStep(site, t, Outside(Tick(w1.clock)), w1);
    t := Then(t, Outside(Tick(w1.clock)), w1);
    OneMoreStep(site, t, Outside(BeginCycle), SecondLater(r.w));
    t := Then(t, Outside(BeginCycle), SecondLater(r.w));
  }

  function AfterFirst(): World { SecondLater(Normalizing(IDLE, "a", Plain("a", "A"), 0)) }

  lemma SlowSecondDelivery() returns (r: Run)
    ensures Valid(Everyone("A"), r) && SlowlyNormalized(Everyone("A"), r.w, 1, 2)
  {
    var site := Everyone("A");
    r := Beginning(site, "a");
    EveryoneIsAccepted("a", "A");
    r := OneDelivery(site, r, "a", Plain("a", "A"), 0);
    r := CutOffCycle(site, r);
    SecondDelivery();
    EveryoneIsAccepted("b", "A");
    r := OneDelivery(site, r, "b", Plain("b", "A"), Seconds(61));
    SecondLead(r.w);
  }

  lemma SecondDelivery()
    ensures IntakeQuiet(AfterFirst(), "b") && AfterFirst().clock == Seconds(1)
  {
    var w := AfterFirst();
    forall other | other in w.db.leads
      ensures w.db.leads[other].identity.contact.integrationReference != Reference.ReferenceFor(2)
    {
      if Reference.ReferenceFor(1) == Reference.ReferenceFor(2) { Reference.ReferencesAreUnique(1, 2); }
    }
  }

  lemma SecondLead(w: World)
    requires w == Normalizing(AfterFirst(), "b", Plain("b", "A"), Seconds(61))
    ensures SlowlyNormalized(Everyone("A"), w, 1, 2)
  {
    PlainIsValid("a", 1);
  }

  /** The cuts are needed: some run has more claims before a waiting lead than there were leads
      ahead of it and pause returns. */
  lemma OvertakingNeedsCuts() returns (site: Site, early: Run, late: Run)
    ensures Valid(site, late) && ValidSite(site) && Waits(early, late, 2) && Queued(early.w.db.leads, early.w.now, 2)
    ensures late.w.crm.claims - early.w.crm.claims
         > |AheadOf(early.w.db.leads, 2)| + late.w.crm.pauseReturns - early.w.crm.pauseReturns
  {
    site := Everyone("A");
    early := SlowSecondDelivery();
    late := OvertakenTwice(site, early, 1, 2);
  }
}
