/** One cycle of the worker: intake, one unit of CRM work, and the alert of a new pause. */
module WorkerCycle {
  import opened Schema
  import opened CrmDelivery
  import HubSpot
  import opened IntakeVerdicts
  import opened Normalization
  import opened NotificationVerdicts
  import opened Selections
  import opened Store
  import opened System
  import opened Worker
  import opened NotificationCheck

  // ---------- intake ----------

  function Ticked(w: World, to: Time): World { w.(clock := to) }

  function EventClaimed(w: World, db: Schema.Db, claimed: Option<StoredEvent>): World {
    w.(db := db, normalizers := if claimed.Some? then w.normalizers + [claimed.value] else w.normalizers)
  }

  lemma TakeAny(site: Site, w: World, t: Run, step: Step, w': World)
    requires Walked(site, w, t) && Next(site, t.w, step, w')
    ensures Walked(site, w, Then(t, step, w'))
  {
    OneMoreStep(site, t, step, w');
  }

  lemma IntakeSteps(
      site: Site, w: World, db1: Schema.Db, recovery: Recovery, db2: Schema.Db, claimed: Option<StoredEvent>)
    requires RecoverEventTransaction(w.db, site.settings.leaseSeconds, w.now, db1, recovery)
    requires ClaimEventTransaction(db1, w.now, db2, claimed)
    ensures var w1 := w.(db := db1);
      && Next(site, w, Intake(RecoverEvent(recovery)), w1)
      && Next(site, w1, Intake(ClaimEvent(claimed)), EventClaimed(w1, db2, claimed))
  {
  }

  lemma IntakeStretch(
      site: Site, w: World, db1: Schema.Db, recovery: Recovery, db2: Schema.Db, claimed: Option<StoredEvent>)
    returns (t: Run)
    requires RecoverEventTransaction(w.db, site.settings.leaseSeconds, w.now, db1, recovery)
    requires ClaimEventTransaction(db1, w.now, db2, claimed)
    ensures Walked(site, w, t) && t.w == EventClaimed(w, db2, claimed)
  {
    IntakeSteps(site, w, db1, recovery, db2, claimed);
    var w1 := w.(db := db1);
    t := Then(Start(w), Intake(RecoverEvent(recovery)), w1);
    TakeAny(site, w, Start(w), Intake(RecoverEvent(recovery)), w1);
    TakeAny(site, w, t, Intake(ClaimEvent(claimed)), EventClaimed(w1, db2, claimed));
    t := Then(t, Intake(ClaimEvent(claimed)), EventClaimed(w1, db2, claimed));
  }

  lemma NormalizeSteps(
      site: Site, w: World, later: Time, db: Schema.Db, result: Result<NormalizationOutcome, NormalizationError>)
    requires |w.normalizers| == 1 && later >= w.clock
    requires NormalizeTransaction(w.db, w.normalizers[0], site.lib, later, db, result)
    ensures Next(site, w, Outside(Tick(later)), Ticked(w, later))
    ensures Next(site, Ticked(w, later), Intake(Normalize(0, result)), Ticked(w, later).(db := db, normalizers := []))
  {
  }

  lemma NormalizeStretch(
      site: Site, w: World, t: Run, later: Time, db: Schema.Db,
      result: Result<NormalizationOutcome, NormalizationError>) returns (t': Run)
    requires Walked(site, w, t) && |t.w.normalizers| == 1 && later >= t.w.clock
    requires NormalizeTransaction(t.w.db, t.w.normalizers[0], site.lib, later, db, result)
    ensures Walked(site, w, t') && t'.w == t.w.(clock := later, db := db, normalizers := [])
  {
    NormalizeSteps(site, t.w, later, db, result);
    var w1 := Ticked(t.w, later);
    TakeAny(site, w, t, Outside(Tick(later)), w1);
    t' := Then(t, Outside(Tick(later)), w1);
    TakeAny(site, w, t', Intake(Normalize(0, result)), w1.(db := db, normalizers := []));
    t' := Then(t', Intake(Normalize(0, result)), w1.(db := db, normalizers := []));
  }

  /** The claimed event was normalized in the database the claim left behind. */
  ghost predicate Normalizes(
      db: Schema.Db, stored: StoredEvent, lib: Library, now: Time, db': Schema.Db,
      result: Result<NormalizationOutcome, NormalizationError>)
  {
    && NormalizeTransaction(db, stored, lib, now, db', result)
    && (InOrder(db, stored) ==> NormalizeVerdict(db, stored, lib, now, db', result))
  }

  /** Intake in full: the event stuck longest is recovered, the RECEIVED event that came first is
      claimed and normalized, and the cycle is told whether there was any of this to do. */
  ghost predicate IntakeVerdict(
      site: Site, db: Schema.Db, now: Time, later: Time, db': Schema.Db, useful: Result<bool, NormalizationError>)
  {
    exists recovery, recovered, claimed, held ::
      && RecoveryVerdict(db, site.settings.leaseSeconds, now, recovered, recovery)
      && EventClaimVerdict(recovered, now, held, claimed)
      && (claimed.None? ==> db' == held && useful == Ok(!recovery.NoRecovery?))
      && (claimed.Some? ==>
           exists result :: Normalizes(held, claimed.value, site.lib, later, db', result)
                            && useful == if result.Ok? then Ok(true) else Err(result.error))
  }

  /** Nothing came in and nothing is stuck. */
  ghost predicate IntakeIdle(db: Schema.Db, lease: int, now: Time) {
    forall e: nat :: !IsReceived(db, e) && !IsStuck(db, lease, now, e)
  }

  lemma IntakeResult(
      site: Site, db: Schema.Db, now: Time, later: Time, recovery: Recovery, recovered: Schema.Db,
      claimed: Option<StoredEvent>, held: Schema.Db, db': Schema.Db, useful: Result<bool, NormalizationError>)
    requires RecoverEventTransaction(db, site.settings.leaseSeconds, now, recovered, recovery)
    requires ClaimEventTransaction(recovered, now, held, claimed)
    requires claimed.None? ==> db' == held && useful == Ok(!recovery.NoRecovery?)
    requires claimed.Some? ==>
      exists result :: NormalizeTransaction(held, claimed.value, site.lib, later, db', result)
                       && useful == if result.Ok? then Ok(true) else Err(result.error)
    ensures IntakeVerdict(site, db, now, later, db', useful)
    ensures useful == Ok(false) <==> IntakeIdle(db, site.settings.leaseSeconds, now)
    ensures useful == Ok(false) ==> db' == db
  {
    RecoveryVerdicts(db, site.settings.leaseSeconds, now, recovered, recovery);
    EventClaimVerdicts(recovered, now, held, claimed);
    if claimed.Some? {
      var result :| NormalizeTransaction(held, claimed.value, site.lib, later, db', result)
                    && useful == if result.Ok? then Ok(true) else Err(result.error);
      if InOrder(held, claimed.value) { NormalizeVerdicts(held, claimed.value, site.lib, later, db', result); }
      assert Normalizes(held, claimed.value, site.lib, later, db', result);
    }
  }

  /** The intake half of `run_worker_cycle`: one recovery, one claim, one normalization, which
      reads the wall clock anew. */
  method RunIntake(db: Database, site: Site, now: Time, later: Time, ghost w: World)
    returns (useful: Result<bool, NormalizationError>, ghost t: Run)
    requires Serving(db.Db(), w, now) && w.normalizers == [] && w.clock <= later
    modifies db
    ensures Walked(site, w, t) && Serving(db.Db(), t.w, now) && t.w.normalizers == [] && t.w.hub == w.hub
    ensures IntakeVerdict(site, w.db, now, later, db.Db(), useful)
    ensures useful == Ok(false) <==> IntakeIdle(w.db, site.settings.leaseSeconds, now)
    ensures useful == Ok(false) ==> db.Db() == w.db
    ensures db.pause == w.db.pause
  {
    var recovery := db.RecoverOneStaleProcessing(site.settings.leaseSeconds, now);
    ghost var recovered := db.Db();
    var claimed := db.ClaimOneReceived(now);
    ghost var held := db.Db();
    t := IntakeStretch(site, w, recovered, recovery, held, claimed);
    useful := Ok(recovery != NoRecovery || claimed.Some?);
    if claimed.Some? {
      var result := db.NormalizeWebhookEvent(claimed.value, site.lib, later);
      t := NormalizeStretch(site, w, t, later, db.Db(), result);
      if result.Err? { useful := Err(result.error); }
    }
    IntakeResult(site, w.db, now, later, recovery, recovered, claimed, held, db.Db(), useful);
  }

  // ---------- the cycle ----------

  datatype CycleError = NormalizationRaised(n: NormalizationError) | DeliveryRaised(d: DeliveryError)

  /** The database and world after a cycle: at rest, nothing in hand, one create at most. */
  ghost predicate Cycled(site: Site, w: World, t: Run, db: Schema.Db) {
    && Walked(site, w, t) && t.w.db == db && CanStartCrm(t.w) && t.w.normalizers == []
    && |t.w.hub.calls| <= |w.hub.calls| + 1
  }

  /** A cycle in full: intake, then one unit of CRM work, then the alert of a pause that this unit
      activated. An exception of intake or of the unit ends the cycle there. */
  ghost predicate CycleVerdict(
      site: Site, db: Schema.Db, now: Time, later: Time, hub: Answers, smtp: Sending, db': Schema.Db,
      useful: Result<bool, CycleError>)
  {
    exists taken, intake ::
      && IntakeVerdict(site, db, now, later, taken, intake)
      && (intake.Err? ==> db' == taken && useful == Err(NormalizationRaised(intake.error)))
      && (intake.Ok? ==> WorkVerdict(site, taken, now, hub, smtp, db', intake.value, useful))
  }

  /** The second half of a cycle, whose intake was useful or not. */
  ghost predicate WorkVerdict(
      site: Site, db: Schema.Db, now: Time, hub: Answers, smtp: Sending, db': Schema.Db, intake: bool,
      useful: Result<bool, CycleError>)
  {
    exists worked, action ::
      && UnitVerdict(site, db, now, hub, worked, action)
      && db' == worked.(pause := db'.pause)
      && useful == (if action.Err? then Err(DeliveryRaised(action.error)) else Ok(intake || IsWork(action.value)))
      && (action == Ok(PauseActivated) ==> PauseAlertVerdict(worked.pause, now, smtp, db'.pause))
      && (action != Ok(PauseActivated) ==> db' == worked)
  }

  /** The immediate alert: made for a pause that the unit activated, and for nothing else. */
  method AlertNewPause(db: Database, site: Site, now: Time, smtp: Sending, action: Action, ghost w: World)
    returns (ghost t: Run)
    requires CanStartCrm(w) && w.db == db.Db() && w.now == now
    modifies db
    ensures Walked(site, w, t) && t.w.db == db.Db() && CanStartCrm(t.w)
    ensures t.w.hub == w.hub && t.w.normalizers == w.normalizers
    ensures db.Db() == w.db.(pause := db.pause)
    ensures action == PauseActivated ==> PauseAlertVerdict(w.db.pause, now, smtp, db.pause)
    ensures action != PauseActivated ==> db.pause == w.db.pause
  {
    t := Start(w);
    if action == PauseActivated {
      var alerted;
      alerted, t := ProcessCrmPauseAlert(db, site, now, smtp, w);
    }
  }

  lemma WorkResult(
      site: Site, db: Schema.Db, now: Time, hub: Answers, smtp: Sending, worked: Schema.Db, db': Schema.Db,
      intake: bool, action: Result<Action, DeliveryError>)
    requires UnitVerdict(site, db, now, hub, worked, action) && db' == worked.(pause := db'.pause)
    requires action == Ok(PauseActivated) ==> PauseAlertVerdict(worked.pause, now, smtp, db'.pause)
    requires action != Ok(PauseActivated) ==> db' == worked
    ensures var useful := if action.Err? then Err(DeliveryRaised(action.error)) else Ok(intake || IsWork(action.value));
      && WorkVerdict(site, db, now, hub, smtp, db', intake, useful)
      && (useful == Ok(false) ==> !intake && (db' == db || db.pause.paused))
  {
  }

  /** The second half of `run_worker_cycle`. */
  method RunWork(db: Database, site: Site, now: Time, hub: Answers, smtp: Sending, intake: bool, ghost w: World)
    returns (useful: Result<bool, CycleError>, ghost t: Run)
    requires Serving(db.Db(), w, now) && w.normalizers == []
    modifies db
    ensures Cycled(site, w, t, db.Db())
    ensures WorkVerdict(site, w.db, now, hub, smtp, db.Db(), intake, useful)
    ensures useful == Ok(false) ==> !intake && (db.Db() == w.db || w.db.pause.paused)
  {
    var action;
    action, t := ProcessOneCrmWork(db, site, now, hub, w);
    OneRequestAtMost(w.db, now, hub.create, w.hub, t.w.hub);
    ghost var worked := db.Db();
    if action.Err? {
      WorkResult(site, w.db, now, hub, smtp, worked, worked, intake, action);
      return Err(DeliveryRaised(action.error)), t;
    }
    ghost var u := AlertNewPause(db, site, now, smtp, action.value, t.w);
    Joined(site, w, t, u);
    t := Append(t, u);
    useful := Ok(intake || IsWork(action.value));
    WorkResult(site, w.db, now, hub, smtp, worked, db.Db(), intake, action);
  }

  lemma OneRequestAtMost(db: Schema.Db, now: Time, raw: HubSpot.RawCreate, hub: Hub, hub': Hub)
    requires RequestsInTurn(db, now, raw, hub, hub')
    ensures |hub'.calls| <= |hub.calls| + 1
  {
    if id :| NextToSend(db, now, id) && HubSpot.ValidContact(db.leads[id].identity.contact) {
      assert OneRequest(hub, hub', id, db.leads[id].identity.contact, raw);
    }
  }

  /** `run_worker_cycle`. A cycle that reports nothing useful has changed nothing, unless CRM
      work is paused. */
  method RunWorkerCycle(db: Database, site: Site, now: Time, later: Time, hub: Answers, smtp: Sending, ghost w: World)
    returns (useful: Result<bool, CycleError>, ghost t: Run)
    requires Serving(db.Db(), w, now) && w.normalizers == [] && w.clock <= later
    modifies db
    ensures Cycled(site, w, t, db.Db())
    ensures CycleVerdict(site, w.db, now, later, hub, smtp, db.Db(), useful)
    ensures useful == Ok(false) ==> db.Db() == w.db || w.db.pause.paused
  {
    var intake;
    intake, t := RunIntake(db, site, now, later, w);
    if intake.Err? { return Err(NormalizationRaised(intake.error)), t; }
    ghost var taken := db.Db();
    ghost var u;
    useful, u := RunWork(db, site, now, hub, smtp, intake.value, t.w);
    Joined(site, w, t, u);
    t := Append(t, u);
    assert IntakeVerdict(site, w.db, now, later, taken, intake);
  }
}
