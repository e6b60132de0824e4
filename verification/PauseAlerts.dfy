/** Alerts of CRM pauses race with the operator who clears them and with new pauses. */
module PauseAlerts {
  import opened Schema
  import opened CrmDelivery
  import opened Notifications
  import opened System
  import opened DeliverySafety

  function StampOf(p: Pause): Stamp
    requires p.reason.Some? && p.pausedAt.Some?
  {
    Stamp(p.reason.value, p.pausedAt.value)
  }

  /** The current pause row is the last episode; an unpaused row carries nothing. */
  ghost predicate CurrentEpisode(p: Pause, episodes: seq<Stamp>) {
    && PauseChecks(p)
    && (!p.paused ==> p == UNPAUSED)
    && (p.paused ==> episodes != [] && episodes[|episodes| - 1] == StampOf(p))
  }

  /** Episode number `n` (from 1) has this stamp. */
  predicate IsEpisode(episodes: seq<Stamp>, n: nat, stamp: Stamp) {
    1 <= n <= |episodes| && episodes[n - 1] == stamp
  }

  /** Every accepted alert was captured for a real episode, and an alert in flight for the last
      one: the thread that sends it cannot start another pause meanwhile. */
  ghost predicate AlertsCaptured(notifier: Notifier, alerts: set<(nat, Stamp)>, episodes: seq<Stamp>) {
    && (forall a | a in alerts :: IsEpisode(episodes, a.0, a.1))
    && (notifier.SendingPause? ==>
         notifier.number == |episodes| && IsEpisode(episodes, notifier.number, notifier.stamp))
    && (notifier.SentPause? ==>
         notifier.number == |episodes| && IsEpisode(episodes, notifier.number, notifier.stamp))
    && (notifier.SentPause? && notifier.error.None? ==> (notifier.number, notifier.stamp) in alerts)
  }

  /** An alert for the very episode in force was accepted. */
  ghost predicate AlertBacked(p: Pause, alerts: set<(nat, Stamp)>, episodes: seq<Stamp>) {
    p.alertSentAt.Some? && p.paused && p.reason.Some? && p.pausedAt.Some? ==> (|episodes|, StampOf(p)) in alerts
  }

  /** The one thread sends mail or does CRM work, not both. */
  predicate OneThing(w: World) { w.phase == Idle || (w.notifier == Quiet && !w.checking) }

  /** A pause whose alert is on its way is not marked yet. */
  predicate Unmarked(w: World) {
    w.notifier.SendingPause? || w.notifier.SentPause? ==> w.db.pause.alertSentAt.None?
  }

  ghost predicate AlertsOk(w: World) {
    && CurrentEpisode(w.db.pause, w.crm.episodes)
    && AlertsCaptured(w.notifier, w.mail.pauseAlerts, w.crm.episodes)
    && AlertBacked(w.db.pause, w.mail.pauseAlerts, w.crm.episodes)
    && OneThing(w) && Unmarked(w)
  }

  lemma MoreEpisodes(notifier: Notifier, alerts: set<(nat, Stamp)>, episodes: seq<Stamp>, more: seq<Stamp>)
    requires AlertsCaptured(notifier, alerts, episodes) && (more == [] || notifier == Quiet)
    ensures AlertsCaptured(notifier, alerts, episodes + more)
  {
    assert forall n, stamp | IsEpisode(episodes, n, stamp) :: IsEpisode(episodes + more, n, stamp);
  }

  /** What a CRM step does to the pause row and the episode list. */
  lemma CrmPauses(site: Site, w: World, step: CrmStep, w': World)
    requires CrmNext(site, w, step, w')
    ensures w'.notifier == w.notifier && w'.mail == w.mail
    ensures || (w'.db.pause == w.db.pause && w'.crm.episodes == w.crm.episodes)
            || (exists reason :: w'.db.pause == ActivatePause(w.db.pause, Some(reason), w.now)
                                 && w'.crm.episodes == w.crm.episodes + NewEpisode(w.db.pause, w'.db.pause))
  {
    if step.CommitCreate? || step.CommitDecision? || step.CommitEvidence? {
      CommitPauses(site, w, step, w');
    }
  }

  lemma CommitPauses(site: Site, w: World, step: CrmStep, w': World)
    requires CrmNext(site, w, step, w') && (step.CommitCreate? || step.CommitDecision? || step.CommitEvidence?)
    ensures w'.notifier == w.notifier && w'.mail == w.mail
    ensures || (w'.db.pause == w.db.pause && w'.crm.episodes == w.crm.episodes)
            || (exists reason :: w'.db.pause == ActivatePause(w.db.pause, Some(reason), w.now)
                                 && w'.crm.episodes == w.crm.episodes + NewEpisode(w.db.pause, w'.db.pause))
  {
    if HasStatus(w.db, w.phase.lead, if step.CommitEvidence? then Unknown else Sending) {
      var l := w.db.leads[w.phase.lead];
      var s, httpDate := site.settings, site.lib.httpDate;
      var applied :=
        if step.CommitCreate? then ApplyCreate(l.crm, w.phase.result, s, httpDate, w.now)
        else if step.CommitDecision? then Ok(ApplyDecision(l.crm, w.phase.decision, w.now))
        else ApplyEvidence(l.crm, l.identity.contact, w.phase.read, s, httpDate, w.now);
      if applied.Ok? {
        assert w'.db.pause == ActivatePause(w.db.pause, applied.value.pause, w.now);
        assert w'.crm.episodes == w.crm.episodes + NewEpisode(w.db.pause, w'.db.pause);
        if applied.value.pause.Some? {
          assert w'.db.pause == ActivatePause(w.db.pause, Some(applied.value.pause.value), w.now);
        } else {
          assert NewEpisode(w.db.pause, w'.db.pause) == [];
        }
      }
    }
  }

  lemma CrmKeepsOneThing(site: Site, w: World, step: CrmStep, w': World)
    requires OneThing(w) && CrmNext(site, w, step, w')
    ensures w.notifier == Quiet && OneThing(w')
  {
  }

  lemma CrmKeepsAlerts(site: Site, w: World, step: CrmStep, w': World)
    requires AlertsOk(w) && CrmNext(site, w, step, w')
    ensures AlertsOk(w')
    ensures w.db.pause.paused ==> w'.db.pause == w.db.pause
  {
    CrmPauses(site, w, step, w');
    CrmKeepsOneThing(site, w, step, w');
    MoreEpisodes(w.notifier, w.mail.pauseAlerts, w.crm.episodes, NewEpisode(w.db.pause, w'.db.pause));
  }

  lemma NotifyKeepsAlerts(site: Site, w: World, step: NotifyStep, w': World)
    requires AlertsOk(w) && NotifyNext(site, w, step, w')
    ensures AlertsOk(w')
  {
    NotifyLeads(site, w, step, w');
    match step
    case StartFailures(_, _) =>
    case StartPause =>
    case StartClustered(_) =>
    case SmtpAnswer(_) =>
    case Finish => FinishKeepsAlerts(site, w, w');
  }

  lemma FinishKeepsAlerts(site: Site, w: World, w': World)
    requires AlertsOk(w) && NotifyNext(site, w, Finish, w')
    ensures AlertsOk(w')
  {
    if w.notifier.SentPause? && SameEpisode(w.db.pause, w.notifier.stamp) {
      assert StampOf(w.db.pause) == w.notifier.stamp;
    }
  }

  lemma OutsideKeepsAlerts(w: World, step: OutsideStep, w': World)
    requires AlertsOk(w) && OutsideNext(w, step, w')
    ensures AlertsOk(w')
  {
  }

  lemma IntakeKeepsAlerts(site: Site, w: World, step: IntakeStep, w': World)
    requires AlertsOk(w) && IntakeNext(site, w, step, w')
    ensures AlertsOk(w')
  {
    IntakeLeads(site, w, step, w');
  }

  lemma StepKeepsAlerts(site: Site, w: World, step: Step, w': World)
    requires AlertsOk(w) && Next(site, w, step, w')
    ensures AlertsOk(w')
  {
    match step
    case Crm(c) => CrmKeepsAlerts(site, w, c, w');
    case Intake(i) => IntakeKeepsAlerts(site, w, i, w');
    case Notify(n) => NotifyKeepsAlerts(site, w, n, w');
    case Outside(o) => OutsideKeepsAlerts(w, o, w');
  }

  lemma {:induction false} RunAlerts(site: Site, r: Run)
    requires Valid(site, r)
    ensures AlertsOk(r.w)
  {
    if r.Then? {
      LastStep(site, r);
      RunAlerts(site, r.before);
      StepKeepsAlerts(site, r.before.w, r.step, r.w);
    }
  }

  // ---------- the promises ----------

  /** A pause is marked as alerted only after a message about exactly this episode was accepted,
      wherever clears and new pauses fall; and no alert state outlives its pause. */
  lemma AlertsAreAttributed(site: Site, r: Run)
    requires Valid(site, r)
    ensures !r.w.db.pause.paused ==> r.w.db.pause == UNPAUSED
    ensures r.w.db.pause.alertSentAt.Some? ==>
      exists stamp :: (|r.w.crm.episodes|, stamp) in r.w.mail.pauseAlerts
        && r.w.db.pause.reason == Some(stamp.reason) && r.w.db.pause.pausedAt == Some(stamp.pausedAt)
  {
    RunAlerts(site, r);
    AttributedAlerts(r.w);
  }

  lemma AttributedAlerts(w: World)
    requires AlertsOk(w)
    ensures w.db.pause.alertSentAt.Some? ==>
      exists stamp :: (|w.crm.episodes|, stamp) in w.mail.pauseAlerts
        && w.db.pause.reason == Some(stamp.reason) && w.db.pause.pausedAt == Some(stamp.pausedAt)
  {
    if w.db.pause.alertSentAt.Some? {
      var stamp := StampOf(w.db.pause);
      assert (|w.crm.episodes|, stamp) in w.mail.pauseAlerts;
    }
  }

  /** While an alert is on its way no other pause can begin, so the guard on the stamp never has
      to tell two pauses apart: an alert that is marked is marked on the episode it was captured
      for, and it is stale if and only if the operator has cleared that pause meanwhile. */
  lemma AlertsMeetTheirEpisode(site: Site, r: Run)
    requires Valid(site, r) && r.w.notifier.SentPause?
    ensures r.w.notifier.number == |r.w.crm.episodes|
    ensures var n := r.w.notifier;
      FinishPauseAlert(r.w.db.pause, n.stamp, n.at, n.error).1 == StaleEpisode <==> !r.w.db.pause.paused
  {
    RunAlerts(site, r);
  }

  /** Until the operator clears it, a pause keeps its first reason and its start. */
  lemma FirstReasonIsKept(site: Site, r: Run)
    requires Valid(site, r) && r.Then? && r.step != Outside(OperatorClear) && r.before.w.db.pause.paused
    ensures var p, q := r.before.w.db.pause, r.w.db.pause;
      q.paused && q.reason == p.reason && q.pausedAt == p.pausedAt
  {
    LastStep(site, r);
    RunAlerts(site, r.before);
    PauseIsKept(site, r.before.w, r.step, r.w);
  }

  lemma PauseIsKept(site: Site, w: World, step: Step, w': World)
    requires AlertsOk(w) && Next(site, w, step, w') && step != Outside(OperatorClear) && w.db.pause.paused
    ensures w'.db.pause.paused && w'.db.pause.reason == w.db.pause.reason && w'.db.pause.pausedAt == w.db.pause.pausedAt
  {
    match step
    case Crm(c) => CrmKeepsAlerts(site, w, c, w');
    case Intake(i) => IntakeLeads(site, w, i, w');
    case Notify(n) => NotifyLeads(site, w, n, w');
    case Outside(_) =>
  }

  /** What the guard would do if two pauses could meet one alert: it tells them apart if and only
      if they differ in reason or instant. */
  lemma CapturedAlertMarksALaterPauseIff(reason: PauseReason, t: Time, reason': PauseReason, t': Time, at: Time)
    ensures var first := ActivatePause(UNPAUSED, Some(reason), t);
      var second := ActivatePause(ClearPause(first), Some(reason'), t');
      && StartPauseAlert(first) == Capture(Stamp(reason, t))
      && (FinishPauseAlert(second, Stamp(reason, t), at, None).0.alertSentAt.Some? <==>
          (reason' == reason && t' == t))
  {
  }
}
