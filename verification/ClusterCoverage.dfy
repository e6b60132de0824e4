/** What becomes of every technical failure a lead records: an episode takes it, every check so
    far had a reason to pass it over, or it met a freeze at its own instant. */
module ClusterCoverage {
  import opened Schema
  import opened Notifications
  import opened System
  import opened DeliverySafety
  import opened ClaimQueue
  import opened ClusterAlerts

  /** Freeze `k` holds the lead, and since then its failure is the same one or not earlier. */
  ghost predicate HeldBy(f: Frozen, id: nat, t: Time) {
    id in f.failures && f.failures[id] <= f.at && (f.failures[id] == t || f.at <= t)
  }

  /** The mark of lead `id` at instant `at` stems from a freeze that holds the lead. */
  ghost predicate Backed(frozen: seq<Frozen>, id: nat, at: Time, t: Time) {
    exists k :: 0 <= k < |frozen| && frozen[k].at == at && HeldBy(frozen[k], id, t)
  }

  /** Every cluster mark of the lead is backed, and a marked lead has failed. */
  ghost predicate MarksBacked(l: Lead, id: nat, frozen: seq<Frozen>) {
    && (l.notice.clusterPendingAt.Some? ==>
         && l.crm.lastTechnicalFailureAt.Some?
         && Backed(frozen, id, l.notice.clusterPendingAt.value, l.crm.lastTechnicalFailureAt.value))
    && (l.notice.clusterAlertedAt.Some? ==>
         && l.crm.lastTechnicalFailureAt.Some?
         && Backed(frozen, id, l.notice.clusterAlertedAt.value, l.crm.lastTechnicalFailureAt.value))
  }

  ghost predicate AllBacked(leads: Leads, frozen: seq<Frozen>) {
    forall id | id in leads :: MarksBacked(leads[id], id, frozen)
  }

  ghost predicate FrozenBy(frozen: seq<Frozen>, now: Time) { forall k | 0 <= k < |frozen| :: frozen[k].at <= now }

  ghost predicate CoverageOk(w: World) { AllBacked(w.db.leads, w.mail.frozen) && FrozenBy(w.mail.frozen, w.now) }

  lemma LaterFailureIsBacked(frozen: seq<Frozen>, id: nat, at: Time, t: Time, now: Time)
    requires Backed(frozen, id, at, t) && FrozenBy(frozen, now)
    ensures Backed(frozen, id, at, now)
  {
    var k :| 0 <= k < |frozen| && frozen[k].at == at && HeldBy(frozen[k], id, t);
    assert HeldBy(frozen[k], id, now);
  }

  lemma LongerLogBacks(frozen: seq<Frozen>, f: Frozen, id: nat, at: Time, t: Time)
    requires Backed(frozen, id, at, t)
    ensures Backed(frozen + [f], id, at, t)
  {
    var k :| 0 <= k < |frozen| && frozen[k].at == at && HeldBy(frozen[k], id, t);
    assert (frozen + [f])[k] == frozen[k];
  }

  lemma FrameKeepsBacking(leads: Leads, leads': Leads, frozen: seq<Frozen>, now: Time)
    requires AllBacked(leads, frozen) && FrozenBy(frozen, now) && ClusterFrame(leads, leads', now)
    ensures AllBacked(leads', frozen)
  {
    forall id | id in leads' ensures MarksBacked(leads'[id], id, frozen) {
      if id in leads {
        assert MarksBacked(leads[id], id, frozen);
        var l, l' := leads[id], leads'[id];
        if l'.crm.lastTechnicalFailureAt != l.crm.lastTechnicalFailureAt {
          if l.notice.clusterPendingAt.Some? {
            LaterFailureIsBacked(frozen, id, l.notice.clusterPendingAt.value, l.crm.lastTechnicalFailureAt.value, now);
          }
          if l.notice.clusterAlertedAt.Some? {
            LaterFailureIsBacked(frozen, id, l.notice.clusterAlertedAt.value, l.crm.lastTechnicalFailureAt.value, now);
          }
        }
      }
    }
  }

  lemma FreezeKeepsBacking(leads: Leads, ids: set<nat>, now: Time, cutoff: Time, frozen: seq<Frozen>)
    requires AllBacked(leads, frozen) && FrozenBy(frozen, now) && RowTimesOk(leads, now)
    requires ids == Qualifying(leads, cutoff)
    ensures var frozen' := frozen + [Frozen(now, Failures(leads, ids))];
      AllBacked(Freeze(leads, ids, now), frozen') && FrozenBy(frozen', now)
  {
    var f := Frozen(now, Failures(leads, ids));
    var leads', frozen' := Freeze(leads, ids, now), frozen + [f];
    forall id | id in leads' ensures MarksBacked(leads'[id], id, frozen') {
      assert MarksBacked(leads[id], id, frozen) && RowTimes(leads[id], now);
      var l := leads[id];
      if l.notice.clusterPendingAt.Some? {
        LongerLogBacks(frozen, f, id, l.notice.clusterPendingAt.value, l.crm.lastTechnicalFailureAt.value);
      } else if id in ids {
        assert frozen'[|frozen|] == f && HeldBy(f, id, l.crm.lastTechnicalFailureAt.value);
      }
      if l.notice.clusterAlertedAt.Some? {
        LongerLogBacks(frozen, f, id, l.notice.clusterAlertedAt.value, l.crm.lastTechnicalFailureAt.value);
      }
    }
  }

  lemma StartKeepsBacking(site: Site, w: World, episode: Option<Episode>, w': World)
    requires CoverageOk(w) && RowTimesOk(w.db.leads, w.now) && NotifyNext(site, w, StartClustered(episode), w')
    ensures CoverageOk(w')
  {
    if w'.db.leads != w.db.leads {
      var cutoff := w.now - Seconds(site.settings.clusterWindow);
      var ids := Qualifying(w.db.leads, cutoff);
      assert w'.db.leads == Freeze(w.db.leads, ids, w.now);
      NothingPending(w.db.leads);
      assert PendingAt(w'.db.leads, w.now) == ids;
      FreezeKeepsBacking(w.db.leads, ids, w.now, cutoff, w.mail.frozen);
    }
  }

  lemma FinishKeepsBacking(leads: Leads, episode: Episode, sent: bool, frozen: seq<Frozen>)
    requires AllBacked(leads, frozen)
    ensures AllBacked(FinishCluster(leads, episode, sent).0, frozen)
  {
    var leads' := FinishCluster(leads, episode, sent).0;
    forall id | id in leads' ensures MarksBacked(leads'[id], id, frozen) { assert MarksBacked(leads[id], id, frozen); }
  }

  lemma NotifyKeepsBacking(site: Site, w: World, step: NotifyStep, w': World)
    requires CoverageOk(w) && RowTimesOk(w.db.leads, w.now) && NotifyNext(site, w, step, w')
    ensures CoverageOk(w')
  {
    if !ClusterWork(w, step) {
      OtherNotifyFrame(site, w, step, w');
      FrameKeepsBacking(w.db.leads, w'.db.leads, w.mail.frozen, w.now);
    } else if step.StartClustered? {
      StartKeepsBacking(site, w, step.episode, w');
    } else if step.Finish? {
      FinishKeepsBacking(w.db.leads, w.notifier.episode, w.notifier.error.None?, w.mail.frozen);
    }
  }

  lemma StepKeepsBacking(site: Site, w: World, step: Step, w': World)
    requires CoverageOk(w) && RowTimesOk(w.db.leads, w.now) && w.now <= w.clock && Next(site, w, step, w')
    ensures CoverageOk(w')
  {
    match step
    case Crm(c) =>
      CrmClusterFrame(site, w, c, w');
      FrameKeepsBacking(w.db.leads, w'.db.leads, w.mail.frozen, w.now);
    case Intake(i) =>
      IntakeLeads(site, w, i, w');
      FrameKeepsBacking(w.db.leads, w'.db.leads, w.mail.frozen, w.now);
    case Notify(n) => NotifyKeepsBacking(site, w, n, w');
    case Outside(o) => OutsideLeads(w, o, w');
  }

  lemma {:induction false} RunCoverage(site: Site, r: Run)
    requires Valid(site, r) && ValidSite(site)
    ensures ClusterOk(r.w) && CoverageOk(r.w)
  {
    RunClusters(site, r);
    if r.Then? {
      LastStep(site, r);
      RunCoverage(site, r.before);
      RunTimes(site, r.before);
      StepKeepsBacking(site, r.before.w, r.step, r.w);
    }
  }

  // ---------- failures that no episode has taken ----------

  /** The last failure of the lead is newer than every mark it carries. */
  predicate Outstanding(l: Lead) {
    && l.crm.lastTechnicalFailureAt.Some?
    && (l.notice.clusterPendingAt.Some? ==> l.notice.clusterPendingAt.value < l.crm.lastTechnicalFailureAt.value)
    && (l.notice.clusterAlertedAt.Some? ==> l.notice.clusterAlertedAt.value < l.crm.lastTechnicalFailureAt.value)
  }

  /** Why a check does not take a failure recorded at `t`: an episode is open, the failure is
      older than the window, or too few leads qualify. */
  ghost predicate PassedOver(leads: Leads, s: Settings, now: Time, t: Time) {
    || PendingKeys(leads) != map[]
    || t < now - Seconds(s.clusterWindow)
    || |Qualifying(leads, now - Seconds(s.clusterWindow))| < s.clusterThreshold
  }

  predicate HasFailure(w: World, id: nat, t: Time) {
    id in w.db.leads && w.db.leads[id].crm.lastTechnicalFailureAt == Some(t)
  }

  predicate ChecksCluster(step: Step) { step.Notify? && step.n.StartClustered? }

  /** Every cluster check since the failure at `t` was recorded has passed it over. */
  ghost predicate PassedOverSince(site: Site, r: Run, id: nat, t: Time) {
    r.Then? && HasFailure(r.before.w, id, t) ==>
      && PassedOverSince(site, r.before, id, t)
      && (ChecksCluster(r.step) ==> PassedOver(r.before.w.db.leads, site.settings, r.before.w.now, t))
  }

  lemma FrameKeepsOutstanding(leads: Leads, leads': Leads, now: Time, id: nat, t: Time)
    requires ClusterFrame(leads, leads', now) && id in leads && id in leads'
    requires leads[id].crm.lastTechnicalFailureAt == Some(t) && leads'[id].crm.lastTechnicalFailureAt == Some(t)
    ensures Outstanding(leads'[id]) == Outstanding(leads[id])
  {
  }

  /** A check leaves a failure outstanding only if it passes it over. */
  lemma StartPassesOver(leads: Leads, s: Settings, now: Time, leads': Leads, episode: Option<Episode>, id: nat, t: Time)
    requires StartCluster(leads, s, now, leads', episode) && RowTimesOk(leads, now)
    requires id in leads && id in leads' && leads[id].crm.lastTechnicalFailureAt == Some(t) && Outstanding(leads'[id])
    requires leads'[id].crm == leads[id].crm
    ensures Outstanding(leads[id]) && PassedOver(leads, s, now, t)
  {
    assert RowTimes(leads[id], now);
    if PendingKeys(leads) == map[] { NothingPending(leads); }
  }

  lemma FinishKeepsOutstanding(leads: Leads, episode: Episode, sent: bool, now: Time, id: nat)
    requires RowTimesOk(leads, now) && id in leads
    ensures var leads' := FinishCluster(leads, episode, sent).0;
      id in leads' && (Outstanding(leads'[id]) ==> Outstanding(leads[id]))
  {
    assert RowTimes(leads[id], now);
  }

  lemma NotifyKeepsOutstanding(site: Site, w: World, step: NotifyStep, w': World, id: nat, t: Time)
    requires RowTimesOk(w.db.leads, w.now) && NotifyNext(site, w, step, w')
    requires HasFailure(w, id, t) && HasFailure(w', id, t) && Outstanding(w'.db.leads[id])
    ensures Outstanding(w.db.leads[id])
    ensures step.StartClustered? ==> PassedOver(w.db.leads, site.settings, w.now, t)
  {
    NotifyLeads(site, w, step, w');
    if !ClusterWork(w, step) {
      OtherNotifyFrame(site, w, step, w');
      FrameKeepsOutstanding(w.db.leads, w'.db.leads, w.now, id, t);
    } else if step.StartClustered? {
      StartPassesOver(w.db.leads, site.settings, w.now, w'.db.leads, step.episode, id, t);
    } else if step.Finish? {
      FinishKeepsOutstanding(w.db.leads, w.notifier.episode, w.notifier.error.None?, w.now, id);
    }
  }

  lemma StepKeepsOutstanding(site: Site, w: World, step: Step, w': World, id: nat, t: Time)
    requires RowTimesOk(w.db.leads, w.now) && Next(site, w, step, w')
    requires HasFailure(w, id, t) && HasFailure(w', id, t) && Outstanding(w'.db.leads[id])
    ensures Outstanding(w.db.leads[id])
    ensures ChecksCluster(step) ==> PassedOver(w.db.leads, site.settings, w.now, t)
  {
    match step
    case Crm(c) =>
      CrmClusterFrame(site, w, c, w');
      FrameKeepsOutstanding(w.db.leads, w'.db.leads, w.now, id, t);
    case Intake(i) => IntakeLeads(site, w, i, w');
    case Notify(n) => NotifyKeepsOutstanding(site, w, n, w', id, t);
    case Outside(o) => OutsideLeads(w, o, w');
  }

  lemma {:induction false} OutstandingWasPassedOver(site: Site, r: Run, id: nat, t: Time)
    requires Valid(site, r) && ValidSite(site) && HasFailure(r.w, id, t) && Outstanding(r.w.db.leads[id])
    ensures PassedOverSince(site, r, id, t)
  {
    if r.Then? && HasFailure(r.before.w, id, t) {
      LastStep(site, r);
      RunClusters(site, r.before);
      StepKeepsOutstanding(site, r.before.w, r.step, r.w, id, t);
      OutstandingWasPassedOver(site, r.before, id, t);
    }
  }

  // ---------- the promise ----------

  /** The mark at `at` stems from an episode that holds the lead for exactly the failure at `t`. */
  ghost predicate TakenBy(frozen: seq<Frozen>, id: nat, at: Time, t: Time) {
    exists k :: 0 <= k < |frozen| && frozen[k].at == at && Takes(frozen[k], id, t)
  }

  ghost predicate Takes(f: Frozen, id: nat, t: Time) { id in f.failures && f.failures[id] == t }

  /** The failure at `t` fell on the instant of a freeze that holds the lead for an earlier one. */
  ghost predicate MetFreeze(frozen: seq<Frozen>, id: nat, t: Time) {
    exists k :: 0 <= k < |frozen| && frozen[k].at == t && HoldsEarlier(frozen[k], id, t)
  }

  ghost predicate HoldsEarlier(f: Frozen, id: nat, t: Time) { id in f.failures && f.failures[id] < t }

  /** An episode that is open or was sent has the failure at `t`. */
  ghost predicate Taken(l: Lead, frozen: seq<Frozen>, id: nat, t: Time) {
    || (l.notice.clusterPendingAt.Some? && TakenBy(frozen, id, l.notice.clusterPendingAt.value, t))
    || (l.notice.clusterAlertedAt.Some? && TakenBy(frozen, id, l.notice.clusterAlertedAt.value, t))
  }

  lemma MarkTakes(frozen: seq<Frozen>, id: nat, at: Time, t: Time)
    requires Backed(frozen, id, at, t) && t <= at
    ensures TakenBy(frozen, id, at, t) || MetFreeze(frozen, id, t)
  {
    var k :| 0 <= k < |frozen| && frozen[k].at == at && HeldBy(frozen[k], id, t);
    assert Takes(frozen[k], id, t) || HoldsEarlier(frozen[k], id, t);
  }

  lemma TakenOrOutstanding(w: World, id: nat, t: Time)
    requires CoverageOk(w) && HasFailure(w, id, t)
    ensures || Outstanding(w.db.leads[id])
            || Taken(w.db.leads[id], w.mail.frozen, id, t)
            || MetFreeze(w.mail.frozen, id, t)
  {
    var l, frozen := w.db.leads[id], w.mail.frozen;
    assert MarksBacked(l, id, frozen);
    if l.notice.clusterPendingAt.Some? && t <= l.notice.clusterPendingAt.value {
      MarkTakes(frozen, id, l.notice.clusterPendingAt.value, t);
    }
    if l.notice.clusterAlertedAt.Some? && t <= l.notice.clusterAlertedAt.value {
      MarkTakes(frozen, id, l.notice.clusterAlertedAt.value, t);
    }
  }

  /** What becomes of every failure, in every run: an episode that is open or was sent has it; or
      it fell on the very instant of a freeze that already held its lead for an earlier failure;
      or it is outstanding, and each cluster check since it was recorded found an episode open,
      the failure older than the window, or too few leads that qualify. */
  lemma FailuresAreAccountedFor(site: Site, r: Run, id: nat, t: Time)
    requires Valid(site, r) && ValidSite(site) && HasFailure(r.w, id, t)
    ensures || Taken(r.w.db.leads[id], r.w.mail.frozen, id, t)
            || MetFreeze(r.w.mail.frozen, id, t)
            || (Outstanding(r.w.db.leads[id]) && PassedOverSince(site, r, id, t))
  {
    RunCoverage(site, r);
    TakenOrOutstanding(r.w, id, t);
    if Outstanding(r.w.db.leads[id]) { OutstandingWasPassedOver(site, r, id, t); }
  }

  /** A failure that has left the window without being taken never qualifies again. */
  lemma AgedFailuresNeverQualify(site: Site, early: Run, late: Run, id: nat, t: Time)
    requires Valid(site, late) && Prefix(early, late) && HasFailure(late.w, id, t)
    requires t < early.w.now - Seconds(site.settings.clusterWindow)
    ensures id !in Qualifying(late.w.db.leads, late.w.now - Seconds(site.settings.clusterWindow))
  {
    TimeGoesOn(site, early, late);
  }
}
