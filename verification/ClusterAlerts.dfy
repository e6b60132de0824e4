/** Clustered technical alerts: one frozen episode at a time, every qualifying lead in it, and no
    failure reported by two episodes. */
module ClusterAlerts {
  import opened Schema
  import opened CrmDelivery
  import opened Notifications
  import opened System
  import opened DeliverySafety
  import opened ClaimQueue

  // ---------- invariants ----------

  predicate NotAfter(t: Option<Time>, now: Time) { t.Some? ==> t.value <= now }

  /** One lead against the clock: nothing it records is in the future, and an open episode is
      newer than the last one that was reported. */
  predicate RowTimes(l: Lead, now: Time) {
    && NotAfter(l.crm.lastTechnicalFailureAt, now)
    && NotAfter(l.notice.clusterPendingAt, now)
    && (l.notice.clusterPendingAt.Some? && l.notice.clusterAlertedAt.Some? ==>
         l.notice.clusterAlertedAt.value < l.notice.clusterPendingAt.value)
  }

  ghost predicate RowTimesOk(leads: Leads, now: Time) { forall id | id in leads :: RowTimes(leads[id], now) }

  function LastFreeze(frozen: seq<Frozen>): Option<Time> {
    if frozen == [] then None else Some(frozen[|frozen| - 1].at)
  }

  /** Whatever is pending belongs to the latest freeze. */
  ghost predicate PendingOk(leads: Leads, frozen: seq<Frozen>) {
    forall id | id in leads && leads[id].notice.clusterPendingAt.Some? ::
      leads[id].notice.clusterPendingAt == LastFreeze(frozen)
  }

  /** The lead was reported at or after this freeze, or the freeze is the one still open. */
  predicate Accounted(l: Lead, at: Time, frozen: seq<Frozen>) {
    || (l.notice.clusterAlertedAt.Some? && l.notice.clusterAlertedAt.value >= at)
    || (l.notice.clusterPendingAt == Some(at) && LastFreeze(frozen) == Some(at))
  }

  ghost predicate FreezeOk(f: Frozen, leads: Leads, frozen: seq<Frozen>) {
    forall id | id in f.failures :: f.failures[id] <= f.at && id in leads && Accounted(leads[id], f.at, frozen)
  }

  ghost predicate FreezesOk(leads: Leads, frozen: seq<Frozen>) {
    forall k | 0 <= k < |frozen| :: FreezeOk(frozen[k], leads, frozen)
  }

  /** A later freeze holds a lead only for a failure newer than every earlier freeze of it. */
  ghost predicate NewerThan(f: Frozen, g: Frozen) {
    forall id | id in f.failures && id in g.failures :: g.failures[id] > f.at
  }

  ghost predicate NothingCountedTwice(frozen: seq<Frozen>) {
    forall i, j | 0 <= i < j < |frozen| :: NewerThan(frozen[i], frozen[j])
  }

  /** The episode being sent is exactly what is pending. */
  ghost predicate EpisodeExact(episode: Episode, leads: Leads) {
    episode.ids == PendingAt(leads, episode.pendingAt)
  }

  ghost predicate SendOk(notifier: Notifier, leads: Leads) {
    match notifier
    case SendingCluster(episode) => EpisodeExact(episode, leads)
    case SentCluster(episode, _) => EpisodeExact(episode, leads)
    case _ => true
  }

  ghost predicate ClusterOk(w: World) {
    && RowTimesOk(w.db.leads, w.now)
    && PendingOk(w.db.leads, w.mail.frozen)
    && FreezesOk(w.db.leads, w.mail.frozen)
    && NothingCountedTwice(w.mail.frozen)
    && SendOk(w.notifier, w.db.leads)
    && w.mail.stale == 0
  }

  // ---------- steps outside the cluster machine ----------

  /** Cluster columns stay, leads may be added without any, and a technical failure moves only
      to the current instant. */
  ghost predicate ClusterFrame(leads: Leads, leads': Leads, now: Time) {
    && (forall id | id in leads :: id in leads'
         && leads'[id].notice.clusterPendingAt == leads[id].notice.clusterPendingAt
         && leads'[id].notice.clusterAlertedAt == leads[id].notice.clusterAlertedAt
         && (leads'[id].crm.lastTechnicalFailureAt == leads[id].crm.lastTechnicalFailureAt
             || leads'[id].crm.lastTechnicalFailureAt == Some(now)))
    && (forall id | id in leads' && id !in leads :: leads'[id].notice == NEW_NOTICE && leads'[id].crm == NEW_DELIVERY)
  }

  lemma FrameKeeps(w: World, w': World)
    requires ClusterOk(w) && ClusterFrame(w.db.leads, w'.db.leads, w.now) && w.now <= w'.now
    requires w'.mail.frozen == w.mail.frozen && w'.mail.stale == w.mail.stale
    requires w'.notifier == w.notifier || !(w'.notifier.SendingCluster? || w'.notifier.SentCluster?)
    ensures ClusterOk(w')
  {
    var leads, leads', frozen := w.db.leads, w'.db.leads, w.mail.frozen;
    forall id | id in leads' ensures RowTimes(leads'[id], w'.now) {
      if id in leads { assert RowTimes(leads[id], w.now); }
    }
    forall k | 0 <= k < |frozen| ensures FreezeOk(frozen[k], leads', frozen) {
      assert FreezeOk(frozen[k], leads, frozen);
    }
    assert forall at :: PendingAt(leads', at) == PendingAt(leads, at);
  }

  /** Every delivery transition stamps a technical failure with the current instant or leaves
      the old one. */
  predicate StampsFailure(before: Delivery, after: Delivery, now: Time) {
    after.lastTechnicalFailureAt == before.lastTechnicalFailureAt || after.lastTechnicalFailureAt == Some(now)
  }

  lemma UpdateFrame(leads: Leads, id: nat, d: Delivery, now: Time)
    requires id in leads && StampsFailure(leads[id].crm, d, now)
    ensures ClusterFrame(leads, WithRow(leads, id, d), now)
  {
  }

  lemma ResultFrame(site: Site, w: World, step: CrmStep, w': World)
    requires CrmNext(site, w, step, w') && (step.CommitCreate? || step.CommitDecision? || step.CommitEvidence?)
    ensures ClusterFrame(w.db.leads, w'.db.leads, w.now)
  {
    var id, s, httpDate, now := w.phase.lead, site.settings, site.lib.httpDate, w.now;
    if HasStatus(w.db, id, if step.CommitEvidence? then Unknown else Sending) {
      var l := w.db.leads[id];
      match step
      case CommitCreate =>
        var applied := ApplyCreate(l.crm, w.phase.result, s, httpDate, now);
        if applied.Ok? { UpdateFrame(w.db.leads, id, applied.value.row, now); }
      case CommitDecision => UpdateFrame(w.db.leads, id, ApplyDecision(l.crm, w.phase.decision, now).row, now);
      case CommitEvidence =>
        var applied := ApplyEvidence(l.crm, l.identity.contact, w.phase.read, s, httpDate, now);
        if applied.Ok? { UpdateFrame(w.db.leads, id, applied.value.row, now); }
    }
  }

  lemma SelectionFrame(site: Site, w: World, step: CrmStep, w': World)
    requires CrmNext(site, w, step, w') && (step.Prepare? || step.TryClaim?)
    ensures ClusterFrame(w.db.leads, w'.db.leads, w.now)
  {
    if step.gate.Recovered? {
      UpdateFrame(w.db.leads, step.gate.lead, Recover(w.db.leads[step.gate.lead].crm, w.now), w.now);
    } else if step.TryClaim? && step.result.Ok? && step.result.value.Claimed? {
      var id := step.result.value.lead;
      UpdateFrame(w.db.leads, id, StartSending(w.db.leads[id].crm, w.now), w.now);
    }
  }

  lemma CrmKeepsCluster(site: Site, w: World, step: CrmStep, w': World)
    requires ClusterOk(w) && CrmNext(site, w, step, w')
    ensures ClusterOk(w')
  {
    CrmClusterFrame(site, w, step, w');
    FrameKeeps(w, w');
  }

  lemma CrmClusterFrame(site: Site, w: World, step: CrmStep, w': World)
    requires CrmNext(site, w, step, w')
    ensures ClusterFrame(w.db.leads, w'.db.leads, w.now) && w'.now == w.now
    ensures w'.mail == w.mail && w'.notifier == w.notifier
  {
    match step
    case Prepare(_, _) => SelectionFrame(site, w, step, w');
    case TryClaim(_, _) => SelectionFrame(site, w, step, w');
    case CommitCreate => ResultFrame(site, w, step, w');
    case CommitDecision => ResultFrame(site, w, step, w');
    case CommitEvidence => ResultFrame(site, w, step, w');
    case _ => assert w'.db.leads == w.db.leads;
  }

  lemma IntakeKeepsCluster(site: Site, w: World, step: IntakeStep, w': World)
    requires ClusterOk(w) && IntakeNext(site, w, step, w')
    ensures ClusterOk(w')
  {
    IntakeLeads(site, w, step, w');
    FrameKeeps(w, w');
  }

  lemma OutsideKeepsCluster(w: World, step: OutsideStep, w': World)
    requires ClusterOk(w) && w.now <= w.clock && OutsideNext(w, step, w')
    ensures ClusterOk(w')
  {
    assert w'.db.leads == w.db.leads;
    FrameKeeps(w, w');
  }

  // ---------- the cluster machine ----------

  predicate ClusterWork(w: World, step: NotifyStep) {
    || step.StartClustered?
    || (w.notifier.SendingCluster? && step.SmtpAnswer?)
    || (w.notifier.SentCluster? && step.Finish?)
  }

  lemma OtherNotifyFrame(site: Site, w: World, step: NotifyStep, w': World)
    requires NotifyNext(site, w, step, w') && !ClusterWork(w, step)
    ensures ClusterFrame(w.db.leads, w'.db.leads, w.now) && w'.now == w.now
    ensures w'.mail.frozen == w.mail.frozen && w'.mail.stale == w.mail.stale
    ensures !(w'.notifier.SendingCluster? || w'.notifier.SentCluster?)
  {
    NotifyLeads(site, w, step, w');
    OtherNotifyColumns(site, w, step, w');
  }

  lemma OtherNotifyColumns(site: Site, w: World, step: NotifyStep, w': World)
    requires NotifyNext(site, w, step, w') && !ClusterWork(w, step)
    ensures forall id | id in w.db.leads ::
      && id in w'.db.leads
      && w'.db.leads[id].notice.clusterPendingAt == w.db.leads[id].notice.clusterPendingAt
      && w'.db.leads[id].notice.clusterAlertedAt == w.db.leads[id].notice.clusterAlertedAt
    ensures w'.mail.frozen == w.mail.frozen && w'.mail.stale == w.mail.stale
    ensures !(w'.notifier.SendingCluster? || w'.notifier.SentCluster?)
  {
  }

  lemma FreezeKeeps(leads: Leads, ids: set<nat>, now: Time, cutoff: Time, frozen: seq<Frozen>)
    requires RowTimesOk(leads, now) && PendingKeys(leads) == map[]
    requires FreezesOk(leads, frozen) && NothingCountedTwice(frozen)
    requires ids == Qualifying(leads, cutoff)
    ensures var leads' := Freeze(leads, ids, now);
      var frozen' := frozen + [Frozen(now, Failures(leads, PendingAt(leads', now)))];
      && PendingAt(leads', now) == ids
      && RowTimesOk(leads', now) && PendingOk(leads', frozen')
      && FreezesOk(leads', frozen') && NothingCountedTwice(frozen')
  {
    var leads' := Freeze(leads, ids, now);
    NothingPending(leads);
    assert PendingAt(leads', now) == ids;
    FrozenRows(leads, ids, now, cutoff);
    FreezeExtends(leads, ids, now, cutoff, frozen);
  }

  lemma NothingPending(leads: Leads)
    requires PendingKeys(leads) == map[]
    ensures forall id | id in leads :: leads[id].notice.clusterPendingAt.None?
  {
    forall id | id in leads ensures leads[id].notice.clusterPendingAt.None? { assert id !in PendingKeys(leads); }
  }

  lemma FrozenRows(leads: Leads, ids: set<nat>, now: Time, cutoff: Time)
    requires RowTimesOk(leads, now) && ids == Qualifying(leads, cutoff)
    requires forall id | id in leads :: leads[id].notice.clusterPendingAt.None?
    ensures RowTimesOk(Freeze(leads, ids, now), now)
  {
    var leads' := Freeze(leads, ids, now);
    forall id | id in leads' ensures RowTimes(leads'[id], now) { assert RowTimes(leads[id], now); }
  }

  lemma FreezeExtends(leads: Leads, ids: set<nat>, now: Time, cutoff: Time, frozen: seq<Frozen>)
    requires RowTimesOk(leads, now) && ids == Qualifying(leads, cutoff)
    requires forall id | id in leads :: leads[id].notice.clusterPendingAt.None?
    requires FreezesOk(leads, frozen) && NothingCountedTwice(frozen)
    ensures var leads', frozen' := Freeze(leads, ids, now), frozen + [Frozen(now, Failures(leads, ids))];
      FreezesOk(leads', frozen') && NothingCountedTwice(frozen')
  {
    var f := Frozen(now, Failures(leads, ids));
    var leads', frozen' := Freeze(leads, ids, now), frozen + [f];
    forall k | 0 <= k < |frozen'| ensures FreezeOk(frozen'[k], leads', frozen') {
      if k < |frozen| {
        assert FreezeOk(frozen[k], leads, frozen);
      } else {
        forall id | id in f.failures ensures f.failures[id] <= now { assert RowTimes(leads[id], now); }
      }
    }
    forall i, j | 0 <= i < j < |frozen'| ensures NewerThan(frozen'[i], frozen'[j]) {
      if j < |frozen| {
        assert NewerThan(frozen[i], frozen[j]);
      } else {
        assert FreezeOk(frozen[i], leads, frozen);
        forall id | id in frozen[i].failures && id in f.failures ensures f.failures[id] > frozen[i].at {
          assert Accounted(leads[id], frozen[i].at, frozen);
        }
      }
    }
  }

  lemma StartKeepsCluster(site: Site, w: World, episode: Option<Episode>, w': World)
    requires ClusterOk(w) && ValidSettings(site.settings) && NotifyNext(site, w, StartClustered(episode), w')
    ensures ClusterOk(w')
  {
    var s, leads := site.settings, w.db.leads;
    StartClusterMoves(leads, s, w.now, w'.db.leads, episode, w.mail.frozen);
    if w'.db.leads == leads {
      assert w'.mail == w.mail;
    } else {
      assert w'.mail.frozen == w.mail.frozen + [Frozen(w.now, Failures(leads, PendingAt(w'.db.leads, w.now)))];
    }
  }

  /** The first transaction changes nothing, or freezes an episode into the log. */
  lemma StartClusterMoves(
      leads: Leads, s: Settings, now: Time, leads': Leads, episode: Option<Episode>, frozen: seq<Frozen>)
    requires StartCluster(leads, s, now, leads', episode) && ValidSettings(s)
    requires RowTimesOk(leads, now) && PendingOk(leads, frozen)
    requires FreezesOk(leads, frozen) && NothingCountedTwice(frozen)
    ensures episode.Some? ==> EpisodeExact(episode.value, leads')
    ensures leads' != leads ==>
      var frozen' := frozen + [Frozen(now, Failures(leads, PendingAt(leads', now)))];
      && RowTimesOk(leads', now) && PendingOk(leads', frozen')
      && FreezesOk(leads', frozen') && NothingCountedTwice(frozen')
  {
    if PendingKeys(leads) == map[] {
      var cutoff := now - Seconds(s.clusterWindow);
      var ids := Qualifying(leads, cutoff);
      if |ids| >= s.clusterThreshold { FreezeKeeps(leads, ids, now, cutoff, frozen); }
    }
  }

  lemma FinishKeepsCluster(leads: Leads, episode: Episode, sent: bool, now: Time, frozen: seq<Frozen>)
    requires RowTimesOk(leads, now) && PendingOk(leads, frozen) && FreezesOk(leads, frozen)
    requires EpisodeExact(episode, leads)
    ensures var (leads', action) := FinishCluster(leads, episode, sent);
      && action != StaleEpisode
      && RowTimesOk(leads', now) && PendingOk(leads', frozen) && FreezesOk(leads', frozen)
  {
    assert PendingAt(leads, episode.pendingAt) * episode.ids == episode.ids;
    var leads' := FinishCluster(leads, episode, sent).0;
    forall id | id in leads' ensures RowTimes(leads'[id], now) { assert RowTimes(leads[id], now); }
    forall k | 0 <= k < |frozen| ensures FreezeOk(frozen[k], leads', frozen) {
      assert FreezeOk(frozen[k], leads, frozen);
      forall id | id in frozen[k].failures ensures Accounted(leads'[id], frozen[k].at, frozen) {
        assert Accounted(leads[id], frozen[k].at, frozen) && RowTimes(leads[id], now);
      }
    }
  }

  lemma NotifyKeepsCluster(site: Site, w: World, step: NotifyStep, w': World)
    requires ClusterOk(w) && ValidSettings(site.settings) && NotifyNext(site, w, step, w')
    ensures ClusterOk(w')
  {
    if !ClusterWork(w, step) {
      OtherNotifyFrame(site, w, step, w');
      FrameKeeps(w, w');
    } else if step.StartClustered? {
      StartKeepsCluster(site, w, step.episode, w');
    } else if step.Finish? {
      FinishKeepsCluster(w.db.leads, w.notifier.episode, w.notifier.error.None?, w.now, w.mail.frozen);
    }
  }

  lemma StepKeepsCluster(site: Site, w: World, step: Step, w': World)
    requires ClusterOk(w) && w.now <= w.clock && ValidSettings(site.settings) && Next(site, w, step, w')
    ensures ClusterOk(w')
  {
    match step
    case Crm(c) => CrmKeepsCluster(site, w, c, w');
    case Intake(i) => IntakeKeepsCluster(site, w, i, w');
    case Notify(n) => NotifyKeepsCluster(site, w, n, w');
    case Outside(o) => OutsideKeepsCluster(w, o, w');
  }

  lemma {:induction false} RunClusters(site: Site, r: Run)
    requires Valid(site, r) && ValidSite(site)
    ensures ClusterOk(r.w)
  {
    if r.Then? {
      LastStep(site, r);
      RunClusters(site, r.before);
      RunTimes(site, r.before);
      StepKeepsCluster(site, r.before.w, r.step, r.w);
    }
  }

  // ---------- the promises ----------

  /** All open cluster marks belong to one episode, a message lists exactly the pending leads,
      and the stale-episode outcome never occurs, crashes in mid-send included. */
  ghost predicate OneEpisode(w: World) {
    && (forall i, j | i in w.db.leads && j in w.db.leads
          && w.db.leads[i].notice.clusterPendingAt.Some? && w.db.leads[j].notice.clusterPendingAt.Some? ::
         w.db.leads[i].notice.clusterPendingAt == w.db.leads[j].notice.clusterPendingAt)
    && (w.notifier.SendingCluster? || w.notifier.SentCluster? ==>
         w.notifier.episode.ids == PendingAt(w.db.leads, w.notifier.episode.pendingAt))
    && w.mail.stale == 0
  }

  lemma ClusterIsOneEpisode(w: World)
    requires ClusterOk(w)
    ensures OneEpisode(w)
  {
  }

  lemma SingleOpenEpisode(site: Site, r: Run)
    requires Valid(site, r) && ValidSite(site)
    ensures OneEpisode(r.w)
  {
    RunClusters(site, r);
    ClusterIsOneEpisode(r.w);
  }

  /** No technical failure is reported by two episodes: an episode takes a lead again only for a
      failure newer than the freeze of every episode that had it before. */
  lemma EachFailureIsReportedOnce(site: Site, r: Run, i: nat, j: nat, id: nat)
    requires Valid(site, r) && ValidSite(site) && i < j < |r.w.mail.frozen|
    requires id in r.w.mail.frozen[i].failures && id in r.w.mail.frozen[j].failures
    ensures r.w.mail.frozen[i].failures[id] <= r.w.mail.frozen[i].at < r.w.mail.frozen[j].failures[id]
  {
    RunClusters(site, r);
    assert FreezeOk(r.w.mail.frozen[i], r.w.db.leads, r.w.mail.frozen);
    assert NewerThan(r.w.mail.frozen[i], r.w.mail.frozen[j]);
  }

  /** A freeze takes every lead with an uncovered failure inside the window, and happens exactly
      when there are enough of them and no episode is open. */
  lemma FreezeCoversEveryQualifyingLead(leads: Leads, s: Settings, now: Time, leads': Leads, episode: Option<Episode>)
    requires StartCluster(leads, s, now, leads', episode) && ValidSettings(s)
    ensures leads' != leads <==>
      (PendingKeys(leads) == map[] && |Qualifying(leads, now - Seconds(s.clusterWindow))| >= s.clusterThreshold)
    ensures leads' != leads ==>
      && episode.Some? && |episode.value.ids| >= s.clusterThreshold
      && (forall id | id in leads && Uncovered(leads[id])
            && leads[id].crm.lastTechnicalFailureAt.value >= now - Seconds(s.clusterWindow) ::
           id in episode.value.ids && leads'[id].notice.clusterPendingAt == Some(now))
  {
    var ids := Qualifying(leads, now - Seconds(s.clusterWindow));
    if PendingKeys(leads) == map[] && |ids| >= s.clusterThreshold {
      var id :| id in ids;
      assert leads'[id] != leads[id];
    }
  }

  /** The episode of a pending lead is closed, and its last report moved forward. */
  predicate Closes(l: Lead, l': Lead) {
    && l.notice.clusterPendingAt.Some? && l'.notice.clusterPendingAt.None?
    && l'.notice.clusterAlertedAt == l.notice.clusterPendingAt
    && (l.notice.clusterAlertedAt.Some? ==> l.notice.clusterAlertedAt.value < l'.notice.clusterAlertedAt.value)
  }

  /** A pending lead stays pending until a send of its episode has succeeded, and the report
      time of a lead only ever moves forward, at that moment. */
  lemma OpenUntilSent(site: Site, r: Run, id: nat)
    requires Valid(site, r) && ValidSite(site) && r.Then? && id in r.before.w.db.leads
    ensures id in r.w.db.leads
    ensures var l, l' := r.before.w.db.leads[id], r.w.db.leads[id];
      || (l'.notice.clusterAlertedAt == l.notice.clusterAlertedAt
          && (l.notice.clusterPendingAt.Some? ==> l'.notice.clusterPendingAt == l.notice.clusterPendingAt))
      || (Closes(l, l') && r.step == Notify(Finish) && r.before.w.notifier.SentCluster?
          && r.before.w.notifier.error.None? && id in r.before.w.notifier.episode.ids)
  {
    LastStep(site, r);
    RunClusters(site, r.before);
    StepCloses(site, r.before.w, r.step, r.w, id);
  }

  lemma StepCloses(site: Site, w: World, step: Step, w': World, id: nat)
    requires ClusterOk(w) && Next(site, w, step, w') && id in w.db.leads
    ensures id in w'.db.leads
    ensures var l, l' := w.db.leads[id], w'.db.leads[id];
      || (l'.notice.clusterAlertedAt == l.notice.clusterAlertedAt
          && (l.notice.clusterPendingAt.Some? ==> l'.notice.clusterPendingAt == l.notice.clusterPendingAt))
      || (Closes(l, l') && step == Notify(Finish) && w.notifier.SentCluster?
          && w.notifier.error.None? && id in w.notifier.episode.ids)
  {
    match step
    case Crm(c) => CrmClusterFrame(site, w, c, w');
    case Intake(i) => IntakeLeads(site, w, i, w');
    case Notify(n) => NotifyCloses(site, w, n, w', id);
    case Outside(o) => assert w'.db.leads == w.db.leads;
  }

  lemma NotifyCloses(site: Site, w: World, step: NotifyStep, w': World, id: nat)
    requires ClusterOk(w) && NotifyNext(site, w, step, w') && id in w.db.leads
    ensures id in w'.db.leads
    ensures var l, l' := w.db.leads[id], w'.db.leads[id];
      || (l'.notice.clusterAlertedAt == l.notice.clusterAlertedAt
          && (l.notice.clusterPendingAt.Some? ==> l'.notice.clusterPendingAt == l.notice.clusterPendingAt))
      || (Closes(l, l') && step == Finish && w.notifier.SentCluster?
          && w.notifier.error.None? && id in w.notifier.episode.ids)
  {
    NotifyLeads(site, w, step, w');
    assert RowTimes(w.db.leads[id], w.now);
    if !ClusterWork(w, step) { OtherNotifyFrame(site, w, step, w'); }
  }

  /** After its episode closes, a lead is eligible again exactly when it has failed strictly
      later than the freeze: a failure recorded at the very instant of the freeze is not. */
  lemma EligibleAgainIffStrictlyNewer(l: Lead, at: Time)
    requires l.notice.clusterPendingAt == Some(at)
    ensures Uncovered(CloseLead(l, at)) <==>
      l.crm.lastTechnicalFailureAt.Some? && l.crm.lastTechnicalFailureAt.value > at
  {
  }
}
