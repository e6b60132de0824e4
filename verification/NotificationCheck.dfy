/** The periodic notification check: its four operations, each a stretch of the step relation. */
module NotificationCheck {
  import opened Schema
  import opened Notifications
  import opened NotificationVerdicts
  import opened Store
  import opened System
  import opened Worker

  /** The thread is inside a check and between two operations. */
  ghost predicate Checking(w: World) { w.checking && w.notifier == Quiet && w.phase == Idle }

  ghost predicate Checked(site: Site, w: World, t: Run, db: Schema.Db) {
    Walked(site, w, t) && Checking(t.w) && t.w.now == w.now && t.w.db == db
  }

  lemma TakeNotify(site: Site, w: World, t: Run, step: NotifyStep, w': World)
    requires Walked(site, w, t) && NotifyNext(site, t.w, step, w')
    ensures Walked(site, w, Then(t, Notify(step), w'))
  {
    OneMoreStep(site, t, Notify(step), w');
  }

  /** An exception drops whatever the operation holds in memory. */
  function Dropped(w: World): World { w.(phase := Idle, notifier := Quiet) }

  lemma Drop(site: Site, w: World, t: Run)
    requires Walked(site, w, t)
    ensures Walked(site, w, Then(t, Outside(Abandon), Dropped(t.w)))
  {
    OneMoreStep(site, t, Outside(Abandon), Dropped(t.w));
  }

  // ---------- one failure batch ----------

  function BatchStarted(w: World, db: Schema.Db, name: StreamName, start: BatchStart): World {
    if start.Selected? then
      w.(db := db, notifier := SendingBatch(name, start.ids, w.now),
         mail := w.mail.(attempts := w.mail.attempts + [Attempt(name, w.now)]))
    else if start.Empty? then
      w.(db := db, mail := w.mail.(successes := w.mail.successes + {Attempt(name, w.now)}))
    else w.(db := db)
  }

  function BatchAnswered(w: World, error: Option<string>): World
    requires w.notifier.SendingBatch?
  {
    var n := w.notifier;
    w.(notifier := SentBatch(n.name, n.ids, n.at, error),
       mail := if error.None? then w.mail.(accepted := w.mail.accepted + {BatchMail(n.name, n.ids, n.at)}) else w.mail)
  }

  function BatchFinished(w: World): World
    requires w.notifier.SentBatch?
  {
    var n := w.notifier;
    w.(db := FinishBatch(w.db, n.name, n.ids, n.at, n.error), notifier := Quiet,
       mail := if n.error.None? then Reported(w.mail, n.name, n.at) else w.mail)
  }

  lemma BatchSteps(site: Site, w: World, db: Schema.Db, name: StreamName, start: BatchStart, error: Option<string>)
    requires Checking(w) && StartBatch(w.db, name, w.now, site.settings, db, start)
    ensures var w1 := BatchStarted(w, db, name, start);
      && NotifyNext(site, w, StartFailures(name, start), w1)
      && (start.Selected? ==>
           && NotifyNext(site, w1, SmtpAnswer(error), BatchAnswered(w1, error))
           && NotifyNext(site, BatchAnswered(w1, error), Finish, BatchFinished(BatchAnswered(w1, error))))
  {
  }

  lemma BatchStretch(
      site: Site, w: World, db: Schema.Db, name: StreamName, start: BatchStart, send: Sending) returns (t: Run)
    requires Checking(w) && StartBatch(w.db, name, w.now, site.settings, db, start)
    ensures Checked(site, w, t,
      if start.Selected? && send.Answer? then FinishBatch(db, name, start.ids, w.now, send.error) else db)
  {
    var error := if send.Answer? then send.error else None;
    BatchSteps(site, w, db, name, start, error);
    t := Then(Start(w), Notify(StartFailures(name, start)), BatchStarted(w, db, name, start));
    TakeNotify(site, w, Start(w), StartFailures(name, start), t.w);
    if start.Selected? && send.SendRaised? {
      Drop(site, w, t);
      t := Then(t, Outside(Abandon), Dropped(t.w));
    } else if start.Selected? {
      var w2 := BatchAnswered(t.w, error);
      TakeNotify(site, w, t, SmtpAnswer(error), w2);
      t := Then(t, Notify(SmtpAnswer(error)), w2);
      TakeNotify(site, w, t, Finish, BatchFinished(w2));
      t := Then(t, Notify(Finish), BatchFinished(w2));
    }
  }

  /** The operation has something to do and does not raise: a stream that is due is work, even when
      nothing is left to report. */
  ghost predicate BatchWorks(db: Schema.Db, name: StreamName, s: Settings, now: Time, send: Sending) {
    && StreamIsDue(StreamOf(db, name), now, s)
    && !(send.SendRaised? && exists id :: Unreported(db, name, id))
  }

  lemma RowsAreSelected(db: Schema.Db, name: StreamName, s: Settings, now: Time, db': Schema.Db, start: BatchStart)
    requires StartBatch(db, name, now, s, db', start) && !start.NotDue? && ValidSettings(s)
    ensures start.Selected? <==> exists id :: Unreported(db, name, id)
  {
    var ids := if start.Selected? then start.ids else [];
    PrefixMeaning(db, name, s.batchMaxItems, ids);
    if ids != [] { assert Unreported(db, name, ids[0]); }
  }

  /** `process_crm_failure_batch` and `process_normalization_failure_batch`. */
  method ProcessFailureBatch(db: Database, name: StreamName, site: Site, now: Time, send: Sending, ghost w: World)
    returns (worked: bool, ghost t: Run)
    requires Checking(w) && w.db == db.Db() && w.now == now && ValidSettings(site.settings)
    modifies db
    ensures Checked(site, w, t, db.Db())
    ensures BatchVerdict(w.db, name, site.settings, now, send, db.Db())
    ensures worked <==> BatchWorks(w.db, name, site.settings, now, send)
  {
    var start := db.StartFailureBatch(name, now, site.settings);
    t := BatchStretch(site, w, db.Db(), name, start, send);
    match start
    case NotDue =>
      NotDueVerdict(w.db, name, site.settings, now, send);
      worked := false;
    case Empty =>
      EmptyVerdict(w.db, name, site.settings, now, db.Db(), send);
      RowsAreSelected(w.db, name, site.settings, now, db.Db(), start);
      worked := true;
    case Selected(ids) =>
      SelectedVerdict(w.db, name, site.settings, now, db.Db(), ids, send);
      RowsAreSelected(w.db, name, site.settings, now, db.Db(), start);
      if send.SendRaised? { return false, t; }
      db.FinishFailureBatch(name, ids, now, send.error);
      worked := true;
  }

  // ---------- the pause alert ----------

  function PauseStarted(w: World): World {
    match StartPauseAlert(w.db.pause)
    case Capture(stamp) => w.(notifier := SendingPause(stamp, |w.crm.episodes|, w.now))
    case NoAlert => w
    case Inconsistent => w.(crm := w.crm.(faults := w.crm.faults + 1))
  }

  function PauseAnswered(w: World, error: Option<string>): World
    requires w.notifier.SendingPause?
  {
    var n := w.notifier;
    w.(notifier := SentPause(n.stamp, n.number, n.at, error),
       mail := if error.None? then w.mail.(pauseAlerts := w.mail.pauseAlerts + {(n.number, n.stamp)}) else w.mail)
  }

  function PauseFinished(w: World): World
    requires w.notifier.SentPause?
  {
    w.(db := w.db.(pause := FinishPauseAlert(w.db.pause, w.notifier.stamp, w.notifier.at, w.notifier.error).0),
       notifier := Quiet)
  }

  lemma PauseSteps(site: Site, w: World, error: Option<string>)
    requires w.phase == Idle && w.notifier == Quiet
    ensures var w1 := PauseStarted(w);
      && NotifyNext(site, w, StartPause, w1)
      && (StartPauseAlert(w.db.pause).Capture? ==>
           && NotifyNext(site, w1, SmtpAnswer(error), PauseAnswered(w1, error))
           && NotifyNext(site, PauseAnswered(w1, error), Finish, PauseFinished(PauseAnswered(w1, error))))
  {
  }

  lemma PauseStretch(site: Site, w: World, send: Sending) returns (t: Run)
    requires w.phase == Idle && w.notifier == Quiet
    ensures Walked(site, w, t) && t.w.phase == Idle && t.w.notifier == Quiet
    ensures t.w.checking == w.checking && t.w.now == w.now && t.w.hub == w.hub && t.w.normalizers == w.normalizers
    ensures t.w.db == match StartPauseAlert(w.db.pause)
                      case Capture(stamp) =>
                        if send.Answer? then w.db.(pause := FinishPauseAlert(w.db.pause, stamp, w.now, send.error).0)
                        else w.db
                      case _ => w.db
  {
    var error := if send.Answer? then send.error else None;
    PauseSteps(site, w, error);
    t := Then(Start(w), Notify(StartPause), PauseStarted(w));
    TakeNotify(site, w, Start(w), StartPause, t.w);
    if StartPauseAlert(w.db.pause).Capture? && send.SendRaised? {
      Drop(site, w, t);
      t := Then(t, Outside(Abandon), Dropped(t.w));
    } else if StartPauseAlert(w.db.pause).Capture? {
      var w2 := PauseAnswered(t.w, error);
      TakeNotify(site, w, t, SmtpAnswer(error), w2);
      t := Then(t, Notify(SmtpAnswer(error)), w2);
      TakeNotify(site, w, t, Finish, PauseFinished(w2));
      t := Then(t, Notify(Finish), PauseFinished(w2));
    }
  }

  /** `process_crm_pause_alert`: sends exactly when an unalerted pause is in force, and an accepted
      message leaves its time. */
  method ProcessCrmPauseAlert(db: Database, site: Site, now: Time, send: Sending, ghost w: World)
    returns (worked: bool, ghost t: Run)
    requires w.phase == Idle && w.notifier == Quiet && w.db == db.Db() && w.now == now
    modifies db
    ensures Walked(site, w, t) && t.w.phase == Idle && t.w.notifier == Quiet && t.w.db == db.Db()
    ensures t.w.checking == w.checking && t.w.now == w.now && t.w.hub == w.hub && t.w.normalizers == w.normalizers
    ensures db.Db() == w.db.(pause := db.pause) && PauseAlertVerdict(w.db.pause, now, send, db.pause)
    ensures worked <==> AlertDue(w.db.pause) && send.Answer?
  {
    AlertMeaning(w.db.pause, now, send);
    t := PauseStretch(site, w, send);
    var start := StartPauseAlert(db.pause);
    worked := start.Capture? && send.Answer?;
    if worked {
      var action := db.FinishCrmPauseAlert(start.stamp, now, send.error);
    }
  }

  // ---------- the clustered technical alert ----------

  function ClusterStarted(w: World, db: Schema.Db, episode: Option<Episode>): World {
    w.(db := db,
       notifier := if episode.Some? then SendingCluster(episode.value) else Quiet,
       mail := if db.leads == w.db.leads then w.mail
               else
                 var f := Frozen(w.now, Failures(w.db.leads, PendingAt(db.leads, w.now)));
                 w.mail.(frozen := w.mail.frozen + [f]))
  }

  function ClusterAnswered(w: World, error: Option<string>): World
    requires w.notifier.SendingCluster?
  {
    w.(notifier := SentCluster(w.notifier.episode, error))
  }

  function ClusterFinished(w: World): World
    requires w.notifier.SentCluster?
  {
    var (leads, action) := FinishCluster(w.db.leads, w.notifier.episode, w.notifier.error.None?);
    w.(db := w.db.(leads := leads), notifier := Quiet,
       mail := if action == StaleEpisode then w.mail.(stale := w.mail.stale + 1) else w.mail)
  }

  lemma ClusterSteps(site: Site, w: World, db: Schema.Db, episode: Option<Episode>, error: Option<string>)
    requires Checking(w) && StartCluster(w.db.leads, site.settings, w.now, db.leads, episode)
    requires db == w.db.(leads := db.leads)
    ensures var w1 := ClusterStarted(w, db, episode);
      && NotifyNext(site, w, StartClustered(episode), w1)
      && (episode.Some? ==>
           && NotifyNext(site, w1, SmtpAnswer(error), ClusterAnswered(w1, error))
           && NotifyNext(site, ClusterAnswered(w1, error), Finish, ClusterFinished(ClusterAnswered(w1, error))))
  {
  }

  lemma ClusterStretch(site: Site, w: World, db: Schema.Db, episode: Option<Episode>, send: Sending) returns (t: Run)
    requires Checking(w) && StartCluster(w.db.leads, site.settings, w.now, db.leads, episode)
    requires db == w.db.(leads := db.leads)
    ensures Checked(site, w, t,
      if episode.Some? && send.Answer?
      then db.(leads := FinishCluster(db.leads, episode.value, send.error.None?).0) else db)
  {
    var error := if send.Answer? then send.error else None;
    ClusterSteps(site, w, db, episode, error);
    t := Then(Start(w), Notify(StartClustered(episode)), ClusterStarted(w, db, episode));
    TakeNotify(site, w, Start(w), StartClustered(episode), t.w);
    if episode.Some? && send.SendRaised? {
      Drop(site, w, t);
      t := Then(t, Outside(Abandon), Dropped(t.w));
    } else if episode.Some? {
      var w2 := ClusterAnswered(t.w, error);
      TakeNotify(site, w, t, SmtpAnswer(error), w2);
      t := Then(t, Notify(SmtpAnswer(error)), w2);
      TakeNotify(site, w, t, Finish, ClusterFinished(w2));
      t := Then(t, Notify(Finish), ClusterFinished(w2));
    }
  }

  /** `process_cluster_technical_alert`. */
  method ProcessClusterAlert(db: Database, site: Site, now: Time, send: Sending, ghost w: World)
    returns (worked: bool, ghost t: Run)
    requires Checking(w) && w.db == db.Db() && w.now == now
    modifies db
    ensures Checked(site, w, t, db.Db())
    ensures db.Db() == w.db.(leads := db.leads) && ClusterVerdict(w.db.leads, site.settings, now, send, db.leads)
    ensures worked <==> EpisodeDue(w.db.leads, site.settings, now) && send.Answer?
  {
    var episode := db.StartClusterAlert(site.settings, now);
    t := ClusterStretch(site, w, db.Db(), episode, send);
    EpisodeMeaning(w.db.leads, site.settings, now, db.leads, episode);
    ClusterVerdicts(w.db.leads, site.settings, now, db.leads, episode, send);
    worked := episode.Some? && send.Answer?;
    if worked {
      var action := db.FinishClusterAlert(episode.value, send.error.None?);
    }
  }

  // ---------- the whole check ----------

  /** What the sender would do in each of the four operations. */
  datatype MailAnswers = MailAnswers(pause: Sending, cluster: Sending, failures: Sending, normalization: Sending)

  /** Some operation has something to do in this database and does not raise. */
  ghost predicate CheckWorks(db: Schema.Db, s: Settings, now: Time, smtp: MailAnswers) {
    || (AlertDue(db.pause) && smtp.pause.Answer?)
    || (EpisodeDue(db.leads, s, now) && smtp.cluster.Answer?)
    || BatchWorks(db, CrmFailures, s, now, smtp.failures)
    || BatchWorks(db, NormalizationFailures, s, now, smtp.normalization)
  }

  /** The two alerts, in order. */
  ghost predicate AlertsVerdict(db: Schema.Db, s: Settings, now: Time, smtp: MailAnswers, db': Schema.Db) {
    && db' == db.(pause := db'.pause, leads := db'.leads)
    && PauseAlertVerdict(db.pause, now, smtp.pause, db'.pause)
    && ClusterVerdict(db.leads, s, now, smtp.cluster, db'.leads)
  }

  /** The four operations, in order. */
  ghost predicate CheckVerdict(db: Schema.Db, s: Settings, now: Time, smtp: MailAnswers, db': Schema.Db) {
    exists alerted, reported ::
      && AlertsVerdict(db, s, now, smtp, alerted)
      && BatchVerdict(alerted, CrmFailures, s, now, smtp.failures, reported)
      && BatchVerdict(reported, NormalizationFailures, s, now, smtp.normalization, db')
  }

  /** An alert takes no work from the batches and gives them none. */
  lemma AlertsLeaveBatches(db: Schema.Db, s: Settings, now: Time, smtp: MailAnswers, db': Schema.Db, name: StreamName)
    requires AlertsVerdict(db, s, now, smtp, db')
    ensures forall id :: Unreported(db', name, id) <==> Unreported(db, name, id)
    ensures forall send :: BatchWorks(db', name, s, now, send) <==> BatchWorks(db, name, s, now, send)
  {
    if EpisodeDue(db.leads, s, now) {
      var at, ids :| EpisodeIs(db.leads, s, now, at, ids);
      assert EpisodeMarked(db.leads, at, ids, smtp.cluster, db'.leads);
    }
  }

  /** Neither does a batch of the other stream. */
  lemma BatchLeavesOther(db: Schema.Db, s: Settings, now: Time, send: Sending, db': Schema.Db)
    requires BatchVerdict(db, CrmFailures, s, now, send, db')
    ensures forall other :: BatchWorks(db', NormalizationFailures, s, now, other)
                       <==> BatchWorks(db, NormalizationFailures, s, now, other)
  {
    assert db'.events == db.events && db'.normalizationStream == db.normalizationStream;
    assert forall id :: Unreported(db', NormalizationFailures, id) <==> Unreported(db, NormalizationFailures, id);
  }

  /** `run_notification_check`: the four operations once each, in order, whatever any of them
      raises. None of them can give another one work or take it away: whether the check was
      useful is decided by the database it began with. */
  method RunNotificationCheck(db: Database, site: Site, now: Time, smtp: MailAnswers, ghost w: World)
    returns (useful: bool, ghost t: Run)
    requires Checking(w) && w.db == db.Db() && w.now == now && ValidSettings(site.settings)
    modifies db
    ensures Checked(site, w, t, db.Db())
    ensures CheckVerdict(w.db, site.settings, now, smtp, db.Db())
    ensures useful <==> CheckWorks(w.db, site.settings, now, smtp)
  {
    var worked;
    useful, t := RunAlerts(db, site, now, smtp, w);
    ghost var u;
    ghost var alerted := db.Db();
    AlertsLeaveBatches(w.db, site.settings, now, smtp, alerted, CrmFailures);
    AlertsLeaveBatches(w.db, site.settings, now, smtp, alerted, NormalizationFailures);
    worked, u := ProcessFailureBatch(db, CrmFailures, site, now, smtp.failures, t.w);
    useful := useful || worked;
    Joined(site, w, t, u);
    t := Append(t, u);
    BatchLeavesOther(alerted, site.settings, now, smtp.failures, db.Db());
    worked, u := ProcessFailureBatch(db, NormalizationFailures, site, now, smtp.normalization, t.w);
    useful := useful || worked;
    Joined(site, w, t, u);
    t := Append(t, u);
  }

  /** The first two operations. */
  method RunAlerts(db: Database, site: Site, now: Time, smtp: MailAnswers, ghost w: World)
    returns (useful: bool, ghost t: Run)
    requires Checking(w) && w.db == db.Db() && w.now == now
    modifies db
    ensures Checked(site, w, t, db.Db())
    ensures AlertsVerdict(w.db, site.settings, now, smtp, db.Db())
    ensures useful <==>
      || (AlertDue(w.db.pause) && smtp.pause.Answer?)
      || (EpisodeDue(w.db.leads, site.settings, now) && smtp.cluster.Answer?)
  {
    ghost var u;
    var worked;
    useful, t := ProcessCrmPauseAlert(db, site, now, smtp.pause, w);
    worked, u := ProcessClusterAlert(db, site, now, smtp.cluster, t.w);
    useful := useful || worked;
    Joined(site, w, t, u);
    t := Append(t, u);
  }
}
