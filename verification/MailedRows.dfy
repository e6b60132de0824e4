/** What was mailed is marked: the second half of the reporting promise. */
module MailedRows {
  import opened Schema
  import opened Notifications
  import opened NotificationVerdicts
  import opened System
  import opened EndToEnd
  import opened FailureReports
  import RQ = ReportQueue

  /** The rows that a batch of this stream lists are still unreported while it is under way. */
  ghost predicate InFlight(w: World, name: StreamName) {
    && (w.notifier.SendingBatch? && w.notifier.name == name ==>
         forall id | id in w.notifier.ids :: id in UnnotifiedKeys(w.db, name))
    && (w.notifier.SentBatch? && w.notifier.name == name ==>
         forall id | id in w.notifier.ids :: id in UnnotifiedKeys(w.db, name))
  }

  lemma StepKeepsFlight(w: World, w': World, name: StreamName, max: nat)
    requires RQ.StreamStep(w, w', name, max) && InFlight(w, name)
    ensures InFlight(w', name)
  {
  }

  lemma {:induction false} RunFlights(site: Site, r: Run, name: StreamName)
    requires Valid(site, r)
    ensures InFlight(r.w, name)
  {
    if r.Then? {
      LastStep(site, r);
      RunFlights(site, r.before, name);
      RunsAreReady(site, r.before);
      RQ.StepIsStreamStep(site, r.before.w, r.step, r.w, name);
      StepKeepsFlight(r.before.w, r.w, name, site.settings.batchMaxItems);
    }
  }

  /** When the mail server has accepted a batch and its second transaction runs, every row that
      the message listed carries the time of the attempt, in every run. */
  lemma AcceptedRowsAreMarked(site: Site, r: Run, id: nat)
    requires Valid(site, r) && r.Then? && r.step == Notify(Finish)
    requires r.before.w.notifier.SentBatch? && r.before.w.notifier.error.None? && id in r.before.w.notifier.ids
    ensures MarkOf(r.w.db, r.before.w.notifier.name, id) == Some(r.before.w.notifier.at)
  {
    var n := r.before.w.notifier;
    LastStep(site, r);
    RunFlights(site, r.before, n.name);
    UnnotifiedMeaning(r.before.w.db, n.name);
    FinishIs(site, r.before.w, r.w);
  }

  lemma FinishIs(site: Site, w: World, w': World)
    requires NotifyNext(site, w, Finish, w') && w.notifier.SentBatch?
    ensures w'.db == FinishBatch(w.db, w.notifier.name, w.notifier.ids, w.notifier.at, w.notifier.error)
  {
  }
}
