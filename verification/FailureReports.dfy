/** What the batch streams report: only mailed rows are marked, and once. */
module FailureReports {
  import opened Schema
  import opened Normalization
  import opened System
  import opened DeliverySafety
  import opened DeliveryProgress
  import opened ClaimQueue
  import opened EndToEnd
  import opened FailureBatches

  // ---------- marks ----------

  /** The notification mark of a row in either stream. */
  function MarkOf(db: Db, name: StreamName, id: nat): Option<Time> {
    if name == CrmFailures then
      if id in db.leads then db.leads[id].notice.escalationNotifiedAt else None
    else
      if id in db.events then db.events[id].notifiedAt else None
  }

  /** A message sent at `at` and accepted by the mail server listed the row. */
  ghost predicate Mailed(accepted: set<BatchMail>, name: StreamName, id: nat, at: Time) {
    exists ids :: BatchMail(name, ids, at) in accepted && id in ids
  }

  ghost predicate MarksBacked(db: Db, accepted: set<BatchMail>, name: StreamName) {
    forall id :: MarkOf(db, name, id).Some? ==> Mailed(accepted, name, id, MarkOf(db, name, id).value)
  }

  ghost predicate MarksOk(w: World) {
    && MarksBacked(w.db, w.mail.accepted, CrmFailures) && MarksBacked(w.db, w.mail.accepted, NormalizationFailures)
    && (w.notifier.SentBatch? && w.notifier.error.None? ==>
         BatchMail(w.notifier.name, w.notifier.ids, w.notifier.at) in w.mail.accepted)
  }

  lemma CrmMarks(site: Site, w: World, step: CrmStep, w': World, name: StreamName, id: nat)
    requires Safe(w) && CrmNext(site, w, step, w')
    ensures MarkOf(w'.db, name, id) == MarkOf(w.db, name, id)
  {
    CrmMoves(site, w, step, w');
    CrmLeavesEvents(site, w, step, w');
  }

  lemma IntakeMarks(site: Site, w: World, step: IntakeStep, w': World, name: StreamName, id: nat)
    requires TimesOk(w) && EventsOk(w.db.events, w.db.nextEventId) && IntakeNext(site, w, step, w')
    ensures MarkOf(w'.db, name, id) == MarkOf(w.db, name, id)
  {
    IntakeLeads(site, w, step, w');
    match step
    case Persist(_, _, _, _) => assert w.db.nextEventId !in w.db.events;
    case ClaimEvent(claimed) =>
      if claimed.Some? { assert claimed.value.id in ReceivedKeys(w.db); }
    case RecoverEvent(recovery) =>
      if !recovery.NoRecovery? { assert recovery.event in StaleKeys(w.db, site.settings.leaseSeconds, w.now); }
    case Normalize(k, result) =>
    case AbandonNormalizer(_, _) =>
  }

  /** Outside the batch streams' own `Finish`, no mark moves. */
  lemma NotifyMarks(site: Site, w: World, step: NotifyStep, w': World, name: StreamName, id: nat)
    requires NotifyNext(site, w, step, w') && !(step.Finish? && w.notifier.SentBatch?)
    ensures MarkOf(w'.db, name, id) == MarkOf(w.db, name, id)
  {
  }

  lemma FinishMarks(site: Site, w: World, w': World, name: StreamName, id: nat)
    requires NotifyNext(site, w, Finish, w') && w.notifier.SentBatch?
    ensures MarkOf(w.db, name, id).Some? ==> MarkOf(w'.db, name, id) == MarkOf(w.db, name, id)
    ensures MarkOf(w'.db, name, id) != MarkOf(w.db, name, id) ==>
      (w.notifier.error.None? && w.notifier.name == name && id in w.notifier.ids
       && MarkOf(w'.db, name, id) == Some(w.notifier.at))
  {
  }

  lemma OutsideMarks(w: World, step: OutsideStep, w': World, name: StreamName, id: nat)
    requires OutsideNext(w, step, w')
    ensures MarkOf(w'.db, name, id) == MarkOf(w.db, name, id)
  {
    OutsideFrame(w, step, w');
  }

  /** How one step treats one mark: it stays, or it is set for the first time from a batch that
      was accepted. */
  lemma StepMarks(site: Site, w: World, step: Step, w': World, name: StreamName, id: nat)
    requires Ready(w, site.lib) && Next(site, w, step, w')
    ensures || MarkOf(w'.db, name, id) == MarkOf(w.db, name, id)
            || (MarkOf(w.db, name, id).None? && w.notifier.SentBatch? && w.notifier.error.None?
                && w.notifier.name == name && id in w.notifier.ids
                && MarkOf(w'.db, name, id) == Some(w.notifier.at))
  {
    match step
    case Crm(c) => CrmMarks(site, w, c, w', name, id);
    case Intake(i) => IntakeMarks(site, w, i, w', name, id);
    case Notify(n) =>
      if n.Finish? && w.notifier.SentBatch? { FinishMarks(site, w, w', name, id); }
      else { NotifyMarks(site, w, n, w', name, id); }
    case Outside(o) => OutsideMarks(w, o, w', name, id);
  }

  /** Accepted messages are remembered, and an accepted batch in hand is among them. */
  lemma MailGrows(site: Site, w: World, step: Step, w': World)
    requires Next(site, w, step, w')
    requires w.notifier.SentBatch? && w.notifier.error.None? ==>
      BatchMail(w.notifier.name, w.notifier.ids, w.notifier.at) in w.mail.accepted
    ensures w.mail.accepted <= w'.mail.accepted
    ensures w'.notifier.SentBatch? && w'.notifier.error.None? ==>
      BatchMail(w'.notifier.name, w'.notifier.ids, w'.notifier.at) in w'.mail.accepted
  {
    if !step.Notify? { OtherStreams(site, w, step, w', CrmFailures); }
  }

  lemma StepKeepsMarksBacked(site: Site, w: World, step: Step, w': World, name: StreamName)
    requires Ready(w, site.lib) && MarksOk(w) && Next(site, w, step, w')
    requires w.mail.accepted <= w'.mail.accepted
    ensures MarksBacked(w'.db, w'.mail.accepted, name)
  {
    forall id | MarkOf(w'.db, name, id).Some?
      ensures Mailed(w'.mail.accepted, name, id, MarkOf(w'.db, name, id).value)
    {
      StepMarks(site, w, step, w', name, id);
      if MarkOf(w'.db, name, id) == MarkOf(w.db, name, id) {
        var at := MarkOf(w.db, name, id).value;
        assert Mailed(w.mail.accepted, name, id, at);
        var ids :| BatchMail(name, ids, at) in w.mail.accepted && id in ids;
        assert BatchMail(name, ids, at) in w'.mail.accepted;
      } else {
        assert BatchMail(name, w.notifier.ids, w.notifier.at) in w'.mail.accepted;
      }
    }
  }

  lemma {:induction false} RunMarks(site: Site, r: Run)
    requires Valid(site, r)
    ensures Ready(r.w, site.lib) && MarksOk(r.w)
  {
    RunsAreReady(site, r);
    if r.Then? {
      LastStep(site, r);
      RunMarks(site, r.before);
      MailGrows(site, r.before.w, r.step, r.w);
      StepKeepsMarksBacked(site, r.before.w, r.step, r.w, CrmFailures);
      StepKeepsMarksBacked(site, r.before.w, r.step, r.w, NormalizationFailures);
    }
  }

  /** A row is marked as notified only if it was listed in a message the mail server accepted. */
  lemma OnlyMailedRowsAreMarked(site: Site, r: Run, name: StreamName, id: nat)
    requires Valid(site, r) && MarkOf(r.w.db, name, id).Some?
    ensures Mailed(r.w.mail.accepted, name, id, MarkOf(r.w.db, name, id).value)
  {
    RunMarks(site, r);
    assert MarksBacked(r.w.db, r.w.mail.accepted, name);
  }

  /** A mark, once set, never changes. */
  lemma {:induction false} MarksAreFinal(site: Site, early: Run, late: Run, name: StreamName, id: nat)
    requires Valid(site, late) && Prefix(early, late) && MarkOf(early.w.db, name, id).Some?
    ensures MarkOf(late.w.db, name, id) == MarkOf(early.w.db, name, id)
    decreases late
  {
    if late != early {
      LastStep(site, late);
      MarksAreFinal(site, early, late.before, name, id);
      RunsAreReady(site, late.before);
      StepMarks(site, late.before.w, late.step, late.w, name, id);
    }
  }
}
