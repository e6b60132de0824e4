/** Batches drain each stream in order: a failed row waits only for the rows ahead of it. */
module ReportQueue {
  import opened Schema
  import opened Queries
  import opened HubSpot
  import opened CrmDelivery
  import opened Normalization
  import opened Notifications
  import opened System
  import opened DeliverySafety
  import opened ClaimQueue
  import opened EndToEnd
  import opened FailureBatches

  /** Old rows keep their place and new ones failed no earlier than `now`. */
  ghost predicate KeysGrow(keys: Keys, keys': Keys, now: Time) {
    && (forall j | j in keys :: j in keys' && keys'[j] == keys[j])
    && (forall j | j in keys' && j !in keys :: keys'[j].Some? && keys'[j].value >= now)
  }

  /** The rows ahead of row `id`. */
  ghost function RowsAhead(keys: Keys, id: nat): set<nat>
    requires id in keys
  {
    set j | j in keys && j != id && Precedes(keys[j], j, keys[id], id)
  }

  lemma GrowthKeepsRowsAhead(keys: Keys, keys': Keys, now: Time, id: nat)
    requires KeysGrow(keys, keys', now) && id in keys && keys[id].Some? && keys[id].value < now
    ensures RowsAhead(keys', id) == RowsAhead(keys, id)
  {
  }

  // ---------- which steps fail rows ----------

  /** An escalated row is final, and a row escalates with the time of the step. */
  ghost predicate Escalates(leads: Leads, leads': Leads, now: Time) {
    && (forall id | id in leads && Escalated(leads[id].crm.status) :: id in leads' && leads'[id] == leads[id])
    && (forall id | id in leads' && Escalated(leads'[id].crm.status) ::
         id in leads && (leads'[id] == leads[id] || leads'[id].crm.failureAt == Some(now)))
  }

  lemma EscalatesKeys(db: Db, db': Db, now: Time)
    requires Escalates(db.leads, db'.leads, now)
    ensures KeysGrow(UnnotifiedKeys(db, CrmFailures), UnnotifiedKeys(db', CrmFailures), now)
  {
    var keys, keys' := UnnotifiedKeys(db, CrmFailures), UnnotifiedKeys(db', CrmFailures);
    forall j | j in keys ensures j in keys' && keys'[j] == keys[j] { assert db'.leads[j] == db.leads[j]; }
    forall j | j in keys' && j !in keys ensures keys'[j] == Some(now) { assert j in db'.leads; }
  }

  /** A result that escalates its row stamps it with the current time. */
  predicate StampsEscalation(row: Delivery, now: Time) { Escalated(row.status) ==> row.failureAt == Some(now) }

  lemma ResultsStampEscalation(
      l: Lead, result: CreateResult, decision: Decision, read: ReadResult, s: Settings,
      httpDate: DateReader, now: Time)
    ensures l.crm.status == Sending && ApplyCreate(l.crm, result, s, httpDate, now).Ok? ==>
      StampsEscalation(ApplyCreate(l.crm, result, s, httpDate, now).value.row, now)
    ensures l.crm.status == Sending ==> StampsEscalation(ApplyDecision(l.crm, decision, now).row, now)
    ensures l.crm.status == Unknown && ApplyEvidence(l.crm, l.identity.contact, read, s, httpDate, now).Ok? ==>
      StampsEscalation(ApplyEvidence(l.crm, l.identity.contact, read, s, httpDate, now).value.row, now)
  {
  }

  lemma RowEscalates(leads: Leads, id: nat, row: Delivery, now: Time)
    requires id in leads && !Escalated(leads[id].crm.status) && StampsEscalation(row, now)
    ensures Escalates(leads, WithRow(leads, id, row), now)
  {
  }

  lemma ResultEscalates(site: Site, w: World, step: CrmStep, w': World)
    requires CrmNext(site, w, step, w') && (step.CommitCreate? || step.CommitDecision? || step.CommitEvidence?)
    ensures Escalates(w.db.leads, w'.db.leads, w.now)
  {
    var id, s, httpDate, now := w.phase.lead, site.settings, site.lib.httpDate, w.now;
    if HasStatus(w.db, id, if step.CommitEvidence? then Unknown else Sending) {
      var l := w.db.leads[id];
      match step
      case CommitCreate =>
        ResultsStampEscalation(l, w.phase.result, Existing(""), ClassifyRead(ReadTransportFailure), s, httpDate, now);
        var applied := ApplyCreate(l.crm, w.phase.result, s, httpDate, now);
        if applied.Ok? { RowEscalates(w.db.leads, id, applied.value.row, now); }
      case CommitDecision =>
        ResultsStampEscalation(l, ClassifyCreate(TransmissionFailure), w.phase.decision,
                               ClassifyRead(ReadTransportFailure), s, httpDate, now);
        RowEscalates(w.db.leads, id, ApplyDecision(l.crm, w.phase.decision, now).row, now);
      case CommitEvidence =>
        ResultsStampEscalation(l, ClassifyCreate(TransmissionFailure), Existing(""), w.phase.read, s, httpDate, now);
        var applied := ApplyEvidence(l.crm, l.identity.contact, w.phase.read, s, httpDate, now);
        if applied.Ok? { RowEscalates(w.db.leads, id, applied.value.row, now); }
    }
  }

  lemma SelectionEscalates(site: Site, w: World, step: CrmStep, w': World)
    requires CrmNext(site, w, step, w') && (step.Prepare? || step.TryClaim?)
    ensures Escalates(w.db.leads, w'.db.leads, w.now)
  {
    if step.gate.Recovered? {
      var id := step.gate.lead;
      assert id in SendingKeys(w.db.leads);
      RowEscalates(w.db.leads, id, Recover(w.db.leads[id].crm, w.now), w.now);
    } else if step.TryClaim? && step.result.Ok? && step.result.value.Claimed? {
      var id := step.result.value.lead;
      assert id in ClaimableKeys(w.db.leads, w.now);
      RowEscalates(w.db.leads, id, StartSending(w.db.leads[id].crm, w.now), w.now);
    }
  }

  lemma CrmEscalates(site: Site, w: World, step: CrmStep, w': World)
    requires CrmNext(site, w, step, w')
    ensures Escalates(w.db.leads, w'.db.leads, w.now)
  {
    match step
    case Prepare(_, _) => SelectionEscalates(site, w, step, w');
    case TryClaim(_, _) => SelectionEscalates(site, w, step, w');
    case CommitCreate => ResultEscalates(site, w, step, w');
    case CommitDecision => ResultEscalates(site, w, step, w');
    case CommitEvidence => ResultEscalates(site, w, step, w');
    case _ => assert w'.db.leads == w.db.leads;
  }

  lemma CrmGrowsKeys(site: Site, w: World, step: CrmStep, w': World, name: StreamName)
    requires CrmNext(site, w, step, w')
    ensures KeysGrow(UnnotifiedKeys(w.db, name), UnnotifiedKeys(w'.db, name), w.now)
  {
    CrmLeavesEvents(site, w, step, w');
    CrmEscalates(site, w, step, w');
    EscalatesKeys(w.db, w'.db, w.now);
  }

  /** A failed event is final, and an event fails with the time of the step or later. */
  ghost predicate EventsFail(events: map<nat, Event>, events': map<nat, Event>, now: Time) {
    && (forall e | e in events && events[e].status == NormalizationFailed :: e in events' && events'[e] == events[e])
    && (forall e | e in events' && events'[e].status == NormalizationFailed ::
         || (e in events && events'[e] == events[e])
         || (events'[e].completedAt.Some? && events'[e].completedAt.value >= now))
  }

  lemma EventsFailKeys(db: Db, db': Db, now: Time)
    requires EventsFail(db.events, db'.events, now)
    ensures KeysGrow(UnnotifiedKeys(db, NormalizationFailures), UnnotifiedKeys(db', NormalizationFailures), now)
  {
    var keys, keys' := UnnotifiedKeys(db, NormalizationFailures), UnnotifiedKeys(db', NormalizationFailures);
    forall j | j in keys ensures j in keys' && keys'[j] == keys[j] { assert db'.events[j] == db.events[j]; }
    forall j | j in keys' && j !in keys ensures keys'[j].Some? && keys'[j].value >= now { assert j in db'.events; }
  }

  lemma IntakeFailsEvents(site: Site, w: World, step: IntakeStep, w': World)
    requires TimesOk(w) && EventsOk(w.db.events, w.db.nextEventId) && IntakeNext(site, w, step, w')
    ensures EventsFail(w.db.events, w'.db.events, w.now)
  {
    match step
    case Persist(_, _, _, _) => assert w.db.nextEventId !in w.db.events;
    case ClaimEvent(claimed) =>
      if claimed.Some? { assert claimed.value.id in ReceivedKeys(w.db); }
    case RecoverEvent(recovery) =>
      if !recovery.NoRecovery? { assert recovery.event in StaleKeys(w.db, site.settings.leaseSeconds, w.now); }
    case Normalize(k, result) => NormalizeFailsEvents(site, w, k, result, w');
    case AbandonNormalizer(_, _) =>
  }

  lemma NormalizeFailsEvents(
      site: Site, w: World, k: nat, result: Result<NormalizationOutcome, NormalizationError>, w': World)
    requires TimesOk(w) && IntakeNext(site, w, Normalize(k, result), w')
    ensures EventsFail(w.db.events, w'.db.events, w.now)
  {
  }

  lemma IntakeGrowsKeys(site: Site, w: World, step: IntakeStep, w': World, name: StreamName)
    requires TimesOk(w) && EventsOk(w.db.events, w.db.nextEventId) && IntakeNext(site, w, step, w')
    ensures KeysGrow(UnnotifiedKeys(w.db, name), UnnotifiedKeys(w'.db, name), w.now)
  {
    IntakeLeads(site, w, step, w');
    IntakeFailsEvents(site, w, step, w');
    EventsFailKeys(w.db, w'.db, w.now);
    assert Escalates(w.db.leads, w'.db.leads, w.now);
    EscalatesKeys(w.db, w'.db, w.now);
  }

  /** Outside batch completions, a notification step moves only columns no stream selects by. */
  lemma NotifyColumns(site: Site, w: World, step: NotifyStep, w': World)
    requires NotifyNext(site, w, step, w') && !(step.Finish? && w.notifier.SentBatch?)
    ensures w'.db.events == w.db.events && SameDelivery(w.db.leads, w'.db.leads)
    ensures forall id | id in w.db.leads ::
      w'.db.leads[id].notice.escalationNotifiedAt == w.db.leads[id].notice.escalationNotifiedAt
  {
    NotifyLeads(site, w, step, w');
  }

  /** The step marks a batch of this stream, or records its error. */
  predicate OwnFinish(w: World, step: Step, name: StreamName) {
    step == Notify(Finish) && w.notifier.SentBatch? && w.notifier.name == name
  }

  lemma NotifyKeys(site: Site, w: World, step: NotifyStep, w': World, name: StreamName)
    requires NotifyNext(site, w, step, w') && !OwnFinish(w, Notify(step), name)
    ensures UnnotifiedKeys(w'.db, name) == UnnotifiedKeys(w.db, name)
  {
    if step.Finish? && w.notifier.SentBatch? {
      assert w.notifier.name != name;
    } else {
      NotifyColumns(site, w, step, w');
    }
  }

  /** Every step but the stream's own `Finish` leaves old rows in place. */
  lemma StepGrowsKeys(site: Site, w: World, step: Step, w': World, name: StreamName)
    requires Ready(w, site.lib) && Next(site, w, step, w')
    requires !OwnFinish(w, step, name)
    ensures KeysGrow(UnnotifiedKeys(w.db, name), UnnotifiedKeys(w'.db, name), w.now)
    ensures Count(w'.mail.reported, name) == Count(w.mail.reported, name)
  {
    match step
    case Crm(c) =>
      CrmGrowsKeys(site, w, c, w', name);
      CrmStreams(site, w, c, w');
    case Intake(i) =>
      IntakeGrowsKeys(site, w, i, w', name);
      IntakeLeads(site, w, i, w');
    case Notify(n) =>
      NotifyKeys(site, w, n, w', name);
      NotifyCount(site, w, n, w', name);
    case Outside(o) => OutsideFrame(w, o, w');
  }

  lemma NotifyCount(site: Site, w: World, step: NotifyStep, w': World, name: StreamName)
    requires NotifyNext(site, w, step, w') && !OwnFinish(w, Notify(step), name)
    ensures Count(w'.mail.reported, name) == Count(w.mail.reported, name)
  {
  }

  // ---------- a batch in flight ----------

  ghost predicate Distinct(ids: seq<nat>) { forall a, b | 0 <= a < b < |ids| :: ids[a] != ids[b] }

  /** The batch lists the row, or is full of rows ahead of it. */
  ghost predicate Covers(keys: Keys, ids: seq<nat>, id: nat, max: nat)
    requires id in keys
  {
    id in ids || (|ids| == max && Distinct(ids) && forall k | 0 <= k < |ids| :: ids[k] in RowsAhead(keys, id))
  }

  ghost predicate FlightCovers(w: World, name: StreamName, id: nat, max: nat)
    requires id in UnnotifiedKeys(w.db, name)
  {
    && (w.notifier.SendingBatch? && w.notifier.name == name ==>
         Covers(UnnotifiedKeys(w.db, name), w.notifier.ids, id, max))
    && (w.notifier.SentBatch? && w.notifier.name == name ==>
         Covers(UnnotifiedKeys(w.db, name), w.notifier.ids, id, max))
  }

  lemma SelectionCovers(keys: Keys, max: nat, ids: seq<nat>, id: nat)
    requires IsPrefix(keys, max, ids) && id in keys
    ensures Covers(keys, ids, id, max)
  {
    if id !in ids {
      forall k | 0 <= k < |ids| ensures ids[k] in RowsAhead(keys, id) {
        assert Precedes(keys[ids[k]], ids[k], keys[id], id);
      }
    }
  }

  function ToSet(ids: seq<nat>): set<nat> { set x | x in ids }

  lemma {:induction false} DistinctSize(ids: seq<nat>)
    requires Distinct(ids)
    ensures |ToSet(ids)| == |ids|
  {
    if ids != [] {
      var rest, last := ids[..|ids| - 1], ids[|ids| - 1];
      DistinctSize(rest);
      assert ids == rest + [last];
      assert last !in ToSet(rest);
      assert ToSet(ids) == ToSet(rest) + {last};
    }
  }

  lemma SetMinusSize(a: set<nat>, b: set<nat>)
    requires b <= a
    ensures |a - b| + |b| == |a|
  {
    assert a == (a - b) + b;
  }

  lemma CoveredSize(keys: Keys, ids: seq<nat>, id: nat, max: nat, keys': Keys)
    requires id in keys && id in keys' && Covers(keys, ids, id, max) && id !in ids
    requires forall j :: j in keys' <==> j in keys && j !in ids
    requires forall j | j in keys' :: keys'[j] == keys[j]
    ensures |RowsAhead(keys', id)| + max == |RowsAhead(keys, id)|
  {
    DistinctSize(ids);
    SetMinusSize(RowsAhead(keys, id), ToSet(ids));
    assert RowsAhead(keys', id) == RowsAhead(keys, id) - ToSet(ids);
  }

  /** Marking removes exactly the listed rows. */
  lemma MarkedKeys(db: Db, name: StreamName, ids: seq<nat>, at: Time, error: Option<string>)
    ensures var keys, keys' := UnnotifiedKeys(db, name), UnnotifiedKeys(FinishBatch(db, name, ids, at, error), name);
      && (forall j :: j in keys' <==> j in keys && (error.None? ==> j !in ids))
      && (forall j | j in keys' :: keys'[j] == keys[j])
  {
  }

  // ---------- progress ----------

  /** The row kept its place, and each successful batch took `max` rows from ahead of it. */
  ghost predicate RowAdvances(w: World, w': World, name: StreamName, id: nat, max: nat)
    requires id in UnnotifiedKeys(w.db, name) && id in UnnotifiedKeys(w'.db, name)
  {
    && UnnotifiedKeys(w'.db, name)[id] == UnnotifiedKeys(w.db, name)[id]
    && max * (Count(w'.mail.reported, name) - Count(w.mail.reported, name))
       + |RowsAhead(UnnotifiedKeys(w'.db, name), id)|
       <= |RowsAhead(UnnotifiedKeys(w.db, name), id)|
  }

  /** The batch is over: what it listed is marked if it was accepted, and it is counted. */
  ghost predicate BatchEnded(w: World, w': World, name: StreamName) {
    && w.notifier.SentBatch? && w.notifier.name == name && w'.notifier == Quiet
    && w'.db == FinishBatch(w.db, name, w.notifier.ids, w.notifier.at, w.notifier.error)
    && Count(w'.mail.reported, name) == Count(w.mail.reported, name) + if w.notifier.error.None? then 1 else 0
  }

  lemma FinishEnds(site: Site, w: World, step: Step, w': World, name: StreamName)
    requires Next(site, w, step, w') && OwnFinish(w, step, name)
    ensures BatchEnded(w, w', name)
  {
  }

  lemma FinishAdvances(w: World, w': World, name: StreamName, id: nat, max: nat)
    requires BatchEnded(w, w', name) && id in UnnotifiedKeys(w.db, name) && id in UnnotifiedKeys(w'.db, name)
    requires FlightCovers(w, name, id, max)
    ensures RowAdvances(w, w', name, id, max)
  {
    var n := w.notifier;
    MarkedKeys(w.db, name, n.ids, n.at, n.error);
    FinishRowsAhead(UnnotifiedKeys(w.db, name), n.ids, n.error, id, max, UnnotifiedKeys(w'.db, name));
  }

  lemma FinishRowsAhead(keys: Keys, ids: seq<nat>, error: Option<string>, id: nat, max: nat, keys': Keys)
    requires id in keys && id in keys' && Covers(keys, ids, id, max)
    requires forall j :: j in keys' <==> j in keys && (error.None? ==> j !in ids)
    requires forall j | j in keys' :: keys'[j] == keys[j]
    ensures |RowsAhead(keys', id)| + (if error.None? then max else 0) == |RowsAhead(keys, id)|
  {
    if error.None? { CoveredSize(keys, ids, id, max, keys'); }
    else { assert RowsAhead(keys', id) == RowsAhead(keys, id); }
  }

  lemma CoversGrows(keys: Keys, keys': Keys, now: Time, ids: seq<nat>, id: nat, max: nat)
    requires KeysGrow(keys, keys', now) && id in keys && keys[id].Some? && keys[id].value < now
    requires Covers(keys, ids, id, max)
    ensures Covers(keys', ids, id, max)
  {
    GrowthKeepsRowsAhead(keys, keys', now, id);
  }

  /** No batch of this stream is under way. */
  predicate BetweenBatches(notifier: Notifier, name: StreamName) {
    !((notifier.SendingBatch? || notifier.SentBatch?) && notifier.name == name)
  }

  /** The batch of this stream in flight at `w'` was in flight before, was only answered, or has
      just been selected. */
  ghost predicate FlightMoved(w: World, w': World, name: StreamName, max: nat) {
    && (w'.notifier.SendingBatch? && w'.notifier.name == name && w'.notifier != w.notifier ==>
         && w.notifier == Quiet && UnnotifiedKeys(w'.db, name) == UnnotifiedKeys(w.db, name)
         && IsPrefix(UnnotifiedKeys(w.db, name), max, w'.notifier.ids))
    && (w'.notifier.SentBatch? && w'.notifier.name == name && w'.notifier != w.notifier ==>
         w.notifier.SendingBatch? && w.notifier.name == name && w.notifier.ids == w'.notifier.ids)
    && (!BetweenBatches(w.notifier, name) ==> w'.notifier == Quiet || !BetweenBatches(w'.notifier, name))
  }

  lemma FlightMoves(site: Site, w: World, step: Step, w': World, name: StreamName)
    requires Next(site, w, step, w')
    ensures FlightMoved(w, w', name, site.settings.batchMaxItems)
  {
    if !step.Notify? { OtherStreams(site, w, step, w', name); }
  }

  /** A step that does not end a batch of this stream. */
  ghost predicate StreamGoesOn(w: World, w': World, name: StreamName, max: nat) {
    && KeysGrow(UnnotifiedKeys(w.db, name), UnnotifiedKeys(w'.db, name), w.now)
    && Count(w'.mail.reported, name) == Count(w.mail.reported, name)
    && FlightMoved(w, w', name, max)
  }

  /** Every step ends a batch of the stream or lets the stream go on. */
  ghost predicate StreamStep(w: World, w': World, name: StreamName, max: nat) {
    w.now <= w'.now && (BatchEnded(w, w', name) || StreamGoesOn(w, w', name, max))
  }

  lemma StepIsStreamStep(site: Site, w: World, step: Step, w': World, name: StreamName)
    requires Ready(w, site.lib) && Next(site, w, step, w')
    ensures StreamStep(w, w', name, site.settings.batchMaxItems)
  {
    StepKeepsTimes(site, w, step, w');
    if OwnFinish(w, step, name) {
      FinishEnds(site, w, step, w', name);
    } else {
      StepGrowsKeys(site, w, step, w', name);
      FlightMoves(site, w, step, w', name);
    }
  }

  lemma FlightGrows(w: World, w': World, name: StreamName, id: nat, max: nat)
    requires StreamGoesOn(w, w', name, max)
    requires id in UnnotifiedKeys(w.db, name) && DueBy(UnnotifiedKeys(w.db, name)[id], w.now - 1)
    requires FlightCovers(w, name, id, max)
    ensures FlightCovers(w', name, id, max)
  {
    var keys, keys' := UnnotifiedKeys(w.db, name), UnnotifiedKeys(w'.db, name);
    if w'.notifier.SendingBatch? && w'.notifier.name == name {
      if w'.notifier == w.notifier { CoversGrows(keys, keys', w.now, w.notifier.ids, id, max); }
      else { SelectionCovers(keys, max, w'.notifier.ids, id); }
    }
    if w'.notifier.SentBatch? && w'.notifier.name == name {
      CoversGrows(keys, keys', w.now, w'.notifier.ids, id, max);
    }
  }

  lemma GrowthAdvances(w: World, w': World, name: StreamName, id: nat, max: nat)
    requires KeysGrow(UnnotifiedKeys(w.db, name), UnnotifiedKeys(w'.db, name), w.now)
    requires Count(w'.mail.reported, name) == Count(w.mail.reported, name)
    requires id in UnnotifiedKeys(w.db, name) && DueBy(UnnotifiedKeys(w.db, name)[id], w.now - 1)
    ensures RowAdvances(w, w', name, id, max)
  {
    GrowthKeepsRowsAhead(UnnotifiedKeys(w.db, name), UnnotifiedKeys(w'.db, name), w.now, id);
  }

  lemma Telescopes(max: int, a: int, b: int, c: int)
    ensures max * (c - a) == max * (c - b) + max * (b - a)
  {
  }

  lemma StepAdvancesRow(w: World, w': World, name: StreamName, id: nat, max: nat)
    requires StreamStep(w, w', name, max)
    requires id in UnnotifiedKeys(w.db, name) && id in UnnotifiedKeys(w'.db, name)
    requires DueBy(UnnotifiedKeys(w.db, name)[id], w.now - 1)
    requires FlightCovers(w, name, id, max)
    ensures RowAdvances(w, w', name, id, max)
    ensures FlightCovers(w', name, id, max)
    ensures DueBy(UnnotifiedKeys(w'.db, name)[id], w'.now - 1)
  {
    if BatchEnded(w, w', name) {
      FinishAdvances(w, w', name, id, max);
    } else {
      GrowthAdvances(w, w', name, id, max);
      FlightGrows(w, w', name, id, max);
    }
  }

  /** The row is unreported from one moment to the other. */
  ghost predicate Unreported(early: Run, late: Run, name: StreamName, id: nat) {
    && id in UnnotifiedKeys(late.w.db, name)
    && (late == early || (late.Then? && Unreported(early, late.before, name, id)))
  }

  /** What a batch that was under way at first may have taken in excess. */
  function Slack(u: World, name: StreamName, max: nat): nat {
    if BetweenBatches(u.notifier, name) then 0 else max
  }

  /** The row kept its place, and the successful batches since `u` have fitted into the rows that
      were ahead of it, give or take the batch that was under way. */
  ghost predicate KeepsItsTurn(u: World, w: World, name: StreamName, id: nat, max: nat)
    requires id in UnnotifiedKeys(u.db, name) && id in UnnotifiedKeys(w.db, name)
  {
    && UnnotifiedKeys(w.db, name)[id] == UnnotifiedKeys(u.db, name)[id]
    && max * (Count(w.mail.reported, name) - Count(u.mail.reported, name)) + |RowsAhead(UnnotifiedKeys(w.db, name), id)|
       <= |RowsAhead(UnnotifiedKeys(u.db, name), id)| + Slack(u, name, max)
  }

  /** The batch that was under way at `u` still is. */
  ghost predicate FirstBatch(u: World, w: World, name: StreamName, id: nat)
    requires id in UnnotifiedKeys(u.db, name) && id in UnnotifiedKeys(w.db, name)
  {
    && !BetweenBatches(u.notifier, name) && !BetweenBatches(w.notifier, name)
    && UnnotifiedKeys(w.db, name)[id] == UnnotifiedKeys(u.db, name)[id]
    && Count(w.mail.reported, name) == Count(u.mail.reported, name)
    && |RowsAhead(UnnotifiedKeys(w.db, name), id)| <= |RowsAhead(UnnotifiedKeys(u.db, name), id)|
  }

  /** What is known of the row at `w` when it was first looked at in `u`. */
  ghost predicate Tracked(u: World, w: World, name: StreamName, id: nat, max: nat) {
    && id in UnnotifiedKeys(u.db, name) && id in UnnotifiedKeys(w.db, name)
    && DueBy(UnnotifiedKeys(w.db, name)[id], w.now - 1)
    && (FirstBatch(u, w, name, id) || (FlightCovers(w, name, id, max) && KeepsItsTurn(u, w, name, id, max)))
  }

  lemma TurnsCompose(u: World, v: World, w: World, name: StreamName, id: nat, max: nat)
    requires id in UnnotifiedKeys(u.db, name) && id in UnnotifiedKeys(v.db, name) && id in UnnotifiedKeys(w.db, name)
    requires KeepsItsTurn(u, v, name, id, max) && RowAdvances(v, w, name, id, max)
    ensures KeepsItsTurn(u, w, name, id, max)
  {
    Telescopes(max, Count(u.mail.reported, name), Count(v.mail.reported, name), Count(w.mail.reported, name));
  }

  /** The first batch ends: at most one success, and no row comes ahead. */
  lemma FirstBatchEnds(u: World, w: World, w': World, name: StreamName, id: nat, max: nat)
    requires id in UnnotifiedKeys(u.db, name) && id in UnnotifiedKeys(w.db, name) && id in UnnotifiedKeys(w'.db, name)
    requires FirstBatch(u, w, name, id) && w'.notifier == Quiet
    requires DueBy(UnnotifiedKeys(w.db, name)[id], w.now - 1) && w.now <= w'.now
    requires UnnotifiedKeys(w'.db, name)[id] == UnnotifiedKeys(w.db, name)[id]
    requires |RowsAhead(UnnotifiedKeys(w'.db, name), id)| <= |RowsAhead(UnnotifiedKeys(w.db, name), id)|
    requires Count(w.mail.reported, name) <= Count(w'.mail.reported, name) <= Count(w.mail.reported, name) + 1
    ensures Tracked(u, w', name, id, max)
  {
    var batches := Count(w'.mail.reported, name) - Count(u.mail.reported, name);
    assert batches == 0 || batches == 1;
    assert max * batches <= max;
  }

  lemma FirstBatchFinishes(u: World, w: World, w': World, name: StreamName, id: nat, max: nat)
    requires BatchEnded(w, w', name)
    requires id in UnnotifiedKeys(u.db, name) && id in UnnotifiedKeys(w.db, name) && id in UnnotifiedKeys(w'.db, name)
    requires FirstBatch(u, w, name, id) && DueBy(UnnotifiedKeys(w.db, name)[id], w.now - 1) && w.now <= w'.now
    ensures Tracked(u, w', name, id, max)
  {
    MarkedKeys(w.db, name, w.notifier.ids, w.notifier.at, w.notifier.error);
    FewerRowsAhead(UnnotifiedKeys(w.db, name), UnnotifiedKeys(w'.db, name), id);
    FirstBatchEnds(u, w, w', name, id, max);
  }

  lemma FewerRowsAhead(keys: Keys, keys': Keys, id: nat)
    requires id in keys && id in keys' && forall j | j in keys' :: j in keys && keys'[j] == keys[j]
    ensures |RowsAhead(keys', id)| <= |RowsAhead(keys, id)|
  {
    assert RowsAhead(keys', id) <= RowsAhead(keys, id);
    SetMinusSize(RowsAhead(keys, id), RowsAhead(keys', id));
  }

  /** Any other step: the first batch stays under way, or is abandoned. */
  lemma FirstBatchGoesOn(u: World, w: World, w': World, name: StreamName, id: nat, max: nat)
    requires StreamGoesOn(w, w', name, max) && w.now <= w'.now
    requires id in UnnotifiedKeys(u.db, name) && id in UnnotifiedKeys(w.db, name)
    requires DueBy(UnnotifiedKeys(w.db, name)[id], w.now - 1) && FirstBatch(u, w, name, id)
    ensures Tracked(u, w', name, id, max)
  {
    GrowthKeepsRowsAhead(UnnotifiedKeys(w.db, name), UnnotifiedKeys(w'.db, name), w.now, id);
    if w'.notifier == Quiet { FirstBatchEnds(u, w, w', name, id, max); }
  }

  lemma TrackedStep(u: World, w: World, w': World, name: StreamName, id: nat, max: nat)
    requires StreamStep(w, w', name, max) && id in UnnotifiedKeys(w'.db, name)
    requires Tracked(u, w, name, id, max)
    ensures Tracked(u, w', name, id, max)
  {
    if !FirstBatch(u, w, name, id) {
      StepAdvancesRow(w, w', name, id, max);
      TurnsCompose(u, w, w', name, id, max);
    } else if BatchEnded(w, w', name) {
      FirstBatchFinishes(u, w, w', name, id, max);
    } else {
      FirstBatchGoesOn(u, w, w', name, id, max);
    }
  }

  lemma {:induction false} RunsTrackRows(site: Site, early: Run, late: Run, name: StreamName, id: nat)
    requires Valid(site, late) && Unreported(early, late, name, id)
    requires Tracked(early.w, early.w, name, id, site.settings.batchMaxItems)
    ensures Tracked(early.w, late.w, name, id, site.settings.batchMaxItems)
    decreases late
  {
    if late != early {
      LastStep(site, late);
      RunsTrackRows(site, early, late.before, name, id);
      RunsAreReady(site, late.before);
      StepIsStreamStep(site, late.before.w, late.step, late.w, name);
      TrackedStep(early.w, late.before.w, late.w, name, id, site.settings.batchMaxItems);
    }
  }

  lemma TrackingStarts(w: World, name: StreamName, id: nat, max: nat)
    requires id in UnnotifiedKeys(w.db, name) && DueBy(UnnotifiedKeys(w.db, name)[id], w.now - 1)
    ensures Tracked(w, w, name, id, max)
  {
  }

  /** The successful batches since then have fitted into the rows that were ahead, but for the
      one that may have been under way. */
  ghost predicate WithinTurn(u: World, w: World, name: StreamName, id: nat, max: nat) {
    id in UnnotifiedKeys(u.db, name) ==>
      max * (Count(w.mail.reported, name) - Count(u.mail.reported, name))
        <= |RowsAhead(UnnotifiedKeys(u.db, name), id)| + Slack(u, name, max)
  }

  lemma TrackingBounds(u: World, w: World, name: StreamName, id: nat, max: nat)
    requires Tracked(u, w, name, id, max)
    ensures WithinTurn(u, w, name, id, max)
  {
  }

  /** Once the clock has passed a row's failure time, each successful batch of its stream that
      leaves the row unreported takes `max` of the rows ahead of it, except a batch that was
      already under way. A row with k unreported rows ahead is therefore in one of the next
      floor(k / max) + 1 successful batches after that one. */
  lemma RowsAreReportedInTurn(site: Site, early: Run, late: Run, name: StreamName, id: nat)
    requires Valid(site, late) && Unreported(early, late, name, id)
    requires id in UnnotifiedKeys(early.w.db, name) && DueBy(UnnotifiedKeys(early.w.db, name)[id], early.w.now - 1)
    ensures WithinTurn(early.w, late.w, name, id, site.settings.batchMaxItems)
  {
    TrackingStarts(early.w, name, id, site.settings.batchMaxItems);
    RunsTrackRows(site, early, late, name, id);
    TrackingBounds(early.w, late.w, name, id, site.settings.batchMaxItems);
  }
}
