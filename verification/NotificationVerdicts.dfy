/** What each notification does to the database, said of the columns and of what the sender did. */
module NotificationVerdicts {
  import opened Schema
  import opened Queries
  import opened Notifications
  import opened Selections

  /** What a call of the sender would do: answer, or raise. */
  datatype Sending = Answer(error: Option<string>) | SendRaised

  // ---------- batches ----------

  /** An escalated lead or a failed event that no message has reported. */
  predicate Unreported(db: Db, name: StreamName, id: nat) {
    match name
    case CrmFailures =>
      && id in db.leads && db.leads[id].crm.status in {FailedEscalated, UnknownEscalated}
      && db.leads[id].notice.escalationNotifiedAt.None?
    case NormalizationFailures =>
      && id in db.events && db.events[id].status == NormalizationFailed && db.events[id].notifiedAt.None?
  }

  function FailedAt(db: Db, name: StreamName, id: nat): Option<Time>
    requires Unreported(db, name, id)
  {
    if name == CrmFailures then db.leads[id].crm.failureAt else db.events[id].completedAt
  }

  predicate FailedBefore(db: Db, name: StreamName, i: nat, j: nat) {
    && Unreported(db, name, i) && Unreported(db, name, j)
    && Earlier(FailedAt(db, name, i), i, FailedAt(db, name, j), j)
  }

  /** The oldest failures still to report, in order: `max` of them, or all when there are fewer. */
  ghost predicate OldestUnreported(db: Db, name: StreamName, max: nat, ids: seq<nat>) {
    && |ids| <= max
    && (forall k | 0 <= k < |ids| :: Unreported(db, name, ids[k]))
    && (forall a, b | 0 <= a < b < |ids| :: FailedBefore(db, name, ids[a], ids[b]))
    && (forall k, j | 0 <= k < |ids| && Unreported(db, name, j) && j !in ids :: FailedBefore(db, name, ids[k], j))
    && (|ids| < max ==> forall j | Unreported(db, name, j) :: j in ids)
  }

  lemma UnnotifiedMeaning(db: Db, name: StreamName)
    ensures forall id: nat :: id in UnnotifiedKeys(db, name) <==> Unreported(db, name, id)
    ensures forall id: nat | Unreported(db, name, id) :: UnnotifiedKeys(db, name)[id] == FailedAt(db, name, id)
  {
  }

  lemma PrefixMeaning(db: Db, name: StreamName, max: nat, ids: seq<nat>)
    requires IsPrefix(UnnotifiedKeys(db, name), max, ids)
    ensures OldestUnreported(db, name, max, ids)
  {
    UnnotifiedMeaning(db, name);
  }

  /** These rows carry this mark now, and nothing else about any row has changed. */
  ghost predicate RowsMarked(db: Db, name: StreamName, ids: seq<nat>, at: Time, db': Db) {
    match name
    case CrmFailures =>
      && db'.events == db.events && db'.leads.Keys == db.leads.Keys
      && forall id | id in db.leads ::
           var l := db.leads[id];
           db'.leads[id] == if id in ids then l.(notice := l.notice.(escalationNotifiedAt := Some(at))) else l
    case NormalizationFailures =>
      && db'.leads == db.leads && db'.events.Keys == db.events.Keys
      && forall id | id in db.events ::
           db'.events[id] == if id in ids then db.events[id].(notifiedAt := Some(at)) else db.events[id]
  }

  /** What is on record of the stream after an attempt. */
  function StreamAfter(stream: Stream, rows: bool, now: Time, send: Sending): Stream {
    if !rows || send == Answer(None) then Stream(Some(now), Some(now), None)
    else if send.SendRaised? then Stream(Some(now), stream.lastSuccessAt, stream.lastError)
    else Stream(Some(now), stream.lastSuccessAt, send.error)
  }

  /** A batch in full: when the stream is due, the oldest unreported rows are mailed, marked when
      the message was accepted and left as they are when it was not; a due stream without rows
      counts as a success. */
  ghost predicate BatchVerdict(db: Db, name: StreamName, s: Settings, now: Time, send: Sending, db': Db) {
    && db' == WithStream(db, name, StreamOf(db', name)).(leads := db'.leads, events := db'.events)
    && (!StreamIsDue(StreamOf(db, name), now, s) ==> db' == db)
    && (StreamIsDue(StreamOf(db, name), now, s) ==>
         exists ids ::
           && OldestUnreported(db, name, s.batchMaxItems, ids)
           && RowsMarked(db, name, if send == Answer(None) then ids else [], now, db')
           && StreamOf(db', name) == StreamAfter(StreamOf(db, name), ids != [], now, send))
  }

  lemma NotDueVerdict(db: Db, name: StreamName, s: Settings, now: Time, send: Sending)
    requires !StreamIsDue(StreamOf(db, name), now, s)
    ensures BatchVerdict(db, name, s, now, send, db)
  {
  }

  lemma EmptyVerdict(db: Db, name: StreamName, s: Settings, now: Time, db': Db, send: Sending)
    requires StartBatch(db, name, now, s, db', Empty)
    ensures BatchVerdict(db, name, s, now, send, db')
  {
    PrefixMeaning(db, name, s.batchMaxItems, []);
    assert RowsMarked(db, name, [], now, db');
  }

  lemma SelectedVerdict(db: Db, name: StreamName, s: Settings, now: Time, db1: Db, ids: seq<nat>, send: Sending)
    requires StartBatch(db, name, now, s, db1, Selected(ids))
    ensures BatchVerdict(db, name, s, now, send,
                         if send.Answer? then FinishBatch(db1, name, ids, now, send.error) else db1)
  {
    PrefixMeaning(db, name, s.batchMaxItems, ids);
    var db' := if send.Answer? then FinishBatch(db1, name, ids, now, send.error) else db1;
    MarkMeaning(db, db1, name, ids, now);
    assert RowsMarked(db, name, if send == Answer(None) then ids else [], now, db');
  }

  lemma MarkMeaning(db: Db, db1: Db, name: StreamName, ids: seq<nat>, at: Time)
    requires forall k | 0 <= k < |ids| :: Unreported(db, name, ids[k])
    requires db1.leads == db.leads && db1.events == db.events
    ensures RowsMarked(db, name, ids, at, FinishBatch(db1, name, ids, at, None))
    ensures forall e: string :: RowsMarked(db, name, [], at, FinishBatch(db1, name, ids, at, Some(e)))
    ensures RowsMarked(db, name, [], at, db1)
  {
  }

  // ---------- the pause alert ----------

  /** A pause is in force and no message about it was accepted. */
  predicate AlertDue(p: Pause) { p.paused && p.reason.Some? && p.pausedAt.Some? && p.alertSentAt.None? }

  predicate PauseAlertVerdict(p: Pause, now: Time, send: Sending, p': Pause) {
    if AlertDue(p) && send.Answer? then
      if send.error.None? then p' == p.(alertSentAt := Some(now), alertError := None)
      else p' == p.(alertError := send.error)
    else p' == p
  }

  lemma AlertMeaning(p: Pause, now: Time, send: Sending)
    ensures StartPauseAlert(p).Capture? <==> AlertDue(p)
    ensures AlertDue(p) && send.Answer? ==>
      PauseAlertVerdict(p, now, send, FinishPauseAlert(p, StartPauseAlert(p).stamp, now, send.error).0)
  {
  }

  /** The captured pause is still the one in force, and no message about it was accepted. */
  predicate StillInForce(p: Pause, stamp: Stamp) {
    p.paused && p.reason == Some(stamp.reason) && p.pausedAt == Some(stamp.pausedAt) && p.alertSentAt.None?
  }

  /** What the second transaction of the alert does to any pause row it meets. */
  predicate AlertFinished(
      p: Pause, stamp: Stamp, at: Time, error: Option<string>, p': Pause, action: AlertAction)
  {
    && (action == StaleEpisode <==> !StillInForce(p, stamp))
    && (action == StaleEpisode ==> p' == p)
    && (action == AlertSent ==> error.None? && p' == p.(alertSentAt := Some(at), alertError := None))
    && (action == AlertFailed ==> error.Some? && p' == p.(alertError := error))
  }

  lemma FinishAlertMeaning(p: Pause, stamp: Stamp, at: Time, error: Option<string>)
    ensures AlertFinished(p, stamp, at, error, FinishPauseAlert(p, stamp, at, error).0,
                          FinishPauseAlert(p, stamp, at, error).1)
  {
  }

  // ---------- the clustered alert ----------

  /** A technical failure inside the window that no episode covers. */
  predicate Reportable(l: Lead, s: Settings, now: Time) {
    && l.crm.lastTechnicalFailureAt.Some?
    && l.crm.lastTechnicalFailureAt.value >= now - s.clusterWindow * 1_000_000
    && l.notice.clusterPendingAt.None?
    && (l.notice.clusterAlertedAt.Some? ==> l.crm.lastTechnicalFailureAt.value > l.notice.clusterAlertedAt.value)
  }

  predicate PendsAt(leads: Leads, id: nat, at: Time) {
    id in leads && leads[id].notice.clusterPendingAt == Some(at)
  }

  /** The episode to report: the oldest one open, or else a new one of every lead that is
      reportable, when these are enough. */
  ghost predicate EpisodeIs(leads: Leads, s: Settings, now: Time, at: Time, ids: set<nat>) {
    if exists id, t :: PendsAt(leads, id, t) then
      && (exists id :: PendsAt(leads, id, at)) && (forall id, t | PendsAt(leads, id, t) :: at <= t)
      && ids == set id | id in leads && PendsAt(leads, id, at)
    else
      && at == now && |ids| >= s.clusterThreshold
      && ids == set id | id in leads && Reportable(leads[id], s, now)
  }

  /** The leads of the episode, and no others, carry its time: as reported when the message was
      accepted, as pending when it was not. */
  ghost predicate EpisodeMarked(leads: Leads, at: Time, ids: set<nat>, send: Sending, leads': Leads) {
    && leads'.Keys == leads.Keys
    && forall id | id in leads ::
         var l := leads[id];
         leads'[id] == if id !in ids then l
                       else if send == Answer(None)
                       then l.(notice := l.notice.(clusterAlertedAt := Some(at), clusterPendingAt := None))
                       else l.(notice := l.notice.(clusterPendingAt := Some(at)))
  }

  /** An episode is open, or enough leads are reportable. */
  ghost predicate EpisodeDue(leads: Leads, s: Settings, now: Time) {
    exists at, ids :: EpisodeIs(leads, s, now, at, ids)
  }

  ghost predicate ClusterVerdict(leads: Leads, s: Settings, now: Time, send: Sending, leads': Leads) {
    && (!EpisodeDue(leads, s, now) ==> leads' == leads)
    && forall at, ids | EpisodeIs(leads, s, now, at, ids) :: EpisodeMarked(leads, at, ids, send, leads')
  }

  lemma QualifyingMeaning(leads: Leads, s: Settings, now: Time)
    ensures Qualifying(leads, now - Seconds(s.clusterWindow)) == set id | id in leads && Reportable(leads[id], s, now)
    ensures PendingKeys(leads) == map[] <==> !exists id, t :: PendsAt(leads, id, t)
  {
    var keys := PendingKeys(leads);
    if keys != map[] {
      var id :| id in keys;
      assert PendsAt(leads, id, leads[id].notice.clusterPendingAt.value);
    }
    if id, t :| PendsAt(leads, id, t) { assert id in keys; }
  }

  lemma OldestPending(leads: Leads, id: nat, at: Time)
    requires IsLeast(PendingKeys(leads), id) && PendingKeys(leads)[id] == Some(at)
    ensures PendsAt(leads, id, at) && forall j, t | PendsAt(leads, j, t) :: at <= t
  {
    forall j, t | PendsAt(leads, j, t) ensures at <= t { assert j in PendingKeys(leads); }
  }

  lemma PendingMeaning(leads: Leads, at: Time)
    ensures PendingAt(leads, at) == set id | id in leads && PendsAt(leads, id, at)
  {
  }

  /** A freeze while nothing is pending leaves exactly its own leads pending. */
  lemma FreshFreeze(leads: Leads, ids: set<nat>, at: Time)
    requires PendingKeys(leads) == map[] && forall id | id in ids :: id in leads
    ensures PendingAt(Freeze(leads, ids, at), at) == ids
    ensures EpisodeMarked(leads, at, ids, SendRaised, Freeze(leads, ids, at))
  {
    forall id | id in leads ensures leads[id].notice.clusterPendingAt.None? { assert id !in PendingKeys(leads); }
  }

  /** What the first transaction selects is the episode. */
  lemma EpisodeMeaning(leads: Leads, s: Settings, now: Time, leads': Leads, episode: Option<Episode>)
    requires StartCluster(leads, s, now, leads', episode)
    ensures episode.Some? <==> EpisodeDue(leads, s, now)
    ensures episode.None? ==> leads' == leads
    ensures episode.Some? ==>
      && EpisodeIs(leads, s, now, episode.value.pendingAt, episode.value.ids)
      && EpisodeMarked(leads, episode.value.pendingAt, episode.value.ids, SendRaised, leads')
      && episode.value.ids == PendingAt(leads', episode.value.pendingAt)
  {
    QualifyingMeaning(leads, s, now);
    if PendingKeys(leads) != map[] {
      var at := episode.value.pendingAt;
      PendingMeaning(leads, at);
      var id :| IsLeast(PendingKeys(leads), id) && PendingKeys(leads)[id] == Some(at);
      OldestPending(leads, id, at);
      assert EpisodeIs(leads, s, now, at, episode.value.ids);
    } else if episode.Some? {
      FreshFreeze(leads, episode.value.ids, now);
      assert EpisodeIs(leads, s, now, now, episode.value.ids);
    }
  }

  lemma EpisodeIsUnique(leads: Leads, s: Settings, now: Time, at: Time, ids: set<nat>, at': Time, ids': set<nat>)
    requires EpisodeIs(leads, s, now, at, ids) && EpisodeIs(leads, s, now, at', ids')
    ensures at == at' && ids == ids'
  {
    if exists id, t :: PendsAt(leads, id, t) {
      var i :| PendsAt(leads, i, at);
      var j :| PendsAt(leads, j, at');
    }
  }

  lemma ClusterVerdicts(
      leads: Leads, s: Settings, now: Time, leads1: Leads, episode: Option<Episode>, send: Sending)
    requires StartCluster(leads, s, now, leads1, episode)
    ensures ClusterVerdict(leads, s, now, send,
      if episode.Some? && send.Answer? then FinishCluster(leads1, episode.value, send.error.None?).0 else leads1)
  {
    EpisodeMeaning(leads, s, now, leads1, episode);
    if episode.Some? {
      var at, ids := episode.value.pendingAt, episode.value.ids;
      FinishMeaning(leads, leads1, at, ids, send);
      forall at', ids' | EpisodeIs(leads, s, now, at', ids') ensures at' == at && ids' == ids {
        EpisodeIsUnique(leads, s, now, at, ids, at', ids');
      }
    }
  }

  lemma FinishMeaning(leads: Leads, leads1: Leads, at: Time, ids: set<nat>, send: Sending)
    requires EpisodeMarked(leads, at, ids, SendRaised, leads1) && ids == PendingAt(leads1, at)
    ensures var leads' := if send.Answer? then FinishCluster(leads1, Episode(at, ids), send.error.None?).0 else leads1;
      EpisodeMarked(leads, at, ids, send, leads')
  {
    assert PendingAt(leads1, at) * ids == ids;
  }

  /** What the second transaction of the cluster alert does to any leads it meets. */
  ghost predicate ClusterFinished(
      leads: Leads, at: Time, ids: set<nat>, sent: bool, leads': Leads, action: AlertAction)
  {
    && (action == StaleEpisode <==> exists id :: id in ids && !PendsAt(leads, id, at))
    && (action == AlertSent ==> sent && EpisodeMarked(leads, at, ids, Answer(None), leads'))
    && (action == AlertFailed ==> !sent)
    && (action != AlertSent ==> leads' == leads)
  }

  lemma FinishClusterMeaning(leads: Leads, at: Time, ids: set<nat>, sent: bool)
    ensures ClusterFinished(leads, at, ids, sent, FinishCluster(leads, Episode(at, ids), sent).0,
                            FinishCluster(leads, Episode(at, ids), sent).1)
  {
    var current := PendingAt(leads, at) * ids;
    assert forall id :: id in current <==> id in ids && PendsAt(leads, id, at);
  }
}
