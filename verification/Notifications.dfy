/** The durable notification machines. Each one selects and freezes its work in a first
    transaction, sends one message, and marks what was sent in a second transaction. */
module Notifications {
  import opened Schema
  import opened Queries

  // ---------- batch streams ----------

  function StreamOf(db: Db, name: StreamName): Stream {
    if name == CrmFailures then db.crmStream else db.normalizationStream
  }

  function WithStream(db: Db, name: StreamName, stream: Stream): Db {
    if name == CrmFailures then db.(crmStream := stream) else db.(normalizationStream := stream)
  }

  predicate IsUnnotifiedLead(l: Lead) {
    Escalated(l.crm.status) && l.notice.escalationNotifiedAt.None?
  }

  predicate IsUnnotifiedEvent(e: Event) { e.status == NormalizationFailed && e.notifiedAt.None? }

  /** The rows a stream still has to report, by the time each one failed. */
  function UnnotifiedKeys(db: Db, name: StreamName): Keys {
    if name == CrmFailures then
      map id | id in db.leads && IsUnnotifiedLead(db.leads[id]) :: db.leads[id].crm.failureAt
    else
      map e | e in db.events && IsUnnotifiedEvent(db.events[e]) :: db.events[e].completedAt
  }

  /** `_stream_is_due`. */
  predicate StreamIsDue(stream: Stream, now: Time, s: Settings) {
    if stream.lastAttemptAt.None? then true
    else
      var incomplete := stream.lastSuccessAt.None? || stream.lastAttemptAt.value > stream.lastSuccessAt.value;
      if stream.lastError.Some? || incomplete then
        now >= stream.lastAttemptAt.value + Seconds(s.failureRetry)
      else
        now >= stream.lastSuccessAt.value + Seconds(s.batchInterval)
  }

  datatype BatchStart = NotDue | Empty | Selected(ids: seq<nat>)

  /** The first transaction of a batch: an empty one counts as a success, and a selection
      records the attempt before any mail is sent. */
  ghost predicate StartBatch(db: Db, name: StreamName, now: Time, s: Settings, db': Db, start: BatchStart) {
    var stream := StreamOf(db, name);
    match start
    case NotDue => !StreamIsDue(stream, now, s) && db' == db
    case Empty =>
      && StreamIsDue(stream, now, s) && IsPrefix(UnnotifiedKeys(db, name), s.batchMaxItems, [])
      && db' == WithStream(db, name, Stream(Some(now), Some(now), None))
    case Selected(ids) =>
      && StreamIsDue(stream, now, s) && ids != []
      && IsPrefix(UnnotifiedKeys(db, name), s.batchMaxItems, ids)
      && db' == WithStream(db, name, stream.(lastAttemptAt := Some(now)))
  }

  function NotifyLead(l: Lead, at: Time): Lead { l.(notice := l.notice.(escalationNotifiedAt := Some(at))) }

  function NotifyEvent(e: Event, at: Time): Event { e.(notifiedAt := Some(at)) }

  function MarkNotified(db: Db, name: StreamName, ids: seq<nat>, at: Time): Db {
    if name == CrmFailures then
      db.(leads := map id | id in db.leads ::
        if id in ids && IsUnnotifiedLead(db.leads[id]) then NotifyLead(db.leads[id], at) else db.leads[id])
    else
      db.(events := map e | e in db.events ::
        if e in ids && IsUnnotifiedEvent(db.events[e]) then NotifyEvent(db.events[e], at) else db.events[e])
  }

  /** The second transaction of a batch; `error` is None when SMTP accepted the message. */
  function FinishBatch(db: Db, name: StreamName, ids: seq<nat>, at: Time, error: Option<string>): Db {
    if error.None? then
      WithStream(MarkNotified(db, name, ids, at), name, Stream(Some(at), Some(at), None))
    else
      WithStream(db, name, StreamOf(db, name).(lastAttemptAt := Some(at), lastError := error))
  }

  // ---------- pause alert ----------

  /** The pause episode an alert was captured for. */
  datatype Stamp = Stamp(reason: PauseReason, pausedAt: Time)

  datatype AlertStart = NoAlert | Capture(stamp: Stamp) | Inconsistent

  function StartPauseAlert(p: Pause): AlertStart {
    if !p.paused || p.alertSentAt.Some? then NoAlert
    else if p.reason.None? || p.pausedAt.None? then Inconsistent
    else Capture(Stamp(p.reason.value, p.pausedAt.value))
  }

  datatype AlertAction = AlertSent | AlertFailed | StaleEpisode

  predicate SameEpisode(p: Pause, stamp: Stamp) {
    p.paused && p.reason == Some(stamp.reason) && p.pausedAt == Some(stamp.pausedAt) && p.alertSentAt.None?
  }

  function FinishPauseAlert(p: Pause, stamp: Stamp, at: Time, error: Option<string>): (Pause, AlertAction) {
    if !SameEpisode(p, stamp) then (p, StaleEpisode)
    else if error.None? then (p.(alertSentAt := Some(at), alertError := None), AlertSent)
    else (p.(alertError := error), AlertFailed)
  }

  // ---------- clustered technical alert ----------

  /** A frozen episode: its freeze time and the leads it reports. */
  datatype Episode = Episode(pendingAt: Time, ids: set<nat>)

  function PendingKeys(leads: Leads): Keys {
    map id | id in leads && leads[id].notice.clusterPendingAt.Some? :: leads[id].notice.clusterPendingAt
  }

  function PendingAt(leads: Leads, at: Time): set<nat> {
    set id | id in leads && leads[id].notice.clusterPendingAt == Some(at)
  }

  /** A technical failure no episode has covered yet. */
  predicate Uncovered(l: Lead) {
    && l.crm.lastTechnicalFailureAt.Some?
    && l.notice.clusterPendingAt.None?
    && (l.notice.clusterAlertedAt.None? || l.crm.lastTechnicalFailureAt.value > l.notice.clusterAlertedAt.value)
  }

  function Qualifying(leads: Leads, cutoff: Time): set<nat> {
    set id | id in leads && Uncovered(leads[id]) && leads[id].crm.lastTechnicalFailureAt.value >= cutoff
  }

  function Freeze(leads: Leads, ids: set<nat>, at: Time): Leads {
    map id | id in leads ::
      if id in ids && leads[id].notice.clusterPendingAt.None?
      then leads[id].(notice := leads[id].notice.(clusterPendingAt := Some(at)))
      else leads[id]
  }

  /** `_prepare_cluster_episode`: an open episode is retried as it was frozen; otherwise a new
      one is frozen when enough leads qualify. */
  ghost predicate StartCluster(leads: Leads, s: Settings, now: Time, leads': Leads, episode: Option<Episode>) {
    if PendingKeys(leads) != map[] then
      && leads' == leads
      && episode.Some?
      && episode.value.ids == PendingAt(leads, episode.value.pendingAt)
      && exists id :: IsLeast(PendingKeys(leads), id) && PendingKeys(leads)[id] == Some(episode.value.pendingAt)
    else
      var ids := Qualifying(leads, now - Seconds(s.clusterWindow));
      if |ids| < s.clusterThreshold then leads' == leads && episode == None
      else leads' == Freeze(leads, ids, now) && episode == Some(Episode(now, ids))
  }

  function CloseLead(l: Lead, at: Time): Lead {
    l.(notice := l.notice.(clusterAlertedAt := Some(at), clusterPendingAt := None))
  }

  function FinishCluster(leads: Leads, episode: Episode, sent: bool): (Leads, AlertAction) {
    var current := PendingAt(leads, episode.pendingAt) * episode.ids;
    if current != episode.ids then (leads, StaleEpisode)
    else if sent then
      (map id | id in leads ::
        if id in episode.ids && leads[id].notice.clusterPendingAt == Some(episode.pendingAt)
        then CloseLead(leads[id], episode.pendingAt) else leads[id],
       AlertSent)
    else (leads, AlertFailed)
  }
}
