/** The database as an object whose methods are the transactions. Every SELECT with an
    ORDER BY is a scan over the rows in arbitrary order. */
module Store {
  import opened Schema
  import opened Queries
  import opened HubSpot
  import opened CrmDelivery
  import opened Normalization
  import opened Notifications
  import opened NotificationVerdicts
  import opened Reference
  import opened Selections

  class Database {
    var events: map<nat, Event>
    var leads: Leads
    var pause: Pause
    var crmStream: Stream
    var normalizationStream: Stream
    var nextEventId: nat
    var nextLeadId: nat

    function Db(): (db: Schema.Db)
      reads this
    {
      Schema.Db(events, leads, pause, crmStream, normalizationStream, nextEventId, nextLeadId)
    }

    constructor ()
      ensures Db() == EMPTY_DB
    {
      events, leads, pause := map[], map[], UNPAUSED;
      crmStream, normalizationStream := EMPTY_STREAM, EMPTY_STREAM;
      nextEventId, nextLeadId := 1, 1;
    }

    // ---------- intake ----------

    method PersistWebhookEvent(
        source: string, eventId: string, payload: RawPayload, now: Time) returns (outcome: Persisted)
      modifies this
      ensures PersistTransaction(old(Db()), source, eventId, payload, now, Db(), outcome)
    {
      var duplicate := exists e | e in events :: events[e].source == source && events[e].eventId == eventId;
      outcome := PersistOutcome(EventChecks(source, eventId), duplicate);
      if outcome.Inserted? {
        events := events[nextEventId := NewEvent(source, eventId, payload, now)];
      }
      nextEventId := nextEventId + 1;
    }

    method ClaimOneReceived(now: Time) returns (claimed: Option<StoredEvent>)
      modifies this
      ensures ClaimEventTransaction(old(Db()), now, Db(), claimed)
    {
      var first := SelectLeast(ReceivedKeys(Db()));
      if first.None? { return None; }
      var e := first.value;
      claimed := Some(StoredFrom(Db(), e));
      events := events[e := events[e].(status := Processing, processingStartedAt := Some(now), completedAt := None)];
    }

    method RecoverOneStaleProcessing(lease: int, now: Time) returns (recovery: Recovery)
      modifies this
      ensures RecoverEventTransaction(old(Db()), lease, now, Db(), recovery)
    {
      var first := SelectLeast(StaleKeys(Db(), lease, now));
      if first.None? { return NoRecovery; }
      var e := first.value;
      var existing := FindLead(e);
      if existing.None? {
        events := events[e := events[e].(status := Received, processingStartedAt := None, completedAt := None)];
        recovery := ResetToReceived(e);
      } else {
        assert IsLeadOf(leads, existing.value, e);
        events := events[e := MarkNormalized(events[e], now)];
        recovery := RepairedNormalized(e);
      }
    }

    /** The lead of an event, looked up by its foreign key. */
    method FindLead(event: nat) returns (lead: Option<nat>)
      ensures lead.Some? ==> IsLeadOf(leads, lead.value, event)
      ensures lead.None? ==> !HasLead(leads, event)
    {
      lead := None;
      var rest := leads.Keys;
      while rest != {}
        invariant rest <= leads.Keys
        invariant forall id | id in leads.Keys - rest :: leads[id].identity.webhookEventId != event
        decreases rest
      {
        var id: nat :| id in rest;
        rest := rest - {id};
        if leads[id].identity.webhookEventId == event { return Some(id); }
      }
    }

    method NormalizeWebhookEvent(stored: StoredEvent, lib: Library, now: Time)
      returns (result: Result<NormalizationOutcome, NormalizationError>)
      modifies this
      ensures NormalizeTransaction(old(Db()), stored, lib, now, Db(), result)
    {
      var verdict := NormalizePayload(stored.source, stored.eventId, stored.payload, lib);
      if verdict.Raised? { return Err(PayloadRaised); }
      if stored.id !in events { return Err(EventMissing); }
      var event := events[stored.id];
      if event.source != stored.source || event.eventId != stored.eventId { return Err(EventIdentityChanged); }
      var existing := FindLead(stored.id);
      if existing.Some? {
        assert HasLead(leads, stored.id);
        if event.status == Processing {
          events := events[stored.id := MarkNormalized(event, now)];
          return Ok(AlreadyNormalized(existing.value, true));
        } else if event.status != Normalized {
          return Err(StatusConflict);
        }
        return Ok(AlreadyNormalized(existing.value, false));
      }
      if event.status == NormalizationFailed { return Ok(AlreadyFailed); }
      if event.status != Processing { return Err(NotProcessing); }
      if verdict.Rejected? {
        events := events[stored.id :=
          event.(status := NormalizationFailed, completedAt := Some(now), fault := Some(verdict.fault))];
        return Ok(NewFailure(verdict.fault));
      }
      if nextLeadId > MAX_BIGINT { return Err(SequenceExhausted); }
      var id := nextLeadId;
      nextLeadId := nextLeadId + 1;
      var clash := id in leads || exists other | other in leads ::
        leads[other].identity.contact.integrationReference == ReferenceFor(id);
      if clash { return Err(UniqueViolation); }
      leads := leads[id := NewLeadRow(stored.id, verdict.data, id, now)];
      events := events[stored.id := MarkNormalized(event, now)];
      return Ok(NewLead(id));
    }

    // ---------- CRM delivery ----------

    method CheckOrRecoverSending(lease: int, now: Time) returns (gate: Gate)
      modifies this`leads
      ensures GateTransaction(old(leads), lease, now, leads, gate)
      ensures GateVerdict(old(leads), lease, now, leads, gate)
    {
      gate := Clear;
      var first := SelectLeast(SendingKeys(leads));
      if first.Some? {
        var id := first.value;
        if StaleSending(leads[id].crm, lease, now) {
          leads := leads[id := leads[id].(crm := Recover(leads[id].crm, now))];
          gate := Recovered(id);
        } else {
          gate := Blocked(id);
        }
      }
      GateVerdicts(old(leads), lease, now, leads, gate);
    }

    method ClaimOneCrmCreate(lease: int, now: Time) returns (ghost gate: Gate, result: Result<Claim, DeliveryError>)
      modifies this`leads
      ensures ClaimTransaction(old(Db()), lease, now, Db(), gate, result)
    {
      var g := CheckOrRecoverSending(lease, now);
      gate := g;
      if g != Clear { return gate, Ok(NoClaim); }
      if pause.paused { return gate, Ok(NoClaim); }
      if DueUnknownKeys(leads, now) != map[] { return gate, Ok(NoClaim); }
      var first := SelectLeast(ClaimableKeys(leads, now));
      if first.None? { return gate, Ok(NoClaim); }
      var id := first.value;
      var before := leads;
      leads := leads[id := leads[id].(crm := StartSending(leads[id].crm, now))];
      var contact := before[id].identity.contact;
      if !ValidContact(contact) {
        leads := before;
        return gate, Err(InvalidContact);
      }
      return gate, Ok(Claimed(id, contact));
    }

    method PrepareUnknownReconciliation(lease: int, now: Time) returns (gate: Gate, candidate: Option<nat>)
      modifies this`leads
      ensures PrepareTransaction(old(Db()), lease, now, Db(), gate, candidate)
    {
      gate := CheckOrRecoverSending(lease, now);
      if gate.Blocked? { return gate, None; }
      if pause.paused { return gate, None; }
      candidate := SelectLeast(DueUnknownKeys(leads, now));
    }

    /** `_activate_pause`. */
    method ActivatePauseRow(reason: PauseReason, now: Time)
      modifies this`pause
      ensures pause == ActivatePause(old(pause), Some(reason), now)
    {
      if pause.paused { return; }
      pause := Pause(true, Some(reason), Some(now), None, None);
    }

    /** Writes an applied row, and the pause it asks for, in the caller's transaction. */
    method Write(id: nat, a: Applied, now: Time)
      requires id in leads
      modifies this`leads, this`pause
      ensures Db() == Commit(old(Db()), id, a, now)
    {
      if a.pause.Some? { ActivatePauseRow(a.pause.value, now); }
      leads := leads[id := leads[id].(crm := a.row)];
    }

    method ApplyCreateResult(id: nat, result: CreateResult, s: Settings, httpDate: DateReader, now: Time)
      returns (action: Result<Action, DeliveryError>)
      modifies this`leads, this`pause
      ensures match CreateResultTransaction(old(Db()), id, result, s, httpDate, now)
              case Ok((db, a)) => Db() == db && action == Ok(a)
              case Err(e) => Db() == old(Db()) && action == Err(e)
    {
      if !HasStatus(Db(), id, Sending) { return Err(NotSending); }
      match ApplyCreate(leads[id].crm, result, s, httpDate, now)
      case Err(e) => return Err(e);
      case Ok(a) =>
        Write(id, a, now);
        return Ok(a.action);
    }

    method ApplyDeferredDecision(id: nat, decision: Decision, now: Time) returns (action: Result<Action, DeliveryError>)
      modifies this`leads, this`pause
      ensures match DecisionTransaction(old(Db()), id, decision, now)
              case Ok((db, a)) => Db() == db && action == Ok(a)
              case Err(e) => Db() == old(Db()) && action == Err(e)
    {
      if !HasStatus(Db(), id, Sending) { return Err(NotSending); }
      var a := ApplyDecision(leads[id].crm, decision, now);
      Write(id, a, now);
      return Ok(a.action);
    }

    method ApplyReconciliationResult(
        id: nat, read: ReadResult, s: Settings, httpDate: DateReader, now: Time)
      returns (action: Result<Action, DeliveryError>)
      modifies this`leads, this`pause
      ensures match EvidenceTransaction(old(Db()), id, read, s, httpDate, now)
              case Ok((db, a)) => Db() == db && action == Ok(a)
              case Err(e) => Db() == old(Db()) && action == Err(e)
    {
      if !HasStatus(Db(), id, Unknown) { return Err(NotUnknown); }
      match ApplyEvidence(leads[id].crm, leads[id].identity.contact, read, s, httpDate, now)
      case Err(e) => return Err(e);
      case Ok(a) =>
        Write(id, a, now);
        return Ok(a.action);
    }

    /** The operator command. */
    method ClearCrmPause() returns (wasPaused: bool, previous: Option<PauseReason>)
      modifies this`pause
      ensures pause == ClearPause(old(pause))
      ensures pause == if old(pause.paused) then Pause(false, None, None, None, None) else old(pause)
      ensures wasPaused == old(pause.paused) && previous == if wasPaused then old(pause.reason) else None
    {
      if !pause.paused { return false, None; }
      wasPaused, previous := true, pause.reason;
      pause := UNPAUSED;
    }

    // ---------- notifications ----------

    method SetStream(name: StreamName, stream: Stream)
      modifies this`crmStream, this`normalizationStream
      ensures Db() == WithStream(old(Db()), name, stream)
    {
      if name == CrmFailures { crmStream := stream; } else { normalizationStream := stream; }
    }

    method StartFailureBatch(name: StreamName, now: Time, s: Settings) returns (start: BatchStart)
      requires ValidSettings(s)
      modifies this
      ensures StartBatch(old(Db()), name, now, s, Db(), start)
    {
      var stream := StreamOf(Db(), name);
      if !StreamIsDue(stream, now, s) { return NotDue; }
      var ids := SelectPrefix(UnnotifiedKeys(Db(), name), s.batchMaxItems);
      if ids == [] {
        SetStream(name, Stream(Some(now), Some(now), None));
        return Empty;
      }
      SetStream(name, stream.(lastAttemptAt := Some(now)));
      return Selected(ids);
    }

    method FinishFailureBatch(name: StreamName, ids: seq<nat>, at: Time, error: Option<string>)
      modifies this
      ensures Db() == FinishBatch(old(Db()), name, ids, at, error)
    {
      if error.None? {
        var marked := MarkNotified(Db(), name, ids, at);
        leads, events := marked.leads, marked.events;
        SetStream(name, Stream(Some(at), Some(at), None));
      } else {
        SetStream(name, StreamOf(Db(), name).(lastAttemptAt := Some(at), lastError := error));
      }
    }

    method FinishCrmPauseAlert(stamp: Stamp, at: Time, error: Option<string>) returns (action: AlertAction)
      modifies this`pause
      ensures (pause, action) == FinishPauseAlert(old(pause), stamp, at, error)
      ensures AlertFinished(old(pause), stamp, at, error, pause, action)
    {
      if !SameEpisode(pause, stamp) { return StaleEpisode; }
      if error.None? {
        pause := pause.(alertSentAt := Some(at), alertError := None);
        return AlertSent;
      }
      pause := pause.(alertError := error);
      return AlertFailed;
    }

    method StartClusterAlert(s: Settings, now: Time) returns (episode: Option<Episode>)
      modifies this`leads
      ensures StartCluster(old(leads), s, now, leads, episode)
    {
      var oldest := SelectLeast(PendingKeys(leads));
      if oldest.Some? {
        var at := leads[oldest.value].notice.clusterPendingAt.value;
        assert PendingKeys(leads)[oldest.value] == Some(at);
        return Some(Episode(at, PendingAt(leads, at)));
      }
      var ids := Qualifying(leads, now - Seconds(s.clusterWindow));
      if |ids| < s.clusterThreshold { return None; }
      leads := Freeze(leads, ids, now);
      return Some(Episode(now, ids));
    }

    method FinishClusterAlert(episode: Episode, sent: bool) returns (action: AlertAction)
      modifies this`leads
      ensures (leads, action) == FinishCluster(old(leads), episode, sent)
      ensures ClusterFinished(old(leads), episode.pendingAt, episode.ids, sent, leads, action)
    {
      FinishClusterMeaning(leads, episode.pendingAt, episode.ids, sent);
      var current := PendingAt(leads, episode.pendingAt) * episode.ids;
      if current != episode.ids { return StaleEpisode; }
      if !sent { return AlertFailed; }
      leads := map id | id in leads ::
        if id in episode.ids && leads[id].notice.clusterPendingAt == Some(episode.pendingAt)
        then CloseLead(leads[id], episode.pendingAt) else leads[id];
      return AlertSent;
    }
  }
}
