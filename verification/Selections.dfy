/** Which row each transaction picks, and when it picks none, said of the columns. */
module Selections {
  import opened Schema
  import opened Queries
  import opened HubSpot
  import opened CrmDelivery
  import opened Normalization
  import opened Verdicts

  /** (t, i) sorts strictly before (u, j): by time, NULL last, and then by id. */
  predicate Earlier(t: Option<Time>, i: nat, u: Option<Time>, j: nat) {
    || (t.Some? && u.None?)
    || (t.Some? && u.Some? && t.value < u.value)
    || (t == u && i < j)
  }

  lemma OrderMeaning(t: Option<Time>, i: nat, u: Option<Time>, j: nat)
    ensures Precedes(t, i, u, j) <==> Earlier(t, i, u, j) || (t == u && i == j)
  {
  }

  // ---------- the gate ----------

  predicate Sends(leads: Leads, id: nat) { id in leads && leads[id].crm.status == Sending }

  /** The claim is older than the lease; at exactly the lease it is not. */
  predicate Expired(d: Delivery, lease: int, now: Time) {
    d.lastAttemptAt.Some? && now > d.lastAttemptAt.value + lease * 1_000_000
  }

  predicate ExpiredAt(leads: Leads, lease: int, now: Time, id: nat) {
    Sends(leads, id) && Expired(leads[id].crm, lease, now)
  }

  /** Some lead is SENDING, and the lease of none has run out. */
  ghost predicate FreshSending(leads: Leads, lease: int, now: Time) {
    (exists id :: Sends(leads, id)) && !exists id :: ExpiredAt(leads, lease, now, id)
  }

  /** `id` has the oldest claim of all SENDING leads. */
  ghost predicate OldestClaim(leads: Leads, id: nat) {
    && Sends(leads, id)
    && forall j | Sends(leads, j) && j != id ::
         Earlier(leads[id].crm.lastAttemptAt, id, leads[j].crm.lastAttemptAt, j)
  }

  /** The recovered lead is UNKNOWN and due at once. */
  ghost predicate RecoveredRow(leads: Leads, id: nat, now: Time, leads': Leads)
    requires id in leads
  {
    && id in leads' && leads' == leads[id := leads[id].(crm := leads'[id].crm)]
    && var row := leads[id].crm.(status := Unknown, notFound := 0, errors := 0, nextRetryAt := None,
                                 nextReconciliationAt := Some(now));
       Noted(row, leads'[id].crm, StaleSendingUnknown, true, now)
  }

  /** The gate is clear when nothing is SENDING, blocked while the lease of every SENDING lead
      runs, and otherwise recovers the one with the oldest claim. */
  ghost predicate GateVerdict(leads: Leads, lease: int, now: Time, leads': Leads, gate: Gate) {
    && (gate.Clear? <==> !exists id :: Sends(leads, id))
    && (gate.Blocked? <==> FreshSending(leads, lease, now))
    && (gate.Recovered? <==> exists id :: ExpiredAt(leads, lease, now, id))
    && (!gate.Clear? ==> OldestClaim(leads, gate.lead))
    && (!gate.Recovered? ==> leads' == leads)
    && (gate.Recovered? ==>
         ExpiredAt(leads, lease, now, gate.lead) && RecoveredRow(leads, gate.lead, now, leads'))
  }

  lemma GateVerdicts(leads: Leads, lease: int, now: Time, leads': Leads, gate: Gate)
    requires GateTransaction(leads, lease, now, leads', gate)
    ensures GateVerdict(leads, lease, now, leads', gate)
  {
    var keys := SendingKeys(leads);
    assert forall id :: id in keys <==> Sends(leads, id);
    if !gate.Clear? {
      assert Sends(leads, gate.lead);
      forall j | Sends(leads, j)
        ensures j != gate.lead ==>
          Earlier(leads[gate.lead].crm.lastAttemptAt, gate.lead, leads[j].crm.lastAttemptAt, j)
        ensures gate.Blocked? ==> !ExpiredAt(leads, lease, now, j)
      {
        assert Precedes(keys[gate.lead], gate.lead, keys[j], j);
      }
      assert gate.Recovered? ==> ExpiredAt(leads, lease, now, gate.lead);
    }
  }

  // ---------- claims ----------

  /** PENDING, or a retry that is due. */
  predicate CanBeClaimed(leads: Leads, now: Time, id: nat) {
    && id in leads
    && var d := leads[id].crm;
       || d.status == Pending
       || (d.status == RetryPending && d.nextRetryAt.Some? && d.nextRetryAt.value <= now)
  }

  /** A retry queues by its due time, a PENDING lead by its creation. */
  function Place(leads: Leads, now: Time, id: nat): Time
    requires CanBeClaimed(leads, now, id)
  {
    var l := leads[id];
    if l.crm.status == RetryPending then l.crm.nextRetryAt.value else l.identity.createdAt
  }

  ghost predicate FirstInLine(leads: Leads, now: Time, id: nat) {
    && CanBeClaimed(leads, now, id)
    && forall j | CanBeClaimed(leads, now, j) && j != id ::
         Place(leads, now, id) < Place(leads, now, j) || (Place(leads, now, id) == Place(leads, now, j) && id < j)
  }

  lemma LineMeaning(leads: Leads, now: Time)
    ensures ClaimableKeys(leads, now) == map[] <==> forall id: nat :: !CanBeClaimed(leads, now, id)
    ensures forall id :: IsLeast(ClaimableKeys(leads, now), id) <==> FirstInLine(leads, now, id)
  {
    var keys := ClaimableKeys(leads, now);
    assert forall id :: id in keys <==> CanBeClaimed(leads, now, id);
    assert forall id | id in keys :: keys[id] == Some(Place(leads, now, id));
  }

  predicate IsDue(leads: Leads, now: Time, id: nat) {
    && id in leads && leads[id].crm.status == Unknown
    && leads[id].crm.nextReconciliationAt.Some? && leads[id].crm.nextReconciliationAt.value <= now
  }

  ghost predicate FirstDue(leads: Leads, now: Time, id: nat) {
    && IsDue(leads, now, id)
    && forall j | IsDue(leads, now, j) && j != id ::
         Earlier(leads[id].crm.nextReconciliationAt, id, leads[j].crm.nextReconciliationAt, j)
  }

  lemma DueMeaning(leads: Leads, now: Time)
    ensures DueUnknownKeys(leads, now) == map[] <==> forall id: nat :: !IsDue(leads, now, id)
    ensures forall id :: IsLeast(DueUnknownKeys(leads, now), id) <==> FirstDue(leads, now, id)
  {
    var keys := DueUnknownKeys(leads, now);
    assert forall id :: id in keys <==> IsDue(leads, now, id);
    assert forall id | id in keys :: keys[id] == leads[id].crm.nextReconciliationAt;
  }

  /** A create may be claimed: no pause, nothing SENDING and nothing due for reconciliation. */
  ghost predicate OpenForCreates(db: Db, now: Time) {
    !db.pause.paused && (forall id :: !Sends(db.leads, id)) && forall id: nat :: !IsDue(db.leads, now, id)
  }

  /** What a claim does. Through an open gate the first lead in line is claimed, and refused when
      its contact is; a closed gate, a pause, a due reconciliation or an empty line leaves nothing
      to claim. */
  ghost predicate ClaimVerdict(
      db: Db, lease: int, now: Time, db': Db, gate: Gate, result: Result<Claim, DeliveryError>)
  {
    && GateVerdict(db.leads, lease, now, if gate.Recovered? then db'.leads else db.leads, gate)
    && db' == db.(leads := db'.leads)
    && (result == Ok(NoClaim) <==>
         !OpenForCreates(db, now) || forall id: nat :: !CanBeClaimed(db.leads, now, id))
    && (result == Ok(NoClaim) && !gate.Recovered? ==> db' == db)
    && (result.Ok? && result.value.Claimed? ==> ClaimedFirst(db, now, db', result.value.lead, result.value.contact))
    && (result.Err? ==>
         && result == Err(InvalidContact) && db' == db
         && exists id :: FirstInLine(db.leads, now, id) && !ValidContact(db.leads[id].identity.contact))
  }

  ghost predicate ClaimedFirst(db: Db, now: Time, db': Db, id: nat, contact: ContactInput) {
    && FirstInLine(db.leads, now, id) && contact == db.leads[id].identity.contact && ValidContact(contact)
    && var d := db.leads[id].crm;
       var row := d.(status := Sending, writeAttempts := d.writeAttempts + 1, lastAttemptAt := Some(now),
                     nextRetryAt := None);
       db' == db.(leads := db.leads[id := db.leads[id].(crm := row)])
  }

  lemma ClaimVerdicts(db: Db, lease: int, now: Time, db': Db, gate: Gate, result: Result<Claim, DeliveryError>)
    requires ClaimTransaction(db, lease, now, db', gate, result)
    ensures ClaimVerdict(db, lease, now, db', gate, result)
  {
    GateVerdicts(db.leads, lease, now, if gate.Recovered? then db'.leads else db.leads, gate);
    LineMeaning(db.leads, now);
    DueMeaning(db.leads, now);
  }

  /** The read goes to the due lead that has waited longest, unless the gate is blocked or CRM
      work is paused. */
  ghost predicate PrepareVerdict(db: Db, lease: int, now: Time, db': Db, gate: Gate, candidate: Option<nat>) {
    && GateVerdict(db.leads, lease, now, db'.leads, gate)
    && db' == db.(leads := db'.leads)
    && (candidate.None? <==>
         gate.Blocked? || db.pause.paused || forall id: nat :: !IsDue(db'.leads, now, id))
    && (candidate.Some? ==> FirstDue(db'.leads, now, candidate.value))
  }

  lemma PrepareVerdicts(db: Db, lease: int, now: Time, db': Db, gate: Gate, candidate: Option<nat>)
    requires PrepareTransaction(db, lease, now, db', gate, candidate)
    ensures PrepareVerdict(db, lease, now, db', gate, candidate)
  {
    GateVerdicts(db.leads, lease, now, db'.leads, gate);
    DueMeaning(db'.leads, now);
  }

  // ---------- events ----------

  predicate IsReceived(db: Db, e: nat) { e in db.events && db.events[e].status == Received }

  ghost predicate OldestReceived(db: Db, e: nat) {
    && IsReceived(db, e)
    && forall f | IsReceived(db, f) && f != e ::
         db.events[e].receivedAt < db.events[f].receivedAt
         || (db.events[e].receivedAt == db.events[f].receivedAt && e < f)
  }

  /** The RECEIVED event that came first is claimed, with its stored columns. */
  ghost predicate EventClaimVerdict(db: Db, now: Time, db': Db, claimed: Option<StoredEvent>) {
    && (claimed.None? <==> forall e: nat :: !IsReceived(db, e))
    && (claimed.None? ==> db' == db)
    && (claimed.Some? ==>
         var e := claimed.value.id;
         && OldestReceived(db, e)
         && var event := db.events[e];
         && claimed.value.source == event.source && claimed.value.eventId == event.eventId
         && claimed.value.payload == event.payload
         && db' == db.(events := db.events[e :=
              event.(status := Processing, processingStartedAt := Some(now), completedAt := None)]))
  }

  lemma EventClaimVerdicts(db: Db, now: Time, db': Db, claimed: Option<StoredEvent>)
    requires ClaimEventTransaction(db, now, db', claimed)
    ensures EventClaimVerdict(db, now, db', claimed)
  {
    var keys := ReceivedKeys(db);
    assert forall e :: e in keys <==> IsReceived(db, e);
    assert forall e | e in keys :: keys[e] == Some(db.events[e].receivedAt);
  }

  /** In PROCESSING for longer than the lease; at exactly the lease it is not stuck. */
  predicate IsStuck(db: Db, lease: int, now: Time, e: nat) {
    && e in db.events && db.events[e].status == Processing
    && db.events[e].processingStartedAt.Some?
    && now > db.events[e].processingStartedAt.value + lease * 1_000_000
  }

  ghost predicate LongestStuck(db: Db, lease: int, now: Time, e: nat) {
    && IsStuck(db, lease, now, e)
    && forall f | IsStuck(db, lease, now, f) && f != e ::
         Earlier(db.events[e].processingStartedAt, e, db.events[f].processingStartedAt, f)
  }

  /** The event that has been stuck longest becomes RECEIVED again, or NORMALIZED when it has a
      lead. */
  ghost predicate RecoveryVerdict(db: Db, lease: int, now: Time, db': Db, recovery: Recovery) {
    && (recovery.NoRecovery? <==> forall e: nat :: !IsStuck(db, lease, now, e))
    && (recovery.NoRecovery? ==> db' == db)
    && (!recovery.NoRecovery? ==>
         && LongestStuck(db, lease, now, recovery.event)
         && (recovery.RepairedNormalized? <==>
              exists id :: id in db.leads && db.leads[id].identity.webhookEventId == recovery.event)
         && var event := db.events[recovery.event];
            var event' := if recovery.ResetToReceived?
              then event.(status := Received, processingStartedAt := None, completedAt := None)
              else event.(status := Normalized, normalizedAt := Some(now), completedAt := Some(now), fault := None);
            db' == db.(events := db.events[recovery.event := event']))
  }

  lemma RecoveryVerdicts(db: Db, lease: int, now: Time, db': Db, recovery: Recovery)
    requires RecoverEventTransaction(db, lease, now, db', recovery)
    ensures RecoveryVerdict(db, lease, now, db', recovery)
  {
    var keys := StaleKeys(db, lease, now);
    assert forall e :: e in keys <==> IsStuck(db, lease, now, e);
    assert forall e | e in keys :: keys[e] == db.events[e].processingStartedAt;
    if !recovery.NoRecovery? { LeadMeaning(db.leads, recovery.event); }
  }

  lemma LeadMeaning(leads: Leads, event: nat)
    ensures HasLead(leads, event) <==> exists id :: id in leads && leads[id].identity.webhookEventId == event
  {
    if id: nat :| id in leads && leads[id].identity.webhookEventId == event { assert IsLeadOf(leads, id, event); }
  }
}
