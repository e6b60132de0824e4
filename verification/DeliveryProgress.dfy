/** How much the delivery protocol can do: a measure that every committed transition decreases,
    and exact attempt accounting. */
module DeliveryProgress {
  import opened Schema
  import opened HubSpot
  import opened CrmDelivery
  import opened System
  import opened DeliverySafety

  // ---------- sums over rows ----------

  ghost function Sum(ids: set<nat>, f: nat -> int): int {
    if ids == {} then 0 else var id :| id in ids; f(id) + Sum(ids - {id}, f)
  }

  lemma {:induction false} SumSplit(ids: set<nat>, f: nat -> int, id: nat)
    requires id in ids
    ensures Sum(ids, f) == f(id) + Sum(ids - {id}, f)
    decreases ids
  {
    var k :| k in ids && Sum(ids, f) == f(k) + Sum(ids - {k}, f);
    if k != id {
      SumSplit(ids - {k}, f, id);
      SumSplit(ids - {id}, f, k);
      assert ids - {k} - {id} == ids - {id} - {k};
    }
  }

  lemma {:induction false} SumAgree(ids: set<nat>, f: nat -> int, g: nat -> int)
    requires forall id | id in ids :: f(id) == g(id)
    ensures Sum(ids, f) == Sum(ids, g)
    decreases ids
  {
    if ids != {} {
      var id :| id in ids;
      SumSplit(ids, f, id);
      SumSplit(ids, g, id);
      SumAgree(ids - {id}, f, g);
    }
  }

  /** Changing the summand at one row changes the sum by the difference. */
  lemma SumChange(ids: set<nat>, f: nat -> int, g: nat -> int, id: nat)
    requires id in ids && forall j | j in ids && j != id :: f(j) == g(j)
    ensures Sum(ids, g) == Sum(ids, f) - f(id) + g(id)
  {
    SumSplit(ids, f, id);
    SumSplit(ids, g, id);
    SumAgree(ids - {id}, f, g);
  }

  lemma SumInsert(ids: set<nat>, f: nat -> int, g: nat -> int, id: nat)
    requires id !in ids && forall j | j in ids :: f(j) == g(j)
    ensures Sum(ids + {id}, g) == Sum(ids, f) + g(id)
  {
    SumSplit(ids + {id}, g, id);
    assert ids + {id} - {id} == ids;
    SumAgree(ids, f, g);
  }

  lemma {:induction false} SumBound(ids: set<nat>, f: nat -> int, g: nat -> int)
    requires forall id | id in ids :: f(id) <= 4 + g(id)
    ensures Sum(ids, f) <= 4 * |ids| + Sum(ids, g)
    decreases ids
  {
    if ids != {} {
      var id :| id in ids;
      SumSplit(ids, f, id);
      SumSplit(ids, g, id);
      SumBound(ids - {id}, f, g);
      assert |ids - {id}| == |ids| - 1;
    }
  }

  function AttemptsAt(leads: Leads): nat -> int { (id: nat) => if id in leads then leads[id].crm.writeAttempts else 0 }

  function ReturnsAt(log: CrmLog): nat -> int { (id: nat) => LedgerOf(log, id).returned }

  function RankAt(leads: Leads): nat -> int { (id: nat) => if id in leads then Rank(leads[id].crm) else 0 }

  /** How many transitions a row can still make, pause returns apart. */
  function Rank(d: Delivery): int {
    match d.status
    case Pending => 11 + 2 * (3 - d.retries)
    case RetryPending => 11 + 2 * (3 - d.retries)
    case Sending => 10 + 2 * (3 - d.retries)
    case Unknown => Patience(d)
    case _ => 0
  }

  /** Two units while unpaused: one pays for the activation, one for the row it returns. */
  function Credit(pause: Pause): int { if pause.paused then 0 else 2 }

  // ---------- what a CRM step does ----------

  /** No row and no counter moved. */
  ghost predicate Still(w: World, w': World) {
    && w'.db.leads == w.db.leads && w'.db.pause.paused == w.db.pause.paused
    && w'.crm == w.crm.(faults := w'.crm.faults)
  }

  /** One row moved, in one committed transition, and the measure fell. */
  ghost predicate Moved(w: World, id: nat, w': World) {
    && id in w.db.leads && id in w'.db.leads
    && w'.db.leads == WithRow(w.db.leads, id, w'.db.leads[id].crm)
    && w'.crm.commits == w.crm.commits + 1 && w'.crm.clears == w.crm.clears
    && (w'.crm.ledgers == w.crm.ledgers || w'.crm.ledgers == w.crm.ledgers[id := LedgerOf(w'.crm, id)])
    && w'.crm.pauseReturns - w.crm.pauseReturns == LedgerOf(w'.crm, id).returned - LedgerOf(w.crm, id).returned
    && w'.crm.claims - w.crm.claims == w'.db.leads[id].crm.writeAttempts - w.db.leads[id].crm.writeAttempts
    && Rank(w'.db.leads[id].crm) + Credit(w'.db.pause) < Rank(w.db.leads[id].crm) + Credit(w.db.pause)
  }

  /** The row a CRM step writes, when it writes one. */
  function Mover(w: World, step: CrmStep): nat {
    match step
    case Prepare(gate, _) => if gate.Recovered? then gate.lead else 0
    case TryClaim(gate, result) =>
      if gate.Recovered? then gate.lead
      else if result.Ok? && result.value.Claimed? then result.value.lead else 0
    case _ => if w.phase.Idle? then 0 else w.phase.lead
  }

  lemma RecoveryMoves(leads: Leads, log: CrmLog, lease: int, now: Time, leads': Leads, gate: Gate)
    requires RowsOk(leads, log) && GateTransaction(leads, lease, now, leads', gate) && gate.Recovered?
    ensures gate.lead in leads && Rank(leads'[gate.lead].crm) < Rank(leads[gate.lead].crm)
    ensures leads' == WithRow(leads, gate.lead, leads'[gate.lead].crm)
    ensures leads'[gate.lead].crm.writeAttempts == leads[gate.lead].crm.writeAttempts
  {
    assert gate.lead in SendingKeys(leads);
    assert RowOk(leads[gate.lead].crm, LedgerOf(log, gate.lead));
  }

  lemma CommitMoves(w: World, id: nat, a: Applied, w': World)
    requires id in w.db.leads && !w.db.pause.paused
    requires CommitStep(w, id, Ok((Commit(w.db, id, a, w.now), a.action)), w')
    requires a.row.writeAttempts == w.db.leads[id].crm.writeAttempts
    requires Rank(a.row) < Rank(w.db.leads[id].crm) + (if a.pause.Some? then 2 else 0)
    ensures Moved(w, id, w')
  {
  }

  lemma PrepareMoves(site: Site, w: World, gate: Gate, candidate: Option<nat>, w': World)
    requires RowsOk(w.db.leads, w.crm) && CrmNext(site, w, Prepare(gate, candidate), w')
    ensures Still(w, w') || Moved(w, gate.lead, w')
  {
    if gate.Recovered? {
      RecoveryMoves(w.db.leads, w.crm, site.settings.leaseSeconds, w.now, w'.db.leads, gate);
    }
  }

  lemma ClaimMoves(w: World, id: nat, contact: ContactInput, lease: int, w': World)
    requires ClaimTransaction(w.db, lease, w.now, w'.db, Clear, Ok(Claimed(id, contact)))
    requires w'.crm == w.crm.(claims := w.crm.claims + 1, commits := w.crm.commits + 1)
    ensures Moved(w, id, w')
  {
    assert id in ClaimableKeys(w.db.leads, w.now);
    assert Waiting(w.db.leads[id].crm.status);
  }

  lemma TryClaimMoves(site: Site, w: World, gate: Gate, result: Result<Claim, DeliveryError>, w': World)
    requires RowsOk(w.db.leads, w.crm) && CrmNext(site, w, TryClaim(gate, result), w')
    ensures Still(w, w') || Moved(w, Mover(w, TryClaim(gate, result)), w')
  {
    if gate.Recovered? {
      RecoveryMoves(w.db.leads, w.crm, site.settings.leaseSeconds, w.now, w'.db.leads, gate);
    } else if result.Ok? && result.value.Claimed? {
      ClaimMoves(w, result.value.lead, result.value.contact, site.settings.leaseSeconds, w');
    }
  }

  lemma CreateRankFalls(
      d: Delivery, g: Ledger, result: CreateResult, s: Settings, httpDate: DateReader, now: Time)
    requires RowOk(d, g) && d.status == Sending && ApplyCreate(d, result, s, httpDate, now).Ok?
    ensures var a := ApplyCreate(d, result, s, httpDate, now).value;
      && a.row.writeAttempts == d.writeAttempts
      && Rank(a.row) < Rank(d) + (if a.pause.Some? then 2 else 0)
  {
  }

  lemma DecisionRankFalls(d: Delivery, g: Ledger, decision: Decision, now: Time)
    requires RowOk(d, g) && d.status == Sending
    ensures var a := ApplyDecision(d, decision, now);
      && a.row.writeAttempts == d.writeAttempts
      && Rank(a.row) < Rank(d) + (if a.pause.Some? then 2 else 0)
  {
  }

  lemma EvidenceRankFalls(
      d: Delivery, g: Ledger, contact: ContactInput, read: ReadResult, s: Settings, httpDate: DateReader,
      now: Time)
    requires RowOk(d, g) && d.status == Unknown && ApplyEvidence(d, contact, read, s, httpDate, now).Ok?
    ensures var a := ApplyEvidence(d, contact, read, s, httpDate, now).value;
      && a.row.writeAttempts == d.writeAttempts
      && Rank(a.row) < Rank(d) + (if a.pause.Some? then 2 else 0)
  {
  }

  lemma ResultMoves(site: Site, w: World, step: CrmStep, w': World)
    requires Safe(w) && CrmNext(site, w, step, w')
    requires step.CommitCreate? || step.CommitDecision? || step.CommitEvidence?
    ensures Still(w, w') || Moved(w, w.phase.lead, w')
  {
    var id, s, httpDate := w.phase.lead, site.settings, site.lib.httpDate;
    var l, g := w.db.leads[id], LedgerOf(w.crm, id);
    assert RowOk(l.crm, g);
    match step
    case CommitCreate =>
      var applied := ApplyCreate(l.crm, w.phase.result, s, httpDate, w.now);
      if applied.Ok? {
        CreateRankFalls(l.crm, g, w.phase.result, s, httpDate, w.now);
        CommitMoves(w, id, applied.value, w');
      }
    case CommitDecision =>
      DecisionRankFalls(l.crm, g, w.phase.decision, w.now);
      CommitMoves(w, id, ApplyDecision(l.crm, w.phase.decision, w.now), w');
    case CommitEvidence =>
      var applied := ApplyEvidence(l.crm, l.identity.contact, w.phase.read, s, httpDate, w.now);
      if applied.Ok? {
        EvidenceRankFalls(l.crm, g, l.identity.contact, w.phase.read, s, httpDate, w.now);
        CommitMoves(w, id, applied.value, w');
      }
  }

  /** Every CRM step either moves nothing or commits one transition that strictly decreases the
      sum of the row's rank and the pause credit. */
  lemma CrmMoves(site: Site, w: World, step: CrmStep, w': World)
    requires Safe(w) && CrmNext(site, w, step, w')
    ensures Still(w, w') || Moved(w, Mover(w, step), w')
  {
    match step
    case Prepare(gate, candidate) => PrepareMoves(site, w, gate, candidate, w');
    case TryClaim(gate, result) => TryClaimMoves(site, w, gate, result, w');
    case CommitCreate => ResultMoves(site, w, step, w');
    case CommitDecision => ResultMoves(site, w, step, w');
    case CommitEvidence => ResultMoves(site, w, step, w');
    case _ =>
  }

  /** A request leaves only after its claim. */
  lemma RequestsFollowClaims(site: Site, w: World, step: CrmStep, w': World)
    requires CrmNext(site, w, step, w')
    ensures |w'.hub.calls| + (if w'.phase.ClaimedCreate? then 1 else 0) - w'.crm.claims
         <= |w.hub.calls| + (if w.phase.ClaimedCreate? then 1 else 0) - w.crm.claims
  {
  }

  // ---------- totals ----------

  /** Claims and pause returns are the sums of the per-row counters, requests never outnumber
      claims, and the committed transitions are paid for by inserts and clears. */
  ghost predicate TotalsOk(w: World) {
    var ids := w.db.leads.Keys;
    && w.crm.claims == Sum(ids, AttemptsAt(w.db.leads))
    && w.crm.pauseReturns == Sum(ids, ReturnsAt(w.crm))
    && |w.hub.calls| + (if w.phase.ClaimedCreate? then 1 else 0) <= w.crm.claims
    && w.crm.commits + Credit(w.db.pause) + Sum(ids, RankAt(w.db.leads)) <= 2 + 17 * |ids| + 2 * w.crm.clears
  }

  lemma MovedSums(leads: Leads, log: CrmLog, id: nat, leads': Leads, log': CrmLog)
    requires id in leads && id in leads' && leads' == WithRow(leads, id, leads'[id].crm)
    requires log'.ledgers == log.ledgers || log'.ledgers == log.ledgers[id := LedgerOf(log', id)]
    ensures leads'.Keys == leads.Keys
    ensures Sum(leads.Keys, AttemptsAt(leads'))
         == Sum(leads.Keys, AttemptsAt(leads)) - leads[id].crm.writeAttempts + leads'[id].crm.writeAttempts
    ensures Sum(leads.Keys, ReturnsAt(log'))
         == Sum(leads.Keys, ReturnsAt(log)) - LedgerOf(log, id).returned + LedgerOf(log', id).returned
    ensures Sum(leads.Keys, RankAt(leads'))
         == Sum(leads.Keys, RankAt(leads)) - Rank(leads[id].crm) + Rank(leads'[id].crm)
  {
    SumChange(leads.Keys, AttemptsAt(leads), AttemptsAt(leads'), id);
    SumChange(leads.Keys, ReturnsAt(log), ReturnsAt(log'), id);
    SumChange(leads.Keys, RankAt(leads), RankAt(leads'), id);
  }

  lemma MovedKeepsTotals(w: World, id: nat, w': World)
    requires TotalsOk(w) && Moved(w, id, w')
    requires |w'.hub.calls| + (if w'.phase.ClaimedCreate? then 1 else 0) - w'.crm.claims
          <= |w.hub.calls| + (if w.phase.ClaimedCreate? then 1 else 0) - w.crm.claims
    ensures TotalsOk(w')
  {
    MovedSums(w.db.leads, w.crm, id, w'.db.leads, w'.crm);
  }

  lemma SameRowsKeepTotals(w: World, w': World)
    requires TotalsOk(w) && SameDelivery(w.db.leads, w'.db.leads)
    requires w'.crm.claims == w.crm.claims && w'.crm.pauseReturns == w.crm.pauseReturns
    requires w'.crm.ledgers == w.crm.ledgers && w'.crm.commits == w.crm.commits
    requires |w'.hub.calls| + (if w'.phase.ClaimedCreate? then 1 else 0)
          <= |w.hub.calls| + (if w.phase.ClaimedCreate? then 1 else 0)
    requires Credit(w'.db.pause) - Credit(w.db.pause) <= 2 * (w'.crm.clears - w.crm.clears)
    ensures TotalsOk(w')
  {
    var ids := w.db.leads.Keys;
    SumAgree(ids, AttemptsAt(w.db.leads), AttemptsAt(w'.db.leads));
    SumAgree(ids, ReturnsAt(w.crm), ReturnsAt(w'.crm));
    SumAgree(ids, RankAt(w.db.leads), RankAt(w'.db.leads));
  }

  lemma InsertedAttempts(leads: Leads, log: CrmLog, id: nat, row: Lead)
    requires id !in leads && id !in log.ledgers && row.crm == NEW_DELIVERY
    ensures Sum(leads[id := row].Keys, AttemptsAt(leads[id := row])) == Sum(leads.Keys, AttemptsAt(leads))
  {
    var ids := leads.Keys;
    assert leads[id := row].Keys == ids + {id};
    forall j | j in ids ensures AttemptsAt(leads)(j) == AttemptsAt(leads[id := row])(j) { assert j != id; }
    SumInsert(ids, AttemptsAt(leads), AttemptsAt(leads[id := row]), id);
  }

  lemma InsertedReturns(leads: Leads, log: CrmLog, id: nat, row: Lead)
    requires id !in leads && id !in log.ledgers && row.crm == NEW_DELIVERY
    ensures Sum(leads[id := row].Keys, ReturnsAt(log)) == Sum(leads.Keys, ReturnsAt(log))
  {
    var ids := leads.Keys;
    assert leads[id := row].Keys == ids + {id};
    forall j | j in ids ensures ReturnsAt(log)(j) == ReturnsAt(log)(j) { assert j != id; }
    SumInsert(ids, ReturnsAt(log), ReturnsAt(log), id);
  }

  lemma InsertedRank(leads: Leads, log: CrmLog, id: nat, row: Lead)
    requires id !in leads && id !in log.ledgers && row.crm == NEW_DELIVERY
    ensures Sum(leads[id := row].Keys, RankAt(leads[id := row])) == Sum(leads.Keys, RankAt(leads)) + 17
  {
    var ids := leads.Keys;
    assert leads[id := row].Keys == ids + {id};
    forall j | j in ids ensures RankAt(leads)(j) == RankAt(leads[id := row])(j) { assert j != id; }
    SumInsert(ids, RankAt(leads), RankAt(leads[id := row]), id);
  }

  lemma InsertKeepsTotals(w: World, w': World, id: nat)
    requires TotalsOk(w) && id !in w.db.leads && id !in w.crm.ledgers
    requires id in w'.db.leads && w'.db.leads == w.db.leads[id := w'.db.leads[id]]
    requires w'.db.leads[id].crm == NEW_DELIVERY
    requires w'.db.pause == w.db.pause && w'.crm == w.crm && w'.hub == w.hub && w'.phase == w.phase
    ensures TotalsOk(w')
  {
    var leads, row := w.db.leads, w'.db.leads[id];
    InsertedAttempts(leads, w.crm, id, row);
    InsertedReturns(leads, w.crm, id, row);
    InsertedRank(leads, w.crm, id, row);
    assert w'.db.leads.Keys == leads.Keys + {id};
  }

  lemma CrmKeepsTotals(site: Site, w: World, step: CrmStep, w': World)
    requires Safe(w) && TotalsOk(w) && CrmNext(site, w, step, w')
    ensures TotalsOk(w')
  {
    CrmMoves(site, w, step, w');
    RequestsFollowClaims(site, w, step, w');
    if Moved(w, Mover(w, step), w') { MovedKeepsTotals(w, Mover(w, step), w'); }
    else { SameRowsKeepTotals(w, w'); }
  }

  lemma OutsideKeepsTotals(w: World, step: OutsideStep, w': World)
    requires TotalsOk(w) && OutsideNext(w, step, w')
    ensures TotalsOk(w')
  {
    SameRowsKeepTotals(w, w');
  }

  lemma IntakeKeepsTotals(site: Site, w: World, step: IntakeStep, w': World)
    requires Safe(w) && TotalsOk(w) && IntakeNext(site, w, step, w')
    ensures TotalsOk(w')
  {
    IntakeLeads(site, w, step, w');
    if w'.db.leads == w.db.leads { SameRowsKeepTotals(w, w'); }
    else { InsertKeepsTotals(w, w', w.db.nextLeadId); }
  }

  lemma NotifyKeepsTotals(site: Site, w: World, step: NotifyStep, w': World)
    requires Safe(w) && TotalsOk(w) && NotifyNext(site, w, step, w')
    ensures TotalsOk(w')
  {
    NotifyLeads(site, w, step, w');
    SameRowsKeepTotals(w, w');
  }

  lemma StepKeepsTotals(site: Site, w: World, step: Step, w': World)
    requires Safe(w) && TotalsOk(w) && Next(site, w, step, w')
    ensures Safe(w') && TotalsOk(w')
  {
    StepKeeps(site, w, step, w');
    match step
    case Crm(c) => CrmKeepsTotals(site, w, c, w');
    case Intake(i) => IntakeKeepsTotals(site, w, i, w');
    case Notify(n) => NotifyKeepsTotals(site, w, n, w');
    case Outside(o) => OutsideKeepsTotals(w, o, w');
  }

  lemma InitialTotals(w: World)
    requires Init(w)
    ensures TotalsOk(w)
  {
    assert w.db.leads.Keys == {};
  }

  lemma {:induction false} RunTotals(site: Site, r: Run)
    requires Valid(site, r)
    ensures Safe(r.w) && TotalsOk(r.w)
  {
    match r
    case Start(w) =>
      InitialSafe(w);
      InitialTotals(w);
    case Then(before, step, w) =>
      LastStep(site, r);
      RunTotals(site, before);
      StepKeepsTotals(site, before.w, step, w);
  }

  lemma {:induction false} SumNonNegative(ids: set<nat>, f: nat -> int)
    requires forall id | id in ids :: f(id) >= 0
    ensures Sum(ids, f) >= 0
    decreases ids
  {
    if ids != {} {
      var id :| id in ids;
      SumSplit(ids, f, id);
      SumNonNegative(ids - {id}, f);
    }
  }

  /** Termination: with N leads and C effective clears, at most 17 N + 2 C + 2 transitions are
      ever committed, however the steps interleave. */
  lemma CommittedTransitionsAreBounded(site: Site, r: Run)
    requires Valid(site, r)
    ensures r.w.crm.commits <= 17 * |r.w.db.leads| + 2 * r.w.crm.clears + 2
  {
    RunTotals(site, r);
    RanksAreNonNegative(r.w.db.leads, r.w.crm);
    assert |r.w.db.leads.Keys| == |r.w.db.leads|;
  }

  lemma RanksAreNonNegative(leads: Leads, log: CrmLog)
    requires RowsOk(leads, log)
    ensures Sum(leads.Keys, RankAt(leads)) >= 0
  {
    forall id | id in leads ensures RankAt(leads)(id) >= 0 { assert RowOk(leads[id].crm, LedgerOf(log, id)); }
    SumNonNegative(leads.Keys, RankAt(leads));
  }

  /** Every attempt is an automatic retry, a resumption after a pause, or the first. In total N
      leads and C effective clears cost at most 4 N + C + 1 create requests. */
  lemma AttemptsAreAccountedFor(site: Site, r: Run)
    requires Valid(site, r)
    ensures forall id | id in r.w.db.leads ::
      var d := r.w.db.leads[id].crm;
      d.writeAttempts == d.retries + LedgerOf(r.w.crm, id).returned + (if Waiting(d.status) then 0 else 1)
    ensures |r.w.crm.episodes| == r.w.crm.clears + (if r.w.db.pause.paused then 1 else 0)
    ensures |r.w.hub.calls| <= r.w.crm.claims <= 4 * |r.w.db.leads| + r.w.crm.clears + 1
  {
    RunTotals(site, r);
    var w := r.w;
    var ids := w.db.leads.Keys;
    forall id | id in ids ensures AttemptsAt(w.db.leads)(id) <= 4 + ReturnsAt(w.crm)(id) {
      assert RowOk(w.db.leads[id].crm, LedgerOf(w.crm, id));
    }
    SumBound(ids, AttemptsAt(w.db.leads), ReturnsAt(w.crm));
    assert |w.db.leads.Keys| == |w.db.leads|;
  }
}
