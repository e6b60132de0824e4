/** The worker's control flow: which transactions it runs in which order, and what it asks of
    HubSpot in between. Each method is proved to follow steps of `System.Next`, so everything
    proved about runs holds of what the worker does. */
module Worker {
  import opened Schema
  import opened HubSpot
  import opened CrmDelivery
  import opened Selections
  import opened Store
  import opened System
  import opened Verdicts

  /** What HubSpot would answer to each request of one unit of work, were it made. */
  datatype Answers = Answers(create: RawCreate, followUp: RawRead, emailRead: RawRead, evidence: RawRead)

  // ---------- stretches of a run ----------

  /** A stretch of steps from world `w`, starting anywhere. */
  ghost predicate Walked(site: Site, w: World, t: Run) { First(t) == w && Allowed(site, t) }

  function Append(r: Run, t: Run): Run {
    match t
    case Start(_) => r
    case Then(before, step, w) => Then(Append(r, before), step, w)
  }

  lemma {:induction false} Joined(site: Site, w: World, t: Run, u: Run)
    requires Walked(site, w, t) && Walked(site, t.w, u)
    ensures Walked(site, w, Append(t, u)) && Prefix(t, Append(t, u)) && Append(t, u).w == u.w
    decreases u
  {
    if u.Then? {
      LastStep(site, u);
      Joined(site, w, t, u.before);
      OneMoreStep(site, Append(t, u.before), u.step, u.w);
    }
  }

  function Steps(t: Run): nat { if t.Start? then 0 else Steps(t.before) + 1 }

  /** A stretch prolongs any run that ends where it starts. */
  lemma StretchProlongsRun(site: Site, r: Run, t: Run)
    requires Valid(site, r) && Walked(site, r.w, t)
    ensures Valid(site, Append(r, t)) && Prefix(r, Append(r, t)) && Append(r, t).w == t.w
  {
    Joined(site, First(r), r, t);
  }

  lemma Take(site: Site, w: World, t: Run, step: CrmStep, w': World)
    requires Walked(site, w, t) && CrmNext(site, t.w, step, w')
    ensures Walked(site, w, Then(t, Crm(step), w'))
  {
    OneMoreStep(site, t, Crm(step), w');
  }

  // ---------- single steps ----------

  function Prepared(w: World, db: Schema.Db, gate: Gate, candidate: Option<nat>): World {
    w.(db := db, crm := LogGate(w.crm, gate),
       phase := if candidate.Some? then Reconciling(candidate.value) else Idle)
  }

  function AfterClaim(w: World, db: Schema.Db, gate: Gate, result: Result<Claim, DeliveryError>): World {
    match result
    case Ok(NoClaim) => w.(db := db, crm := LogGate(w.crm, gate))
    case Ok(Claimed(id, contact)) =>
      w.(db := db, phase := ClaimedCreate(id, contact),
         crm := w.crm.(claims := w.crm.claims + 1, commits := w.crm.commits + 1))
    case Err(_) => w.(crm := w.crm.(faults := w.crm.faults + 1))
  }

  function Sent(w: World): World
    requires w.phase.ClaimedCreate?
  {
    w.(phase := Calling(w.phase.lead, w.phase.contact, |w.hub.calls|),
       hub := w.hub.(calls := w.hub.calls + [Call(w.phase.lead, w.phase.contact, InFlight, None)]))
  }

  function Answered(w: World, raw: RawCreate): World
    requires w.phase.Calling? && w.phase.call < |w.hub.calls|
  {
    w.(phase := AfterCreate(w.phase.lead, w.phase.contact, ClassifyCreate(raw)),
       hub := Heard(w.hub, w.phase.call, raw))
  }

  function Committed(w: World, id: nat, outcome: Result<(Schema.Db, Action), DeliveryError>): World {
    match outcome
    case Ok((db, action)) =>
      if id in w.db.leads && id in db.leads then
        w.(db := db, phase := Idle,
           crm := LogCommit(w.crm, id, w.db.leads[id].crm, db.leads[id].crm, action, w.db.pause, db.pause))
      else w
    case Err(_) => w.(phase := Idle, crm := w.crm.(faults := w.crm.faults + 1))
  }

  lemma PrepareStep(site: Site, w: World, db: Schema.Db, gate: Gate, candidate: Option<nat>)
    requires CanStartCrm(w)
    requires PrepareTransaction(w.db, site.settings.leaseSeconds, w.now, db, gate, candidate)
    ensures CrmNext(site, w, Prepare(gate, candidate), Prepared(w, db, gate, candidate))
  {
  }

  lemma ClaimStep(site: Site, w: World, db: Schema.Db, gate: Gate, result: Result<Claim, DeliveryError>)
    requires CanStartCrm(w)
    requires ClaimTransaction(w.db, site.settings.leaseSeconds, w.now, db, gate, result)
    ensures CrmNext(site, w, TryClaim(gate, result), AfterClaim(w, db, gate, result))
    ensures AfterClaim(w, db, gate, result).db == db
  {
  }

  lemma RequestSteps(site: Site, w: World, raw: RawCreate)
    requires w.phase.ClaimedCreate?
    ensures CrmNext(site, w, SendCreate, Sent(w))
    ensures CrmNext(site, Sent(w), CreateOutcome(raw), Answered(Sent(w), raw))
  {
  }

  function Read(w: World, raw: RawRead): World {
    if w.phase.Reconciling? then w.(phase := HoldingEvidence(w.phase.lead, ClassifyRead(raw)))
    else w.(phase := AfterFollowUp(w.phase, ClassifyRead(raw)))
  }

  lemma ReadStep(site: Site, w: World, raw: RawRead)
    requires w.phase.ReadingAfter400? || w.phase.ReadingAfter409? || w.phase.ReadingEmail? || w.phase.Reconciling?
    ensures CrmNext(site, w, if w.phase.Reconciling? then EvidenceRead(raw) else FollowUpRead(raw), Read(w, raw))
  {
  }

  function HeldOutcome(site: Site, w: World): Result<(Schema.Db, Action), DeliveryError>
    requires w.phase.HoldingCreate? || w.phase.HoldingDecision? || w.phase.HoldingEvidence?
  {
    match w.phase
    case HoldingCreate(id, result) => CreateResultTransaction(w.db, id, result, site.settings, site.lib.httpDate, w.now)
    case HoldingDecision(id, decision) => DecisionTransaction(w.db, id, decision, w.now)
    case HoldingEvidence(id, read) => EvidenceTransaction(w.db, id, read, site.settings, site.lib.httpDate, w.now)
  }

  /** The step that writes the result in hand. */
  function HeldCommit(phase: Phase): CrmStep {
    if phase.HoldingCreate? then CommitCreate else if phase.HoldingDecision? then CommitDecision else CommitEvidence
  }

  lemma HeldStep(site: Site, w: World)
    requires w.phase.HoldingCreate? || w.phase.HoldingDecision? || w.phase.HoldingEvidence?
    ensures CrmNext(site, w, HeldCommit(w.phase), Committed(w, w.phase.lead, HeldOutcome(site, w)))
    ensures var outcome := HeldOutcome(site, w);
      Committed(w, w.phase.lead, outcome).db == if outcome.Ok? then outcome.value.0 else w.db
    ensures Committed(w, w.phase.lead, HeldOutcome(site, w)).phase == Idle
    ensures Committed(w, w.phase.lead, HeldOutcome(site, w)).crm.commits
         == w.crm.commits + if HeldOutcome(site, w).Ok? then 1 else 0
  {
  }

  // ---------- stretches of CRM work ----------

  function DbAfter(outcome: Result<(Schema.Db, Action), DeliveryError>, db: Schema.Db): Schema.Db {
    if outcome.Ok? then outcome.value.0 else db
  }

  /** The thread is idle, and its time has not moved. */
  ghost predicate AtRest(w: World, w': World) {
    CanStartCrm(w') && w'.now == w.now && w'.notifier == w.notifier && w'.normalizers == w.normalizers
  }

  lemma HeldStretch(site: Site, w: World, t: Run) returns (t': Run)
    requires Walked(site, w, t)
    requires t.w.phase.HoldingCreate? || t.w.phase.HoldingDecision? || t.w.phase.HoldingEvidence?
    requires t.w.notifier == Quiet && !t.w.checking
    ensures Walked(site, w, t') && AtRest(t.w, t'.w) && t'.w.hub == t.w.hub
    ensures t'.w.db == DbAfter(HeldOutcome(site, t.w), t.w.db)
    ensures t'.w.crm.commits == t.w.crm.commits + if HeldOutcome(site, t.w).Ok? then 1 else 0
  {
    HeldStep(site, t.w);
    var step := HeldCommit(t.w.phase);
    var w' := Committed(t.w, t.w.phase.lead, HeldOutcome(site, t.w));
    Take(site, w, t, step, w');
    t' := Then(t, Crm(step), w');
  }

  lemma ReconcileStretch(
      site: Site, w: World, db: Schema.Db, gate: Gate, candidate: Option<nat>, raw: RawRead) returns (t: Run)
    requires CanStartCrm(w) && PrepareTransaction(w.db, site.settings.leaseSeconds, w.now, db, gate, candidate)
    ensures Walked(site, w, t) && AtRest(w, t.w) && t.w.hub == w.hub
    ensures t.w.db == if candidate.None? then db
      else
        var outcome :=
          EvidenceTransaction(db, candidate.value, ClassifyRead(raw), site.settings, site.lib.httpDate, w.now);
        DbAfter(outcome, db)
    ensures t.w.crm.commits >= w.crm.commits
    ensures candidate.Some? ==>
      var outcome :=
        EvidenceTransaction(db, candidate.value, ClassifyRead(raw), site.settings, site.lib.httpDate, w.now);
      outcome.Ok? ==> t.w.crm.commits > w.crm.commits
  {
    PrepareStep(site, w, db, gate, candidate);
    var w1 := Prepared(w, db, gate, candidate);
    t := Then(Start(w), Crm(Prepare(gate, candidate)), w1);
    Take(site, w, Start(w), Prepare(gate, candidate), w1);
    if candidate.Some? {
      ReadStep(site, w1, raw);
      Take(site, w, t, EvidenceRead(raw), Read(w1, raw));
      t := HeldStretch(site, w, Then(t, Crm(EvidenceRead(raw)), Read(w1, raw)));
    }
  }

  /** The transaction that ends a claimed create. */
  function CreateOutcomeOf(site: Site, db: Schema.Db, id: nat, contact: ContactInput, hub: Answers, now: Time)
    : Result<(Schema.Db, Action), DeliveryError>
  {
    var result := ClassifyCreate(hub.create);
    match result.category
    case BadRequestRequiresClassification =>
      DecisionTransaction(db, id, ClassifyBadRequest(contact, ClassifyRead(hub.followUp)), now)
    case ConflictRequiresLookup =>
      var decision := ClassifyConflict(contact, ClassifyRead(hub.followUp), ClassifyRead(hub.emailRead));
      DecisionTransaction(db, id, decision, now)
    case _ => CreateResultTransaction(db, id, result, site.settings, site.lib.httpDate, now)
  }

  datatype ReadMade = ByReference | ByEmail

  /** Which reads follow a create answer: the reference after a 400 or a 409, and then the e-mail
      only after a 409 whose reference is unknown, for a lead that has one. */
  function ReadsAfter(contact: ContactInput, create: CreateCategory, byReference: ReadCategory): seq<ReadMade> {
    if create == ConflictRequiresLookup && byReference == ActiveNotFound && contact.email.Some? then
      [ByReference, ByEmail]
    else if create == ConflictRequiresLookup || create == BadRequestRequiresClassification then [ByReference]
    else []
  }

  /** From the answer of HubSpot to a decided result, with the classification reads between. */
  lemma ClassifyStretch(site: Site, w: World, t: Run, id: nat, contact: ContactInput, hub: Answers) returns (t': Run)
    requires Walked(site, w, t) && t.w.notifier == Quiet && !t.w.checking
    requires t.w.phase == AfterCreate(id, contact, ClassifyCreate(hub.create))
    ensures Walked(site, w, t') && t'.w == t.w.(phase := t'.w.phase)
    ensures t'.w.phase.HoldingCreate? || t'.w.phase.HoldingDecision?
    ensures HeldOutcome(site, t'.w) == CreateOutcomeOf(site, t.w.db, id, contact, hub, t.w.now)
    ensures Steps(t') - Steps(t)
         == |ReadsAfter(contact, ClassifyCreate(hub.create).category, ClassifyRead(hub.followUp).category)|
  {
    t' := t;
    if t.w.phase.ReadingAfter400? || t.w.phase.ReadingAfter409? {
      t' := ReadStretch(site, w, t, hub.followUp);
      if t'.w.phase.ReadingEmail? { t' := ReadStretch(site, w, t', hub.emailRead); }
    }
  }

  /** One classification read. */
  lemma ReadStretch(site: Site, w: World, t: Run, raw: RawRead) returns (t': Run)
    requires Walked(site, w, t)
    requires t.w.phase.ReadingAfter400? || t.w.phase.ReadingAfter409? || t.w.phase.ReadingEmail?
    ensures Walked(site, w, t') && t'.w == Read(t.w, raw) && Steps(t') == Steps(t) + 1
  {
    ReadStep(site, t.w, raw);
    Take(site, w, t, FollowUpRead(raw), Read(t.w, raw));
    t' := Then(t, Crm(FollowUpRead(raw)), Read(t.w, raw));
  }

  /** One more request went out, for this lead and with this contact, and this came back. */
  predicate OneRequest(hub: Hub, hub': Hub, id: nat, contact: ContactInput, raw: RawCreate) {
    && |hub'.calls| == |hub.calls| + 1 && hub'.calls[..|hub.calls|] == hub.calls
    && var c := hub'.calls[|hub.calls|];
       c.lead == id && c.contact == contact && c.answer == Some(raw)
  }

  lemma RequestStretch(site: Site, w: World, t: Run, raw: RawCreate) returns (t': Run)
    requires Walked(site, w, t) && t.w.phase.ClaimedCreate?
    ensures Walked(site, w, t') && t'.w == Answered(Sent(t.w), raw)
    ensures OneRequest(t.w.hub, t'.w.hub, t.w.phase.lead, t.w.phase.contact, raw)
  {
    RequestSteps(site, t.w, raw);
    Take(site, w, t, SendCreate, Sent(t.w));
    t' := Then(t, Crm(SendCreate), Sent(t.w));
    Take(site, w, t', CreateOutcome(raw), Answered(t'.w, raw));
    t' := Then(t', Crm(CreateOutcome(raw)), Answered(t'.w, raw));
  }

  lemma ClaimStretch(
      site: Site, w: World, db: Schema.Db, gate: Gate, result: Result<Claim, DeliveryError>) returns (t: Run)
    requires CanStartCrm(w) && ClaimTransaction(w.db, site.settings.leaseSeconds, w.now, db, gate, result)
    ensures Walked(site, w, t) && t.w == AfterClaim(w, db, gate, result) && t.w.db == db
  {
    ClaimStep(site, w, db, gate, result);
    t := Then(Start(w), Crm(TryClaim(gate, result)), AfterClaim(w, db, gate, result));
    Take(site, w, Start(w), TryClaim(gate, result), t.w);
  }

  /** From a committed claim to the end of its create. */
  lemma ClaimedStretch(site: Site, w: World, t: Run, id: nat, contact: ContactInput, hub: Answers) returns (t': Run)
    requires Walked(site, w, t) && t.w.phase == ClaimedCreate(id, contact) && t.w.notifier == Quiet && !t.w.checking
    ensures Walked(site, w, t') && AtRest(t.w, t'.w)
    ensures t'.w.db == DbAfter(CreateOutcomeOf(site, t.w.db, id, contact, hub, t.w.now), t.w.db)
    ensures OneRequest(t.w.hub, t'.w.hub, id, contact, hub.create) && t'.w.crm.commits >= t.w.crm.commits
  {
    t' := RequestStretch(site, w, t, hub.create);
    t' := ClassifyStretch(site, w, t', id, contact, hub);
    t' := HeldStretch(site, w, t');
  }

  lemma DeliverStretch(
      site: Site, w: World, db: Schema.Db, gate: Gate, result: Result<Claim, DeliveryError>, hub: Answers)
    returns (t: Run)
    requires CanStartCrm(w) && ClaimTransaction(w.db, site.settings.leaseSeconds, w.now, db, gate, result)
    ensures Walked(site, w, t) && AtRest(w, t.w)
    ensures match result
            case Ok(Claimed(id, contact)) =>
              && t.w.db == DbAfter(CreateOutcomeOf(site, db, id, contact, hub, w.now), db)
              && OneRequest(w.hub, t.w.hub, id, contact, hub.create) && t.w.crm.commits > w.crm.commits
            case _ => t.w.db == db && t.w.hub == w.hub && t.w.crm.commits >= w.crm.commits
  {
    t := ClaimStretch(site, w, db, gate, result);
    if result.Ok? && result.value.Claimed? {
      t := ClaimedStretch(site, w, t, result.value.lead, result.value.contact, hub);
    }
  }

  // ---------- one unit of CRM work ----------

  /** The database is the one of world `w`, and the thread starts CRM work at `now`. */
  ghost predicate Serving(db: Schema.Db, w: World, now: Time) { db == w.db && now == w.now && CanStartCrm(w) }

  /** The stretch `t` leads from `w` to a world at rest with this database. */
  ghost predicate Served(site: Site, w: World, t: Run, db: Schema.Db) {
    Walked(site, w, t) && AtRest(w, t.w) && t.w.db == db
  }

  predicate IsWork(action: Action) { action != NoWork && action != CrmBlocked }

  lemma EvidenceIsWork(
      db: Schema.Db, id: nat, read: ReadResult, s: Settings, httpDate: DateReader, now: Time)
    ensures var outcome := EvidenceTransaction(db, id, read, s, httpDate, now); outcome.Ok? ==> IsWork(outcome.value.1)
  {
  }

  lemma CreateIsWork(site: Site, db: Schema.Db, id: nat, contact: ContactInput, hub: Answers, now: Time)
    ensures var outcome := CreateOutcomeOf(site, db, id, contact, hub, now); outcome.Ok? ==> IsWork(outcome.value.1)
  {
  }

  function ActionOf(outcome: Outcome): Result<Action, DeliveryError> {
    if outcome.Ok? then Ok(outcome.value.1) else Err(outcome.error)
  }

  /** The due lead that has waited longest was read, behind an open or just recovered gate, and
      the evidence was written. */
  ghost predicate ReadInTurn(
      site: Site, db: Schema.Db, now: Time, raw: RawRead, db': Schema.Db, action: Result<Action, DeliveryError>)
  {
    exists gated, gate, id, outcome ::
      && PrepareVerdict(db, site.settings.leaseSeconds, now, gated, gate, Some(id))
      && EvidenceVerdict(gated, id, raw, site.settings, site.lib.httpDate, now, outcome)
      && db' == DbAfter(outcome, gated) && action == ActionOf(outcome)
  }

  /** Something is to be reconciled: a SENDING lead whose lease is over, or a due UNKNOWN. */
  ghost predicate Reconcilable(leads: Leads, lease: int, now: Time) {
    !FreshSending(leads, lease, now) && ((exists id :: Sends(leads, id)) || exists id :: IsDue(leads, now, id))
  }

  /** `reconcile_one_unknown` in full: blocked exactly while a SENDING lead is fresh; no work
      exactly when CRM work is paused or there is nothing to reconcile; otherwise one read. */
  ghost predicate ReconcileVerdict(
      site: Site, db: Schema.Db, now: Time, raw: RawRead, db': Schema.Db, action: Result<Action, DeliveryError>)
  {
    var lease := site.settings.leaseSeconds;
    && (action == Ok(CrmBlocked) <==> FreshSending(db.leads, lease, now))
    && (action == Ok(NoWork) <==>
         !FreshSending(db.leads, lease, now) && (db.pause.paused || !Reconcilable(db.leads, lease, now)))
    && (action == Ok(CrmBlocked) ==> db' == db)
    && (action == Ok(NoWork) ==> db'.pause == db.pause && (db.pause.paused || db' == db))
    && (action.Err? || IsWork(action.value) ==> ReadInTurn(site, db, now, raw, db', action))
    && (action.Err? ==> action == Err(DateOutOfRange) && DateLost(raw, now, site.lib.httpDate))
  }

  /** The answer came with a `Retry-After` date that UTC cannot represent. */
  ghost predicate DateLost(raw: RawRead, now: Time, httpDate: DateReader) {
    ReadStatus(raw, {423, 429, 477}) && Asked(raw.retryAfter, now, httpDate).Err?
  }

  lemma NoCandidate(site: Site, db: Schema.Db, now: Time, raw: RawRead, gated: Schema.Db, gate: Gate)
    requires PrepareTransaction(db, site.settings.leaseSeconds, now, gated, gate, None)
    ensures ReconcileVerdict(site, db, now, raw, gated, Ok(if gate.Blocked? then CrmBlocked else NoWork))
  {
    PrepareVerdicts(db, site.settings.leaseSeconds, now, gated, gate, None);
    if gate.Recovered? { assert !db.pause.paused ==> IsDue(gated.leads, now, gate.lead); }
  }

  lemma OneCandidate(site: Site, db: Schema.Db, now: Time, raw: RawRead, gated: Schema.Db, gate: Gate, id: nat)
    requires PrepareTransaction(db, site.settings.leaseSeconds, now, gated, gate, Some(id))
    ensures var outcome := EvidenceTransaction(gated, id, ClassifyRead(raw), site.settings, site.lib.httpDate, now);
      ReconcileVerdict(site, db, now, raw, DbAfter(outcome, gated), ActionOf(outcome))
  {
    var s, httpDate := site.settings, site.lib.httpDate;
    PrepareVerdicts(db, s.leaseSeconds, now, gated, gate, Some(id));
    EvidenceVerdicts(gated, id, raw, s, httpDate, now);
    EvidenceIsWork(gated, id, ClassifyRead(raw), s, httpDate, now);
    DateIsLost(gated, id, raw, s, httpDate, now);
  }

  lemma DateIsLost(db: Schema.Db, id: nat, raw: RawRead, s: Settings, httpDate: DateReader, now: Time)
    requires InStatus(db, id, Unknown)
    ensures var outcome := EvidenceTransaction(db, id, ClassifyRead(raw), s, httpDate, now);
      outcome.Err? ==> outcome.error == DateOutOfRange && DateLost(raw, now, httpDate)
  {
    ReadCategories(raw);
  }

  /** `reconcile_one_unknown`: at most one read and no create. */
  method ReconcileOneUnknown(db: Database, site: Site, now: Time, hub: Answers, ghost w: World)
    returns (action: Result<Action, DeliveryError>, ghost t: Run)
    requires Serving(db.Db(), w, now)
    modifies db
    ensures Served(site, w, t, db.Db()) && t.w.hub == w.hub
    ensures ReconcileVerdict(site, w.db, now, hub.evidence, db.Db(), action)
    ensures t.w.crm.commits >= w.crm.commits
    ensures action.Ok? && IsWork(action.value) ==> t.w.crm.commits > w.crm.commits
  {
    var gate, candidate := db.PrepareUnknownReconciliation(site.settings.leaseSeconds, now);
    t := ReconcileStretch(site, w, db.Db(), gate, candidate, hub.evidence);
    if gate.Blocked? {
      NoCandidate(site, w.db, now, hub.evidence, db.Db(), gate);
      return Ok(CrmBlocked), t;
    }
    if candidate.None? {
      NoCandidate(site, w.db, now, hub.evidence, db.Db(), gate);
      return Ok(NoWork), t;
    }
    OneCandidate(site, w.db, now, hub.evidence, db.Db(), gate, candidate.value);
    action := db.ApplyReconciliationResult(
      candidate.value, ClassifyRead(hub.evidence), site.settings, site.lib.httpDate, now);
  }

  /** The result of a claimed create: the reads that its category calls for, one by one, and then
      the transaction that writes what was decided. */
  method WriteCreateOutcome(db: Database, site: Site, id: nat, contact: ContactInput, hub: Answers, now: Time)
    returns (action: Result<Action, DeliveryError>, asked: seq<ReadMade>)
    modifies db
    ensures var outcome := CreateOutcomeOf(site, old(db.Db()), id, contact, hub, now);
      && db.Db() == DbAfter(outcome, old(db.Db()))
      && action == if outcome.Ok? then Ok(outcome.value.1) else Err(outcome.error)
    ensures asked == ReadsAfter(contact, ClassifyCreate(hub.create).category, ClassifyRead(hub.followUp).category)
  {
    var result := ClassifyCreate(hub.create);
    asked := [];
    var decision: Option<Decision> := None;
    if result.category == BadRequestRequiresClassification {
      asked := asked + [ByReference];
      decision := Some(ClassifyBadRequest(contact, ClassifyRead(hub.followUp)));
    } else if result.category == ConflictRequiresLookup {
      asked := asked + [ByReference];
      decision := ClassifyConflictByReference(contact, ClassifyRead(hub.followUp));
      if decision.None? {
        asked := asked + [ByEmail];
        decision := Some(ClassifyConflictByEmail(contact.email.value, ClassifyRead(hub.emailRead)));
      }
    }
    if decision.Some? {
      action := db.ApplyDeferredDecision(id, decision.value, now);
    } else {
      action := db.ApplyCreateResult(id, result, site.settings, site.lib.httpDate, now);
    }
  }

  // ---------- one create ----------

  /** A create may be claimed, and this lead is first in line. */
  ghost predicate NextToSend(db: Schema.Db, now: Time, id: nat) {
    OpenForCreates(db, now) && FirstInLine(db.leads, now, id)
  }

  /** The lead was claimed, and its database written as the answer and the reads after it say. */
  ghost predicate SentInTurn(
      site: Site, db: Schema.Db, now: Time, hub: Answers, id: nat, db': Schema.Db,
      action: Result<Action, DeliveryError>)
  {
    exists claimed, contact, outcome ::
      && ClaimedFirst(db, now, claimed, id, contact)
      && WrittenAs(claimed, id, hub.create, hub.followUp, hub.emailRead, site.settings, site.lib.httpDate, now, outcome)
      && db' == DbAfter(outcome, claimed) && action == ActionOf(outcome)
  }

  /** `deliver_one_crm_create` in full: no work exactly when a create may not be claimed or no
      lead waits; an invalid contact exactly when the first in line has one; otherwise the first in
      line was sent for. */
  ghost predicate DeliverVerdict(
      site: Site, db: Schema.Db, now: Time, hub: Answers, db': Schema.Db, action: Result<Action, DeliveryError>)
  {
    && action != Ok(CrmBlocked)
    && (action == Ok(NoWork) <==> !exists id :: NextToSend(db, now, id))
    && (action == Ok(NoWork) ==> db'.pause == db.pause && ((forall id :: !Sends(db.leads, id)) ==> db' == db))
    && (action == Err(InvalidContact) <==>
         exists id :: NextToSend(db, now, id) && !ValidContact(db.leads[id].identity.contact))
    && (action == Err(InvalidContact) ==> db' == db)
    && (action.Err? && action != Err(InvalidContact) ==>
         action == Err(DateOutOfRange) && CreateDateLost(hub.create, now, site.lib.httpDate))
    && forall id | NextToSend(db, now, id) && ValidContact(db.leads[id].identity.contact) ::
         SentInTurn(site, db, now, hub, id, db', action)
  }

  ghost predicate CreateDateLost(raw: RawCreate, now: Time, httpDate: DateReader) {
    Retryable(raw) && Asked(HeaderOf(raw), now, httpDate).Err?
  }

  /** The requests are as they were, unless the first in line was to be sent for. */
  ghost predicate RequestsInTurn(db: Schema.Db, now: Time, raw: RawCreate, hub: Hub, hub': Hub) {
    && ((forall id | NextToSend(db, now, id) :: !ValidContact(db.leads[id].identity.contact)) ==> hub' == hub)
    && forall id | NextToSend(db, now, id) && ValidContact(db.leads[id].identity.contact) ::
         OneRequest(hub, hub', id, db.leads[id].identity.contact, raw)
  }

  /** There is one first lead in a line that is not empty. */
  lemma OneIsFirst(
      db: Schema.Db, lease: int, now: Time, db': Schema.Db, gate: Gate, result: Result<Claim, DeliveryError>)
    requires ClaimTransaction(db, lease, now, db', gate, result)
    ensures result == Ok(NoClaim) ==>
      (forall id :: !NextToSend(db, now, id)) && db'.pause == db.pause
      && ((forall id :: !Sends(db.leads, id)) ==> db' == db)
    ensures result.Err? ==> result.error == InvalidContact && db' == db
    ensures result.Err? ==> exists id ::
      && NextToSend(db, now, id) && !ValidContact(db.leads[id].identity.contact)
      && forall j | NextToSend(db, now, j) :: j == id
    ensures result.Ok? && result.value.Claimed? ==>
      && NextToSend(db, now, result.value.lead) && (forall j | NextToSend(db, now, j) :: j == result.value.lead)
      && ClaimedFirst(db, now, db', result.value.lead, result.value.contact)
  {
    ClaimVerdicts(db, lease, now, db', gate, result);
  }

  lemma NoneClaimed(site: Site, db: Schema.Db, now: Time, hub: Answers, db': Schema.Db)
    requires (forall id :: !NextToSend(db, now, id)) && db'.pause == db.pause
    requires (forall id :: !Sends(db.leads, id)) ==> db' == db
    ensures DeliverVerdict(site, db, now, hub, db', Ok(NoWork))
  {
  }

  lemma ClaimRefused(site: Site, db: Schema.Db, now: Time, hub: Answers, id: nat)
    requires NextToSend(db, now, id) && !ValidContact(db.leads[id].identity.contact)
    requires forall j | NextToSend(db, now, j) :: j == id
    ensures DeliverVerdict(site, db, now, hub, db, Err(InvalidContact))
  {
  }

  lemma NothingClaimed(
      site: Site, db: Schema.Db, now: Time, hub: Answers, db': Schema.Db, gate: Gate,
      result: Result<Claim, DeliveryError>)
    requires ClaimTransaction(db, site.settings.leaseSeconds, now, db', gate, result)
    requires result.Err? || result.value.NoClaim?
    ensures DeliverVerdict(site, db, now, hub, db', if result.Err? then Err(result.error) else Ok(NoWork))
    ensures forall id | NextToSend(db, now, id) :: !ValidContact(db.leads[id].identity.contact)
  {
    OneIsFirst(db, site.settings.leaseSeconds, now, db', gate, result);
    if result.Err? {
      var id :| NextToSend(db, now, id) && !ValidContact(db.leads[id].identity.contact)
                && forall j | NextToSend(db, now, j) :: j == id;
      ClaimRefused(site, db, now, hub, id);
    } else {
      NoneClaimed(site, db, now, hub, db');
    }
  }

  lemma OneClaimed(
      site: Site, db: Schema.Db, now: Time, hub: Answers, claimed: Schema.Db, gate: Gate, id: nat,
      contact: ContactInput)
    requires ClaimTransaction(db, site.settings.leaseSeconds, now, claimed, gate, Ok(Claimed(id, contact)))
    ensures var outcome := CreateOutcomeOf(site, claimed, id, contact, hub, now);
      && DeliverVerdict(site, db, now, hub, DbAfter(outcome, claimed), ActionOf(outcome))
      && (outcome.Ok? ==> IsWork(outcome.value.1))
    ensures NextToSend(db, now, id) && ValidContact(contact) && contact == db.leads[id].identity.contact
    ensures forall j | NextToSend(db, now, j) :: j == id
  {
    OneIsFirst(db, site.settings.leaseSeconds, now, claimed, gate, Ok(Claimed(id, contact)));
    var outcome := CreateOutcomeOf(site, claimed, id, contact, hub, now);
    CreateIsWork(site, claimed, id, contact, hub, now);
    OutcomeVerdicts(site, claimed, id, contact, hub, now);
    OutcomeErrors(site, claimed, id, contact, hub, now);
    assert SentInTurn(site, db, now, hub, id, DbAfter(outcome, claimed), ActionOf(outcome));
  }

  lemma OutcomeVerdicts(site: Site, db: Schema.Db, id: nat, contact: ContactInput, hub: Answers, now: Time)
    requires InStatus(db, id, Sending) && contact == db.leads[id].identity.contact
    ensures WrittenAs(db, id, hub.create, hub.followUp, hub.emailRead, site.settings, site.lib.httpDate, now,
                      CreateOutcomeOf(site, db, id, contact, hub, now))
  {
    CreateCategories(hub.create);
    if Status(hub.create, {400}) {
      BadRequestVerdicts(db, id, contact, hub.followUp, now);
    } else if Status(hub.create, {409}) {
      ConflictOutcomes(db, id, contact, hub.followUp, hub.emailRead, now);
    } else {
      CreateVerdicts(db, id, hub.create, site.settings, site.lib.httpDate, now);
    }
  }

  lemma OutcomeErrors(site: Site, db: Schema.Db, id: nat, contact: ContactInput, hub: Answers, now: Time)
    requires InStatus(db, id, Sending)
    ensures var outcome := CreateOutcomeOf(site, db, id, contact, hub, now);
      outcome.Err? ==> outcome.error == DateOutOfRange && CreateDateLost(hub.create, now, site.lib.httpDate)
  {
    CreateCategories(hub.create);
    if NamesContact(hub.create) { StripIsIdempotent(hub.create.payloadId.value); }
  }

  /** `deliver_one_crm_create`: at most one create request, sent only through an open gate. */
  method DeliverOneCrmCreate(db: Database, site: Site, now: Time, hub: Answers, ghost w: World)
    returns (action: Result<Action, DeliveryError>, ghost t: Run)
    requires Serving(db.Db(), w, now)
    modifies db
    ensures Served(site, w, t, db.Db())
    ensures DeliverVerdict(site, w.db, now, hub, db.Db(), action)
    ensures RequestsInTurn(w.db, now, hub.create, w.hub, t.w.hub)
    ensures t.w.crm.commits >= w.crm.commits
    ensures action.Ok? && IsWork(action.value) ==> t.w.crm.commits > w.crm.commits
  {
    ghost var gate;
    var claim;
    gate, claim := db.ClaimOneCrmCreate(site.settings.leaseSeconds, now);
    t := DeliverStretch(site, w, db.Db(), gate, claim, hub);
    if claim.Err? || claim.value.NoClaim? {
      NothingClaimed(site, w.db, now, hub, db.Db(), gate, claim);
      return if claim.Err? then Err(claim.error) else Ok(NoWork), t;
    }
    var id, contact := claim.value.lead, claim.value.contact;
    OneClaimed(site, w.db, now, hub, db.Db(), gate, id, contact);
    var asked;
    action, asked := WriteCreateOutcome(db, site, id, contact, hub, now);
  }

  // ---------- one unit ----------

  /** `process_one_crm_work` in full. */
  ghost predicate UnitVerdict(
      site: Site, db: Schema.Db, now: Time, hub: Answers, db': Schema.Db, action: Result<Action, DeliveryError>)
  {
    var lease := site.settings.leaseSeconds;
    && (action == Ok(CrmBlocked) <==> FreshSending(db.leads, lease, now))
    && (action == Ok(NoWork) <==>
         && !FreshSending(db.leads, lease, now)
         && (db.pause.paused ||
              (!Reconcilable(db.leads, lease, now) && !exists id :: NextToSend(db, now, id))))
    && (action.Ok? && !IsWork(action.value) ==> db'.pause == db.pause && (db.pause.paused || db' == db))
    && (!db.pause.paused && Reconcilable(db.leads, lease, now) ==>
         ReadInTurn(site, db, now, hub.evidence, db', action))
    && (forall id | NextToSend(db, now, id) && ValidContact(db.leads[id].identity.contact) ::
         SentInTurn(site, db, now, hub, id, db', action))
    && (action == Err(InvalidContact) <==>
         exists id :: NextToSend(db, now, id) && !ValidContact(db.leads[id].identity.contact))
    && (action == Err(InvalidContact) ==> db' == db)
    && (action.Err? && action != Err(InvalidContact) ==>
         && action == Err(DateOutOfRange)
         && (DateLost(hub.evidence, now, site.lib.httpDate) || CreateDateLost(hub.create, now, site.lib.httpDate)))
  }

  /** A unit that reconciled something. */
  lemma ReconciledUnit(
      site: Site, db: Schema.Db, now: Time, hub: Answers, db': Schema.Db, action: Result<Action, DeliveryError>)
    requires ReconcileVerdict(site, db, now, hub.evidence, db', action) && action != Ok(NoWork)
    ensures UnitVerdict(site, db, now, hub, db', action) && forall id :: !NextToSend(db, now, id)
  {
  }

  /** A unit that went on to the create. */
  lemma DeliveredUnit(
      site: Site, db: Schema.Db, now: Time, hub: Answers, db1: Schema.Db, db': Schema.Db,
      action: Result<Action, DeliveryError>)
    requires ReconcileVerdict(site, db, now, hub.evidence, db1, Ok(NoWork))
    requires DeliverVerdict(site, db1, now, hub, db', action)
    ensures UnitVerdict(site, db, now, hub, db', action)
    ensures forall id :: NextToSend(db, now, id) <==> NextToSend(db1, now, id)
    ensures (exists id :: NextToSend(db1, now, id)) ==> db1 == db
  {
  }

  /** `process_one_crm_work`: a due reconciliation comes first, and a create is sent only when
      before this unit began nothing was paused, SENDING or due for reconciliation. A unit that
      reports no work has changed nothing, unless CRM work is paused: recovering a stale SENDING
      lead during a pause is not reported as work. No available work is passed by: an unpaused
      unit reports none only when no lead is SENDING, due or claimable, and a unit that reports
      work has committed a transition. */
  method ProcessOneCrmWork(db: Database, site: Site, now: Time, hub: Answers, ghost w: World)
    returns (action: Result<Action, DeliveryError>, ghost t: Run)
    requires Serving(db.Db(), w, now)
    modifies db
    ensures Served(site, w, t, db.Db())
    ensures UnitVerdict(site, w.db, now, hub, db.Db(), action)
    ensures RequestsInTurn(w.db, now, hub.create, w.hub, t.w.hub)
    ensures action.Ok? && IsWork(action.value) ==> t.w.crm.commits > w.crm.commits
  {
    action, t := ReconcileOneUnknown(db, site, now, hub, w);
    if action != Ok(NoWork) {
      ReconciledUnit(site, w.db, now, hub, db.Db(), action);
      return;
    }
    ghost var u;
    ghost var db1 := db.Db();
    action, u := DeliverOneCrmCreate(db, site, now, hub, t.w);
    DeliveredUnit(site, w.db, now, hub, db1, db.Db(), action);
    JoinedServed(site, w, t, u, db.Db());
    t := Append(t, u);
  }

  lemma JoinedServed(site: Site, w: World, t: Run, u: Run, db: Schema.Db)
    requires Walked(site, w, t) && AtRest(w, t.w) && Served(site, t.w, u, db)
    ensures Served(site, w, Append(t, u), db) && Append(t, u).w == u.w
  {
    Joined(site, w, t, u);
  }
}
