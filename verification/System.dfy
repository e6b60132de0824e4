/** The running system as a step relation: one worker, the web process, the operator, HubSpot
    and the mail server around one database. Every database step is the very transaction that
    a method of `Store.Database` is proved to perform. The worker can be abandoned between any
    two steps, and a create request can take effect at HubSpot arbitrarily late. */
module System {
  import opened Schema
  import opened HubSpot
  import opened CrmDelivery
  import opened Normalization
  import opened Notifications

  // ---------- the worker's memory ----------

  /** Where the worker is in one unit of CRM work. */
  datatype Phase =
    | Idle
    | ClaimedCreate(lead: nat, contact: ContactInput)             // claim committed, nothing sent
    | Calling(lead: nat, contact: ContactInput, call: nat)        // request handed to the client
    | ReadingAfter400(lead: nat, contact: ContactInput)
    | ReadingAfter409(lead: nat, contact: ContactInput)
    | ReadingEmail(lead: nat, email: string)
    | HoldingCreate(lead: nat, result: CreateResult)
    | HoldingDecision(lead: nat, decision: Decision)
    | Reconciling(lead: nat)
    | HoldingEvidence(lead: nat, read: ReadResult)

  /** Where the worker is in one notification. */
  datatype Notifier =
    | Quiet
    | SendingBatch(name: StreamName, ids: seq<nat>, at: Time)
    | SentBatch(name: StreamName, ids: seq<nat>, at: Time, error: Option<string>)
    | SendingPause(stamp: Stamp, number: nat, at: Time)
    | SentPause(stamp: Stamp, number: nat, at: Time, error: Option<string>)
    | SendingCluster(episode: Episode)
    | SentCluster(episode: Episode, error: Option<string>)

  // ---------- HubSpot ----------

  /** What became of a create request: it can still take effect, it did, or it never will. */
  datatype Fate = InFlight | Landed(contactId: string) | Refused

  /** `answer` is what the client reported, once it has. */
  datatype Call = Call(lead: nat, contact: ContactInput, fate: Fate, answer: Option<RawCreate>)

  datatype Contact = Contact(
    reference: Option<string>, email: Option<string>, everEmails: set<string>, archived: bool)

  datatype Hub = Hub(calls: seq<Call>, contacts: map<string, Contact>)

  // ---------- what has happened so far ----------

  /** Per lead: pause returns, entries into UNKNOWN, committed reads that did not pause. */
  datatype Ledger = Ledger(returned: nat, uncertain: nat, evidence: nat)

  datatype CrmLog = CrmLog(
    claims: nat, pauseReturns: nat, clears: nat, commits: nat, faults: nat,
    ledgers: map<nat, Ledger>, episodes: seq<Stamp>)

  datatype Attempt = Attempt(name: StreamName, at: Time)

  datatype BatchMail = BatchMail(name: StreamName, ids: seq<nat>, at: Time)

  datatype Frozen = Frozen(at: Time, failures: map<nat, Time>)

  /** `attempts` are the batches that were sent for; `successes` are those that were reported, and
      the checks of a due stream that found nothing to report. */
  datatype MailLog = MailLog(
    attempts: seq<Attempt>, successes: set<Attempt>, accepted: set<BatchMail>, reported: map<StreamName, nat>,
    pauseAlerts: set<(nat, Stamp)>, frozen: seq<Frozen>, stale: nat)

  datatype World = World(
    db: Db, clock: Time, now: Time, checking: bool,
    phase: Phase, notifier: Notifier, normalizers: seq<StoredEvent>,
    hub: Hub, crm: CrmLog, mail: MailLog)

  /** The configuration and libraries of one deployment. */
  datatype Site = Site(settings: Settings, lib: Library)

  predicate ValidSite(site: Site) { ValidSettings(site.settings) }

  ghost predicate Init(w: World) {
    && w.db == EMPTY_DB && w.now <= w.clock
    && w.phase == Idle && w.notifier == Quiet && w.normalizers == []
    && w.hub.calls == []
    && (forall c | c in w.hub.contacts :: EmailSet(w.hub.contacts[c].email) <= w.hub.contacts[c].everEmails)
    && w.crm == CrmLog(0, 0, 0, 0, 0, map[], [])
    && w.mail == MailLog([], {}, {}, map[], {}, [], 0)
  }

  // ---------- steps ----------

  datatype CrmStep =
    | Prepare(gate: Gate, candidate: Option<nat>)
    | TryClaim(gate: Gate, result: Result<Claim, DeliveryError>)
    | SendCreate
    | CreateOutcome(response: RawCreate)
    | FollowUpRead(raw: RawRead)
    | CommitCreate
    | CommitDecision
    | EvidenceRead(raw: RawRead)
    | CommitEvidence

  datatype IntakeStep =
    | Persist(source: string, eventId: string, payload: RawPayload, outcome: Persisted)
    | ClaimEvent(claimed: Option<StoredEvent>)
    | RecoverEvent(recovery: Recovery)
    | Normalize(k: nat, result: Result<NormalizationOutcome, NormalizationError>)
    | AbandonNormalizer(k: nat, burned: bool)

  datatype NotifyStep =
    | StartFailures(name: StreamName, start: BatchStart)
    | StartPause
    | StartClustered(episode: Option<Episode>)
    | SmtpAnswer(error: Option<string>)
    | Finish

  datatype OutsideStep =
    | Tick(to: Time)
    | BeginCheck | BeginCycle     // the worker samples its clock
    | Abandon                     // a crash, or an exception the loop survives
    | Land(call: nat, contactId: string)
    | AddContact(contactId: string, contact: Contact)
    | EditEmail(contactId: string, email: Option<string>)
    | Archive(contactId: string)
    | OperatorClear

  datatype Step = Crm(c: CrmStep) | Intake(i: IntakeStep) | Notify(n: NotifyStep) | Outside(o: OutsideStep)

  // ---------- CRM ----------

  function LedgerOf(log: CrmLog, id: nat): Ledger {
    if id in log.ledgers then log.ledgers[id] else Ledger(0, 0, 0)
  }

  function LogGate(log: CrmLog, gate: Gate): CrmLog {
    if !gate.Recovered? then log
    else
      var l := LedgerOf(log, gate.lead);
      log.(commits := log.commits + 1, ledgers := log.ledgers[gate.lead := l.(uncertain := l.uncertain + 1)])
  }

  /** The bookkeeping of one committed result for lead `id`. */
  function LogCommit(
      log: CrmLog, id: nat, before: Delivery, after: Delivery, action: Action,
      pauseBefore: Pause, pauseAfter: Pause): CrmLog
  {
    var l := LedgerOf(log, id);
    var returned := if after.status == Pending then 1 else 0;
    var uncertain := if before.status == Sending && after.status == Unknown then 1 else 0;
    var evidence := if before.status == Unknown && action != PauseActivated then 1 else 0;
    log.(commits := log.commits + 1,
         pauseReturns := log.pauseReturns + returned,
         ledgers := log.ledgers[id := Ledger(l.returned + returned, l.uncertain + uncertain, l.evidence + evidence)],
         episodes := log.episodes + NewEpisode(pauseBefore, pauseAfter))
  }

  function NewEpisode(before: Pause, after: Pause): seq<Stamp> {
    if !before.paused && after.paused && after.reason.Some? && after.pausedAt.Some?
    then [Stamp(after.reason.value, after.pausedAt.value)] else []
  }

  function AfterCreate(lead: nat, contact: ContactInput, result: CreateResult): Phase {
    match result.category
    case BadRequestRequiresClassification => ReadingAfter400(lead, contact)
    case ConflictRequiresLookup => ReadingAfter409(lead, contact)
    case _ => HoldingCreate(lead, result)
  }

  function AfterFollowUp(phase: Phase, read: ReadResult): Phase {
    match phase
    case ReadingAfter400(lead, contact) => HoldingDecision(lead, ClassifyBadRequest(contact, read))
    case ReadingAfter409(lead, contact) =>
      var decision := ClassifyConflictByReference(contact, read);
      if decision.Some? then HoldingDecision(lead, decision.value)
      else if contact.email.Some? then ReadingEmail(lead, contact.email.value)
      else Idle
    case ReadingEmail(lead, email) => HoldingDecision(lead, ClassifyConflictByEmail(email, read))
    case _ => phase
  }

  /** A result transaction either commits and is logged, or faults and changes nothing; the
      worker's memory of the result is gone either way. */
  ghost predicate CommitStep(w: World, id: nat, outcome: Result<(Db, Action), DeliveryError>, w': World) {
    match outcome
    case Ok((db, action)) =>
      && id in w.db.leads && id in db.leads
      && w' == w.(db := db, phase := Idle,
                  crm := LogCommit(w.crm, id, w.db.leads[id].crm, db.leads[id].crm, action, w.db.pause, db.pause))
    case Err(_) => w' == w.(phase := Idle, crm := w.crm.(faults := w.crm.faults + 1))
  }

  /** The single worker thread is free for new CRM work. */
  predicate CanStartCrm(w: World) { w.phase == Idle && w.notifier == Quiet && !w.checking }

  ghost predicate CrmNext(site: Site, w: World, step: CrmStep, w': World) {
    var lease := site.settings.leaseSeconds;
    match step
    case Prepare(gate, candidate) =>
      && CanStartCrm(w)
      && PrepareTransaction(w.db, lease, w.now, w'.db, gate, candidate)
      && w' == w.(db := w'.db, crm := LogGate(w.crm, gate),
                  phase := if candidate.Some? then Reconciling(candidate.value) else Idle)
    case TryClaim(gate, result) =>
      && CanStartCrm(w)
      && ClaimTransaction(w.db, lease, w.now, w'.db, gate, result)
      && (match result
          case Ok(NoClaim) => w' == w.(db := w'.db, crm := LogGate(w.crm, gate))
          case Ok(Claimed(id, contact)) =>
            w' == w.(db := w'.db, phase := ClaimedCreate(id, contact),
                     crm := w.crm.(claims := w.crm.claims + 1, commits := w.crm.commits + 1))
          case Err(_) => w' == w.(crm := w.crm.(faults := w.crm.faults + 1)))
    case SendCreate =>
      && w.phase.ClaimedCreate?
      && w' == w.(phase := Calling(w.phase.lead, w.phase.contact, |w.hub.calls|),
                  hub := w.hub.(calls := w.hub.calls + [Call(w.phase.lead, w.phase.contact, InFlight, None)]))
    case CreateOutcome(raw) =>
      && w.phase.Calling? && w.phase.call < |w.hub.calls|
      // The environment assumption: these outcomes mean that the request made no contact and
      // never will. Every other outcome says nothing about the request.
      && (NoContactMade(raw) ==> w.hub.calls[w.phase.call].fate == InFlight)
      && w' == w.(phase := AfterCreate(w.phase.lead, w.phase.contact, ClassifyCreate(raw)),
                  hub := Heard(w.hub, w.phase.call, raw))
    case FollowUpRead(raw) =>
      && (w.phase.ReadingAfter400? || w.phase.ReadingAfter409? || w.phase.ReadingEmail?)
      && w' == w.(phase := AfterFollowUp(w.phase, ClassifyRead(raw)))
    case CommitCreate =>
      && w.phase.HoldingCreate?
      && CommitStep(w, w.phase.lead,
           CreateResultTransaction(w.db, w.phase.lead, w.phase.result, site.settings, site.lib.httpDate, w.now), w')
    case CommitDecision =>
      && w.phase.HoldingDecision?
      && CommitStep(w, w.phase.lead, DecisionTransaction(w.db, w.phase.lead, w.phase.decision, w.now), w')
    case EvidenceRead(raw) =>
      && w.phase.Reconciling?
      && w' == w.(phase := HoldingEvidence(w.phase.lead, ClassifyRead(raw)))
    case CommitEvidence =>
      && w.phase.HoldingEvidence?
      && CommitStep(w, w.phase.lead,
           EvidenceTransaction(w.db, w.phase.lead, w.phase.read, site.settings, site.lib.httpDate, w.now), w')
  }

  /** The client has reported on a request. */
  function Heard(hub: Hub, call: nat, raw: RawCreate): Hub
    requires call < |hub.calls|
  {
    var c := hub.calls[call].(answer := Some(raw));
    hub.(calls := hub.calls[call := if NoContactMade(raw) then c.(fate := Refused) else c])
  }

  function SetFate(hub: Hub, call: nat, fate: Fate): Hub
    requires call < |hub.calls|
  {
    hub.(calls := hub.calls[call := hub.calls[call].(fate := fate)])
  }

  // ---------- intake ----------

  function Without<T>(s: seq<T>, k: nat): seq<T>
    requires k < |s|
  {
    s[..k] + s[k + 1..]
  }

  ghost predicate IntakeNext(site: Site, w: World, step: IntakeStep, w': World) {
    match step
    case Persist(source, eventId, payload, outcome) =>
      && PersistTransaction(w.db, source, eventId, payload, w.clock, w'.db, outcome)
      && w' == w.(db := w'.db)
    case ClaimEvent(claimed) =>
      && ClaimEventTransaction(w.db, w.now, w'.db, claimed)
      && w' == w.(db := w'.db,
                  normalizers := if claimed.Some? then w.normalizers + [claimed.value] else w.normalizers)
    case RecoverEvent(recovery) =>
      && RecoverEventTransaction(w.db, site.settings.leaseSeconds, w.now, w'.db, recovery)
      && w' == w.(db := w'.db)
    case Normalize(k, result) =>
      && k < |w.normalizers|
      && NormalizeTransaction(w.db, w.normalizers[k], site.lib, w.clock, w'.db, result)
      && w' == w.(db := w'.db, normalizers := Without(w.normalizers, k))
    case AbandonNormalizer(k, burned) =>
      && k < |w.normalizers|
      && w' == w.(normalizers := Without(w.normalizers, k),
                  db := if burned then w.db.(nextLeadId := w.db.nextLeadId + 1) else w.db)
  }

  // ---------- notifications ----------

  function Failures(leads: Leads, ids: set<nat>): map<nat, Time> {
    map id | id in ids && id in leads && leads[id].crm.lastTechnicalFailureAt.Some? ::
      leads[id].crm.lastTechnicalFailureAt.value
  }

  function Count(reported: map<StreamName, nat>, name: StreamName): nat {
    if name in reported then reported[name] else 0
  }

  function Reported(mail: MailLog, name: StreamName, at: Time): MailLog {
    mail.(reported := mail.reported[name := Count(mail.reported, name) + 1],
          successes := mail.successes + {Attempt(name, at)})
  }

  ghost predicate NotifyNext(site: Site, w: World, step: NotifyStep, w': World) {
    match step
    case StartFailures(name, start) =>
      && w.checking && w.notifier == Quiet
      && StartBatch(w.db, name, w.now, site.settings, w'.db, start)
      && (if start.Selected? then
            w' == w.(db := w'.db, notifier := SendingBatch(name, start.ids, w.now),
                     mail := w.mail.(attempts := w.mail.attempts + [Attempt(name, w.now)]))
          else if start.Empty? then
            w' == w.(db := w'.db, mail := w.mail.(successes := w.mail.successes + {Attempt(name, w.now)}))
          else w' == w.(db := w'.db))
    case StartPause =>
      && w.phase == Idle && w.notifier == Quiet
      && (match StartPauseAlert(w.db.pause)
          case Capture(stamp) => w' == w.(notifier := SendingPause(stamp, |w.crm.episodes|, w.now))
          case NoAlert => w' == w
          case Inconsistent => w' == w.(crm := w.crm.(faults := w.crm.faults + 1)))
    case StartClustered(episode) =>
      && w.checking && w.notifier == Quiet
      && StartCluster(w.db.leads, site.settings, w.now, w'.db.leads, episode)
      && w'.db == w.db.(leads := w'.db.leads)
      && w' == w.(db := w'.db,
                  notifier := if episode.Some? then SendingCluster(episode.value) else Quiet,
                  mail := if w'.db.leads == w.db.leads then w.mail
                          else
                            var f := Frozen(w.now, Failures(w.db.leads, PendingAt(w'.db.leads, w.now)));
                            w.mail.(frozen := w.mail.frozen + [f]))
    case SmtpAnswer(error) =>
      (match w.notifier
       case SendingBatch(name, ids, at) =>
         w' == w.(notifier := SentBatch(name, ids, at, error),
                  mail := if error.None? then w.mail.(accepted := w.mail.accepted + {BatchMail(name, ids, at)})
                          else w.mail)
       case SendingPause(stamp, number, at) =>
         w' == w.(notifier := SentPause(stamp, number, at, error),
                  mail := if error.None? then w.mail.(pauseAlerts := w.mail.pauseAlerts + {(number, stamp)})
                          else w.mail)
       case SendingCluster(episode) => w' == w.(notifier := SentCluster(episode, error))
       case _ => false)
    case Finish =>
      (match w.notifier
       case SentBatch(name, ids, at, error) =>
         w' == w.(db := FinishBatch(w.db, name, ids, at, error), notifier := Quiet,
                  mail := if error.None? then Reported(w.mail, name, at) else w.mail)
       case SentPause(stamp, _, at, error) =>
         w' == w.(db := w.db.(pause := FinishPauseAlert(w.db.pause, stamp, at, error).0), notifier := Quiet)
       case SentCluster(episode, error) =>
         var (leads, action) := FinishCluster(w.db.leads, episode, error.None?);
         w' == w.(db := w.db.(leads := leads), notifier := Quiet,
                  mail := if action == StaleEpisode then w.mail.(stale := w.mail.stale + 1) else w.mail)
       case _ => false)
  }

  // ---------- everything else ----------

  function EmailSet(email: Option<string>): set<string> { if email.Some? then {email.value} else {} }

  ghost predicate OutsideNext(w: World, step: OutsideStep, w': World) {
    match step
    case Tick(to) => to >= w.clock && w' == w.(clock := to)
    case BeginCheck => w.phase == Idle && w.notifier == Quiet && w' == w.(now := w.clock, checking := true)
    case BeginCycle => w.phase == Idle && w.notifier == Quiet && w' == w.(now := w.clock, checking := false)
    case Abandon => w' == w.(phase := Idle, notifier := Quiet)
    case Land(call, contactId) =>
      && call < |w.hub.calls| && w.hub.calls[call].fate == InFlight && contactId !in w.hub.contacts
      && var c := w.hub.calls[call].contact;
         w' == w.(hub := SetFate(w.hub, call, Landed(contactId)).(contacts :=
           w.hub.contacts[contactId := Contact(Some(c.integrationReference), c.email, EmailSet(c.email), false)]))
    case AddContact(contactId, contact) =>
      && contactId !in w.hub.contacts && EmailSet(contact.email) <= contact.everEmails
      && w' == w.(hub := w.hub.(contacts := w.hub.contacts[contactId := contact]))
    case EditEmail(contactId, email) =>
      && contactId in w.hub.contacts
      && var c := w.hub.contacts[contactId];
         w' == w.(hub := w.hub.(contacts := w.hub.contacts[contactId :=
           c.(email := email, everEmails := c.everEmails + EmailSet(email))]))
    case Archive(contactId) =>
      && contactId in w.hub.contacts
      && w' == w.(hub := w.hub.(contacts := w.hub.contacts[contactId := w.hub.contacts[contactId].(archived := true)]))
    case OperatorClear =>
      w' == w.(db := w.db.(pause := ClearPause(w.db.pause)),
               crm := if w.db.pause.paused then w.crm.(clears := w.crm.clears + 1) else w.crm)
  }

  ghost predicate Next(site: Site, w: World, step: Step, w': World) {
    match step
    case Crm(c) => CrmNext(site, w, c, w')
    case Intake(i) => IntakeNext(site, w, i, w')
    case Notify(n) => NotifyNext(site, w, n, w')
    case Outside(o) => OutsideNext(w, o, w')
  }

  // ---------- runs ----------

  /** A finite run: an initial world, then one step after another. `r.w` is its last world. */
  datatype Run = Start(w: World) | Then(before: Run, step: Step, w: World)

  function First(r: Run): World {
    match r
    case Start(w) => w
    case Then(before, _, _) => First(before)
  }

  /** `early` is a prefix of `late`. */
  ghost predicate Prefix(early: Run, late: Run) {
    late == early || (late.Then? && Prefix(early, late.before))
  }

  ghost predicate StepAllowed(site: Site, r: Run) { r.Then? ==> Next(site, r.before.w, r.step, r.w) }

  /** Every step along the way is a step of the system. */
  ghost predicate Allowed(site: Site, r: Run) { forall p | Prefix(p, r) :: StepAllowed(site, p) }

  ghost predicate Valid(site: Site, r: Run) { Init(First(r)) && Allowed(site, r) }

  /** A run taken apart at its last step. */
  lemma LastStep(site: Site, r: Run)
    requires Allowed(site, r) && r.Then?
    ensures Allowed(site, r.before) && First(r.before) == First(r) && Next(site, r.before.w, r.step, r.w)
  {
    assert Prefix(r, r) && StepAllowed(site, r);
    forall p | Prefix(p, r.before) ensures StepAllowed(site, p) { assert Prefix(p, r); }
  }

  /** A run prolonged by one step. */
  lemma OneMoreStep(site: Site, r: Run, step: Step, w: World)
    requires Allowed(site, r) && Next(site, r.w, step, w)
    ensures Allowed(site, Then(r, step, w)) && First(Then(r, step, w)) == First(r)
  {
    var t := Then(r, step, w);
    forall p | Prefix(p, t) ensures StepAllowed(site, p) {
      if p != t { assert Prefix(p, r); }
    }
  }

  lemma {:induction false} PrefixOfValid(site: Site, early: Run, late: Run)
    requires Valid(site, late) && Prefix(early, late)
    ensures Valid(site, early)
  {
    if late != early {
      LastStep(site, late);
      PrefixOfValid(site, early, late.before);
    }
  }

  lemma {:induction false} PrefixTransitive(a: Run, b: Run, c: Run)
    requires Prefix(a, b) && Prefix(b, c)
    ensures Prefix(a, c)
    decreases c
  {
    if c != b { PrefixTransitive(a, b, c.before); }
  }
}
