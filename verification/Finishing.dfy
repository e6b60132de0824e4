/** Which stored events can still be finished: exactly those whose payload does not make
    normalization raise. */
module Finishing {
  import opened Schema
  import opened Queries
  import opened Normalization
  import opened System
  import opened DeliverySafety
  import opened ClaimQueue
  import opened EndToEnd
  import opened Scenarios

  // ---------- when processing started ----------

  /** An event in PROCESSING was claimed at some past instant. */
  ghost predicate Started(events: map<nat, Event>, clock: Time) {
    forall e | e in events && events[e].status == Processing ::
      events[e].processingStartedAt.Some? && events[e].processingStartedAt.value <= clock
  }

  lemma IntakeKeepsStarted(site: Site, w: World, step: IntakeStep, w': World)
    requires Started(w.db.events, w.clock) && w.now <= w.clock && IntakeNext(site, w, step, w')
    ensures Started(w'.db.events, w'.clock)
  {
    match step
    case RecoverEvent(recovery) =>
      if !recovery.NoRecovery? { assert recovery.event in StaleKeys(w.db, site.settings.leaseSeconds, w.now); }
    case _ =>
  }

  lemma StepKeepsStarted(site: Site, w: World, step: Step, w': World)
    requires Safe(w) && TimesOk(w) && Started(w.db.events, w.clock) && Next(site, w, step, w')
    ensures Started(w'.db.events, w'.clock)
  {
    match step
    case Crm(c) =>
      CrmFrame(site, w, c, w');
      CrmLeavesClock(site, w, c, w');
    case Intake(i) => IntakeKeepsStarted(site, w, i, w');
    case Notify(n) => NotifyKeepsStarted(site, w, n, w');
    case Outside(o) => OutsideKeepsStarted(w, o, w');
  }

  lemma NotifyKeepsStarted(site: Site, w: World, step: NotifyStep, w': World)
    requires Started(w.db.events, w.clock) && NotifyNext(site, w, step, w')
    ensures Started(w'.db.events, w'.clock)
  {
    NotifyFrame(site, w, step, w');
    NotifyLeavesClock(site, w, step, w');
  }

  lemma NotifyLeavesClock(site: Site, w: World, step: NotifyStep, w': World)
    requires NotifyNext(site, w, step, w')
    ensures w'.clock == w.clock
  {
  }

  lemma OutsideKeepsStarted(w: World, step: OutsideStep, w': World)
    requires Started(w.db.events, w.clock) && OutsideNext(w, step, w')
    ensures Started(w'.db.events, w'.clock)
  {
    OutsideFrame(w, step, w');
    assert w'.clock >= w.clock;
  }

  lemma {:induction false} RunStarted(site: Site, r: Run)
    requires Valid(site, r)
    ensures Ready(r.w, site.lib) && Started(r.w.db.events, r.w.clock)
  {
    RunsAreReady(site, r);
    if r.Then? {
      LastStep(site, r);
      RunStarted(site, r.before);
      StepKeepsStarted(site, r.before.w, r.step, r.w);
    }
  }

  // ---------- a way to the end ----------

  /** `t` continues `r`, and the lead sequence has not moved. */
  ghost predicate Goes(site: Site, r: Run, t: Run) {
    Valid(site, t) && Prefix(r, t) && t.w.db.nextLeadId == r.w.db.nextLeadId
  }

  lemma GoOn(site: Site, r: Run, t: Run, step: Step, w: World)
    requires Goes(site, r, t) && Next(site, t.w, step, w) && w.db.nextLeadId == t.w.db.nextLeadId
    ensures Goes(site, r, Then(t, step, w))
  {
    OneMoreStep(site, t, step, w);
  }

  lemma {:induction false} LeastExists(keys: Keys) returns (id: nat)
    requires keys != map[]
    ensures IsLeast(keys, id)
    decreases keys.Keys
  {
    var some: nat :| some in keys;
    var rest := keys - {some};
    id := some;
    if rest != map[] {
      assert rest.Keys < keys.Keys;
      var first := LeastExists(rest);
      if Precedes(keys[first], first, keys[some], some) { id := first; }
      forall j | j in keys ensures Precedes(keys[id], id, keys[j], j) {
        if j in rest { assert Precedes(rest[first], first, rest[j], j); }
      }
    } else {
      forall j | j in keys ensures j == some { assert j != some ==> j in rest; }
    }
  }

  /** The thread drops its work, and the lease of everything in PROCESSING runs out. */
  lemma LeasesRunOut(site: Site, r: Run) returns (t: Run)
    requires Valid(site, r) && ValidSite(site)
    ensures Goes(site, r, t) && t.w.db == r.w.db
    ensures forall e | e in t.w.db.events && t.w.db.events[e].status == Processing ::
      e in StaleKeys(t.w.db, site.settings.leaseSeconds, t.w.now)
  {
    RunStarted(site, r);
    var w1 := r.w.(phase := Idle, notifier := Quiet);
    var to := r.w.clock + Seconds(site.settings.leaseSeconds) + 1;
    GoOn(site, r, r, Outside(Abandon), w1);
    t := Then(r, Outside(Abandon), w1);
    GoOn(site, r, t, Outside(Tick(to)), w1.(clock := to));
    t := Then(t, Outside(Tick(to)), w1.(clock := to));
    GoOn(site, r, t, Outside(BeginCycle), t.w.(now := to, checking := false));
    t := Then(t, Outside(BeginCycle), t.w.(now := to, checking := false));
  }

  function Reset(w: World, e: nat): World
    requires e in w.db.events
  {
    w.(db := w.db.(events := w.db.events[e :=
         w.db.events[e].(status := Received, processingStartedAt := None, completedAt := None)]))
  }

  lemma ResetStep(site: Site, w: World, m: nat)
    requires IsLeast(StaleKeys(w.db, site.settings.leaseSeconds, w.now), m) && !HasLead(w.db.leads, m)
    ensures m in w.db.events && Next(site, w, Intake(RecoverEvent(ResetToReceived(m))), Reset(w, m))
    ensures var keys, keys' := StaleKeys(w.db, site.settings.leaseSeconds, w.now),
                               StaleKeys(Reset(w, m).db, site.settings.leaseSeconds, w.now);
      |keys'| < |keys| && forall e | e in keys && e != m :: e in keys'
  {
    var keys := StaleKeys(w.db, site.settings.leaseSeconds, w.now);
    var keys' := StaleKeys(Reset(w, m).db, site.settings.leaseSeconds, w.now);
    assert m in keys;
    assert keys'.Keys == keys.Keys - {m};
    assert |keys'.Keys| < |keys.Keys|;
  }

  /** Recovery reaches every stale event, oldest first. */
  lemma {:induction false} IsReset(site: Site, r: Run, t: Run, e: nat) returns (u: Run)
    requires Goes(site, r, t) && e in StaleKeys(t.w.db, site.settings.leaseSeconds, t.w.now)
    ensures Goes(site, r, u) && e in u.w.db.events && u.w.db.events[e].status == Received
    decreases |StaleKeys(t.w.db, site.settings.leaseSeconds, t.w.now)|
  {
    var lease, w := site.settings.leaseSeconds, t.w;
    var keys := StaleKeys(w.db, lease, w.now);
    var m := LeastExists(keys);
    RunStarted(site, t);
    UnfinishedHasNoLead(w, m, site.lib);
    var w' := Reset(w, m);
    ResetStep(site, w, m);
    GoOn(site, r, t, Intake(RecoverEvent(ResetToReceived(m))), w');
    u := Then(t, Intake(RecoverEvent(ResetToReceived(m))), w');
    if m != e { u := IsReset(site, r, u, e); }
  }

  function Claimed'(w: World, e: nat): World
    requires e in w.db.events
  {
    w.(db := w.db.(events := w.db.events[e :=
         w.db.events[e].(status := Processing, processingStartedAt := Some(w.now), completedAt := None)]),
       normalizers := w.normalizers + [StoredFrom(w.db, e)])
  }

  /** The event is in PROCESSING and in the hands of the last normalizer. */
  ghost predicate InHandLast(w: World, e: nat) {
    && e in w.db.events && w.db.events[e].status == Processing
    && w.normalizers != [] && w.normalizers[|w.normalizers| - 1].id == e
  }

  /** Claiming reaches every RECEIVED event, oldest first. */
  lemma {:induction false} IsClaimed(site: Site, r: Run, t: Run, e: nat) returns (u: Run)
    requires Goes(site, r, t) && e in ReceivedKeys(t.w.db)
    ensures Goes(site, r, u) && InHandLast(u.w, e)
    decreases |ReceivedKeys(t.w.db)|
  {
    var w := t.w;
    var keys := ReceivedKeys(w.db);
    var m := LeastExists(keys);
    var w' := Claimed'(w, m);
    assert Next(site, w, Intake(ClaimEvent(Some(StoredFrom(w.db, m)))), w');
    GoOn(site, r, t, Intake(ClaimEvent(Some(StoredFrom(w.db, m)))), w');
    u := Then(t, Intake(ClaimEvent(Some(StoredFrom(w.db, m)))), w');
    if m != e {
      var keys' := ReceivedKeys(w'.db);
      assert keys'.Keys == keys.Keys - {m};
      assert |keys'.Keys| < |keys.Keys|;
      u := IsClaimed(site, r, u, e);
    }
  }

  /** What is left to do in the hands of the last normalizer. */
  function NormalizedDb(w: World, e: nat, lib: Library): Db
    requires e in w.db.events
  {
    match VerdictOf(w.db.events[e], lib)
    case Raised => w.db
    case Rejected(fault) => MarkFailed(w.db, e, fault, w.clock)
    case Accepted(data) => InsertLead(w.db, StoredFrom(w.db, e), data, w.clock)
  }

  lemma LastNormalizes(site: Site, w: World, e: nat)
    requires Ready(w, site.lib) && InHandLast(w, e) && w.db.nextLeadId <= Reference.MAX_BIGINT
    ensures var k, result := |w.normalizers| - 1, PlainOutcome(VerdictOf(w.db.events[e], site.lib), w.db.nextLeadId);
      Next(site, w, Intake(Normalize(k, result)),
           w.(db := NormalizedDb(w, e, site.lib), normalizers := Without(w.normalizers, k)))
  {
    UnfinishedHasNoLead(w, e, site.lib);
    NoClash(w);
    assert w.normalizers[|w.normalizers| - 1] == StoredFrom(w.db, e);
  }

  // ---------- exactly which events ----------

  /** Some continuation finishes the event. */
  ghost predicate CanFinish(site: Site, r: Run, e: nat) {
    exists t :: Valid(site, t) && Prefix(r, t) && FinishedIn(t.w, e)
  }

  ghost predicate FinishedIn(w: World, e: nat) { e in w.db.events && Finished(w.db.events[e]) }

  lemma SameVerdict(site: Site, early: Run, late: Run, e: nat)
    requires Valid(site, late) && Prefix(early, late) && e in early.w.db.events
    ensures e in late.w.db.events
    ensures VerdictOf(late.w.db.events[e], site.lib) == VerdictOf(early.w.db.events[e], site.lib)
  {
    StoredDeliveriesAreFinal(site, early, late);
    assert Preserved(early.w.db.events[e], late.w.db.events[e]);
  }

  /** The last normalizer finishes its event. */
  lemma HandFinishes(site: Site, r: Run, e: nat) returns (t: Run)
    requires Valid(site, r) && InHandLast(r.w, e) && r.w.db.nextLeadId <= Reference.MAX_BIGINT
    requires !VerdictOf(r.w.db.events[e], site.lib).Raised?
    ensures Valid(site, t) && Prefix(r, t) && FinishedIn(t.w, e)
  {
    var w := r.w;
    RunsAreReady(site, r);
    LastNormalizes(site, w, e);
    var k, result := |w.normalizers| - 1, PlainOutcome(VerdictOf(w.db.events[e], site.lib), w.db.nextLeadId);
    var w' := w.(db := NormalizedDb(w, e, site.lib), normalizers := Without(w.normalizers, k));
    NormalizedIsFinished(w, e, site.lib);
    OneMoreStep(site, r, Intake(Normalize(k, result)), w');
    t := Then(r, Intake(Normalize(k, result)), w');
  }

  lemma NormalizedIsFinished(w: World, e: nat, lib: Library)
    requires e in w.db.events && !VerdictOf(w.db.events[e], lib).Raised?
    ensures var events := NormalizedDb(w, e, lib).events; e in events && Finished(events[e])
  {
  }

  /** Every unfinished event gets into the hands of a normalizer. */
  lemma WayToHand(site: Site, r: Run, e: nat) returns (t: Run)
    requires Valid(site, r) && ValidSite(site) && e in r.w.db.events && !Finished(r.w.db.events[e])
    ensures Goes(site, r, t) && InHandLast(t.w, e)
  {
    t := LeasesRunOut(site, r);
    if t.w.db.events[e].status == Processing { t := IsReset(site, r, t, e); }
    t := IsClaimed(site, r, t, e);
  }

  lemma WayToFinish(site: Site, r: Run, e: nat) returns (t: Run)
    requires Valid(site, r) && ValidSite(site) && e in r.w.db.events && !Finished(r.w.db.events[e])
    requires r.w.db.nextLeadId <= Reference.MAX_BIGINT && !VerdictOf(r.w.db.events[e], site.lib).Raised?
    ensures Valid(site, t) && Prefix(r, t) && FinishedIn(t.w, e)
  {
    var u := WayToHand(site, r, e);
    SameVerdict(site, r, u, e);
    t := HandFinishes(site, u, e);
    PrefixTransitive(r, u, t);
  }

  /** From any moment of any run, a stored event can still be finished if and only if its payload
      does not make normalization raise. */
  lemma CanFinishIff(site: Site, r: Run, e: nat)
    requires Valid(site, r) && ValidSite(site) && e in r.w.db.events
    requires r.w.db.nextLeadId <= Reference.MAX_BIGINT
    ensures CanFinish(site, r, e) <==> !VerdictOf(r.w.db.events[e], site.lib).Raised?
  {
    if CanFinish(site, r, e) {
      var t :| Valid(site, t) && Prefix(r, t) && FinishedIn(t.w, e);
      SameVerdict(site, r, t, e);
      if VerdictOf(t.w.db.events[e], site.lib).Raised? { RaisingEventsNeverFinish(site, t, e); }
    }
    if Finished(r.w.db.events[e]) {
      assert FinishedIn(r.w, e);
    } else if !VerdictOf(r.w.db.events[e], site.lib).Raised? {
      var t := WayToFinish(site, r, e);
    }
  }

  // ---------- a delivery that goes round for good ----------

  /** A deployment that receives the timestamp 0001-01-01T00:00:00+01:00. */
  const BEFORE_TIME_SITE: Site := Site(SETTINGS, Library(
    (source: string, payload: RawPayload) => Dated(BEFORE_TIME, Some(Plain(payload.json, "A"))),
    (text: string) => None, (text: string) => None))

  lemma RaisingStep(w: World, json: string)
    requires IntakeQuiet(w, json)
    ensures var w2 := InProcessing(w, json);
      Next(BEFORE_TIME_SITE, w2, Intake(Normalize(0, Err(PayloadRaised))), w2.(normalizers := []))
  {
    assert Without(InProcessing(w, json).normalizers, 0) == [];
  }

  /** One delivery with that timestamp: normalizing it raises, the event is left in PROCESSING,
      and no continuation ever finishes it. */
  lemma OneTimestampIsEnough() returns (r: Run)
    ensures Valid(BEFORE_TIME_SITE, r) && r.Then? && r.step == Intake(Normalize(0, Err(PayloadRaised)))
    ensures 1 in r.w.db.events && r.w.db.events[1].status == Processing && !CanFinish(BEFORE_TIME_SITE, r, 1)
  {
    var site, json := BEFORE_TIME_SITE, "a";
    r := Beginning(site, json);
    r := ClaimedDelivery(site, r, json);
    RaisingStep(IDLE, json);
    OneMoreStep(site, r, Intake(Normalize(0, Err(PayloadRaised))), InProcessing(IDLE, json).(normalizers := []));
    r := Then(r, Intake(Normalize(0, Err(PayloadRaised))), InProcessing(IDLE, json).(normalizers := []));
    CanFinishIff(site, r, 1);
  }
}
