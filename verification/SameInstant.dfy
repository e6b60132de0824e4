/** A run in which a failure meets a freeze at its own instant and is in no episode. */
module SameInstant {
  import opened Schema
  import opened Queries
  import opened CrmDelivery
  import opened Normalization
  import opened Notifications
  import opened System
  import opened ClusterCoverage
  import opened Overtaking
  import opened Scenarios
  import opened NotificationCheck

  /** Lead 1 is the only lead, can be delivered, and nothing is under way. */
  ghost predicate LoneLead(w: World, d: Delivery, n: Notice) {
    && w.db.leads.Keys == {1} && w.db.leads[1].crm == d && w.db.leads[1].notice == n
    && w.db.leads[1].identity.contact == ContactOf(Plain("a", "A"), Reference.ReferenceFor(1))
    && w.db.leads[1].identity.createdAt == 0
    && !w.db.pause.paused && w.phase == Idle && w.notifier == Quiet
  }

  lemma LoneLeadIsNext(w: World, d: Delivery, n: Notice)
    requires LoneLead(w, d, n) && !w.checking && Claimable(w.db.leads[1], w.now)
    ensures NextToClaim(w, 1)
  {
    PlainIsValid("a", 1);
    assert IsLeast(ClaimableKeys(w.db.leads, w.now), 1);
  }

  const FIRST: Time := 0
  const SECOND: Time := Seconds(60)

  /** The row of a lead whose first create was refused, and the one after the second refusal. */
  function Once(): Delivery { RefusedRow(Everyone("A"), NEW_DELIVERY, FIRST) }

  function Twice(): Delivery { RefusedRow(Everyone("A"), Once(), SECOND) }

  /** Lead 1 is delivered and its create refused, all at the first instant. */
  lemma FirstFailure() returns (r: Run)
    ensures Valid(Everyone("A"), r) && LoneLead(r.w, Once(), NEW_NOTICE)
    ensures r.w.clock == FIRST && !r.w.checking && r.w.mail.frozen == []
  {
    var site := Everyone("A");
    r := Beginning(site, "a");
    EveryoneIsAccepted("a", "A");
    r := OneDelivery(site, r, "a", Plain("a", "A"), 0);
    DeliveredAlone(r.w);
    r := LoneRefusal(site, r, NEW_DELIVERY, NEW_NOTICE);
  }

  lemma DeliveredAlone(w: World)
    requires w == Normalizing(IDLE, "a", Plain("a", "A"), 0)
    ensures LoneLead(w, NEW_DELIVERY, NEW_NOTICE) && !w.checking && w.now == FIRST && w.clock == FIRST
    ensures w.mail.frozen == []
  {
  }

  /** The create of the one lead is refused. */
  lemma LoneRefusal(site: Site, r: Run, d: Delivery, n: Notice) returns (t: Run)
    requires Valid(site, r) && LoneLead(r.w, d, n) && !r.w.checking
    requires Claimable(r.w.db.leads[1], r.w.now) && d.retries < 3
    ensures Valid(site, t) && LoneLead(t.w, RefusedRow(site, d, r.w.now), n)
    ensures t.w.clock == r.w.clock && !t.w.checking && t.w.mail == r.w.mail
  {
    LoneLeadIsNext(r.w, d, n);
    RefusedWorld(site, r.w, 1);
    t := RefusedCreate(site, r, 1, 0);
  }

  /** A minute passes and a check begins. */
  lemma MinuteLater(site: Site, r: Run) returns (t: Run)
    requires Valid(site, r) && r.w.phase == Idle && r.w.notifier == Quiet && r.w.clock <= SECOND
    ensures Valid(site, t) && t.w == r.w.(clock := SECOND, now := SECOND, checking := true)
  {
    OneMoreStep(site, r, Outside(Tick(SECOND)), r.w.(clock := SECOND));
    t := Then(r, Outside(Tick(SECOND)), r.w.(clock := SECOND));
    OneMoreStep(site, t, Outside(BeginCheck), r.w.(clock := SECOND, now := SECOND, checking := true));
    t := Then(t, Outside(BeginCheck), r.w.(clock := SECOND, now := SECOND, checking := true));
  }

  const EPISODE: Episode := Episode(SECOND, {1})

  function FrozenDb(w: World): Db { w.db.(leads := Freeze(w.db.leads, {1}, SECOND)) }

  lemma LoneLeadFreezes(w: World)
    requires LoneLead(w, Once(), NEW_NOTICE) && w.now == SECOND
    ensures StartCluster(w.db.leads, SETTINGS, SECOND, FrozenDb(w).leads, Some(EPISODE))
  {
    assert Qualifying(w.db.leads, SECOND - Seconds(SETTINGS.clusterWindow)) == {1};
    assert PendingKeys(w.db.leads) == map[];
  }

  lemma WhatIsFrozen(w: World)
    requires LoneLead(w, Once(), NEW_NOTICE)
    ensures FrozenDb(w).leads != w.db.leads && PendingAt(FrozenDb(w).leads, SECOND) == {1}
    ensures Failures(w.db.leads, {1}) == map[1 := FIRST]
  {
    assert FrozenDb(w).leads[1] != w.db.leads[1];
  }

  /** The world after the report. */
  function Reported(w: World): World {
    ClusterFinished(ClusterAnswered(ClusterStarted(w, FrozenDb(w), Some(EPISODE)), None))
  }

  lemma WhatIsReported(w: World)
    requires LoneLead(w, Once(), NEW_NOTICE) && Checking(w) && w.now == SECOND && w.mail.frozen == []
    ensures LoneLead(Reported(w), Once(), NEW_NOTICE.(clusterAlertedAt := Some(SECOND)))
    ensures Reported(w).clock == w.clock && Reported(w).mail.frozen == [Frozen(SECOND, map[1 := FIRST])]
  {
    WhatIsFrozen(w);
    assert PendingAt(FrozenDb(w).leads, SECOND) * {1} == {1};
  }

  /** The check freezes lead 1 for its first failure and reports it. */
  lemma ReportedCheck(site: Site, r: Run) returns (t: Run)
    requires Valid(site, r) && site.settings == SETTINGS && Checking(r.w) && r.w.now == SECOND
    requires LoneLead(r.w, Once(), NEW_NOTICE)
    ensures Valid(site, t) && t.w == Reported(r.w)
  {
    var w, db := r.w, FrozenDb(r.w);
    LoneLeadFreezes(w);
    ClusterSteps(site, w, db, Some(EPISODE), None);
    var w1 := ClusterStarted(w, db, Some(EPISODE));
    OneMoreStep(site, r, Notify(StartClustered(Some(EPISODE))), w1);
    t := Then(r, Notify(StartClustered(Some(EPISODE))), w1);
    OneMoreStep(site, t, Notify(SmtpAnswer(None)), ClusterAnswered(w1, None));
    t := Then(t, Notify(SmtpAnswer(None)), ClusterAnswered(w1, None));
    OneMoreStep(site, t, Notify(Finish), Reported(w));
    t := Then(t, Notify(Finish), Reported(w));
  }

  /** The cycle after the check refuses the create again, before the clock has moved. */
  lemma SecondFailure(site: Site, r: Run, n: Notice) returns (t: Run)
    requires Valid(site, r) && site == Everyone("A") && LoneLead(r.w, Once(), n) && r.w.clock == SECOND
    ensures Valid(site, t) && LoneLead(t.w, Twice(), n) && t.w.mail == r.w.mail
  {
    var w := r.w.(now := SECOND, checking := false);
    OneMoreStep(site, r, Outside(BeginCycle), w);
    t := Then(r, Outside(BeginCycle), w);
    t := LoneRefusal(site, t, Once(), n);
  }

  /** The failure at `t` is lost: its lead neither qualifies nor is in an episode for it. */
  ghost predicate Lost(w: World, id: nat, t: Time) {
    && HasFailure(w, id, t) && !Uncovered(w.db.leads[id]) && w.db.leads[id].notice.clusterPendingAt.None?
    && forall k | 0 <= k < |w.mail.frozen| :: !Takes(w.mail.frozen[k], id, t)
  }

  /** The exception occurs: two failures of one lead, the second at the instant of the freeze that
      took the first, and the second is lost. */
  lemma FailureCanMeetItsFreeze() returns (site: Site, r: Run)
    ensures ValidSite(site) && Valid(site, r) && Lost(r.w, 1, SECOND) && MetFreeze(r.w.mail.frozen, 1, SECOND)
  {
    site := Everyone("A");
    r := FirstFailure();
    r := MinuteLater(site, r);
    WhatIsReported(r.w);
    r := ReportedCheck(site, r);
    r := SecondFailure(site, r, NEW_NOTICE.(clusterAlertedAt := Some(SECOND)));
    SecondIsLost(r.w);
  }

  lemma SecondIsLost(w: World)
    requires LoneLead(w, Twice(), NEW_NOTICE.(clusterAlertedAt := Some(SECOND)))
    requires w.mail.frozen == [Frozen(SECOND, map[1 := FIRST])]
    ensures Lost(w, 1, SECOND) && MetFreeze(w.mail.frozen, 1, SECOND)
  {
    assert HoldsEarlier(w.mail.frozen[0], 1, SECOND);
  }
}
