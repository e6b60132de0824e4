/** The schedules of the two batch streams: attempts keep their distance, and neither stream
    moves the other. */
module FailureBatches {
  import opened Schema
  import opened Notifications
  import opened System
  import opened DeliverySafety

  // ---------- steps that touch neither stream ----------

  /** Which stream a notification step works on. */
  ghost predicate WorksOn(w: World, step: Step, name: StreamName) {
    && step.Notify?
    && match step.n
       case StartFailures(n, _) => n == name
       case Finish => w.notifier.SentBatch? && w.notifier.name == name
       case _ => false
  }

  lemma NotifyStreams(site: Site, w: World, step: NotifyStep, w': World, name: StreamName)
    requires NotifyNext(site, w, step, w') && !WorksOn(w, Notify(step), name)
    ensures StreamOf(w'.db, name) == StreamOf(w.db, name)
    ensures Count(w'.mail.reported, name) == Count(w.mail.reported, name)
  {
  }

  lemma OtherStreams(site: Site, w: World, step: Step, w': World, name: StreamName)
    requires Next(site, w, step, w') && !step.Notify?
    ensures StreamOf(w'.db, name) == StreamOf(w.db, name)
    ensures w'.mail == w.mail
    ensures w'.notifier == w.notifier || w'.notifier == Quiet
  {
    match step
    case Crm(c) => CrmStreams(site, w, c, w');
    case Intake(i) => IntakeLeads(site, w, i, w');
    case Outside(_) =>
  }

  lemma CrmStreams(site: Site, w: World, step: CrmStep, w': World)
    requires CrmNext(site, w, step, w')
    ensures w'.db.crmStream == w.db.crmStream && w'.db.normalizationStream == w.db.normalizationStream
    ensures w'.mail == w.mail && w'.notifier == w.notifier
  {
  }

  /** Neither stream's steps move the other stream's schedule: when stream `name` is due depends
      only on its own history. */
  lemma StreamsAreIndependent(site: Site, w: World, step: Step, w': World, name: StreamName, at: Time)
    requires Next(site, w, step, w') && !WorksOn(w, step, name)
    ensures StreamIsDue(StreamOf(w'.db, name), at, site.settings)
         == StreamIsDue(StreamOf(w.db, name), at, site.settings)
  {
    if step.Notify? { NotifyStreams(site, w, step.n, w', name); } else { OtherStreams(site, w, step, w', name); }
  }

  // ---------- the schedule ----------

  /** What is on record of a stream: the batches it sent for, and its checks that succeeded. */
  ghost predicate Logged(mail: MailLog, a: Attempt) { a in mail.attempts || a in mail.successes }

  /** How long a stream rests after an attempt: the batch interval after a success, the failure
      retry after a failure and after an attempt that was abandoned. */
  function Rest(mail: MailLog, a: Attempt, s: Settings): Time {
    Seconds(if a in mail.successes then s.batchInterval else s.failureRetry)
  }

  /** The attempt that the stream remembers is logged, every logged one is no later, and it came
      after the rest of each earlier one. */
  ghost predicate Remembers(mail: MailLog, name: StreamName, stream: Stream, s: Settings) {
    && (stream.lastAttemptAt.Some? ==> Logged(mail, Attempt(name, stream.lastAttemptAt.value)))
    && forall a | Logged(mail, a) && a.name == name ::
         && stream.lastAttemptAt.Some? && a.at <= stream.lastAttemptAt.value
         && (a.at < stream.lastAttemptAt.value ==> stream.lastAttemptAt.value >= a.at + Rest(mail, a, s))
  }

  /** The last attempt was a success exactly when the stream's columns say so. */
  ghost predicate Recorded(mail: MailLog, name: StreamName, stream: Stream) {
    && (stream.lastAttemptAt.None? ==> stream.lastSuccessAt.None? && stream.lastError.None?)
    && (stream.lastSuccessAt.Some? ==>
         stream.lastAttemptAt.Some? && stream.lastSuccessAt.value <= stream.lastAttemptAt.value)
    && (stream.lastAttemptAt.Some? ==>
         (Attempt(name, stream.lastAttemptAt.value) in mail.successes <==>
           stream.lastError.None? && stream.lastSuccessAt == stream.lastAttemptAt))
  }

  ghost predicate StreamOk(w: World, name: StreamName, s: Settings) {
    Remembers(w.mail, name, StreamOf(w.db, name), s) && Recorded(w.mail, name, StreamOf(w.db, name))
  }

  /** A batch in flight is the stream's last attempt, and not a success yet. */
  ghost predicate FlightOk(w: World) {
    match w.notifier
    case SendingBatch(name, _, at) =>
      StreamOf(w.db, name).lastAttemptAt == Some(at) && Attempt(name, at) !in w.mail.successes
    case SentBatch(name, _, at, _) =>
      StreamOf(w.db, name).lastAttemptAt == Some(at) && Attempt(name, at) !in w.mail.successes
    case _ => true
  }

  /** Two mail attempts of one stream are at least the rest of the first one apart. */
  ghost predicate Spaced(mail: MailLog, s: Settings) {
    forall i, j | 0 <= i < j < |mail.attempts| && mail.attempts[i].name == mail.attempts[j].name ::
      mail.attempts[j].at >= mail.attempts[i].at + Rest(mail, mail.attempts[i], s)
  }

  ghost predicate AttemptsOk(w: World, s: Settings) {
    && StreamOk(w, CrmFailures, s) && StreamOk(w, NormalizationFailures, s)
    && FlightOk(w) && Spaced(w.mail, s)
  }

  /** A stream is due exactly when every attempt on record has had its rest. */
  lemma DueMeaning(mail: MailLog, name: StreamName, stream: Stream, at: Time, s: Settings)
    requires ValidSettings(s) && Remembers(mail, name, stream, s) && Recorded(mail, name, stream)
    ensures StreamIsDue(stream, at, s) <==>
      forall a | Logged(mail, a) && a.name == name :: at >= a.at + Rest(mail, a, s)
  {
    if stream.lastAttemptAt.Some? {
      var last := Attempt(name, stream.lastAttemptAt.value);
      assert Logged(mail, last);
      assert StreamIsDue(stream, at, s) <==> at >= last.at + Rest(mail, last, s);
      forall a | Logged(mail, a) && a.name == name && at >= last.at + Rest(mail, last, s)
        ensures at >= a.at + Rest(mail, a, s)
      {
        assert a.at < last.at || a == last;
      }
    }
  }

  /** A new attempt or check of a due stream. */
  lemma NewAttempt(mail: MailLog, name: StreamName, stream: Stream, now: Time, s: Settings, empty: bool)
    requires ValidSettings(s) && Remembers(mail, name, stream, s) && Recorded(mail, name, stream)
    requires StreamIsDue(stream, now, s)
    ensures var a := Attempt(name, now);
      var mail' := if empty then mail.(successes := mail.successes + {a}) else mail.(attempts := mail.attempts + [a]);
      var stream' := if empty then Stream(Some(now), Some(now), None) else stream.(lastAttemptAt := Some(now));
      && !Logged(mail, a) && Remembers(mail', name, stream', s) && Recorded(mail', name, stream')
      && (Spaced(mail, s) ==> Spaced(mail', s))
  {
    DueMeaning(mail, name, stream, now, s);
    var a := Attempt(name, now);
    var mail' := if empty then mail.(successes := mail.successes + {a}) else mail.(attempts := mail.attempts + [a]);
    assert Logged(mail', a) by { if !empty { assert mail'.attempts[|mail.attempts|] == a; } }
    forall b | Logged(mail', b) && b != a ensures Logged(mail, b) && Rest(mail', b, s) == Rest(mail, b, s) {
    }
    if Spaced(mail, s) { NewIsSpaced(mail, a, mail', s); }
  }

  lemma NewIsSpaced(mail: MailLog, a: Attempt, mail': MailLog, s: Settings)
    requires Spaced(mail, s) && !Logged(mail, a)
    requires forall b | Logged(mail, b) && b.name == a.name :: a.at >= b.at + Rest(mail, b, s)
    requires || mail' == mail.(successes := mail.successes + {a})
             || mail' == mail.(attempts := mail.attempts + [a])
    ensures Spaced(mail', s)
  {
    forall i, j | 0 <= i < j < |mail'.attempts| && mail'.attempts[i].name == mail'.attempts[j].name
      ensures mail'.attempts[j].at >= mail'.attempts[i].at + Rest(mail', mail'.attempts[i], s)
    {
      assert mail'.attempts[i] == mail.attempts[i] && Logged(mail, mail.attempts[i]);
      assert mail.attempts[i] != a;
    }
  }

  /** A success is recorded for the last attempt. */
  lemma LastSucceeds(mail: MailLog, name: StreamName, stream: Stream, at: Time, s: Settings)
    requires Remembers(mail, name, stream, s) && Recorded(mail, name, stream) && stream.lastAttemptAt == Some(at)
    ensures var mail' := mail.(successes := mail.successes + {Attempt(name, at)});
      Remembers(mail', name, Stream(Some(at), Some(at), None), s)
      && Recorded(mail', name, Stream(Some(at), Some(at), None))
  {
    var mail' := mail.(successes := mail.successes + {Attempt(name, at)});
    assert forall a | Logged(mail', a) :: Logged(mail, a);
  }

  /** The last attempt of a stream is the last one logged for it. */
  lemma SuccessKeepsSpacing(mail: MailLog, name: StreamName, stream: Stream, at: Time, s: Settings)
    requires Spaced(mail, s) && Remembers(mail, name, stream, s) && stream.lastAttemptAt == Some(at)
    requires ValidSettings(s)
    ensures Spaced(mail.(successes := mail.successes + {Attempt(name, at)}), s)
  {
    var mail' := mail.(successes := mail.successes + {Attempt(name, at)});
    forall i, j | 0 <= i < j < |mail'.attempts| && mail'.attempts[i].name == mail'.attempts[j].name
      ensures mail'.attempts[j].at >= mail'.attempts[i].at + Rest(mail', mail'.attempts[i], s)
    {
      assert mail.attempts[j].at >= mail.attempts[i].at + Rest(mail, mail.attempts[i], s);
      assert Logged(mail, mail.attempts[j]);
      assert mail.attempts[i] != Attempt(name, at);
    }
  }

  /** What is recorded for one stream does not concern the other. */
  lemma OtherIsKept(mail: MailLog, mail': MailLog, other: StreamName, stream: Stream, s: Settings)
    requires Remembers(mail, other, stream, s) && Recorded(mail, other, stream)
    requires forall a: Attempt | a.name == other ::
      (Logged(mail', a) <==> Logged(mail, a)) && (a in mail'.successes <==> a in mail.successes)
    ensures Remembers(mail', other, stream, s) && Recorded(mail', other, stream)
  {
  }

  function Other(name: StreamName): StreamName {
    if name == CrmFailures then NormalizationFailures else CrmFailures
  }

  lemma StartKeepsAttempts(site: Site, w: World, name: StreamName, start: BatchStart, w': World)
    requires AttemptsOk(w, site.settings) && ValidSettings(site.settings)
    requires NotifyNext(site, w, StartFailures(name, start), w')
    ensures AttemptsOk(w', site.settings)
  {
    if !start.NotDue? {
      NewAttempt(w.mail, name, StreamOf(w.db, name), w.now, site.settings, start.Empty?);
      OtherIsKept(w.mail, w'.mail, Other(name), StreamOf(w.db, Other(name)), site.settings);
    }
  }

  /** What the second transaction of a batch leaves on record. */
  lemma FinishStreams(site: Site, w: World, w': World)
    requires w.notifier.SentBatch? && NotifyNext(site, w, Finish, w')
    ensures var n := w.notifier;
      && w'.notifier == Quiet && StreamOf(w'.db, Other(n.name)) == StreamOf(w.db, Other(n.name))
      && w'.mail == (if n.error.None? then Reported(w.mail, n.name, n.at) else w.mail)
      && StreamOf(w'.db, n.name) == if n.error.None? then Stream(Some(n.at), Some(n.at), None)
                                    else StreamOf(w.db, n.name).(lastAttemptAt := Some(n.at), lastError := n.error)
  {
  }

  lemma FinishKeepsAttempts(site: Site, w: World, w': World)
    requires AttemptsOk(w, site.settings) && ValidSettings(site.settings)
    requires w.notifier.SentBatch? && NotifyNext(site, w, Finish, w')
    ensures AttemptsOk(w', site.settings)
  {
    FinishStreams(site, w, w');
    FinishedLog(w.mail, w'.mail, w.notifier, StreamOf(w.db, w.notifier.name), StreamOf(w.db, Other(w.notifier.name)),
                site.settings);
  }

  lemma FinishedLog(mail: MailLog, mail': MailLog, n: Notifier, stream: Stream, other: Stream, s: Settings)
    requires n.SentBatch? && stream.lastAttemptAt == Some(n.at) && Attempt(n.name, n.at) !in mail.successes
    requires mail' == if n.error.None? then Reported(mail, n.name, n.at) else mail
    requires ValidSettings(s) && Spaced(mail, s)
    requires Remembers(mail, n.name, stream, s) && Recorded(mail, n.name, stream)
    requires Remembers(mail, Other(n.name), other, s) && Recorded(mail, Other(n.name), other)
    ensures Spaced(mail', s) && Remembers(mail', Other(n.name), other, s) && Recorded(mail', Other(n.name), other)
    ensures var stream' := if n.error.None? then Stream(Some(n.at), Some(n.at), None)
                           else stream.(lastAttemptAt := Some(n.at), lastError := n.error);
      Remembers(mail', n.name, stream', s) && Recorded(mail', n.name, stream')
  {
    if n.error.None? {
      var succeeded := mail.(successes := mail.successes + {Attempt(n.name, n.at)});
      LastSucceeds(mail, n.name, stream, n.at, s);
      SuccessKeepsSpacing(mail, n.name, stream, n.at, s);
      OtherIsKept(mail, succeeded, Other(n.name), other, s);
      SameRecord(succeeded, mail', n.name, Stream(Some(n.at), Some(n.at), None), s);
      SameRecord(succeeded, mail', Other(n.name), other, s);
    }
  }

  /** Only the two records of attempts matter. */
  lemma SameRecord(mail: MailLog, mail': MailLog, name: StreamName, stream: Stream, s: Settings)
    requires mail'.attempts == mail.attempts && mail'.successes == mail.successes
    ensures Remembers(mail, name, stream, s) ==> Remembers(mail', name, stream, s)
    ensures Recorded(mail, name, stream) ==> Recorded(mail', name, stream)
    ensures Spaced(mail, s) ==> Spaced(mail', s)
  {
    assert forall a :: Logged(mail', a) <==> Logged(mail, a);
  }

  /** The other notification steps leave the schedules alone. */
  lemma OtherNotifySteps(site: Site, w: World, step: NotifyStep, w': World)
    requires NotifyNext(site, w, step, w') && !step.StartFailures? && !(step.Finish? && w.notifier.SentBatch?)
    ensures w'.db.crmStream == w.db.crmStream && w'.db.normalizationStream == w.db.normalizationStream
    ensures w'.mail.attempts == w.mail.attempts && w'.mail.successes == w.mail.successes
    ensures FlightOk(w) ==> FlightOk(w')
  {
  }

  lemma NotifyKeepsAttempts(site: Site, w: World, step: NotifyStep, w': World)
    requires AttemptsOk(w, site.settings) && ValidSettings(site.settings) && NotifyNext(site, w, step, w')
    ensures AttemptsOk(w', site.settings)
  {
    if step.StartFailures? {
      StartKeepsAttempts(site, w, step.name, step.start, w');
    } else if step.Finish? && w.notifier.SentBatch? {
      FinishKeepsAttempts(site, w, w');
    } else {
      OtherNotifySteps(site, w, step, w');
      SameRecord(w.mail, w'.mail, CrmFailures, w.db.crmStream, site.settings);
      SameRecord(w.mail, w'.mail, NormalizationFailures, w.db.normalizationStream, site.settings);
    }
  }

  lemma StepKeepsAttempts(site: Site, w: World, step: Step, w': World)
    requires AttemptsOk(w, site.settings) && ValidSettings(site.settings) && Next(site, w, step, w')
    ensures AttemptsOk(w', site.settings)
  {
    if step.Notify? {
      NotifyKeepsAttempts(site, w, step.n, w');
    } else {
      OtherStreams(site, w, step, w', CrmFailures);
      OtherStreams(site, w, step, w', NormalizationFailures);
    }
  }

  lemma {:induction false} RunAttempts(site: Site, r: Run)
    requires Valid(site, r) && ValidSite(site)
    ensures AttemptsOk(r.w, site.settings)
  {
    if r.Then? {
      LastStep(site, r);
      RunAttempts(site, r.before);
      StepKeepsAttempts(site, r.before.w, r.step, r.w);
    }
  }

  /** In every run, send failures and crashes included, a mail attempt of a stream comes at least
      the batch interval after one that was reported, and at least the failure retry after one
      that was not. */
  lemma AttemptsAreSpaced(site: Site, r: Run, i: nat, j: nat)
    requires Valid(site, r) && ValidSite(site) && i < j < |r.w.mail.attempts|
    requires r.w.mail.attempts[i].name == r.w.mail.attempts[j].name
    ensures var gap := if r.w.mail.attempts[i] in r.w.mail.successes then site.settings.batchInterval
                       else site.settings.failureRetry;
      r.w.mail.attempts[j].at >= r.w.mail.attempts[i].at + gap * 1_000_000
  {
    RunAttempts(site, r);
  }

  /** In every run, a stream is due exactly when the batch interval is over after each of its
      successes and the failure retry after each of its other attempts. */
  lemma DueIffRested(site: Site, r: Run, name: StreamName, at: Time)
    requires Valid(site, r) && ValidSite(site)
    ensures StreamIsDue(StreamOf(r.w.db, name), at, site.settings) <==>
      && (forall a | a in r.w.mail.successes && a.name == name ::
           at >= a.at + site.settings.batchInterval * 1_000_000)
      && (forall a | a in r.w.mail.attempts && a.name == name && a !in r.w.mail.successes ::
           at >= a.at + site.settings.failureRetry * 1_000_000)
  {
    RunAttempts(site, r);
    DueMeaning(r.w.mail, name, StreamOf(r.w.db, name), at, site.settings);
    assert forall a :: Logged(r.w.mail, a) <==>
      a in r.w.mail.successes || (a in r.w.mail.attempts && a !in r.w.mail.successes);
  }
}
