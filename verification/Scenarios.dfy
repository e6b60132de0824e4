/** Building blocks for concrete runs: a world at rest, and a delivery that becomes a lead. */
module Scenarios {
  import opened Schema
  import opened Queries
  import opened Normalization
  import opened System

  const IDLE: World := World(
    EMPTY_DB, 0, 0, false, Idle, Quiet, [], Hub([], map[]), CrmLog(0, 0, 0, 0, 0, map[], []),
    MailLog([], {}, {}, map[], {}, [], 0))

  /** Nothing is under way in intake, and the next ids are free. */
  ghost predicate IntakeQuiet(w: World, json: string) {
    && w.normalizers == [] && ReceivedKeys(w.db) == map[] && 1 <= |json| <= 128
    && !HasEvent(w.db, "website", json) && w.db.nextEventId !in w.db.events
    && !HasLead(w.db.leads, w.db.nextEventId) && !Clashes(w.db, w.db.nextLeadId)
    && w.db.nextLeadId <= Reference.MAX_BIGINT
  }

  function Stored(w: World, json: string): StoredEvent {
    StoredEvent(w.db.nextEventId, "website", json, RawPayload(json))
  }

  function Persisting(w: World, json: string): World {
    w.(db := w.db.(nextEventId := w.db.nextEventId + 1,
                   events := w.db.events[w.db.nextEventId := NewEvent("website", json, RawPayload(json), w.clock)]))
  }

  function InProcessing(w: World, json: string): World {
    var event := NewEvent("website", json, RawPayload(json), w.clock);
    var db := Persisting(w, json).db;
    w.(db := db.(events := db.events[w.db.nextEventId :=
         event.(status := Processing, processingStartedAt := Some(w.now), completedAt := None)]),
       normalizers := [Stored(w, json)])
  }

  function Normalizing(w: World, json: string, p: Submission, to: Time): World {
    var db := InProcessing(w, json).db;
    w.(db := InsertLead(db, Stored(w, json), LeadData("website", p), to),
       clock := to, normalizers := [])
  }

  lemma IntakeWay(site: Site, w: World, json: string)
    requires IntakeQuiet(w, json)
    ensures Next(site, w, Intake(Persist("website", json, RawPayload(json), Inserted)), Persisting(w, json))
    ensures Next(site, Persisting(w, json), Intake(ClaimEvent(Some(Stored(w, json)))), InProcessing(w, json))
  {
    var w1, n := Persisting(w, json), w.db.nextEventId;
    forall e | e in w1.db.events && w1.db.events[e].status == Received ensures e == n {
      assert e != n ==> e in ReceivedKeys(w.db);
    }
    assert IsLeast(ReceivedKeys(w1.db), n);
  }

  /** Normalization makes `p` of this payload. */
  predicate Accepts(site: Site, json: string, p: Submission) {
    NormalizePayload("website", json, RawPayload(json), site.lib) == Accepted(LeadData("website", p))
  }

  lemma NormalizeWay(site: Site, w: World, json: string, p: Submission, to: Time)
    requires IntakeQuiet(w, json) && Accepts(site, json, p) && to >= w.clock
    ensures var w2 := InProcessing(w, json);
      && Next(site, w2, Outside(Tick(to)), w2.(clock := to))
      && Next(site, w2.(clock := to), Intake(Normalize(0, Ok(NewLead(w.db.nextLeadId)))), Normalizing(w, json, p, to))
  {
    assert Without(InProcessing(w, json).normalizers, 0) == [];
  }

  /** One delivery, from the webhook into the hands of a normalizer. */
  lemma ClaimedDelivery(site: Site, r: Run, json: string) returns (t: Run)
    requires Valid(site, r) && IntakeQuiet(r.w, json)
    ensures Valid(site, t) && t.w == InProcessing(r.w, json)
  {
    var w := r.w;
    IntakeWay(site, w, json);
    var persist := Intake(Persist("website", json, RawPayload(json), Inserted));
    OneMoreStep(site, r, persist, Persisting(w, json));
    t := Then(r, persist, Persisting(w, json));
    var claim := Intake(ClaimEvent(Some(Stored(w, json))));
    OneMoreStep(site, t, claim, InProcessing(w, json));
    t := Then(t, claim, InProcessing(w, json));
  }

  /** One delivery, from the webhook to its lead; normalizing it ends at time `to`. */
  lemma OneDelivery(site: Site, r: Run, json: string, p: Submission, to: Time) returns (t: Run)
    requires Valid(site, r) && IntakeQuiet(r.w, json) && Accepts(site, json, p) && to >= r.w.clock
    ensures Valid(site, t) && t.w == Normalizing(r.w, json, p, to)
  {
    var w := r.w;
    t := ClaimedDelivery(site, r, json);
    NormalizeWay(site, w, json, p, to);
    OneMoreStep(site, t, Outside(Tick(to)), InProcessing(w, json).(clock := to));
    t := Then(t, Outside(Tick(to)), InProcessing(w, json).(clock := to));
    var normalize := Intake(Normalize(0, Ok(NewLead(w.db.nextLeadId))));
    OneMoreStep(site, t, normalize, Normalizing(w, json, p, to));
    t := Then(t, normalize, Normalizing(w, json, p, to));
  }

  /** The run that has not begun. */
  lemma Beginning(site: Site, json: string) returns (r: Run)
    requires 1 <= |json| <= 128
    ensures r == Start(IDLE) && Valid(site, r) && IntakeQuiet(IDLE, json)
  {
    r := Start(IDLE);
  }

  const SETTINGS: Settings := Settings(900, 60, 60, 60, 15, 60, 300, 300, 1800, 1, 300, 300, 10, 300)

  function Plain(json: string, firstName: string): Submission {
    Submission(json, 0, firstName, "B", None, None, None, None, None, None, None, Metadata(""))
  }

  /** A deployment whose payloads carry their event id and give everyone the same first name. */
  function Everyone(firstName: string): Site {
    Site(SETTINGS, Library(
      (source: string, payload: RawPayload) => Dated(Zoned(0, 0), Some(Plain(payload.json, firstName))),
      (text: string) => None, (text: string) => None))
  }

  lemma EveryoneIsAccepted(json: string, firstName: string)
    requires 1 <= |json| <= 128 && 1 <= |firstName| <= 100
    ensures Accepts(Everyone(firstName), json, Plain(json, firstName)) && ValidSite(Everyone(firstName))
  {
  }

  lemma PlainIsValid(json: string, id: nat)
    requires id <= Reference.MAX_BIGINT
    ensures HubSpot.ValidContact(ContactOf(Plain(json, "A"), Reference.ReferenceFor(id)))
  {
    ReferenceIsNotBlank(id);
    Reference.ReferenceFitsItsColumn(id);
    assert HubSpot.Strip("A") == "A" && HubSpot.Strip("B") == "B";
  }
}
