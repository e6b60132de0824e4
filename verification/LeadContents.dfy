/** What a stored lead and a failed event say of their payload, in every run. */
module LeadContents {
  import opened Schema
  import opened Normalization
  import opened System
  import opened EndToEnd
  import opened IntakeVerdicts

  /** The lead is made, field by field, of what the provider model reads in the payload of its own
      event; and unless none was offered, it has a good contact. */
  lemma LeadsCarryTheirPayload(site: Site, r: Run, id: nat)
    requires Valid(site, r) && id in r.w.db.leads
    ensures var i := r.w.db.leads[id].identity;
      && i.webhookEventId in r.w.db.events
      && var event := r.w.db.events[i.webhookEventId];
      && event.source in SOURCES && i.sourceEventId == event.eventId
      && exists at, p ::
           && ReadAs(event.source, event.payload, site.lib, at, p) && !NoContactLeft(p, site.lib)
           && MadeOf(i, id, i.webhookEventId, event.source, at, p, site.lib)
  {
    RunsAreReady(site, r);
    LeadContent(r.w, id, site.lib);
  }

  lemma LeadContent(w: World, id: nat, lib: Library)
    requires Ready(w, lib) && id in w.db.leads
    ensures var i := w.db.leads[id].identity;
      && i.webhookEventId in w.db.events
      && var event := w.db.events[i.webhookEventId];
      && event.source in SOURCES && i.sourceEventId == event.eventId
      && exists at, p ::
           && ReadAs(event.source, event.payload, lib, at, p) && !NoContactLeft(p, lib)
           && MadeOf(i, id, i.webhookEventId, event.source, at, p, lib)
  {
    assert LeadFits(w.db.events, w.db.leads[id], id, lib);
    var i := w.db.leads[id].identity;
    IdentityMeaning(i.webhookEventId, StoredFrom(w.db, i.webhookEventId), lib, id, i.createdAt);
  }

  /** A failed event says why: its contacts, exactly when the payload is readable and offers only
      bad ones. */
  lemma FailedEventsSayWhy(site: Site, r: Run, e: nat)
    requires Valid(site, r) && e in r.w.db.events && r.w.db.events[e].status == NormalizationFailed
    ensures var event := r.w.db.events[e];
      && event.fault.Some?
      && (event.fault == Some(ContactValidation) <==>
           exists at, p :: ReadAs(event.source, event.payload, site.lib, at, p) && NoContactLeft(p, site.lib))
  {
    RunsAreReady(site, r);
    FailureReason(r.w, e, site.lib);
  }

  lemma FailureReason(w: World, e: nat, lib: Library)
    requires Ready(w, lib) && e in w.db.events && w.db.events[e].status == NormalizationFailed
    ensures var event := w.db.events[e];
      && event.fault.Some?
      && (event.fault == Some(ContactValidation) <==>
           exists at, p :: ReadAs(event.source, event.payload, lib, at, p) && NoContactLeft(p, lib))
  {
    var event := w.db.events[e];
    EventDecides(w, e, lib);
    PayloadVerdicts(event.source, event.eventId, event.payload, lib);
    if event.fault == Some(ContactValidation) {
      var parsed := lib.parse(event.source, event.payload);
      assert ReadAs(event.source, event.payload, lib, parsed.submittedAt, parsed.submission.value);
    }
  }
}
