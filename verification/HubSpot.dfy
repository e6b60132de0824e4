/** The CREATE_ONLY adapter: what it accepts, and how it classifies raw HTTP outcomes. */
module HubSpot {
  import opened Schema

  // ---------- text ----------

  /** The characters that `str.strip()` removes. */
  predicate IsSpace(c: char) {
    var n := c as int;
    || 9 <= n <= 13 || 28 <= n <= 32 || n == 0x85 || n == 0xa0 || n == 0x1680
    || 0x2000 <= n <= 0x200a || n in {0x2028, 0x2029, 0x202f, 0x205f, 0x3000}
  }

  function StripLeft(s: string): string {
    if s != [] && IsSpace(s[0]) then StripLeft(s[1..]) else s
  }

  function StripRight(s: string): string {
    if s != [] && IsSpace(s[|s| - 1]) then StripRight(s[..|s| - 1]) else s
  }

  function Strip(s: string): string { StripRight(StripLeft(s)) }

  lemma {:induction false} StripRightEnds(s: string)
    ensures var r := StripRight(s); r == [] || (!IsSpace(r[|r| - 1]) && r[0] == s[0] && s != [])
  {
    if s != [] && IsSpace(s[|s| - 1]) { StripRightEnds(s[..|s| - 1]); }
  }

  lemma {:induction false} StripLeftEnds(s: string)
    ensures var r := StripLeft(s); r == [] || !IsSpace(r[0])
  {
    if s != [] && IsSpace(s[0]) { StripLeftEnds(s[1..]); }
  }

  /** A contact id survives being stripped twice, once here and once by the caller. */
  lemma StripIsIdempotent(s: string)
    ensures Strip(Strip(s)) == Strip(s)
  {
    StripLeftEnds(s);
    StripRightEnds(StripLeft(s));
  }

  /** What is stripped is white space at the two ends, and all of it. */
  lemma StripMeaning(s: string) returns (left: string, right: string)
    ensures s == left + Strip(s) + right && Blank(left) && Blank(right)
    ensures Strip(s) != [] ==> !IsSpace(Strip(s)[0]) && !IsSpace(Strip(s)[|Strip(s)| - 1])
  {
    left := StripLeftMeaning(s);
    right := StripRightMeaning(StripLeft(s));
    StripLeftEnds(s);
    StripRightEnds(StripLeft(s));
  }

  predicate Blank(s: string) { forall k | 0 <= k < |s| :: IsSpace(s[k]) }

  lemma {:induction false} StripLeftMeaning(s: string) returns (left: string)
    ensures s == left + StripLeft(s) && Blank(left)
  {
    if s != [] && IsSpace(s[0]) {
      var rest := StripLeftMeaning(s[1..]);
      left := [s[0]] + rest;
      assert s == [s[0]] + s[1..];
    } else {
      left := [];
    }
  }

  lemma {:induction false} StripRightMeaning(s: string) returns (right: string)
    ensures s == StripRight(s) + right && Blank(right)
  {
    if s != [] && IsSpace(s[|s| - 1]) {
      var rest := StripRightMeaning(s[..|s| - 1]);
      right := rest + [s[|s| - 1]];
      assert s == s[..|s| - 1] + [s[|s| - 1]];
    } else {
      right := [];
    }
  }

  // ---------- the outbound payload ----------

  predicate AtMost(field: Option<string>, max: nat) { field.Some? ==> |field.value| <= max }

  predicate RequiredText(field: string, max: nat) {
    1 <= |field| <= max && Strip(field) != []
  }

  /** What the validators of `HubSpotContactInput` demand. */
  predicate ValidContact(c: ContactInput) {
    && RequiredText(c.firstName, 100) && RequiredText(c.lastName, 100)
    && RequiredText(c.integrationReference, 32)
    && AtMost(c.email, 254) && AtMost(c.phone, 64) && AtMost(c.company, 200)
    && AtMost(c.jobTitle, 150) && AtMost(c.city, 100) && AtMost(c.country, 100)
  }

  /** Stripping leaves something of a text exactly when some character of it is no white space. */
  lemma StripLeavesIff(s: string)
    ensures Strip(s) != [] <==> !Blank(s)
  {
    var left, right := StripMeaning(s);
    if Strip(s) != [] {
      assert s[|left|] == Strip(s)[0];
    } else {
      assert s == left + right;
    }
  }

  predicate Legible(text: string, max: nat) { |text| <= max && exists k :: 0 <= k < |text| && !IsSpace(text[k]) }

  predicate Short(text: Option<string>, max: nat) { text == None || |text.value| <= max }

  /** The CRM boundary takes a contact exactly when the names and the reference are legible and no
      field is too long. */
  lemma ValidContactIff(c: ContactInput)
    ensures ValidContact(c) <==>
      && Legible(c.firstName, 100) && Legible(c.lastName, 100) && Legible(c.integrationReference, 32)
      && Short(c.email, 254) && Short(c.phone, 64) && Short(c.company, 200)
      && Short(c.jobTitle, 150) && Short(c.city, 100) && Short(c.country, 100)
  {
    StripLeavesIff(c.firstName);
    StripLeavesIff(c.lastName);
    StripLeavesIff(c.integrationReference);
  }

  // ---------- response headers ----------

  predicate Printable(text: string) { forall k | 0 <= k < |text| :: 32 <= text[k] as int <= 126 }

  /** `_safe_retry_after`: the trimmed header, when it is short and printable ASCII. */
  function SafeRetryAfter(header: Option<string>): Option<string> {
    if header.None? then None
    else
      var candidate := Strip(header.value);
      if candidate == [] || |candidate| > 128 || !Printable(candidate) then None else Some(candidate)
  }

  // ---------- create ----------

  /** What `httpx` hands back for a POST. `payloadId` is the body's `id` when the body is an
      object and the id a string. */
  datatype RawCreate =
    | CreateResponse(status: int, payloadId: Option<string>, retryAfter: Option<string>)
    | PreTransmissionFailure  // ConnectError, ConnectTimeout, PoolTimeout
    | TransmissionFailure     // every other TransportError

  datatype CreateResult = CreateResult(
    category: CreateCategory, contactId: Option<string>, retryAfter: Option<string>)

  function ValidContactId(payloadId: Option<string>): Option<string> {
    if payloadId.Some? && Strip(payloadId.value) != [] then Some(Strip(payloadId.value)) else None
  }

  function CreateStatusCategory(status: int): CreateCategory {
    if status == 400 then BadRequestRequiresClassification
    else if status == 401 then CreateAuthFailure
    else if status in {403, 404, 405} then CreateConfigFailure
    else if status == 409 then ConflictRequiresLookup
    else if status == 423 then RetryableFailure
    else if status == 429 then RateLimited
    else if status == 477 then RetryableFailure
    else if 500 <= status < 600 then CreateUnknown
    else if 400 <= status < 500 then UnclassifiedPermanentFailure
    else CreateUnknown
  }

  function ClassifyCreate(raw: RawCreate): CreateResult {
    match raw
    case PreTransmissionFailure => CreateResult(RetryableFailure, None, None)
    case TransmissionFailure => CreateResult(CreateUnknown, None, None)
    case CreateResponse(status, payloadId, retryAfter) =>
      if 200 <= status < 300 then
        var id := ValidContactId(payloadId);
        CreateResult(if id.Some? then CreateSuccess else CreateUnknown, id, SafeRetryAfter(retryAfter))
      else
        CreateResult(CreateStatusCategory(status), None, SafeRetryAfter(retryAfter))
  }

  /** The outcomes from which the design infers that the request made no contact and never
      will; about every other outcome nothing is known. */
  predicate NoContactMade(raw: RawCreate) {
    match raw
    case PreTransmissionFailure => true
    case TransmissionFailure => false
    case CreateResponse(status, _, _) =>
      status in {400, 401, 403, 404, 405, 409, 423, 429, 477}
  }

  /** The categories after which the lead may be offered to HubSpot again, or is looked up. */
  predicate ProvesNoContact(category: CreateCategory) {
    category in {CreateAuthFailure, CreateConfigFailure, ConflictRequiresLookup,
                 RetryableFailure, RateLimited, BadRequestRequiresClassification}
  }

  /** Both directions: a resendable category is reported exactly for the outcomes that
      establish that nothing was created. */
  lemma ResendableIffNoContactMade(raw: RawCreate)
    ensures ProvesNoContact(ClassifyCreate(raw).category) <==> NoContactMade(raw)
    ensures ClassifyCreate(raw).category == CreateSuccess <==>
            (raw.CreateResponse? && 200 <= raw.status < 300 && ValidContactId(raw.payloadId).Some?)
    ensures ClassifyCreate(raw).category == CreateSuccess ==>
            (ClassifyCreate(raw).contactId.Some? && ClassifyCreate(raw).contactId.value != []
             && Strip(ClassifyCreate(raw).contactId.value) == ClassifyCreate(raw).contactId.value)
  {
    if raw.CreateResponse? && raw.payloadId.Some? { StripIsIdempotent(raw.payloadId.value); }
  }

  /** A 2xx whose body names a contact. */
  predicate NamesContact(raw: RawCreate) {
    && raw.CreateResponse? && 200 <= raw.status < 300
    && raw.payloadId.Some? && Strip(raw.payloadId.value) != []
  }

  predicate ClientError(raw: RawCreate) { raw.CreateResponse? && 400 <= raw.status < 500 }

  predicate Status(raw: RawCreate, statuses: set<int>) { raw.CreateResponse? && raw.status in statuses }

  /** Nothing is known of the request: it broke off, or HubSpot answered neither with a contact
      nor with a 4xx. */
  predicate Uncertain(raw: RawCreate) {
    raw.TransmissionFailure? || (raw.CreateResponse? && !NamesContact(raw) && !ClientError(raw))
  }

  /** A 4xx for which the integration has no treatment. */
  predicate UnlistedClientError(raw: RawCreate) {
    ClientError(raw) && !Status(raw, {400, 401, 403, 404, 405, 409, 423, 429, 477})
  }

  /** Which answers each category stands for: the category decides what becomes of the lead. */
  lemma CreateCategories(raw: RawCreate)
    ensures var r := ClassifyCreate(raw);
      && (r.category == CreateSuccess <==> NamesContact(raw))
      && (r.category == CreateUnknown <==> Uncertain(raw))
      && (r.category == UnclassifiedPermanentFailure <==> UnlistedClientError(raw))
      && (r.category == BadRequestRequiresClassification <==> Status(raw, {400}))
      && (r.category == CreateAuthFailure <==> Status(raw, {401}))
      && (r.category == CreateConfigFailure <==> Status(raw, {403, 404, 405}))
      && (r.category == ConflictRequiresLookup <==> Status(raw, {409}))
      && (r.category == RateLimited <==> Status(raw, {429}))
      && (r.category == RetryableFailure <==> raw.PreTransmissionFailure? || Status(raw, {423, 477}))
    ensures ClassifyCreate(raw).contactId
         == if NamesContact(raw) then Some(Strip(raw.payloadId.value)) else None
    ensures ClassifyCreate(raw).retryAfter == if raw.CreateResponse? then SafeRetryAfter(raw.retryAfter) else None
  {
  }

  // ---------- active reads ----------

  datatype PropertyName = EmailProperty | FirstName | LastName | ReferenceProperty | Unrequested(name: string)

  datatype PropertyValue = Text(text: string) | Null | NotText

  datatype RawRead =
    | ReadResponse(status: int, payloadId: Option<string>,
                   properties: Option<map<PropertyName, PropertyValue>>, retryAfter: Option<string>)
    | ReadTransportFailure

  type Properties = map<PropertyName, Option<string>>

  datatype ReadResult = ReadResult(
    category: ReadCategory, contactId: Option<string>, properties: Properties,
    retryAfter: Option<string>)

  predicate UsableProperties(p: map<PropertyName, PropertyValue>) {
    forall name | name in p && !name.Unrequested? :: p[name] != NotText
  }

  function RequestedProperties(p: map<PropertyName, PropertyValue>): Properties {
    map name | name in p && !name.Unrequested? ::
      if p[name].Text? then Some(p[name].text) else None
  }

  function ReadStatusCategory(status: int): ReadCategory {
    if status == 404 then ActiveNotFound
    else if status == 401 then ReadAuthFailure
    else if status in {400, 403, 405} then ReadConfigFailure
    else if status in {423, 429, 477} then RetryableReadFailure
    else IndeterminateRead
  }

  function ClassifyRead(raw: RawRead): ReadResult {
    match raw
    case ReadTransportFailure => ReadResult(IndeterminateRead, None, map[], None)
    case ReadResponse(status, payloadId, properties, retryAfter) =>
      var id := ValidContactId(payloadId);
      if status == 200 && id.Some? && properties.Some? && UsableProperties(properties.value) then
        ReadResult(Found, id, RequestedProperties(properties.value), SafeRetryAfter(retryAfter))
      else
        ReadResult(ReadStatusCategory(status), None, map[], SafeRetryAfter(retryAfter))
  }

  /** `properties.get(name)`: absent and null read alike. */
  function Get(p: Properties, name: PropertyName): Option<string> {
    if name in p then p[name] else None
  }

  /** Only a 200 with a usable body is FOUND, and it then names a contact. */
  lemma FoundNamesAContact(raw: RawRead)
    ensures var r := ClassifyRead(raw);
      r.category == Found <==>
      (raw.ReadResponse? && raw.status == 200 && ValidContactId(raw.payloadId).Some?
       && raw.properties.Some? && UsableProperties(raw.properties.value))
    ensures var r := ClassifyRead(raw);
      r.category == Found ==>
        (r.contactId.Some? && r.contactId.value != []
         && Strip(r.contactId.value) == r.contactId.value)
  {
    if raw.ReadResponse? && raw.payloadId.Some? { StripIsIdempotent(raw.payloadId.value); }
  }

  /** A 200 that names a contact and quotes properties, the requested ones as texts or nulls. */
  predicate NamesFound(raw: RawRead) {
    && raw.ReadResponse? && raw.status == 200
    && raw.payloadId.Some? && Strip(raw.payloadId.value) != []
    && raw.properties.Some?
    && forall name | name in raw.properties.value ::
         name.Unrequested? || raw.properties.value[name].Text? || raw.properties.value[name].Null?
  }

  predicate ReadStatus(raw: RawRead, statuses: set<int>) { raw.ReadResponse? && raw.status in statuses }

  /** No answer, or one that says nothing about the contact. */
  predicate ReadSaysNothing(raw: RawRead) {
    !NamesFound(raw) && !ReadStatus(raw, {400, 401, 403, 404, 405, 423, 429, 477})
  }

  /** Which answers each category of a read stands for, and what is kept of a found contact. */
  lemma ReadCategories(raw: RawRead)
    ensures var r := ClassifyRead(raw);
      && (r.category == Found <==> NamesFound(raw))
      && (r.category == ActiveNotFound <==> ReadStatus(raw, {404}))
      && (r.category == ReadAuthFailure <==> ReadStatus(raw, {401}))
      && (r.category == ReadConfigFailure <==> ReadStatus(raw, {400, 403, 405}))
      && (r.category == RetryableReadFailure <==> ReadStatus(raw, {423, 429, 477}))
      && (r.category == IndeterminateRead <==> ReadSaysNothing(raw))
    ensures ClassifyRead(raw).contactId
         == if NamesFound(raw) then Some(Strip(raw.payloadId.value)) else None
    ensures ClassifyRead(raw).retryAfter == if raw.ReadResponse? then SafeRetryAfter(raw.retryAfter) else None
    ensures NamesFound(raw) ==> forall name: PropertyName | !name.Unrequested? ::
      && (name in ClassifyRead(raw).properties <==> name in raw.properties.value)
      && (name in raw.properties.value ==>
           ClassifyRead(raw).properties[name]
           == if raw.properties.value[name].Text? then Some(raw.properties.value[name].text) else None)
  {
  }
}
