/** The Event schema (models/Event.js): the stored record, the request payload that
    `createEvent` hands to the schema, defaults, setters and validators. */
module EventModel {
  import opened Basics
  import opened Text

  /** The closed `category` enum, in schema order. */
  const Categories: seq<string> :=
    ["Music", "Arts", "Social", "Health & Wellness", "Education", "Entertainment", "Food & Drink", "Conference"]

  /** The closed `status` enum and its default. */
  const Statuses: seq<string> := ["active", "inactive", "completed"]
  const DefaultStatus: string := "active"

  /** The embedded `organizerContact` object; a missing member is `None`. */
  datatype Contact = Contact(email: Option<string>, phone: Option<string>)

  /** A stored Event document, without its `_id` (the key under which the store holds it).
      `date` is a timestamp; `createdBy` and `participants` hold User ids.
      `category` and `status` are kept as the strings stored, because an update can store
      strings the enums do not list (see EventController). */
  datatype Event = Event(
    title: string,
    description: string,
    date: int,
    location: string,
    createdBy: UserId,
    maxParticipants: int,
    participants: seq<UserId>,
    keywords: seq<string>,
    category: string,
    tags: seq<string>,
    image: string,
    eventURL: string,
    status: string,
    organizerContact: Contact)

  /** Every validator of the schema holds of a stored record: required strings non-empty
      (the trimmed ones already trimmed), `maxParticipants >= 1`, and both enums respected.
      `date`, `createdBy`, `keywords` and `participants` are present by construction. */
  ghost predicate Valid(e: Event)
  {
    && e.title != "" && IsTrimmed(e.title)
    && e.description != "" && IsTrimmed(e.description)
    && e.location != "" && IsTrimmed(e.location)
    && e.maxParticipants >= 1
    && e.category in Categories
    && e.status in Statuses
    && RequiredString(e.organizerContact.email)
    && RequiredString(e.organizerContact.phone)
  }

  /** The fields `createEvent` takes from the request body; an absent field is `None`.
      Values are already of the schema's types (casting of strings to Date or Number is not modelled). */
  datatype EventPayload = EventPayload(
    title: Option<string>,
    description: Option<string>,
    date: Option<int>,
    location: Option<string>,
    maxParticipants: Option<int>,
    keywords: Option<seq<string>>,
    category: Option<string>,
    tags: Option<seq<string>>,
    image: Option<string>,
    eventURL: Option<string>,
    status: Option<string>,
    organizerContact: Option<Contact>)

  /** The `trim: true` setter on an optional string. */
  function TrimSetter(s: Option<string>): (r: Option<string>)
    ensures r.Some? <==> s.Some?
    ensures r.Some? ==> IsTrimmed(r.value) && |r.value| <= |s.value|
  {
    match s
    case Some(v) =>
      TrimIsTrimmed(v);
      TrimSliceBounds(v);
      Some(Trim(v))
    case None => None
  }

  /** What the schema demands of a payload, stated on the payload itself: each required
      field present, non-blank where trimmed and non-empty where not, `maxParticipants >= 1`,
      `category` listed, `status` either absent (defaulted) or listed. `keywords` is
      marked required but is an array: Mongoose (5 and later) defaults an array path to
      `[]` and `[]` satisfies `required`, so `keywords` may be absent. */
  ghost predicate Acceptable(p: EventPayload)
  {
    && p.title.Some? && NotBlank(p.title.value)
    && p.description.Some? && NotBlank(p.description.value)
    && p.location.Some? && NotBlank(p.location.value)
    && p.date.Some?
    && p.maxParticipants.Some? && p.maxParticipants.value >= 1
    && p.category.Some? && p.category.value in Categories
    && (p.status.None? || p.status.value in Statuses)
    && p.organizerContact.Some?
    && RequiredString(p.organizerContact.value.email)
    && RequiredString(p.organizerContact.value.phone)
  }

  function OrElse<T>(x: Option<T>, d: T): (r: T)
  {
    match x
    case Some(v) => v
    case None => d
  }

  /** The validators `save` runs, on the document after setters and defaults. */
  predicate PassesValidators(p: EventPayload)
  {
    var contact := OrElse(p.organizerContact, Contact(None, None));
    && RequiredString(TrimSetter(p.title)) && RequiredString(TrimSetter(p.description))
    && RequiredString(TrimSetter(p.location))
    && p.date.Some?
    && p.maxParticipants.Some? && p.maxParticipants.value >= 1
    && p.category.Some? && p.category.value in Categories
    && OrElse(p.status, DefaultStatus) in Statuses
    && RequiredString(contact.email) && RequiredString(contact.phone)
  }

  /** `new Event({...}).save()` as `createEvent` builds it: setters and defaults applied,
      `createdBy` from the caller, `participants` empty; None when a validator fails. */
  function Build(p: EventPayload, creator: UserId): (r: Option<Event>)
    ensures r.Some? ==> Valid(r.value)
    ensures r.Some? ==> r.value.createdBy == creator && r.value.participants == []
  {
    var title := TrimSetter(p.title);
    var description := TrimSetter(p.description);
    var location := TrimSetter(p.location);
    var contact := OrElse(p.organizerContact, Contact(None, None));
    if PassesValidators(p) then
      TrimIsTrimmed(p.title.value);
      TrimIsTrimmed(p.description.value);
      TrimIsTrimmed(p.location.value);
      Some(Event(
        title := title.value,
        description := description.value,
        date := p.date.value,
        location := location.value,
        createdBy := creator,
        maxParticipants := p.maxParticipants.value,
        participants := [],
        keywords := OrElse(p.keywords, []),
        category := p.category.value,
        tags := OrElse(p.tags, []),
        image := OrElse(p.image, ""),
        eventURL := OrElse(p.eventURL, ""),
        status := OrElse(p.status, DefaultStatus),
        organizerContact := contact))
    else
      None
  }

  /** Creation succeeds exactly for the payloads the schema accepts. */
  lemma BuildSucceedsIff(p: EventPayload, creator: UserId)
    ensures Build(p, creator).Some? <==> Acceptable(p)
  {
    assert Build(p, creator).Some? <==> PassesValidators(p);
    if p.title.Some? { TrimEmptyIffBlank(p.title.value); }
    if p.description.Some? { TrimEmptyIffBlank(p.description.value); }
    if p.location.Some? { TrimEmptyIffBlank(p.location.value); }
    assert RequiredString(TrimSetter(p.title)) <==> p.title.Some? && NotBlank(p.title.value);
    assert RequiredString(TrimSetter(p.description)) <==> p.description.Some? && NotBlank(p.description.value);
    assert RequiredString(TrimSetter(p.location)) <==> p.location.Some? && NotBlank(p.location.value);
  }

  /** A built record carries the submitted values: trimmed text fields, the given date,
      bound, category, contact, status, image, URL, keywords and tags; an absent status
      becomes "active", an absent image or URL "", and absent arrays []. */
  lemma BuildKeepsPayload(p: EventPayload, creator: UserId)
    requires Build(p, creator).Some?
    ensures var e := Build(p, creator).value;
      && e.title == Trim(p.title.value) && e.description == Trim(p.description.value)
      && e.location == Trim(p.location.value)
      && Some(e.date) == p.date && Some(e.maxParticipants) == p.maxParticipants
      && Some(e.category) == p.category && Some(e.organizerContact) == p.organizerContact
      && e.status == OrElse(p.status, DefaultStatus)
      && e.image == OrElse(p.image, "") && e.eventURL == OrElse(p.eventURL, "")
      && e.keywords == OrElse(p.keywords, []) && e.tags == OrElse(p.tags, [])
  {
  }

  /** A category the enum does not list is refused, whatever else the payload holds. */
  lemma UnlistedCategoryRefused(p: EventPayload, creator: UserId)
    requires p.category.Some? && p.category.value !in Categories
    ensures Build(p, creator).None?
  {
  }

  /** "Technology" is not a listed category. */
  lemma TechnologyNotListed()
    ensures "Technology" !in Categories
  {
    assert Categories[0] != "Technology";
  }
}
