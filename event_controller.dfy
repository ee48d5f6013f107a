/** The event controller (controllers/eventController.js) over an in-memory Events
    collection: a map from id to document, with ids handed out in increasing order. */
module EventController {
  import opened Basics
  import opened Text
  import opened EventModel
  import opened Http

  type Entry = (EventId, Event)

  // ---------------------------------------------------------------------------
  // Listing: filter, sort by date, skip/limit, page arithmetic.

  /** The query string of `getAllEvents`. `sortBy` is not modelled: listing is by `date`. */
  datatype EventQuery = EventQuery(page: Option<int>, limit: Option<int>, category: Option<string>, sortOrder: Option<string>)

  const DefaultPage: int := 1
  const DefaultLimit: int := 10

  /** The `page = 1` and `limit = 10` destructuring defaults. */
  function PageOf(q: EventQuery): (r: int)
    ensures q.page.None? ==> r == 1
    ensures q.page.Some? ==> r == q.page.value
  {
    OrElse(q.page, DefaultPage)
  }

  function LimitOf(q: EventQuery): (r: int)
    ensures q.limit.None? ==> r == 10
    ensures q.limit.Some? ==> r == q.limit.value
  {
    OrElse(q.limit, DefaultLimit)
  }

  /** Descending exactly when `sortOrder` is "desc". */
  predicate Descending(q: EventQuery) { q.sortOrder == Some("desc") }

  /** `Math.ceil(n / d)` for a whole count and a positive limit: the number of pages of
      `d` items that `n` items fill. */
  function CeilDiv(n: nat, d: nat): (r: nat)
    requires d >= 1
    decreases n
  {
    if n == 0 then 0 else if n <= d then 1 else 1 + CeilDiv(n - d, d)
  }

  /** CeilDiv is Math.ceil: the least number of pages that holds n items; a skip of k
      whole pages stays below n exactly when k is less than it. */
  lemma {:induction false} CeilDivIsLeast(n: nat, d: nat, k: nat)
    requires d >= 1
    ensures CeilDiv(n, d) * d >= n
    ensures k * d < n <==> k < CeilDiv(n, d)
    decreases n
  {
    if n == 0 {
    } else if n <= d {
      if k >= 1 { MulMono(1, k, d); }
    } else {
      var c := CeilDiv(n - d, d);
      CeilDivIsLeast(n - d, d, if k >= 1 then k - 1 else 0);
      assert (c + 1) * d == c * d + d;
      if k >= 1 {
        assert k * d == (k - 1) * d + d;
      }
    }
  }

  lemma MulMono(a: nat, b: nat, d: nat)
    requires a <= b
    ensures a * d <= b * d
  {
  }

  /** The collection in its natural order: entries with ids below n, ascending by id. */
  function InIdOrder(m: map<EventId, Event>, n: nat): (r: seq<Entry>)
    ensures forall k :: 0 <= k < |r| ==> r[k].0 < n && r[k].0 in m && r[k].1 == m[r[k].0]
    ensures forall id :: id in m && id < n ==> (id, m[id]) in r
    ensures forall i, j :: 0 <= i < j < |r| ==> r[i].0 < r[j].0
  {
    if n == 0 then []
    else InIdOrder(m, n - 1) + (if n - 1 in m then [(n - 1, m[n - 1])] else [])
  }

  /** The `{ category }` filter. */
  function WithCategory(s: seq<Entry>, c: string): (r: seq<Entry>)
    ensures forall k :: 0 <= k < |r| ==> r[k].1.category == c
    ensures forall x :: x in r <==> x in s && x.1.category == c
    ensures |r| <= |s|
  {
    if s == [] then []
    else (if s[0].1.category == c then [s[0]] else []) + WithCategory(s[1..], c)
  }

  /** The documents `find(filter)` and `countDocuments(filter)` see: filtered only when a
      (truthy) category is given. */
  function Matching(m: map<EventId, Event>, n: nat, category: Option<string>): (r: seq<Entry>)
    ensures forall x :: x in r ==> x.0 < n && x.0 in m && x.1 == m[x.0]
    ensures TruthyString(category) ==> forall x :: x in r ==> x.1.category == category.value
  {
    if TruthyString(category) then WithCategory(InIdOrder(m, n), category.value) else InIdOrder(m, n)
  }

  function Key(x: Entry, desc: bool): (k: int)
  {
    if desc then -x.1.date else x.1.date
  }

  /** Ordered by date: ascending, or descending when `desc`. */
  predicate SortedByDate(s: seq<Entry>, desc: bool)
  {
    forall i, j :: 0 <= i < j < |s| ==> Key(s[i], desc) <= Key(s[j], desc)
  }

  /** Prepending an element no greater than every element keeps a sequence sorted. */
  lemma PrependSorted(h: Entry, t: seq<Entry>, desc: bool)
    requires SortedByDate(t, desc)
    requires forall y :: y in t ==> Key(h, desc) <= Key(y, desc)
    ensures SortedByDate([h] + t, desc)
  {
    var r := [h] + t;
    forall i, j | 0 <= i < j < |r| ensures Key(r[i], desc) <= Key(r[j], desc) {
      if i == 0 {
        assert r[j] == t[j - 1] && t[j - 1] in t;
      } else {
        assert r[i] == t[i - 1] && r[j] == t[j - 1];
      }
    }
  }

  /** The head of a sorted sequence is no greater than any of its elements. */
  lemma HeadIsLeast(s: seq<Entry>, desc: bool)
    requires SortedByDate(s, desc) && s != []
    ensures forall y :: y in s ==> Key(s[0], desc) <= Key(y, desc)
  {
    forall y | y in s ensures Key(s[0], desc) <= Key(y, desc) {
      var k :| 0 <= k < |s| && s[k] == y;
      if k > 0 { assert Key(s[0], desc) <= Key(s[k], desc); }
    }
  }

  function Insert(x: Entry, s: seq<Entry>, desc: bool): (r: seq<Entry>)
    requires SortedByDate(s, desc)
    ensures SortedByDate(r, desc)
    ensures multiset(r) == multiset(s) + multiset{x}
    ensures |r| == |s| + 1
    ensures forall y :: y in r ==> y in s || y == x
  {
    if s == [] then [x]
    else
      assert s == [s[0]] + s[1..];
      HeadIsLeast(s, desc);
      if Key(x, desc) <= Key(s[0], desc) then
        PrependSorted(x, s, desc);
        [x] + s
      else
        var t := Insert(x, s[1..], desc);
        PrependSorted(s[0], t, desc);
        [s[0]] + t
  }

  /** `.sort({ date: order })`: an ordering of the same documents. */
  function SortByDate(s: seq<Entry>, desc: bool): (r: seq<Entry>)
    ensures SortedByDate(r, desc)
    ensures multiset(r) == multiset(s)
    ensures |r| == |s|
  {
    if s == [] then []
    else
      assert s == [s[0]] + s[1..];
      Insert(s[0], SortByDate(s[1..], desc), desc)
  }

  /** `.skip(skip).limit(limit)`. */
  function Window(s: seq<Entry>, skip: nat, limit: nat): (r: seq<Entry>)
    ensures |r| <= limit
    ensures skip >= |s| ==> r == []
    ensures skip < |s| ==> r == s[skip..if skip + limit <= |s| then skip + limit else |s|]
    ensures limit >= 1 ==> (|r| > 0 <==> skip < |s|)
    ensures forall x :: x in r ==> x in s
    ensures forall desc :: SortedByDate(s, desc) ==> SortedByDate(r, desc)
  {
    var lo := if skip <= |s| then skip else |s|;
    var hi := if skip + limit <= |s| then skip + limit else |s|;
    s[lo..hi]
  }

  /** Page `page` (from 1) of `limit` items: `.skip((page - 1) * limit).limit(limit)`.
      It is non-empty exactly when `page` is at most the page count. */
  function Page(s: seq<Entry>, page: int, limit: int): (r: seq<Entry>)
    requires page >= 1 && limit >= 1
    ensures |r| > 0 <==> page <= CeilDiv(|s|, limit)
    ensures |r| <= limit
    ensures forall x :: x in r ==> x in s
    ensures forall desc :: SortedByDate(s, desc) ==> SortedByDate(r, desc)
  {
    CeilDivIsLeast(|s|, limit, page - 1);
    Window(s, (page - 1) * limit, limit)
  }

  /** The page `getAllEvents` returns, for a page of at least 1. */
  function Listing(m: map<EventId, Event>, n: nat, q: EventQuery): (r: seq<Entry>)
    requires PageOf(q) >= 1 && LimitOf(q) >= 1
    ensures |r| <= LimitOf(q)
    ensures SortedByDate(r, Descending(q))
  {
    Page(SortByDate(Matching(m, n, q.category), Descending(q)), PageOf(q), LimitOf(q))
  }

  /** Every listed event is a stored one; with a category given, every listed event has
      that category, and every stored event of that category is counted. */
  lemma MatchingIsStoreFiltered(m: map<EventId, Event>, n: nat, category: Option<string>)
    requires forall id :: id in m ==> id < n
    ensures forall x :: x in Matching(m, n, category) <==>
              x.0 in m && x.1 == m[x.0] && (TruthyString(category) ==> x.1.category == category.value)
  {
    var all := InIdOrder(m, n);
    forall x | x in all ensures x.0 in m && x.1 == m[x.0] {
      var k :| 0 <= k < |all| && all[k] == x;
    }
  }

  /** What a listed page is: at most `limit` events, ordered by date as asked, all stored,
      and all of the requested category. */
  lemma ListingProperties(m: map<EventId, Event>, n: nat, q: EventQuery)
    requires forall id :: id in m ==> id < n
    requires PageOf(q) >= 1 && LimitOf(q) >= 1
    ensures var r := Listing(m, n, q);
      && |r| <= LimitOf(q)
      && SortedByDate(r, Descending(q))
      && (forall x :: x in r ==> x.0 in m && x.1 == m[x.0])
      && (TruthyString(q.category) ==> forall x :: x in r ==> x.1.category == q.category.value)
  {
    var all := Matching(m, n, q.category);
    var sorted := SortByDate(all, Descending(q));
    var r := Listing(m, n, q);
    MatchingIsStoreFiltered(m, n, q.category);
    forall x | x in r ensures x in all {
      assert x in sorted;
      assert x in multiset(sorted);
    }
  }

  /** A page is non-empty exactly when `page <= totalPages`. */
  lemma ListingNonEmptyIff(m: map<EventId, Event>, n: nat, q: EventQuery)
    requires PageOf(q) >= 1 && LimitOf(q) >= 1
    ensures |Listing(m, n, q)| > 0 <==> PageOf(q) <= CeilDiv(|Matching(m, n, q.category)|, LimitOf(q))
  {
  }

  /** The default listing is ascending by date, the first ten stored events in that order. */
  lemma DefaultListing(m: map<EventId, Event>, n: nat)
    requires forall id :: id in m ==> id < n
    ensures var r := Listing(m, n, EventQuery(None, None, None, None));
      && SortedByDate(r, false) && |r| <= 10
      && (forall i :: 0 <= i < |r| - 1 ==> r[i].1.date <= r[i + 1].1.date)
  {
    ListingProperties(m, n, EventQuery(None, None, None, None));
  }

  // ---------------------------------------------------------------------------
  // Updates.

  /** A request body given to `findByIdAndUpdate`: every schema path may be set,
      `createdBy` and `participants` included; `organizerContact` is replaced whole. */
  datatype EventPatch = EventPatch(
    title: Option<string>,
    description: Option<string>,
    date: Option<int>,
    location: Option<string>,
    createdBy: Option<UserId>,
    maxParticipants: Option<int>,
    participants: Option<seq<UserId>>,
    keywords: Option<seq<string>>,
    category: Option<string>,
    tags: Option<seq<string>>,
    image: Option<string>,
    eventURL: Option<string>,
    status: Option<string>,
    organizerContact: Option<Contact>)

  /** A `trim: true` path after `$set`: the trimmed new value if one is given, else the
      current one. */
  function SetTrimmed(v: Option<string>, current: string): (r: string)
    ensures v.Some? ==> r == Trim(v.value)
    ensures v.None? ==> r == current
  {
    match v
    case Some(x) => Trim(x)
    case None => current
  }

  lemma SetTrimmedIdempotent(v: Option<string>, current: string)
    ensures SetTrimmed(v, SetTrimmed(v, current)) == SetTrimmed(v, current)
  {
    if v.Some? { TrimIdempotent(v.value); }
  }

  /** The document after `$set` of the given paths; the trim setter still applies. */
  function Patched(e: Event, p: EventPatch): (r: Event)
    ensures p == EventPatch(None, None, None, None, None, None, None, None, None, None, None, None, None, None) ==> r == e
    ensures (p.title.Some? ==> r.title == Trim(p.title.value)) && (p.title.None? ==> r.title == e.title)
    ensures (p.description.Some? ==> r.description == Trim(p.description.value))
         && (p.description.None? ==> r.description == e.description)
    ensures (p.date.Some? ==> r.date == p.date.value) && (p.date.None? ==> r.date == e.date)
    ensures (p.location.Some? ==> r.location == Trim(p.location.value))
         && (p.location.None? ==> r.location == e.location)
    ensures (p.createdBy.Some? ==> r.createdBy == p.createdBy.value)
         && (p.createdBy.None? ==> r.createdBy == e.createdBy)
    ensures (p.maxParticipants.Some? ==> r.maxParticipants == p.maxParticipants.value)
         && (p.maxParticipants.None? ==> r.maxParticipants == e.maxParticipants)
    ensures (p.participants.Some? ==> r.participants == p.participants.value)
         && (p.participants.None? ==> r.participants == e.participants)
    ensures (p.keywords.Some? ==> r.keywords == p.keywords.value) && (p.keywords.None? ==> r.keywords == e.keywords)
    ensures (p.category.Some? ==> r.category == p.category.value) && (p.category.None? ==> r.category == e.category)
    ensures (p.tags.Some? ==> r.tags == p.tags.value) && (p.tags.None? ==> r.tags == e.tags)
    ensures (p.image.Some? ==> r.image == p.image.value) && (p.image.None? ==> r.image == e.image)
    ensures (p.eventURL.Some? ==> r.eventURL == p.eventURL.value) && (p.eventURL.None? ==> r.eventURL == e.eventURL)
    ensures (p.status.Some? ==> r.status == p.status.value) && (p.status.None? ==> r.status == e.status)
    ensures (p.organizerContact.Some? ==> r.organizerContact == p.organizerContact.value)
         && (p.organizerContact.None? ==> r.organizerContact == e.organizerContact)
  {
    Event(
      title := SetTrimmed(p.title, e.title),
      description := SetTrimmed(p.description, e.description),
      date := OrElse(p.date, e.date),
      location := SetTrimmed(p.location, e.location),
      createdBy := OrElse(p.createdBy, e.createdBy),
      maxParticipants := OrElse(p.maxParticipants, e.maxParticipants),
      participants := OrElse(p.participants, e.participants),
      keywords := OrElse(p.keywords, e.keywords),
      category := OrElse(p.category, e.category),
      tags := OrElse(p.tags, e.tags),
      image := OrElse(p.image, e.image),
      eventURL := OrElse(p.eventURL, e.eventURL),
      status := OrElse(p.status, e.status),
      organizerContact := OrElse(p.organizerContact, e.organizerContact))
  }

  /** Sending the same update twice stores the same document as sending it once: the
      trim setter is idempotent and every other path is overwritten with the same value. */
  lemma PatchIdempotent(e: Event, p: EventPatch)
    ensures Patched(Patched(e, p), p) == Patched(e, p)
  {
    SetTrimmedIdempotent(p.title, e.title);
    SetTrimmedIdempotent(p.description, e.description);
    SetTrimmedIdempotent(p.location, e.location);
  }

  /** The paths whose validator fails, in schema order. */
  function FailingPaths(e: Event): (r: seq<string>)
    ensures r == [] <==> Valid(e)
  {
    TrimIsTrimmed(e.title);
    (if e.title == "" || !IsTrimmed(e.title) then ["title"] else [])
    + (if e.description == "" || !IsTrimmed(e.description) then ["description"] else [])
    + (if e.location == "" || !IsTrimmed(e.location) then ["location"] else [])
    + (if e.maxParticipants < 1 then ["maxParticipants"] else [])
    + (if e.category !in Categories then ["category"] else [])
    + (if e.status !in Statuses then ["status"] else [])
    + (if !RequiredString(e.organizerContact.email) then ["organizerContact.email"] else [])
    + (if !RequiredString(e.organizerContact.phone) then ["organizerContact.phone"] else [])
  }

  /** As written, the update runs no validators: a valid event patched with
      `maxParticipants: 0`, an unlisted category, or an empty title is stored invalid. */
  lemma UpdateBypassesValidators(e: Event, p: EventPatch)
    requires Valid(e)
    requires p == EventPatch(None, None, None, None, None, Some(0), None, None, None, None, None, None, None, None)
          || p == EventPatch(None, None, None, None, None, None, None, None, Some("Technology"), None, None, None, None, None)
          || p == EventPatch(Some(""), None, None, None, None, None, None, None, None, None, None, None, None, None)
    ensures !Valid(Patched(e, p))
  {
    TechnologyNotListed();
    assert Trim("") == "";
  }

  /** A patch whose result passes the validators keeps the stored record valid, and the
      patched paths carry the patch's values. */
  lemma ValidatedPatch(e: Event, p: EventPatch)
    requires FailingPaths(Patched(e, p)) == []
    ensures Valid(Patched(e, p))
    ensures p.category.Some? ==> p.category.value in Categories
    ensures p.maxParticipants.Some? ==> p.maxParticipants.value >= 1
  {
  }

  // ---------------------------------------------------------------------------
  // The responses.

  const EventNotFound: Response := Response(404, Msg("Event not found"))
  const BadEventData: Response := Response(400, Msg("Bad request, invalid data."))
  const EventDeleted: Response := Response(200, Msg("Event deleted"))

  /** The Events collection. */
  class EventStore {
    var events: map<EventId, Event>
    var nextId: EventId

    /** Every stored id was handed out: ids are below the next one. */
    ghost predicate Valid()
      reads this
    {
      forall id :: id in events ==> id < nextId
    }

    /** Every stored document satisfies the schema. */
    ghost predicate AllValid()
      reads this
    {
      forall id :: id in events ==> EventModel.Valid(events[id])
    }

    constructor()
      ensures Valid() && AllValid() && events == map[]
    {
      events := map[];
      nextId := 0;
    }

    /** `getAllEvents`. A page below 1 asks MongoDB for a negative skip, which it refuses;
        otherwise the page of sorted matches with the counts. */
    method ListEvents(q: EventQuery) returns (r: Response)
      requires Valid()
      requires LimitOf(q) >= 1
      ensures PageOf(q) < 1 ==>
                r == Response(500, MsgAndError("Error fetching events", NegativeSkip((PageOf(q) - 1) * LimitOf(q))))
      ensures PageOf(q) >= 1 ==>
                var total := |Matching(events, nextId, q.category)|;
                r == Response(200, EventPage(Listing(events, nextId, q), total, CeilDiv(total, LimitOf(q)), PageOf(q)))
    {
      var page, limit := PageOf(q), LimitOf(q);
      if page < 1 {
        return Response(500, MsgAndError("Error fetching events", NegativeSkip((page - 1) * limit)));
      }
      var matching := Matching(events, nextId, q.category);
      var found := Page(SortByDate(matching, Descending(q)), page, limit);
      r := Response(200, EventPage(found, |matching|, CeilDiv(|matching|, limit), page));
    }

    /** `getEventById`. */
    method GetEventById(pid: PathId) returns (r: Response)
      requires Valid()
      ensures pid.Parsed? && pid.id in events ==> r == Response(200, EventDoc(pid.id, events[pid.id]))
      ensures pid.Parsed? && pid.id !in events ==> r == EventNotFound
      ensures pid.Malformed? ==> r == Response(500, MsgAndError("Error fetching event", CastToObjectId(pid.raw)))
    {
      match pid
      case Malformed(raw) =>
        r := Response(500, MsgAndError("Error fetching event", CastToObjectId(raw)));
      case Parsed(id) =>
        if id in events {
          r := Response(200, EventDoc(id, events[id]));
        } else {
          r := EventNotFound;
        }
    }

    /** `createEvent` for the caller `caller` (`req.user.id`; None when no middleware set
        `req.user`, where reading `.id` throws inside the `try`). A payload the schema
        refuses is a 400 and the collection is unchanged; otherwise the new document gets
        a fresh id and a 201. */
    method CreateEvent(p: EventPayload, caller: Option<UserId>) returns (r: Response)
      requires Valid()
      modifies this
      ensures Valid()
      ensures var built := if caller.Some? then Build(p, caller.value) else None;
              if built.None? then r == BadEventData && events == old(events) && nextId == old(nextId)
              else var id := old(nextId);
                && id !in old(events) && nextId == id + 1
                && events == old(events)[id := built.value]
                && r == Response(201, EventDoc(id, built.value))
      ensures old(AllValid()) ==> AllValid()
    {
      r := BadEventData;
      if caller.Some? {
        var built := Build(p, caller.value);
        if built.Some? {
          Save(built.value);
          r := Response(201, EventDoc(nextId - 1, built.value));
        }
      }
    }
    /** `save()` of a new document: stored under a fresh id, the next id moves on. */
    method Save(e: Event)
      requires Valid()
      modifies this
      ensures Valid() && nextId == old(nextId) + 1 && events == old(events)[old(nextId) := e]
      ensures old(AllValid()) && EventModel.Valid(e) ==> AllValid()
    {
      events := events[nextId := e];
      nextId := nextId + 1;
    }

    /** `updateEvent` as written: `findByIdAndUpdate(id, updates, { new: true })` without
        validators. A missing id answers 200 with `null`; a malformed one 400. */
    method UpdateEvent(pid: PathId, patch: EventPatch) returns (r: Response)
      requires Valid()
      modifies this
      ensures Valid() && nextId == old(nextId)
      ensures pid.Malformed? ==>
                r == Response(400, MsgAndError("Error updating event", CastToObjectId(pid.raw))) && events == old(events)
      ensures pid.Parsed? && pid.id !in old(events) ==> r == Response(200, Null) && events == old(events)
      ensures pid.Parsed? && pid.id in old(events) ==>
                var e := Patched(old(events)[pid.id], patch);
                events == old(events)[pid.id := e] && r == Response(200, EventDoc(pid.id, e))
    {
      match pid
      case Malformed(raw) =>
        r := Response(400, MsgAndError("Error updating event", CastToObjectId(raw)));
      case Parsed(id) =>
        if id in events {
          var e := Patched(events[id], patch);
          events := events[id := e];
          r := Response(200, EventDoc(id, e));
        } else {
          r := Response(200, Null);
        }
    }

    /** `updateEvent` with the schema's validators run on the update
        (`{ new: true, runValidators: true }`): a patch that would store an invalid
        document is a 400 naming the failing paths, and the collection keeps every
        document valid. */
    method UpdateEventValidated(pid: PathId, patch: EventPatch) returns (r: Response)
      requires Valid()
      modifies this
      ensures Valid() && nextId == old(nextId)
      ensures old(AllValid()) ==> AllValid()
      ensures pid.Malformed? ==>
                r == Response(400, MsgAndError("Error updating event", CastToObjectId(pid.raw))) && events == old(events)
      ensures pid.Parsed? && pid.id !in old(events) ==> r == Response(200, Null) && events == old(events)
      ensures pid.Parsed? && pid.id in old(events) ==>
                var e := Patched(old(events)[pid.id], patch);
                if EventModel.Valid(e)
                then events == old(events)[pid.id := e] && r == Response(200, EventDoc(pid.id, e))
                else events == old(events)
                     && r == Response(400, MsgAndError("Error updating event", Invalid(FailingPaths(e))))
    {
      match pid
      case Malformed(raw) =>
        r := Response(400, MsgAndError("Error updating event", CastToObjectId(raw)));
      case Parsed(id) =>
        if id in events {
          var e := Patched(events[id], patch);
          var failing := FailingPaths(e);
          if failing == [] {
            events := events[id := e];
            r := Response(200, EventDoc(id, e));
          } else {
            r := Response(400, MsgAndError("Error updating event", Invalid(failing)));
          }
        } else {
          r := Response(200, Null);
        }
    }

    /** `deleteEvent`: the id is gone afterwards and the answer is the same whether or not
        it was stored. */
    method DeleteEvent(pid: PathId) returns (r: Response)
      requires Valid()
      modifies this
      ensures Valid() && nextId == old(nextId)
      ensures old(AllValid()) ==> AllValid()
      ensures pid.Parsed? ==> events == old(events) - {pid.id} && r == EventDeleted
      ensures pid.Malformed? ==>
                events == old(events) && r == Response(500, MsgAndError("Error deleting event", CastToObjectId(pid.raw)))
    {
      match pid
      case Malformed(raw) =>
        r := Response(500, MsgAndError("Error deleting event", CastToObjectId(raw)));
      case Parsed(id) =>
        events := events - {id};
        r := EventDeleted;
    }
  }

  /** Creating an event and fetching it by the returned id gives back the stored document,
      with the submitted title, description and location (trimmed). */
  method CreateThenFetch(store: EventStore, p: EventPayload, caller: UserId) returns (created: Response, fetched: Response)
    requires store.Valid() && Acceptable(p)
    modifies store
    ensures created.status == 201 && created.body.EventDoc?
    ensures fetched == Response(200, created.body)
    ensures created.body.event.title == Trim(p.title.value)
    ensures created.body.event.description == Trim(p.description.value)
    ensures created.body.event.location == Trim(p.location.value)
  {
    BuildSucceedsIff(p, caller);
    BuildKeepsPayload(p, caller);
    created := store.CreateEvent(p, Some(caller));
    fetched := store.GetEventById(Parsed(created.body.id));
  }

  /** An update by id changes that document only, with or without validators; the
      others are left as they were. */
  method UpdateLeavesOthers(store: EventStore, id: EventId, patch: EventPatch, other: EventId)
    returns (plain: Response, validated: Response)
    requires store.Valid() && other != id && other in store.events
    modifies store
    ensures other in store.events && store.events[other] == old(store.events[other])
  {
    plain := store.UpdateEvent(Parsed(id), patch);
    validated := store.UpdateEventValidated(Parsed(id), patch);
  }

  /** Repeating an update gives the same answer and leaves the collection as the first
      one left it. */
  method UpdateTwice(store: EventStore, pid: PathId, patch: EventPatch) returns (first: Response, second: Response)
    requires store.Valid()
    modifies store
    ensures second == first
    ensures pid.Parsed? && pid.id in old(store.events) ==>
              store.events == old(store.events)[pid.id := Patched(old(store.events)[pid.id], patch)]
    ensures !(pid.Parsed? && pid.id in old(store.events)) ==> store.events == old(store.events)
  {
    if pid.Parsed? && pid.id in store.events {
      PatchIdempotent(store.events[pid.id], patch);
    }
    first := store.UpdateEvent(pid, patch);
    second := store.UpdateEvent(pid, patch);
  }
}
