/** The in-memory booking store behind `POST /events`, `GET /admin/events` and
    `GET /admin/stats`: an append-only list of event records whose ids are
    assigned from the list's length, and a revenue figure recomputed as a fold
    of the package price table over every record. */
module EventStore {

  /** The body of a booking request. A field that is absent or empty in the
      request is the empty string here (both are falsy). */
  datatype BookingRequest = BookingRequest(
    name: string, date: string, venue: string, email: string, package: string)

  /** One stored booking. `createdAt` is the clock reading taken at save time. */
  datatype Event = Event(
    id: nat, name: string, date: string, venue: string, email: string,
    package: string, createdAt: int)

  /** The reply of `POST /events`: a 400 with a message, or success with the record. */
  datatype SaveReply = Rejected(status: nat, message: string) | Saved(event: Event)

  const BasicPrice: nat := 9999
  const PremiumPrice: nat := 24999
  const LuxuryPrice: nat := 49999

  /** Every one of the five required fields is present and non-empty. */
  predicate Complete(req: BookingRequest)
  {
    req.name != "" && req.date != "" && req.venue != "" && req.email != "" && req.package != ""
  }

  /** The price charged for a package: Basic and Premium by exact name,
      every other value (not only "Luxury") at the top price. */
  function Price(package: string): (p: nat)
    ensures BasicPrice <= p <= LuxuryPrice
    ensures p == BasicPrice <==> package == "Basic"
    ensures p == PremiumPrice <==> package == "Premium"
    ensures package != "Basic" && package != "Premium" ==> p == LuxuryPrice
  {
    if package == "Basic" then BasicPrice
    else if package == "Premium" then PremiumPrice
    else LuxuryPrice
  }

  /** Revenue as the stats handler's `reduce` computes it: a left fold from 0
      adding each record's price in list order. */
  function Revenue(events: seq<Event>): int
  {
    if events == [] then 0
    else Revenue(events[..|events| - 1]) + Price(events[|events| - 1].package)
  }

  /** Number of records whose package is exactly `package`. */
  function Count(events: seq<Event>, package: string): (n: nat)
    ensures n <= |events|
  {
    if events == [] then 0
    else Count(events[..|events| - 1], package) + (if events[|events| - 1].package == package then 1 else 0)
  }

  /** Ids are 1, 2, ..., n in list order. */
  ghost predicate IdsSequential(events: seq<Event>)
  {
    forall i :: 0 <= i < |events| ==> events[i].id == i + 1
  }

  /** Appending one record raises the revenue by exactly that record's price. */
  lemma RevenueAppend(events: seq<Event>, e: Event)
    ensures Revenue(events + [e]) == Revenue(events) + Price(e.package)
  {
  }

  /** The fold distributes over concatenation: revenue does not depend on how
      the list was built up. */
  lemma {:induction false} RevenueConcat(a: seq<Event>, b: seq<Event>)
    ensures Revenue(a + b) == Revenue(a) + Revenue(b)
  {
    if b == [] {
      assert a + b == a;
    } else {
      var last := b[|b| - 1];
      var front := b[..|b| - 1];
      assert b == front + [last];
      assert a + b == (a + front) + [last];
      RevenueConcat(a, front);
      RevenueAppend(a + front, last);
      RevenueAppend(front, last);
    }
  }

  /** Revenue is the price table weighted by how many records chose each tier;
      every record that is neither Basic nor Premium is charged the top price. */
  lemma {:induction false} RevenueByTier(events: seq<Event>)
    ensures Count(events, "Basic") + Count(events, "Premium") <= |events|
    ensures Revenue(events) ==
      BasicPrice * Count(events, "Basic") + PremiumPrice * Count(events, "Premium")
      + LuxuryPrice * (|events| - Count(events, "Basic") - Count(events, "Premium"))
  {
    if events != [] {
      RevenueByTier(events[..|events| - 1]);
    }
  }

  /** Revenue lies between the all-Basic and the all-top-price totals. */
  lemma {:induction false} RevenueBounds(events: seq<Event>)
    ensures BasicPrice * |events| <= Revenue(events) <= LuxuryPrice * |events|
  {
    if events != [] {
      RevenueBounds(events[..|events| - 1]);
    }
  }

  /** Ids 1..n are pairwise distinct, and n + 1 is not yet taken. */
  lemma IdsDistinct(events: seq<Event>)
    requires IdsSequential(events)
    ensures forall i, j :: 0 <= i < j < |events| ==> events[i].id != events[j].id
    ensures forall i :: 0 <= i < |events| ==> events[i].id != |events| + 1
  {
  }

  /** The process-wide `events` array. */
  class Store {
    var events: seq<Event>

    ghost predicate Valid()
      reads this
    {
      IdsSequential(events)
    }

    constructor ()
      ensures Valid() && events == []
    {
      events := [];
    }

    /** `POST /events`: reject an incomplete request and leave the store as it
        was, or append a record with id `length + 1` carrying the request's
        fields unchanged and return that same record. */
    method Save(req: BookingRequest, now: int) returns (reply: SaveReply)
      requires Valid()
      modifies this
      ensures Valid()
      ensures !Complete(req) ==> reply == Rejected(400, "All fields required") && events == old(events)
      ensures Complete(req) ==> reply.Saved? && events == old(events) + [reply.event]
      ensures Complete(req) ==>
        reply.event == Event(|old(events)| + 1, req.name, req.date, req.venue, req.email, req.package, now)
      ensures Revenue(events) == Revenue(old(events)) + (if Complete(req) then Price(req.package) else 0)
    {
      if !Complete(req) {
        return Rejected(400, "All fields required");
      }
      var event := Event(|events| + 1, req.name, req.date, req.venue, req.email, req.package, now);
      RevenueAppend(events, event);
      events := events + [event];
      reply := Saved(event);
    }

    /** `GET /admin/events`: every stored record, in insertion order. */
    method List() returns (all: seq<Event>)
      requires Valid()
      ensures all == events
      ensures forall i :: 0 <= i < |all| ==> all[i].id == i + 1
    {
      all := events;
    }

    /** `GET /admin/stats`: the record count and a fresh revenue fold. */
    method Stats() returns (totalEvents: nat, revenue: int)
      ensures totalEvents == |events|
      ensures revenue == Revenue(events)
      ensures BasicPrice * totalEvents <= revenue <= LuxuryPrice * totalEvents
    {
      totalEvents := |events|;
      revenue := Revenue(events);
      RevenueBounds(events);
    }
  }

  /** A fresh store that books one event of each tier reports three events and
      a revenue of 9999 + 24999 + 49999. */
  method BookOneOfEachTier(now: int) returns (totalEvents: nat, revenue: int)
    ensures totalEvents == 3 && revenue == 84997
  {
    var store := new Store();
    var r1 := store.Save(BookingRequest("Asha", "2025-01-10", "Pune", "a@x.in", "Basic"), now);
    var r2 := store.Save(BookingRequest("Ravi", "2025-02-11", "Goa", "r@x.in", "Premium"), now);
    var r3 := store.Save(BookingRequest("Meera", "2025-03-12", "Delhi", "m@x.in", "Luxury"), now);
    totalEvents, revenue := store.Stats();
  }
}
