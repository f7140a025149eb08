# EventFlow Bharat backend: booking store, stats and payment checks

A Dafny model of the logic in `server.js` of the EventFlow Bharat event-booking
backend, with proofs of what it promises.

- **Booking store** (`store.dfy`, module `EventStore`). The process-wide
  `events` array is the class `Store` holding a `seq<Event>`.
  - `Save` models `POST /events`. It rejects a request with any of the five
    fields empty or missing and leaves the store unchanged. Otherwise it
    appends a record whose id is the old length plus one.
  - `List` models `GET /admin/events` and `Stats` models `GET /admin/stats`.
  - The object invariant `Valid` says that ids run 1..n in list order.
  - `Revenue` is the stats handler's `reduce`: a left fold of the package
    price table (Basic 9999, Premium 24999, anything else 49999) over every
    record. It has lemmas for append, concatenation, per-tier counts and
    bounds.
- **Order shaping** (`payment.dfy`, module `Payment`). `CreateOrder` models
  `POST /payment/order` up to the gateway call. A missing or zero amount gets a
  400. Any other amount becomes the gateway request
  `{amount * 100, "INR", "event_" + now}`, and the model returns that request
  as a value.
- **Signature check** (`payment.dfy`). `Verify` models `POST /payment/verify`.
  It succeeds exactly when the HMAC of `orderId + "|" + paymentId` under the
  secret equals the supplied signature. The HMAC is a function parameter
  `hmac`, which stands for hex-encoded HMAC-SHA256 (RFC 2104 over the SHA-256
  of FIPS 180-4). The proofs are about the decision logic, not the
  cryptography.
- **Assistant** (`assistant.dfy`, module `Assistant`). `Assist` models the
  three-entry reply table of `POST /ai/assist` and its default reply.

Modelling choices:
- Booking fields are strings. In `POST /events` (server.js:71), a missing
  field is the empty string; both are falsy there.
- A missing assistant question is modelled as the empty string. It gets the
  default reply, like the handler's lookup of the key "undefined", because
  neither key is in the table.
- `Verify` takes its three values to be present strings.
- The order amount is an `Option<int>`, where `None` means missing.
- The clock readings (`Date.now()`, `new Date()`) are parameters `now`.
- The HMAC secret is a parameter.

Behaviours of the code that the model keeps:
- Only a falsy amount is rejected. A negative amount is forwarded to the
  gateway as a negative number of paise.
- Any package other than "Basic" or "Premium" is charged 49999. This includes
  "basic", "Gold" and any other spelling, not only "Luxury".
- The receipt is unique only per clock reading. Two orders created in the same
  millisecond get the same receipt. `ReceiptInjective` proves the converse:
  different readings give different receipts.

## Model

| member | source | states |
|---|---|---|
| `EventStore.Price` | server.js:97-98 | the price is 9999 exactly for "Basic", 24999 exactly for "Premium", and 49999 for every other package; it always lies between 9999 and 49999 |
| `EventStore.Revenue` | server.js:96-99 | a left fold from 0 adding the `Price` of each record in list order; it has no contract of its own, and its properties are stated by RevenueAppend, RevenueConcat, RevenueByTier and RevenueBounds |
| `EventStore.RevenueAppend` | server.js:96-99 | appending one record raises the revenue by exactly that record's price |
| `EventStore.RevenueConcat` | server.js:96-99 | the revenue of two concatenated lists is the sum of their revenues, so the fold does not drift with how the list grew |
| `EventStore.RevenueByTier` | server.js:96-99 | revenue = 9999·#Basic + 24999·#Premium + 49999·#(all other records) |
| `EventStore.RevenueBounds` | server.js:96-99 | revenue lies between 9999·n and 49999·n for n records |
| `EventStore.IdsDistinct` | server.js:76 | when ids run 1..n, they are pairwise distinct and the next id n+1 is not yet taken |
| `EventStore.Store.constructor` | server.js:13 | the store starts empty, which satisfies the id invariant |
| `EventStore.Store.Save` | server.js:68-88 | an incomplete request gets 400 "All fields required" and leaves the store exactly as it was; a complete one appends one record at the end, leaves the earlier records unchanged, and gives it id old length + 1 and the request's five fields and the clock reading; the reply carries that same record; ids stay 1..n; the revenue fold rises by the new record's price, or not at all on rejection |
| `EventStore.Store.List` | server.js:91-93 | returns the stored records in insertion order, with ids 1..n |
| `EventStore.Store.Stats` | server.js:95-105 | totalEvents is the number of records; revenue is the fresh fold over all of them, between 9999 and 49999 per record |
| `EventStore.BookOneOfEachTier` | server.js:68-105 | a fresh store that saves one Basic, one Premium and one Luxury booking reports 3 events and revenue 84997 |
| `Payment.Decimal` | server.js:44 | the timestamp's text is non-empty and made only of decimal digits |
| `Payment.DecimalRoundTrip` | server.js:44 | reading the decimal text back gives the timestamp |
| `Payment.Receipt` | server.js:44 | every receipt starts with "event_" followed by at least one character |
| `Payment.ReceiptInjective` | server.js:44 | orders created at different clock readings carry different receipts |
| `Payment.CreateOrder` | server.js:34-48 | rejected with 400 "Amount required" exactly when the amount is missing or 0; otherwise the gateway request is in INR, carries the time-based receipt, and has an amount that is a multiple of 100 which divides back to the requested amount; a negative amount is forwarded as negative |
| `Payment.OrderOfFiveHundred` | server.js:41-45 | an amount of 500 becomes a gateway request of 50000 in INR |
| `Payment.Payload` | server.js:54 | the signed message is exactly the order id, then a bar at position length(orderId), then the payment id: its prefix is the order id and its suffix the payment id |
| `Payment.PayloadInjective` | server.js:54 | when order ids contain no bar, equal messages mean equal order ids and equal payment ids |
| `Payment.PayloadAmbiguous` | server.js:54 | with a bar inside an id, the pairs ("a\|b", "c") and ("a", "b\|c") sign the same message |
| `Payment.Verify` | server.js:51-65 | success, with status 200, if and only if the supplied signature equals hmac(secret, orderId + "\|" + paymentId); otherwise status 400 and no success |
| `Payment.SignatureExact` | server.js:60-64 | once one signature is accepted, every other string is rejected: no near match, case-insensitive match or prefix is accepted |
| `Payment.NonHexRejected` | server.js:55-60 | when the digest is lower-case hex, a signature containing any other character is rejected |
| `Assistant.Assist` | server.js:108-120 | the reply is never empty; for "wedding", "birthday" and "corporate" it is that key's table entry; it is the default reply if and only if the question is not one of those keys |

`Verify` and `CreateOrder` are functions without a `reads` clause. They cannot
read or change the store, so repeating a call with the same inputs gives the
same result.

## Left out

- Express setup, CORS, JSON body parsing, `app.listen` and the health-check
  route (server.js:1-10, 21-24, 122-124). These are HTTP plumbing.
- `GET /payment/key` (server.js:27-31). It only reads configuration.
- The payment-gateway client and its `orders.create` call (server.js:16-19,
  41-47). This is a foreign network call. The model stops at the request value
  the handler would send. The gateway's response and its errors are not
  modelled.
- HMAC-SHA256 itself (server.js:55-58). It is library cryptography, so it is
  the parameter `hmac`.
- Payment.SignatureExact: says nothing about changes to the order id or the
  payment id. Those flip the result only if the HMAC separates the messages,
  which the `hmac` parameter does not promise.
- Payment.Verify: takes the order id, payment id and signature to be present
  strings. In `POST /payment/verify` (server.js:52-60), a missing id is
  concatenated as the text "undefined", so the signed message becomes e.g.
  "undefined|pay_1". A missing signature is `undefined`, which never equals
  the digest. The model has no separate case for either.
- Payment.CreateOrder: the handler computes `amount * 100` in IEEE-754
  double arithmetic (server.js:42), which is exact only while |amount * 100|
  is at most 2^53. Above that the product is rounded and need not divide back
  to the requested amount. The model's integers are unbounded, so it does not
  capture this rounding. The same holds for the `reduce` sum in `Stats`
  (server.js:96-99) and the `events.length + 1` id (server.js:76).
- Environment lookups for the key id, the secret and the port, including the
  "test_secret" fallback (server.js:10, 17-18, 29, 56). The secret is a
  parameter.
- The wall clock (server.js:44, 82). It is the parameter `now`. A millisecond
  timestamp is a `nat`, and `createdAt` is an `int`.
- Concurrent requests. Node runs handlers on one thread, and the model is
  sequential.
- JavaScript truthiness and coercion for request values that are not strings
  or integers, such as numeric strings, NaN, null, objects and arrays. Fields
  are strings and the amount is an integer.
- Property names inherited by plain JavaScript objects. A question such as
  "constructor" or "toString" makes the lookup find an inherited function
  rather than the default reply. `Assist` treats every such name as a missing
  key.
- JSON serialisation of the replies and the `Date` object's text form.
