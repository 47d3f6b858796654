# Ticket marketplace backend: settlement and inventory model

This Dafny project models the write path of the Ticket Kinen marketplace backend
(`index.js`). Vendors list travel tickets, buyers book them, and a hosted payment
gateway collects the money. The centre of the model is **settlement**
(`POST /success-payment`). It takes the checkout session the gateway reports. When the
session's `payment_status` is `"paid"`, settlement makes three writes in a fixed
order:

1. it inserts a payment record;
2. it sets the booking named in the session metadata to `payment: "paid"`;
3. it takes the booked quantity off that ticket's `availableSits` with `$inc`.

Around it sit:

- the **checkout request** (`POST /checkout-payment`), which writes the booking
  context into the session metadata that settlement later reads back;
- the **approved-tickets page** (`GET /tickets/approved-tickets`);
- the **`onAdd` flag** update;
- the **user registration** that forces `role: "user"`;
- the other single-write handlers on tickets and bookings.

Modules, leaf first:

- `Wrappers`: `Option` and `Result`.
- `JsNumbers`: the JavaScript number behaviour the handlers depend on. This covers
  `Number(s)` on strings, `String(n)` on integers, and arithmetic that propagates
  NaN. It proves `Number(String(n)) == n`.
- `Mongo`: a collection is an ordered sequence of documents with unique `_id`s. The
  module gives the filter `{ _id: new ObjectId(x) }`, `updateOne` (first match only;
  `matchedCount`/`modifiedCount`), `deleteOne` and `skip`/`limit`.
- `Entities`: the user, ticket, booking and payment documents, and the metadata keys.
- `Settlement`: the retrieved session record, the payment record built from it, and
  `Settle`, the settlement transition on the four collections. It also holds the
  lemmas about `Settle`.
- `Checkout`: the `sessions.create` request and the metadata round trip into settlement.
- `Listing`: the approved-tickets page and its count.
- `Server`: class `Store` with the four collections as fields and one method per
  writing handler. `PostSuccessPayment` performs the three writes one after another.
  It is proved to leave the store exactly as `Settle` says.

The model follows the code, and the code differs from the intended design in these
places. Each difference is modelled as the code behaves:

- Settlement has no idempotency guard. Settling the same paid session twice inserts
  two payment records and decrements the ticket twice (`SettleTwicePayments`,
  `SettleTwiceTicket`).
- Settlement does not check that the booking or ticket exists. An `updateOne` whose
  filter matches nothing changes nothing, and settlement still succeeds.
- Settlement puts no lower bound on `availableSits`. A sale can drive it negative
  (`OversellGoesNegative`, `SettleAllInventory`).
- The checkout does not validate `unitPrice` or `bookingQuantity`.
- Of the six metadata keys the checkout writes, settlement reads back five.
  `buyer_name` is never read: the payment's buyer name and e-mail come from the
  session's `customer_details`.
- No store failure is reported per write step. A failed write rejects the request's
  promise, and the earlier writes stay in place.

Inputs from outside the program are parameters:

- the session returned by `sessions.retrieve`;
- the `_id` the driver generates for an inserted document;
- the `new Date()` reading;
- the `SITE_DOMAIN` setting.

## Model

| member | source | states |
|---|---|---|
| Settlement.Settle | index.js:296-337 | A session whose status is not `"paid"` gives the 400 outcome and leaves all four collections unchanged. A paid one settles with `insertedId` equal to the new payment's `_id`, leaves users unchanged and appends exactly one payment record, the one built from the session |
| Settlement.SettleKeepsValid | index.js:322-334 | When the payment's `_id` is fresh, settlement keeps the `_id`s of tickets, bookings and payments unique |
| Settlement.PaymentRecord | index.js:300-321 | The record takes `bookingId`, `ticketId`, `vendorName` and `vendorEmail` from the metadata (absent when the key is missing). `buyingQuantity` is `Number(metadata.booking_quantity)`, `transactionId` is `payment_intent`, `paymentStatus` is the session's status, `amount * 100` is `amount_total`, and the buyer comes from `customer_details` |
| Settlement.StatusCode | index.js:305-306 | The reply is 400 exactly for the "Payment not completed" outcome |
| Settlement.Message | index.js:305-306 | The reply carries the message "Payment not completed" exactly when its status is 400 |
| Settlement.SettleMarksBooking | index.js:323-328 | After a paid settlement, the booking whose `_id` is `metadata.booking_id` has `payment == "paid"` and all its other fields unchanged. Every other booking is unchanged, and the length and every `_id` are kept. With no such booking, the bookings are unchanged |
| Settlement.SettleDecrementsTicket | index.js:329-334 | After a paid settlement, the ticket whose `_id` is `metadata.ticket_id` has `availableSits = old + (-quantity)`, with no bound checked. Its other fields and all other tickets are unchanged, and the length and every `_id` are kept. With no such ticket, the tickets are unchanged |
| Settlement.SettleDanglingBooking | index.js:323-328 | A paid session whose `booking_id` matches no booking still settles; the booking update reports 0 matched and 0 modified, and the bookings are unchanged |
| Settlement.SettleDanglingTicket | index.js:329-334 | A paid session whose `ticket_id` matches no ticket still settles; the ticket update reports 0 matched and 0 modified, and the tickets are unchanged |
| Settlement.SettleTwicePayments | index.js:296-322 | Settling one paid session twice appends two payment records, one per call, built from the same session |
| Settlement.SettleTwiceTicket | index.js:329-334 | Settling one paid session twice matches the ticket both times and lowers `availableSits` by twice the booked quantity |
| Settlement.SettleTwiceBooking | index.js:323-328 | On the second settlement of a paid session, the booking update matches one document and modifies none, and the bookings stay as the first call left them |
| Settlement.SeatChanges | index.js:302-303 | Each call of a series contributes one seat change, in call order: the ticket named by its `ticket_id` and `Number(booking_quantity)` |
| Settlement.SettleAllTickets | index.js:329-334 | A series of paid settlements changes the tickets only by its seat changes, applied in call order as `updateOne` with `$inc` by minus the quantity |
| Settlement.SeatChangesAgainst | index.js:302-303 | When every call is paid and names ticket `id` with an integer quantity, every seat change targets `id` and the changes sum to the booked quantities |
| Settlement.DecrementAllInventory | index.js:329-334 | Successive `$inc` changes against one ticket of capacity C leave `availableSits == C - (q1 + ... + qn)` |
| Settlement.SettleAllInventory | index.js:322-334 | After n paid settlements against one ticket of capacity C, `availableSits == C - (q1 + ... + qn)`, with no lower bound |
| Settlement.SettleAllPayments | index.js:300-322 | After n paid settlements the payments are the old ones followed by each call's own record, built from its session, `_id` and clock, in call order |
| Settlement.OversellGoesNegative | index.js:329-334 | A paid session for 2 seats against a ticket with 1 seat settles and leaves `availableSits == -1` |
| Checkout.CheckoutMetadata | index.js:281-288 | The metadata holds exactly the six keys `booking_id`, `booking_quantity`, `ticket_id`, `buyer_name`, `seller_name`, `seller_email` |
| Checkout.CreateSessionRequest | index.js:267-292 | There is one line item in `bdt`, with the product name and a total charge of `unitPrice * 100 * bookingQuantity` minor units. The mode is `payment`, the customer e-mail is the buyer's, and the metadata is the bag above. The function takes no store, so checkout writes no collection |
| Checkout.MetadataReadBack | index.js:281-303 | From a session carrying the checkout metadata, settlement reads back the booking id, the ticket id, the vendor name and e-mail, and the quantity, since `Number(String(q)) == q` |
| Checkout.CheckoutThenSettleRecord | index.js:254-322 | A checkout followed by a paid settlement of that session records the body's booking, ticket, quantity, vendor name and vendor e-mail in the appended payment |
| Checkout.CheckoutThenSettleTicket | index.js:254-334 | A checkout followed by a paid settlement lowers the body's ticket by exactly `bookingQuantity` |
| Checkout.CheckoutThenSettleBooking | index.js:254-328 | A checkout followed by a paid settlement marks the body's booking paid |
| JsNumbers.NatToString | index.js:283 | The decimal text of a natural number is non-empty and all digits, with a leading `0` only for 0 |
| JsNumbers.IntToString | index.js:283 | `String(n)` is non-empty, starts with `-` exactly for negative n, and the rest is decimal digits; `IntToStringRoundTrip` proves that those digits convert back to n |
| JsNumbers.IntToStringRoundTrip | index.js:302 | `Number(String(n)) == n` for every integer `n` |
| JsNumbers.ToNumber | index.js:302 | A blank string converts to 0 |
| Listing.Approved | index.js:153-158 | The filter returns only approved tickets from the collection, and all of them |
| Listing.CountApproved | index.js:163 | `countDocuments({status: 'approved'})` equals the number of tickets the approved filter returns |
| Listing.PageSkipValue | index.js:155-159 | The skip `(page - 1) * 9` is an integer exactly when `Number(page)` is, and then equals `(Number(page) - 1) * 9`; otherwise it is NaN |
| Listing.ApprovedPage | index.js:152-168 | When the skip `(page - 1) * 9` is a non-negative integer, the page holds at most 9 tickets, all approved and all from the collection, and `totalTickets` is the number of approved tickets. Otherwise the store is taken to reject the query |
| Listing.PageAt | index.js:157-163 | For a non-negative skip, the page holds at most 9 tickets, all approved and all from the collection, and `totalTickets` is the number of approved tickets |
| Listing.PageAtWindow | index.js:157-161 | The page at `skip` is the approved list from position `skip`, `min(9, remaining)` long, and empty past the end |
| Listing.PageWindow | index.js:154-166 | For a query value that converts to n >= 1, the page is the part of the approved list that starts at `(n-1)*9` and holds `min(9, remaining)` tickets, and `totalTickets` counts all approved tickets |
| Listing.PageBelowOneRejected | index.js:159 | A query value that converts to a number below 1 gives a negative skip, which the store is taken to reject |
| Listing.PageNotANumberRejected | index.js:155-159 | A missing or non-numeric `page` gives a NaN skip, which the store is taken to reject |
| Mongo.UpdateOne | index.js:323-334 | Only the first document whose `_id` matches the filter is changed, and only as the update says. Every `_id` is kept. `matchedCount` is 1 exactly when some document matches, and `modifiedCount` is 1 exactly when the collection changed |
| Mongo.DeleteOne | index.js:211-216 | At most one document is removed, and only one that the filter matches. Every non-matching document remains |
| Mongo.SkipLimit | index.js:159-160 | The result holds at most `limit` consecutive elements, starting at `skip`, and is empty past the end |
| Server.Registered | index.js:83-84 | A new user is stored with `role == "user"` whatever the body said, with `createdAt` set to now, and with the body's other fields |
| Server.OnAddFlag | index.js:183 | `onAdd` is false exactly when the query value is the string `"false"` |
| Server.OnAddUpdate | index.js:179-187 | The ticket with the given `_id` gets `onAdd == (query != "false")`. Nothing else in it changes, and no other ticket changes |
| Server.Store.PostUser | index.js:81-87 | Exactly one user is appended, in its registered form, no other collection changes, and the unique-`_id` invariant is kept |
| Server.Store.PostTicket | index.js:130-135 | Exactly one ticket is appended with `createdAt` set, and the `_id`s stay unique |
| Server.Store.PatchTicketStatus | index.js:170-178 | Tickets change as `updateOne` with `$set: {status}` says, and the other collections are unchanged |
| Server.Store.PatchTicketOnAdd | index.js:179-187 | Tickets change as `updateOne` with the `onAdd` `$set` says, and the other collections are unchanged |
| Server.Store.PatchTicket | index.js:188-210 | Tickets change as `updateOne` setting the listing fields and `availableSits` says, and the other collections are unchanged |
| Server.Store.DeleteTicket | index.js:211-216 | Tickets change as `deleteOne` says. Bookings and payments that name the ticket stay |
| Server.Store.PostBooking | index.js:219-224 | Exactly one booking is appended with `createdAt` set, and the `_id`s stay unique |
| Server.Store.PatchBookingStatus | index.js:237-245 | Bookings change as `updateOne` with `$set: {bookingStatus}` says, and the other collections are unchanged |
| Server.Store.DeleteBooking | index.js:246-251 | Bookings change as `deleteOne` says. Payments that name the booking stay |
| Server.Store.PostSuccessPayment | index.js:296-338 | The outcome and the new collections are exactly those of `Settle` on the old collections, after the insert, `$set` and `$inc` are performed in that order. The unique-`_id` invariant is kept |

## Left out

- Express routing, CORS, the listener and the database connection (index.js:1-22, 46-79, 341-355) are I/O plumbing.
- Firebase token verification (index.js:24-44) is a call into a foreign library. The model covers requests that reach a handler; the 401 replies are not modelled.
- The read-only handlers (`GET /users`, `/users/user/:email`, `/users/info/:email`, `/tickets`, `/tickets/ticket/:id`, `/tickets/my-tickets/:email`, `/bookings/my-bookings/:userEmail`, `/bookings/booking-request/:vendorEmail`) each run one query and write nothing.
- `PATCH /users/update-role` and `/users/update-status` (index.js:110-127) are single `$set` updates by e-mail, and nothing in the settlement or listing path reads them.
- The gateway calls `sessions.create` and `sessions.retrieve` are out of scope. The request is a record, the retrieved session is an input, and the redirect URL in the reply is not modelled.
- Floating point: `unitPrice * 100` is taken on integer prices, and `amount_total / 100` is exact division on reals.
- JsNumbers: a JavaScript number is an IEEE double, but the model holds exact unbounded integers. Integers beyond 2^53 lose precision in JavaScript, `String(n)` switches to exponent notation from 1e21 (`String(1e21) == "1e+21"`), so `NatToString`/`IntToString` are not `String` there, and the driver stores numbers as int32 or double. Booking quantities, seat counts and page numbers of that size are not ones the checkout or the listing serve, so the model leaves that range out.
- JsNumbers.ToNumber: only the empty string, ASCII white space and an optionally signed run of decimal digits are converted. Fractions, exponents, hexadecimal, `Infinity` and Unicode white space become NaN in the model, although JavaScript converts them.
- Listing.ApprovedPage: index.js passes a NaN or negative skip on to the driver unchecked; what the database server does with it is not decided by the handler. The model assumes the store rejects such a skip. The exact error and the unanswered request that follows are not modelled.
- Listing.Approved: the result is stated by membership. That it keeps collection order follows from its definition and is not stated separately.
- `ObjectId` construction failures on malformed ids are not modelled. Ids compare as text.
- `null` `customer_details`, a ticket document without `availableSits`, and request fields that are missing or not of the modelled type are not modelled.
- Store failures part-way through settlement are not modelled: every write is taken to succeed.
- The `acknowledged` and `upsertedId` fields of write results are not modelled.
- Timestamps (`createdAt`, `paidAt`) are opaque parameters.
- Concurrent requests on the same ticket or session are not modelled.
- Behaviour the code does not have is absent from the model: an idempotency guard, dangling-reference errors, partial-failure reports, a non-negative inventory check and checkout input validation.
