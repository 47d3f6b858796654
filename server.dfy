/**
 * The request handlers that write to the store, as methods of one object holding the
 * four collections. Each write is a single `insertOne`, `updateOne` or `deleteOne`,
 * except settlement, which performs three writes in a fixed order.
 */
module Server {
  import opened Wrappers
  import opened JsNumbers
  import opened Mongo
  import opened Entities
  import opened Settlement

  /** The role every new user is stored with, whatever the request body says. */
  const DefaultRole := "user"

  /** The user document `POST /users` inserts: the body with `role` and `createdAt` overwritten. */
  function Registered(body: User, now: Timestamp): (u: User)
    ensures u.role == Some(DefaultRole) && u.createdAt == Some(now)
    ensures u.email == body.email && u.name == body.name && u.photoURL == body.photoURL && u.status == body.status
  {
    body.(role := Some(DefaultRole), createdAt := Some(now))
  }

  /** `onAdd === 'false' ? false : true` on the query value, which may be missing. */
  function OnAddFlag(query: Option<string>): (flag: bool)
    ensures !flag <==> query == Some("false")
  {
    query != Some("false")
  }

  /** `$set: { onAdd: ... }`. */
  function SetOnAdd(query: Option<string>): Ticket -> Ticket {
    (t: Ticket) => t.(onAdd := Some(OnAddFlag(query)))
  }

  /** `$set: { status }`; a missing query value stores `null`. */
  function SetStatus(status: Option<string>): Ticket -> Ticket {
    (t: Ticket) => t.(status := status)
  }

  /** `$set` of the listing fields and `availableSits` from the edit body. */
  function ApplyEdit(edit: TicketEdit): Ticket -> Ticket {
    (t: Ticket) => t.(listing := edit.listing, availableSits := edit.availableSits)
  }

  /** `$set: { bookingStatus }`. */
  function SetBookingStatus(bookingStatus: Option<string>): Booking -> Booking {
    (b: Booking) => b.(bookingStatus := bookingStatus)
  }

  /**
   * The `onAdd` update: the ticket with the given `_id` ends with `onAdd == false`
   * exactly when the query value is the string "false", and with `true` for any other
   * value or none; no other field and no other ticket changes.
   */
  lemma OnAddUpdate(ts: seq<Doc<Ticket>>, id: Option<Id>, query: Option<string>)
    requires UniqueIds(ts)
    ensures var after := UpdateOne(ts, id, SetOnAdd(query)).0;
      forall i :: 0 <= i < |ts| ==>
        && after[i].id == ts[i].id
        && (Matches(ts[i], id) ==> after[i].fields == ts[i].fields.(onAdd := Some(query != Some("false"))))
        && (!Matches(ts[i], id) ==> after[i] == ts[i])
  {
    forall i | 0 <= i < |ts| && Matches(ts[i], id) {
      UniqueMatchIsFirst(ts, id, i);
    }
  }

  class Store {
    var users: seq<User>
    var tickets: seq<Doc<Ticket>>
    var bookings: seq<Doc<Booking>>
    var payments: seq<Doc<Payment>>

    /** Every collection has a unique `_id` index. */
    ghost predicate Valid()
      reads this
    {
      ValidTables(Snapshot())
    }

    function Snapshot(): Tables
      reads this
    {
      Tables(users, tickets, bookings, payments)
    }

    constructor ()
      ensures Valid() && Snapshot() == Tables([], [], [], [])
    {
      users, tickets, bookings, payments := [], [], [], [];
    }

    /** `POST /users`. */
    method PostUser(body: User, now: Timestamp)
      requires Valid()
      modifies this
      ensures Valid()
      ensures users == old(users) + [Registered(body, now)]
      ensures tickets == old(tickets) && bookings == old(bookings) && payments == old(payments)
    {
      users := users + [Registered(body, now)];
    }

    /** `POST /tickets`; `newId` is the fresh `_id` the driver generates. */
    method PostTicket(body: Ticket, newId: Id, now: Timestamp)
      requires Valid() && IdUnused(tickets, newId)
      modifies this
      ensures Valid()
      ensures tickets == old(tickets) + [Doc(newId, body.(createdAt := Some(now)))]
      ensures users == old(users) && bookings == old(bookings) && payments == old(payments)
    {
      InsertKeepsUniqueIds(tickets, Doc(newId, body.(createdAt := Some(now))));
      tickets := tickets + [Doc(newId, body.(createdAt := Some(now)))];
    }

    /** `PATCH /tickets/update/status`. */
    method PatchTicketStatus(id: Option<Id>, status: Option<string>) returns (r: UpdateResult)
      requires Valid()
      modifies this
      ensures Valid()
      ensures (tickets, r) == UpdateOne(old(tickets), id, SetStatus(status))
      ensures users == old(users) && bookings == old(bookings) && payments == old(payments)
    {
      var (updated, result) := UpdateOne(tickets, id, SetStatus(status));
      tickets, r := updated, result;
    }

    /** `PATCH /tickets/update/onAdd`. */
    method PatchTicketOnAdd(id: Option<Id>, onAdd: Option<string>) returns (r: UpdateResult)
      requires Valid()
      modifies this
      ensures Valid()
      ensures (tickets, r) == UpdateOne(old(tickets), id, SetOnAdd(onAdd))
      ensures users == old(users) && bookings == old(bookings) && payments == old(payments)
    {
      var (updated, result) := UpdateOne(tickets, id, SetOnAdd(onAdd));
      tickets, r := updated, result;
    }

    /** `PATCH /tickets/ticket/update/:id`. */
    method PatchTicket(id: Option<Id>, edit: TicketEdit) returns (r: UpdateResult)
      requires Valid()
      modifies this
      ensures Valid()
      ensures (tickets, r) == UpdateOne(old(tickets), id, ApplyEdit(edit))
      ensures users == old(users) && bookings == old(bookings) && payments == old(payments)
    {
      var (updated, result) := UpdateOne(tickets, id, ApplyEdit(edit));
      tickets, r := updated, result;
    }

    /** `DELETE /tickets/delete/:id`; bookings and payments that name the ticket stay. */
    method DeleteTicket(id: Option<Id>) returns (deletedCount: nat)
      requires Valid()
      modifies this
      ensures Valid()
      ensures (tickets, deletedCount) == DeleteOne(old(tickets), id)
      ensures users == old(users) && bookings == old(bookings) && payments == old(payments)
    {
      DeleteOneKeepsUniqueIds(tickets, id);
      var (remaining, count) := DeleteOne(tickets, id);
      tickets, deletedCount := remaining, count;
    }

    /** `POST /bookings`; `newId` is the fresh `_id` the driver generates. */
    method PostBooking(body: Booking, newId: Id, now: Timestamp)
      requires Valid() && IdUnused(bookings, newId)
      modifies this
      ensures Valid()
      ensures bookings == old(bookings) + [Doc(newId, body.(createdAt := Some(now)))]
      ensures users == old(users) && tickets == old(tickets) && payments == old(payments)
    {
      InsertKeepsUniqueIds(bookings, Doc(newId, body.(createdAt := Some(now))));
      bookings := bookings + [Doc(newId, body.(createdAt := Some(now)))];
    }

    /** `PATCH /bookings/update/booking-status`. */
    method PatchBookingStatus(id: Option<Id>, bookingStatus: Option<string>) returns (r: UpdateResult)
      requires Valid()
      modifies this
      ensures Valid()
      ensures (bookings, r) == UpdateOne(old(bookings), id, SetBookingStatus(bookingStatus))
      ensures users == old(users) && tickets == old(tickets) && payments == old(payments)
    {
      var (updated, result) := UpdateOne(bookings, id, SetBookingStatus(bookingStatus));
      bookings, r := updated, result;
    }

    /** `DELETE /bookings/delete/:id`; payments that name the booking stay. */
    method DeleteBooking(id: Option<Id>) returns (deletedCount: nat)
      requires Valid()
      modifies this
      ensures Valid()
      ensures (bookings, deletedCount) == DeleteOne(old(bookings), id)
      ensures users == old(users) && tickets == old(tickets) && payments == old(payments)
    {
      DeleteOneKeepsUniqueIds(bookings, id);
      var (remaining, count) := DeleteOne(bookings, id);
      bookings, deletedCount := remaining, count;
    }

    /**
     * `POST /success-payment`, given the session the gateway returned for `session_id`.
     * Unless the session is paid, nothing is written. Otherwise the payment record is
     * inserted, then the booking is marked paid, then the ticket's seats are decremented.
     */
    method PostSuccessPayment(s: Session, paymentId: Id, now: Timestamp) returns (o: Outcome)
      requires Valid() && IdUnused(payments, paymentId)
      modifies this
      ensures Valid()
      ensures (o, Snapshot()) == Settle(old(Snapshot()), s, paymentId, now)
    {
      SettleKeepsValid(Snapshot(), s, paymentId, now);
      if s.paymentStatus != "paid" {
        return PaymentNotCompleted;
      }
      payments := payments + [Doc(paymentId, PaymentRecord(s, now))];
      var (markedBookings, statusResult) := UpdateOne(bookings, BookingKey(s), MarkPaid());
      bookings := markedBookings;
      var (decrementedTickets, sitsResult) := UpdateOne(tickets, TicketKey(s), IncSits(Neg(BookedQuantity(s))));
      tickets := decrementedTickets;
      o := Settled(paymentId, statusResult, sitsResult);
    }
  }
}
