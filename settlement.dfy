/**
 * Settlement of a paid checkout session (`POST /success-payment`): the retrieved
 * gateway session is checked for `payment_status == "paid"`; then a payment record is
 * inserted, the booking named in the session metadata is marked paid, and the ticket
 * named there loses the booked quantity of `availableSits`. There is no idempotency
 * guard, no check that the booking or ticket exists, and no lower bound on
 * `availableSits`: the lemmas at the end of this module make each of these explicit.
 */
module Settlement {
  import opened Wrappers
  import opened JsNumbers
  import opened Mongo
  import opened Entities

  datatype CustomerDetails = CustomerDetails(email: string, name: string)

  /** A checkout session as `sessions.retrieve` reports it; metadata values are strings. */
  datatype Session = Session(
    paymentStatus: string,
    paymentIntent: Option<string>,
    amountTotal: int,
    currency: string,
    customerDetails: CustomerDetails,
    metadata: map<string, string>)

  /** `metadata[k]`, which is `undefined` for a key that was never set. */
  function Lookup(m: map<string, string>, k: string): (r: Option<string>)
    ensures r.Some? <==> k in m
    ensures r.Some? ==> r.value == m[k]
  {
    if k in m then Some(m[k]) else None
  }

  function BookingKey(s: Session): Option<Id> { Lookup(s.metadata, BookingIdKey) }

  function TicketKey(s: Session): Option<Id> { Lookup(s.metadata, TicketIdKey) }

  /** `Number(session.metadata.booking_quantity)`. */
  function BookedQuantity(s: Session): Number { ToNumberOf(Lookup(s.metadata, QuantityKey)) }

  /** The payment document the handler inserts for session `s` at time `now`. */
  function PaymentRecord(s: Session, now: Timestamp): (p: Payment)
    ensures p.bookingId == Lookup(s.metadata, BookingIdKey)
    ensures p.ticketId == Lookup(s.metadata, TicketIdKey)
    ensures p.buyingQuantity == ToNumberOf(Lookup(s.metadata, QuantityKey))
    ensures p.vendorName == Lookup(s.metadata, SellerNameKey)
    ensures p.vendorEmail == Lookup(s.metadata, SellerEmailKey)
    ensures p.transactionId == s.paymentIntent
    ensures p.paymentStatus == s.paymentStatus
    ensures p.amount * 100.0 == s.amountTotal as real
    ensures p.currency == s.currency && p.paidAt == now
    ensures p.buyerEmail == s.customerDetails.email && p.buyerName == s.customerDetails.name
  {
    Payment(
      amount := s.amountTotal as real / 100.0,
      bookingId := BookingKey(s),
      buyingQuantity := BookedQuantity(s),
      ticketId := TicketKey(s),
      currency := s.currency,
      buyerEmail := s.customerDetails.email,
      buyerName := s.customerDetails.name,
      vendorName := Lookup(s.metadata, SellerNameKey),
      vendorEmail := Lookup(s.metadata, SellerEmailKey),
      transactionId := s.paymentIntent,
      paymentStatus := s.paymentStatus,
      paidAt := now)
  }

  /** The booking update `$set: { payment: 'paid' }`. */
  function MarkPaid(): Booking -> Booking {
    (b: Booking) => b.(payment := Some("paid"))
  }

  /** The ticket update `$inc: { availableSits: delta }`. */
  function IncSits(delta: Number): Ticket -> Ticket {
    (t: Ticket) => t.(availableSits := Add(t.availableSits, delta))
  }

  /** The four collections. */
  datatype Tables = Tables(
    users: seq<User>,
    tickets: seq<Doc<Ticket>>,
    bookings: seq<Doc<Booking>>,
    payments: seq<Doc<Payment>>)

  ghost predicate ValidTables(t: Tables) {
    UniqueIds(t.tickets) && UniqueIds(t.bookings) && UniqueIds(t.payments)
  }

  /**
   * The handler's reply: 400 with "Payment not completed", or the three write results
   * `{ result, resultUpdateStatus, resultUpdateTicketQuantity }`.
   */
  datatype Outcome =
    | PaymentNotCompleted
    | Settled(insertedId: Id, resultUpdateStatus: UpdateResult, resultUpdateTicketQuantity: UpdateResult)

  const NotCompletedMessage := "Payment not completed"

  function StatusCode(o: Outcome): (code: int)
    ensures code == 400 <==> o.PaymentNotCompleted?
  {
    if o.PaymentNotCompleted? then 400 else 200
  }

  /** The `message` of the reply body: present only on the 400 reply. */
  function Message(o: Outcome): (m: Option<string>)
    ensures m.Some? <==> StatusCode(o) == 400
    ensures m.Some? ==> m.value == NotCompletedMessage
  {
    if o.PaymentNotCompleted? then Some(NotCompletedMessage) else None
  }

  /**
   * Settlement as one transition of the tables; `paymentId` is the `_id` the driver
   * generates for the inserted payment and `now` the clock reading.
   */
  function Settle(t: Tables, s: Session, paymentId: Id, now: Timestamp): (r: (Outcome, Tables))
    ensures r.0.PaymentNotCompleted? <==> s.paymentStatus != "paid"
    ensures r.0.PaymentNotCompleted? ==> r.1 == t
    ensures r.0.Settled? ==> r.0.insertedId == paymentId && r.1.users == t.users
    ensures r.0.Settled? ==> r.1.payments == t.payments + [Doc(paymentId, PaymentRecord(s, now))]
  {
    if s.paymentStatus != "paid" then
      (PaymentNotCompleted, t)
    else
      var bookingsUpdate := UpdateOne(t.bookings, BookingKey(s), MarkPaid());
      var ticketsUpdate := UpdateOne(t.tickets, TicketKey(s), IncSits(Neg(BookedQuantity(s))));
      (Settled(paymentId, bookingsUpdate.1, ticketsUpdate.1),
       Tables(t.users, ticketsUpdate.0, bookingsUpdate.0, t.payments + [Doc(paymentId, PaymentRecord(s, now))]))
  }

  /** Settlement keeps every `_id` unique when the payment's `_id` is fresh. */
  lemma SettleKeepsValid(t: Tables, s: Session, paymentId: Id, now: Timestamp)
    requires ValidTables(t) && IdUnused(t.payments, paymentId)
    ensures ValidTables(Settle(t, s, paymentId, now).1)
  {
  }

  /**
   * A paid settlement marks the booking whose `_id` is `metadata.booking_id` as paid and
   * changes nothing else about any booking; without such a booking, bookings stay as
   * they were.
   */
  lemma SettleMarksBooking(t: Tables, s: Session, paymentId: Id, now: Timestamp)
    requires UniqueIds(t.bookings) && s.paymentStatus == "paid"
    ensures var after := Settle(t, s, paymentId, now).1.bookings;
      |after| == |t.bookings| && forall i :: 0 <= i < |t.bookings| ==> after[i].id == t.bookings[i].id
    ensures var after := Settle(t, s, paymentId, now).1.bookings;
      forall i :: 0 <= i < |t.bookings| ==>
        after[i].fields == if Some(t.bookings[i].id) == BookingKey(s)
                           then t.bookings[i].fields.(payment := Some("paid"))
                           else t.bookings[i].fields
    ensures !AnyMatch(t.bookings, BookingKey(s)) ==> Settle(t, s, paymentId, now).1.bookings == t.bookings
  {
    forall i | 0 <= i < |t.bookings| && Matches(t.bookings[i], BookingKey(s)) {
      UniqueMatchIsFirst(t.bookings, BookingKey(s), i);
    }
  }

  /**
   * A paid settlement adds `-Number(metadata.booking_quantity)` to `availableSits` of the
   * ticket whose `_id` is `metadata.ticket_id`, whatever the result; no other ticket
   * and no other field changes.
   */
  lemma SettleDecrementsTicket(t: Tables, s: Session, paymentId: Id, now: Timestamp)
    requires UniqueIds(t.tickets) && s.paymentStatus == "paid"
    ensures var after := Settle(t, s, paymentId, now).1.tickets;
      |after| == |t.tickets| && forall i :: 0 <= i < |t.tickets| ==> after[i].id == t.tickets[i].id
    ensures var after := Settle(t, s, paymentId, now).1.tickets;
      forall i :: 0 <= i < |t.tickets| ==>
        after[i].fields == if Some(t.tickets[i].id) == TicketKey(s)
                           then t.tickets[i].fields.(availableSits := Add(t.tickets[i].fields.availableSits, Neg(BookedQuantity(s))))
                           else t.tickets[i].fields
    ensures !AnyMatch(t.tickets, TicketKey(s)) ==> Settle(t, s, paymentId, now).1.tickets == t.tickets
  {
    forall i | 0 <= i < |t.tickets| && Matches(t.tickets[i], TicketKey(s)) {
      UniqueMatchIsFirst(t.tickets, TicketKey(s), i);
    }
  }

  /**
   * A dangling booking reference is reported only through the write result: the
   * settlement still succeeds, with a booking update that matched nothing.
   */
  lemma SettleDanglingBooking(t: Tables, s: Session, paymentId: Id, now: Timestamp)
    requires s.paymentStatus == "paid" && !AnyMatch(t.bookings, BookingKey(s))
    ensures var r := Settle(t, s, paymentId, now);
      r.0.Settled? && r.0.resultUpdateStatus == UpdateResult(0, 0) && r.1.bookings == t.bookings
  {
  }

  /**
   * A dangling ticket reference likewise: the settlement succeeds, the ticket update
   * matches nothing, and no seat count changes.
   */
  lemma SettleDanglingTicket(t: Tables, s: Session, paymentId: Id, now: Timestamp)
    requires s.paymentStatus == "paid" && !AnyMatch(t.tickets, TicketKey(s))
    ensures var r := Settle(t, s, paymentId, now);
      r.0.Settled? && r.0.resultUpdateTicketQuantity == UpdateResult(0, 0) && r.1.tickets == t.tickets
  {
  }

  /**
   * Settlement is not idempotent: settling the same paid session twice inserts two
   * payment records.
   */
  lemma SettleTwicePayments(t: Tables, s: Session, id1: Id, id2: Id, now1: Timestamp, now2: Timestamp)
    requires s.paymentStatus == "paid"
    ensures var t1 := Settle(t, s, id1, now1).1;
      Settle(t1, s, id2, now2).1.payments
        == t.payments + [Doc(id1, PaymentRecord(s, now1)), Doc(id2, PaymentRecord(s, now2))]
  {
    var t1 := Settle(t, s, id1, now1).1;
    assert t1.payments == t.payments + [Doc(id1, PaymentRecord(s, now1))];
  }

  /** Settling the same paid session twice takes the booked quantity off the ticket twice. */
  lemma SettleTwiceTicket(t: Tables, s: Session, id1: Id, id2: Id, now1: Timestamp, now2: Timestamp, i: int, c: int, q: int)
    requires s.paymentStatus == "paid"
    requires IsFirstMatch(t.tickets, TicketKey(s), i)
    requires t.tickets[i].fields.availableSits == Int(c) && BookedQuantity(s) == Int(q)
    ensures var t1 := Settle(t, s, id1, now1).1;
      var r2 := Settle(t1, s, id2, now2);
      && r2.0.Settled? && r2.0.resultUpdateTicketQuantity.matchedCount == 1
      && |r2.1.tickets| == |t.tickets|
      && r2.1.tickets[i].fields.availableSits == Int(c - 2 * q)
  {
    var t1 := Settle(t, s, id1, now1).1;
    assert t1.tickets == UpdateOne(t.tickets, TicketKey(s), IncSits(Neg(Int(q)))).0;
    UpdateTwice(t.tickets, TicketKey(s), IncSits(Neg(Int(q))), IncSits(Neg(Int(q))), i);
  }

  /**
   * The second settlement of the same paid session finds the booking already paid:
   * its booking update matches one document and modifies none.
   */
  lemma SettleTwiceBooking(t: Tables, s: Session, id1: Id, id2: Id, now1: Timestamp, now2: Timestamp)
    requires s.paymentStatus == "paid" && AnyMatch(t.bookings, BookingKey(s))
    ensures var t1 := Settle(t, s, id1, now1).1;
      var r2 := Settle(t1, s, id2, now2);
      r2.0.Settled? && r2.0.resultUpdateStatus == UpdateResult(1, 0) && r2.1.bookings == t1.bookings
  {
    var t1 := Settle(t, s, id1, now1).1;
    assert t1.bookings == UpdateOne(t.bookings, BookingKey(s), MarkPaid()).0;
    var j := FirstMatch(t.bookings, BookingKey(s)).value;
    UpdateAgainUnchanged(t.bookings, BookingKey(s), MarkPaid(), j);
  }

  /** One call of the handler: the session it retrieves, the payment `_id`, the clock. */
  datatype Attempt = Attempt(session: Session, paymentId: Id, now: Timestamp)

  /** The tables after a series of settlement calls, one after another. */
  function SettleAll(t: Tables, runs: seq<Attempt>): (r: Tables)
    ensures |r.tickets| == |t.tickets|
    decreases |runs|
  {
    if runs == [] then t
    else SettleAll(Settle(t, runs[0].session, runs[0].paymentId, runs[0].now).1, runs[1..])
  }

  /** Every call settles a paid session, for ticket `id`, with an integer quantity. */
  ghost predicate PaidAgainst(runs: seq<Attempt>, id: Id) {
    forall k :: 0 <= k < |runs| ==>
      && runs[k].session.paymentStatus == "paid"
      && TicketKey(runs[k].session) == Some(id)
      && BookedQuantity(runs[k].session).Int?
  }

  /** The sum of the booked quantities of a series of settlements, where all are integers. */
  function QuantitySum(runs: seq<Attempt>): int
    requires forall k :: 0 <= k < |runs| ==> BookedQuantity(runs[k].session).Int?
    decreases |runs|
  {
    if runs == [] then 0 else BookedQuantity(runs[0].session).value + QuantitySum(runs[1..])
  }

  /** What one settlement does to the tickets: `$inc` by minus `quantity` on the ticket `key` names. */
  datatype SeatChange = SeatChange(key: Option<Id>, quantity: Number)

  /** The seat changes of a series of settlements, one per call, in call order. */
  function SeatChanges(runs: seq<Attempt>): (r: seq<SeatChange>)
    ensures |r| == |runs|
    ensures forall k :: 0 <= k < |runs| ==>
      r[k] == SeatChange(TicketKey(runs[k].session), BookedQuantity(runs[k].session))
    decreases |runs|
  {
    if runs == [] then []
    else [SeatChange(TicketKey(runs[0].session), BookedQuantity(runs[0].session))] + SeatChanges(runs[1..])
  }

  /** The ticket collection after a series of seat changes, each one an `updateOne` with `$inc`. */
  function DecrementAll(tickets: seq<Doc<Ticket>>, cs: seq<SeatChange>): (r: seq<Doc<Ticket>>)
    ensures |r| == |tickets|
    decreases |cs|
  {
    if cs == [] then tickets
    else DecrementAll(UpdateOne(tickets, cs[0].key, IncSits(Neg(cs[0].quantity))).0, cs[1..])
  }

  /** Every change names ticket `id` and has an integer quantity. */
  ghost predicate AllAgainst(cs: seq<SeatChange>, id: Id) {
    forall k :: 0 <= k < |cs| ==> cs[k].key == Some(id) && cs[k].quantity.Int?
  }

  /** The sum of the quantities of a series of changes, where all are integers. */
  function ChangeSum(cs: seq<SeatChange>): int
    requires forall k :: 0 <= k < |cs| ==> cs[k].quantity.Int?
    decreases |cs|
  {
    if cs == [] then 0 else cs[0].quantity.value + ChangeSum(cs[1..])
  }

  /** A series of paid settlements touches the tickets only through its seat changes. */
  lemma {:induction false} SettleAllTickets(t: Tables, runs: seq<Attempt>)
    requires forall k :: 0 <= k < |runs| ==> runs[k].session.paymentStatus == "paid"
    ensures SettleAll(t, runs).tickets == DecrementAll(t.tickets, SeatChanges(runs))
    decreases |runs|
  {
    if runs != [] {
      var a := runs[0];
      var t1 := Settle(t, a.session, a.paymentId, a.now).1;
      assert t1.tickets == UpdateOne(t.tickets, TicketKey(a.session), IncSits(Neg(BookedQuantity(a.session)))).0;
      assert forall k :: 0 <= k < |runs| - 1 ==> runs[1..][k] == runs[k + 1];
      SettleAllTickets(t1, runs[1..]);
      assert SeatChanges(runs)[1..] == SeatChanges(runs[1..]);
    }
  }

  /** Paid settlements against ticket `id` give changes against `id` that sum to the booked quantities. */
  lemma {:induction false} SeatChangesAgainst(runs: seq<Attempt>, id: Id)
    requires PaidAgainst(runs, id)
    ensures AllAgainst(SeatChanges(runs), id)
    ensures ChangeSum(SeatChanges(runs)) == QuantitySum(runs)
    decreases |runs|
  {
    if runs != [] {
      PaidAgainstTail(runs, id);
      SeatChangesAgainst(runs[1..], id);
      assert SeatChanges(runs)[1..] == SeatChanges(runs[1..]);
    }
  }

  /** The changes of a series against ticket `i` add up: `C - (q1 + ... + qn)`. */
  lemma {:induction false} DecrementAllInventory(tickets: seq<Doc<Ticket>>, cs: seq<SeatChange>, i: int, c: int)
    requires 0 <= i < |tickets| && UniqueIds(tickets)
    requires tickets[i].fields.availableSits == Int(c)
    requires AllAgainst(cs, tickets[i].id)
    ensures DecrementAll(tickets, cs)[i].fields.availableSits == Int(c - ChangeSum(cs))
    decreases |cs|
  {
    if cs != [] {
      var q := cs[0].quantity.value;
      var once := UpdateOne(tickets, cs[0].key, IncSits(Neg(cs[0].quantity))).0;
      assert UniqueIds(once) && once[i].id == tickets[i].id && once[i].fields.availableSits == Int(c - q) by {
        UniqueMatchIsFirst(tickets, cs[0].key, i);
        UpdateOneKeepsUniqueIds(tickets, cs[0].key, IncSits(Neg(cs[0].quantity)));
      }
      assert AllAgainst(cs[1..], tickets[i].id) by {
        assert forall k :: 0 <= k < |cs| - 1 ==> cs[1..][k] == cs[k + 1];
      }
      DecrementAllInventory(once, cs[1..], i, c - q);
    }
  }

  /**
   * Inventory reconciliation: after paid settlements q1..qn against a ticket that held
   * C seats, `availableSits == C - (q1 + ... + qn)`. Nothing keeps the result
   * non-negative.
   */
  lemma SettleAllInventory(t: Tables, runs: seq<Attempt>, i: int, c: int)
    requires 0 <= i < |t.tickets| && UniqueIds(t.tickets)
    requires t.tickets[i].fields.availableSits == Int(c)
    requires PaidAgainst(runs, t.tickets[i].id)
    ensures SettleAll(t, runs).tickets[i].fields.availableSits == Int(c - QuantitySum(runs))
  {
    SettleAllTickets(t, runs);
    SeatChangesAgainst(runs, t.tickets[i].id);
    DecrementAllInventory(t.tickets, SeatChanges(runs), i, c);
  }

  /** The payment records a series of paid settlements inserts, one per call, in call order. */
  function Records(runs: seq<Attempt>): (r: seq<Doc<Payment>>)
    ensures |r| == |runs|
    ensures forall k :: 0 <= k < |runs| ==>
      r[k] == Doc(runs[k].paymentId, PaymentRecord(runs[k].session, runs[k].now))
    decreases |runs|
  {
    if runs == [] then []
    else [Doc(runs[0].paymentId, PaymentRecord(runs[0].session, runs[0].now))] + Records(runs[1..])
  }

  /** Each paid settlement in a series appends exactly its own payment record, in call order. */
  lemma {:induction false} SettleAllPayments(t: Tables, runs: seq<Attempt>)
    requires forall k :: 0 <= k < |runs| ==> runs[k].session.paymentStatus == "paid"
    ensures SettleAll(t, runs).payments == t.payments + Records(runs)
    decreases |runs|
  {
    if runs != [] {
      var a := runs[0];
      var t1 := Settle(t, a.session, a.paymentId, a.now).1;
      assert t1.payments == t.payments + [Doc(a.paymentId, PaymentRecord(a.session, a.now))];
      assert forall k :: 0 <= k < |runs| - 1 ==> runs[1..][k] == runs[k + 1];
      SettleAllPayments(t1, runs[1..]);
      assert Records(runs) == [Doc(a.paymentId, PaymentRecord(a.session, a.now))] + Records(runs[1..]);
    }
  }

  lemma PaidAgainstTail(runs: seq<Attempt>, id: Id)
    requires runs != [] && PaidAgainst(runs, id)
    ensures PaidAgainst(runs[1..], id)
    ensures QuantitySum(runs) == BookedQuantity(runs[0].session).value + QuantitySum(runs[1..])
  {
    assert forall k :: 0 <= k < |runs| - 1 ==> runs[1..][k] == runs[k + 1];
  }

  /**
   * No lower bound on `availableSits`: a paid session for 2 seats against a ticket with
   * 1 seat left settles, and leaves -1 seats.
   */
  lemma OversellGoesNegative(ticket: Ticket, s: Session, paymentId: Id, now: Timestamp)
    requires ticket.availableSits == Int(1)
    requires s.paymentStatus == "paid" && s.metadata == map[TicketIdKey := "t1", QuantityKey := "2"]
    ensures var (o, t') := Settle(Tables([], [Doc("t1", ticket)], [], []), s, paymentId, now);
      o.Settled? && o.resultUpdateTicketQuantity == UpdateResult(1, 1)
      && t'.tickets[0].fields.availableSits == Int(-1)
  {
    assert BookedQuantity(s) == Int(2) by {
      IntToStringRoundTrip(2);
      assert IntToString(2) == "2";
    }
  }
}
