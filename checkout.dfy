/**
 * The checkout request (`POST /checkout-payment`): a one-line-item hosted payment
 * session whose metadata carries the booking context that settlement reads back. The
 * request goes to the gateway only; no collection of the store is read or written.
 */
module Checkout {
  import opened Wrappers
  import opened JsNumbers
  import opened Mongo
  import opened Entities
  import opened Settlement

  /** The request body; prices are whole units of the currency. `totalPrice` is not used. */
  datatype CheckoutBody = CheckoutBody(
    productName: string,
    bookingId: string,
    ticketId: string,
    userEmail: string,
    userName: string,
    vendorEmail: string,
    vendorName: string,
    unitPrice: int,
    bookingQuantity: int,
    totalPrice: int)

  datatype LineItem = LineItem(currency: string, unitAmount: int, productName: string, quantity: int)

  /** The argument of `sessions.create`. */
  datatype SessionRequest = SessionRequest(
    lineItems: seq<LineItem>,
    mode: string,
    metadata: map<string, string>,
    customerEmail: string,
    successUrl: string,
    cancelUrl: string)

  const Currency := "bdt"

  /** What the gateway charges for a list of line items, in minor units. */
  function Charge(items: seq<LineItem>): int {
    if items == [] then 0 else items[0].unitAmount * items[0].quantity + Charge(items[1..])
  }

  /**
   * The metadata bag. The gateway keeps metadata values as strings, so the quantity is
   * stored as `String(bookingQuantity)`.
   */
  function CheckoutMetadata(b: CheckoutBody): (m: map<string, string>)
    ensures m.Keys == {BookingIdKey, QuantityKey, TicketIdKey, BuyerNameKey, SellerNameKey, SellerEmailKey}
    ensures m[BuyerNameKey] == b.userName
  {
    map[
      BookingIdKey := b.bookingId,
      QuantityKey := IntToString(b.bookingQuantity),
      TicketIdKey := b.ticketId,
      BuyerNameKey := b.userName,
      SellerNameKey := b.vendorName,
      SellerEmailKey := b.vendorEmail]
  }

  /** The session request for body `b`; `siteDomain` is the configured front-end origin. */
  function CreateSessionRequest(b: CheckoutBody, siteDomain: string): (r: SessionRequest)
    ensures |r.lineItems| == 1 && r.lineItems[0].currency == Currency && r.lineItems[0].productName == b.productName
    ensures Charge(r.lineItems) == 100 * b.unitPrice * b.bookingQuantity
    ensures r.mode == "payment" && r.customerEmail == b.userEmail
    ensures r.metadata == CheckoutMetadata(b)
  {
    SessionRequest(
      lineItems := [LineItem(Currency, b.unitPrice * 100, b.productName, b.bookingQuantity)],
      mode := "payment",
      metadata := CheckoutMetadata(b),
      customerEmail := b.userEmail,
      successUrl := siteDomain + "/payment-success?session_id={CHECKOUT_SESSION_ID}",
      cancelUrl := siteDomain + "/payment-cancelled")
  }

  /**
   * A session that carries the checkout metadata unchanged gives settlement back the
   * booking id, the ticket id, the quantity (through `Number(String(q)) == q`), and
   * the vendor's name and e-mail. The buyer's name is written but not read back.
   */
  lemma MetadataReadBack(b: CheckoutBody, siteDomain: string, s: Session)
    requires s.metadata == CreateSessionRequest(b, siteDomain).metadata
    ensures BookingKey(s) == Some(b.bookingId)
    ensures TicketKey(s) == Some(b.ticketId)
    ensures BookedQuantity(s) == Int(b.bookingQuantity)
    ensures Lookup(s.metadata, SellerNameKey) == Some(b.vendorName)
    ensures Lookup(s.metadata, SellerEmailKey) == Some(b.vendorEmail)
  {
    var m := CheckoutMetadata(b);
    assert s.metadata == m;
    assert m[BookingIdKey] == b.bookingId && m[TicketIdKey] == b.ticketId;
    assert m[SellerNameKey] == b.vendorName && m[SellerEmailKey] == b.vendorEmail;
    assert m[QuantityKey] == IntToString(b.bookingQuantity);
    IntToStringRoundTrip(b.bookingQuantity);
  }

  /**
   * Checkout followed by a paid settlement of that session: the payment record names
   * the body's booking, ticket, quantity and vendor.
   */
  lemma CheckoutThenSettleRecord(b: CheckoutBody, siteDomain: string, t: Tables, s: Session, paymentId: Id, now: Timestamp)
    requires s.paymentStatus == "paid" && s.metadata == CreateSessionRequest(b, siteDomain).metadata
    ensures var r := Settle(t, s, paymentId, now);
      var p := PaymentRecord(s, now);
      && r.0.Settled?
      && r.1.payments == t.payments + [Doc(paymentId, p)]
      && p.bookingId == Some(b.bookingId) && p.ticketId == Some(b.ticketId)
      && p.buyingQuantity == Int(b.bookingQuantity)
      && p.vendorName == Some(b.vendorName) && p.vendorEmail == Some(b.vendorEmail)
  {
    MetadataReadBack(b, siteDomain, s);
  }

  /** Checkout followed by a paid settlement: the ticket loses exactly `bookingQuantity` seats. */
  lemma CheckoutThenSettleTicket(b: CheckoutBody, siteDomain: string, t: Tables, s: Session, paymentId: Id, now: Timestamp, i: int, c: int)
    requires UniqueIds(t.tickets) && 0 <= i < |t.tickets|
    requires t.tickets[i].id == b.ticketId && t.tickets[i].fields.availableSits == Int(c)
    requires s.paymentStatus == "paid" && s.metadata == CreateSessionRequest(b, siteDomain).metadata
    ensures var r := Settle(t, s, paymentId, now);
      i < |r.1.tickets| && r.1.tickets[i].fields.availableSits == Int(c - b.bookingQuantity)
  {
    MetadataReadBack(b, siteDomain, s);
    SettleDecrementsTicket(t, s, paymentId, now);
  }

  /** Checkout followed by a paid settlement: the booking the body names is marked paid. */
  lemma CheckoutThenSettleBooking(b: CheckoutBody, siteDomain: string, t: Tables, s: Session, paymentId: Id, now: Timestamp, j: int)
    requires UniqueIds(t.bookings) && 0 <= j < |t.bookings| && t.bookings[j].id == b.bookingId
    requires s.paymentStatus == "paid" && s.metadata == CreateSessionRequest(b, siteDomain).metadata
    ensures var r := Settle(t, s, paymentId, now);
      j < |r.1.bookings| && r.1.bookings[j].fields.payment == Some("paid")
  {
    MetadataReadBack(b, siteDomain, s);
    SettleMarksBooking(t, s, paymentId, now);
  }
}
