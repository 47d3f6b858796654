/**
 * The documents of the four collections of the ticket marketplace: users, tickets,
 * bookings and payments. Fields the handlers never read or write beyond copying the
 * request body are grouped or left out.
 */
module Entities {
  import opened Wrappers
  import opened JsNumbers

  /** A reading of the server clock (`new Date()`): an opaque clock reading, represented as a nat. */
  type Timestamp = nat

  datatype User = User(
    email: string,
    name: string,
    photoURL: string,
    role: Option<string>,
    status: Option<string>,
    createdAt: Option<Timestamp>)

  /** The vendor-editable description of a journey. */
  datatype Journey = Journey(
    title: string,
    from: string,
    to: string,
    category: string,
    price: int,
    date: string,
    time: string,
    breakfast: bool,
    meal: bool,
    water: bool,
    security: bool)

  /**
   * A ticket offer. `availableSits` is a stored number that settlement changes with
   * `$inc`; `status` is the review state ("pending", "approved", "rejected" as the
   * client sends them); `onAdd` is the advertisement flag.
   */
  datatype Ticket = Ticket(
    vendorEmail: string,
    listing: Journey,
    availableSits: Number,
    status: Option<string>,
    onAdd: Option<bool>,
    createdAt: Option<Timestamp>)

  /** The body of the ticket edit: the listing and a new `availableSits`. */
  datatype TicketEdit = TicketEdit(listing: Journey, availableSits: Number)

  datatype Booking = Booking(
    ticketId: string,
    userEmail: string,
    vendorEmail: string,
    quantity: int,
    bookingStatus: Option<string>,
    payment: Option<string>,
    createdAt: Option<Timestamp>)

  /**
   * A payment ledger entry. `amount` is the gateway total in major units; the
   * metadata-derived fields are `None` when the session's metadata lacks the key.
   */
  datatype Payment = Payment(
    amount: real,
    bookingId: Option<string>,
    buyingQuantity: Number,
    ticketId: Option<string>,
    currency: string,
    buyerEmail: string,
    buyerName: string,
    vendorName: Option<string>,
    vendorEmail: Option<string>,
    transactionId: Option<string>,
    paymentStatus: string,
    paidAt: Timestamp)

  /** The metadata keys the checkout writes into the gateway session. */
  const BookingIdKey := "booking_id"
  const QuantityKey := "booking_quantity"
  const TicketIdKey := "ticket_id"
  const BuyerNameKey := "buyer_name"
  const SellerNameKey := "seller_name"
  const SellerEmailKey := "seller_email"
}
