/**
 * The records of the local (browser-storage) side of the marketplace:
 * transactions with their nine lower-case lifecycle statuses, users with
 * their three roles, invoices, listings and share history.
 */
module Types {
  import opened Wrappers

  /** A moment, in milliseconds; the source stores ISO-8601 strings, which sort in this order. */
  type Time = int

  /** The nine lifecycle statuses of a local transaction. */
  datatype Status =
    | PendingSetup
    | AwaitingPayment
    | EscrowHeld
    | InTransitToHub
    | AtProlistHub
    | OutForDelivery
    | DeliveredAwaitingConfirmation
    | Completed
    | Refunded

  /** The status as the source spells it. */
  function StatusName(s: Status): string {
    match s
    case PendingSetup => "pending_setup"
    case AwaitingPayment => "awaiting_payment"
    case EscrowHeld => "escrow_held"
    case InTransitToHub => "in_transit_to_hub"
    case AtProlistHub => "at_prolist_hub"
    case OutForDelivery => "out_for_delivery"
    case DeliveredAwaitingConfirmation => "delivered_awaiting_confirmation"
    case Completed => "completed"
    case Refunded => "refunded"
  }

  /** The status a spelling names, if it names one; the source compares statuses as strings. */
  function ParseStatus(name: string): (s: Option<Status>)
    ensures s.Some? ==> StatusName(s.value) == name
  {
    if name == "pending_setup" then Some(PendingSetup)
    else if name == "awaiting_payment" then Some(AwaitingPayment)
    else if name == "escrow_held" then Some(EscrowHeld)
    else if name == "in_transit_to_hub" then Some(InTransitToHub)
    else if name == "at_prolist_hub" then Some(AtProlistHub)
    else if name == "out_for_delivery" then Some(OutForDelivery)
    else if name == "delivered_awaiting_confirmation" then Some(DeliveredAwaitingConfirmation)
    else if name == "completed" then Some(Completed)
    else if name == "refunded" then Some(Refunded)
    else None
  }

  /** Every status is recognised by its own spelling, so the spellings are pairwise distinct. */
  lemma ParseStatusName(s: Status)
    ensures ParseStatus(StatusName(s)) == Some(s)
  {
  }

  datatype VerificationStatus = Unverified | Pending | Verified | Rejected

  /** The three roles of a local user. */
  datatype Role = BuyerSeller | Admin | Agent

  /** The role as the source spells it. */
  function RoleName(r: Role): string {
    match r
    case BuyerSeller => "BUYER_SELLER"
    case Admin => "ADMIN"
    case Agent => "AGENT"
  }

  datatype Invoice = Invoice(
    invoiceNumber: string,
    issuedAt: Time,
    sellerName: string,
    sellerPhone: Option<string>,
    sellerCity: Option<string>,
    buyerName: string,
    buyerPhone: string,
    buyerCity: Option<string>,
    itemTitle: string,
    itemPriceXAF: int,
    deliveryFeeXAF: Option<int>,
    totalXAF: int,
    transactionId: string,
    postId: string,
    isPreOrder: bool)

  datatype DeliveryDetails = DeliveryDetails(city: string, address: string, notes: Option<string>)

  datatype LogisticsDetails = LogisticsDetails(
    dropoffCompany: Option<string>,
    dropoffCity: Option<string>,
    dropoffNote: Option<string>)

  datatype Transaction = Transaction(
    id: string,
    postId: Option<string>,
    productName: string,
    description: Option<string>,
    price: int,
    deliveryFee: int,
    sellerName: string,
    sellerPhone: string,
    sellerId: string,
    buyerId: Option<string>,
    buyerName: Option<string>,
    buyerPhone: Option<string>,
    buyerEmail: Option<string>,
    buyerCity: Option<string>,
    deliveryLocation: string,
    deliveryArea: string,
    delivery: Option<DeliveryDetails>,
    logistics: Option<LogisticsDetails>,
    assignedAgentId: Option<string>,
    assignedAgentName: Option<string>,
    status: Status,
    isPreOrder: bool,
    expectedArrival: Option<string>,
    preOrderNote: Option<string>,
    createdAt: Time,
    updatedAt: Time,
    paymentLink: string,
    confirmationCode: string,
    buyerTrackingLink: Option<string>,
    invoice: Option<Invoice>,
    deliveryOTP: Option<string>)

  datatype SmartShareHistory = SmartShareHistory(
    transactionId: Option<string>,
    postId: Option<string>,
    productName: string,
    variations: seq<string>,
    createdAt: Time)

  /** A local user; the identity-document details of a verification request are not modelled. */
  datatype User = User(
    id: string,
    phone: string,
    email: string,
    name: string,
    city: Option<string>,
    pin: Option<string>,
    hasPin: Option<bool>,
    isVerified: bool,
    verificationStatus: Option<VerificationStatus>,
    role: Role,
    createdAt: Time)

  /** A listing (a "post") a seller publishes. */
  datatype Post = Post(
    id: string,
    title: string,
    description: string,
    price: int,
    category: Option<string>,
    imageUrl: Option<string>,
    sellerId: string,
    sellerName: string,
    sellerPhone: string,
    createdAt: Time,
    updatedAt: Time,
    isActive: bool,
    isPreOrder: Option<bool>,
    expectedArrival: Option<string>,
    preOrderNote: Option<string>,
    deliveryInfo: Option<string>)

  /** JavaScript truthiness of an optional string: present and not empty. */
  predicate Present(s: Option<string>) {
    s.Some? && s.value != ""
  }
}
