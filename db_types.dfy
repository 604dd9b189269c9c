/**
 * The records of the hosted database, with their own upper-case status
 * and role vocabularies. They are a separate vocabulary from the local
 * one in `Types` and are never identified with it.
 */
module DbTypes {
  import opened Wrappers

  /** The four database roles a user can hold (several at once). */
  datatype DbRole = Buyer | Seller | Agent | Admin

  /** The nine database statuses of a transaction. */
  datatype DbStatus =
    | PendingPayment
    | EscrowHeld
    | InTransitToHub
    | AtProlistHub
    | OutForDelivery
    | DeliveredAwaitingConfirmation
    | Completed
    | Refunded
    | Cancelled

  /** The status as the database spells it. */
  function DbStatusName(s: DbStatus): string {
    match s
    case PendingPayment => "PENDING_PAYMENT"
    case EscrowHeld => "ESCROW_HELD"
    case InTransitToHub => "IN_TRANSIT_TO_HUB"
    case AtProlistHub => "AT_PROLIST_HUB"
    case OutForDelivery => "OUT_FOR_DELIVERY"
    case DeliveredAwaitingConfirmation => "DELIVERED_AWAITING_CONFIRMATION"
    case Completed => "COMPLETED"
    case Refunded => "REFUNDED"
    case Cancelled => "CANCELLED"
  }

  function DbRoleName(r: DbRole): string {
    match r
    case Buyer => "BUYER"
    case Seller => "SELLER"
    case Agent => "AGENT"
    case Admin => "ADMIN"
  }

  datatype DbVerificationStatus = Unverified | Pending | Verified | Rejected

  /** A profile row; avatar, PIN hash and timestamps are not modelled. */
  datatype Profile = Profile(
    id: string,
    email: Option<string>,
    name: Option<string>,
    phone: Option<string>,
    city: Option<string>,
    verificationStatus: DbVerificationStatus)

  /**
   * A transaction row, with the title of its joined post and the name of
   * its joined agent profile (when those joins returned something).
   */
  datatype DbTransaction = DbTransaction(
    id: string,
    buyerId: Option<string>,
    sellerId: string,
    postId: Option<string>,
    amount: int,
    status: DbStatus,
    deliveryLocation: Option<string>,
    deliveryAddress: Option<string>,
    buyerPhone: Option<string>,
    assignedAgentId: Option<string>,
    otpCode: Option<string>,
    postTitle: Option<string>,
    agentName: Option<string>)
}
