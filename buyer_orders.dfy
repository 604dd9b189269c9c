/** The buyer's order list: each order's status bucket and the split into active and finished orders. */
module BuyerOrders {
  import opened DbTypes
  import Seqs

  /** The five kinds of status indicator on the list. */
  datatype StatusType = Pending | Active | Transit | Success | Warning

  function StatusTypeOf(s: DbStatus): (t: StatusType)
    ensures t == Success <==> s == Completed
    ensures t == Warning <==> s == Refunded || s == Cancelled
    ensures t == Transit <==> s == InTransitToHub || s == OutForDelivery
    ensures t == Active <==> s == EscrowHeld || s == AtProlistHub || s == DeliveredAwaitingConfirmation
    ensures t == StatusType.Pending <==> s == PendingPayment
  {
    match s
    case Completed => Success
    case Refunded => Warning
    case Cancelled => Warning
    case InTransitToHub => Transit
    case OutForDelivery => Transit
    case EscrowHeld => Active
    case AtProlistHub => Active
    case DeliveredAwaitingConfirmation => Active
    case PendingPayment => StatusType.Pending
  }

  /** An order is finished once it is completed, refunded or cancelled. */
  predicate IsFinished(t: DbTransaction) {
    t.status == Completed || t.status == Refunded || t.status == Cancelled
  }

  function Finished(): DbTransaction -> bool {
    (t: DbTransaction) => IsFinished(t)
  }

  function Unfinished(): DbTransaction -> bool {
    (t: DbTransaction) => !IsFinished(t)
  }

  function ActiveOrders(orders: seq<DbTransaction>): (r: seq<DbTransaction>)
    ensures forall t :: t in r <==> t in orders && !IsFinished(t)
  {
    Seqs.Filter(orders, Unfinished())
  }

  function CompletedOrders(orders: seq<DbTransaction>): (r: seq<DbTransaction>)
    ensures forall t :: t in r <==> t in orders && IsFinished(t)
  {
    Seqs.Filter(orders, Finished())
  }

  /** The finished orders are exactly those shown with the success or the warning indicator. */
  lemma FinishedByIndicator(t: DbTransaction)
    ensures IsFinished(t) <==> StatusTypeOf(t.status) == Success || StatusTypeOf(t.status) == Warning
  {
  }

  /**
   * The two sections partition the orders: every order is in exactly one
   * of them, and together they hold as many orders as the list.
   */
  lemma SectionsPartition(orders: seq<DbTransaction>)
    ensures |ActiveOrders(orders)| + |CompletedOrders(orders)| == |orders|
    ensures forall t :: t in orders ==> (t in ActiveOrders(orders) <==> t !in CompletedOrders(orders))
  {
    Seqs.FilterSplits(orders, Unfinished(), Finished());
  }

  /**
   * Each section keeps the list's order: the sections of a list made of
   * two parts are the sections of the first part followed by those of the
   * second.
   */
  lemma SectionsKeepOrder(a: seq<DbTransaction>, b: seq<DbTransaction>)
    ensures ActiveOrders(a + b) == ActiveOrders(a) + ActiveOrders(b)
    ensures CompletedOrders(a + b) == CompletedOrders(a) + CompletedOrders(b)
  {
    Seqs.FilterConcat(a, b, Unfinished());
    Seqs.FilterConcat(a, b, Finished());
  }
}
