/**
 * The buyer's order-tracking page over the hosted database: the
 * simplified buyer timeline and the buyer's own confirmation of receipt.
 */
module BuyerTrackOrder {
  import opened Wrappers
  import opened DbTypes
  import opened Feedback
  import Seqs
  import UseAuth

  /** The five steps the buyer's timeline shows; the hub steps are folded into "Shipped". */
  const BuyerSteps: seq<DbStatus> :=
    [EscrowHeld, InTransitToHub, OutForDelivery, DeliveredAwaitingConfirmation, Completed]

  function IsStatus(s: DbStatus): DbStatus -> bool {
    (t: DbStatus) => t == s
  }

  /**
   * The timeline position of a status: the hub counts as shipped, and a
   * status the buyer timeline does not show is at -1.
   */
  function StatusIndex(s: DbStatus): (i: int)
    ensures -1 <= i < |BuyerSteps|
    ensures s == AtProlistHub ==> i == 1
    ensures s != AtProlistHub && 0 <= i ==> BuyerSteps[i] == s
    ensures i == -1 <==> s == PendingPayment || s == Refunded || s == Cancelled
  {
    if s == AtProlistHub then 1
    else if s == PendingPayment then -1
    else Seqs.IndexWhere(BuyerSteps, IsStatus(s))
  }

  /** The statuses an order goes through, in order, when nothing goes wrong. */
  const ForwardOrder: seq<DbStatus> :=
    [PendingPayment, EscrowHeld, InTransitToHub, AtProlistHub, OutForDelivery,
     DeliveredAwaitingConfirmation, Completed]

  /** The timeline position of the `k`-th status of the forward order. */
  function ForwardIndex(k: nat): int
    requires k < |ForwardOrder|
  {
    if k == 0 then -1 else if k <= 2 then k - 1 else k - 2
  }

  /** Along the forward order, the hub shares the "Shipped" step and every other step is one further. */
  lemma StatusIndexAlongForwardOrder(k: nat)
    requires k < |ForwardOrder|
    ensures StatusIndex(ForwardOrder[k]) == ForwardIndex(k)
  {
    var s := ForwardOrder[k];
    if k == 1 {
      assert s == EscrowHeld && BuyerSteps[0] == s;
    } else if k == 2 {
      assert s == InTransitToHub && BuyerSteps[1] == s && BuyerSteps[0] != s;
    } else if k == 4 {
      assert s == OutForDelivery && BuyerSteps[2] == s && BuyerSteps[0] != s && BuyerSteps[1] != s;
    } else if k == 5 {
      assert s == DeliveredAwaitingConfirmation && BuyerSteps[3] == s;
      assert BuyerSteps[0] != s && BuyerSteps[1] != s && BuyerSteps[2] != s;
    } else if k == 6 {
      assert s == Completed && BuyerSteps[4] == s;
      assert BuyerSteps[0] != s && BuyerSteps[1] != s && BuyerSteps[2] != s && BuyerSteps[3] != s;
    }
  }

  /** The timeline position of each status along the forward order. */
  lemma StatusIndexValues()
    ensures StatusIndex(PendingPayment) == -1 && StatusIndex(EscrowHeld) == 0
    ensures StatusIndex(InTransitToHub) == 1 && StatusIndex(AtProlistHub) == 1
    ensures StatusIndex(OutForDelivery) == 2 && StatusIndex(DeliveredAwaitingConfirmation) == 3
    ensures StatusIndex(Completed) == 4
  {
    StatusIndexAlongForwardOrder(1);
    StatusIndexAlongForwardOrder(2);
    StatusIndexAlongForwardOrder(4);
    StatusIndexAlongForwardOrder(5);
    StatusIndexAlongForwardOrder(6);
  }

  /** The buyer's timeline never moves backwards as the order moves forwards. */
  lemma StatusIndexMonotone(i: nat, j: nat)
    requires i <= j < |ForwardOrder|
    ensures StatusIndex(ForwardOrder[i]) <= StatusIndex(ForwardOrder[j])
  {
    StatusIndexAlongForwardOrder(i);
    StatusIndexAlongForwardOrder(j);
  }

  /** What the database answers to the "set status" request. */
  datatype Reply =
    | Updated(row: DbTransaction)  // the updated row
    | NoBackend                    // the client is not configured: nothing comes back
    | Failed                       // the request raised an error

  /** The signed-in user is the order's buyer, by id only. */
  predicate IsBuyer(authUser: Option<UseAuth.AuthUser>, tx: DbTransaction) {
    authUser.Some? && tx.buyerId == Some(authUser.value.id)
  }

  /** The confirmation button is offered to the buyer of a delivered order. */
  predicate CanConfirm(authUser: Option<UseAuth.AuthUser>, tx: DbTransaction) {
    IsBuyer(authUser, tx) && tx.status == DeliveredAwaitingConfirmation
  }

  class BuyerTrackOrderPage {
    const authUser: Option<UseAuth.AuthUser>
    var transaction: Option<DbTransaction>
    var isConfirming: bool

    constructor(authUser: Option<UseAuth.AuthUser>, transaction: Option<DbTransaction>)
      ensures this.authUser == authUser && this.transaction == transaction && !isConfirming
    {
      this.authUser := authUser;
      this.transaction := transaction;
      isConfirming := false;
    }

    /**
     * The buyer's confirmation. Nothing happens without an order or a
     * signed-in user; it is refused for anyone but the buyer, then for an
     * order not yet delivered; otherwise `request` is the "set status to
     * completed" call sent for the order, and `reply` is the answer: an
     * updated row replaces the page's order, an error shows a message.
     */
    method HandleBuyerConfirm(reply: Reply) returns (toast: Option<Toast>, request: Option<(string, DbStatus)>)
      modifies this`transaction, this`isConfirming
      ensures isConfirming == (old(isConfirming) && request.None?)
      ensures request.Some? <==> old(transaction).Some? && CanConfirm(authUser, old(transaction).value)
      ensures request.Some? ==> request.value == (old(transaction).value.id, Completed)
      ensures old(transaction).None? || authUser.None? ==> toast.None? && transaction == old(transaction)
      ensures old(transaction).Some? && authUser.Some? && !IsBuyer(authUser, old(transaction).value) ==>
        toast == Some(Failure("Only the buyer can confirm delivery")) && transaction == old(transaction)
      ensures old(transaction).Some? && IsBuyer(authUser, old(transaction).value)
              && old(transaction).value.status != DeliveredAwaitingConfirmation ==>
        toast == Some(Failure("Order is not ready for confirmation")) && transaction == old(transaction)
      ensures request.Some? ==>
        match reply
        case Updated(row) =>
          transaction == Some(row) && toast == Some(Success("Order confirmed! Payment released to seller."))
        case NoBackend => transaction == old(transaction) && toast.None?
        case Failed => transaction == old(transaction) && toast == Some(Failure("Failed to confirm delivery"))
    {
      if transaction.None? || authUser.None? {
        return None, None;
      }
      var tx := transaction.value;
      if tx.buyerId != Some(authUser.value.id) {
        return Some(Failure("Only the buyer can confirm delivery")), None;
      }
      if tx.status != DeliveredAwaitingConfirmation {
        return Some(Failure("Order is not ready for confirmation")), None;
      }
      isConfirming := true;
      request := Some((tx.id, Completed));
      match reply {
        case Updated(row) =>
          transaction := Some(row);
          toast := Some(Success("Order confirmed! Payment released to seller."));
        case NoBackend =>
          toast := None;
        case Failed =>
          toast := Some(Failure("Failed to confirm delivery"));
      }
      isConfirming := false;
    }
  }
}
