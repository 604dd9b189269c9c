/**
 * The seller's order panel: marking a paid order as shipped with the
 * dropoff details, and the cards a seller sees while waiting.
 */
module SellerOrderActions {
  import opened Wrappers
  import opened Types
  import opened Feedback
  import Permissions
  import Storage
  import SellerDropoffModal

  /** What the component renders. */
  datatype Panel = Nothing | ShipPanel | WaitingCard(title: string, description: string) | PaymentReleased

  /** The card shown while it is someone else's turn, by status; `waitingLabel` is the resolver's waiting text. */
  function WaitingContent(status: Status, waitingLabel: string): (r: (string, string))
    ensures r.1 != "Processing..." <==>
      status in {InTransitToHub, AtProlistHub, OutForDelivery, DeliveredAwaitingConfirmation}
    ensures r.1 == "Processing..." ==> r.0 == waitingLabel
  {
    match status
    case InTransitToHub => ("Shipped", "Item is on the way to the hub")
    case AtProlistHub => ("At Hub", "Awaiting delivery agent assignment")
    case OutForDelivery => ("Out for Delivery", "Agent is delivering to buyer")
    case DeliveredAwaitingConfirmation => ("Delivered", "Waiting for buyer confirmation")
    case _ => (waitingLabel, "Processing...")
  }

  /**
   * The panel: nothing for anyone but the seller; then the ship panel, the
   * waiting card, or the completion card, in that order; else nothing.
   */
  function PanelFor(user: User, tx: Transaction): (p: Panel)
    ensures user.id != tx.sellerId ==> p == Nothing
    ensures p == ShipPanel <==>
      user.id == tx.sellerId && Permissions.GetAvailableAction(Some(user), tx) == Some(Permissions.SellerShip("Mark In Transit"))
    ensures p == PaymentReleased <==> user.id == tx.sellerId && tx.status == Completed
  {
    if user.id != tx.sellerId then Nothing
    else
      match Permissions.GetAvailableAction(Some(user), tx)
      case Some(SellerShip(_)) => ShipPanel
      case Some(Waiting(title, _)) =>
        var c := WaitingContent(tx.status, title);
        WaitingCard(c.0, c.1)
      case _ => if tx.status == Completed then PaymentReleased else Nothing
  }

  /** What the seller sees at each stage, when the seller is an ordinary (buyer-seller) account. */
  lemma SellerPanelByStatus(u: User, tx: Transaction)
    requires u.id == tx.sellerId && u.role == BuyerSeller
    ensures tx.status == EscrowHeld ==> PanelFor(u, tx) == ShipPanel
    ensures tx.status == InTransitToHub ==> PanelFor(u, tx) == WaitingCard("Shipped", "Item is on the way to the hub")
    ensures tx.status == AtProlistHub ==> PanelFor(u, tx) == WaitingCard("At Hub", "Awaiting delivery agent assignment")
    ensures tx.status == OutForDelivery ==> PanelFor(u, tx) == WaitingCard("Out for Delivery", "Agent is delivering to buyer")
    ensures tx.status == AwaitingPayment ==> PanelFor(u, tx) == WaitingCard("Awaiting Payment", "Processing...")
    ensures tx.status == Completed ==> PanelFor(u, tx) == PaymentReleased
    ensures tx.status == Refunded ==> PanelFor(u, tx) == Nothing
    ensures tx.status == PendingSetup ==> PanelFor(u, tx) == WaitingCard("Awaiting Payment", "Processing...")
    ensures tx.status == DeliveredAwaitingConfirmation && !Permissions.IsBuyer(u, tx) ==>
      PanelFor(u, tx) == WaitingCard("Delivered", "Waiting for buyer confirmation")
    ensures tx.status == DeliveredAwaitingConfirmation && Permissions.IsBuyer(u, tx) ==> PanelFor(u, tx) == Nothing
  {
    match tx.status {
      case PendingSetup =>
      case AwaitingPayment =>
      case EscrowHeld =>
      case InTransitToHub =>
      case AtProlistHub =>
      case OutForDelivery =>
      case DeliveredAwaitingConfirmation =>
      case Completed =>
      case Refunded =>
    }
  }

  /** The record written when the seller ships. */
  function ShippedRecord(tx: Transaction, logistics: LogisticsDetails, now: Time): (r: Transaction)
    ensures r.logistics == Some(logistics) && r.status == InTransitToHub && r.id == tx.id
    ensures r.(logistics := tx.logistics, status := tx.status, updatedAt := tx.updatedAt) == tx
  {
    tx.(logistics := Some(logistics), status := InTransitToHub, updatedAt := now)
  }

  class SellerOrderActions {
    const transaction: Transaction
    const currentUser: User
    var showDropoffModal: bool

    constructor(transaction: Transaction, currentUser: User)
      ensures this.transaction == transaction && this.currentUser == currentUser
      ensures !showDropoffModal
    {
      this.transaction := transaction;
      this.currentUser := currentUser;
      showDropoffModal := false;
    }

    function Action(): Option<Permissions.Action> {
      Permissions.GetAvailableAction(Some(currentUser), transaction)
    }

    function Render(): Panel {
      PanelFor(currentUser, transaction)
    }

    /** The "Mark In Transit" button of the ship panel opens the dialog. */
    method OpenDropoff()
      requires Render() == ShipPanel
      modifies this
      ensures showDropoffModal
    {
      showDropoffModal := true;
    }

    /**
     * Refused with the permission message unless the offered action is
     * shipping; otherwise the component's copy of the transaction gets the
     * logistics and moves in transit, written with the plain save, so that
     * nobody is notified.
     */
    method HandleDropoffSubmit(logistics: LogisticsDetails, store: Storage.LocalStore, now: Time)
      returns (toast: Option<Toast>, updated: Option<Transaction>)
      modifies store`transactions
      ensures !(Action().Some? && Action().value.SellerShip?) ==>
        toast == Some(Failure(Permissions.PermissionDeniedMessage)) && updated.None?
        && store.transactions == old(store.transactions)
      ensures Action().Some? && Action().value.SellerShip? ==>
        toast.None? && updated == Some(ShippedRecord(transaction, logistics, now))
        && store.transactions == Storage.Upsert(old(store.transactions), updated.value, Storage.TxKey, true)
        && Permissions.CanTransitionTo(Some(currentUser), transaction, InTransitToHub)
      ensures store.notifications.items == old(store.notifications.items)
    {
      var action := Action();
      if !(action.Some? && action.value.SellerShip?) {
        return Some(Failure(Permissions.PermissionDeniedMessage)), None;
      }
      Permissions.ResolverMatchesGuard(currentUser, transaction, InTransitToHub);
      var updatedTx := ShippedRecord(transaction, logistics, now);
      store.SaveTransaction(updatedTx);
      toast, updated := None, Some(updatedTx);
    }

    /**
     * Submitting the open dialog: the dialog validates, hands the details
     * to the ship handler, closes and shows its success message. The
     * dialog is only shown beside the ship panel, so the handler's own
     * permission check always passes here.
     */
    method SubmitDropoff(modal: SellerDropoffModal.SellerDropoffModal, store: Storage.LocalStore, now: Time)
      returns (toasts: seq<Toast>, updated: Option<Transaction>)
      requires Render() == ShipPanel && showDropoffModal
      modifies this, store`transactions
      ensures SellerDropoffModal.DropoffError(modal.entry).Some? ==>
        toasts == [Failure(SellerDropoffModal.DropoffError(modal.entry).value)] && updated.None?
        && showDropoffModal && store.transactions == old(store.transactions)
      ensures SellerDropoffModal.DropoffError(modal.entry).None? ==>
        toasts == [Success("Marked as In Transit to Hub")] && !showDropoffModal
        && updated == Some(ShippedRecord(transaction, SellerDropoffModal.Submitted(modal.entry), now))
        && store.transactions == Storage.Upsert(old(store.transactions), updated.value, Storage.TxKey, true)
    {
      var toast, submitted, close := modal.HandleSubmit();
      if submitted.None? {
        return [toast], None;
      }
      var denied;
      denied, updated := HandleDropoffSubmit(submitted.value, store, now);
      toasts := if denied.Some? then [Failure(Permissions.PermissionDeniedMessage)] else [];
      if close {
        showDropoffModal := false;
      }
      toasts := toasts + [toast];
    }
  }
}
