/**
 * The delivery agent's order panel: visible to the assigned agent only,
 * it opens the hand-over workflow and records the delivery once the
 * workflow accepts the buyer's code.
 */
module AgentOrderActions {
  import opened Wrappers
  import opened Types
  import opened Feedback
  import Permissions
  import Storage
  import AgentDeliveryWorkflow

  /** What the component renders. */
  datatype Panel = Nothing | Workflow | ReadyPanel | DeliveredCard | CompleteCard

  predicate IsAssigned(user: User, tx: Transaction) {
    tx.assignedAgentId == Some(user.id)
  }

  /**
   * The panel: nothing unless `user` is the assigned agent; the workflow
   * while it is open; then the ready panel, the delivered card, or the
   * completion card; else nothing.
   */
  function PanelFor(user: User, tx: Transaction, showWorkflow: bool): (p: Panel)
    ensures !IsAssigned(user, tx) ==> p == Nothing
    ensures p == Workflow <==> IsAssigned(user, tx) && showWorkflow
    ensures p == ReadyPanel <==>
      IsAssigned(user, tx) && !showWorkflow && user.role == Agent && tx.status == OutForDelivery
    ensures p == DeliveredCard <==>
      IsAssigned(user, tx) && !showWorkflow && tx.status == DeliveredAwaitingConfirmation
      && !(user.role == BuyerSeller && Permissions.IsBuyer(user, tx))
    ensures p == CompleteCard <==> IsAssigned(user, tx) && !showWorkflow && tx.status == Completed
  {
    if !IsAssigned(user, tx) then Nothing
    else if showWorkflow then Workflow
    else
      match Permissions.GetAvailableAction(Some(user), tx)
      case Some(AgentDeliver(_)) => ReadyPanel
      case Some(Waiting(_, _)) =>
        if tx.status == DeliveredAwaitingConfirmation then DeliveredCard
        else if tx.status == Completed then CompleteCard
        else Nothing
      case _ => if tx.status == Completed then CompleteCard else Nothing
  }

  class AgentOrderActions {
    const transaction: Transaction
    const currentUser: User
    var showWorkflow: bool

    /** The workflow is only ever opened from the ready panel. */
    predicate Valid()
      reads this
    {
      showWorkflow ==> PanelFor(currentUser, transaction, false) == ReadyPanel
    }

    constructor(transaction: Transaction, currentUser: User)
      ensures this.transaction == transaction && this.currentUser == currentUser
      ensures !showWorkflow && Valid()
    {
      this.transaction := transaction;
      this.currentUser := currentUser;
      showWorkflow := false;
    }

    function Action(): Option<Permissions.Action> {
      Permissions.GetAvailableAction(Some(currentUser), transaction)
    }

    function Render(): Panel
      reads this
    {
      PanelFor(currentUser, transaction, showWorkflow)
    }

    /** The "Start Delivery Confirmation" button of the ready panel. */
    method StartDeliveryConfirmation()
      requires Render() == ReadyPanel
      modifies this`showWorkflow
      ensures showWorkflow && Valid()
    {
      showWorkflow := true;
    }

    /** The workflow's back button on its selection step. */
    method CloseWorkflow()
      requires Valid()
      modifies this`showWorkflow
      ensures !showWorkflow && Valid()
    {
      showWorkflow := false;
    }

    /**
     * Refused with the permission message unless the offered action is
     * the delivery; otherwise the stored record `transaction.id` becomes
     * delivered through the notifying status update, the stored record is
     * handed back and the workflow closes.
     */
    method HandleDeliveryConfirm(store: Storage.LocalStore, now: Time, idOf: nat -> string)
      returns (toast: Option<Toast>, updated: Option<Transaction>)
      requires Valid()
      modifies this`showWorkflow, store`transactions, store.notifications
      ensures Valid()
      ensures !(Action().Some? && Action().value.AgentDeliver?) ==>
        toast == Some(Failure(Permissions.PermissionDeniedMessage)) && updated.None?
        && showWorkflow == old(showWorkflow)
        && store.transactions == old(store.transactions)
        && store.notifications.items == old(store.notifications.items)
      ensures Action().Some? && Action().value.AgentDeliver? ==>
        toast.None? && !showWorkflow
        && store.transactions ==
           Storage.WithStatus(old(store.transactions), transaction.id, DeliveredAwaitingConfirmation, now)
        && store.notifications.items ==
           Storage.NotificationsAfterUpdate(old(store.notifications.items), old(store.transactions),
             transaction.id, DeliveredAwaitingConfirmation, false, store.GetSessionId(), now, idOf)
        && updated == store.GetTransaction(transaction.id)
        && Permissions.CanTransitionTo(Some(currentUser), transaction, DeliveredAwaitingConfirmation)
    {
      var action := Action();
      if !(action.Some? && action.value.AgentDeliver?) {
        return Some(Failure(Permissions.PermissionDeniedMessage)), None;
      }
      Permissions.ResolverMatchesGuard(currentUser, transaction, DeliveredAwaitingConfirmation);
      store.UpdateTransactionStatus(transaction.id, DeliveredAwaitingConfirmation, false, now, idOf);
      updated := store.GetTransaction(transaction.id);
      showWorkflow := false;
      toast := None;
    }

    /**
     * Submitting a code in the open workflow: an accepted code always
     * ends in the delivery being recorded, because the workflow is only
     * open while the delivery is the offered action.
     */
    method SubmitOtp(workflow: AgentDeliveryWorkflow.AgentDeliveryWorkflow, store: Storage.LocalStore,
                     now: Time, idOf: nat -> string)
      returns (toasts: seq<Toast>)
      requires Valid() && showWorkflow
      requires workflow.transaction == transaction && workflow.step == AgentDeliveryWorkflow.EnterOtp
      modifies this`showWorkflow, workflow`step, workflow`isConfirming, store`transactions, store.notifications
      ensures Valid()
      ensures AgentDeliveryWorkflow.OtpAccepted(workflow.otpInput, transaction.confirmationCode) ==>
        toasts == [Success("Delivery confirmed!")] && !showWorkflow
        && workflow.step == AgentDeliveryWorkflow.Confirmed
        && store.transactions ==
           Storage.WithStatus(old(store.transactions), transaction.id, DeliveredAwaitingConfirmation, now)
      ensures !AgentDeliveryWorkflow.OtpAccepted(workflow.otpInput, transaction.confirmationCode) ==>
        toasts == [Failure("Invalid OTP. Demo OTP is 123456")] && showWorkflow
        && workflow.step == AgentDeliveryWorkflow.EnterOtp
        && store.transactions == old(store.transactions)
    {
      var toast, confirm := workflow.HandleOtpSubmit();
      toasts := [toast];
      if confirm {
        var denied, updated := HandleDeliveryConfirm(store, now, idOf);
        if denied.Some? {
          toasts := toasts + [Failure(Permissions.PermissionDeniedMessage)];
        }
      }
    }
  }
}
