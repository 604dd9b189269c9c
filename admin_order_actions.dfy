/**
 * The admin's order panel: receiving a parcel at the hub and assigning a
 * delivery agent, each behind the action the resolver offers, and the
 * choice of panel from that action.
 */
module AdminOrderActions {
  import opened Wrappers
  import opened Types
  import opened Feedback
  import Permissions
  import Storage
  import Seqs

  /** What the component renders. */
  datatype Panel = ReceivePanel | AssignPanel | WaitingNote(text: string) | Nothing

  /** The panel is chosen by the kind of the offered action alone. */
  function PanelFor(action: Option<Permissions.Action>): (p: Panel)
    ensures p == ReceivePanel <==> action.Some? && action.value.AdminReceive?
    ensures p == AssignPanel <==> action.Some? && action.value.AdminAssign?
    ensures p.WaitingNote? <==> action.Some? && action.value.Waiting?
    ensures p.WaitingNote? ==> p.text == action.value.title
  {
    match action
    case Some(AdminReceive(_)) => ReceivePanel
    case Some(AdminAssign(_)) => AssignPanel
    case Some(Waiting(title, _)) => WaitingNote(title)
    case _ => Nothing
  }

  /** The users offered in the agent picker: those with the agent role, in stored order. */
  function Agents(users: seq<User>): (r: seq<User>)
    ensures forall u :: u in r <==> u in users && u.role == Agent
  {
    Seqs.Filter(users, (u: User) => u.role == Agent)
  }

  /** The record written by a successful assignment. */
  function AssignedRecord(tx: Transaction, agent: User, now: Time): (r: Transaction)
    ensures r.assignedAgentId == Some(agent.id) && r.assignedAgentName == Some(agent.name)
    ensures r.status == OutForDelivery && r.id == tx.id
    ensures Permissions.OrderIndex(r.status) == Permissions.OrderIndex(AtProlistHub) + 1
    ensures r.(assignedAgentId := tx.assignedAgentId, assignedAgentName := tx.assignedAgentName,
               status := tx.status, updatedAt := tx.updatedAt) == tx
  {
    tx.(assignedAgentId := Some(agent.id), assignedAgentName := Some(agent.name),
        status := OutForDelivery, updatedAt := now)
  }

  /**
   * An admin sees the receive panel on a parcel in transit and the assign
   * panel on a parcel at the hub; nobody else ever sees either.
   */
  lemma PanelByStatus(u: User, tx: Transaction)
    ensures u.role == Admin && tx.status == InTransitToHub ==>
      PanelFor(Permissions.GetAvailableAction(Some(u), tx)) == ReceivePanel
    ensures u.role == Admin && tx.status == AtProlistHub ==>
      PanelFor(Permissions.GetAvailableAction(Some(u), tx)) == AssignPanel
    ensures u.role != Admin ==>
      PanelFor(Permissions.GetAvailableAction(Some(u), tx)) != ReceivePanel
      && PanelFor(Permissions.GetAvailableAction(Some(u), tx)) != AssignPanel
  {
  }

  /** The component for one transaction, as seen by one signed-in user. */
  class AdminOrderActions {
    const transaction: Transaction
    const currentUser: User
    /** The stored users when the component rendered; the picker lists the agents among them. */
    const users: seq<User>
    var selectedAgentId: string

    constructor(transaction: Transaction, currentUser: User, users: seq<User>)
      ensures this.transaction == transaction && this.currentUser == currentUser
      ensures this.users == users
      ensures selectedAgentId == ""
    {
      this.transaction := transaction;
      this.currentUser := currentUser;
      this.users := users;
      selectedAgentId := "";
    }

    function Action(): Option<Permissions.Action> {
      Permissions.GetAvailableAction(Some(currentUser), transaction)
    }

    function Render(): Panel {
      PanelFor(Action())
    }

    method SelectAgent(id: string)
      modifies this`selectedAgentId
      ensures selectedAgentId == id
    {
      selectedAgentId := id;
    }

    /**
     * Refused with the permission message unless the offered action is
     * receiving at the hub; otherwise the stored record `transaction.id`
     * moves to the hub through the notifying status update, and the
     * stored record is handed back.
     */
    method HandleReceiveAtHub(store: Storage.LocalStore, now: Time, idOf: nat -> string)
      returns (toast: Toast, updated: Option<Transaction>)
      modifies store`transactions, store.notifications
      ensures !(Action().Some? && Action().value.AdminReceive?) ==>
        toast == Failure(Permissions.PermissionDeniedMessage) && updated.None?
        && store.transactions == old(store.transactions)
        && store.notifications.items == old(store.notifications.items)
      ensures Action().Some? && Action().value.AdminReceive? ==>
        toast == Success("Marked as received at hub")
        && store.transactions == Storage.WithStatus(old(store.transactions), transaction.id, AtProlistHub, now)
        && store.notifications.items ==
           Storage.NotificationsAfterUpdate(old(store.notifications.items), old(store.transactions),
             transaction.id, AtProlistHub, false, store.GetSessionId(), now, idOf)
        && updated == store.GetTransaction(transaction.id)
      ensures Action().Some? && Action().value.AdminReceive? ==>
        Permissions.CanTransitionTo(Some(currentUser), transaction, AtProlistHub)
    {
      var action := Action();
      if !(action.Some? && action.value.AdminReceive?) {
        return Failure(Permissions.PermissionDeniedMessage), None;
      }
      Permissions.ResolverMatchesGuard(currentUser, transaction, AtProlistHub);
      store.UpdateTransactionStatus(transaction.id, AtProlistHub, false, now, idOf);
      updated := store.GetTransaction(transaction.id);
      toast := Success("Marked as received at hub");
    }

    /**
     * Refused, in this order, unless the offered action is the assignment,
     * when no agent is selected, and when the selection is no listed
     * agent; otherwise the component's copy of the transaction gets the
     * agent and moves out for delivery, written with the plain save, so
     * that nobody is notified.
     */
    method HandleAssignAgent(store: Storage.LocalStore, now: Time)
      returns (toast: Toast, updated: Option<Transaction>)
      modifies store`transactions
      ensures !(Action().Some? && Action().value.AdminAssign?) ==>
        toast == Failure(Permissions.PermissionDeniedMessage) && updated.None?
        && store.transactions == old(store.transactions)
      ensures Action().Some? && Action().value.AdminAssign? && selectedAgentId == "" ==>
        toast == Failure("Please select a delivery agent") && updated.None?
        && store.transactions == old(store.transactions)
      ensures Action().Some? && Action().value.AdminAssign? && selectedAgentId != ""
              && Storage.FindById(Agents(users), Storage.UserKey, selectedAgentId).None? ==>
        toast == Failure("Agent not found") && updated.None?
        && store.transactions == old(store.transactions)
      ensures Action().Some? && Action().value.AdminAssign? && selectedAgentId != ""
              && Storage.FindById(Agents(users), Storage.UserKey, selectedAgentId).Some? ==>
        var agent := Storage.FindById(Agents(users), Storage.UserKey, selectedAgentId).value;
        toast == Success("Assigned to " + agent.name)
        && updated == Some(AssignedRecord(transaction, agent, now))
        && store.transactions == Storage.Upsert(old(store.transactions), updated.value, Storage.TxKey, true)
        && agent.role == Agent && agent.id == selectedAgentId
        && Permissions.CanTransitionTo(Some(currentUser), transaction, OutForDelivery)
      ensures store.notifications.items == old(store.notifications.items)
    {
      var action := Action();
      if !(action.Some? && action.value.AdminAssign?) {
        return Failure(Permissions.PermissionDeniedMessage), None;
      }
      if selectedAgentId == "" {
        return Failure("Please select a delivery agent"), None;
      }
      var found := Storage.FindById(Agents(users), Storage.UserKey, selectedAgentId);
      if found.None? {
        return Failure("Agent not found"), None;
      }
      var agent := found.value;
      Permissions.ResolverMatchesGuard(currentUser, transaction, OutForDelivery);
      var updatedTx := AssignedRecord(transaction, agent, now);
      store.SaveTransaction(updatedTx);
      toast, updated := Success("Assigned to " + agent.name), Some(updatedTx);
    }
  }
}
