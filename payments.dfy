/**
 * The payments dashboard over the local storage: each user's transactions
 * in pending / active / completed sections with their counts, the
 * administrator's and agent's lists, and the dashboard's own shortcuts
 * for marking a parcel at the hub, assigning an agent and recording a
 * delivery. The shortcuts write through the plain save, with no
 * transition guard and no notification.
 */
module Payments {
  import opened Wrappers
  import opened Types
  import opened Feedback
  import Seqs
  import Storage
  import Permissions
  import Notifications
  import AdminOrderActions

  /** The three sections of a transaction list. */
  datatype Bucket = PendingBucket | ActiveBucket | CompletedBucket

  predicate IsPending(t: Transaction) {
    t.status == PendingSetup || t.status == AwaitingPayment
  }

  predicate IsActive(t: Transaction) {
    t.status != PendingSetup && t.status != AwaitingPayment && t.status != Completed && t.status != Refunded
  }

  predicate IsCompleted(t: Transaction) {
    t.status == Completed || t.status == Refunded
  }

  function PendingP(): Transaction -> bool { (t: Transaction) => IsPending(t) }
  function ActiveP(): Transaction -> bool { (t: Transaction) => IsActive(t) }
  function CompletedP(): Transaction -> bool { (t: Transaction) => IsCompleted(t) }

  /** The section a transaction is listed in; every status has exactly one. */
  function BucketOf(t: Transaction): (b: Bucket)
    ensures b == PendingBucket <==> IsPending(t)
    ensures b == ActiveBucket <==> IsActive(t)
    ensures b == CompletedBucket <==> IsCompleted(t)
  {
    if IsPending(t) then PendingBucket else if IsCompleted(t) then CompletedBucket else ActiveBucket
  }

  function PendingOf(txs: seq<Transaction>): (r: seq<Transaction>)
    ensures forall t :: t in r <==> t in txs && BucketOf(t) == PendingBucket
  {
    Seqs.Filter(txs, PendingP())
  }

  function ActiveOf(txs: seq<Transaction>): (r: seq<Transaction>)
    ensures forall t :: t in r <==> t in txs && BucketOf(t) == ActiveBucket
  {
    Seqs.Filter(txs, ActiveP())
  }

  function CompletedOf(txs: seq<Transaction>): (r: seq<Transaction>)
    ensures forall t :: t in r <==> t in txs && BucketOf(t) == CompletedBucket
  {
    Seqs.Filter(txs, CompletedP())
  }

  /** The three counts shown on the dashboard add up to the number of transactions. */
  lemma BucketCounts(txs: seq<Transaction>)
    ensures |PendingOf(txs)| + |ActiveOf(txs)| + |CompletedOf(txs)| == |txs|
  {
    var settled := (t: Transaction) => !IsPending(t);
    Seqs.FilterSplits(txs, PendingP(), settled);
    Seqs.FilterTwice(txs, settled, ActiveP(), ActiveP());
    Seqs.FilterTwice(txs, settled, CompletedP(), CompletedP());
    Seqs.FilterSplits(Seqs.Filter(txs, settled), ActiveP(), CompletedP());
  }

  /** The completed section shows the first five completed transactions. */
  function ShownCompleted(txs: seq<Transaction>): (r: seq<Transaction>)
    ensures |r| <= 5 && r <= CompletedOf(txs)
    ensures |CompletedOf(txs)| <= 5 ==> r == CompletedOf(txs)
    ensures |r| == if |CompletedOf(txs)| <= 5 then |CompletedOf(txs)| else 5
  {
    Seqs.Take(CompletedOf(txs), 5)
  }

  /** The number of transactions in `txs` with status `s`, as the admin and agent tiles count them. */
  function CountWith(txs: seq<Transaction>, s: Status): (n: nat)
    ensures n <= |txs|
    ensures n == 0 <==> forall t :: t in txs ==> t.status != s
    ensures n == |txs| <==> forall t :: t in txs ==> t.status == s
  {
    var r := Seqs.Filter(txs, (t: Transaction) => t.status == s);
    assert r != [] ==> r[0] in r;
    Seqs.FilterFullLength(txs, (t: Transaction) => t.status == s);
    |r|
  }

  /** The agent's list: exactly the transactions assigned to the signed-in agent, in stored order. */
  function AgentList(txs: seq<Transaction>, sessionId: string): (r: seq<Transaction>)
    ensures forall t :: t in r <==> t in txs && t.assignedAgentId == Some(sessionId)
  {
    Seqs.Filter(txs, (t: Transaction) => t.assignedAgentId == Some(sessionId))
  }

  /** `s` with every record carrying `id` replaced by `x`, as the agent's list is refreshed. */
  function ReplaceById(s: seq<Transaction>, id: string, x: Transaction): (r: seq<Transaction>)
    ensures |r| == |s|
    ensures forall j :: 0 <= j < |s| ==> r[j] == if s[j].id == id then x else s[j]
    ensures forall t :: t in r ==> t == x || (t in s && t.id != id)
    ensures forall t :: t in s && t.id != id ==> t in r
    ensures (exists j :: 0 <= j < |s| && s[j].id == id) ==> x in r
  {
    var r := seq(|s|, j requires 0 <= j < |s| => if s[j].id == id then x else s[j]);
    assert forall t :: t in r ==> t == x || (t in s && t.id != id) by {
      forall t | t in r ensures t == x || (t in s && t.id != id) {
        var j :| 0 <= j < |r| && r[j] == t;
      }
    }
    assert forall t :: t in s && t.id != id ==> t in r by {
      forall t | t in s && t.id != id ensures t in r {
        var j :| 0 <= j < |s| && s[j] == t;
        assert r[j] == t;
      }
    }
    assert forall j :: 0 <= j < |s| && s[j].id == id ==> r[j] == x;
    r
  }

  /**
   * Saving the stored record of `id` with a new status and update time is
   * the status update itself, only without its notifications.
   */
  lemma SaveOfStoredIsStatusUpdate(s: seq<Transaction>, id: string, status: Status, now: Time)
    requires Storage.FindById(s, Storage.TxKey, id).Some?
    ensures Storage.Upsert(s, Storage.FindById(s, Storage.TxKey, id).value.(status := status, updatedAt := now),
                           Storage.TxKey, true)
            == Storage.WithStatus(s, id, status, now)
  {
    var i := Storage.IndexOfId(s, Storage.TxKey, id);
    assert s[i].id == id;
  }

  /**
   * The guard would refuse every user a move to the hub unless the parcel
   * is in transit, the move to the delivered status unless it is out for
   * delivery, and the agent's move unless that agent is assigned; the
   * dashboard's shortcuts make these moves anyway.
   */
  lemma ShortcutsIgnoreTheGuard(u: User, tx: Transaction)
    ensures tx.status != InTransitToHub ==> !Permissions.CanTransitionTo(Some(u), tx, AtProlistHub)
    ensures tx.status != OutForDelivery ==> !Permissions.CanTransitionTo(Some(u), tx, DeliveredAwaitingConfirmation)
    ensures tx.assignedAgentId != Some(u.id) ==>
      !Permissions.CanTransitionTo(Some(u), tx, DeliveredAwaitingConfirmation)
    ensures tx.status != AtProlistHub ==> !Permissions.CanTransitionTo(Some(u), tx, OutForDelivery)
  {
  }

  /** The notification types a user's visit to the dashboard marks read, by role. */
  function SeenTypes(role: Role): seq<Notifications.NotificationType> {
    match role
    case Admin => [Notifications.AdminType]
    case Agent => [Notifications.AgentType]
    case BuyerSeller => [Notifications.BuyerType, Notifications.SellerType]
  }

  class PaymentsPage {
    const session: Option<User>
    var buyerTransactions: seq<Transaction>
    var sellerTransactions: seq<Transaction>
    var allTransactions: seq<Transaction>
    var agentTransactions: seq<Transaction>
    var agents: seq<User>

    constructor(session: Option<User>)
      ensures this.session == session
      ensures buyerTransactions == [] && sellerTransactions == [] && allTransactions == []
      ensures agentTransactions == [] && agents == []
    {
      this.session := session;
      buyerTransactions, sellerTransactions, allTransactions := [], [], [];
      agentTransactions, agents := [], [];
    }

    /**
     * Loading the page: without a session it leaves for the login page;
     * otherwise the user's purchases and sales are loaded, an
     * administrator also gets every transaction and the agents, and an
     * agent the transactions assigned to them.
     */
    method Load(store: Storage.LocalStore) returns (leave: bool)
      modifies this`buyerTransactions, this`sellerTransactions, this`allTransactions,
               this`agentTransactions, this`agents
      ensures leave <==> session.None?
      ensures session.None? ==>
        buyerTransactions == old(buyerTransactions) && sellerTransactions == old(sellerTransactions)
        && allTransactions == old(allTransactions) && agentTransactions == old(agentTransactions)
        && agents == old(agents)
      ensures session.Some? ==>
        buyerTransactions == store.GetBuyerTransactions(session.value.id)
        && sellerTransactions == store.GetSellerTransactions(session.value.id)
        && (session.value.role == Admin ==> allTransactions == store.transactions && agents == AdminOrderActions.Agents(store.users))
        && (session.value.role != Admin ==> allTransactions == old(allTransactions) && agents == old(agents))
        && (session.value.role == Agent ==> agentTransactions == AgentList(store.transactions, session.value.id))
        && (session.value.role != Agent ==> agentTransactions == old(agentTransactions))
    {
      if session.None? {
        return true;
      }
      var id := session.value.id;
      buyerTransactions := store.GetBuyerTransactions(id);
      sellerTransactions := store.GetSellerTransactions(id);
      if session.value.role == Admin {
        allTransactions := store.transactions;
        agents := AdminOrderActions.Agents(store.users);
      }
      if session.value.role == Agent {
        agentTransactions := AgentList(store.transactions, id);
      }
      leave := false;
    }

    /**
     * On the first visit the user's notifications of the dashboard's types
     * are marked read, and an administrator's also those addressed to all
     * administrators.
     */
    method MarkSeen(store: Storage.LocalStore)
      modifies store.notifications
      ensures session.None? ==> store.notifications.items == old(store.notifications.items)
      ensures session.Some? && session.value.role != Admin ==>
        store.notifications.items ==
        Notifications.MarkWhere(old(store.notifications.items),
          Notifications.OfUserAndType(session.value.id, SeenTypes(session.value.role)))
      ensures session.Some? && session.value.role == Admin ==>
        store.notifications.items ==
        Notifications.MarkWhere(
          Notifications.MarkWhere(old(store.notifications.items),
            Notifications.OfUserAndType(session.value.id, [Notifications.AdminType])),
          Notifications.OfUserAndType(Notifications.AdminTarget, [Notifications.AdminType]))
    {
      if session.None? {
        return;
      }
      store.notifications.MarkTypeAsRead(session.value.id, SeenTypes(session.value.role));
      if session.value.role == Admin {
        store.notifications.MarkTypeAsRead(Notifications.AdminTarget, [Notifications.AdminType]);
      }
    }

    /**
     * The administrator's "at hub" shortcut: any stored transaction, in
     * whatever status, is set to at-hub and saved; nobody is notified.
     */
    method HandleMarkAtHub(store: Storage.LocalStore, id: string, now: Time) returns (toast: Option<Toast>)
      modifies store`transactions, this`allTransactions
      ensures old(store.GetTransaction(id)).None? ==>
        toast.None? && store.transactions == old(store.transactions) && allTransactions == old(allTransactions)
      ensures old(store.GetTransaction(id)).Some? ==>
        toast == Some(Success("Marked as received at hub"))
        && store.transactions == Storage.WithStatus(old(store.transactions), id, AtProlistHub, now)
        && allTransactions == store.transactions
      ensures store.notifications.items == old(store.notifications.items)
    {
      var tx := store.GetTransaction(id);
      if tx.None? {
        return None;
      }
      SaveOfStoredIsStatusUpdate(store.transactions, id, AtProlistHub, now);
      store.SaveTransaction(tx.value.(status := AtProlistHub, updatedAt := now));
      allTransactions := store.transactions;
      toast := Some(Success("Marked as received at hub"));
    }

    /**
     * The administrator's assignment shortcut: when both the stored
     * transaction and the agent (among the agents loaded for the page) are
     * found, the agent is recorded, the status set to out-for-delivery,
     * and the record saved, whatever its status was; otherwise nothing.
     */
    method HandleAssignAgent(store: Storage.LocalStore, id: string, agentId: string, now: Time)
      returns (toast: Option<Toast>)
      modifies store`transactions, this`allTransactions
      ensures var tx := old(store.GetTransaction(id));
        var agent := Seqs.Find(agents, (a: User) => a.id == agentId);
        if tx.Some? && agent.Some? then
          toast == Some(Success("Assigned to " + agent.value.name))
          && store.transactions ==
             Storage.Upsert(old(store.transactions), AdminOrderActions.AssignedRecord(tx.value, agent.value, now),
                            Storage.TxKey, true)
          && agent.value.id == agentId && agent.value in agents
          && allTransactions == store.transactions
        else
          toast.None? && store.transactions == old(store.transactions) && allTransactions == old(allTransactions)
      ensures store.notifications.items == old(store.notifications.items)
    {
      var tx := store.GetTransaction(id);
      var agent := Seqs.Find(agents, (a: User) => a.id == agentId);
      if tx.None? || agent.None? {
        return None;
      }
      store.SaveTransaction(AdminOrderActions.AssignedRecord(tx.value, agent.value, now));
      allTransactions := store.transactions;
      toast := Some(Success("Assigned to " + agent.value.name));
    }

    /**
     * The agent's "delivered" shortcut: any stored transaction, whoever it
     * is assigned to and in whatever status, is set to delivered-awaiting-
     * confirmation and saved, and the agent's list shows the new record.
     */
    method HandleAgentDelivered(store: Storage.LocalStore, id: string, now: Time) returns (toast: Option<Toast>)
      modifies store`transactions, this`agentTransactions
      ensures old(store.GetTransaction(id)).None? ==>
        toast.None? && store.transactions == old(store.transactions) && agentTransactions == old(agentTransactions)
      ensures old(store.GetTransaction(id)).Some? ==>
        toast == Some(Success("Marked as delivered - awaiting buyer confirmation"))
        && store.transactions ==
           Storage.WithStatus(old(store.transactions), id, DeliveredAwaitingConfirmation, now)
        && agentTransactions ==
           ReplaceById(old(agentTransactions), id,
             old(store.GetTransaction(id)).value.(status := DeliveredAwaitingConfirmation, updatedAt := now))
      ensures store.notifications.items == old(store.notifications.items)
    {
      var tx := store.GetTransaction(id);
      if tx.None? {
        return None;
      }
      var updated := tx.value.(status := DeliveredAwaitingConfirmation, updatedAt := now);
      SaveOfStoredIsStatusUpdate(store.transactions, id, DeliveredAwaitingConfirmation, now);
      store.SaveTransaction(updated);
      agentTransactions := ReplaceById(agentTransactions, id, updated);
      toast := Some(Success("Marked as delivered - awaiting buyer confirmation"));
    }
  }
}
