/**
 * The role-based permission rules of the escrow lifecycle: which role may
 * move a transaction from which status to which, which single next action
 * a user is shown, and who may view a transaction or create a listing.
 */
module Permissions {
  import opened Wrappers
  import opened Types

  /**
   * The denial text. The source file stores the em dash mis-encoded as the
   * three characters U+00E2 U+20AC U+201D, and it is reproduced as stored.
   */
  const PermissionDeniedMessage: string :=
    "Action not allowed \U{00E2}\U{20AC}\U{201D} waiting for the previous step to be completed."

  /** The linear order of statuses (refunded is not part of it). */
  const StatusOrder: seq<Status> := [
    PendingSetup, AwaitingPayment, EscrowHeld, InTransitToHub,
    AtProlistHub, OutForDelivery, DeliveredAwaitingConfirmation, Completed
  ]

  /** `STATUS_ORDER.indexOf(s)`: the position of `s` in the order, or -1 for refunded. */
  function OrderIndex(s: Status): (i: int)
    ensures -1 <= i < |StatusOrder|
    ensures 0 <= i ==> StatusOrder[i] == s
    ensures i == -1 <==> s !in StatusOrder
  {
    match s
    case PendingSetup => 0
    case AwaitingPayment => 1
    case EscrowHeld => 2
    case InTransitToHub => 3
    case AtProlistHub => 4
    case OutForDelivery => 5
    case DeliveredAwaitingConfirmation => 6
    case Completed => 7
    case Refunded => -1
  }

  /**
   * The role transition table: the statuses `role` may set on a transaction
   * currently in `current`. Every entry moves exactly one step along the
   * order, and nothing leaves completed or refunded.
   */
  function AllowedTargets(role: Role, current: Status): (r: seq<Status>)
    ensures |r| <= 1
    ensures forall t :: t in r ==> 0 <= OrderIndex(current) && OrderIndex(t) == OrderIndex(current) + 1
    ensures current == Completed || current == Refunded ==> r == []
    ensures current == PendingSetup || current == AwaitingPayment ==> r == []
  {
    match (role, current)
    case (BuyerSeller, EscrowHeld) => [InTransitToHub]
    case (BuyerSeller, DeliveredAwaitingConfirmation) => [Completed]
    case (Admin, InTransitToHub) => [AtProlistHub]
    case (Admin, AtProlistHub) => [OutForDelivery]
    case (Agent, OutForDelivery) => [DeliveredAwaitingConfirmation]
    case _ => []
  }

  /** Each status other than the first three and refunded is set by exactly one role. */
  lemma EachStepHasOneRole(t: Status, r1: Role, r2: Role, s1: Status, s2: Status)
    requires t in AllowedTargets(r1, s1) && t in AllowedTargets(r2, s2)
    ensures r1 == r2 && s1 == s2
  {
  }

  predicate IsSeller(user: User, tx: Transaction) {
    user.id == tx.sellerId
  }

  /** The buyer is recognised by id or, for guest checkouts, by phone number. */
  predicate IsBuyer(user: User, tx: Transaction) {
    tx.buyerId == Some(user.id) || tx.buyerPhone == Some(user.phone)
  }

  predicate IsAssignedAgent(user: User, tx: Transaction) {
    tx.assignedAgentId == Some(user.id)
  }

  /** Whether `user` may set `target` on `tx`. */
  function CanTransitionTo(user: Option<User>, tx: Transaction, target: Status): (ok: bool)
    ensures ok ==> user.Some? && target in AllowedTargets(user.value.role, tx.status)
    ensures ok ==> OrderIndex(target) == OrderIndex(tx.status) + 1
    ensures ok && target == InTransitToHub ==> user.value.role == BuyerSeller && IsSeller(user.value, tx)
    ensures ok && target == Completed ==> user.value.role == BuyerSeller && IsBuyer(user.value, tx)
    ensures ok && target == DeliveredAwaitingConfirmation ==> user.value.role == Agent && IsAssignedAgent(user.value, tx)
    ensures ok && (target == AtProlistHub || target == OutForDelivery) ==> user.value.role == Admin
  {
    if user.None? then false
    else
      var u := user.value;
      if target !in AllowedTargets(u.role, tx.status) then false
      else if u.role == BuyerSeller && target == InTransitToHub && !IsSeller(u, tx) then false
      else if u.role == BuyerSeller && target == Completed && !IsBuyer(u, tx) then false
      else if u.role == Agent && !IsAssignedAgent(u, tx) then false
      else true
  }

  /** The single next step a user is offered on a transaction. */
  datatype Action =
    | SellerShip(title: string)
    | AdminReceive(title: string)
    | AdminAssign(title: string)
    | AgentDeliver(title: string)
    | BuyerConfirm(title: string)
    | Waiting(title: string, waitingFor: string)

  /** The status an action sets when it is carried out; waiting sets none. */
  function ActionTarget(a: Action): Option<Status> {
    match a
    case SellerShip(_) => Some(InTransitToHub)
    case AdminReceive(_) => Some(AtProlistHub)
    case AdminAssign(_) => Some(OutForDelivery)
    case AgentDeliver(_) => Some(DeliveredAwaitingConfirmation)
    case BuyerConfirm(_) => Some(Completed)
    case Waiting(_, _) => None
  }

  /** The action resolver: the one action (or waiting notice) the user sees, none once finished. */
  function GetAvailableAction(user: Option<User>, tx: Transaction): (a: Option<Action>)
    ensures a.None? <==> user.None? || tx.status == Completed || tx.status == Refunded
    ensures tx.status == PendingSetup || tx.status == AwaitingPayment ==> a.None? || a.value.Waiting?
  {
    if user.None? then None
    else
      var u := user.value;
      match tx.status
      case Completed => None
      case Refunded => None
      case PendingSetup => Some(Waiting("Awaiting Payment", "buyer"))
      case AwaitingPayment => Some(Waiting("Awaiting Payment", "buyer"))
      case EscrowHeld =>
        if u.role == BuyerSeller && IsSeller(u, tx) then Some(SellerShip("Mark In Transit"))
        else Some(Waiting("Waiting for seller to ship", "seller"))
      case InTransitToHub =>
        if u.role == Admin then Some(AdminReceive("Mark Received at Hub"))
        else Some(Waiting("In transit to hub", "admin"))
      case AtProlistHub =>
        if u.role == Admin then Some(AdminAssign("Assign Delivery Agent"))
        else Some(Waiting("At hub, awaiting assignment", "admin"))
      case OutForDelivery =>
        if u.role == Agent && IsAssignedAgent(u, tx) then Some(AgentDeliver("Confirm Delivery"))
        else Some(Waiting("Out for delivery", "agent"))
      case DeliveredAwaitingConfirmation =>
        if u.role == BuyerSeller && IsBuyer(u, tx) then Some(BuyerConfirm("Confirm Received"))
        else Some(Waiting("Awaiting buyer confirmation", "buyer"))
  }

  /** Whatever the guard lets a user set is the target of the action they are offered. */
  lemma GuardedTargetIsOffered(u: User, tx: Transaction, target: Status)
    requires CanTransitionTo(Some(u), tx, target)
    ensures GetAvailableAction(Some(u), tx).Some? && ActionTarget(GetAvailableAction(Some(u), tx).value) == Some(target)
  {
    assert target in AllowedTargets(u.role, tx.status);
  }

  /** The target of an offered action is one the guard lets the user set. */
  lemma OfferedTargetIsGuarded(u: User, tx: Transaction, target: Status)
    requires GetAvailableAction(Some(u), tx).Some? && ActionTarget(GetAvailableAction(Some(u), tx).value) == Some(target)
    ensures CanTransitionTo(Some(u), tx, target)
  {
    var a := GetAvailableAction(Some(u), tx).value;
    assert !a.Waiting?;
  }

  /** Every action the resolver offers moves the transaction exactly one step along the order. */
  lemma ActionStepsForward(user: Option<User>, tx: Transaction)
    ensures var a := GetAvailableAction(user, tx);
      a.Some? && ActionTarget(a.value).Some? ==> OrderIndex(ActionTarget(a.value).value) == OrderIndex(tx.status) + 1
  {
    var a := GetAvailableAction(user, tx);
    if a.Some? && ActionTarget(a.value).Some? {
      OfferedTargetIsGuarded(user.value, tx, ActionTarget(a.value).value);
    }
  }

  /**
   * The resolver and the transition guard agree: a user is offered the
   * action that sets `target` exactly when the guard lets them set it.
   */
  lemma ResolverMatchesGuard(u: User, tx: Transaction, target: Status)
    ensures CanTransitionTo(Some(u), tx, target) <==>
      (GetAvailableAction(Some(u), tx).Some? && ActionTarget(GetAvailableAction(Some(u), tx).value) == Some(target))
  {
    if CanTransitionTo(Some(u), tx, target) {
      GuardedTargetIsOffered(u, tx, target);
    }
    if GetAvailableAction(Some(u), tx).Some? && ActionTarget(GetAvailableAction(Some(u), tx).value) == Some(target) {
      OfferedTargetIsGuarded(u, tx, target);
    }
  }

  /** When it is nobody's turn to act on `tx` (it waits or is finished), no transition is allowed to `u`. */
  lemma WaitingMeansNoTransition(u: User, tx: Transaction, target: Status)
    requires GetAvailableAction(Some(u), tx).None? || GetAvailableAction(Some(u), tx).value.Waiting?
    ensures !CanTransitionTo(Some(u), tx, target)
  {
    ResolverMatchesGuard(u, tx, target);
  }

  /** Apply a sequence of (actor, target) steps, each through the guard; `None` as soon as one is refused. */
  function ApplySteps(tx: Transaction, steps: seq<(User, Status)>): Option<Transaction>
    decreases |steps|
  {
    if steps == [] then Some(tx)
    else if CanTransitionTo(Some(steps[0].0), tx, steps[0].1) then
      ApplySteps(tx.(status := steps[0].1), steps[1..])
    else None
  }

  /**
   * A run of guarded transitions can never skip or repeat a status: it
   * advances one step along the order per transition, starts no earlier
   * than escrow_held and has at most five steps.
   */
  lemma {:induction false} GuardedRunAdvances(tx: Transaction, steps: seq<(User, Status)>)
    requires ApplySteps(tx, steps).Some?
    ensures OrderIndex(ApplySteps(tx, steps).value.status) == OrderIndex(tx.status) + |steps|
    ensures steps != [] ==> OrderIndex(EscrowHeld) <= OrderIndex(tx.status)
    ensures |steps| <= 5
    decreases |steps|
  {
    if steps != [] {
      var next := tx.(status := steps[0].1);
      GuardedRunAdvances(next, steps[1..]);
    }
  }

  /** Who may open a transaction's page. */
  function CanViewTransaction(user: Option<User>, tx: Transaction): (r: bool)
    ensures r ==> user.Some?
    ensures user.Some? && user.value.role == Admin ==> r
    ensures user.Some? && user.value.role == Agent ==> (r <==> IsAssignedAgent(user.value, tx))
    ensures user.Some? && user.value.role == BuyerSeller ==>
      (r <==> IsSeller(user.value, tx) || IsBuyer(user.value, tx))
  {
    if user.None? then false
    else
      var u := user.value;
      match u.role
      case Admin => true
      case Agent => IsAssignedAgent(u, tx)
      case BuyerSeller => IsSeller(u, tx) || IsBuyer(u, tx)
  }

  /** Anyone the guard lets move a transaction may also view it. */
  lemma ActorCanView(u: User, tx: Transaction, target: Status)
    requires CanTransitionTo(Some(u), tx, target)
    ensures CanViewTransaction(Some(u), tx)
  {
  }

  /** Listing creation: staff always, a buyer-seller only once verified. */
  function CanCreateListing(user: Option<User>): (r: bool)
    ensures r ==> user.Some?
    ensures user.Some? && user.value.role != BuyerSeller ==> r
    ensures user.Some? && user.value.role == BuyerSeller ==> (r <==> user.value.verificationStatus == Some(Verified))
  {
    if user.None? then false
    else
      match user.value.role
      case Admin => true
      case Agent => true
      case BuyerSeller => user.value.verificationStatus == Some(Verified)
  }

  /** The status label a role sees (the same for every role). */
  function StatusLabel(s: Status, role: Role): string {
    match s
    case PendingSetup => "Setting Up"
    case AwaitingPayment => "Awaiting Payment"
    case EscrowHeld => "Payment Secured"
    case InTransitToHub => "Shipped to Hub"
    case AtProlistHub => "Received at Hub"
    case OutForDelivery => "Out for Delivery"
    case DeliveredAwaitingConfirmation => "Delivered - Awaiting Confirmation"
    case Completed => "Completed"
    case Refunded => "Refunded"
  }

  /** The label does not depend on the role, and different statuses have different labels. */
  lemma StatusLabelNamesTheStatus(s: Status, t: Status, a: Role, b: Role)
    ensures StatusLabel(s, a) == StatusLabel(s, b)
    ensures StatusLabel(s, a) == StatusLabel(t, b) <==> s == t
  {
  }
}
