/**
 * The order-tracking page for sellers, administrators and agents over the
 * hosted database: the full timeline, which action panels are shown to
 * whom, and the records handed to those panels.
 *
 * The panels work on the local vocabulary (lower-case statuses, the roles
 * BUYER_SELLER / ADMIN / AGENT) while this page holds database rows
 * (upper-case statuses, the roles BUYER / SELLER / AGENT / ADMIN). The
 * records it hands over keep the database spellings, so the action
 * resolver recognises none of their statuses; `AdapterOffersNothing`
 * shows this, and `IntendedSession` / `IntendedTransaction` translate the
 * vocabularies instead.
 */
module TransactionStatus {
  import opened Wrappers
  import opened DbTypes
  import Types
  import Seqs
  import UseAuth
  import Permissions

  /** The six steps of the full timeline. */
  const FullSteps: seq<DbStatus> :=
    [EscrowHeld, InTransitToHub, AtProlistHub, OutForDelivery, DeliveredAwaitingConfirmation, Completed]

  function IsStatus(s: DbStatus): DbStatus -> bool {
    (t: DbStatus) => t == s
  }

  /** The timeline position of a status; -1 for a status the timeline does not show. */
  function StatusIndex(s: DbStatus): (i: int)
    ensures -1 <= i < |FullSteps|
    ensures 0 <= i ==> FullSteps[i] == s
    ensures i == -1 <==> s == PendingPayment || s == Refunded || s == Cancelled
  {
    if s == PendingPayment then -1
    else Seqs.IndexWhere(FullSteps, IsStatus(s))
  }

  /** The statuses an order goes through, in order, when nothing goes wrong. */
  const ForwardOrder: seq<DbStatus> :=
    [PendingPayment, EscrowHeld, InTransitToHub, AtProlistHub, OutForDelivery,
     DeliveredAwaitingConfirmation, Completed]

  /** Along the forward order, the position is one less than the place in that order. */
  lemma StatusIndexAlongForwardOrder(k: nat)
    requires k < |ForwardOrder|
    ensures StatusIndex(ForwardOrder[k]) == k - 1
  {
    if k > 0 {
      assert FullSteps[k - 1] == ForwardOrder[k];
      assert forall j :: 0 <= j < |FullSteps| && j != k - 1 ==> FullSteps[j] != ForwardOrder[k];
    }
  }

  /** Unlike the buyer's timeline, this one shows every forward step as a step further. */
  lemma StatusIndexStrictlyMonotone(i: nat, j: nat)
    requires i < j < |ForwardOrder|
    ensures StatusIndex(ForwardOrder[i]) < StatusIndex(ForwardOrder[j])
  {
    StatusIndexAlongForwardOrder(i);
    StatusIndexAlongForwardOrder(j);
  }

  /** The action panels appear only for a signed-in user and an order between payment and completion. */
  predicate ShowsActions(authUser: Option<UseAuth.AuthUser>, tx: DbTransaction) {
    authUser.Some? && tx.status != PendingPayment && tx.status != Completed
    && tx.status != Refunded && tx.status != Cancelled
  }

  /** Which of the three panels the page renders. */
  datatype Panels = Panels(seller: bool, admin: bool, agent: bool)

  function PanelsFor(authUser: Option<UseAuth.AuthUser>, tx: DbTransaction): (p: Panels)
    ensures p.seller <==>
      ShowsActions(authUser, tx) && authUser.value.id == tx.sellerId
      && authUser.value.primaryRole != Admin && authUser.value.primaryRole != Agent
    ensures p.admin <==> ShowsActions(authUser, tx) && authUser.value.primaryRole == Admin
    ensures p.agent <==>
      ShowsActions(authUser, tx) && authUser.value.primaryRole == Agent
      && tx.assignedAgentId == Some(authUser.value.id)
  {
    if !ShowsActions(authUser, tx) then Panels(false, false, false)
    else
      var u := authUser.value;
      Panels(u.id == tx.sellerId && u.primaryRole != Admin && u.primaryRole != Agent,
             u.primaryRole == Admin,
             u.primaryRole == Agent && tx.assignedAgentId == Some(u.id))
  }

  /** The three panels are for three different primary roles, so at most one shows. */
  lemma AtMostOnePanel(authUser: Option<UseAuth.AuthUser>, tx: DbTransaction)
    ensures var p := PanelsFor(authUser, tx);
      !(p.seller && p.admin) && !(p.seller && p.agent) && !(p.admin && p.agent)
  {
  }

  /** The signed-in user as handed to the panels: the database role is passed on as it is spelled. */
  datatype AdaptedSession = AdaptedSession(id: string, roleText: string, isVerified: bool, name: string, phone: string)

  /**
   * The order as handed to the panels: the row's fields under their
   * local names, except that the status keeps its database spelling and
   * the buyer's phone, stored under another name, comes across as absent.
   */
  datatype AdaptedTransaction = AdaptedTransaction(
    id: string,
    statusText: string,
    sellerId: string,
    buyerId: Option<string>,
    buyerPhone: Option<string>,
    productName: string,
    deliveryFee: int,
    deliveryLocation: string,
    deliveryArea: string,
    isPreOrder: bool,
    assignedAgentId: Option<string>,
    assignedAgentName: Option<string>,
    price: int)

  /** JavaScript's `a || ""` on an optional profile field. */
  function OrEmpty(s: Option<string>): string {
    if Types.Present(s) then s.value else ""
  }

  function ProfileField(profile: Option<Profile>, f: Profile -> Option<string>): string {
    if profile.Some? then OrEmpty(f(profile.value)) else ""
  }

  function SessionForActions(authUser: Option<UseAuth.AuthUser>): (s: Option<AdaptedSession>)
    ensures s.Some? <==> authUser.Some?
    ensures s.Some? ==> s.value.id == authUser.value.id && s.value.roleText == DbRoleName(authUser.value.primaryRole)
  {
    if authUser.None? then None
    else
      var u := authUser.value;
      Some(AdaptedSession(u.id, DbRoleName(u.primaryRole),
                          u.profile.Some? && u.profile.value.verificationStatus == Verified,
                          ProfileField(u.profile, (p: Profile) => p.name),
                          ProfileField(u.profile, (p: Profile) => p.phone)))
  }

  function TransactionForActions(tx: DbTransaction): (a: AdaptedTransaction)
    ensures a.statusText == DbStatusName(tx.status) && a.sellerId == tx.sellerId && a.buyerId == tx.buyerId
    ensures a.buyerPhone.None? && a.deliveryFee == 0 && a.price == tx.amount
  {
    AdaptedTransaction(
      id := tx.id,
      statusText := DbStatusName(tx.status),
      sellerId := tx.sellerId,
      buyerId := tx.buyerId,
      buyerPhone := None,
      productName := if Types.Present(tx.postTitle) then tx.postTitle.value else "Order",
      deliveryFee := 0,
      deliveryLocation := OrEmpty(tx.deliveryLocation),
      deliveryArea := OrEmpty(tx.deliveryAddress),
      isPreOrder := false,
      assignedAgentId := tx.assignedAgentId,
      assignedAgentName := tx.agentName,
      price := tx.amount)
  }

  /**
   * The action resolver read on spellings, as the record reaches it: the
   * status and the role are compared as text with the local spellings, so
   * a spelling it does not know yields no action and a role spelling it
   * does not know only ever waits.
   */
  function ResolveText(userId: string, userPhone: string, roleText: string, statusText: string,
                       sellerId: string, buyerId: Option<string>, buyerPhone: Option<string>,
                       assignedAgentId: Option<string>): (r: Option<Permissions.Action>)
    ensures r.Some? <==>
      statusText in {"pending_setup", "awaiting_payment", "escrow_held", "in_transit_to_hub", "at_prolist_hub",
                     "out_for_delivery", "delivered_awaiting_confirmation"}
    ensures r.Some? && !r.value.Waiting? ==> roleText in {"BUYER_SELLER", "ADMIN", "AGENT"}
  {
    var isSeller := userId == sellerId;
    var isBuyer := buyerId == Some(userId) || buyerPhone == Some(userPhone);
    var isAssignedAgent := assignedAgentId == Some(userId);
    if statusText == "completed" || statusText == "refunded" then None
    else if statusText == "pending_setup" || statusText == "awaiting_payment" then
      Some(Permissions.Waiting("Awaiting Payment", "buyer"))
    else if statusText == "escrow_held" then
      if roleText == "BUYER_SELLER" && isSeller then Some(Permissions.SellerShip("Mark In Transit"))
      else Some(Permissions.Waiting("Waiting for seller to ship", "seller"))
    else if statusText == "in_transit_to_hub" then
      if roleText == "ADMIN" then Some(Permissions.AdminReceive("Mark Received at Hub"))
      else Some(Permissions.Waiting("In transit to hub", "admin"))
    else if statusText == "at_prolist_hub" then
      if roleText == "ADMIN" then Some(Permissions.AdminAssign("Assign Delivery Agent"))
      else Some(Permissions.Waiting("At hub, awaiting assignment", "admin"))
    else if statusText == "out_for_delivery" then
      if roleText == "AGENT" && isAssignedAgent then Some(Permissions.AgentDeliver("Confirm Delivery"))
      else Some(Permissions.Waiting("Out for delivery", "agent"))
    else if statusText == "delivered_awaiting_confirmation" then
      if roleText == "BUYER_SELLER" && isBuyer then Some(Permissions.BuyerConfirm("Confirm Received"))
      else Some(Permissions.Waiting("Awaiting buyer confirmation", "buyer"))
    else None
  }

  /** On records in the local vocabulary, reading by spelling is exactly the typed resolver. */
  lemma ResolveTextOnLocalRecords(u: Types.User, tx: Types.Transaction)
    ensures ResolveText(u.id, u.phone, Types.RoleName(u.role), Types.StatusName(tx.status),
                        tx.sellerId, tx.buyerId, tx.buyerPhone, tx.assignedAgentId)
            == Permissions.GetAvailableAction(Some(u), tx)
  {
    match tx.status {
      case PendingSetup =>
      case AwaitingPayment =>
      case EscrowHeld =>
      case InTransitToHub =>
      case AtProlistHub =>
      case OutForDelivery =>
      case DeliveredAwaitingConfirmation =>
      case Completed =>
      case Refunded =>
    }
  }

  /** No database status is spelled like any local status. */
  lemma NoDbStatusIsLocal(d: DbStatus)
    ensures Types.ParseStatus(DbStatusName(d)).None?
  {
    match d {
      case PendingPayment =>
      case EscrowHeld =>
      case InTransitToHub =>
      case AtProlistHub =>
      case OutForDelivery =>
      case DeliveredAwaitingConfirmation =>
      case Completed =>
      case Refunded =>
      case Cancelled =>
    }
  }

  /** The action the panels compute from the records this page hands them. */
  function AdapterAction(authUser: Option<UseAuth.AuthUser>, tx: DbTransaction): Option<Permissions.Action> {
    var s := SessionForActions(authUser);
    var a := TransactionForActions(tx);
    if s.None? then None
    else ResolveText(s.value.id, s.value.phone, s.value.roleText, a.statusText,
                     a.sellerId, a.buyerId, a.buyerPhone, a.assignedAgentId)
  }

  /**
   * As written, every panel is offered no action at all, whoever is
   * signed in and whatever the order's status, so each handler refuses
   * with the permission message and no order moves from this page.
   */
  lemma AdapterOffersNothing(authUser: Option<UseAuth.AuthUser>, tx: DbTransaction)
    ensures AdapterAction(authUser, tx).None?
  {
    NoDbStatusIsLocal(tx.status);
  }

  /** The local role a database role stands for: buyers and sellers are one local role. */
  function LocalRole(r: DbRole): (l: Types.Role)
    ensures l == Types.BuyerSeller <==> r == Buyer || r == Seller
  {
    match r
    case Buyer => Types.BuyerSeller
    case Seller => Types.BuyerSeller
    case Agent => Types.Agent
    case Admin => Types.Admin
  }

  /** The local status a database status stands for; cancellation has no local counterpart. */
  function LocalStatus(d: DbStatus): (s: Option<Types.Status>)
    ensures s.None? <==> d == Cancelled
  {
    match d
    case PendingPayment => Some(Types.AwaitingPayment)
    case EscrowHeld => Some(Types.EscrowHeld)
    case InTransitToHub => Some(Types.InTransitToHub)
    case AtProlistHub => Some(Types.AtProlistHub)
    case OutForDelivery => Some(Types.OutForDelivery)
    case DeliveredAwaitingConfirmation => Some(Types.DeliveredAwaitingConfirmation)
    case Completed => Some(Types.Completed)
    case Refunded => Some(Types.Refunded)
    case Cancelled => None
  }

  /** The statuses keep their order in translation. */
  lemma LocalStatusKeepsOrder(i: nat, j: nat)
    requires i <= j < |ForwardOrder|
    ensures LocalStatus(ForwardOrder[i]).Some? && LocalStatus(ForwardOrder[j]).Some?
    ensures Permissions.OrderIndex(LocalStatus(ForwardOrder[i]).value)
            <= Permissions.OrderIndex(LocalStatus(ForwardOrder[j]).value)
  {
    assert forall k :: 0 <= k < |ForwardOrder| ==> Permissions.OrderIndex(LocalStatus(ForwardOrder[k]).value) == k + 1;
  }

  /** The signed-in user translated into the local vocabulary. */
  function IntendedSession(authUser: Option<UseAuth.AuthUser>): (u: Option<Types.User>)
    ensures u.Some? <==> authUser.Some?
    ensures u.Some? ==> u.value.id == authUser.value.id && u.value.role == LocalRole(authUser.value.primaryRole)
  {
    if authUser.None? then None
    else
      var a := authUser.value;
      Some(Types.User(
        id := a.id,
        phone := ProfileField(a.profile, (p: Profile) => p.phone),
        email := if a.email.Some? then a.email.value else "",
        name := ProfileField(a.profile, (p: Profile) => p.name),
        city := if a.profile.Some? then a.profile.value.city else None,
        pin := None,
        hasPin := None,
        isVerified := a.isVerified,
        verificationStatus := None,
        role := LocalRole(a.primaryRole),
        createdAt := 0))
  }

  /**
   * The order translated into the local vocabulary; a cancelled order has
   * no local counterpart. Timestamps and links, which no panel reads, are
   * left empty.
   */
  function IntendedTransaction(tx: DbTransaction): (r: Option<Types.Transaction>)
    ensures r.Some? <==> tx.status != Cancelled
    ensures r.Some? ==>
      Some(r.value.status) == LocalStatus(tx.status) && r.value.sellerId == tx.sellerId
      && r.value.buyerId == tx.buyerId && r.value.buyerPhone == tx.buyerPhone
      && r.value.assignedAgentId == tx.assignedAgentId && r.value.price == tx.amount
  {
    match LocalStatus(tx.status)
    case None => None
    case Some(status) =>
      Some(Types.Transaction(
        id := tx.id,
        postId := tx.postId,
        productName := if Types.Present(tx.postTitle) then tx.postTitle.value else "Order",
        description := None,
        price := tx.amount,
        deliveryFee := 0,
        sellerName := "",
        sellerPhone := "",
        sellerId := tx.sellerId,
        buyerId := tx.buyerId,
        buyerName := None,
        buyerPhone := tx.buyerPhone,
        buyerEmail := None,
        buyerCity := None,
        deliveryLocation := OrEmpty(tx.deliveryLocation),
        deliveryArea := OrEmpty(tx.deliveryAddress),
        delivery := None,
        logistics := None,
        assignedAgentId := tx.assignedAgentId,
        assignedAgentName := tx.agentName,
        status := status,
        isPreOrder := false,
        expectedArrival := None,
        preOrderNote := None,
        createdAt := 0,
        updatedAt := 0,
        paymentLink := "",
        confirmationCode := if tx.otpCode.Some? then tx.otpCode.value else "",
        buyerTrackingLink := None,
        invoice := None,
        deliveryOTP := tx.otpCode))
  }

  /** The action the panels would compute from translated records. */
  function IntendedAction(authUser: Option<UseAuth.AuthUser>, tx: DbTransaction): Option<Permissions.Action> {
    var t := IntendedTransaction(tx);
    if t.None? then None else Permissions.GetAvailableAction(IntendedSession(authUser), t.value)
  }

  /**
   * With translated records, each panel the page shows offers its step:
   * the seller ships a paid order, the administrator receives and assigns
   * it, and the assigned agent delivers it.
   */
  lemma IntendedAdapterOffersTheStep(authUser: Option<UseAuth.AuthUser>, tx: DbTransaction)
    ensures PanelsFor(authUser, tx).seller && tx.status == EscrowHeld ==>
      IntendedAction(authUser, tx) == Some(Permissions.SellerShip("Mark In Transit"))
    ensures PanelsFor(authUser, tx).admin && tx.status == InTransitToHub ==>
      IntendedAction(authUser, tx) == Some(Permissions.AdminReceive("Mark Received at Hub"))
    ensures PanelsFor(authUser, tx).admin && tx.status == AtProlistHub ==>
      IntendedAction(authUser, tx) == Some(Permissions.AdminAssign("Assign Delivery Agent"))
    ensures PanelsFor(authUser, tx).agent && tx.status == OutForDelivery ==>
      IntendedAction(authUser, tx) == Some(Permissions.AgentDeliver("Confirm Delivery"))
  {
  }

  /** With translated records, the offered step is exactly what the transition guard allows. */
  lemma IntendedAdapterAgreesWithGuard(authUser: UseAuth.AuthUser, tx: DbTransaction, target: Types.Status)
    requires tx.status != Cancelled
    ensures var u := IntendedSession(Some(authUser));
      var t := IntendedTransaction(tx).value;
      var a := IntendedAction(Some(authUser), tx);
      Permissions.CanTransitionTo(u, t, target) <==> a.Some? && Permissions.ActionTarget(a.value) == Some(target)
  {
    Permissions.ResolverMatchesGuard(IntendedSession(Some(authUser)).value, IntendedTransaction(tx).value, target);
  }
}
