/**
 * The listing page, where a buyer fills the delivery form and requests a
 * payment: the form's validation, the transaction it creates, and the
 * other listings of the same seller.
 */
module ProductPage {
  import opened Wrappers
  import opened Types
  import opened Feedback
  import Text
  import Seqs
  import Storage
  import Permissions
  import DeliveryLocations

  /** The free-text fields of the request form. */
  datatype Form = Form(buyerName: string, buyerPhone: string, buyerEmail: string, deliveryNotes: string)

  datatype Field = BuyerName | BuyerPhone | BuyerEmail | DeliveryNotes

  /** The form starts from the signed-in user's details, if any. */
  function InitialForm(session: Option<User>): (f: Form)
    ensures f.deliveryNotes == ""
    ensures session.None? ==> f == Form("", "", "", "")
    ensures session.Some? ==>
      f.buyerName == session.value.name && f.buyerPhone == session.value.phone && f.buyerEmail == session.value.email
  {
    if session.Some? then Form(session.value.name, session.value.phone, session.value.email, "")
    else Form("", "", "", "")
  }

  /** The form field `field` names. */
  function FieldOf(f: Form, field: Field): string {
    match field
    case BuyerName => f.buyerName
    case BuyerPhone => f.buyerPhone
    case BuyerEmail => f.buyerEmail
    case DeliveryNotes => f.deliveryNotes
  }

  /** The form with one field edited: that field reads back the new value and every other field is kept. */
  function WithField(f: Form, field: Field, value: string): (r: Form)
    ensures FieldOf(r, field) == value
    ensures forall g: Field :: g != field ==> FieldOf(r, g) == FieldOf(f, g)
  {
    match field
    case BuyerName => f.(buyerName := value)
    case BuyerPhone => f.(buyerPhone := value)
    case BuyerEmail => f.(buyerEmail := value)
    case DeliveryNotes => f.(deliveryNotes := value)
  }

  /** An empty string after trimming stands for "not given". */
  function Blank(s: string): Option<string> {
    if Text.Trim(s) == "" then None else Some(Text.Trim(s))
  }

  /** The first thing missing from a request, checked as name, phone, city, then delivery area. */
  function RequestError(f: Form, city: string, locationId: string, location: Option<DeliveryLocations.DeliveryLocation>)
    : (err: Option<string>)
    ensures err.None? <==>
      Text.Trim(f.buyerName) != "" && Text.Trim(f.buyerPhone) != "" && city != "" && locationId != "" && location.Some?
    ensures Text.Trim(f.buyerName) == "" ==> err == Some("Please enter your name")
    ensures Text.Trim(f.buyerName) != "" && Text.Trim(f.buyerPhone) == "" ==> err == Some("Please enter your phone number")
    ensures Text.Trim(f.buyerName) != "" && Text.Trim(f.buyerPhone) != "" && city == "" ==>
      err == Some("Please select your city")
    ensures Text.Trim(f.buyerName) != "" && Text.Trim(f.buyerPhone) != "" && city != ""
            && (locationId == "" || location.None?)
      ==> err == Some("Please select a delivery area")
  {
    if Text.Trim(f.buyerName) == "" then Some("Please enter your name")
    else if Text.Trim(f.buyerPhone) == "" then Some("Please enter your phone number")
    else if city == "" then Some("Please select your city")
    else if locationId == "" || location.None? then Some("Please select a delivery area")
    else None
  }

  /**
   * The transaction a request creates. `id`, `code` and `now` stand for
   * the random id, the random confirmation code and the clock; `origin`
   * for the site's address.
   */
  function NewTransaction(listing: Post, session: Option<User>, f: Form, city: string,
                          location: DeliveryLocations.DeliveryLocation,
                          id: string, code: string, origin: string, now: Time): (t: Transaction)
    ensures t.id == id && t.postId == Some(listing.id) && t.sellerId == listing.sellerId
    ensures t.status == AwaitingPayment && t.price == listing.price && t.deliveryFee == 0
    ensures t.assignedAgentId.None? && t.invoice.None? && t.createdAt == t.updatedAt == now
    ensures t.deliveryLocation == city && t.deliveryArea == location.area && t.confirmationCode == code
  {
    Transaction(
      id := id,
      postId := Some(listing.id),
      productName := listing.title,
      description := Some(listing.description),
      price := listing.price,
      deliveryFee := 0,
      sellerName := listing.sellerName,
      sellerPhone := listing.sellerPhone,
      sellerId := listing.sellerId,
      buyerId := if session.Some? then Some(session.value.id) else None,
      buyerName := Some(Text.Trim(f.buyerName)),
      buyerPhone := Some(Text.Trim(f.buyerPhone)),
      buyerEmail := Blank(f.buyerEmail),
      buyerCity := Some(city),
      deliveryLocation := city,
      deliveryArea := location.area,
      delivery := Some(DeliveryDetails(city, location.area, Blank(f.deliveryNotes))),
      logistics := Some(LogisticsDetails(
        if |location.agencies| > 0 then Some(location.agencies[0]) else None,
        Some(city),
        Some(location.instructions))),
      assignedAgentId := None,
      assignedAgentName := None,
      status := AwaitingPayment,
      isPreOrder := listing.isPreOrder == Some(true),
      expectedArrival := listing.expectedArrival,
      preOrderNote := listing.preOrderNote,
      createdAt := now,
      updatedAt := now,
      paymentLink := origin + "/pay/" + id,
      confirmationCode := code,
      buyerTrackingLink := Some(origin + "/track/" + id),
      invoice := None,
      deliveryOTP := None)
  }

  /**
   * A fresh request waits for the buyer's payment: it is past the set-up
   * step, nobody is offered any action but a wait for the buyer, and the
   * guard lets nobody move it, so it stays put until it is paid.
   */
  lemma NewTransactionAwaitsPayment(listing: Post, session: Option<User>, f: Form, city: string,
                                    location: DeliveryLocations.DeliveryLocation,
                                    id: string, code: string, origin: string, now: Time, u: User, target: Status)
    ensures var t := NewTransaction(listing, session, f, city, location, id, code, origin, now);
      t.status == AwaitingPayment && Permissions.OrderIndex(t.status) == 1
      && t.price == listing.price && t.deliveryFee == 0 && t.sellerId == listing.sellerId
      && Permissions.GetAvailableAction(Some(u), t) == Some(Permissions.Waiting("Awaiting Payment", "buyer"))
      && !Permissions.CanTransitionTo(Some(u), t, target)
  {
    var t := NewTransaction(listing, session, f, city, location, id, code, origin, now);
    assert t.status == AwaitingPayment;
    assert Permissions.GetAvailableAction(Some(u), t) == Some(Permissions.Waiting("Awaiting Payment", "buyer"));
    Permissions.WaitingMeansNoTransition(u, t, target);
  }

  /** The buyer's own details land on the record trimmed, and an empty e-mail is left out. */
  lemma NewTransactionBuyerDetails(listing: Post, session: Option<User>, f: Form, city: string,
                                   location: DeliveryLocations.DeliveryLocation,
                                   id: string, code: string, origin: string, now: Time)
    requires Text.Trim(f.buyerName) != "" && Text.Trim(f.buyerPhone) != ""
    ensures var t := NewTransaction(listing, session, f, city, location, id, code, origin, now);
      Present(t.buyerName) && Present(t.buyerPhone)
      && t.buyerName == Some(Text.Trim(f.buyerName)) && t.buyerPhone == Some(Text.Trim(f.buyerPhone))
      && (t.buyerEmail.Some? ==> t.buyerEmail.value == Text.Trim(f.buyerEmail))
      && (t.buyerId.Some? <==> session.Some?)
      && (t.buyerEmail.None? <==> forall i :: 0 <= i < |f.buyerEmail| ==> Text.IsSpace(f.buyerEmail[i]))
  {
  }

  /** The other listings of the seller: every one but the listing shown. */
  function MoreFromSeller(sellerPosts: seq<Post>, listingId: string): (r: seq<Post>)
    ensures forall p :: p in r <==> p in sellerPosts && p.id != listingId
  {
    Seqs.Filter(sellerPosts, (p: Post) => p.id != listingId)
  }

  class ProductPage {
    const session: Option<User>
    var listing: Option<Post>
    var sellerPosts: seq<Post>
    var form: Form
    var selectedCity: string
    var selectedLocationId: string
    var selectedLocation: Option<DeliveryLocations.DeliveryLocation>

    constructor(session: Option<User>)
      ensures this.session == session && listing.None? && sellerPosts == []
      ensures form == InitialForm(session)
      ensures selectedCity == "" && selectedLocationId == "" && selectedLocation.None?
    {
      this.session := session;
      listing := None;
      sellerPosts := [];
      form := InitialForm(session);
      selectedCity := "";
      selectedLocationId := "";
      selectedLocation := None;
    }

    /** Load the listing and the seller's other listings; leave the page if there is none. */
    method Load(store: Storage.LocalStore, listingId: string) returns (toast: Option<Toast>, leave: bool)
      modifies this`listing, this`sellerPosts
      ensures listingId == "" ==> leave && toast.None? && listing == old(listing)
      ensures listingId != "" && store.GetPost(listingId).None? ==>
        leave && toast == Some(Failure("Product not found")) && listing == old(listing)
      ensures listingId != "" && store.GetPost(listingId).Some? ==>
        !leave && toast.None? && listing == store.GetPost(listingId)
        && sellerPosts == MoreFromSeller(store.GetSellerPosts(listing.value.sellerId), listing.value.id)
        && forall p :: p in sellerPosts ==> p in store.posts && p.sellerId == listing.value.sellerId
                                            && p.id != listing.value.id
    {
      if listingId == "" {
        return None, true;
      }
      var l := store.GetPost(listingId);
      if l.None? {
        return Some(Failure("Product not found")), true;
      }
      listing := l;
      sellerPosts := MoreFromSeller(store.GetSellerPosts(l.value.sellerId), l.value.id);
      toast, leave := None, false;
    }

    method HandleChange(field: Field, value: string)
      modifies this`form
      ensures form == WithField(old(form), field, value)
    {
      form := WithField(form, field, value);
    }

    /** Picking a city clears the area picked before, and with it the looked-up area. */
    method SelectCity(city: string)
      modifies this`selectedCity, this`selectedLocationId, this`selectedLocation
      ensures selectedCity == city && selectedLocationId == "" && selectedLocation.None?
    {
      selectedCity := city;
      selectedLocationId := "";
      selectedLocation := None;
    }

    /** Picking an area; the page then looks the area up among the configured ones. */
    method SelectLocation(id: string)
      modifies this`selectedLocationId, this`selectedLocation
      ensures selectedLocationId == id
      ensures selectedLocation == if id == "" then None else DeliveryLocations.GetLocationById(id)
    {
      selectedLocationId := id;
      selectedLocation := if id == "" then None else DeliveryLocations.GetLocationById(id);
    }

    /**
     * Request the payment: nothing without a listing; the first missing
     * detail otherwise; else the new transaction is saved first in the
     * list, its id is remembered for the buyer afterwards, and the buyer is
     * sent to its payment page. The notification list is not in its frame:
     * creating a request notifies nobody.
     */
    method HandleRequestPayment(store: Storage.LocalStore, id: string, code: string, origin: string, now: Time)
      returns (toast: Option<Toast>, navigateTo: Option<string>)
      modifies store`transactions, store`buyerTransactionIds
      ensures listing.None? ==>
        toast.None? && navigateTo.None?
        && store.transactions == old(store.transactions) && store.buyerTransactionIds == old(store.buyerTransactionIds)
      ensures var err := RequestError(form, selectedCity, selectedLocationId, selectedLocation);
        listing.Some? && err.Some? ==>
          toast == Some(Failure(err.value)) && navigateTo.None?
          && store.transactions == old(store.transactions) && store.buyerTransactionIds == old(store.buyerTransactionIds)
      ensures var err := RequestError(form, selectedCity, selectedLocationId, selectedLocation);
        listing.Some? && err.None? ==>
          toast == Some(Success("Payment request created!")) && navigateTo == Some("/pay/" + id)
          && store.transactions ==
             Storage.Upsert(old(store.transactions),
               NewTransaction(listing.value, session, form, selectedCity, selectedLocation.value, id, code, origin, now),
               Storage.TxKey, true)
          && store.buyerTransactionIds == Storage.RememberBuyerTransaction(old(store.buyerTransactionIds), id)
    {
      if listing.None? {
        return None, None;
      }
      var err := RequestError(form, selectedCity, selectedLocationId, selectedLocation);
      if err.Some? {
        return Some(Failure(err.value)), None;
      }
      var t := NewTransaction(listing.value, session, form, selectedCity, selectedLocation.value, id, code, origin, now);
      store.SaveTransaction(t);
      store.SaveBuyerTransaction(id);
      toast, navigateTo := Some(Success("Payment request created!")), Some("/pay/" + id);
    }
  }
}
