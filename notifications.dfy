/**
 * In-app notifications: the status-change rules table and the
 * browser-stored notification list, with duplicate suppression, a
 * per-user cap and read-marking.
 */
module Notifications {
  import opened Wrappers
  import opened Types
  import Seqs

  /** At most this many notifications are kept per user. */
  const MaxNotifications: nat := 10

  /** A second save with the same user and message within this many milliseconds is a duplicate. */
  const DuplicateWindow: int := 60000

  /** The recipient id that stands for "every admin". */
  const AdminTarget: string := "__ADMIN__"

  datatype NotificationType = SellerType | BuyerType | AdminType | AgentType

  datatype Notification = Notification(
    id: string,
    message: string,
    createdAt: Time,
    read: bool,
    userId: string,
    transactionId: Option<string>,
    kind: NotificationType)

  /** What a caller hands to the store: a notification without id, time and read flag. */
  datatype Draft = Draft(message: string, kind: NotificationType, userId: string, transactionId: Option<string>)

  function UserIs(u: string): Notification -> bool {
    (n: Notification) => n.userId == u
  }

  function UserIsNot(u: string): Notification -> bool {
    (n: Notification) => n.userId != u
  }

  /** The notifications addressed to `u`, in stored order. */
  function ForUser(s: seq<Notification>, u: string): seq<Notification> {
    Seqs.Filter(s, UserIs(u))
  }

  /** The notifications addressed to anyone but `u`, in stored order. */
  function OthersOf(s: seq<Notification>, u: string): seq<Notification> {
    Seqs.Filter(s, UserIsNot(u))
  }

  /** A notification for the same user with the same message was created within the last minute. */
  predicate IsDuplicate(s: seq<Notification>, d: Draft, now: Time)
    ensures IsDuplicate(s, d, now) ==> FirstMatch(s, d).Some?
  {
    exists n :: n in s && n.userId == d.userId && n.message == d.message && n.createdAt > now - DuplicateWindow
  }

  /** The first stored notification for the same user with the same message, however old. */
  function FirstMatch(s: seq<Notification>, d: Draft): (r: Option<Notification>)
    ensures r.Some? ==> r.value in s && r.value.userId == d.userId && r.value.message == d.message
    ensures r.Some? ==>
      exists i :: 0 <= i < |s| && s[i] == r.value
        && forall j :: 0 <= j < i ==> !(s[j].userId == d.userId && s[j].message == d.message)
    ensures r.None? <==> forall n :: n in s ==> !(n.userId == d.userId && n.message == d.message)
  {
    Seqs.Find(s, (n: Notification) => n.userId == d.userId && n.message == d.message)
  }

  /** The record a non-duplicate save creates. */
  function Fresh(d: Draft, id: string, now: Time): Notification {
    Notification(id, d.message, now, false, d.userId, d.transactionId, d.kind)
  }

  /** The stored list after `n` is put first and its user's list is cut to the newest ten. */
  function Inserted(s: seq<Notification>, n: Notification): (r: seq<Notification>)
    ensures n in r
    ensures forall x :: x in r ==> x == n || x in s
    ensures forall x :: x in s && x.userId != n.userId ==> x in r
  {
    var mine := ForUser([n] + s, n.userId);
    assert mine[0] == n by { ForUserCons(n, s, n.userId); }
    Seqs.Take(mine, MaxNotifications) + OthersOf([n] + s, n.userId)
  }

  /** The stored list after saving `d` at `now` with the fresh id `id`. */
  function AfterSave(s: seq<Notification>, d: Draft, now: Time, id: string): (r: seq<Notification>)
    ensures forall x :: x in r ==> x in s || x == Fresh(d, id, now)
    ensures forall x :: x in s && x.userId != d.userId ==> x in r
    ensures !IsDuplicate(s, d, now) ==> Fresh(d, id, now) in r
  {
    if IsDuplicate(s, d, now) then s else Inserted(s, Fresh(d, id, now))
  }

  lemma ForUserCons(n: Notification, s: seq<Notification>, v: string)
    ensures ForUser([n] + s, v) == if n.userId == v then [n] + ForUser(s, v) else ForUser(s, v)
  {
    assert ([n] + s)[1..] == s;
  }

  lemma TakeOfUser(s: seq<Notification>, u: string, k: nat)
    ensures forall x :: x in Seqs.Take(ForUser(s, u), k) ==> x.userId == u
  {
    var t := Seqs.Take(ForUser(s, u), k);
    forall x | x in t
      ensures x.userId == u
    {
      var i :| 0 <= i < |t| && t[i] == x;
      assert ForUser(s, u)[i] == x;
      assert x in ForUser(s, u);
      assert UserIs(u)(x);
    }
  }

  /**
   * After an insert, the user's list is the new record followed by their
   * previous records, cut to the newest ten.
   */
  lemma InsertedForUser(s: seq<Notification>, n: Notification)
    ensures ForUser(Inserted(s, n), n.userId) == Seqs.Take([n] + ForUser(s, n.userId), MaxNotifications)
    ensures |ForUser(Inserted(s, n), n.userId)| <= MaxNotifications
  {
    var u := n.userId;
    var kept := Seqs.Take(ForUser([n] + s, u), MaxNotifications);
    var rest := OthersOf([n] + s, u);
    Seqs.FilterConcat(kept, rest, UserIs(u));
    TakeOfUser([n] + s, u, MaxNotifications);
    Seqs.FilterKeepsAll(kept, UserIs(u));
    Seqs.FilterDropsAll(rest, UserIs(u));
    ForUserCons(n, s, u);
  }

  /** An insert leaves every other user's list, and its order, exactly as it was. */
  lemma InsertedLeavesOthers(s: seq<Notification>, n: Notification, v: string)
    requires v != n.userId
    ensures ForUser(Inserted(s, n), v) == ForUser(s, v)
  {
    var u := n.userId;
    var kept := Seqs.Take(ForUser([n] + s, u), MaxNotifications);
    var rest := OthersOf([n] + s, u);
    Seqs.FilterConcat(kept, rest, UserIs(v));
    TakeOfUser([n] + s, u, MaxNotifications);
    Seqs.FilterDropsAll(kept, UserIs(v));
    Seqs.FilterTwice([n] + s, UserIsNot(u), UserIs(v), UserIs(v));
    ForUserCons(n, s, v);
  }

  /** A duplicate save changes nothing; any other save puts a fresh unread record first. */
  lemma SaveShape(s: seq<Notification>, d: Draft, now: Time, id: string)
    ensures IsDuplicate(s, d, now) ==> AfterSave(s, d, now, id) == s
    ensures !IsDuplicate(s, d, now) ==>
      AfterSave(s, d, now, id) != [] && AfterSave(s, d, now, id)[0] == Fresh(d, id, now)
      && !AfterSave(s, d, now, id)[0].read
  {
    if !IsDuplicate(s, d, now) {
      ForUserCons(Fresh(d, id, now), s, d.userId);
    }
  }

  /** Every save leaves its user with at most ten notifications, the newest first. */
  lemma SaveCapsUser(s: seq<Notification>, d: Draft, now: Time, id: string)
    requires |ForUser(s, d.userId)| <= MaxNotifications
    ensures |ForUser(AfterSave(s, d, now, id), d.userId)| <= MaxNotifications
    ensures !IsDuplicate(s, d, now) ==>
      ForUser(AfterSave(s, d, now, id), d.userId) == Seqs.Take([Fresh(d, id, now)] + ForUser(s, d.userId), MaxNotifications)
  {
    if !IsDuplicate(s, d, now) {
      InsertedForUser(s, Fresh(d, id, now));
    }
  }

  /** No save changes the notifications of a user other than the recipient. */
  lemma SaveLeavesOthers(s: seq<Notification>, d: Draft, now: Time, id: string, v: string)
    requires v != d.userId
    ensures ForUser(AfterSave(s, d, now, id), v) == ForUser(s, v)
  {
    if !IsDuplicate(s, d, now) {
      InsertedLeavesOthers(s, Fresh(d, id, now), v);
    }
  }

  /** After any save, the recipient holds a notification carrying that message. */
  lemma SaveDelivers(s: seq<Notification>, d: Draft, now: Time, id: string)
    ensures exists n :: n in AfterSave(s, d, now, id) && n.userId == d.userId && n.message == d.message
  {
    if !IsDuplicate(s, d, now) {
      SaveShape(s, d, now, id);
      assert AfterSave(s, d, now, id)[0] in AfterSave(s, d, now, id);
    }
  }

  /** Saving the same draft again within a minute of a fresh save leaves the store as the first save left it. */
  lemma RepeatWithinWindowIsDuplicate(s: seq<Notification>, d: Draft, t1: Time, t2: Time, id1: string, id2: string)
    requires !IsDuplicate(s, d, t1)
    requires t1 <= t2 < t1 + DuplicateWindow
    ensures IsDuplicate(AfterSave(s, d, t1, id1), d, t2)
    ensures AfterSave(AfterSave(s, d, t1, id1), d, t2, id2) == AfterSave(s, d, t1, id1)
  {
    SaveShape(s, d, t1, id1);
    var after := AfterSave(s, d, t1, id1);
    assert after[0] in after;
  }

  /** Mark as read every notification that satisfies `p`; nothing else changes. */
  function MarkWhere(s: seq<Notification>, p: Notification -> bool): (r: seq<Notification>)
    ensures |r| == |s|
    ensures forall i :: 0 <= i < |s| ==> r[i].(read := s[i].read) == s[i]
    ensures forall i :: 0 <= i < |s| ==> r[i].read == (s[i].read || p(s[i]))
  {
    seq(|s|, i requires 0 <= i < |s| => if p(s[i]) then s[i].(read := true) else s[i])
  }

  /** Marking twice by a rule that does not look at the read flag is marking once. */
  lemma MarkWhereIdempotent(s: seq<Notification>, p: Notification -> bool)
    requires forall n: Notification :: p(n.(read := true)) == p(n)
    ensures MarkWhere(MarkWhere(s, p), p) == MarkWhere(s, p)
  {
    var once := MarkWhere(s, p);
    var twice := MarkWhere(once, p);
    forall i | 0 <= i < |s|
      ensures twice[i] == once[i]
    {
      if p(s[i]) {
        assert once[i] == s[i].(read := true);
      }
    }
  }

  /** The rule of `markAsRead`: listed ids. */
  function IdIn(ids: seq<string>): Notification -> bool {
    (n: Notification) => n.id in ids
  }

  /** The rule of `markAllAsRead`: the user's notifications. */
  function OfUser(u: string): Notification -> bool {
    (n: Notification) => n.userId == u
  }

  /** The rule of `markTypeAsRead`: the user's notifications of the listed types. */
  function OfUserAndType(u: string, types: seq<NotificationType>): Notification -> bool {
    (n: Notification) => n.userId == u && n.kind in types
  }

  /** None of the three read-marking rules looks at the read flag, so each is idempotent. */
  lemma MarkingRulesIdempotent(s: seq<Notification>, ids: seq<string>, u: string, types: seq<NotificationType>)
    ensures MarkWhere(MarkWhere(s, IdIn(ids)), IdIn(ids)) == MarkWhere(s, IdIn(ids))
    ensures MarkWhere(MarkWhere(s, OfUser(u)), OfUser(u)) == MarkWhere(s, OfUser(u))
    ensures MarkWhere(MarkWhere(s, OfUserAndType(u, types)), OfUserAndType(u, types)) == MarkWhere(s, OfUserAndType(u, types))
  {
    MarkWhereIdempotent(s, IdIn(ids));
    MarkWhereIdempotent(s, OfUser(u));
    MarkWhereIdempotent(s, OfUserAndType(u, types));
  }

  function NotRead(): Notification -> bool {
    (n: Notification) => !n.read
  }

  /** How many of `s` are unread notifications for `u`, counted one by one. */
  function UnreadTally(s: seq<Notification>, u: string): nat
    decreases |s|
  {
    if s == [] then 0
    else (if s[0].userId == u && !s[0].read then 1 else 0) + UnreadTally(s[1..], u)
  }

  lemma {:induction false} UnreadFilterIsTally(s: seq<Notification>, u: string)
    ensures |Seqs.Filter(ForUser(s, u), NotRead())| == UnreadTally(s, u)
    decreases |s|
  {
    if s != [] {
      UnreadFilterIsTally(s[1..], u);
      ForUserCons(s[0], s[1..], u);
      assert [s[0]] + s[1..] == s;
      if s[0].userId == u {
        var t := [s[0]] + ForUser(s[1..], u);
        assert t[1..] == ForUser(s[1..], u);
      }
    }
  }

  /** A message and its recipient, as the rules table produces them. */
  datatype StatusNote = StatusNote(message: string, kind: NotificationType, targetUserId: string)

  predicate HasKind(r: seq<StatusNote>, k: NotificationType) {
    exists i :: 0 <= i < |r| && r[i].kind == k
  }

  /** The seller is told when the seller id is set and the seller is not the one acting. */
  predicate SellerToBeTold(tx: Transaction, currentUserId: string) {
    tx.sellerId != "" && tx.sellerId != currentUserId
  }

  /** The buyer is told when the buyer id is set and the buyer is not the one acting. */
  predicate BuyerToBeTold(tx: Transaction, currentUserId: string) {
    Present(tx.buyerId) && tx.buyerId.value != currentUserId
  }

  /**
   * Every note goes to the party its kind names (the seller, the buyer,
   * all administrators, the assigned agent), only when that party is to
   * be told, and no kind occurs twice.
   */
  predicate WellAddressed(r: seq<StatusNote>, tx: Transaction, currentUserId: string) {
    (forall i, j :: 0 <= i < j < |r| ==> r[i].kind != r[j].kind)
    && (forall i :: 0 <= i < |r| && r[i].kind == SellerType ==>
          r[i].targetUserId == tx.sellerId && SellerToBeTold(tx, currentUserId))
    && (forall i :: 0 <= i < |r| && r[i].kind == BuyerType ==>
          tx.buyerId == Some(r[i].targetUserId) && BuyerToBeTold(tx, currentUserId))
    && (forall i :: 0 <= i < |r| && r[i].kind == AdminType ==> r[i].targetUserId == AdminTarget)
    && (forall i :: 0 <= i < |r| && r[i].kind == AgentType ==>
          tx.assignedAgentId == Some(r[i].targetUserId) && r[i].targetUserId != "")
  }

  /** The seller's line for a status, when the seller is to be told. */
  function SellerNote(tx: Transaction, currentUserId: string, m: string): (r: seq<StatusNote>)
    ensures SellerToBeTold(tx, currentUserId) ==> r == [StatusNote(m, SellerType, tx.sellerId)]
    ensures !SellerToBeTold(tx, currentUserId) ==> r == []
    ensures WellAddressed(r, tx, currentUserId)
    ensures HasKind(r, SellerType) <==> SellerToBeTold(tx, currentUserId)
    ensures !HasKind(r, BuyerType) && !HasKind(r, AdminType) && !HasKind(r, AgentType)
  {
    var r := if SellerToBeTold(tx, currentUserId) then [StatusNote(m, SellerType, tx.sellerId)] else [];
    assert r != [] ==> r[0].kind == SellerType;
    r
  }

  /** The buyer's line for a status, when the buyer is to be told. */
  function BuyerNote(tx: Transaction, currentUserId: string, m: string): (r: seq<StatusNote>)
    ensures BuyerToBeTold(tx, currentUserId) ==> r == [StatusNote(m, BuyerType, tx.buyerId.value)]
    ensures !BuyerToBeTold(tx, currentUserId) ==> r == []
    ensures WellAddressed(r, tx, currentUserId)
    ensures HasKind(r, BuyerType) <==> BuyerToBeTold(tx, currentUserId)
    ensures !HasKind(r, SellerType) && !HasKind(r, AdminType) && !HasKind(r, AgentType)
  {
    var r := if BuyerToBeTold(tx, currentUserId) then [StatusNote(m, BuyerType, tx.buyerId.value)] else [];
    assert r != [] ==> r[0].kind == BuyerType;
    r
  }

  /** The administrators' line for a parcel on its way to the hub. */
  function AdminNote(tx: Transaction, currentUserId: string): (r: seq<StatusNote>)
    ensures WellAddressed(r, tx, currentUserId)
    ensures HasKind(r, AdminType)
    ensures !HasKind(r, SellerType) && !HasKind(r, BuyerType) && !HasKind(r, AgentType)
  {
    var r := [StatusNote("New item in transit \U{2014} update when received at hub.", AdminType, AdminTarget)];
    assert r[0].kind == AdminType;
    r
  }

  /** The buyer's line and the assigned agent's line for a parcel out for delivery. */
  function OutForDeliveryNotes(tx: Transaction, currentUserId: string): (r: seq<StatusNote>)
    ensures WellAddressed(r, tx, currentUserId)
    ensures HasKind(r, BuyerType) <==> BuyerToBeTold(tx, currentUserId)
    ensures HasKind(r, AgentType) <==> Present(tx.assignedAgentId)
    ensures !HasKind(r, SellerType) && !HasKind(r, AdminType)
  {
    var b := BuyerNote(tx, currentUserId, "Your item is out for delivery.");
    if !Present(tx.assignedAgentId) then b
    else
      var a := StatusNote("New delivery assigned to you.", AgentType, tx.assignedAgentId.value);
      if b == [] then
        assert [a][0].kind == AgentType;
        [a]
      else
        var r := [b[0], a];
        assert b == [b[0]] && r[0].kind == BuyerType && r[1].kind == AgentType;
        assert b + [a] == r;
        r
  }

  /** No note at all. */
  function NoNotes(tx: Transaction, currentUserId: string): (r: seq<StatusNote>)
    ensures WellAddressed(r, tx, currentUserId)
    ensures !HasKind(r, SellerType) && !HasKind(r, BuyerType) && !HasKind(r, AdminType) && !HasKind(r, AgentType)
  {
    []
  }

  /**
   * The rules table: who is told what when `tx` moves to `newStatus` by
   * the hand of `currentUserId`. Every note goes to the party its kind
   * names, each kind occurs at most once, and each kind occurs exactly in
   * the situations listed.
   */
  function GetStatusNotifications(tx: Transaction, newStatus: Status, currentUserId: string): (r: seq<StatusNote>)
    ensures WellAddressed(r, tx, currentUserId)
    ensures HasKind(r, SellerType) <==>
      SellerToBeTold(tx, currentUserId) && (newStatus == EscrowHeld || newStatus == AtProlistHub || newStatus == Completed)
    ensures HasKind(r, BuyerType) <==>
      BuyerToBeTold(tx, currentUserId) && (newStatus == OutForDelivery || newStatus == DeliveredAwaitingConfirmation)
    ensures HasKind(r, AdminType) <==> newStatus == InTransitToHub
    ensures HasKind(r, AgentType) <==> Present(tx.assignedAgentId) && newStatus == OutForDelivery
  {
    match newStatus
    case EscrowHeld => SellerNote(tx, currentUserId, "Secure payment received \U{2014} prepare for delivery.")
    case AtProlistHub => SellerNote(tx, currentUserId, "Item received at ProList Hub.")
    case Completed => SellerNote(tx, currentUserId, "Buyer confirmed delivery \U{2014} payment released securely.")
    case InTransitToHub => AdminNote(tx, currentUserId)
    case OutForDelivery => OutForDeliveryNotes(tx, currentUserId)
    case DeliveredAwaitingConfirmation => BuyerNote(tx, currentUserId, "Item delivered \U{2014} please confirm you received it.")
    case PendingSetup => NoNotes(tx, currentUserId)
    case AwaitingPayment => NoNotes(tx, currentUserId)
    case Refunded => NoNotes(tx, currentUserId)
  }

  /** The drafts the status-change dispatch saves, one per note, all tagged with the transaction. */
  function DraftsOf(notes: seq<StatusNote>, txId: string): (ds: seq<Draft>)
    ensures |ds| == |notes|
    ensures forall i :: 0 <= i < |notes| ==>
      ds[i] == Draft(notes[i].message, notes[i].kind, notes[i].targetUserId, Some(txId))
    ensures forall d :: d in ds ==> d.transactionId == Some(txId)
    ensures forall d :: d in ds ==> StatusNote(d.message, d.kind, d.userId) in notes
  {
    seq(|notes|, i requires 0 <= i < |notes| =>
      Draft(notes[i].message, notes[i].kind, notes[i].targetUserId, Some(txId)))
  }

  /** The stored list after saving `ds` one after another, the `i`-th with id `idOf(i)`. */
  function SaveAll(s: seq<Notification>, ds: seq<Draft>, now: Time, idOf: nat -> string): (r: seq<Notification>)
    ensures forall x :: x in r ==> x in s || exists i :: 0 <= i < |ds| && x == Fresh(ds[i], idOf(i), now)
    ensures forall x :: x in s && (forall i :: 0 <= i < |ds| ==> ds[i].userId != x.userId) ==> x in r
    decreases |ds|
  {
    if ds == [] then s
    else AfterSave(SaveAll(s, ds[..|ds| - 1], now, idOf), ds[|ds| - 1], now, idOf(|ds| - 1))
  }

  /** Saving a batch never changes the list of a user none of the drafts is addressed to. */
  lemma {:induction false} SaveAllLeavesOthers(s: seq<Notification>, ds: seq<Draft>, now: Time, idOf: nat -> string, v: string)
    requires forall i :: 0 <= i < |ds| ==> ds[i].userId != v
    ensures ForUser(SaveAll(s, ds, now, idOf), v) == ForUser(s, v)
    decreases |ds|
  {
    if ds != [] {
      SaveAllLeavesOthers(s, ds[..|ds| - 1], now, idOf, v);
      SaveLeavesOthers(SaveAll(s, ds[..|ds| - 1], now, idOf), ds[|ds| - 1], now, idOf(|ds| - 1), v);
    }
  }

  /** The first transaction awaiting `userId`'s confirmation as buyer, if there is one. */
  function HasPendingBuyerAction(userId: string, txs: seq<Transaction>): (r: Option<Transaction>)
    ensures r.Some? ==>
      r.value in txs && r.value.buyerId == Some(userId) && r.value.status == DeliveredAwaitingConfirmation
    ensures r.Some? ==>
      exists i :: 0 <= i < |txs| && txs[i] == r.value && forall j :: 0 <= j < i ==> !(txs[j].buyerId == Some(userId) && txs[j].status == DeliveredAwaitingConfirmation)
    ensures r.None? <==>
      forall t :: t in txs ==> !(t.buyerId == Some(userId) && t.status == DeliveredAwaitingConfirmation)
  {
    Seqs.Find(txs, (t: Transaction) => t.buyerId == Some(userId) && t.status == DeliveredAwaitingConfirmation)
  }

  /** The browser-stored notification list. */
  class NotificationStore {
    var items: seq<Notification>

    constructor(stored: seq<Notification>)
      ensures items == stored
    {
      items := stored;
    }

    /**
     * Save a draft at `now`, with `freshId` for a new record. A duplicate
     * returns the first matching stored record and changes nothing.
     */
    method Save(d: Draft, now: Time, freshId: string) returns (r: Notification)
      modifies this
      ensures items == AfterSave(old(items), d, now, freshId)
      ensures IsDuplicate(old(items), d, now) ==> FirstMatch(old(items), d) == Some(r)
      ensures !IsDuplicate(old(items), d, now) ==> r == Fresh(d, freshId, now)
    {
      if IsDuplicate(items, d, now) {
        var m := FirstMatch(items, d);
        r := m.value;
      } else {
        r := Fresh(d, freshId, now);
        items := Inserted(items, r);
      }
    }

    method MarkAsRead(ids: seq<string>)
      modifies this
      ensures items == MarkWhere(old(items), IdIn(ids))
    {
      items := MarkWhere(items, IdIn(ids));
    }

    method MarkAllAsRead(u: string)
      modifies this
      ensures items == MarkWhere(old(items), OfUser(u))
    {
      items := MarkWhere(items, OfUser(u));
    }

    method MarkTypeAsRead(u: string, types: seq<NotificationType>)
      modifies this
      ensures items == MarkWhere(old(items), OfUserAndType(u, types))
    {
      items := MarkWhere(items, OfUserAndType(u, types));
    }

    /** `u`'s notifications, in stored order. */
    function UserNotifications(u: string): (r: seq<Notification>)
      reads this
      ensures forall n :: n in r <==> n in items && n.userId == u
    {
      ForUser(items, u)
    }

    /** The number of `u`'s unread notifications. */
    function UnreadCount(u: string): (c: nat)
      reads this
      ensures c == UnreadTally(items, u)
    {
      UnreadFilterIsTally(items, u);
      |Seqs.Filter(ForUser(items, u), NotRead())|
    }

    /** Whether `u` has an unread notification of one of `types`. */
    function HasUnreadByType(u: string, types: seq<NotificationType>): (b: bool)
      reads this
      ensures b <==> exists i :: 0 <= i < |items| && items[i].userId == u && !items[i].read && items[i].kind in types
    {
      exists n :: n in ForUser(items, u) && !n.read && n.kind in types
    }

    /** Save `drafts` one after another, the `i`-th with id `idOf(i)`. */
    method SaveDrafts(drafts: seq<Draft>, now: Time, idOf: nat -> string)
      modifies this
      ensures items == SaveAll(old(items), drafts, now, idOf)
    {
      var i := 0;
      while i < |drafts|
        invariant 0 <= i <= |drafts|
        invariant items == SaveAll(old(items), drafts[..i], now, idOf)
      {
        assert drafts[..i + 1][..i] == drafts[..i];
        var _ := Save(drafts[i], now, idOf(i));
        i := i + 1;
      }
      assert drafts[..|drafts|] == drafts;
    }

    /**
     * Dispatch the notifications for `tx` having moved to `newStatus`. Nothing
     * happens without a signed-in user; otherwise every note of the rules
     * table is saved, in order, tagged with the transaction id.
     */
    method NotifyStatusChange(tx: Transaction, newStatus: Status, sessionId: Option<string>, now: Time, idOf: nat -> string)
      modifies this
      ensures sessionId.None? ==> items == old(items)
      ensures sessionId.Some? ==>
        items == SaveAll(old(items), DraftsOf(GetStatusNotifications(tx, newStatus, sessionId.value), tx.id), now, idOf)
    {
      if sessionId.None? {
        return;
      }
      SaveDrafts(DraftsOf(GetStatusNotifications(tx, newStatus, sessionId.value), tx.id), now, idOf);
    }
  }
}
