/**
 * The browser-storage persistence layer: users, listings, transactions,
 * the session, the buyer's remembered transaction ids and two bounded
 * history lists, one field per storage key, with the demo seed merged in
 * on load.
 */
module Storage {
  import opened Wrappers
  import opened Types
  import Seqs
  import Notifications

  const Day: int := 24 * 60 * 60 * 1000

  /** At most this many remembered buyer transaction ids, share-history and caption-history entries. */
  const MaxBuyerTransactions: nat := 50
  const MaxSmartShareHistory: nat := 20
  const MaxAIHistory: nat := 50

  datatype AICaptionHistoryEntry = AICaptionHistoryEntry(
    postId: Option<string>,
    mode: string,
    originalText: string,
    generatedText: string,
    usedAt: Time)

  function UserKey(u: User): string { u.id }
  function PostKey(p: Post): string { p.id }
  function TxKey(t: Transaction): string { t.id }

  function KeyIs<T>(key: T -> string, k: string): T -> bool {
    x => key(x) == k
  }

  /** `findIndex` by id. */
  function IndexOfId<T>(s: seq<T>, key: T -> string, k: string): (i: int)
    ensures -1 <= i < |s|
    ensures 0 <= i ==> key(s[i]) == k && forall j :: 0 <= j < i ==> key(s[j]) != k
    ensures i == -1 ==> forall j :: 0 <= j < |s| ==> key(s[j]) != k
  {
    Seqs.IndexWhere(s, KeyIs(key, k))
  }

  /** The first position with id `k` is pinned down by the records before it. */
  lemma IndexOfIdIs<T>(s: seq<T>, key: T -> string, k: string, i: int)
    requires -1 <= i < |s|
    requires 0 <= i ==> key(s[i]) == k && forall j :: 0 <= j < i ==> key(s[j]) != k
    requires i == -1 ==> forall j :: 0 <= j < |s| ==> key(s[j]) != k
    ensures IndexOfId(s, key, k) == i
  {
    var b := IndexOfId(s, key, k);
    if b >= 0 && i >= 0 {
      assert !(b < i) && !(i < b);
    }
  }

  /** `find` by id: the first record with that id. */
  function FindById<T>(s: seq<T>, key: T -> string, k: string): (r: Option<T>)
    ensures r.Some? ==> r.value in s && key(r.value) == k
    ensures r.Some? ==>
      exists i :: 0 <= i < |s| && s[i] == r.value && key(s[i]) == k && forall j :: 0 <= j < i ==> key(s[j]) != k
    ensures r.None? <==> forall j :: 0 <= j < |s| ==> key(s[j]) != k
  {
    var i := IndexOfId(s, key, k);
    if i < 0 then None else Some(s[i])
  }

  /** No two records share an id. */
  predicate UniqueKeys<T>(s: seq<T>, key: T -> string) {
    forall i, j :: 0 <= i < j < |s| ==> key(s[i]) != key(s[j])
  }

  /**
   * Insert-or-replace by id: a record with the same id is overwritten
   * where it stands; otherwise the new record goes first (`atFront`) or last.
   */
  function Upsert<T>(s: seq<T>, x: T, key: T -> string, atFront: bool): (r: seq<T>)
    ensures x in r
    ensures forall y :: y in r ==> y == x || y in s
    ensures forall y :: y in s && key(y) != key(x) ==> y in r
    ensures |r| == if FindById(s, key, key(x)).Some? then |s| else |s| + 1
  {
    var i := IndexOfId(s, key, key(x));
    if i >= 0 then
      var r := s[i := x];
      assert r[i] == x;
      assert forall y :: y in r ==> y == x || y in s by {
        forall y | y in r ensures y == x || y in s {
          var j :| 0 <= j < |r| && r[j] == y;
          assert j != i ==> s[j] == y;
        }
      }
      assert forall y :: y in s && key(y) != key(x) ==> y in r by {
        forall y | y in s && key(y) != key(x) ensures y in r {
          var j :| 0 <= j < |s| && s[j] == y;
          assert r[j] == y;
        }
      }
      r
    else if atFront then [x] + s else s + [x]
  }

  /** An existing id keeps its position; a new id lands at the front or the back. */
  lemma UpsertPlaces<T>(s: seq<T>, x: T, key: T -> string, atFront: bool)
    ensures var i := IndexOfId(s, key, key(x));
      var r := Upsert(s, x, key, atFront);
      if i >= 0 then |r| == |s| && r[i] == x && (forall j :: 0 <= j < |s| && j != i ==> r[j] == s[j])
      else |r| == |s| + 1 && (if atFront then r[0] == x && r[1..] == s else r[|s|] == x && r[..|s|] == s)
  {
  }

  /** After an upsert, looking the id up returns the saved record. */
  lemma UpsertThenFind<T>(s: seq<T>, x: T, key: T -> string, atFront: bool)
    ensures FindById(Upsert(s, x, key, atFront), key, key(x)) == Some(x)
  {
    var i := IndexOfId(s, key, key(x));
    var r := Upsert(s, x, key, atFront);
    if i >= 0 {
      IndexOfIdIs(r, key, key(x), i);
    } else if atFront {
      IndexOfIdIs(r, key, key(x), 0);
    } else {
      assert forall j :: 0 <= j < |s| ==> r[j] == s[j];
      IndexOfIdIs(r, key, key(x), |s|);
    }
  }

  /** An upsert changes the lookup of no other id. */
  lemma UpsertLeavesOtherIds<T>(s: seq<T>, x: T, key: T -> string, atFront: bool, k: string)
    requires k != key(x)
    ensures FindById(Upsert(s, x, key, atFront), key, k) == FindById(s, key, k)
  {
    var i := IndexOfId(s, key, key(x));
    var r := Upsert(s, x, key, atFront);
    var a := IndexOfId(s, key, k);
    var b := IndexOfId(r, key, k);
    if i >= 0 {
      assert a != i;
      IndexOfIdIs(r, key, k, a);
    } else if atFront {
      assert r[1..] == s;
      assert a < 0 ==> b < 0;
      assert a >= 0 ==> b == a + 1;
    } else {
      assert r[..|s|] == s;
      assert a == b;
    }
  }

  /** An upsert keeps ids unique. */
  lemma UpsertKeepsUnique<T>(s: seq<T>, x: T, key: T -> string, atFront: bool)
    requires UniqueKeys(s, key)
    ensures UniqueKeys(Upsert(s, x, key, atFront), key)
  {
    var i := IndexOfId(s, key, key(x));
    var r := Upsert(s, x, key, atFront);
    if i < 0 {
      if atFront {
        assert forall j :: 0 < j < |r| ==> r[j] == s[j - 1];
      } else {
        assert forall j :: 0 <= j < |s| ==> r[j] == s[j];
      }
    }
  }

  /** The ids of the demo records. */
  function Ids<T>(demo: seq<T>, key: T -> string): (ids: seq<string>)
    ensures |ids| == |demo| && forall i :: 0 <= i < |demo| ==> ids[i] == key(demo[i])
    ensures forall d :: d in demo ==> key(d) in ids
    ensures forall k :: k in ids ==> exists d :: d in demo && key(d) == k
  {
    seq(|demo|, i requires 0 <= i < |demo| => key(demo[i]))
  }

  function NotAmong<T>(ids: seq<string>, key: T -> string): T -> bool {
    x => key(x) !in ids
  }

  /** Every demo id is held by some stored record. */
  predicate HasAll<T>(stored: seq<T>, demo: seq<T>, key: T -> string) {
    forall i :: 0 <= i < |demo| ==> key(demo[i]) in Ids(stored, key)
  }

  /**
   * The seed merge run on load: when some demo id is missing, the stored
   * records with non-demo ids are kept and the whole demo set follows them.
   */
  function MergeSeed<T(!new)>(stored: seq<T>, demo: seq<T>, key: T -> string): (r: seq<T>)
    ensures forall x :: x in r ==> x in stored || x in demo
    ensures forall x :: x in stored && key(x) !in Ids(demo, key) ==> x in r
  {
    if HasAll(stored, demo, key) then stored
    else Seqs.Filter(stored, NotAmong(Ids(demo, key), key)) + demo
  }

  /** After the seed merge every demo id is present. */
  lemma MergeSeedHasAll<T(!new)>(stored: seq<T>, demo: seq<T>, key: T -> string)
    ensures HasAll(MergeSeed(stored, demo, key), demo, key)
  {
    if !HasAll(stored, demo, key) {
      var kept := Seqs.Filter(stored, NotAmong(Ids(demo, key), key));
      var r := kept + demo;
      assert r == MergeSeed(stored, demo, key);
      forall i | 0 <= i < |demo|
        ensures key(demo[i]) in Ids(r, key)
      {
        var j := |kept| + i;
        assert r[j] == demo[i];
        assert Ids(r, key)[j] == key(demo[i]);
      }
      assert HasAll(r, demo, key);
    }
  }

  /** The seed merge keeps exactly the non-demo records, in their order. */
  lemma MergeSeedKeepsOthers<T(!new)>(stored: seq<T>, demo: seq<T>, key: T -> string)
    ensures Seqs.Filter(MergeSeed(stored, demo, key), NotAmong(Ids(demo, key), key))
         == Seqs.Filter(stored, NotAmong(Ids(demo, key), key))
  {
    if !HasAll(stored, demo, key) {
      var p := NotAmong(Ids(demo, key), key);
      var kept := Seqs.Filter(stored, p);
      Seqs.FilterConcat(kept, demo, p);
      Seqs.FilterKeepsAll(kept, p);
      forall x | x in demo
        ensures !p(x)
      {
        var i :| 0 <= i < |demo| && demo[i] == x;
        assert Ids(demo, key)[i] == key(x);
      }
      Seqs.FilterDropsAll(demo, p);
    }
  }

  /** `s` with the status and update time of the first record carrying `id` replaced. */
  function WithStatus(s: seq<Transaction>, id: string, status: Status, now: Time): (r: seq<Transaction>)
    ensures |r| == |s|
    ensures forall t :: t in s && t.id != id ==> t in r
    ensures forall t :: t in r && t !in s ==> t.id == id && t.status == status && t.updatedAt == now
  {
    var i := IndexOfId(s, TxKey, id);
    if i < 0 then s
    else
      var r := s[i := s[i].(status := status, updatedAt := now)];
      assert forall t :: t in s && t.id != id ==> t in r by {
        forall t | t in s && t.id != id ensures t in r {
          var j :| 0 <= j < |s| && s[j] == t;
          assert r[j] == t;
        }
      }
      r
  }

  /**
   * The status update touches one record, and in it only the status and
   * the update time; an unknown id changes nothing.
   */
  lemma WithStatusTouchesOnlyThat(s: seq<Transaction>, id: string, status: Status, now: Time)
    ensures var r := WithStatus(s, id, status, now);
      |r| == |s|
      && (FindById(s, TxKey, id).None? ==> r == s)
      && (forall j :: 0 <= j < |s| && s[j].id != id ==> r[j] == s[j])
      && (forall j :: 0 <= j < |s| ==> r[j].(status := s[j].status, updatedAt := s[j].updatedAt) == s[j])
      && (FindById(s, TxKey, id).Some? ==>
            FindById(r, TxKey, id) == Some(FindById(s, TxKey, id).value.(status := status, updatedAt := now)))
  {
    var i := IndexOfId(s, TxKey, id);
    if i >= 0 {
      var r := WithStatus(s, id, status, now);
      IndexOfIdIs(r, TxKey, id, i);
    }
  }

  /**
   * The notification list after the status update of `id`: unchanged when
   * the id is unknown, when notification is skipped or when nobody is
   * signed in; otherwise the rules table's notes for the updated record
   * are saved one after another.
   */
  function NotificationsAfterUpdate(items: seq<Notifications.Notification>, txs: seq<Transaction>, id: string,
                                    status: Status, skip: bool, sessionId: Option<string>, now: Time,
                                    idOf: nat -> string): (r: seq<Notifications.Notification>)
    ensures FindById(txs, TxKey, id).None? || skip || sessionId.None? ==> r == items
  {
    var i := IndexOfId(txs, TxKey, id);
    if i < 0 || skip || sessionId.None? then items
    else
      Notifications.SaveAll(items,
        Notifications.DraftsOf(
          Notifications.GetStatusNotifications(txs[i].(status := status, updatedAt := now), status, sessionId.value),
          id),
        now, idOf)
  }

  /** The remembered buyer transaction ids after `id` is recorded. */
  function RememberBuyerTransaction(ids: seq<string>, id: string): (r: seq<string>)
    ensures id in r && |r| <= |ids| + 1
    ensures forall x :: x in r ==> x == id || x in ids
  {
    if id in ids then ids
    else
      var full := [id] + ids;
      var r := Seqs.Take(full, MaxBuyerTransactions);
      assert r[0] == full[0];
      assert forall x :: x in r ==> x in full by {
        forall x | x in r ensures x in full {
          var j :| 0 <= j < |r| && r[j] == x;
          assert full[j] == x;
        }
      }
      r
  }

  /**
   * Recording an id already remembered changes nothing; a new one goes
   * first and the list is cut to fifty. No id is ever remembered twice.
   */
  lemma RememberBuyerTransactionShape(ids: seq<string>, id: string)
    ensures id in ids ==> RememberBuyerTransaction(ids, id) == ids
    ensures id !in ids ==>
      RememberBuyerTransaction(ids, id)[0] == id && |RememberBuyerTransaction(ids, id)| <= MaxBuyerTransactions
    ensures id !in ids ==>
      RememberBuyerTransaction(ids, id)[1..] <= ids
      && |RememberBuyerTransaction(ids, id)| == if |ids| + 1 <= MaxBuyerTransactions then |ids| + 1 else MaxBuyerTransactions
    ensures Seqs.NoDuplicates(ids) ==> Seqs.NoDuplicates(RememberBuyerTransaction(ids, id))
  {
    if id !in ids {
      var r := RememberBuyerTransaction(ids, id);
      var full := [id] + ids;
      assert r == full[..|r|];
      if Seqs.NoDuplicates(ids) {
        forall i, j | 0 <= i < j < |r|
          ensures r[i] != r[j]
        {
          if i == 0 {
            assert r[j] == ids[j - 1];
          } else {
            assert r[i] == ids[i - 1] && r[j] == ids[j - 1];
          }
        }
      }
    }
  }

  /** A most-recent-first list after `e` is added: `e` first, then the newest of the rest, `max` in all. */
  function PushBounded<T>(s: seq<T>, e: T, max: nat): (r: seq<T>)
    requires max >= 1
    ensures |r| <= max && r != [] && r[0] == e
    ensures r[1..] <= s
    ensures |s| < max ==> r == [e] + s
    ensures |r| == if |s| + 1 <= max then |s| + 1 else max
  {
    var r := Seqs.Take([e] + s, max);
    assert r == ([e] + s)[..|r|];
    r
  }

  /** The posts left after deleting `id`: every post but those with that id, in order. */
  function PostsWithout(s: seq<Post>, id: string): (r: seq<Post>)
    ensures forall p :: p in r <==> p in s && p.id != id
    ensures |r| <= |s|
  {
    Seqs.Filter(s, (p: Post) => p.id != id)
  }

  /** The demo users seeded on load, created at `now`. */
  function DemoUsers(now: Time): seq<User> {
    [
      User("seller-demo", "+237600000001", "seller@demo.com", "Abena Tech", Some("Yaound\U{00E9}"),
        Some("1234"), Some(true), true, Some(Verified), BuyerSeller, now),
      User("buyer-demo", "+237600000002", "buyer@demo.com", "Paul Buyer", Some("Douala"),
        Some("1111"), Some(true), false, Some(Unverified), BuyerSeller, now),
      User("admin-demo", "+237600000003", "admin@demo.com", "Admin Boss", Some("Yaound\U{00E9}"),
        Some("admin"), Some(true), true, Some(Verified), Admin, now),
      User("agent-demo", "+237600000004", "agent@demo.com", "Kemi Agent", Some("Bamenda"),
        Some("1234"), Some(true), true, Some(Verified), Agent, now)
    ]
  }

  /** The demo listings seeded on load. */
  function DemoPosts(now: Time): seq<Post> {
    [
      Post("post-demo-1", "iPhone 14 Pro Max 256GB",
        "Brand new, sealed in box. Original Apple warranty included.", 450000, Some("electronics"), None,
        "seller-demo", "Abena Tech", "+237600000001", now - 7 * Day, now - 7 * Day, true,
        Some(false), None, None, Some("Delivery available to all major cities")),
      Post("post-demo-2", "Samsung Galaxy S24 Ultra",
        "Latest model, 512GB storage, Titanium Black.", 520000, Some("electronics"), None,
        "seller-demo", "Abena Tech", "+237600000001", now - 3 * Day, now - 3 * Day, true,
        Some(false), None, None, Some("Free delivery in Yaound\U{00E9}"))
    ]
  }

  function DemoTransaction(id: string, postId: string, productName: string, price: int, deliveryFee: int,
                           location: string, area: string, status: Status, code: string,
                           agent: Option<(string, string)>, logistics: Option<LogisticsDetails>,
                           createdAt: Time, updatedAt: Time): Transaction
  {
    Transaction(id, Some(postId), productName, None, price, deliveryFee, "Abena Tech", "+237600000001", "seller-demo",
      Some("buyer-demo"), Some("Paul Buyer"), Some("+237600000002"), None, None, location, area, None, logistics,
      if agent.Some? then Some(agent.value.0) else None, if agent.Some? then Some(agent.value.1) else None,
      status, false, None, None, createdAt, updatedAt, "https://pay.prolist.cm/" + id, code, None, None, None)
  }

  /** The demo transactions seeded on load, one at each of the four middle statuses. */
  function DemoTransactions(now: Time): seq<Transaction> {
    [
      DemoTransaction("tx-demo-1", "post-demo-1", "iPhone 14 Pro Max 256GB", 450000, 5000,
        "Douala, Cameroon", "Douala", EscrowHeld, "123456", None, None, now - 2 * Day, now - 2 * Day),
      DemoTransaction("tx-demo-2", "post-demo-2", "Samsung Galaxy S24 Ultra", 520000, 5000,
        "Douala, Cameroon", "Douala", InTransitToHub, "654321", None,
        Some(LogisticsDetails(Some("DHL Express"), Some("Yaound\U{00E9}"), Some("Tracking: CM12345678"))),
        now - 5 * Day, now - 4 * Day),
      DemoTransaction("tx-demo-3", "post-demo-1", "MacBook Air M2", 750000, 8000,
        "Bamenda, Cameroon", "Bamenda", AtProlistHub, "789012", None,
        Some(LogisticsDetails(Some("Campost"), Some("Yaound\U{00E9}"), None)),
        now - 7 * Day, now - 5 * Day),
      DemoTransaction("tx-demo-4", "post-demo-2", "AirPods Pro 2nd Gen", 180000, 3000,
        "Bamenda, Cameroon", "Bamenda", OutForDelivery, "345678", Some(("agent-demo", "Kemi Agent")),
        Some(LogisticsDetails(Some("Express Cargo"), Some("Yaound\U{00E9}"), None)),
        now - 10 * Day, now - 8 * Day)
    ]
  }

  /** The browser storage, one field per key, and the notification list beside it. */
  class LocalStore {
    var users: seq<User>
    var posts: seq<Post>
    var transactions: seq<Transaction>
    var buyerTransactionIds: seq<string>
    var smartShareHistory: seq<SmartShareHistory>
    var aiHistory: seq<AICaptionHistoryEntry>
    var session: Option<User>
    const notifications: Notifications.NotificationStore

    /** An empty storage next to the given notification list. */
    constructor(notifications: Notifications.NotificationStore)
      ensures this.notifications == notifications
      ensures users == [] && posts == [] && transactions == []
      ensures buyerTransactionIds == [] && smartShareHistory == [] && aiHistory == [] && session.None?
    {
      this.notifications := notifications;
      users, posts, transactions := [], [], [];
      buyerTransactionIds, smartShareHistory, aiHistory := [], [], [];
      session := None;
    }

    method InitializeDemoUsers(now: Time)
      modifies this`users
      ensures users == MergeSeed(old(users), DemoUsers(now), UserKey)
    {
      users := MergeSeed(users, DemoUsers(now), UserKey);
    }

    method InitializeDemoPosts(now: Time)
      modifies this`posts
      ensures posts == MergeSeed(old(posts), DemoPosts(now), PostKey)
    {
      posts := MergeSeed(posts, DemoPosts(now), PostKey);
    }

    method InitializeDemoTransactions(now: Time)
      modifies this`transactions
      ensures transactions == MergeSeed(old(transactions), DemoTransactions(now), TxKey)
    {
      transactions := MergeSeed(transactions, DemoTransactions(now), TxKey);
    }

    /** The first stored user with that id. */
    function GetUserById(id: string): (r: Option<User>)
      reads this
      ensures r.Some? ==> r.value in users && r.value.id == id
      ensures r.None? <==> forall u :: u in users ==> u.id != id
    {
      FindById(users, UserKey, id)
    }

    /** Replace the user with the same id in place, or append a new one. */
    method SaveUser(u: User)
      modifies this`users
      ensures users == Upsert(old(users), u, UserKey, false)
    {
      var i := IndexOfId(users, UserKey, u.id);
      if i >= 0 {
        users := users[i := u];
      } else {
        users := users + [u];
      }
    }

    /** The id of the signed-in user, if anyone is signed in. */
    function GetSessionId(): (r: Option<string>)
      reads this
      ensures r.Some? <==> session.Some?
      ensures r.Some? ==> r.value == session.value.id
    {
      if session.Some? then Some(session.value.id) else None
    }

    method SetSession(u: User)
      modifies this`session
      ensures session == Some(u)
    {
      session := Some(u);
    }

    method ClearSession()
      modifies this`session
      ensures session.None?
    {
      session := None;
    }

    /** The first stored listing with that id. */
    function GetPost(id: string): (r: Option<Post>)
      reads this
      ensures r.Some? ==> r.value in posts && r.value.id == id
      ensures r.None? <==> forall p :: p in posts ==> p.id != id
    {
      FindById(posts, PostKey, id)
    }

    /** The listings of one seller, in stored order. */
    function GetSellerPosts(sellerId: string): (r: seq<Post>)
      reads this
      ensures forall p :: p in r <==> p in posts && p.sellerId == sellerId
    {
      Seqs.Filter(posts, (p: Post) => p.sellerId == sellerId)
    }

    /** Replace the post with the same id in place, or put a new one first. */
    method SavePost(p: Post)
      modifies this`posts
      ensures posts == Upsert(old(posts), p, PostKey, true)
    {
      var i := IndexOfId(posts, PostKey, p.id);
      if i >= 0 {
        posts := posts[i := p];
      } else {
        posts := [p] + posts;
      }
    }

    method DeletePost(id: string)
      modifies this`posts
      ensures posts == PostsWithout(old(posts), id)
    {
      posts := PostsWithout(posts, id);
    }

    /** The transactions of one seller, in stored order. */
    function GetSellerTransactions(sellerId: string): (r: seq<Transaction>)
      reads this
      ensures forall t :: t in r <==> t in transactions && t.sellerId == sellerId
    {
      Seqs.Filter(transactions, (t: Transaction) => t.sellerId == sellerId)
    }

    /** The transactions of one buyer, matched by id or by phone number, in stored order. */
    function GetBuyerTransactions(buyer: string): (r: seq<Transaction>)
      reads this
      ensures forall t :: t in r <==> t in transactions && (t.buyerId == Some(buyer) || t.buyerPhone == Some(buyer))
    {
      Seqs.Filter(transactions, (t: Transaction) => t.buyerId == Some(buyer) || t.buyerPhone == Some(buyer))
    }

    /** The first stored transaction with that id. */
    function GetTransaction(id: string): (r: Option<Transaction>)
      reads this
      ensures r.Some? ==> r.value in transactions && r.value.id == id
      ensures r.None? <==> forall t :: t in transactions ==> t.id != id
    {
      FindById(transactions, TxKey, id)
    }

    /** Replace the transaction with the same id in place, or put a new one first; nobody is notified. */
    method SaveTransaction(t: Transaction)
      modifies this`transactions
      ensures transactions == Upsert(old(transactions), t, TxKey, true)
    {
      var i := IndexOfId(transactions, TxKey, t.id);
      if i >= 0 {
        transactions := transactions[i := t];
      } else {
        transactions := [t] + transactions;
      }
    }

    /**
     * Set the status and update time of the transaction `id`, with no
     * permission check, and unless `skipNotification` dispatch the
     * status-change notifications for the updated record as the signed-in
     * user. An unknown id changes nothing.
     */
    method UpdateTransactionStatus(id: string, status: Status, skipNotification: bool, now: Time, idOf: nat -> string)
      modifies this`transactions, notifications
      ensures transactions == WithStatus(old(transactions), id, status, now)
      ensures notifications.items ==
        NotificationsAfterUpdate(old(notifications.items), old(transactions), id, status, skipNotification,
          GetSessionId(), now, idOf)
    {
      var i := IndexOfId(transactions, TxKey, id);
      if i >= 0 {
        var t := transactions[i].(status := status, updatedAt := now);
        transactions := transactions[i := t];
        if !skipNotification {
          notifications.NotifyStatusChange(t, status, GetSessionId(), now, idOf);
        }
      }
    }

    /** Remember a transaction id for a buyer who is not signed in. */
    method SaveBuyerTransaction(id: string)
      modifies this`buyerTransactionIds
      ensures buyerTransactionIds == RememberBuyerTransaction(old(buyerTransactionIds), id)
    {
      if id !in buyerTransactionIds {
        buyerTransactionIds := Seqs.Take([id] + buyerTransactionIds, MaxBuyerTransactions);
      }
    }

    method SaveSmartShareHistory(e: SmartShareHistory)
      modifies this`smartShareHistory
      ensures smartShareHistory == PushBounded(old(smartShareHistory), e, MaxSmartShareHistory)
    {
      smartShareHistory := PushBounded(smartShareHistory, e, MaxSmartShareHistory);
    }

    method SaveAIHistory(e: AICaptionHistoryEntry)
      modifies this`aiHistory
      ensures aiHistory == PushBounded(old(aiHistory), e, MaxAIHistory)
    {
      aiHistory := PushBounded(aiHistory, e, MaxAIHistory);
    }
  }
}
