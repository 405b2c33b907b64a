/** Creator commerce: the marketplace (controllers/marketplaceController.js)
    and tips and earnings (controllers/creatorController.js). Every payment
    is recorded as a transaction; the earnings of a creator are the
    transactions paid to them. */
module Commerce {
  import opened Common
  import opened Text
  import opened Models
  import opened Store
  import opened Http
  import Ledger

  // ---------------------------------------------------------------------
  // createItem

  /** The body of a new marketplace listing, as the client sent it. */
  datatype ItemRequest = ItemRequest(
    title: Option<string>,
    description: Option<string>,
    price: Option<int>,
    thumbnailUrl: Option<string>,
    assetUrl: Option<string>)

  /** The listing schema's checks: the title is trimmed and must not be
      empty afterwards, the description and both urls must be given and
      non-empty; a missing price takes the default 0. */
  predicate ValidItem(q: ItemRequest) {
    && q.title.Some? && Trim(q.title.value) != []
    && Truthy(q.description) && Truthy(q.thumbnailUrl) && Truthy(q.assetUrl)
  }

  function NewItem(me: Id, q: ItemRequest): (item: MarketplaceItem)
    requires ValidItem(q)
  {
    MarketplaceItem(me, Trim(q.title.value), q.description.value,
                    if q.price.Some? then q.price.value else 0, q.thumbnailUrl.value, q.assetUrl.value)
  }

  /** `createItem`: the listing belongs to the caller, whatever the body
      says; a listing the schema refuses throws (500) and nothing is stored. */
  function CreateItemOutcome(db: Db, me: Id, q: ItemRequest): (o: Outcome<MarketplaceItem>)
    ensures o.events == []
    ensures o.reply.Ok? <==> ValidItem(q)
    ensures !o.reply.Ok? ==> o.reply.Thrown? && o.db == db
    ensures o.reply.Ok? ==>
      && o.reply.status == 201
      && o.reply.body.creator == me
      && o.reply.body.title == Trim(q.title.value)
      && o.reply.body.price == (if q.price.Some? then q.price.value else 0)
      && o.reply.body.description == q.description.value
      && o.reply.body.thumbnailUrl == q.thumbnailUrl.value
      && o.reply.body.assetUrl == q.assetUrl.value
      && o.db == db.(items := db.items[NextId(db.items) := o.reply.body])
  {
    if !ValidItem(q) then Answer(db, Thrown)
    else
      var item := NewItem(me, q);
      Outcome(Ok(201, item), db.(items := db.items[NextId(db.items) := item]), [])
  }

  method CreateItem(srv: Server, me: Id, q: ItemRequest) returns (reply: Reply<MarketplaceItem>)
    modifies srv`db
    ensures var o := CreateItemOutcome(old(srv.db), me, q); srv.db == o.db && reply == o.reply
  {
    if !ValidItem(q) {
      return Thrown;
    }
    var item := NewItem(me, q);
    srv.db := srv.db.(items := srv.db.items[NextId(srv.db.items) := item]);
    reply := Ok(201, item);
  }

  // ---------------------------------------------------------------------
  // purchaseItem

  const PaymentRequired := "Payment information is required."
  const ItemNotFound := "Item not found"
  const AlreadyPurchased := "You have already purchased this item."
  const PurchaseDone := "Purchase successful!"

  /** The reply of a purchase: a confirmation and the buyer's stored record. */
  datatype Purchase = Purchase(message: string, user: User)

  /** The transaction recording a purchase: from the buyer to the item's
      creator, for the item's price. */
  function PurchaseRecord(me: Id, itemId: Id, item: MarketplaceItem, paymentId: string, today: int): (t: Transaction)
    ensures t.fromUser == me && t.toUser == item.creator && t.amount == item.price
    ensures t.currency == "usd" && t.status == "completed" && t.paymentId == paymentId
    ensures t.details == TransactionDetails(Some("marketplace_purchase"), Some(itemId), Some(item.title))
    ensures t.day == today
  {
    Transaction(me, item.creator, item.price, "usd", "completed", paymentId,
                TransactionDetails(Some("marketplace_purchase"), Some(itemId), Some(item.title)), today)
  }

  /** `purchaseItem`. The payment id is checked before anything is read;
      then the item must exist and the buyer must not own it yet. A buyer
      missing from the store makes the handler throw. On success one
      transaction is recorded and the item joins the buyer's purchases. The
      buyer was read without password and 2FA secret, so the reply carries
      neither, while `save` leaves both stored. */
  function PurchaseOutcome(db: Db, me: Id, itemId: Id, paymentIntentId: Option<string>, today: int): (o: Outcome<Purchase>)
    ensures o.events == []
    ensures !o.reply.Ok? ==> o.db == db
    ensures !Truthy(paymentIntentId) ==> o.reply == Fail(400, PaymentRequired)
    ensures Truthy(paymentIntentId) && itemId !in db.items ==> o.reply == Fail(404, ItemNotFound)
    ensures Truthy(paymentIntentId) && itemId in db.items && me in db.users && itemId in db.users[me].purchasedItems ==>
      o.reply == Fail(400, AlreadyPurchased)
    ensures o.reply.Ok? <==>
      Truthy(paymentIntentId) && itemId in db.items && me in db.users && itemId !in db.users[me].purchasedItems
    ensures o.reply.Ok? ==>
      var buyer := db.users[me].(purchasedItems := db.users[me].purchasedItems + [itemId]);
      && o.reply == Ok(200, Purchase(PurchaseDone, Redacted(buyer)))
      && o.db == db.(transactions := db.transactions[NextId(db.transactions) :=
                       PurchaseRecord(me, itemId, db.items[itemId], paymentIntentId.value, today)],
                     users := db.users[me := buyer])
  {
    if !Truthy(paymentIntentId) then Answer(db, Raised(400, PaymentRequired))
    else if itemId !in db.items then Answer(db, Raised(404, ItemNotFound))
    else if me !in db.users then Answer(db, Thrown)
    else if itemId in db.users[me].purchasedItems then Answer(db, Raised(400, AlreadyPurchased))
    else
      var tx := PurchaseRecord(me, itemId, db.items[itemId], paymentIntentId.value, today);
      var buyer := db.users[me].(purchasedItems := db.users[me].purchasedItems + [itemId]);
      Outcome(Ok(200, Purchase(PurchaseDone, Redacted(buyer))),
              db.(transactions := db.transactions[NextId(db.transactions) := tx], users := db.users[me := buyer]),
              [])
  }

  /** The duplicate guard: once bought, the same item cannot be bought again
      by the same user, and the second attempt records nothing. */
  lemma SecondPurchaseRefused(db: Db, me: Id, itemId: Id, pay1: Option<string>, pay2: Option<string>, today1: int, today2: int)
    requires PurchaseOutcome(db, me, itemId, pay1, today1).reply.Ok?
    requires Truthy(pay2)
    ensures var db1 := PurchaseOutcome(db, me, itemId, pay1, today1).db;
      var o := PurchaseOutcome(db1, me, itemId, pay2, today2);
      o.reply == Fail(400, AlreadyPurchased) && o.db == db1
  {
    var db1 := PurchaseOutcome(db, me, itemId, pay1, today1).db;
    assert itemId in db1.items && me in db1.users;
    assert itemId in db1.users[me].purchasedItems;
  }

  /** The purchase reply never carries the buyer's password hash or 2FA
      secret, and the stored buyer keeps both. */
  lemma PurchaseReplyHidesSecrets(db: Db, me: Id, itemId: Id, paymentIntentId: Option<string>, today: int)
    requires PurchaseOutcome(db, me, itemId, paymentIntentId, today).reply.Ok?
    ensures var o := PurchaseOutcome(db, me, itemId, paymentIntentId, today);
      && o.reply.body.user.password.None? && o.reply.body.user.twoFactorSecret.None?
      && o.db.users[me].password == db.users[me].password
      && o.db.users[me].twoFactorSecret == db.users[me].twoFactorSecret
  {
  }

  method PurchaseItem(srv: Server, me: Id, itemId: Id, paymentIntentId: Option<string>, today: int)
    returns (reply: Reply<Purchase>)
    modifies srv`db
    ensures var o := PurchaseOutcome(old(srv.db), me, itemId, paymentIntentId, today); srv.db == o.db && reply == o.reply
  {
    if !Truthy(paymentIntentId) {
      return Raised(400, PaymentRequired);
    }
    if itemId !in srv.db.items {
      return Raised(404, ItemNotFound);
    }
    var item := srv.db.items[itemId];
    if me !in srv.db.users {
      return Thrown;
    }
    var buyer := srv.db.users[me];
    if itemId in buyer.purchasedItems {
      return Raised(400, AlreadyPurchased);
    }
    var tx := PurchaseRecord(me, itemId, item, paymentIntentId.value, today);
    buyer := buyer.(purchasedItems := buyer.purchasedItems + [itemId]);
    srv.db := srv.db.(transactions := srv.db.transactions[NextId(srv.db.transactions) := tx],
                      users := srv.db.users[me := buyer]);
    reply := Ok(200, Purchase(PurchaseDone, Redacted(buyer)));
  }

  // ---------------------------------------------------------------------
  // createTip

  const TipFieldsRequired := "Creator ID, amount, and paymentIntentId are required."
  const TipNotPositive := "Tip amount must be positive."
  const CreatorNotFound := "Creator not found."
  const TipSent := "Tip sent successfully!"

  datatype TipReply = TipReply(message: string, data: Transaction)

  function TipRecord(me: Id, creatorId: Id, amount: int, paymentId: string, today: int): (t: Transaction)
    ensures t.fromUser == me && t.toUser == creatorId && t.amount == amount
    ensures t.currency == "usd" && t.status == "completed" && t.paymentId == paymentId
    ensures t.details == TransactionDetails(Some("tip"), None, None) && t.day == today
  {
    Transaction(me, creatorId, amount, "usd", "completed", paymentId, TransactionDetails(Some("tip"), None, None), today)
  }

  /** `createTip`. A zero amount is falsy and so counts as missing; a
      negative one is refused as not positive; the recipient must be a
      stored creator. */
  function CreateTipOutcome(db: Db, me: Id, creatorId: Option<Id>, amount: Option<int>,
                            paymentIntentId: Option<string>, today: int): (o: Outcome<TipReply>)
    ensures o.events == []
    ensures !o.reply.Ok? ==> o.db == db
    ensures creatorId.None? || amount.None? || amount == Some(0) || !Truthy(paymentIntentId) ==>
      o.reply == Fail(400, TipFieldsRequired)
    ensures creatorId.Some? && Truthy(paymentIntentId) && amount.Some? && amount.value < 0 ==>
      o.reply == Fail(400, TipNotPositive)
    ensures creatorId.Some? && Truthy(paymentIntentId) && amount.Some? && amount.value > 0 &&
            (creatorId.value !in db.users || !db.users[creatorId.value].isCreator) ==>
      o.reply == Fail(404, CreatorNotFound)
    ensures o.reply.Ok? <==>
      && creatorId.Some? && Truthy(paymentIntentId) && amount.Some? && amount.value > 0
      && creatorId.value in db.users && db.users[creatorId.value].isCreator
    ensures o.reply.Ok? ==>
      var t := TipRecord(me, creatorId.value, amount.value, paymentIntentId.value, today);
      && o.reply == Ok(201, TipReply(TipSent, t))
      && o.db == db.(transactions := db.transactions[NextId(db.transactions) := t])
  {
    if creatorId.None? || amount.None? || amount.value == 0 || !Truthy(paymentIntentId) then
      Answer(db, Raised(400, TipFieldsRequired))
    else if amount.value <= 0 then Answer(db, Raised(400, TipNotPositive))
    else if creatorId.value !in db.users || !db.users[creatorId.value].isCreator then
      Answer(db, Raised(404, CreatorNotFound))
    else
      var t := TipRecord(me, creatorId.value, amount.value, paymentIntentId.value, today);
      Outcome(Ok(201, TipReply(TipSent, t)), db.(transactions := db.transactions[NextId(db.transactions) := t]), [])
  }

  method CreateTip(srv: Server, me: Id, creatorId: Option<Id>, amount: Option<int>,
                   paymentIntentId: Option<string>, today: int) returns (reply: Reply<TipReply>)
    modifies srv`db
    ensures var o := CreateTipOutcome(old(srv.db), me, creatorId, amount, paymentIntentId, today);
      srv.db == o.db && reply == o.reply
  {
    if creatorId.None? || amount.None? || amount.value == 0 || !Truthy(paymentIntentId) {
      return Raised(400, TipFieldsRequired);
    }
    if amount.value <= 0 {
      return Raised(400, TipNotPositive);
    }
    if creatorId.value !in srv.db.users || !srv.db.users[creatorId.value].isCreator {
      return Raised(404, CreatorNotFound);
    }
    var t := TipRecord(me, creatorId.value, amount.value, paymentIntentId.value, today);
    srv.db := srv.db.(transactions := srv.db.transactions[NextId(srv.db.transactions) := t]);
    reply := Ok(201, TipReply(TipSent, t));
  }

  // ---------------------------------------------------------------------
  // getEarnings

  /** What `getEarnings` answers: how many transactions were paid to the
      caller, their total, and the transactions themselves, newest first. */
  datatype Earnings = Earnings(count: nat, totalEarnings: int, data: seq<Id>)

  predicate PaidTo(me: Id, t: Transaction) {
    t.toUser == me
  }

  /** The ids of the transactions paid to a user, in insertion order. */
  function PaidIds(txs: map<Id, Transaction>, me: Id): (r: seq<Id>)
    ensures Increasing(r)
    ensures forall k :: k in r <==> k in txs && txs[k].toUser == me
  {
    IdsWhere(txs, (t: Transaction) => PaidTo(me, t))
  }

  /** The amounts of the listed transactions, in list order. */
  function Amounts(txs: map<Id, Transaction>, ids: seq<Id>): (r: seq<int>)
    requires forall k :: k in ids ==> k in txs
    ensures |r| == |ids|
    ensures forall i :: 0 <= i < |ids| ==> r[i] == txs[ids[i]].amount
  {
    if ids == [] then [] else [txs[ids[0]].amount] + Amounts(txs, ids[1..])
  }

  /** `getEarnings`: the transactions paid to the caller, newest first, their
      number and the sum of their amounts: the count and the `$sum` of the
      transactions matching `toUser`. */
  function GetEarnings(db: Db, me: Id): (e: Earnings)
    ensures forall k :: k in e.data <==> k in db.transactions && db.transactions[k].toUser == me
    ensures Decreasing(e.data)
    ensures e.count == |e.data|
    ensures var all := Ledger.AllTxIds(db.transactions);
      && e.count == Ledger.CountOver(db.transactions, all, Ledger.PaidTo(me))
      && e.totalEarnings == Ledger.AmountOver(db.transactions, all, Ledger.PaidTo(me))
  {
    var ids := PaidIds(db.transactions, me);
    var data := Latest(ids, |ids|);
    assert forall k :: k in data <==> k in ids by { LatestAll(ids); }
    assert Decreasing(data) by { LatestDecreasing(ids, |ids|); }
    EarningsFromLedger(db.transactions, me);
    Earnings(|data|, Sum(Amounts(db.transactions, data)), data)
  }

  /** The transactions paid to a user are those the `toUser` filter
      matches: their number is its count and, newest first, their amounts
      add up to its sum. */
  lemma EarningsFromLedger(txs: map<Id, Transaction>, me: Id)
    ensures var ids := PaidIds(txs, me);
      var all := Ledger.AllTxIds(txs);
      && |ids| == Ledger.CountOver(txs, all, Ledger.PaidTo(me))
      && Sum(Amounts(txs, Latest(ids, |ids|))) == Ledger.AmountOver(txs, all, Ledger.PaidTo(me))
  {
    var ids := PaidIds(txs, me);
    var all := Ledger.AllTxIds(txs);
    Ledger.MatchingIncreasing(txs, all, Ledger.PaidTo(me));
    IncreasingEqual(Ledger.MatchingIds(txs, all, Ledger.PaidTo(me)), ids);
    SumMatching(txs, all, me);
    SumLatest(txs, ids);
  }

  lemma AmountsSnoc(txs: map<Id, Transaction>, ids: seq<Id>, k: Id)
    requires k in txs && forall j :: j in ids ==> j in txs
    ensures Amounts(txs, ids + [k]) == Amounts(txs, ids) + [txs[k].amount]
  {
    var a, b := Amounts(txs, ids + [k]), Amounts(txs, ids) + [txs[k].amount];
    assert |a| == |b|;
    forall i | 0 <= i < |a|
      ensures a[i] == b[i]
    {
      assert (ids + [k])[i] == if i < |ids| then ids[i] else k;
    }
  }

  lemma SumSnoc(xs: seq<int>, x: int)
    ensures Sum(xs + [x]) == Sum(xs) + x
  {
    assert (xs + [x])[..|xs|] == xs;
  }

  /** The `$sum` of the amounts paid to a user is the plain sum over the
      matching transactions, in list order. */
  lemma {:induction false} SumMatching(txs: map<Id, Transaction>, ids: seq<Id>, me: Id)
    requires forall i :: 0 <= i < |ids| ==> ids[i] in txs
    ensures Ledger.AmountOver(txs, ids, Ledger.PaidTo(me)) ==
      Sum(Amounts(txs, Ledger.MatchingIds(txs, ids, Ledger.PaidTo(me))))
  {
    if ids != [] {
      var init := ids[..|ids| - 1];
      var last := ids[|ids| - 1];
      SumMatching(txs, init, me);
      var r := Ledger.MatchingIds(txs, init, Ledger.PaidTo(me));
      if Ledger.Matches(Ledger.PaidTo(me), txs[last]) {
        AmountsSnoc(txs, r, last);
        SumSnoc(Amounts(txs, r), txs[last].amount);
      }
    }
  }

  /** Listing newest first does not change the sum of the amounts. */
  lemma {:induction false} SumLatest(txs: map<Id, Transaction>, ids: seq<Id>)
    requires forall j :: j in ids ==> j in txs
    ensures Sum(Amounts(txs, Latest(ids, |ids|))) == Sum(Amounts(txs, ids))
  {
    if ids != [] {
      var init := ids[..|ids| - 1];
      var last := ids[|ids| - 1];
      assert ids == init + [last];
      assert Latest(ids, |ids|) == [last] + Latest(init, |init|);
      SumLatest(txs, init);
      LatestAll(init);
      SumFront(txs, last, Latest(init, |init|));
      AmountsSnoc(txs, init, last);
      SumSnoc(Amounts(txs, init), txs[last].amount);
    }
  }

  /** A new transaction comes last among those paid to its recipient and
      does not appear among anyone else's. */
  lemma PaidIdsInsert(txs: map<Id, Transaction>, me: Id, t: Transaction)
    ensures var k := NextId(txs);
      PaidIds(txs[k := t], me) == PaidIds(txs, me) + (if t.toUser == me then [k] else [])
  {
    var k := NextId(txs);
    var before := PaidIds(txs, me);
    var after := PaidIds(txs[k := t], me);
    var r := before + (if t.toUser == me then [k] else []);
    IncreasingSnoc(before, k);
    var txs' := txs[k := t];
    forall y
      ensures y in r <==> y in after
    {
      if y == k {
        assert k !in before;
        assert txs'[k] == t;
      } else {
        assert y in r <==> y in before;
        assert y in txs' <==> y in txs;
        assert y in txs ==> txs'[y] == txs[y];
      }
    }
    IncreasingEqual(r, after);
  }

  /** Recording a transaction paid to a user puts it first in their earnings
      and adds its amount to their total. */
  lemma PaymentCounts(db: Db, me: Id, t: Transaction)
    requires t.toUser == me
    ensures var db' := db.(transactions := db.transactions[NextId(db.transactions) := t]);
      var before := GetEarnings(db, me);
      var after := GetEarnings(db', me);
      && after.data == [NextId(db.transactions)] + before.data
      && after.count == before.count + 1
      && after.totalEarnings == before.totalEarnings + t.amount
  {
    var txs := db.transactions;
    PaidGrows(txs, me, t);
    EarningsUnfold(db, me);
    EarningsUnfold(db.(transactions := txs[NextId(txs) := t]), me);
  }

  /** A transaction paid to a user under a fresh id comes first in their
      newest-first list and adds its amount to the sum. */
  lemma PaidGrows(txs: map<Id, Transaction>, me: Id, t: Transaction)
    requires t.toUser == me
    ensures var k := NextId(txs);
      var ids := PaidIds(txs, me);
      var ids' := PaidIds(txs[k := t], me);
      var data := Latest(ids, |ids|);
      var data' := Latest(ids', |ids'|);
      && data' == [k] + data
      && Sum(Amounts(txs[k := t], data')) == Sum(Amounts(txs, data)) + t.amount
  {
    var k := NextId(txs);
    var ids := PaidIds(txs, me);
    var data := Latest(ids, |ids|);
    var ids' := PaidIds(txs[k := t], me);
    assert Latest(ids', |ids'|) == [k] + data by {
      PaidIdsInsert(txs, me, t);
      LatestSnoc(ids, k);
    }
    assert forall j :: j in data ==> j in txs by { LatestAll(ids); }
    SumGrows(txs, k, t, data);
  }

  /** The earnings, read off the newest-first list of paid transactions. */
  lemma EarningsUnfold(db: Db, me: Id)
    ensures var data := Latest(PaidIds(db.transactions, me), |PaidIds(db.transactions, me)|);
      GetEarnings(db, me) == Earnings(|data|, Sum(Amounts(db.transactions, data)), data)
  {
  }

  /** Storing a new transaction under a fresh id and listing it in front adds
      its amount to the sum. */
  lemma SumGrows(txs: map<Id, Transaction>, k: Id, t: Transaction, data: seq<Id>)
    requires k !in txs && forall j :: j in data ==> j in txs
    ensures Sum(Amounts(txs[k := t], [k] + data)) == t.amount + Sum(Amounts(txs, data))
  {
    var txs' := txs[k := t];
    AmountsFrame(txs, txs', data);
    SumFront(txs', k, data);
  }

  /** The sum over a list with one more transaction in front. */
  lemma SumFront(txs: map<Id, Transaction>, k: Id, ids: seq<Id>)
    requires k in txs && forall j :: j in ids ==> j in txs
    ensures Sum(Amounts(txs, [k] + ids)) == txs[k].amount + Sum(Amounts(txs, ids))
  {
    var rest := Amounts(txs, ids);
    assert ([k] + ids)[1..] == ids;
    assert Amounts(txs, [k] + ids) == [txs[k].amount] + rest;
    SumAppend([txs[k].amount], rest);
    assert Sum([txs[k].amount]) == txs[k].amount by {
      assert [txs[k].amount][..0] == [];
    }
  }

  /** A transaction paid to someone else leaves a user's earnings as they
      were. */
  lemma OtherPaymentIgnored(db: Db, me: Id, t: Transaction)
    requires t.toUser != me
    ensures GetEarnings(db.(transactions := db.transactions[NextId(db.transactions) := t]), me) == GetEarnings(db, me)
  {
    var txs := db.transactions;
    var txs' := txs[NextId(txs) := t];
    var db' := db.(transactions := txs');
    PaidIdsInsert(txs, me, t);
    var ids := PaidIds(txs, me);
    assert PaidIds(txs', me) == ids + [] == ids;
    var data := Latest(ids, |ids|);
    assert GetEarnings(db, me) == Earnings(|data|, Sum(Amounts(txs, data)), data);
    assert GetEarnings(db', me) == Earnings(|data|, Sum(Amounts(txs', data)), data);
    AmountsFrame(txs, txs', data);
  }

  /** The amounts only depend on the listed transactions. */
  lemma {:induction false} AmountsFrame(txs: map<Id, Transaction>, txs': map<Id, Transaction>, ids: seq<Id>)
    requires forall k :: k in ids ==> k in txs && k in txs' && txs[k] == txs'[k]
    ensures Amounts(txs, ids) == Amounts(txs', ids)
  {
    if ids != [] {
      AmountsFrame(txs, txs', ids[1..]);
    }
  }

  /** A tip raises the creator's earnings by exactly its amount. */
  lemma TipPaysCreator(db: Db, me: Id, creatorId: Option<Id>, amount: Option<int>,
                       paymentIntentId: Option<string>, today: int)
    requires CreateTipOutcome(db, me, creatorId, amount, paymentIntentId, today).reply.Ok?
    ensures var db' := CreateTipOutcome(db, me, creatorId, amount, paymentIntentId, today).db;
      && GetEarnings(db', creatorId.value).count == GetEarnings(db, creatorId.value).count + 1
      && GetEarnings(db', creatorId.value).totalEarnings == GetEarnings(db, creatorId.value).totalEarnings + amount.value
  {
    PaymentCounts(db, creatorId.value, TipRecord(me, creatorId.value, amount.value, paymentIntentId.value, today));
  }

  /** A purchase raises the seller's earnings by exactly the item's price. */
  lemma PurchasePaysCreator(db: Db, me: Id, itemId: Id, paymentIntentId: Option<string>, today: int)
    requires PurchaseOutcome(db, me, itemId, paymentIntentId, today).reply.Ok?
    ensures var db' := PurchaseOutcome(db, me, itemId, paymentIntentId, today).db;
      var seller := db.items[itemId].creator;
      && GetEarnings(db', seller).count == GetEarnings(db, seller).count + 1
      && GetEarnings(db', seller).totalEarnings == GetEarnings(db, seller).totalEarnings + db.items[itemId].price
  {
    var t := PurchaseRecord(me, itemId, db.items[itemId], paymentIntentId.value, today);
    var seller := db.items[itemId].creator;
    PaymentCounts(db, seller, t);
    var db1 := db.(transactions := db.transactions[NextId(db.transactions) := t]);
    var db' := PurchaseOutcome(db, me, itemId, paymentIntentId, today).db;
    assert db'.transactions == db1.transactions;
    assert GetEarnings(db', seller) == GetEarnings(db1, seller);
  }
}
