/**
 * The order lifecycle over a store of orders and user accounts:
 * `POST /` of Backend/routes/orders.js (creation from the catalog),
 * `POST /process` of Backend/routes/payments.js (payment and top-up),
 * and `PUT /orders/:id/status` and `GET /stats` of Backend/routes/admin.js.
 */
module OrderService {
  import opened Common
  import opened Orders

  /** A catalog package as the game document holds it. */
  datatype CatalogPackage = CatalogPackage(
    name: string, amount: real, price: real, currency: string, isPopular: bool)

  datatype Game = Game(name: string, isActive: bool, packages: seq<CatalogPackage>)

  /** The fields of a user account that this core reads or writes. */
  datatype Account = Account(role: string, totalSpent: real)

  function Snapshot(p: CatalogPackage): PackageSnapshot
  {
    PackageSnapshot(p.name, p.amount, p.price)
  }

  datatype CreateError = GameNotFound | PackageNotFound | Rejected(e: SaveError) | DuplicateOrderNumber

  /** The outcome of the payment collaborator. */
  datatype PaymentOutcome = Paid(transactionId: string) | Declined(error: string)

  /** The outcome of the game top-up collaborator. */
  datatype TopupOutcome = ToppedUp | TopupFailed(error: string)

  /** The mock `processPayment`: always succeeds, with `"TXN" + Date.now()`. */
  function MockProcessPayment(now: nat): (r: PaymentOutcome)
    ensures r.Paid? && |r.transactionId| > 3 && r.transactionId[..3] == "TXN"
    ensures forall i :: 3 <= i < |r.transactionId| ==> IsDigit(r.transactionId[i])
    ensures ParseDigits(r.transactionId[3..]) == now
  {
    var digits := NatToString(now);
    assert ("TXN" + digits)[3..] == digits;
    ParseNatToString(now);
    Paid("TXN" + digits)
  }

  datatype PaymentReply =
    | PaymentAccepted(order: Order, toppedUp: bool)   // 200, whatever the top-up did
    | PaymentRefused(order: Order, error: string)     // 400

  datatype LookupError = OrderNotFound

  datatype AdminError = NoSuchOrder | InvalidStatus | OwnerMissing

  // ---------------------------------------------------------------------
  // The order state each route leaves behind
  // ---------------------------------------------------------------------

  /** After a successful payment: processing, paid, with the transaction id. */
  function AfterPayment(o: Order, txn: string): Order
  {
    o.(status := Processing, paymentStatus := Some("paid"), transactionId := Some(txn))
  }

  /** The order `/process` leaves behind, from whatever status it had. */
  function Processed(o: Order, payment: PaymentOutcome, topup: TopupOutcome, now: int): (r: Order)
    ensures r == o.(status := r.status, paymentStatus := r.paymentStatus, transactionId := r.transactionId,
                    failureReason := r.failureReason, completedAt := r.completedAt)
    ensures r.status == Completed <==> payment.Paid? && topup.ToppedUp?
    ensures r.status == Failed <==> payment.Declined? || topup.TopupFailed?
    ensures r.status == Completed ==> r.completedAt == Some(now)
    ensures payment.Paid? ==> r.paymentStatus == Some("paid") && r.transactionId == Some(payment.transactionId)
    ensures payment.Declined? ==> r.paymentStatus == o.paymentStatus && r.transactionId == o.transactionId
    ensures payment.Declined? ==> r.failureReason == Some(payment.error)
    ensures payment.Paid? && topup.TopupFailed? ==> r.failureReason == Some(topup.error)
    ensures r.status == Completed ==> r.failureReason == o.failureReason
    ensures r.status == Failed ==> r.completedAt == o.completedAt
  {
    match payment
    case Paid(txn) =>
      var p := AfterPayment(o, txn);
      if topup.ToppedUp? then p.(status := Completed, completedAt := Some(now))
      else p.(status := Failed, failureReason := Some(topup.error))
    case Declined(err) => o.(status := Failed, failureReason := Some(err))
  }

  /**
   * The order as Mongoose stores it under the schema as written:
   * `paymentStatus`, `transactionId` and `failureReason` are not declared
   * paths, so strict mode leaves them out of the saved document.
   */
  function PersistedAsWritten(o: Order): (r: Order)
    ensures r.paymentStatus.None? && r.transactionId.None? && r.failureReason.None?
    ensures r.(paymentStatus := o.paymentStatus, transactionId := o.transactionId,
               failureReason := o.failureReason) == o
  {
    o.(paymentStatus := None, transactionId := None, failureReason := None)
  }

  /**
   * As written, the transaction id of a paid order and the reason of a
   * failed one are lost on save, although the route sets both; with the
   * paths declared, `Processed` keeps them.
   */
  lemma PaymentFieldsLostAsWritten(o: Order, txn: string, err: string, topup: TopupOutcome, now: int)
    ensures Processed(o, Paid(txn), topup, now).transactionId == Some(txn)
    ensures PersistedAsWritten(Processed(o, Paid(txn), topup, now)).transactionId.None?
    ensures Processed(o, Declined(err), topup, now).failureReason == Some(err)
    ensures PersistedAsWritten(Processed(o, Declined(err), topup, now)).failureReason.None?
  {
  }

  // ---------------------------------------------------------------------
  // GET /stats
  // ---------------------------------------------------------------------

  function Contribution(o: Order): real
  {
    if o.status == Completed then o.finalAmount else 0.0
  }

  /** `$sum` of `finalAmount` over completed orders; `|| 0` makes the empty case 0. */
  function Revenue(orders: seq<Order>): (r: real)
    ensures r != 0.0 ==> exists i :: 0 <= i < |orders| && orders[i].status == Completed
  {
    if orders == [] then 0.0 else Revenue(orders[..|orders| - 1]) + Contribution(orders[|orders| - 1])
  }

  lemma {:induction false} RevenueZero(orders: seq<Order>)
    requires forall i :: 0 <= i < |orders| ==> orders[i].status != Completed
    ensures Revenue(orders) == 0.0
  {
    if orders != [] {
      RevenueZero(orders[..|orders| - 1]);
    }
  }

  lemma {:induction false} RevenueNonNegative(orders: seq<Order>)
    requires forall i :: 0 <= i < |orders| ==> orders[i].finalAmount >= 0.0
    ensures Revenue(orders) >= 0.0
  {
    if orders != [] {
      RevenueNonNegative(orders[..|orders| - 1]);
    }
  }

  lemma RevenueAppend(orders: seq<Order>, o: Order)
    ensures Revenue(orders + [o]) == Revenue(orders) + Contribution(o)
  {
    assert (orders + [o])[..|orders|] == orders;
  }

  /** Replacing one order changes the revenue by the change in that order's contribution. */
  lemma {:induction false} RevenueUpdate(orders: seq<Order>, i: nat, o: Order)
    requires i < |orders|
    ensures Revenue(orders[i := o]) == Revenue(orders) - Contribution(orders[i]) + Contribution(o)
  {
    var n := |orders|;
    var front := orders[..n - 1];
    if i == n - 1 {
      assert orders[i := o][..n - 1] == front;
    } else {
      RevenueUpdate(front, i, o);
      assert orders[i := o][..n - 1] == front[i := o];
    }
  }

  /** `countDocuments({ role })`: the number of accounts with that role. */
  function CountRole(users: map<UserId, Account>, role: string): (n: nat)
    ensures n <= |users|
    ensures n == 0 <==> forall u :: u in users ==> users[u].role != role
  {
    var matching := set u | u in users && users[u].role == role;
    SubsetCardinality(matching, users.Keys);
    assert |users.Keys| == |users|;
    assert forall u :: u in users && users[u].role == role ==> u in matching;
    assert |matching| == 0 ==> matching == {};
    assert matching != {} ==> |matching| != 0;
    |matching|
  }

  /** A new account adds one to its own role's count and nothing to any other. */
  lemma CountRoleInsert(users: map<UserId, Account>, k: UserId, a: Account, role: string)
    requires k !in users
    ensures CountRole(users[k := a], role) == CountRole(users, role) + (if a.role == role then 1 else 0)
  {
    var before := set u | u in users && users[u].role == role;
    var grown := users[k := a];
    var after := set u | u in grown && grown[u].role == role;
    if a.role == role {
      assert after == before + {k};
    } else {
      assert after == before;
    }
  }

  lemma {:induction false} SubsetCardinality<T>(a: set<T>, b: set<T>)
    requires a <= b
    ensures |a| <= |b|
  {
    if a != {} {
      var x :| x in a;
      SubsetCardinality(a - {x}, b - {x});
    }
  }

  datatype StatsReport = StatsReport(totalUsers: nat, totalOrders: nat, totalRevenue: real)

  /** The dashboard: users with role 'user', all orders, revenue of completed ones. */
  function Stats(orders: seq<Order>, users: map<UserId, Account>): (r: StatsReport)
    ensures r.totalUsers == CountRole(users, "user") && r.totalUsers <= |users|
    ensures r.totalOrders == |orders|
    ensures r.totalRevenue == Revenue(orders)
  {
    StatsReport(CountRole(users, "user"), |orders|, Revenue(orders))
  }

  // ---------------------------------------------------------------------
  // The store
  // ---------------------------------------------------------------------

  class OrderStore {
    var orders: seq<Order>
    var users: map<UserId, Account>

    /** Each order's id is its position; orders are never removed. */
    predicate Valid()
      reads this
    {
      forall i :: 0 <= i < |orders| ==> orders[i].id == i
    }

    constructor (accounts: map<UserId, Account>)
      ensures Valid() && orders == [] && users == accounts
    {
      orders := [];
      users := accounts;
    }

    /** `findById`: the order with that id, if any. */
    function Find(id: OrderId): (r: Option<Order>)
      reads this
      requires Valid()
      ensures r.Some? <==> exists i :: 0 <= i < |orders| && orders[i].id == id
      ensures r.Some? ==> r.value.id == id && r.value in orders
    {
      if id < |orders| then Some(orders[id]) else None
    }

    /**
     * `POST /`: look the game up (it must exist and be active), pick the
     * package by index, snapshot it, price the order at the package price
     * and save it. Nothing is stored unless every step succeeds.
     */
    method CreateOrder(caller: UserId, games: map<GameId, Game>, gameId: GameId, packageIndex: int,
                       gameAccount: map<string, string>, paymentMethod: string, now: nat)
      returns (r: Result<Order, CreateError>)
      requires Valid()
      modifies this
      ensures Valid() && users == old(users)
      ensures r.Err? ==> orders == old(orders)
      ensures (gameId !in games || !games[gameId].isActive) ==> r == Err(GameNotFound)
      ensures (gameId in games && games[gameId].isActive
               && !(0 <= packageIndex < |games[gameId].packages|)) ==> r == Err(PackageNotFound)
      ensures (gameId in games && games[gameId].isActive && 0 <= packageIndex < |games[gameId].packages|
               && ParseMethod(paymentMethod).None?) ==> r == Err(Rejected(ValidationFailed))
      ensures r.Ok? ==>
        var pkg := games[gameId].packages[packageIndex];
        && gameId in games && games[gameId].isActive
        && 0 <= packageIndex < |games[gameId].packages|
        && orders == old(orders) + [r.value]
        && r.value.id == |old(orders)|
        && r.value.orderNumber == OrderNumber(now, |old(orders)|)
        && r.value.user == caller && r.value.game == gameId
        && r.value.package == PackageSnapshot(pkg.name, pkg.amount, pkg.price)
        && r.value.totalAmount == pkg.price && r.value.finalAmount == pkg.price
        && r.value.status == Pending && MethodName(r.value.paymentMethod) == paymentMethod
        && r.value.gameAccount == gameAccount
        && r.value.paymentStatus.None? && r.value.transactionId.None?
        && r.value.failureReason.None? && r.value.completedAt.None?
      ensures (&& gameId in games && games[gameId].isActive
               && 0 <= packageIndex < |games[gameId].packages|
               && ParseMethod(paymentMethod).Some?
               && forall i :: 0 <= i < |old(orders)| ==> old(orders)[i].orderNumber != OrderNumber(now, |old(orders)|))
              ==> r.Ok?
      ensures r == Err(DuplicateOrderNumber) <==>
        && gameId in games && games[gameId].isActive
        && 0 <= packageIndex < |games[gameId].packages|
        && ParseMethod(paymentMethod).Some?
        && exists i :: 0 <= i < |old(orders)| && old(orders)[i].orderNumber == OrderNumber(now, |old(orders)|)
    {
      if gameId !in games || !games[gameId].isActive {
        return Err(GameNotFound);
      }
      var game := games[gameId];
      if !(0 <= packageIndex < |game.packages|) {
        return Err(PackageNotFound);
      }
      var selected := game.packages[packageIndex];
      var draft := Draft("", caller, gameId, Snapshot(selected), gameAccount, paymentMethod,
                         selected.price, selected.price);
      var count := |orders|;
      var saved := SaveNew(draft, count, now, count);
      if saved.Err? {
        return Err(Rejected(saved.error));
      }
      var o := saved.value;
      SaveNewStores(draft, count, now, count);
      if exists i :: 0 <= i < |orders| && orders[i].orderNumber == o.orderNumber {
        // the unique index on orderNumber refuses the insert
        return Err(DuplicateOrderNumber);
      }
      orders := orders + [o];
      r := Ok(o);
    }

    /**
     * `POST /process`: with the payment outcome and the top-up outcome
     * given, drive the order to processing and then to completed or
     * failed, or straight to failed when payment is declined. The prior
     * status is not checked.
     */
    method ProcessPayment(orderId: OrderId, payment: PaymentOutcome, topup: TopupOutcome, now: int)
      returns (r: Result<PaymentReply, LookupError>)
      requires Valid()
      modifies this
      ensures Valid() && users == old(users) && |orders| == |old(orders)|
      ensures old(Find(orderId)).None? ==> r == Err(OrderNotFound) && orders == old(orders)
      ensures old(Find(orderId)).Some? ==>
        var o := old(Find(orderId)).value;
        var o' := Processed(o, payment, topup, now);
        && orders == old(orders)[orderId := o']
        && (payment.Paid? ==> r == Ok(PaymentAccepted(o', topup.ToppedUp?)))
        && (payment.Declined? ==> r == Ok(PaymentRefused(o', payment.error)))
    {
      if orderId >= |orders| {
        return Err(OrderNotFound);
      }
      var order := orders[orderId];
      match payment {
        case Paid(txn) =>
          order := order.(status := Processing, paymentStatus := Some("paid"), transactionId := Some(txn));
          orders := orders[orderId := order];
          if topup.ToppedUp? {
            order := order.(status := Completed, completedAt := Some(now));
          } else {
            order := order.(status := Failed, failureReason := Some(topup.error));
          }
          orders := orders[orderId := order];
          r := Ok(PaymentAccepted(order, topup.ToppedUp?));
        case Declined(err) =>
          order := order.(status := Failed, failureReason := Some(err));
          orders := orders[orderId := order];
          r := Ok(PaymentRefused(order, err));
      }
    }

    /**
     * `PUT /orders/:id/status`: set the status to the requested value with
     * no transition check; on "completed" stamp `completedAt` and credit
     * the owner's `totalSpent` with the order's `finalAmount`, every time.
     */
    method UpdateStatus(orderId: OrderId, status: string, now: int) returns (r: Result<Order, AdminError>)
      requires Valid()
      modifies this
      ensures Valid() && |orders| == |old(orders)|
      ensures r.Err? ==> orders == old(orders) && users == old(users)
      ensures old(Find(orderId)).None? ==> r == Err(NoSuchOrder)
      ensures old(Find(orderId)).Some? && ParseStatus(status).None? ==> r == Err(InvalidStatus)
      ensures (old(Find(orderId)).Some? && ParseStatus(status).Some?
               && (status == "completed" ==> old(orders)[orderId].user in old(users))) ==> r.Ok?
      ensures old(Find(orderId)).Some? && status == "completed" && old(orders)[orderId].user !in old(users)
              ==> r == Err(OwnerMissing)
      ensures r.Ok? ==>
        var o := old(orders)[orderId];
        && orderId < |old(orders)|
        && ParseStatus(status).Some?
        && StatusName(r.value.status) == status
        && orders == old(orders)[orderId := r.value]
        && r.value == o.(status := r.value.status, completedAt := r.value.completedAt)
        && (status == "completed" ==>
              && o.user in old(users)
              && r.value.completedAt == Some(now)
              && users == old(users)[o.user := old(users)[o.user].(totalSpent := old(users)[o.user].totalSpent + o.finalAmount)])
        && (status != "completed" ==> r.value.completedAt == o.completedAt && users == old(users))
    {
      if orderId >= |orders| {
        return Err(NoSuchOrder);
      }
      var order := orders[orderId];
      var parsed := ParseStatus(status);
      if parsed.None? {
        // order.save() fails the enum validator; nothing is written
        return Err(InvalidStatus);
      }
      order := order.(status := parsed.value);
      if status == "completed" {
        order := order.(completedAt := Some(now));
        if order.user !in users {
          // User.findById yields null and `user.totalSpent` throws
          return Err(OwnerMissing);
        }
        var account := users[order.user];
        users := users[order.user := account.(totalSpent := account.totalSpent + order.finalAmount)];
      }
      orders := orders[orderId := order];
      r := Ok(order);
    }
  }

  /** Marking an order completed twice credits its owner twice. */
  method CompletingTwiceCreditsTwice(store: OrderStore, orderId: OrderId, now: int)
    requires store.Valid() && orderId < |store.orders| && store.orders[orderId].user in store.users
    modifies store
    ensures var owner := old(store.orders[orderId].user);
      owner in store.users &&
      store.users[owner].totalSpent
        == old(store.users[owner].totalSpent) + 2.0 * old(store.orders[orderId].finalAmount)
  {
    ghost var owner := store.orders[orderId].user;
    ghost var amount := store.orders[orderId].finalAmount;
    ghost var before := store.users[owner].totalSpent;
    var first := store.UpdateStatus(orderId, "completed", now);
    assert first.Ok?;
    assert store.orders[orderId].user == owner && store.orders[orderId].finalAmount == amount;
    assert store.users[owner].totalSpent == before + amount;
    var second := store.UpdateStatus(orderId, "completed", now);
    assert second.Ok?;
  }

  /**
   * Completing an order that was not completed raises the revenue on the
   * dashboard by its `finalAmount`; completing it again leaves the revenue
   * as it was, although the owner is credited again.
   */
  lemma RevenueAfterCompletion(orders: seq<Order>, i: nat, now: int)
    requires i < |orders|
    ensures var done := orders[i].(status := Completed, completedAt := Some(now));
      Revenue(orders[i := done])
        == Revenue(orders) + (if orders[i].status == Completed then 0.0 else orders[i].finalAmount)
  {
    RevenueUpdate(orders, i, orders[i].(status := Completed, completedAt := Some(now)));
  }
}
