/**
 * The write side of the promo engine: `POST /use` of
 * Backend/routes/promo.js appends one PromoCodeUsage record and bumps
 * the promo's `usageCount`, without re-checking any limit. The store
 * holds the promo table and the usage ledger.
 */
module PromoLedger {
  import opened Common
  import opened PromoCodes
  import opened Promo
  import Orders

  /** `PromoCode.increment('usageCount', { where: { id } })`. */
  function IncrementUsage(t: seq<PromoCode>, id: PromoId): (r: seq<PromoCode>)
    ensures |r| == |t|
    ensures forall i :: 0 <= i < |t| && t[i].id == id ==>
      r[i] == t[i].(usageCount := t[i].usageCount + 1)
    ensures forall i :: 0 <= i < |t| && t[i].id != id ==> r[i] == t[i]
  {
    seq(|t|, i requires 0 <= i < |t| =>
      if t[i].id == id then t[i].(usageCount := t[i].usageCount + 1) else t[i])
  }

  /** Bumping a counter keeps every column constraint and both unique keys. */
  lemma IncrementKeepsTableValid(t: seq<PromoCode>, id: PromoId)
    requires ValidTable(t)
    ensures ValidTable(IncrementUsage(t, id))
  {
    var r := IncrementUsage(t, id);
    forall i | 0 <= i < |r| ensures ValidPromo(r[i]) {
      assert ValidPromo(t[i]);
    }
  }

  /**
   * Incrementing a counter does not move any row in or out of a lookup:
   * the same row position is found, with its counter bumped if it is the
   * incremented promo.
   */
  lemma {:induction false} IncrementKeepsFind(t: seq<PromoCode>, id: PromoId, code: string, now: int, from: nat)
    requires from <= |t|
    ensures FindFrom(IncrementUsage(t, id), code, now, from) == FindFrom(t, code, now, from)
    decreases |t| - from
  {
    if from < |t| {
      var r := IncrementUsage(t, id);
      assert Matches(r[from], code, now) == Matches(t[from], code, now);
      IncrementKeepsFind(t, id, code, now, from + 1);
    }
  }

  datatype UseError =
    | IncompleteRequest  // 400: promoCodeId or orderId falsy, or discountAmount undefined
    | OrderNotFound      // 404: no order with that id belonging to the caller
    | InsertFailed       // 500: the usage row fails its validator or its promo foreign key

  predicate OwnsOrder(orders: seq<Orders.Order>, id: OrderId, user: UserId)
  {
    exists o :: o in orders && o.id == id && o.user == user
  }

  predicate PromoExists(t: seq<PromoCode>, id: PromoId)
  {
    exists p :: p in t && p.id == id
  }

  class PromoStore {
    var promos: seq<PromoCode>
    var usages: seq<UsageRecord>

    constructor (table: seq<PromoCode>)
      ensures promos == table && usages == []
    {
      promos := table;
      usages := [];
    }

    /** `POST /validate` against the current state. Changes nothing. */
    function ValidateNow(user: UserId, code: Option<string>, game: Option<GameId>,
                         amount: Option<real>, now: int): (r: Validation)
      reads this
      ensures r.Approved? ==> r.promo in promos && InputsPresent(code, game, amount)
      ensures r.Approved? ==> r.quote.discountAmount == Discount(r.promo, amount.value)
    {
      Validate(promos, usages, user, code, game, amount, now)
    }

    /**
     * `POST /use`: after the presence checks and the ownership check on
     * the order, insert the usage row and increment the promo's counter.
     * No usage limit, date window or active flag is consulted.
     */
    method Use(orders: seq<Orders.Order>, user: UserId, promoCodeId: Option<PromoId>,
               orderId: Option<OrderId>, discountAmount: Option<real>, now: int)
      returns (r: Result<UsageRecord, UseError>)
      modifies this
      ensures r.Err? ==> promos == old(promos) && usages == old(usages)
      ensures (promoCodeId.None? || orderId.None? || discountAmount.None?) ==> r == Err(IncompleteRequest)
      ensures (promoCodeId.Some? && orderId.Some? && discountAmount.Some?
               && !OwnsOrder(orders, orderId.value, user)) ==> r == Err(OrderNotFound)
      ensures (&& promoCodeId.Some? && orderId.Some? && discountAmount.Some?
               && OwnsOrder(orders, orderId.value, user)
               && !(discountAmount.value >= 0.0 && PromoExists(old(promos), promoCodeId.value)))
              ==> r == Err(InsertFailed)
      ensures r.Ok? <==>
        && promoCodeId.Some? && orderId.Some? && discountAmount.Some?
        && OwnsOrder(orders, orderId.value, user)
        && discountAmount.value >= 0.0
        && PromoExists(old(promos), promoCodeId.value)
      ensures r.Ok? ==>
        && r.value == UsageRecord(promoCodeId.value, user, orderId.value, discountAmount.value, now)
        && usages == old(usages) + [r.value]
        && promos == IncrementUsage(old(promos), promoCodeId.value)
    {
      if promoCodeId.None? || orderId.None? || discountAmount.None? {
        return Err(IncompleteRequest);
      }
      if !OwnsOrder(orders, orderId.value, user) {
        return Err(OrderNotFound);
      }
      var record := UsageRecord(promoCodeId.value, user, orderId.value, discountAmount.value, now);
      if !ValidUsage(record) || !PromoExists(promos, promoCodeId.value) {
        return Err(InsertFailed);
      }
      usages := usages + [record];
      promos := IncrementUsage(promos, promoCodeId.value);
      r := Ok(record);
    }
  }

  /**
   * `/use` records exactly one redemption: the (user, promo) pair it names
   * gains one use and every other pair keeps its count.
   */
  lemma UseCountsOnce(ledger: seq<UsageRecord>, rec: UsageRecord, user: UserId, promo: PromoId)
    ensures CountUses(ledger + [rec], rec.userId, rec.promoCodeId) == CountUses(ledger, rec.userId, rec.promoCodeId) + 1
    ensures (user != rec.userId || promo != rec.promoCodeId) ==>
      CountUses(ledger + [rec], user, promo) == CountUses(ledger, user, promo)
  {
    CountUsesAppend(ledger, rec, rec.userId, rec.promoCodeId);
    CountUsesAppend(ledger, rec, user, promo);
  }

  /**
   * A single-use promo: once a user's redemption of an approved code is
   * recorded, validating the same code again for that user is refused,
   * by the global cap if the redemption used it up, else by the per-user cap.
   */
  lemma SecondRedemptionRefused(t: seq<PromoCode>, ledger: seq<UsageRecord>, user: UserId,
                                code: string, game: GameId, amount: real, now: int,
                                order: OrderId, at: int)
    requires ValidTable(t)
    requires Validate(t, ledger, user, Some(code), Some(game), Some(amount), now).Approved?
    requires Validate(t, ledger, user, Some(code), Some(game), Some(amount), now).promo.userUsageLimit == 1
    ensures var p := Validate(t, ledger, user, Some(code), Some(game), Some(amount), now).promo;
      var d := Validate(t, ledger, user, Some(code), Some(game), Some(amount), now).quote.discountAmount;
      var t' := IncrementUsage(t, p.id);
      var ledger' := ledger + [UsageRecord(p.id, user, order, d, at)];
      Validate(t', ledger', user, Some(code), Some(game), Some(amount), now)
        in {Rejected(UsageLimitReached), Rejected(UserLimitReached)}
  {
    var v := Validate(t, ledger, user, Some(code), Some(game), Some(amount), now);
    var p := v.promo;
    var t' := IncrementUsage(t, p.id);
    var rec := UsageRecord(p.id, user, order, v.quote.discountAmount, at);
    var key := ToUpper(code);
    var i := FindFrom(t, key, now, 0).value;
    IncrementKeepsFind(t, p.id, key, now, 0);
    assert Lookup(t', key, now) == Some(t'[i]);
    assert t'[i] == p.(usageCount := p.usageCount + 1);
    UseCountsOnce(ledger, rec, user, p.id);
    assert CountUses(ledger + [rec], user, p.id) >= 1;
  }

  /**
   * The client flow against the store: a quote from `/validate`, its
   * redemption through `/use` on an order the user owns, then the same
   * quote request again, which a single-use-per-user promo refuses.
   */
  method RedeemThenRevalidate(store: PromoStore, orders: seq<Orders.Order>, user: UserId, code: string,
                              game: GameId, amount: real, order: OrderId, now: int, at: int)
    requires ValidTable(store.promos)
    requires store.ValidateNow(user, Some(code), Some(game), Some(amount), now).Approved?
    requires store.ValidateNow(user, Some(code), Some(game), Some(amount), now).promo.userUsageLimit == 1
    requires OwnsOrder(orders, order, user)
    modifies store
    ensures store.ValidateNow(user, Some(code), Some(game), Some(amount), now)
            in {Rejected(UsageLimitReached), Rejected(UserLimitReached)}
  {
    var v := store.ValidateNow(user, Some(code), Some(game), Some(amount), now);
    ghost var t, ledger := store.promos, store.usages;
    ApprovedDiscountRecordable(t, ledger, user, Some(code), Some(game), Some(amount), now);
    var r := store.Use(orders, user, Some(v.promo.id), Some(order), Some(v.quote.discountAmount), at);
    assert r.Ok?;
    SecondRedemptionRefused(t, ledger, user, code, game, amount, now, order, at);
  }

  /**
   * Because `/use` does not re-check the cap, a promo whose counter has
   * reached its limit is still redeemed, and its stored counter then
   * exceeds the limit.
   */
  method UseCanExceedUsageLimit(store: PromoStore, orders: seq<Orders.Order>, user: UserId, i: nat,
                                order: OrderId, discount: real, now: int)
    requires i < |store.promos| && store.promos[i].usageLimit.Some?
    requires store.promos[i].usageCount == store.promos[i].usageLimit.value
    requires OwnsOrder(orders, order, user) && discount >= 0.0
    modifies store
    ensures i < |store.promos| && store.promos[i].id == old(store.promos[i].id)
    ensures store.promos[i].usageCount == old(store.promos[i].usageCount) + 1
    ensures store.promos[i].usageLimit == old(store.promos[i].usageLimit)
    ensures store.promos[i].usageCount > old(store.promos[i].usageLimit.value)
  {
    var p := store.promos[i];
    var r := store.Use(orders, user, Some(p.id), Some(order), Some(discount), now);
    assert r.Ok?;
  }

  // ---------------------------------------------------------------------
  // Rows of the seed data, as worked examples
  // ---------------------------------------------------------------------

  /** 2025-01-01, 2025-06-30, 2025-12-31 at 00:00 UTC, and a day in March 2025, in milliseconds. */
  const Jan1: int := 1735689600000
  const Jun30: int := 1751241600000
  const Dec31: int := 1767139200000
  const Mar15: int := 1741996800000

  function Save15(): PromoCode
  {
    PromoCode(1, "SAVE15", "save 15%", "", Percentage, 15.0, 200.0, Some(500.0), Some(500), 0, 3, [],
              Jan1, Jun30, true)
  }

  function Fixed50(): PromoCode
  {
    PromoCode(2, "FIXED50", "50 off", "", FixedAmount, 50.0, 200.0, None, Some(200), 0, 2, [],
              Jan1, Dec31, true)
  }

  function Expired50(): PromoCode
  {
    PromoCode(3, "EXPIRED50", "expired", "", FixedAmount, 50.0, 100.0, None, Some(100), 0, 1, [],
              1733011200000, 1735603200000, false)
  }

  function Limit1(): PromoCode
  {
    PromoCode(4, "LIMIT1", "one use", "", FixedAmount, 25.0, 50.0, None, Some(1), 1, 1, [],
              Jan1, Dec31, true)
  }

  function Seeds(): seq<PromoCode>
  {
    [Save15(), Fixed50(), Expired50(), Limit1()]
  }

  /** SAVE15 on 1000: 15% is 150, under the 500 cap; final 850. Lower-case input works too. */
  lemma Save15Example(user: UserId, game: GameId)
    ensures Validate(Seeds(), [], user, Some("save15"), Some(game), Some(1000.0), Mar15)
            == Approved(Save15(), Quote("SAVE15", "save 15%", Percentage, 15.0, 150.0, 850.0))
  {
    assert ToUpper("save15") == "SAVE15";
    assert Matches(Save15(), "SAVE15", Mar15);
    assert FindFrom(Seeds(), "SAVE15", Mar15, 0) == Some(0);
  }

  /** FIXED50 on 30 is refused by its 200 minimum before any discount is computed. */
  lemma Fixed50BelowMinimum(user: UserId, game: GameId)
    ensures Validate(Seeds(), [], user, Some("FIXED50"), Some(game), Some(30.0), Mar15)
            == Rejected(BelowMinimum(200.0))
    ensures Discount(Fixed50(), 30.0) == 30.0
  {
    assert ToUpper("FIXED50") == "FIXED50";
    assert !Matches(Save15(), "FIXED50", Mar15);
    assert FindFrom(Seeds(), "FIXED50", Mar15, 1) == Some(1);
  }

  /** EXPIRED50 is inactive and past its window: invalid or expired. */
  lemma Expired50Refused(user: UserId, game: GameId)
    ensures Validate(Seeds(), [], user, Some("EXPIRED50"), Some(game), Some(500.0), Mar15)
            == Rejected(InvalidOrExpired)
  {
    assert ToUpper("EXPIRED50") == "EXPIRED50";
    assert forall p :: p in Seeds() && p.code == "EXPIRED50" ==> !Live(p, Mar15);
    NoLiveRowIsInvalid(Seeds(), [], user, "EXPIRED50", game, 500.0, Mar15);
  }

  /** LIMIT1 has used its single global redemption. */
  lemma Limit1Exhausted(user: UserId, game: GameId)
    ensures Validate(Seeds(), [], user, Some("LIMIT1"), Some(game), Some(100.0), Mar15)
            == Rejected(UsageLimitReached)
  {
    assert ToUpper("LIMIT1") == "LIMIT1";
    assert !Matches(Save15(), "LIMIT1", Mar15);
    assert !Matches(Fixed50(), "LIMIT1", Mar15);
    assert !Matches(Expired50(), "LIMIT1", Mar15);
    assert FindFrom(Seeds(), "LIMIT1", Mar15, 3) == Some(3);
  }
}
