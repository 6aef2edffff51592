/**
 * The read side of the promo engine (Backend/routes/promo.js): the
 * `POST /validate` check chain and discount computation, the `GET /`
 * listing of live promotions and the `GET /my-usage` history page.
 * All three only read the promo table and the usage ledger.
 */
module Promo {
  import opened Common
  import opened PromoCodes

  // ---------------------------------------------------------------------
  // Lookup: findOne({ code, isActive: true, startDate <= now, endDate >= now })
  // ---------------------------------------------------------------------

  /** The active flag and the inclusive date window. */
  predicate Live(p: PromoCode, now: int)
  {
    p.isActive && p.startDate <= now <= p.endDate
  }

  predicate Matches(p: PromoCode, code: string, now: int)
  {
    p.code == code && Live(p, now)
  }

  /** The first row at or after `from` that matches the lookup, if any. */
  function FindFrom(t: seq<PromoCode>, code: string, now: int, from: nat): (r: Option<nat>)
    requires from <= |t|
    ensures r.Some? ==> from <= r.value < |t| && Matches(t[r.value], code, now)
    ensures r.Some? ==> forall j :: from <= j < r.value ==> !Matches(t[j], code, now)
    ensures r.None? ==> forall j :: from <= j < |t| ==> !Matches(t[j], code, now)
    decreases |t| - from
  {
    if from == |t| then None
    else if Matches(t[from], code, now) then Some(from)
    else FindFrom(t, code, now, from + 1)
  }

  /** `PromoCode.findOne` on the code, the active flag and the date window. */
  function Lookup(t: seq<PromoCode>, code: string, now: int): (r: Option<PromoCode>)
    ensures r.Some? ==> r.value in t && Matches(r.value, code, now)
    ensures r.None? ==> forall i :: 0 <= i < |t| ==> !Matches(t[i], code, now)
  {
    match FindFrom(t, code, now, 0)
    case None => None
    case Some(i) => Some(t[i])
  }

  /** With unique codes the lookup finds a row exactly when that row matches. */
  lemma LookupFinds(t: seq<PromoCode>, code: string, now: int, p: PromoCode)
    requires UniqueCodes(t)
    ensures Lookup(t, code, now) == Some(p) <==> p in t && Matches(p, code, now)
  {
    var r := FindFrom(t, code, now, 0);
    if p in t && Matches(p, code, now) {
      var k :| 0 <= k < |t| && t[k] == p;
      assert r.Some?;
    }
  }

  lemma LookupNone(t: seq<PromoCode>, code: string, now: int)
    ensures Lookup(t, code, now).None? <==> forall p :: p in t ==> !Matches(p, code, now)
  {
    if Lookup(t, code, now).None? {
      forall p | p in t ensures !Matches(p, code, now) {
        var k :| 0 <= k < |t| && t[k] == p;
      }
    }
  }

  // ---------------------------------------------------------------------
  // PromoCodeUsage.count({ where: { promoCodeId, userId } })
  // ---------------------------------------------------------------------

  predicate IsUseOf(u: UsageRecord, user: UserId, promo: PromoId)
  {
    u.userId == user && u.promoCodeId == promo
  }

  /** The number of ledger entries of `user` for `promo`. */
  function CountUses(ledger: seq<UsageRecord>, user: UserId, promo: PromoId): (n: nat)
    ensures n <= |ledger|
  {
    if ledger == [] then 0
    else CountUses(ledger[..|ledger| - 1], user, promo)
         + (if IsUseOf(ledger[|ledger| - 1], user, promo) then 1 else 0)
  }

  /** The count is zero exactly when the user has never redeemed the promo. */
  lemma {:induction false} CountUsesZero(ledger: seq<UsageRecord>, user: UserId, promo: PromoId)
    ensures CountUses(ledger, user, promo) == 0
            <==> forall i :: 0 <= i < |ledger| ==> !IsUseOf(ledger[i], user, promo)
  {
    if ledger != [] {
      var front := ledger[..|ledger| - 1];
      CountUsesZero(front, user, promo);
      assert forall i :: 0 <= i < |front| ==> front[i] == ledger[i];
    }
  }

  /** Appending one record bumps exactly the count of its own (user, promo) pair. */
  lemma CountUsesAppend(ledger: seq<UsageRecord>, u: UsageRecord, user: UserId, promo: PromoId)
    ensures CountUses(ledger + [u], user, promo)
            == CountUses(ledger, user, promo) + (if IsUseOf(u, user, promo) then 1 else 0)
  {
    assert (ledger + [u])[..|ledger|] == ledger;
  }

  // ---------------------------------------------------------------------
  // Discount by promo type
  // ---------------------------------------------------------------------

  /** `maxDiscount` caps a percentage only when it is truthy (set and not zero). */
  predicate Capped(p: PromoCode)
  {
    p.maxDiscount.Some? && p.maxDiscount.value != 0.0
  }

  /**
   * The discount for `amount`. A percentage is capped by `maxDiscount`
   * only when that column is truthy; a fixed amount never exceeds the
   * amount; a bonus amount is the value itself, unclipped.
   */
  function Discount(p: PromoCode, amount: real): (d: real)
    ensures p.kind == Percentage ==> d <= amount * p.value / 100.0
    ensures (p.kind == Percentage && p.value >= 0.0 && amount >= 0.0
             && (p.maxDiscount.Some? ==> p.maxDiscount.value >= 0.0)) ==> 0.0 <= d
    ensures p.kind == Percentage && Capped(p) ==> d <= p.maxDiscount.value
    ensures p.kind == Percentage && !Capped(p) ==> d == amount * p.value / 100.0
    ensures p.kind == Percentage && Capped(p) ==> d == Min(amount * p.value / 100.0, p.maxDiscount.value)
    ensures p.kind == FixedAmount ==> d <= amount && d <= p.value && (d == amount || d == p.value)
    ensures p.kind == BonusAmount ==> d == p.value
  {
    match p.kind
    case Percentage =>
      var pct := amount * p.value / 100.0;
      if Capped(p) then Min(pct, p.maxDiscount.value) else pct
    case FixedAmount => Min(p.value, amount)
    case BonusAmount => p.value
  }

  /** Any discount of a valid promo on a positive amount satisfies the ledger's `discountAmount >= 0`. */
  lemma DiscountNonNegative(p: PromoCode, amount: real)
    requires ValidPromo(p) && amount > 0.0
    ensures Discount(p, amount) >= 0.0
  {
    if p.kind == Percentage {
      assert amount * p.value >= 0.0;
    }
  }

  // ---------------------------------------------------------------------
  // POST /validate
  // ---------------------------------------------------------------------

  datatype Rejection =
    | MissingFields             // 400: code, gameId or amount falsy
    | InvalidOrExpired          // 400: no live row with that code
    | BelowMinimum(minAmount: real)
    | GameNotApplicable
    | UsageLimitReached         // global cap
    | UserLimitReached          // per-user cap

  /** The `promo` object of a successful response. */
  datatype Quote = Quote(
    code: string, name: string, kind: PromoType, value: real,
    discountAmount: real, finalAmount: real)

  datatype Validation = Approved(promo: PromoCode, quote: Quote) | Rejected(reason: Rejection)

  predicate AppliesTo(p: PromoCode, game: GameId)
  {
    |p.applicableGames| == 0 || game in p.applicableGames
  }

  /** The global cap is in force only when `usageLimit` is truthy. */
  predicate GloballyExhausted(p: PromoCode)
  {
    TruthyInt(p.usageLimit) && p.usageCount >= p.usageLimit.value
  }

  predicate InputsPresent(code: Option<string>, game: Option<GameId>, amount: Option<real>)
  {
    PresentString(code) && game.Some? && TruthyNumber(amount)
  }

  /**
   * The early-return chain of `POST /validate`: inputs, lookup of the
   * upper-cased code, minimum amount, applicable games, global cap,
   * per-user cap, then the discount. Reads the table and the ledger only.
   */
  function Validate(t: seq<PromoCode>, ledger: seq<UsageRecord>, user: UserId,
                    code: Option<string>, game: Option<GameId>, amount: Option<real>,
                    now: int): (r: Validation)
    ensures !InputsPresent(code, game, amount) ==> r == Rejected(MissingFields)
    ensures r.Approved? ==>
      && InputsPresent(code, game, amount)
      && r.promo in t && Matches(r.promo, ToUpper(code.value), now)
      && amount.value >= r.promo.minAmount && AppliesTo(r.promo, game.value)
      && !GloballyExhausted(r.promo) && CountUses(ledger, user, r.promo.id) < r.promo.userUsageLimit
      && r.quote == Quote(r.promo.code, r.promo.name, r.promo.kind, r.promo.value,
                          Discount(r.promo, amount.value), amount.value - Discount(r.promo, amount.value))
  {
    if !InputsPresent(code, game, amount) then Rejected(MissingFields)
    else match Lookup(t, ToUpper(code.value), now)
      case None => Rejected(InvalidOrExpired)
      case Some(p) =>
        var a := amount.value;
        if a < p.minAmount then Rejected(BelowMinimum(p.minAmount))
        else if !AppliesTo(p, game.value) then Rejected(GameNotApplicable)
        else if GloballyExhausted(p) then Rejected(UsageLimitReached)
        else if CountUses(ledger, user, p.id) >= p.userUsageLimit then Rejected(UserLimitReached)
        else
          var d := Discount(p, a);
          Approved(p, Quote(p.code, p.name, p.kind, p.value, d, a - d))
  }

  /** Every check passes for this promo: the declarative statement of eligibility. */
  predicate Eligible(t: seq<PromoCode>, ledger: seq<UsageRecord>, user: UserId,
                     code: string, game: GameId, amount: real, now: int, p: PromoCode)
  {
    && p in t
    && Matches(p, ToUpper(code), now)
    && amount >= p.minAmount
    && AppliesTo(p, game)
    && !GloballyExhausted(p)
    && CountUses(ledger, user, p.id) < p.userUsageLimit
  }

  /**
   * Approval means eligibility, and eligibility means approval: the quote
   * carries the promo's own discount and `finalAmount = amount - discount`.
   */
  lemma ValidateApprovedIff(t: seq<PromoCode>, ledger: seq<UsageRecord>, user: UserId,
                            code: string, game: GameId, amount: real, now: int, p: PromoCode)
    requires UniqueCodes(t)
    requires code != "" && amount != 0.0
    ensures Validate(t, ledger, user, Some(code), Some(game), Some(amount), now).Approved?
            && Validate(t, ledger, user, Some(code), Some(game), Some(amount), now).promo == p
            <==> Eligible(t, ledger, user, code, game, amount, now, p)
    ensures Eligible(t, ledger, user, code, game, amount, now, p) ==>
      var q := Validate(t, ledger, user, Some(code), Some(game), Some(amount), now).quote;
      && q.discountAmount == Discount(p, amount)
      && q.finalAmount == amount - q.discountAmount
      && q.code == p.code
  {
    LookupFinds(t, ToUpper(code), now, p);
  }

  /** Missing inputs are refused before the table is consulted, whatever it holds. */
  lemma MissingInputsFirst(t: seq<PromoCode>, ledger: seq<UsageRecord>, user: UserId,
                           code: Option<string>, game: Option<GameId>, amount: Option<real>, now: int)
    requires code.None? || code == Some("") || game.None? || amount.None? || amount == Some(0.0)
    ensures Validate(t, ledger, user, code, game, amount, now) == Rejected(MissingFields)
  {
  }

  /** No live row under the upper-cased code: "invalid or expired", whatever else holds. */
  lemma NoLiveRowIsInvalid(t: seq<PromoCode>, ledger: seq<UsageRecord>, user: UserId,
                           code: string, game: GameId, amount: real, now: int)
    requires code != "" && amount != 0.0
    requires forall p :: p in t && p.code == ToUpper(code) ==> !Live(p, now)
    ensures Validate(t, ledger, user, Some(code), Some(game), Some(amount), now)
            == Rejected(InvalidOrExpired)
  {
    LookupNone(t, ToUpper(code), now);
  }

  /**
   * The first failing check decides the reason: each rejection after the
   * lookup names a promo that passed every earlier check.
   */
  lemma RejectionOrder(t: seq<PromoCode>, ledger: seq<UsageRecord>, user: UserId,
                       code: string, game: GameId, amount: real, now: int, p: PromoCode)
    requires UniqueCodes(t)
    requires code != "" && amount != 0.0
    requires p in t && Matches(p, ToUpper(code), now)
    ensures var r := Validate(t, ledger, user, Some(code), Some(game), Some(amount), now);
      && (amount < p.minAmount <==> r == Rejected(BelowMinimum(p.minAmount)))
      && (r == Rejected(GameNotApplicable) <==> amount >= p.minAmount && !AppliesTo(p, game))
      && (r == Rejected(UsageLimitReached) <==>
            amount >= p.minAmount && AppliesTo(p, game) && GloballyExhausted(p))
      && (r == Rejected(UserLimitReached) <==>
            amount >= p.minAmount && AppliesTo(p, game) && !GloballyExhausted(p)
            && CountUses(ledger, user, p.id) >= p.userUsageLimit)
      && r != Rejected(InvalidOrExpired) && r != Rejected(MissingFields)
  {
    LookupFinds(t, ToUpper(code), now, p);
  }

  /** The code typed in any letter case validates like its upper-case form. */
  lemma ValidateIgnoresCase(t: seq<PromoCode>, ledger: seq<UsageRecord>, user: UserId,
                            code: string, game: Option<GameId>, amount: Option<real>, now: int)
    ensures Validate(t, ledger, user, Some(code), game, amount, now)
            == Validate(t, ledger, user, Some(ToUpper(code)), game, amount, now)
  {
    assert ToUpper(ToUpper(code)) == ToUpper(code);
    assert code == "" <==> ToUpper(code) == "";
  }

  /**
   * On a valid table an approved request had a positive amount, and its
   * discount meets the ledger's `discountAmount >= 0` constraint.
   */
  lemma ApprovedDiscountRecordable(t: seq<PromoCode>, ledger: seq<UsageRecord>, user: UserId,
                                   code: Option<string>, game: Option<GameId>, amount: Option<real>,
                                   now: int)
    requires ValidTable(t)
    requires Validate(t, ledger, user, code, game, amount, now).Approved?
    ensures amount.Some? && amount.value > 0.0
    ensures Validate(t, ledger, user, code, game, amount, now).quote.discountAmount >= 0.0
  {
    var r := Validate(t, ledger, user, code, game, amount, now);
    LookupFinds(t, ToUpper(code.value), now, r.promo);
    var k :| 0 <= k < |t| && t[k] == r.promo;
    assert ValidPromo(r.promo);
    DiscountNonNegative(r.promo, amount.value);
  }

  /**
   * A fixed-amount discount never drives the final amount below zero; a
   * bonus amount larger than the order does, because it is not clipped.
   */
  lemma FinalAmountSign(p: PromoCode, amount: real)
    requires amount > 0.0 && p.value >= 0.0
    ensures p.kind == FixedAmount ==> 0.0 <= amount - Discount(p, amount) <= amount
    ensures p.kind == BonusAmount && p.value > amount ==> amount - Discount(p, amount) < 0.0
    ensures p.kind == Percentage && p.value <= 100.0 ==> amount - Discount(p, amount) >= 0.0
  {
    if p.kind == Percentage && p.value <= 100.0 {
      assert amount * p.value <= amount * 100.0;
      assert amount * p.value / 100.0 <= amount;
      assert Discount(p, amount) <= amount * p.value / 100.0;
    }
  }

  // ---------------------------------------------------------------------
  // GET / : live promotions, newest first
  // ---------------------------------------------------------------------

  /** The public fields of a listed promotion. */
  datatype Listing = Listing(
    code: string, name: string, description: string, kind: PromoType, value: real,
    minAmount: real, maxDiscount: Option<real>, applicableGames: seq<GameId>, endDate: int)

  function ListingOf(p: PromoCode): Listing
  {
    Listing(p.code, p.name, p.description, p.kind, p.value, p.minAmount, p.maxDiscount,
            p.applicableGames, p.endDate)
  }

  /**
   * Live rows in reverse table order (rows are appended as they are
   * created, so this is `createdAt DESC`).
   */
  function ListLive(t: seq<PromoCode>, now: int): (r: seq<Listing>)
    ensures |r| <= |t|
  {
    if t == [] then []
    else (if Live(t[|t| - 1], now) then [ListingOf(t[|t| - 1])] else [])
         + ListLive(t[..|t| - 1], now)
  }

  /** A row is listed exactly when it is active and inside its window. */
  lemma {:induction false} ListLiveMembers(t: seq<PromoCode>, now: int, l: Listing)
    ensures l in ListLive(t, now) <==> exists p :: p in t && Live(p, now) && ListingOf(p) == l
  {
    if t != [] {
      var front := t[..|t| - 1];
      ListLiveMembers(front, now, l);
      assert t == front + [t[|t| - 1]];
      if exists p :: p in t && Live(p, now) && ListingOf(p) == l {
        var p :| p in t && Live(p, now) && ListingOf(p) == l;
        if p != t[|t| - 1] {
          assert p in front;
        }
      }
    }
  }

  /** A new row, when live, heads the listing; otherwise the listing is unchanged. */
  lemma ListLiveAppend(t: seq<PromoCode>, p: PromoCode, now: int)
    ensures ListLive(t + [p], now) == (if Live(p, now) then [ListingOf(p)] else []) + ListLive(t, now)
  {
    assert (t + [p])[..|t|] == t;
  }

  /** Every listed promotion is one that `/validate` finds under its own code. */
  lemma ListedIsFindable(t: seq<PromoCode>, now: int, p: PromoCode)
    requires ValidTable(t)
    requires p in t && ListingOf(p) in ListLive(t, now)
    ensures Lookup(t, ToUpper(p.code), now) == Some(p)
  {
    ListLiveMembers(t, now, ListingOf(p));
    var k :| 0 <= k < |t| && t[k] == p;
    assert ValidPromo(t[k]);
    var q :| q in t && Live(q, now) && ListingOf(q) == ListingOf(p);
    assert q.code == p.code;
    var m :| 0 <= m < |t| && t[m] == q;
    assert m == k;
    LookupFinds(t, ToUpper(p.code), now, p);
  }

  // ---------------------------------------------------------------------
  // GET /my-usage : the user's history, newest first, one page at a time
  // ---------------------------------------------------------------------

  /** The user's ledger entries, newest first. */
  function History(ledger: seq<UsageRecord>, user: UserId): (h: seq<UsageRecord>)
    ensures |h| <= |ledger|
    ensures forall i :: 0 <= i < |h| ==> h[i].userId == user && h[i] in ledger
    ensures forall u :: u in h <==> u in ledger && u.userId == user
  {
    if ledger == [] then []
    else (if ledger[|ledger| - 1].userId == user then [ledger[|ledger| - 1]] else [])
         + History(ledger[..|ledger| - 1], user)
  }

  /** A new record heads its owner's history and leaves everyone else's as it was. */
  lemma HistoryAppend(ledger: seq<UsageRecord>, u: UsageRecord, user: UserId)
    ensures History(ledger + [u], user) == (if u.userId == user then [u] else []) + History(ledger, user)
  {
    assert (ledger + [u])[..|ledger|] == ledger;
  }

  /** Math.ceil(n / d) for a positive divisor. */
  function CeilDiv(n: nat, d: nat): (k: nat)
    requires d > 0
    ensures k * d >= n
    ensures n > 0 ==> (k - 1) * d < n
    ensures n == 0 ==> k == 0
  {
    (n + d - 1) / d
  }

  datatype UsagePage = UsagePage(rows: seq<UsageRecord>, current: int, total: Option<nat>, count: nat)

  /** `(page - 1) * limit` */
  function Offset(page: int, limit: int): int
  {
    (page - 1) * limit
  }

  /**
   * One page of history. The database refuses a negative LIMIT or OFFSET
   * (None: the route answers 500). With `limit` 0 the page is empty and
   * `count / 0` is not a finite number, so `total` is absent.
   */
  function MyUsage(ledger: seq<UsageRecord>, user: UserId, page: int, limit: int): (r: Option<UsagePage>)
    ensures r.Some? <==> limit >= 0 && Offset(page, limit) >= 0
    ensures r.Some? ==> |r.value.rows| <= limit && r.value.count == |History(ledger, user)|
    ensures r.Some? ==> r.value.current == page
    ensures r.Some? ==> r.value.total == (if limit == 0 then None else Some(CeilDiv(r.value.count, limit)))
    ensures r.Some? ==>
      |r.value.rows| == (if Offset(page, limit) >= r.value.count then 0
                         else if limit <= r.value.count - Offset(page, limit) then limit
                         else r.value.count - Offset(page, limit))
    ensures r.Some? ==> forall j :: 0 <= j < |r.value.rows| ==>
      r.value.rows[j] == History(ledger, user)[Offset(page, limit) + j]
  {
    var h := History(ledger, user);
    var off := Offset(page, limit);
    if limit < 0 || off < 0 then None
    else
      var lo := if off <= |h| then off else |h|;
      var hi := if off + limit <= |h| then off + limit else |h|;
      Some(UsagePage(h[lo..hi], page, if limit == 0 then None else Some(CeilDiv(|h|, limit)), |h|))
  }

  const DefaultPage := 1
  const DefaultLimit := 10

  /**
   * The route's query with its defaults: an absent `page` is 1 and an
   * absent `limit` is 10, so a bare request returns the ten newest records.
   */
  function MyUsageQuery(ledger: seq<UsageRecord>, user: UserId, page: Option<int>, limit: Option<int>)
    : (r: Option<UsagePage>)
    ensures page.None? && limit.None? ==>
      var h := History(ledger, user);
      && r.Some? && r.value.current == 1 && r.value.count == |h|
      && r.value.rows == (if |h| <= 10 then h else h[..10])
      && r.value.total == Some(CeilDiv(|h|, 10))
  {
    MyUsage(ledger, user, if page.Some? then page.value else DefaultPage,
            if limit.Some? then limit.value else DefaultLimit)
  }

  /** Page `page` (from 1) starts inside the history exactly when `page <= ceil(n / limit)`. */
  lemma OffsetInside(page: int, limit: int, n: nat)
    requires limit > 0 && page >= 1
    ensures Offset(page, limit) >= 0
    ensures page <= CeilDiv(n, limit) <==> Offset(page, limit) < n
  {
    var k := CeilDiv(n, limit);
    assert Offset(page, limit) >= 0 by {
      assert page - 1 >= 0;
    }
    if page <= k {
      assert (page - 1) * limit <= (k - 1) * limit;
    } else {
      assert (page - 1) * limit >= k * limit;
    }
  }

  /**
   * The rows of page `page` are the entries at positions
   * `(page-1)*limit ..` of the newest-first history; a page numbered
   * from 1 to `total` is never empty and one past `total` always is.
   */
  lemma MyUsagePageContents(ledger: seq<UsageRecord>, user: UserId, page: int, limit: int)
    requires limit > 0 && page >= 1
    ensures var r := MyUsage(ledger, user, page, limit);
      var h := History(ledger, user);
      && r.Some? && r.value.total.Some?
      && (forall j :: 0 <= j < |r.value.rows| ==>
            Offset(page, limit) + j < |h| && r.value.rows[j] == h[Offset(page, limit) + j])
      && (page <= r.value.total.value <==> |r.value.rows| > 0)
  {
    OffsetInside(page, limit, |History(ledger, user)|);
  }
}
