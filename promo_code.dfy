/**
 * The promo-code records: the PromoCode row (Backend/models/PromoCode.js)
 * and the PromoCodeUsage ledger entry (Backend/models/PromoCodeUsage.js),
 * with the column constraints and defaults the schema declares.
 */
module PromoCodes {
  import opened Common

  datatype PromoType = Percentage | FixedAmount | BonusAmount

  /**
   * One promo-code row. `maxDiscount` and `usageLimit` are nullable;
   * `applicableGames` empty means "every game". Dates are instants in
   * milliseconds.
   */
  datatype PromoCode = PromoCode(
    id: PromoId,
    code: string,
    name: string,
    description: string,
    kind: PromoType,
    value: real,
    minAmount: real,
    maxDiscount: Option<real>,
    usageLimit: Option<int>,
    usageCount: int,
    userUsageLimit: int,
    applicableGames: seq<GameId>,
    startDate: int,
    endDate: int,
    isActive: bool)

  /** One redemption: which promo, by whom, on which order, for how much. */
  datatype UsageRecord = UsageRecord(
    promoCodeId: PromoId,
    userId: UserId,
    orderId: OrderId,
    discountAmount: real,
    createdAt: int)

  // ---------------------------------------------------------------------
  // Upper-casing (ASCII letters; see README for the Unicode gap).
  // ---------------------------------------------------------------------

  function UpperChar(c: char): (u: char)
    ensures 'a' <= c <= 'z' ==> 'A' <= u <= 'Z' && u as int == c as int - 32
    ensures !('a' <= c <= 'z') ==> u == c
  {
    if 'a' <= c <= 'z' then (c as int - 32) as char else c
  }

  function ToUpper(s: string): (r: string)
    ensures |r| == |s|
    ensures forall i :: 0 <= i < |s| ==> r[i] == UpperChar(s[i])
  {
    seq(|s|, i requires 0 <= i < |s| => UpperChar(s[i]))
  }

  /** The `isUppercase` validator: the string equals its own upper-casing. */
  predicate IsUppercase(s: string)
  {
    ToUpper(s) == s
  }

  lemma ToUpperIsUppercase(s: string)
    ensures IsUppercase(ToUpper(s))
  {
  }

  // ---------------------------------------------------------------------
  // Column constraints.
  // ---------------------------------------------------------------------

  /** The validators of every PromoCode column. */
  predicate ValidPromo(p: PromoCode)
  {
    && 3 <= |p.code| <= 20
    && IsUppercase(p.code)
    && p.value >= 0.0
    && p.minAmount >= 0.0
    && (p.maxDiscount.Some? ==> p.maxDiscount.value >= 0.0)
    && (p.usageLimit.Some? ==> p.usageLimit.value >= 1)
    && p.usageCount >= 0
    && p.userUsageLimit >= 1
  }

  /** A promo table: every row valid, `code` unique and the primary key unique. */
  /** The unique index on `code`. */
  predicate UniqueCodes(t: seq<PromoCode>)
  {
    forall i, j :: 0 <= i < j < |t| ==> t[i].code != t[j].code
  }

  predicate ValidTable(t: seq<PromoCode>)
  {
    && (forall i :: 0 <= i < |t| ==> ValidPromo(t[i]))
    && UniqueCodes(t)
    && (forall i, j :: 0 <= i < j < |t| ==> t[i].id != t[j].id)
  }

  /** A row created with only the required columns given; the rest take their defaults. */
  function NewPromoCode(id: PromoId, code: string, name: string, kind: PromoType,
                        value: real, startDate: int, endDate: int): PromoCode
  {
    PromoCode(id, code, name, "", kind, value, 0.0, None, None, 0, 1, [], startDate, endDate, true)
  }

  /**
   * The defaults satisfy every column constraint, so a new row is valid
   * exactly when its code and value are.
   */
  lemma NewPromoCodeValid(id: PromoId, code: string, name: string, kind: PromoType,
                          value: real, startDate: int, endDate: int)
    ensures var p := NewPromoCode(id, code, name, kind, value, startDate, endDate);
      && (ValidPromo(p) <==> 3 <= |code| <= 20 && IsUppercase(code) && value >= 0.0)
      && p.usageCount == 0 && p.userUsageLimit == 1 && p.minAmount == 0.0
      && p.maxDiscount.None? && p.usageLimit.None? && p.applicableGames == [] && p.isActive
  {
  }

  /** The `discountAmount >= 0` validator of a usage record. */
  predicate ValidUsage(u: UsageRecord)
  {
    u.discountAmount >= 0.0
  }
}
