/**
 * The Order document (Backend/models/Order.js): its status and payment
 * method enumerations, the package snapshot, the order-number generator
 * of the pre-save hook, and what saving a new order does.
 */
module Orders {
  import opened Common

  datatype OrderStatus = Pending | Processing | Completed | Failed | Refunded

  function StatusName(s: OrderStatus): string
  {
    match s
    case Pending => "pending"
    case Processing => "processing"
    case Completed => "completed"
    case Failed => "failed"
    case Refunded => "refunded"
  }

  /** The schema's enum validator for `status`: only the five names are accepted. */
  function ParseStatus(s: string): (r: Option<OrderStatus>)
    ensures r.Some? ==> StatusName(r.value) == s
  {
    if s == "pending" then Some(Pending)
    else if s == "processing" then Some(Processing)
    else if s == "completed" then Some(Completed)
    else if s == "failed" then Some(Failed)
    else if s == "refunded" then Some(Refunded)
    else None
  }

  lemma ParseStatusName(st: OrderStatus)
    ensures ParseStatus(StatusName(st)) == Some(st)
  {
  }

  datatype PaymentMethod = CreditCard | BankTransfer | Wallet | PromptPay

  function MethodName(m: PaymentMethod): string
  {
    match m
    case CreditCard => "credit_card"
    case BankTransfer => "bank_transfer"
    case Wallet => "wallet"
    case PromptPay => "promptpay"
  }

  /** The schema's enum validator for `paymentMethod`. */
  function ParseMethod(s: string): (r: Option<PaymentMethod>)
    ensures r.Some? ==> MethodName(r.value) == s
  {
    if s == "credit_card" then Some(CreditCard)
    else if s == "bank_transfer" then Some(BankTransfer)
    else if s == "wallet" then Some(Wallet)
    else if s == "promptpay" then Some(PromptPay)
    else None
  }

  lemma ParseMethodName(m: PaymentMethod)
    ensures ParseMethod(MethodName(m)) == Some(m)
  {
  }

  /** The copy of the chosen package kept in the order: name, amount and price only. */
  datatype PackageSnapshot = PackageSnapshot(name: string, amount: real, price: real)

  /**
   * A stored order. `paymentStatus`, `transactionId` and `failureReason`
   * are written by the payment route (see README on the schema).
   */
  datatype Order = Order(
    id: OrderId,
    orderNumber: string,
    user: UserId,
    game: GameId,
    package: PackageSnapshot,
    gameAccount: map<string, string>,
    status: OrderStatus,
    paymentMethod: PaymentMethod,
    totalAmount: real,
    finalAmount: real,
    paymentStatus: Option<string>,
    transactionId: Option<string>,
    failureReason: Option<string>,
    completedAt: Option<int>)

  /** A new document before it is saved; `orderNumber` "" means unset. */
  datatype Draft = Draft(
    orderNumber: string,
    user: UserId,
    game: GameId,
    package: PackageSnapshot,
    gameAccount: map<string, string>,
    paymentMethod: string,
    totalAmount: real,
    finalAmount: real)

  // ---------------------------------------------------------------------
  // Order numbers: `GT${Date.now()}${String(count + 1).padStart(4, '0')}`
  // ---------------------------------------------------------------------

  function OrderNumber(timestamp: nat, count: nat): (s: string)
    ensures |s| >= 7 && s[..2] == "GT"
  {
    "GT" + NatToString(timestamp) + Pad4(NatToString(count + 1))
  }

  /** After the "GT" prefix an order number is all decimal digits. */
  lemma OrderNumberDigits(timestamp: nat, count: nat)
    ensures forall i :: 2 <= i < |OrderNumber(timestamp, count)| ==> IsDigit(OrderNumber(timestamp, count)[i])
  {
    var n := OrderNumber(timestamp, count);
    var ts, m := NatToString(timestamp), NatToString(count + 1);
    var c := Pad4(m);
    forall i | 2 <= i < |n| ensures IsDigit(n[i]) {
      if i >= 2 + |ts| {
        var j := i - 2 - |ts|;
        assert n[i] == c[j];
        if j >= |c| - |m| {
          assert c[j] == c[|c| - |m|..][j - (|c| - |m|)];
        }
      }
    }
  }

  /**
   * For timestamps of the same number of digits (every `Date.now()` from
   * 2001 to 2286 has 13) distinct (timestamp, count) pairs give distinct
   * order numbers.
   */
  lemma OrderNumberInjective(ts1: nat, c1: nat, ts2: nat, c2: nat)
    requires |NatToString(ts1)| == |NatToString(ts2)|
    ensures OrderNumber(ts1, c1) == OrderNumber(ts2, c2) ==> ts1 == ts2 && c1 == c2
  {
    if OrderNumber(ts1, c1) == OrderNumber(ts2, c2) {
      SplitNumber(NatToString(ts1), Pad4(NatToString(c1 + 1)), NatToString(ts2), Pad4(NatToString(c2 + 1)));
      PartsInjective(ts1, c1, ts2, c2);
    }
  }

  /** Equal timestamp numerals and equal padded counters come from equal pairs. */
  lemma PartsInjective(ts1: nat, c1: nat, ts2: nat, c2: nat)
    requires NatToString(ts1) == NatToString(ts2)
    requires Pad4(NatToString(c1 + 1)) == Pad4(NatToString(c2 + 1))
    ensures ts1 == ts2 && c1 == c2
  {
    NatToStringInjective(ts1, ts2);
    Pad4Injective(c1 + 1, c2 + 1);
  }

  /** The timestamp and counter parts of two equal numbers line up when the timestamps have equal length. */
  lemma SplitNumber(a: string, pa: string, b: string, pb: string)
    requires "GT" + a + pa == "GT" + b + pb && |a| == |b|
    ensures a == b && pa == pb
  {
    SplitConcat("GT" + a, pa, "GT" + b, pb);
    SplitConcat("GT", a, "GT", b);
  }

  lemma SplitConcat(x: string, y: string, u: string, v: string)
    requires x + y == u + v && |x| == |u|
    ensures x == u && y == v
  {
    assert x == (x + y)[..|x|];
    assert u == (u + v)[..|u|];
    assert y == (x + y)[|x|..];
    assert v == (u + v)[|u|..];
  }

  /** Without the equal-length condition two pairs can collide. */
  lemma OrderNumberCollision()
    ensures OrderNumber(1, 23455) == OrderNumber(12, 3455)
  {
    assert NatToString(1) == "1";
    assert NatToString(12) == "12";
    assert NatToString(3456) == "3456";
    assert NatToString(23456) == "23456";
  }

  // ---------------------------------------------------------------------
  // Saving a new order
  // ---------------------------------------------------------------------

  /** The pre-save hook: generates an order number only when none is set. */
  function PreSave(d: Draft, count: nat, now: nat): (r: Draft)
    ensures r.orderNumber != ""
    ensures d.orderNumber != "" ==> r == d
    ensures d.orderNumber == "" ==> r.orderNumber == OrderNumber(now, count)
    ensures r.(orderNumber := d.orderNumber) == d
  {
    if d.orderNumber == "" then d.(orderNumber := OrderNumber(now, count)) else d
  }

  /** The schema validators a new order must pass: `orderNumber` required, `paymentMethod` in its enum. */
  predicate SchemaValid(d: Draft)
  {
    d.orderNumber != "" && ParseMethod(d.paymentMethod).Some?
  }

  datatype SaveError = ValidationFailed

  function Stored(d: Draft, id: OrderId): Order
    requires SchemaValid(d)
  {
    Order(id, d.orderNumber, d.user, d.game, d.package, d.gameAccount, Pending,
          ParseMethod(d.paymentMethod).value, d.totalAmount, d.finalAmount,
          None, None, None, None)
  }

  /**
   * `save()` of a new order as the schema is written: Mongoose validates
   * the document before it runs user pre-save hooks, so the required
   * `orderNumber` is checked while it is still unset.
   */
  function SaveNewAsWritten(d: Draft, count: nat, now: nat, id: OrderId): (r: Result<Order, SaveError>)
    ensures r.Ok? <==> d.orderNumber != "" && ParseMethod(d.paymentMethod).Some?
    ensures r.Ok? ==> r.value.orderNumber == d.orderNumber
  {
    if !SchemaValid(d) then Err(ValidationFailed)
    else Ok(Stored(PreSave(d, count, now), id))
  }

  /** Every order the creation route builds (it never sets `orderNumber`) is refused. */
  lemma SaveNewAsWrittenRejects(d: Draft, count: nat, now: nat, id: OrderId)
    requires d.orderNumber == ""
    ensures SaveNewAsWritten(d, count, now, id) == Err(ValidationFailed)
  {
  }

  /** `save()` with the number generated before validation (a pre-validate hook). */
  function SaveNew(d: Draft, count: nat, now: nat, id: OrderId): (r: Result<Order, SaveError>)
    ensures r.Ok? <==> ParseMethod(d.paymentMethod).Some?
  {
    var n := PreSave(d, count, now);
    if !SchemaValid(n) then Err(ValidationFailed) else Ok(Stored(n, id))
  }

  /**
   * A new order with a valid payment method is stored pending, with the
   * generated number (or the one it already had) and every field it was
   * built with.
   */
  lemma SaveNewStores(d: Draft, count: nat, now: nat, id: OrderId)
    requires ParseMethod(d.paymentMethod).Some?
    ensures var r := SaveNew(d, count, now, id);
      && r.Ok?
      && r.value.orderNumber == (if d.orderNumber == "" then OrderNumber(now, count) else d.orderNumber)
      && r.value.status == Pending
      && MethodName(r.value.paymentMethod) == d.paymentMethod
      && r.value.id == id && r.value.user == d.user && r.value.game == d.game
      && r.value.package == d.package && r.value.gameAccount == d.gameAccount
      && r.value.totalAmount == d.totalAmount && r.value.finalAmount == d.finalAmount
      && r.value.completedAt.None? && r.value.transactionId.None?
      && r.value.paymentStatus.None? && r.value.failureReason.None?
  {
  }
}
