/**
 * Shared vocabulary of the game top-up backend model: optional values,
 * results, identifier types, JavaScript truthiness of request fields and
 * the decimal rendering of numbers used by the order-number generator.
 */
module Common {

  datatype Option<+T> = None | Some(value: T)

  datatype Result<+T, +E> = Ok(value: T) | Err(error: E)

  /** Database identifiers. UUIDs and ObjectIds are abstracted to naturals. */
  type UserId = nat
  type GameId = nat
  type PromoId = nat
  type OrderId = nat

  /** A request string field is truthy when it is present and not empty. */
  predicate PresentString(s: Option<string>)
  {
    s.Some? && s.value != ""
  }

  /** A request number field is truthy when it is present and not zero. */
  predicate TruthyNumber(x: Option<real>)
  {
    x.Some? && x.value != 0.0
  }

  /** A nullable integer column is truthy when it is set and not zero. */
  predicate TruthyInt(x: Option<int>)
  {
    x.Some? && x.value != 0
  }

  function Min(a: real, b: real): (r: real)
    ensures r <= a && r <= b
    ensures r == a || r == b
  {
    if a <= b then a else b
  }

  // ---------------------------------------------------------------------
  // Decimal rendering of naturals, as JavaScript's String(n) does it.
  // ---------------------------------------------------------------------

  predicate IsDigit(c: char)
  {
    '0' <= c <= '9'
  }

  function DigitChar(d: nat): (c: char)
    requires d < 10
    ensures IsDigit(c)
  {
    ((d + '0' as int) as char)
  }

  function DigitValue(c: char): nat
    requires IsDigit(c)
  {
    (c as int) - ('0' as int)
  }

  /** The shortest decimal numeral of n: digits only, no leading zero. */
  function NatToString(n: nat): (s: string)
    ensures |s| >= 1
    ensures forall i :: 0 <= i < |s| ==> IsDigit(s[i])
    ensures n >= 1 ==> s[0] != '0'
    ensures n < 10 <==> |s| == 1
  {
    if n < 10 then [DigitChar(n)] else NatToString(n / 10) + [DigitChar(n % 10)]
  }

  /** Reads a numeral back; the inverse of NatToString. */
  function ParseDigits(s: string): nat
    requires forall i :: 0 <= i < |s| ==> IsDigit(s[i])
  {
    if s == [] then 0 else ParseDigits(s[..|s| - 1]) * 10 + DigitValue(s[|s| - 1])
  }

  lemma {:induction false} ParseNatToString(n: nat)
    ensures ParseDigits(NatToString(n)) == n
  {
    if n >= 10 {
      var s := NatToString(n);
      assert s[..|s| - 1] == NatToString(n / 10);
      ParseNatToString(n / 10);
    }
  }

  lemma NatToStringInjective(a: nat, b: nat)
    ensures NatToString(a) == NatToString(b) ==> a == b
  {
    ParseNatToString(a);
    ParseNatToString(b);
  }

  /** String(s).padStart(4, '0'): left-pads with '0' to four characters, never truncates. */
  function Pad4(s: string): (r: string)
    ensures |r| == if |s| >= 4 then |s| else 4
    ensures r[|r| - |s|..] == s
    ensures forall i :: 0 <= i < |r| - |s| ==> r[i] == '0'
  {
    if |s| >= 4 then s else seq(4 - |s|, _ => '0') + s
  }

  /** Padding the numerals of positive numbers loses nothing. */
  lemma Pad4Injective(a: nat, b: nat)
    requires a >= 1 && b >= 1
    ensures Pad4(NatToString(a)) == Pad4(NatToString(b)) ==> a == b
  {
    var s, t := NatToString(a), NatToString(b);
    if Pad4(s) == Pad4(t) {
      var p := Pad4(s);
      assert |s| == |t|;
      assert s == p[|p| - |s|..] == t;
      NatToStringInjective(a, b);
    }
  }
}
