/**
 * The Money value of the Money kata: an `int` amount paired with a currency
 * code, built only through its constructor and never changed afterwards.
 */
module MoneyKata {
  import opened Wrappers
  import opened Numerics

  /** An immutable amount in a currency; `amount` is a C# `int`. */
  datatype Money = Money(amount: Int32, currency: string)

  /** A new Money whose amount is amount * multiplier, with C#'s unchecked 32-bit wrap-around. */
  function Times(m: Money, multiplier: Int32): (r: Money)
    ensures r.currency == m.currency
    ensures (r.amount - m.amount * multiplier) % TWO_32 == 0
    ensures INT32_MIN <= m.amount * multiplier <= INT32_MAX ==> r.amount == m.amount * multiplier
  {
    Money(Wrap32(m.amount * multiplier), m.currency)
  }

  /** Multiplying twice is multiplying once by the (wrapped) product of the multipliers. */
  lemma {:induction false} TimesTimes(m: Money, a: Int32, b: Int32)
    ensures Times(Times(m, a), b) == Times(m, Wrap32(a * b))
  {
    WrapMul(m.amount * a, b);
    WrapMul(a * b, m.amount);
    assert m.amount * a * b == a * b * m.amount;
    assert Wrap32(a * b) * m.amount == m.amount * Wrap32(a * b);
  }

  /** Multiplying by one gives back an equal Money. */
  lemma TimesOne(m: Money)
    ensures Times(m, 1) == m
  {
  }

  /** Money.Equals on a Money argument: equal amounts and equal currency codes. */
  function Equals(m: Money, other: Money): (r: bool)
    ensures r <==> m == other
  {
    m.amount == other.amount && Currency(m) == Currency(other)
  }

  /** Equals is an equivalence relation on Money values. */
  lemma EqualsIsEquivalence(a: Money, b: Money, c: Money)
    ensures Equals(a, a)
    ensures Equals(a, b) == Equals(b, a)
    ensures Equals(a, b) && Equals(b, c) ==> Equals(a, c)
  {
  }

  /** The argument `Equals(object)` receives: null, a Money, or an object of another class. */
  datatype Object = Null | MoneyObject(money: Money) | OtherObject

  /** The exceptions `Equals(object)` can throw. */
  datatype Exception = NullReference | InvalidCast

  /**
   * `Equals(object)`: the argument is cast to Money before its fields are read,
   * so null fails when its amount is read and any other class fails at the cast.
   */
  function EqualsObject(m: Money, obj: Object): (r: Result<bool, Exception>)
    ensures obj.Null? <==> r == Failure(NullReference)
    ensures obj.OtherObject? <==> r == Failure(InvalidCast)
    ensures obj.MoneyObject? <==> r.Success?
    ensures r.Success? ==> (r.value <==> obj == MoneyObject(m))
  {
    match obj
    case Null => Failure(NullReference)
    case OtherObject => Failure(InvalidCast)
    case MoneyObject(other) => Success(Equals(m, other))
  }

  /** Money.Dollar: a Money in US dollars. */
  function Dollar(amount: Int32): (r: Money)
    ensures r.amount == amount && Currency(r) == "USD"
  {
    Money(amount, "USD")
  }

  /** Money.Franc: a Money in Swiss francs. */
  function Franc(amount: Int32): (r: Money)
    ensures r.amount == amount && Currency(r) == "CHF"
  {
    Money(amount, "CHF")
  }

  /** Dollars and francs are never equal, whatever the amounts. */
  lemma DollarNeverEqualsFranc(n: Int32, k: Int32)
    ensures !Equals(Dollar(n), Franc(k))
    ensures !Equals(Franc(k), Dollar(n))
  {
  }

  /** Scaling a dollar amount stays in dollars and scales the amount. */
  lemma DollarTimes(n: Int32, k: Int32)
    requires INT32_MIN <= n * k <= INT32_MAX
    ensures Times(Dollar(n), k) == Dollar(n * k)
  {
  }

  /** Money.Currency: the currency code. */
  function Currency(m: Money): (code: string)
    ensures Money(m.amount, code) == m
  {
    m.currency
  }

  // ---------------------------------------------------------------------------
  // ToString and the parser that inverts it.

  /** The first position of c in s, if any. */
  function IndexOf(s: string, c: char): (r: Option<nat>)
    ensures r.Some? ==> r.value < |s| && s[r.value] == c
    ensures r.Some? ==> forall k :: 0 <= k < r.value ==> s[k] != c
    ensures r.None? ==> forall k :: 0 <= k < |s| ==> s[k] != c
  {
    if |s| == 0 then None
    else if s[0] == c then Some(0)
    else match IndexOf(s[1..], c)
      case None => None
      case Some(i) => Some(i + 1)
  }

  /** Reads "<amount> <currency>": the amount runs up to the first space. */
  function ParseMoney(s: string): Option<Money>
  {
    match IndexOf(s, ' ')
    case None => None
    case Some(i) =>
      match ParseInt(s[..i])
      case None => None
      case Some(n) =>
        if INT32_MIN <= n <= INT32_MAX then Some(Money(n, s[i + 1..])) else None
  }

  /**
   * Money.ToString: the decimal rendering of the amount, one space, the currency
   * code. The amount's rendering holds no space, so the text determines the Money.
   */
  function ToString(m: Money): (s: string)
    ensures ParseMoney(s) == Some(m)
    ensures |s| > |m.currency| && s[|s| - |m.currency|..] == m.currency
    ensures s[|s| - |m.currency| - 1] == ' '
    ensures Canonical(s[..|s| - |m.currency| - 1])
  {
    var digits := IntToString(m.amount);
    var s := digits + " " + m.currency;
    assert s[..|digits|] == digits;
    assert s[|digits| + 1..] == m.currency;
    assert forall k :: 0 <= k < |digits| ==> s[k] == digits[k] && s[k] != ' ';
    assert s[|digits|] == ' ';
    assert IndexOf(s, ' ') == Some(|digits|);
    s
  }

  /** Two Money values that print alike are equal. */
  lemma ToStringInjective(a: Money, b: Money)
    requires ToString(a) == ToString(b)
    ensures Equals(a, b)
  {
  }

  // ---------------------------------------------------------------------------
  // The facts of MoneyExampleTests.

  /** TestMultiplication: one five-dollar Money scaled twice, the second result unaffected by the first. */
  lemma TestMultiplication()
    ensures var five := Dollar(5);
      Equals(Dollar(10), Times(five, 2)) && Equals(Dollar(15), Times(five, 3))
  {
  }

  /** TestEquality. */
  lemma TestEquality()
    ensures Equals(Dollar(5), Dollar(5))
    ensures !Equals(Dollar(5), Dollar(6))
    ensures !Equals(Dollar(5), Franc(5))
  {
    DollarNeverEqualsFranc(5, 5);
  }

  /** TestCurrency. */
  lemma TestCurrency()
    ensures Currency(Dollar(1)) == "USD"
    ensures Currency(Franc(1)) == "CHF"
  {
  }
}
