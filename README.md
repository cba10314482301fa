# TDDKatas in Dafny

A verified model of the two value objects of the TDDKatas exercises:

- **Money** (`MoneyKata`, `money.dfy`): an immutable `int` amount with a currency
  code, the `Dollar`/`Franc` factories, `Times`, structural `Equals`, `Currency`
  and `ToString`. `Times` multiplies with C#'s unchecked 32-bit wrap-around
  (`Numerics.Wrap32`). `ToString` is proved to round-trip through a parser, so
  the amount's decimal rendering, the single space and the currency code can be
  read back from the text.
- **Product / OrderItem** (`Webshop`, `webshop.dfy`): `Product` is a class whose
  name and price are `const`. `OrderItem` has a `const` product and a mutable
  quantity. Its constructor requires a positive quantity, and `NewOrderItem`
  models the `ArgumentException` path as a `Result`. `Subtotal` is a function
  of the current fields. A C# `decimal` is modelled as a coefficient with a
  scale (`Decimal(units, scale)`), and `Value` gives the exact rational it
  denotes. Multiplying by an `int` keeps the price's scale. This is why
  100.55 × 2 is 201.10 and 20.4 × 10 is 204.0.
- `Numerics` holds the C# `int` range, the wrap-around, and the decimal
  rendering of an integer with its inverse parser. `Wrappers` holds `Option`
  and `Result`.

Of the xUnit facts, the model states these. Money: `TestMultiplication`,
`TestEquality` and `TestCurrency`, as lemmas. Webshop: the subtotals behind the
expected texts of `TestCreateOrderItem`, and the two tests that reject
quantities -1 and 0, as verified methods that build the objects.
`TestCreateSimpleProduct` asserts only `Product.ToString` text, so it is not
stated. The text formatting in `TestCreateOrderItem` is not stated either.

`Equals(object)` casts its argument to `Money` (MoneyExampleTests.cs:63). A null
argument therefore throws `NullReferenceException` when its amount is read, and
an argument of another class throws `InvalidCastException` (`EqualsObject`).

## Model

| member | source | states |
|---|---|---|
| MoneyKata.Times | TDDKatas/MoneyExampleTests.cs:56-59 | the result keeps the receiver's currency; its amount is congruent to amount × multiplier modulo 2^32, and equals it exactly when the product fits in an `int` |
| MoneyKata.TimesTimes | TDDKatas/MoneyExampleTests.cs:56-59 | scaling by a and then by b equals scaling once by the wrapped product a × b, wrap-around included |
| MoneyKata.TimesOne | TDDKatas/MoneyExampleTests.cs:56-59 | scaling by 1 gives back the same Money |
| MoneyKata.Equals | TDDKatas/MoneyExampleTests.cs:61-66 | true exactly when both amount and currency code agree, i.e. exactly when the two values are identical |
| MoneyKata.EqualsIsEquivalence | TDDKatas/MoneyExampleTests.cs:61-66 | Equals is reflexive, symmetric and transitive |
| MoneyKata.EqualsObject | TDDKatas/MoneyExampleTests.cs:61-66 | null argument: NullReferenceException; non-Money argument: InvalidCastException; Money argument: succeeds, with true exactly when it equals the receiver |
| MoneyKata.Dollar | TDDKatas/MoneyExampleTests.cs:68-71 | the amount given, in currency "USD" |
| MoneyKata.Franc | TDDKatas/MoneyExampleTests.cs:73-76 | the amount given, in currency "CHF" |
| MoneyKata.DollarNeverEqualsFranc | TDDKatas/MoneyExampleTests.cs:61-76 | a dollar Money never equals a franc Money, whatever the amounts, in either order |
| MoneyKata.DollarTimes | TDDKatas/MoneyExampleTests.cs:56-71 | Dollar(n).Times(k) is Dollar(n × k) when the product fits in an `int` |
| MoneyKata.Currency | TDDKatas/MoneyExampleTests.cs:78-81 | the returned code, paired with the amount, rebuilds the receiver |
| MoneyKata.ToString | TDDKatas/MoneyExampleTests.cs:83-86 | the text is a canonical decimal rendering of the amount, a space, then the currency code; parsing it (amount up to the first space, then the code) gives back the Money |
| MoneyKata.ToStringInjective | TDDKatas/MoneyExampleTests.cs:83-86 | two Money values with the same text are Equal |
| MoneyKata.TestMultiplication | TDDKatas/MoneyExampleTests.cs:10-15 | Dollar(5) times 2 equals Dollar(10), and the same Dollar(5) times 3 equals Dollar(15) |
| MoneyKata.TestEquality | TDDKatas/MoneyExampleTests.cs:18-23 | Dollar(5) equals Dollar(5), not Dollar(6), and not Franc(5) |
| MoneyKata.TestCurrency | TDDKatas/MoneyExampleTests.cs:27-31 | Dollar(1) has currency "USD" and Franc(1) has currency "CHF" |
| Numerics.Wrap32 | TDDKatas/MoneyExampleTests.cs:58 | the unchecked `int` result: in range, congruent to the exact value modulo 2^32, and equal to it when it fits |
| Numerics.WrapMul | TDDKatas/MoneyExampleTests.cs:58 | wrapping an intermediate product before multiplying again does not change the wrapped result |
| Numerics.IntToString | TDDKatas/MoneyExampleTests.cs:85 | the rendering of the amount is canonical (digits without leading zeros, '-' exactly for negative amounts) and parses back to the same integer |
| Numerics.CanonicalUnique | TDDKatas/MoneyExampleTests.cs:85 | a canonical text that parses to an integer is exactly that integer's rendering, so the rendering is fully determined |
| Numerics.IntToStringInjective | TDDKatas/MoneyExampleTests.cs:85 | different amounts never render alike |
| Webshop.MulInt | TDDKatas/WebshopTests.cs:59 | decimal × int denotes the exact product of the values and keeps the decimal's scale |
| Webshop.Product.constructor | TDDKatas/WebshopTests.cs:77-84 | stores name and price unchanged; both are `const` afterwards |
| Webshop.OrderItem.constructor | TDDKatas/WebshopTests.cs:61-66 | with a positive quantity, stores exactly the given product and quantity |
| Webshop.NewOrderItem | TDDKatas/WebshopTests.cs:61-66 | fails with ArgumentException exactly when quantity ≤ 0; otherwise a fresh item holding the given product and quantity |
| Webshop.OrderItem.Subtotal | TDDKatas/WebshopTests.cs:59 | for the current quantity, the value is price × quantity, at the price's scale |
| Webshop.OrderItem.SetQuantity | TDDKatas/WebshopTests.cs:58 | stores any quantity; the product stays fixed, the subtotal follows the new quantity, and positivity holds afterwards only if the new quantity is positive |
| Webshop.TestCreateOrderItem | TDDKatas/WebshopTests.cs:20-29 | a 100.55 price with quantity 2 has subtotal 201.10 (scale 2); a 20.4 price with quantity 10 has subtotal 204.0 (scale 1) |
| Webshop.TestCreateOrderItemNonPositiveQuantityThrows | TDDKatas/WebshopTests.cs:31-44 | constructing an order item with quantity -1, or with quantity 0, throws ArgumentException |

## Left out

- Mixed-currency addition, listed as a TODO at MoneyExampleTests.cs:34-40, is not modelled.
- `Product.ToString` and `OrderItem.ToString` (WebshopTests.cs:68-71, 86-89): their output depends on the culture's decimal separator. The scale that decides the number of decimals is modelled (`Decimal.scale`).
- Webshop.MulInt: `decimal` has a 96-bit coefficient; overflow (an `OverflowException`) and the rounding applied when a result needs more than 28 decimals are not modelled.
- Numerics.IntToString: assumes the culture's negative sign is "-".
- Null references: strings are modelled as non-null character sequences, and `OrderItem.product` as a non-null `Product`. The source accepts `new OrderItem(null, 1)` (WebshopTests.cs:61-66 check only the quantity), and `Subtotal` then throws `NullReferenceException` (line 59); the model does not capture that.
- `GetHashCode`: Money overrides `Equals` without overriding `GetHashCode`, and hashing is outside the model.
- The conversion of the `[InlineData]` `double` literals to `decimal`: the model's test methods start from the resulting decimals (100.55 and 20.4). The `123.22M` of the exception tests is already a decimal literal.
- The xUnit harness (`[Fact]`, `[Theory]`, `Assert.*`): the facts are lemmas and verified methods.
