/**
 * The money value `PayNL\Sdk\Model\Amount`: an integer amount in minor units
 * (cents) and a currency code, with fluent setters that change one field each.
 */
module Amount {
  import opened Wrappers

  /** The currency of an amount that was given none. */
  const DefaultCurrency: string := "EUR"

  class Amount {
    /** The amount in cents. */
    var value: int
    var currency: string

    /** `new Amount($value, $currency)`: a null argument keeps the field's default (0, 'EUR'). */
    constructor(v: Option<int>, c: Option<string>)
      ensures GetValue() == v.GetOr(0)
      ensures GetCurrency() == c.GetOr(DefaultCurrency)
    {
      value := 0;
      currency := DefaultCurrency;
      if v.Some? {
        value := v.value;
      }
      if c.Some? {
        currency := c.value;
      }
    }

    /** `Amount::fromCents($amount, $currency)`. */
    static method FromCents(amount: int, c: Option<string>) returns (a: Amount)
      ensures fresh(a)
      ensures a.GetValue() == amount
      ensures a.GetCurrency() == c.GetOr(DefaultCurrency)
    {
      a := new Amount(Some(amount), c);
    }

    function GetValue(): int
      reads this
    {
      value
    }

    function GetCurrency(): string
      reads this
    {
      currency
    }

    /** `setValue($value)`: changes the value only, and returns the same object. */
    method SetValue(v: int) returns (r: Amount)
      modifies this`value
      ensures r == this
      ensures GetValue() == v && GetCurrency() == old(GetCurrency())
    {
      value := v;
      r := this;
    }

    /** `setCurrency($currency)`: changes the currency only, and returns the same object. */
    method SetCurrency(c: string) returns (r: Amount)
      modifies this`currency
      ensures r == this
      ensures GetCurrency() == c && GetValue() == old(GetValue())
    {
      currency := c;
      r := this;
    }
  }
}
