/**
 * The identifier newtypes of the types crate: one-field wrappers whose
 * derived ordering is that of the wrapped value, and `CurrencyId`, whose
 * display names the currency with that discriminant.
 */
module Newtypes {
  import opened Wrappers
  import opened Text
  import Currencies

  /**
   * The shape shared by the `i32` newtypes `UserId`, `SessionId`, `ProductId`,
   * `BaseProductId`, `Quantity`, `StoreId` and `OrderSlug`.
   */
  datatype Id32 = Id32(value: Int32)

  /** The shape of the `String` newtype `WarehouseSlug`. */
  datatype Slug = Slug(value: string)

  /** Derived `Ord` on an `i32` newtype. */
  function CompareId(a: Id32, b: Id32): (r: Ordering)
    ensures r == Less <==> a.value < b.value
    ensures r == Equal <==> a == b
    ensures r == Greater <==> a.value > b.value
  {
    CompareInts(a.value, b.value)
  }

  /** Derived `Ord` on a `String` newtype: the strings' own order. */
  function CompareSlug(a: Slug, b: Slug): (r: Ordering)
    ensures r == Equal <==> a == b
    ensures r == Less <==> LexLess(a.value, b.value)
  {
    CompareStrings(a.value, b.value)
  }

  /** Swapping the operands flips the verdict. */
  lemma CompareIdAntisymmetric(a: Id32, b: Id32)
    ensures CompareId(b, a) == Flip(CompareId(a, b))
  {
  }

  lemma CompareSlugAntisymmetric(a: Slug, b: Slug)
    ensures CompareSlug(b, a) == Flip(CompareSlug(a, b))
  {
    LexAsymmetric(a.value, b.value);
  }

  lemma CompareSlugTransitive(a: Slug, b: Slug, c: Slug)
    requires CompareSlug(a, b) == Less && CompareSlug(b, c) == Less
    ensures CompareSlug(a, c) == Less
  {
    LexTransitive(a.value, b.value, c.value);
  }

  /** `Display for CurrencyId`: the name of the currency with that discriminant, else `unknown`. */
  function CurrencyIdName(id: Int32): string
  {
    if id == 1 then Currencies.CurrencyName(Currencies.Rouble)
    else if id == 2 then Currencies.CurrencyName(Currencies.Euro)
    else if id == 3 then Currencies.CurrencyName(Currencies.Dollar)
    else if id == 4 then Currencies.CurrencyName(Currencies.Bitcoin)
    else if id == 5 then Currencies.CurrencyName(Currencies.Etherium)
    else if id == 6 then Currencies.CurrencyName(Currencies.Stq)
    else "unknown"
  }

  /** Every currency's discriminant displays as that currency's name, Rouble included. */
  lemma CurrencyIdNameOfCurrency(c: Currencies.Currency)
    ensures CurrencyIdName(Currencies.Discriminant(c) as Int32) == Currencies.CurrencyName(c)
  {
  }

  /** A value that is no currency's discriminant displays as `unknown`. */
  lemma CurrencyIdNameUnknown(id: Int32)
    requires !(1 <= id <= 6)
    ensures CurrencyIdName(id) == "unknown"
  {
  }
}
