/**
 * The record types of the types crate's `structs` module: identifier
 * wrappers with their conversions back to `i32`, the ordering of
 * `ProductId`, and this module's own display of `CurrencyId`.
 */
module Structs {
  import opened Wrappers
  import opened Text
  import Currencies
  import Newtypes

  datatype UserId = UserId(value: Int32)
  datatype ProductId = ProductId(value: Int32)
  datatype StoreId = StoreId(value: Int32)

  /** `From<UserId> for i32`. */
  function UserIdToI32(u: UserId): Int32 {
    u.value
  }

  function ProductIdToI32(p: ProductId): Int32 {
    p.value
  }

  function StoreIdToI32(s: StoreId): Int32 {
    s.value
  }

  /** Unwrapping is the inverse of wrapping, for each of the three identifiers. */
  lemma ToI32RoundTrip(n: Int32, u: UserId, p: ProductId, s: StoreId)
    ensures UserIdToI32(UserId(n)) == n && UserId(UserIdToI32(u)) == u
    ensures ProductIdToI32(ProductId(n)) == n && ProductId(ProductIdToI32(p)) == p
    ensures StoreIdToI32(StoreId(n)) == n && StoreId(StoreIdToI32(s)) == s
  {
  }

  /** `Ord for ProductId`: the order of the wrapped integers, as an `i32` newtype orders. */
  function ProductIdCmp(a: ProductId, b: ProductId): (r: Ordering)
    ensures r == Less <==> a.value < b.value
    ensures r == Equal <==> a == b
    ensures r == Greater <==> a.value > b.value
  {
    Newtypes.CompareId(Newtypes.Id32(a.value), Newtypes.Id32(b.value))
  }

  /** `PartialOrd for ProductId`: always defined, and the same verdict as `cmp`. */
  function ProductIdPartialCmp(a: ProductId, b: ProductId): (r: Option<Ordering>)
    ensures r.Some?
    ensures r.value == Less <==> a.value < b.value
    ensures r.value == Equal <==> a == b
    ensures r.value == Greater <==> a.value > b.value
  {
    Some(ProductIdCmp(a, b))
  }

  lemma ProductIdCmpAntisymmetric(a: ProductId, b: ProductId)
    ensures ProductIdCmp(b, a) == Flip(ProductIdCmp(a, b))
  {
  }

  lemma ProductIdCmpTransitive(a: ProductId, b: ProductId, c: ProductId)
    requires ProductIdCmp(a, b) == Less && ProductIdCmp(b, c) == Less
    ensures ProductIdCmp(a, c) == Less
  {
  }

  /**
   * `Display for CurrencyId` as this module writes it: Euro, Dollar, Bitcoin,
   * Etherium and Stq by discriminant, and the empty text for anything else,
   * the Rouble's discriminant 1 included.
   */
  function CurrencyIdName(id: Int32): string
  {
    if id == 2 then Currencies.CurrencyName(Currencies.Euro)
    else if id == 3 then Currencies.CurrencyName(Currencies.Dollar)
    else if id == 4 then Currencies.CurrencyName(Currencies.Bitcoin)
    else if id == 5 then Currencies.CurrencyName(Currencies.Etherium)
    else if id == 6 then Currencies.CurrencyName(Currencies.Stq)
    else ""
  }

  /** The listed currencies display by name. */
  lemma CurrencyIdNameListed(c: Currencies.Currency)
    requires c != Currencies.Rouble
    ensures CurrencyIdName(Currencies.Discriminant(c) as Int32) == Currencies.CurrencyName(c)
  {
  }

  /** The Rouble is not listed: its discriminant displays as the empty text, like any unknown value. */
  lemma CurrencyIdNameRouble()
    ensures CurrencyIdName(Currencies.Discriminant(Currencies.Rouble) as Int32) == ""
  {
  }

  lemma CurrencyIdNameOther(id: Int32)
    requires !(2 <= id <= 6)
    ensures CurrencyIdName(id) == ""
  {
  }
}
