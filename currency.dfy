/**
 * `Currency` of the static resources: six currencies numbered from 1, a
 * lower-case display name each, a parser accepting exactly those names, and
 * the `(key, name)` list offered to GraphQL clients.
 */
module Currencies {
  import opened Wrappers
  import opened FieldErrors

  datatype Currency = Rouble | Euro | Dollar | Bitcoin | Etherium | Stq

  /** `value as i32`: the discriminants run from `Rouble = 1` in declaration order. */
  function Discriminant(c: Currency): (n: int)
    ensures 1 <= n <= 6
  {
    match c
    case Rouble => 1
    case Euro => 2
    case Dollar => 3
    case Bitcoin => 4
    case Etherium => 5
    case Stq => 6
  }

  /** `Display`; parsing the name gives the currency back. */
  function CurrencyName(c: Currency): (s: string)
    ensures ParseCurrency(s) == Ok(c)
  {
    match c
    case Rouble => "rouble"
    case Euro => "euro"
    case Dollar => "dollar"
    case Bitcoin => "bitcoin"
    case Etherium => "etherium"
    case Stq => "stq"
  }

  /** `FromStr`: exact, case-sensitive names; anything else is an `Unknown Currency` error with code 300. */
  function ParseCurrency(s: string): Result<Currency, FieldError>
  {
    if s == "rouble" then Ok(Rouble)
    else if s == "euro" then Ok(Euro)
    else if s == "dollar" then Ok(Dollar)
    else if s == "bitcoin" then Ok(Bitcoin)
    else if s == "etherium" then Ok(Etherium)
    else if s == "stq" then Ok(Stq)
    else Err(UnknownName("Unknown Currency", "Currency", "Currency", s))
  }

  /** The parser accepts a string exactly when it is the display name of the currency it returns. */
  lemma ParseCurrencyExact(s: string, c: Currency)
    ensures ParseCurrency(s) == Ok(c) <==> CurrencyName(c) == s
  {
  }

  /** Every string that names no currency, upper-case spellings included, is rejected with code 300. */
  lemma ParseCurrencyRejects(s: string)
    requires forall c: Currency :: CurrencyName(c) != s
    ensures ParseCurrency(s) == Err(UnknownName("Unknown Currency", "Currency", "Currency", s))
    ensures ParseCurrency(s).error.code == 300
  {
    if ParseCurrency(s).Ok? {
      ParseCurrencyExact(s, ParseCurrency(s).value);
    }
  }

  lemma CurrencyUpperCaseRejected()
    ensures ParseCurrency("Euro").Err? && ParseCurrency("STQ").Err?
  {
  }

  /** Different currencies display differently. */
  lemma CurrencyNameInjective(a: Currency, b: Currency)
    ensures CurrencyName(a) == CurrencyName(b) ==> a == b
  {
  }

  /** The order `as_vec` visits the currencies in: declaration order. */
  function AllCurrencies(): (cs: seq<Currency>)
    ensures |cs| == 6
    ensures forall i :: 0 <= i < 6 ==> Discriminant(cs[i]) == i + 1
  {
    [Rouble, Euro, Dollar, Bitcoin, Etherium, Stq]
  }

  datatype CurrencyGraphQl = CurrencyGraphQl(key: int, name: string)

  /** `as_vec`: one `(discriminant, name)` per currency; the receiver is not consulted. */
  function AsVec(self: Currency): (v: seq<CurrencyGraphQl>)
    ensures |v| == 6
    ensures forall i :: 0 <= i < 6 ==> v[i].key == i + 1 && ParseCurrency(v[i].name) == Ok(AllCurrencies()[i])
  {
    seq(6, i requires 0 <= i < 6 => CurrencyGraphQl(Discriminant(AllCurrencies()[i]), CurrencyName(AllCurrencies()[i])))
  }

  /** Every currency appears in `as_vec`, under its discriminant and its display name. */
  lemma AsVecComplete(self: Currency, c: Currency)
    ensures exists i :: 0 <= i < 6 && AsVec(self)[i] == CurrencyGraphQl(Discriminant(c), CurrencyName(c))
  {
    var i := Discriminant(c) - 1;
    assert AllCurrencies()[i] == c;
    assert AsVec(self)[i] == CurrencyGraphQl(Discriminant(c), CurrencyName(c));
  }

  lemma AsVecIgnoresReceiver(a: Currency, b: Currency)
    ensures AsVec(a) == AsVec(b)
  {
  }
}
