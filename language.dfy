/**
 * `Language` of the static resources: nine languages numbered from 1, a
 * lower-case display name each, a parser accepting exactly those names, and
 * the `(key, name)` list offered to GraphQL clients.
 */
module Languages {
  import opened Wrappers
  import opened FieldErrors

  datatype Language = English | Chinese | German | Russian | Spanish | French | Korean | Portuguese | Japanese

  /** `value as i32`: the discriminants run from `English = 1` in declaration order. */
  function Discriminant(l: Language): (n: int)
    ensures 1 <= n <= 9
  {
    match l
    case English => 1
    case Chinese => 2
    case German => 3
    case Russian => 4
    case Spanish => 5
    case French => 6
    case Korean => 7
    case Portuguese => 8
    case Japanese => 9
  }

  /** `Display`; parsing the name gives the language back. */
  function LanguageName(l: Language): (s: string)
    ensures ParseLanguage(s) == Ok(l)
  {
    match l
    case English => "english"
    case Chinese => "chinese"
    case German => "german"
    case Russian => "russian"
    case Spanish => "spanish"
    case French => "french"
    case Korean => "korean"
    case Portuguese => "portuguese"
    case Japanese => "japanese"
  }

  /**
   * `FromStr`: exact, case-sensitive names. The rejection reuses the wording
   * of the service parser: message `Unknown service`, code 300.
   */
  function ParseLanguage(s: string): Result<Language, FieldError>
  {
    if s == "english" then Ok(English)
    else if s == "chinese" then Ok(Chinese)
    else if s == "german" then Ok(German)
    else if s == "russian" then Ok(Russian)
    else if s == "spanish" then Ok(Spanish)
    else if s == "french" then Ok(French)
    else if s == "korean" then Ok(Korean)
    else if s == "portuguese" then Ok(Portuguese)
    else if s == "japanese" then Ok(Japanese)
    else Err(UnknownName("Unknown service", "service", "service", s))
  }

  /** The parser accepts a string exactly when it is the display name of the language it returns. */
  lemma ParseLanguageExact(s: string, l: Language)
    ensures ParseLanguage(s) == Ok(l) <==> LanguageName(l) == s
  {
  }

  /** Every string that names no language is rejected with code 300. */
  lemma ParseLanguageRejects(s: string)
    requires forall l: Language :: LanguageName(l) != s
    ensures ParseLanguage(s) == Err(UnknownName("Unknown service", "service", "service", s))
    ensures ParseLanguage(s).error.code == 300
  {
    if ParseLanguage(s).Ok? {
      ParseLanguageExact(s, ParseLanguage(s).value);
    }
  }

  /** Different languages display differently. */
  lemma LanguageNameInjective(a: Language, b: Language)
    ensures LanguageName(a) == LanguageName(b) ==> a == b
  {
  }

  /** The order `as_vec` visits the languages in: declaration order. */
  function AllLanguages(): (ls: seq<Language>)
    ensures |ls| == 9
    ensures forall i :: 0 <= i < 9 ==> Discriminant(ls[i]) == i + 1
  {
    [English, Chinese, German, Russian, Spanish, French, Korean, Portuguese, Japanese]
  }

  datatype LanguageGraphQl = LanguageGraphQl(key: int, name: string)

  /** `as_vec`: one `(discriminant, name)` per language, `English` first with key 1. */
  function AsVec(): (v: seq<LanguageGraphQl>)
    ensures |v| == 9
    ensures forall i :: 0 <= i < 9 ==> v[i].key == i + 1 && ParseLanguage(v[i].name) == Ok(AllLanguages()[i])
  {
    seq(9, i requires 0 <= i < 9 => LanguageGraphQl(Discriminant(AllLanguages()[i]), LanguageName(AllLanguages()[i])))
  }

  /** Every language appears in `as_vec`, under its discriminant and its display name. */
  lemma AsVecComplete(l: Language)
    ensures exists i :: 0 <= i < 9 && AsVec()[i] == LanguageGraphQl(Discriminant(l), LanguageName(l))
  {
    var i := Discriminant(l) - 1;
    assert AllLanguages()[i] == l;
    assert AsVec()[i] == LanguageGraphQl(Discriminant(l), LanguageName(l));
  }
}
