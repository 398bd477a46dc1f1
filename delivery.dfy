/** `DeliveryCompany` of the static resources: two carriers, written in lower case. */
module Delivery {
  import opened Wrappers
  import opened FieldErrors

  datatype DeliveryCompany = UPS | DHL

  /** `Display`; parsing the name gives the company back. */
  function CompanyName(d: DeliveryCompany): (s: string)
    ensures ParseCompany(s) == Ok(d)
  {
    match d
    case DHL => "dhl"
    case UPS => "ups"
  }

  /** `FromStr`: `dhl` and `ups` only; anything else is an `Unknown DeliveryCompany` error with code 300. */
  function ParseCompany(s: string): Result<DeliveryCompany, FieldError>
  {
    if s == "dhl" then Ok(DHL)
    else if s == "ups" then Ok(UPS)
    else Err(UnknownName("Unknown DeliveryCompany", "delivery company", "DeliveryCompany", s))
  }

  lemma ParseCompanyExact(s: string, d: DeliveryCompany)
    ensures ParseCompany(s) == Ok(d) <==> CompanyName(d) == s
  {
  }

  lemma ParseCompanyRejects(s: string)
    requires s != "dhl" && s != "ups"
    ensures ParseCompany(s) == Err(UnknownName("Unknown DeliveryCompany", "delivery company", "DeliveryCompany", s))
  {
  }

  /** The upper-case spellings the enum variants are declared with are not accepted. */
  lemma UpperCaseRejected()
    ensures ParseCompany("DHL").Err? && ParseCompany("UPS").Err?
  {
  }

  lemma CompanyNameInjective(a: DeliveryCompany, b: DeliveryCompany)
    ensures CompanyName(a) == CompanyName(b) ==> a == b
  {
  }
}
