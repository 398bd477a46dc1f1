/** `Service` of the routes crate: the five backend services by lower-case name. */
module Services {
  import opened Wrappers
  import opened FieldErrors

  datatype Service = Users | Stores | Orders | Warehouses | Notifications

  /** `Display`; parsing the name gives the service back. */
  function ServiceName(s: Service): (name: string)
    ensures ParseService(name) == Ok(s)
  {
    match s
    case Users => "users"
    case Stores => "stores"
    case Orders => "orders"
    case Warehouses => "warehouses"
    case Notifications => "notifications"
  }

  /** `FromStr`: exact, lower-case names; anything else is an `Unknown service` error with code 300. */
  function ParseService(name: string): Result<Service, FieldError>
  {
    if name == "users" then Ok(Users)
    else if name == "stores" then Ok(Stores)
    else if name == "orders" then Ok(Orders)
    else if name == "warehouses" then Ok(Warehouses)
    else if name == "notifications" then Ok(Notifications)
    else Err(UnknownName("Unknown service", "service", "service", name))
  }

  lemma ParseServiceExact(name: string, s: Service)
    ensures ParseService(name) == Ok(s) <==> ServiceName(s) == name
  {
  }

  lemma ParseServiceRejects(name: string)
    requires forall s: Service :: ServiceName(s) != name
    ensures ParseService(name) == Err(UnknownName("Unknown service", "service", "service", name))
  {
    if ParseService(name).Ok? {
      ParseServiceExact(name, ParseService(name).value);
    }
  }

  /** Parsing is case-sensitive. */
  lemma CaseSensitive()
    ensures ParseService("Users").Err? && ParseService("ORDERS").Err?
  {
  }

  lemma ServiceNameInjective(a: Service, b: Service)
    ensures ServiceName(a) == ServiceName(b) ==> a == b
  {
  }
}
