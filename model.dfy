/**
 * `Model` of the routes crate: the nineteen entity kinds, each with a
 * snake-case display name, a parser accepting exactly those names, and the
 * URL segment the entity is served under.
 */
module Models {
  import opened Wrappers
  import opened FieldErrors

  datatype Model =
    | User | JWT | Store | Product | BaseProduct | UserRoles | Attribute | Category
    | CartProduct | CartStore | SearchCategory | WizardStore | ModeratorProductComment
    | ModeratorStoreComment | UserDeliveryAddress | Warehouse | WarehouseProduct
    | WarehouseUser | Order

  /** `Display`: the snake-case name of each model. */
  function ModelName(m: Model): string
  {
    match m
    case User => "user"
    case JWT => "jwt"
    case Store => "store"
    case Product => "product"
    case BaseProduct => "base_product"
    case UserRoles => "user_roles"
    case Attribute => "attribute"
    case Category => "category"
    case CartProduct => "cart_product"
    case CartStore => "cart_store"
    case SearchCategory => "search_category"
    case WizardStore => "wizard_store"
    case ModeratorProductComment => "moderator_product_comment"
    case ModeratorStoreComment => "moderator_store_comment"
    case UserDeliveryAddress => "user_delivery_address"
    case Warehouse => "warehouse"
    case WarehouseProduct => "warehouse_product"
    case WarehouseUser => "warehouse_user"
    case Order => "order"
  }

  /** The arms of `FromStr`, in source order: each accepted name and the model it parses to. */
  function FromStrArms(): seq<(string, Model)> {
    [
      ("user", User),
      ("jwt", JWT),
      ("store", Store),
      ("product", Product),
      ("base_product", BaseProduct),
      ("user_roles", UserRoles),
      ("attribute", Attribute),
      ("category", Category),
      ("cart_product", CartProduct),
      ("cart_store", CartStore),
      ("search_category", SearchCategory),
      ("wizard_store", WizardStore),
      ("moderator_product_comment", ModeratorProductComment),
      ("moderator_store_comment", ModeratorStoreComment),
      ("user_delivery_address", UserDeliveryAddress),
      ("warehouse", Warehouse),
      ("warehouse_product", WarehouseProduct),
      ("warehouse_user", WarehouseUser),
      ("order", Order)
    ]
  }

  /** The model of the first arm whose name is `s`, as a string `match` tries its arms. */
  function Lookup(s: string, arms: seq<(string, Model)>): (r: Option<Model>)
    ensures r.Some? ==> exists i :: 0 <= i < |arms| && arms[i] == (s, r.value)
  {
    if arms == [] then None
    else if arms[0].0 == s then Some(arms[0].1)
    else
      var r := Lookup(s, arms[1..]);
      assert r.Some? ==> exists i :: 0 <= i < |arms| && arms[i] == (s, r.value) by {
        if r.Some? {
          var i :| 0 <= i < |arms[1..]| && arms[1..][i] == (s, r.value);
          assert arms[i + 1] == (s, r.value);
        }
      }
      r
  }

  /** `FromStr`: exact names; anything else is an `Unknown model` error with code 300. */
  function ParseModel(s: string): Result<Model, FieldError>
  {
    match Lookup(s, FromStrArms())
    case Some(m) => Ok(m)
    case None => Err(UnknownName("Unknown model", "model", "model", s))
  }

  /** The two tables agree: every arm of `FromStr` accepts exactly the display name of its model. */
  lemma ArmsAreDisplayNames()
    ensures forall i :: 0 <= i < |FromStrArms()| ==> ModelName(FromStrArms()[i].1) == FromStrArms()[i].0
  {
  }

  /** Where a model's arm sits in `FromStr`. */
  function ArmIndex(m: Model): (i: nat)
    ensures i < |FromStrArms()| && FromStrArms()[i] == (ModelName(m), m)
  {
    match m
    case User => 0
    case JWT => 1
    case Store => 2
    case Product => 3
    case BaseProduct => 4
    case UserRoles => 5
    case Attribute => 6
    case Category => 7
    case CartProduct => 8
    case CartStore => 9
    case SearchCategory => 10
    case WizardStore => 11
    case ModeratorProductComment => 12
    case ModeratorStoreComment => 13
    case UserDeliveryAddress => 14
    case Warehouse => 15
    case WarehouseProduct => 16
    case WarehouseUser => 17
    case Order => 18
  }

  /** No name is accepted by two arms. */
  lemma ArmsDistinct()
    ensures forall j, k :: 0 <= j < k < |FromStrArms()| ==> FromStrArms()[j].0 != FromStrArms()[k].0
  {
  }

  /** The lookup answers with the first arm whose name matches. */
  lemma {:induction false} LookupFirst(s: string, arms: seq<(string, Model)>, i: nat)
    requires i < |arms| && arms[i].0 == s
    requires forall j :: 0 <= j < i ==> arms[j].0 != s
    ensures Lookup(s, arms) == Some(arms[i].1)
  {
    if i > 0 {
      LookupFirst(s, arms[1..], i - 1);
    }
  }

  /** Parsing a model's display name gives the model back. */
  lemma NameRoundTrip(m: Model)
    ensures ParseModel(ModelName(m)) == Ok(m)
  {
    ArmsDistinct();
    LookupFirst(ModelName(m), FromStrArms(), ArmIndex(m));
  }

  /** The parser only accepts display names, each for its own model. */
  lemma ParseModelSound(s: string, m: Model)
    ensures ParseModel(s) == Ok(m) ==> ModelName(m) == s
  {
    if ParseModel(s) == Ok(m) {
      ArmsAreDisplayNames();
      var i :| 0 <= i < |FromStrArms()| && FromStrArms()[i] == (s, m);
    }
  }

  lemma ParseModelExact(s: string, m: Model)
    ensures ParseModel(s) == Ok(m) <==> ModelName(m) == s
  {
    NameRoundTrip(m);
    ParseModelSound(s, m);
  }

  /** An unknown name is rejected with code 300. */
  lemma ParseModelRejects(s: string)
    requires forall m: Model :: ModelName(m) != s
    ensures ParseModel(s) == Err(UnknownName("Unknown model", "model", "model", s))
    ensures ParseModel(s).error.code == 300
  {
    if ParseModel(s).Ok? {
      ParseModelExact(s, ParseModel(s).value);
    }
  }

  lemma ModelNameInjective(a: Model, b: Model)
    ensures ModelName(a) == ModelName(b) ==> a == b
  {
  }

  /** `to_url`: the URL segment of the model, mostly the plural of its name; reading it back gives the model. */
  function ToUrl(m: Model): (u: string)
    ensures ModelOfUrl(u) == Some(m)
  {
    match m
    case User => "users"
    case JWT => "jwt"
    case Store => "stores"
    case Product => "products"
    case BaseProduct => "base_products"
    case UserRoles => "user_roles"
    case Attribute => "attributes"
    case Category => "categories"
    case CartProduct => "cart_products"
    case CartStore => "cart_store"
    case SearchCategory => "search_category"
    case WizardStore => "wizard_stores"
    case ModeratorProductComment => "moderator_product_comments"
    case ModeratorStoreComment => "moderator_store_comments"
    case UserDeliveryAddress => "user_delivery_address"
    case Warehouse => "warehouses"
    case WarehouseProduct => "warehouse_products"
    case WarehouseUser => "warehouse_users"
    case Order => "orders"
  }

  /** The model a URL segment names, if any: the reading-back partner of `ToUrl`. */
  function ModelOfUrl(u: string): Option<Model>
  {
    if u == "users" then Some(User)
    else if u == "jwt" then Some(JWT)
    else if u == "stores" then Some(Store)
    else if u == "products" then Some(Product)
    else if u == "base_products" then Some(BaseProduct)
    else if u == "user_roles" then Some(UserRoles)
    else if u == "attributes" then Some(Attribute)
    else if u == "categories" then Some(Category)
    else if u == "cart_products" then Some(CartProduct)
    else if u == "cart_store" then Some(CartStore)
    else if u == "search_category" then Some(SearchCategory)
    else if u == "wizard_stores" then Some(WizardStore)
    else if u == "moderator_product_comments" then Some(ModeratorProductComment)
    else if u == "moderator_store_comments" then Some(ModeratorStoreComment)
    else if u == "user_delivery_address" then Some(UserDeliveryAddress)
    else if u == "warehouses" then Some(Warehouse)
    else if u == "warehouse_products" then Some(WarehouseProduct)
    else if u == "warehouse_users" then Some(WarehouseUser)
    else if u == "orders" then Some(Order)
    else None
  }

  /** No two models share a URL segment. */
  lemma ToUrlInjective(a: Model, b: Model)
    ensures ToUrl(a) == ToUrl(b) ==> a == b
  {
  }

  /** The URL segment is not always the display name... */
  lemma UrlDiffersFromName()
    ensures ToUrl(User) == "users" && ModelName(User) == "user"
  {
  }

  /** ...and sometimes it is. */
  lemma UrlEqualsName()
    ensures ToUrl(CartStore) == ModelName(CartStore) == "cart_store"
  {
  }
}
