/**
 * The orders service's client routes and its phone-number check.
 *
 * Routes are relative paths (no leading `/`); the i32 identifiers (user,
 * session, product, store, order slug) are written as their decimal text and
 * an order's uuid as its display text.
 */
module OrderRoutes {
  import opened Wrappers
  import opened Text
  import RolesRoutes

  /** Whose cart: a registered user, or an anonymous session. */
  datatype CartCustomer = User(userId: Int32) | Anonymous(sessionId: Int32)

  /** How an order is named: by its uuid, or by its numeric slug. */
  datatype OrderIdentifier = Id(orderId: string) | Slug(slug: Int32)

  datatype Route =
    | Cart(customer: CartCustomer)
    | CartProducts(customer: CartCustomer)
    | CartIncrementProduct(customer: CartCustomer, productId: Int32)
    | CartProduct(customer: CartCustomer, productId: Int32)
    | CartProductQuantity(customer: CartCustomer, productId: Int32)
    | CartProductSelection(customer: CartCustomer, productId: Int32)
    | CartProductComment(customer: CartCustomer, productId: Int32)
    | CartClear(customer: CartCustomer)
    | CartMerge
    | OrderFromCart
    | OrderFromCartRevert
    | OrderSearch
    | Orders
    | OrdersByUser(user: Int32)
    | OrdersByStore(storeId: Int32)
    | Order(orderId: OrderIdentifier)
    | OrderDiff(orderId: OrderIdentifier)
    | OrderStatus(orderId: OrderIdentifier)
    | OrdersAllowedStatuses
    | Roles(route: RolesRoutes.Route)

  /** `From<stq_roles::routing::Route>`: a roles route wrapped as an orders route. */
  function FromRolesRoute(r: RolesRoutes.Route): (o: Route)
    ensures o.Roles? && o.route == r
  {
    Roles(r)
  }

  /** `cart_customer_route`. */
  function CustomerSegment(c: CartCustomer): (s: string)
    ensures c.User? ==> StartsWith(s, "by-user/") && s[8..] == IntToString(c.userId)
    ensures c.Anonymous? ==> StartsWith(s, "by-session/") && s[11..] == IntToString(c.sessionId)
  {
    match c
    case User(u) => "by-user/" + IntToString(u)
    case Anonymous(sid) => "by-session/" + IntToString(sid)
  }

  /** `order_identifier_route`. */
  function IdentifierSegment(id: OrderIdentifier): (s: string)
    ensures id.Id? ==> StartsWith(s, "by-id/") && s[6..] == id.orderId
    ensures id.Slug? ==> StartsWith(s, "by-slug/") && s[8..] == IntToString(id.slug)
  {
    match id
    case Id(uuid) => "by-id/" + uuid
    case Slug(slug) => "by-slug/" + IntToString(slug)
  }

  /** Different customers give different segments: a cart route names exactly one cart. */
  lemma CustomerSegmentInjective(a: CartCustomer, b: CartCustomer)
    requires CustomerSegment(a) == CustomerSegment(b)
    ensures a == b
  {
    if a.User? && b.User? {
      IntToStringInjective(a.userId, b.userId);
    } else if a.Anonymous? && b.Anonymous? {
      IntToStringInjective(a.sessionId, b.sessionId);
    } else if a.User? {
      UserDiffersFromSession(a.userId, b.sessionId);
    } else {
      UserDiffersFromSession(b.userId, a.sessionId);
    }
  }

  lemma UserDiffersFromSession(u: Int32, s: Int32)
    ensures CustomerSegment(User(u)) != CustomerSegment(Anonymous(s))
  {
    assert CustomerSegment(User(u))[3] == 'u';
    assert CustomerSegment(Anonymous(s))[3] == 's';
  }

  /** Different identifiers give different segments. */
  lemma IdentifierSegmentInjective(a: OrderIdentifier, b: OrderIdentifier)
    requires IdentifierSegment(a) == IdentifierSegment(b)
    ensures a == b
  {
    if a.Slug? && b.Slug? {
      IntToStringInjective(a.slug, b.slug);
    } else if a.Id? && b.Slug? {
      IdDiffersFromSlug(a.orderId, b.slug);
    } else if a.Slug? && b.Id? {
      IdDiffersFromSlug(b.orderId, a.slug);
    }
  }

  lemma IdDiffersFromSlug(uuid: string, slug: Int32)
    ensures IdentifierSegment(Id(uuid)) != IdentifierSegment(Slug(slug))
  {
    assert IdentifierSegment(Id(uuid))[3] == 'i';
    assert IdentifierSegment(Slug(slug))[3] == 's';
  }

  /** `p + q` begins with `p`. */
  function Under(p: string, q: string): (s: string)
    ensures StartsWith(s, p) && s[|p|..] == q
  {
    var s := p + q;
    assert s[..|p|] == p;
    s
  }

  /** The path of a customer's cart, `cart/{customer}`. */
  function CartPath(c: CartCustomer): string {
    "cart/" + CustomerSegment(c)
  }

  /** The path of one product in a customer's cart, `cart/{customer}/products/{product}`. */
  function CartProductPath(c: CartCustomer, productId: Int32): (s: string)
    ensures StartsWith(s, CartPath(c))
  {
    Under(CartPath(c), "/products/" + IntToString(productId))
  }

  lemma StartsWithTransitive(s: string, p: string, q: string)
    requires StartsWith(s, p) && StartsWith(p, q)
    ensures StartsWith(s, q)
  {
    assert s[..|q|] == s[..|p|][..|q|];
  }

  /** `Route::route`. */
  function RouteText(r: Route): string
  {
    match r
    case Cart(c) => Under(CartPath(c), "")
    case CartProducts(c) => Under(CartPath(c), "/products")
    case CartIncrementProduct(c, p) => ProductRoute(c, p, "/increment")
    case CartProduct(c, p) => ProductRoute(c, p, "")
    case CartProductQuantity(c, p) => ProductRoute(c, p, "/quantity")
    case CartProductSelection(c, p) => ProductRoute(c, p, "/selection")
    case CartProductComment(c, p) => ProductRoute(c, p, "/comment")
    case CartClear(c) => Under(CartPath(c), "/clear")
    case CartMerge => "cart/merge"
    case OrderFromCart => "orders/create_from_cart"
    case OrderFromCartRevert => "orders/create_from_cart/revert"
    case OrderSearch => "orders/search"
    case Orders => "orders"
    case OrdersByUser(u) => "orders/by-user/" + IntToString(u)
    case OrdersByStore(st) => "orders/by-store/" + IntToString(st)
    case Order(id) => Under("orders/" + IdentifierSegment(id), "")
    case OrderDiff(id) => Under("order_diffs/" + IdentifierSegment(id), "")
    case OrderStatus(id) => Under("orders/" + IdentifierSegment(id), "/status")
    case OrdersAllowedStatuses => "orders/allowed_statuses"
    case Roles(rr) => RolesRoutes.RouteText(rr)
  }

  /** No route starts with `/`: `build_route` supplies the separator. */
  lemma RouteTextRelative(r: Route)
    ensures |RouteText(r)| > 0 && RouteText(r)[0] != '/'
  {
  }

  /** Every cart route of a customer lies under that customer's cart path `cart/{customer}`. */
  lemma CartRoutesUnderCart(r: Route)
    requires r.Cart? || r.CartProducts? || r.CartClear? || r.CartIncrementProduct? || r.CartProduct?
      || r.CartProductQuantity? || r.CartProductSelection? || r.CartProductComment?
    ensures StartsWith(RouteText(r), CartPath(r.customer))
  {
  }

  /** The per-product cart routes lie under the product's path `cart/{customer}/products/{product}`. */
  lemma ProductRoutesUnderProduct(r: Route)
    requires r.CartIncrementProduct? || r.CartProduct? || r.CartProductQuantity? || r.CartProductSelection? || r.CartProductComment?
    ensures StartsWith(RouteText(r), CartProductPath(r.customer, r.productId))
  {
  }

  /** Order and order-status routes lie under `orders/{order}`, order diffs under `order_diffs/{order}`. */
  lemma OrderRoutesUnderOrder(r: Route)
    requires r.Order? || r.OrderStatus? || r.OrderDiff?
    ensures StartsWith(RouteText(r), (if r.OrderDiff? then "order_diffs/" else "orders/") + IdentifierSegment(r.orderId))
  {
  }

  /** A wrapped roles route renders exactly as the roles route. */
  lemma RolesRouteVerbatim(rr: RolesRoutes.Route)
    ensures RouteText(FromRolesRoute(rr)) == RolesRoutes.RouteText(rr)
  {
  }

  /** A per-product cart route: the product's path followed by `tail`. */
  function ProductRoute(c: CartCustomer, p: Int32, tail: string): (s: string)
    ensures StartsWith(s, CartProductPath(c, p)) && StartsWith(s, CartPath(c))
    ensures |s| > 0 && s[0] == 'c'
  {
    var s := Under(CartProductPath(c, p), tail);
    StartsWithTransitive(s, CartProductPath(c, p), CartPath(c));
    assert s[0] == CartPath(c)[0];
    s
  }

  /** The example route: incrementing product 42 in user 7's cart. */
  lemma IncrementExample()
    ensures RouteText(CartIncrementProduct(User(7), 42)) == "cart/" + "by-user/7" + "/products/" + "42" + "/increment"
  {
    assert IntToString(7) == "7";
    assert IntToString(42) == "42";
  }

  /** A validation failure: a code, an optional message, and (here always empty) parameters. */
  datatype ValidationError = ValidationError(code: string, message: Option<string>, params: seq<(string, string)>)

  function PhoneError(): ValidationError {
    ValidationError("phone", Some("Incorrect phone format"), [])
  }

  /** The language of `^\+?\d{7}\d*$`: an optional `+`, then at least seven digits, and nothing else. */
  ghost predicate PhoneShaped(phone: string) {
    exists digits :: (phone == digits || phone == "+" + digits) && |digits| >= 7 && AllDigits(digits)
  }

  /** `validate_phone`, with the pattern matched by hand. */
  function ValidatePhone(phone: string): (r: Result<(), ValidationError>)
    ensures r.Ok? <==> PhoneShaped(phone)
    ensures r.Err? ==> r.error == PhoneError() && r.error.code == "phone"
  {
    var digits := if |phone| > 0 && phone[0] == '+' then phone[1..] else phone;
    assert PhoneShaped(phone) ==> |digits| >= 7 && AllDigits(digits) by {
      if PhoneShaped(phone) {
        var d :| (phone == d || phone == "+" + d) && |d| >= 7 && AllDigits(d);
        if phone == d {
          assert IsDigit(phone[0]);
          assert digits == d;
        } else {
          assert digits == d;
        }
      }
    }
    assert |digits| >= 7 && AllDigits(digits) ==> PhoneShaped(phone) by {
      if |phone| > 0 && phone[0] == '+' {
        assert phone == "+" + digits;
      }
    }
    if |digits| >= 7 && AllDigits(digits) then Ok(()) else Err(PhoneError())
  }

  /** Seven digits after a leading `+` are accepted. */
  lemma PhoneWithPlusAccepted()
    ensures ValidatePhone("+1234567").Ok?
  {
    var d := "1234567";
    assert "+1234567" == "+" + d && AllDigits(d);
  }

  /** More than seven digits, without a `+`, are accepted. */
  lemma PhoneLongAccepted()
    ensures ValidatePhone("79991234567").Ok?
  {
    var d := "79991234567";
    assert forall i :: 0 <= i < |d| ==> IsDigit(d[i]);
    assert PhoneShaped(d);
  }

  /** Six digits are too few. */
  lemma PhoneTooShort()
    ensures ValidatePhone("123456").Err?
  {
  }

  /** A second `+` is not a digit. */
  lemma PhoneDoublePlus()
    ensures ValidatePhone("++1234567").Err?
  {
    assert !IsDigit("++1234567"[1..][0]);
  }

  /** A trailing letter is rejected: the pattern is anchored at the end. */
  lemma PhoneTrailingLetter()
    ensures ValidatePhone("1234567a").Err?
  {
    assert !IsDigit("1234567a"[7]);
  }
}
