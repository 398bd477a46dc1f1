/**
 * The notification e-mails: each kind of mail becomes a plain message with a
 * recipient, a subject and a text. Order mails link to the order's page, the
 * customer's under `profile/orders`, the store's under `manage/store`.
 */
module Emails {
  import opened Text

  datatype SimpleMail = SimpleMail(to: string, subject: string, text: string)

  datatype EmailUser = EmailUser(email: string, firstName: string, lastName: string)

  /** The implementors of `Email`, one constructor each, with their fields. */
  datatype Email =
    | OrderUpdateStateForUser(user: EmailUser, orderSlug: string, orderState: string, clusterUrl: string)
    | OrderUpdateStateForStore(storeEmail: string, orderSlug: string, orderState: string, clusterUrl: string, storeId: string)
    | OrderCreateForUser(user: EmailUser, orderSlug: string, clusterUrl: string)
    | OrderCreateForStore(storeEmail: string, orderSlug: string, clusterUrl: string, storeId: string)
    | EmailVerificationForUser(user: EmailUser, verifyEmailPath: string, token: string)
    | PasswordResetForUser(user: EmailUser, resetPasswordPath: string, token: string)
    | ApplyPasswordResetForUser(user: EmailUser)
    | ApplyEmailVerificationForUser(user: EmailUser)

  /** Mails addressed to a store rather than to a user. */
  predicate ForStore(e: Email) {
    e.OrderUpdateStateForStore? || e.OrderCreateForStore?
  }

  predicate AboutOrder(e: Email) {
    e.OrderUpdateStateForUser? || e.OrderUpdateStateForStore? || e.OrderCreateForUser? || e.OrderCreateForStore?
  }

  /** The customer's page of an order. */
  function UserOrderLink(clusterUrl: string, orderSlug: string): string {
    clusterUrl + "/profile/orders/" + orderSlug
  }

  /** The store manager's page of an order. */
  function StoreOrderLink(clusterUrl: string, storeId: string, orderSlug: string): string {
    clusterUrl + "/manage/store/" + storeId + "/orders/" + orderSlug
  }

  /** The page an order mail links to. */
  function OrderLink(e: Email): string
    requires AboutOrder(e)
  {
    if ForStore(e) then StoreOrderLink(e.clusterUrl, e.storeId, e.orderSlug)
    else UserOrderLink(e.clusterUrl, e.orderSlug)
  }

  /** A text made of `before` and an anchor to `link`; the link occurs in it. */
  function Linked(before: string, link: string): (t: string)
    ensures Contains(t, link)
  {
    ContainsMiddle(before + "<a href=\"", link, "\">this page</a>.");
    before + "<a href=\"" + link + "\">this page</a>."
  }

  /**
   * `Email::into_send_mail` of every mail kind. The recipient is the user's
   * or the store's address; order mails name the order's slug in the subject
   * and link to its page; the account mails carry the link path and token,
   * or a fixed text.
   */
  function IntoSendMail(e: Email): (m: SimpleMail)
    ensures m.to == if ForStore(e) then e.storeEmail else e.user.email
    ensures AboutOrder(e) ==> Contains(m.text, OrderLink(e))
  {
    match e
    case OrderUpdateStateForUser(user, slug, state, cluster) =>
      SimpleMail(
        user.email,
        "The order " + slug + " status",
        Linked("Orders' " + slug + " state is '" + state + "' now. You can view current info about your order on ",
               UserOrderLink(cluster, slug)))
    case OrderUpdateStateForStore(storeEmail, slug, state, cluster, storeId) =>
      SimpleMail(
        storeEmail,
        "The order " + slug + " status",
        Linked("Orders' " + slug + " state is '" + state + "' now. You can view current order info on ",
               StoreOrderLink(cluster, storeId, slug)))
    case OrderCreateForUser(user, slug, cluster) =>
      SimpleMail(
        user.email,
        "New order " + slug + ".",
        Linked("Order " + slug + " was created. You can view current info about your order on ",
               UserOrderLink(cluster, slug)))
    case OrderCreateForStore(storeEmail, slug, cluster, storeId) =>
      SimpleMail(
        storeEmail,
        "New order " + slug + ".",
        Linked("Order " + slug + " was created. You can view current order info on ",
               StoreOrderLink(cluster, storeId, slug)))
    case EmailVerificationForUser(user, path, token) =>
      SimpleMail(user.email, "Verify your account on Storiqa", path + "/" + token)
    case PasswordResetForUser(user, path, token) =>
      SimpleMail(user.email, "Password reset", path + "/" + token)
    case ApplyPasswordResetForUser(user) =>
      SimpleMail(user.email, "Successful password reset", "Password for linked account has been successfully reset.")
    case ApplyEmailVerificationForUser(user) =>
      SimpleMail(user.email, "Successful registration", "Email for linked account has been verified.")
  }

  /** Order mails name the order's slug in the subject. */
  lemma OrderSubjects(e: Email)
    requires AboutOrder(e)
    ensures IntoSendMail(e).subject ==
      if e.OrderUpdateStateForUser? || e.OrderUpdateStateForStore? then "The order " + e.orderSlug + " status"
      else "New order " + e.orderSlug + "."
  {
  }

  /** The verification and reset mails carry the link path and the token, under a fixed subject. */
  lemma TokenMails(e: Email)
    requires e.EmailVerificationForUser? || e.PasswordResetForUser?
    ensures e.EmailVerificationForUser? ==>
      IntoSendMail(e).subject == "Verify your account on Storiqa" && IntoSendMail(e).text == e.verifyEmailPath + "/" + e.token
    ensures e.PasswordResetForUser? ==>
      IntoSendMail(e).subject == "Password reset" && IntoSendMail(e).text == e.resetPasswordPath + "/" + e.token
  {
  }

  /** The two confirmation mails have fixed subject and text. */
  lemma ConfirmationMails(e: Email)
    requires e.ApplyPasswordResetForUser? || e.ApplyEmailVerificationForUser?
    ensures e.ApplyPasswordResetForUser? ==>
      IntoSendMail(e).subject == "Successful password reset" && IntoSendMail(e).text == "Password for linked account has been successfully reset."
    ensures e.ApplyEmailVerificationForUser? ==>
      IntoSendMail(e).subject == "Successful registration" && IntoSendMail(e).text == "Email for linked account has been verified."
  {
  }

  /** The state-update text for a user, as one sentence pair around the link. */
  lemma UserStateTextExample()
    ensures IntoSendMail(OrderUpdateStateForUser(EmailUser("a@b.c", "A", "B"), "42", "paid", "https://x")).text
      == "Orders' " + "42" + " state is '" + "paid" + "' now. You can view current info about your order on "
         + "<a href=\"" + "https://x" + "/profile/orders/" + "42" + "\">this page</a>."
  {
  }

  datatype TemplateVariant =
    | OrderUpdateStateForUserTemplate
    | OrderUpdateStateForStoreTemplate
    | OrderCreateForUserTemplate
    | OrderCreateForStoreTemplate
    | EmailVerificationForUserTemplate
    | PasswordResetForUserTemplate
    | ApplyPasswordResetForUserTemplate
    | ApplyEmailVerificationForUserTemplate

  /** The template variant named after a mail's kind. */
  function Variant(e: Email): TemplateVariant {
    match e
    case OrderUpdateStateForUser(_, _, _, _) => OrderUpdateStateForUserTemplate
    case OrderUpdateStateForStore(_, _, _, _, _) => OrderUpdateStateForStoreTemplate
    case OrderCreateForUser(_, _, _) => OrderCreateForUserTemplate
    case OrderCreateForStore(_, _, _, _) => OrderCreateForStoreTemplate
    case EmailVerificationForUser(_, _, _) => EmailVerificationForUserTemplate
    case PasswordResetForUser(_, _, _) => PasswordResetForUserTemplate
    case ApplyPasswordResetForUser(_) => ApplyPasswordResetForUserTemplate
    case ApplyEmailVerificationForUser(_) => ApplyEmailVerificationForUserTemplate
  }

  /** Two mails are of the same kind. */
  predicate SameKind(a: Email, b: Email) {
    || (a.OrderUpdateStateForUser? && b.OrderUpdateStateForUser?)
    || (a.OrderUpdateStateForStore? && b.OrderUpdateStateForStore?)
    || (a.OrderCreateForUser? && b.OrderCreateForUser?)
    || (a.OrderCreateForStore? && b.OrderCreateForStore?)
    || (a.EmailVerificationForUser? && b.EmailVerificationForUser?)
    || (a.PasswordResetForUser? && b.PasswordResetForUser?)
    || (a.ApplyPasswordResetForUser? && b.ApplyPasswordResetForUser?)
    || (a.ApplyEmailVerificationForUser? && b.ApplyEmailVerificationForUser?)
  }

  /** A mail of the kind a template variant is for. */
  function SampleOf(t: TemplateVariant): (e: Email)
    ensures Variant(e) == t
  {
    var u := EmailUser("", "", "");
    match t
    case OrderUpdateStateForUserTemplate => OrderUpdateStateForUser(u, "", "", "")
    case OrderUpdateStateForStoreTemplate => OrderUpdateStateForStore("", "", "", "", "")
    case OrderCreateForUserTemplate => OrderCreateForUser(u, "", "")
    case OrderCreateForStoreTemplate => OrderCreateForStore("", "", "", "")
    case EmailVerificationForUserTemplate => EmailVerificationForUser(u, "", "")
    case PasswordResetForUserTemplate => PasswordResetForUser(u, "", "")
    case ApplyPasswordResetForUserTemplate => ApplyPasswordResetForUser(u)
    case ApplyEmailVerificationForUserTemplate => ApplyEmailVerificationForUser(u)
  }

  /** One template variant per mail kind: mails share a variant exactly when they are of the same kind. */
  lemma VariantPerKind(a: Email, b: Email)
    ensures Variant(a) == Variant(b) <==> SameKind(a, b)
  {
  }
}
