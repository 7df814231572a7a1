/** The checkout page: loading the stored cart as-is, the redirect back to the
    cart, the order total, the payment-intent request and its reply, payment
    success, and which panel is shown. Each effect and handler is a function
    from the page state (and its input) to the next state. */
module Checkout {
  import opened CartTypes
  import opened CartList
  import opened CatalogJoin
  import opened CartStore
  import opened PaymentIntentRoute

  /** The page's state hooks. A client secret that the reply left undefined or
      null is held as "", which is just as falsy. */
  datatype CheckoutState = CheckoutState(
    loading: bool,
    items: seq<CartItem>,
    paymentSuccess: bool,
    clientSecret: string)

  /** The outcome of the intent request: the network call or the JSON parse
      failed, or a JSON body came back (whatever the status). */
  datatype IntentReply = FetchFailed | Replied(body: ResponseBody)

  /** What the main card shows. */
  datatype Panel = Skeleton | OrderComplete | PaymentPanel(clientSecret: string) | WaitingForIntent

  const InitialCheckout: CheckoutState := CheckoutState(true, [], false, "")

  /** The mount effect: the stored value is taken as-is and loading ends.
      `None` when the stored value is not a list of cart entries. */
  function Mount(stored: Stored): (r: Option<CheckoutState>)
    ensures r.Some? <==> LoadForCheckout(stored).Loaded?
    ensures r.Some? ==> !r.value.loading && !r.value.paymentSuccess && r.value.clientSecret == ""
    ensures r.Some? ==> r.value.items == LoadForCheckout(stored).items
  {
    match LoadForCheckout(stored)
    case Loaded(xs) => Some(InitialCheckout.(loading := false, items := xs))
    case IllTyped => None
  }

  /** The redirect effect: back to `/cart` once loaded with nothing to pay for,
      unless the payment already went through. */
  predicate RedirectsToCart(st: CheckoutState)
  {
    !st.loading && |st.items| == 0 && !st.paymentSuccess
  }

  /** `subtotal`, which is also `total`: the catalog-priced sum of the cart in
      cart order. */
  function Subtotal(st: CheckoutState, catalog: seq<Product>): real
  {
    Total(JoinInCartOrder(st.items, catalog))
  }

  /** The intent effect: a request is sent exactly when the total is positive,
      for that total in US dollars. */
  function IntentRequestFor(st: CheckoutState, catalog: seq<Product>): (r: Option<IntentRequest>)
    ensures r.Some? <==> Subtotal(st, catalog) > 0.0
    ensures r.Some? ==> r.value.amount == Subtotal(st, catalog) && r.value.currency == "usd"
  {
    var total := Subtotal(st, catalog);
    if total > 0.0 then Some(IntentRequest(total, "usd")) else None
  }

  /** The reply handler: a JSON reply sets the secret to its `clientSecret`
      (absent from an error body, so falsy); a failed fetch changes nothing. */
  function OnIntentReply(st: CheckoutState, reply: IntentReply): (r: CheckoutState)
    ensures r.loading == st.loading && r.items == st.items && r.paymentSuccess == st.paymentSuccess
    ensures reply.FetchFailed? ==> r == st
    ensures reply.Replied? && reply.body.SecretBody? && reply.body.clientSecret.Some? ==>
              r.clientSecret == reply.body.clientSecret.value
    ensures reply.Replied? && (reply.body.ErrorBody? || reply.body.clientSecret.None?) ==>
              r.clientSecret == ""
  {
    match reply
    case FetchFailed => st
    case Replied(SecretBody(Some(secret))) => st.(clientSecret := secret)
    case Replied(_) => st.(clientSecret := "")
  }

  /** `handlePaymentSuccess`: mark success, empty the cart, erase the stored
      cart. */
  function OnPaymentSuccess(st: CheckoutState): (r: (CheckoutState, Write))
    ensures r.0.paymentSuccess && |r.0.items| == 0 && r.1 == Erase
    ensures r.0.loading == st.loading && r.0.clientSecret == st.clientSecret
  {
    (st.(paymentSuccess := true, items := []), Erase)
  }

  /** The main card: a skeleton while loading, then the confirmation once
      paid, else the payment form when a secret is held, else a waiting text. */
  function ShownPanel(st: CheckoutState): Panel
  {
    if st.loading then Skeleton
    else if st.paymentSuccess then OrderComplete
    else if st.clientSecret != "" then PaymentPanel(st.clientSecret)
    else WaitingForIntent
  }

  /** The navbar badge: zero while loading, then the quantities of all
      entries. */
  function NavbarCount(st: CheckoutState): int
  {
    if st.loading then 0 else ItemCount(st.items)
  }

  // ---------------------------------------------------------------------
  // Properties

  /** An empty or missing stored cart sends the shopper back to the cart. */
  lemma EmptyStoreRedirects(stored: Stored)
    requires stored.Absent? || stored.Unparsable? || stored == Array([])
    ensures Mount(stored).Some? && RedirectsToCart(Mount(stored).value)
  {
  }

  /** A loaded cart with entries does not redirect. */
  lemma StoredCartStays(items: seq<CartItem>)
    requires |items| > 0
    ensures Mount(Encode(items)) == Some(CheckoutState(false, items, false, ""))
    ensures !RedirectsToCart(Mount(Encode(items)).value)
  {
    SavedCartReloads(items);
  }

  /** A redirecting page never asks for a payment intent. */
  lemma RedirectMeansNoIntent(st: CheckoutState, catalog: seq<Product>)
    requires RedirectsToCart(st)
    ensures IntentRequestFor(st, catalog).None?
  {
  }

  /** An intent is requested only for a cart with at least one entry whose
      product is in the catalog. */
  lemma IntentMeansKnownEntry(st: CheckoutState, catalog: seq<Product>)
    requires IntentRequestFor(st, catalog).Some?
    ensures |JoinInCartOrder(st.items, catalog)| > 0 && |st.items| > 0
  {
  }

  /** After payment success the confirmation shows, the emptied cart no longer
      redirects, no new intent is requested, and every page reloads an empty
      cart. */
  lemma SuccessIsFinal(st: CheckoutState, catalog: seq<Product>, s: Stored)
    requires !st.loading
    ensures var (r, w) := OnPaymentSuccess(st);
            ShownPanel(r) == OrderComplete && !RedirectsToCart(r) &&
            IntentRequestFor(r, catalog).None? && NavbarCount(r) == 0 &&
            LoadForCartPage(Apply(w, s)) == Loaded([]) &&
            LoadForHomePage(Apply(w, s)) == Loaded([]) &&
            LoadForCheckout(Apply(w, s)) == Loaded([])
  {
  }

  /** A successful reply from the route brings up the payment form. */
  lemma SecretShowsPaymentForm(st: CheckoutState, secret: string)
    requires !st.loading && !st.paymentSuccess && secret != ""
    ensures ShownPanel(OnIntentReply(st, Replied(SecretBody(Some(secret))))) == PaymentPanel(secret)
  {
  }

  /** A 500 from the route is not surfaced as an error: the secret becomes
      falsy and the page shows the waiting text, even if a form was shown
      before. A failed fetch leaves the panel as it was. */
  lemma RouteErrorShowsWaiting(st: CheckoutState, message: string)
    requires !st.loading && !st.paymentSuccess
    ensures ShownPanel(OnIntentReply(st, Replied(ErrorBody(message)))) == WaitingForIntent
    ensures ShownPanel(OnIntentReply(st, FetchFailed)) == ShownPanel(st)
  {
  }

  /** End to end: the intent the processor is asked for carries the order
      total in cents (rounded to the nearest cent) and currency "usd". */
  lemma IntentChargesTotalInCents(st: CheckoutState, catalog: seq<Product>)
    requires IntentRequestFor(st, catalog).Some?
    ensures var p := ParamsFor(IntentRequestFor(st, catalog).value);
            p.currency == "usd" && p.amount == ToMinorUnits(Subtotal(st, catalog))
  {
  }

  /** A cart of two 20.00 products costs 40.00, and the processor is asked for
      4000 cents in "usd". */
  lemma FortyDollarScenario()
    ensures var catalog := [SampleProduct(1, 20.0)];
            var st := CheckoutState(false, [CartItem(1, 2)], false, "");
            Subtotal(st, catalog) == 40.0 &&
            IntentRequestFor(st, catalog) == Some(IntentRequest(40.0, "usd")) &&
            ParamsFor(IntentRequest(40.0, "usd")) == IntentParams(4000, "usd")
  {
    var catalog := [SampleProduct(1, 20.0)];
    var st := CheckoutState(false, [CartItem(1, 2)], false, "");
    assert JoinInCartOrder(st.items, catalog) == [CartProduct(catalog[0], 2)];
    FortyDollarsExample();
  }

  /** A legacy array of ids stalls the checkout page: its loader does not
      upgrade it, so no cart is loaded from it. */
  lemma LegacyCartNotUpgradedAtCheckout(ids: seq<int>)
    requires |ids| > 0
    ensures Mount(LegacyBlob(ids)).None?
  {
    LegacyCartUpgraded(ids);
  }
}
