/**
 * The subscription endpoints of the Express server (backend/server.js),
 * as pure functions from a request and the billing provider's replies to a
 * response. The server keeps no state of its own.
 *
 * The billing provider is the datatype `Provider`: one function per call the
 * server makes, each returning the provider's object or the message of the
 * error it throws. The server's configuration (the environment variables it
 * reads) is the datatype `Config`; an unset variable is `None`.
 */
module SubscriptionServer {
  import opened Wrappers

  // ---------------------------------------------------------------------------
  // Responses

  /** The JSON values the endpoints send. */
  datatype Json =
    | JNull
    | JBool(b: bool)
    | JInt(i: int)
    | JString(s: string)
    | JObject(members: seq<(string, Json)>)

  datatype Body = JsonBody(json: Json) | TextBody(text: string)

  datatype Response = Response(status: nat, body: Body)

  /** `res.json(...)`: status 200 with a JSON body. */
  function Ok200(json: Json): Response {
    Response(200, JsonBody(json))
  }

  /** The reply of every JSON endpoint when a provider call throws. */
  function ServerError(message: string): (res: Response)
    ensures res.status == 500 && res.body == JsonBody(JObject([("error", JString(message))]))
  {
    Response(500, JsonBody(JObject([("error", JString(message))])))
  }

  function OptString(v: Option<string>): Json {
    match v
    case Some(s) => JString(s)
    case None => JNull
  }

  function OptInt(v: Option<int>): Json {
    match v
    case Some(n) => JInt(n)
    case None => JNull
  }

  // ---------------------------------------------------------------------------
  // Configuration and the provider interface

  datatype Config = Config(
    priceId: Option<string>,
    clientUrl: Option<string>,
    webhookSecret: Option<string>)

  /** How a template literal prints a configuration value: an unset one prints as "undefined". */
  function EnvText(v: Option<string>): string {
    match v
    case Some(s) => s
    case None => "undefined"
  }

  const SUCCESS_PATH: string := "/subscription-success?session_id={CHECKOUT_SESSION_ID}"
  const CANCEL_PATH: string := "/subscription-cancelled"
  const PORTAL_RETURN_PATH: string := "/settings"
  const TRIAL_PERIOD_DAYS: nat := 3

  datatype LineItem = LineItem(price: Option<string>, quantity: nat)

  /** The checkout session the server asks the provider to create. */
  datatype CheckoutRequest = CheckoutRequest(
    paymentMethodTypes: seq<string>,
    mode: string,
    customerEmail: Option<string>,
    lineItems: seq<LineItem>,
    trialPeriodDays: nat,
    missingPaymentMethod: string,
    successUrl: string,
    cancelUrl: string,
    metadataUsername: Option<string>)

  datatype CheckoutSession = CheckoutSession(id: string, url: Option<string>, subscription: Option<string>)

  datatype Subscription = Subscription(
    id: string,
    status: string,
    trialEnd: Option<int>,
    currentPeriodEnd: int,
    customer: string)

  /** The query of a subscription list. */
  datatype ListQuery = ListQuery(customer: Option<string>, status: string, limit: nat)

  datatype PortalRequest = PortalRequest(customer: Option<string>, returnUrl: string)

  datatype PortalSession = PortalSession(url: string)

  /** A verified webhook event: its type and the object it carries. */
  datatype Event = Event(id: string, eventType: string, object: Json)

  datatype Provider = Provider(
    createCheckoutSession: CheckoutRequest -> Result<CheckoutSession, string>,
    retrieveCheckoutSession: Option<string> -> Result<CheckoutSession, string>,
    retrieveSubscription: Option<string> -> Result<Subscription, string>,
    listSubscriptions: ListQuery -> Result<seq<Subscription>, string>,
    createPortalSession: PortalRequest -> Result<PortalSession, string>,
    /** Signature verification and parsing of a raw body with a signature header and a secret. */
    constructEvent: (string, Option<string>, Option<string>) -> Result<Event, string>)

  // ---------------------------------------------------------------------------
  // POST /create-checkout-session

  /** The request body's fields; `customerId` is read but never used. */
  datatype CheckoutParams = CheckoutParams(customerId: Option<string>, email: Option<string>, username: Option<string>)

  /**
   * The session request: card payment, subscription mode, one line item of
   * the configured price, a three-day trial that cancels when no payment
   * method is on file, and the redirect URLs under the client URL.
   */
  function CheckoutRequestFor(config: Config, params: CheckoutParams): (req: CheckoutRequest)
    ensures req.mode == "subscription" && req.paymentMethodTypes == ["card"]
    ensures req.lineItems == [LineItem(config.priceId, 1)]
    ensures req.trialPeriodDays == TRIAL_PERIOD_DAYS && req.missingPaymentMethod == "cancel"
    ensures req.customerEmail == params.email && req.metadataUsername == params.username
    ensures req.successUrl == EnvText(config.clientUrl) + SUCCESS_PATH
    ensures req.cancelUrl == EnvText(config.clientUrl) + CANCEL_PATH
  {
    CheckoutRequest(
      ["card"], "subscription", params.email, [LineItem(config.priceId, 1)],
      TRIAL_PERIOD_DAYS, "cancel",
      EnvText(config.clientUrl) + SUCCESS_PATH,
      EnvText(config.clientUrl) + CANCEL_PATH,
      params.username)
  }

  /** The checkout endpoint answers with the session's id and URL, or 500 with the provider's message. */
  function CreateCheckoutSession(config: Config, provider: Provider, params: CheckoutParams): (res: Response)
    ensures provider.createCheckoutSession(CheckoutRequestFor(config, params)).Ok? ==>
      var s := provider.createCheckoutSession(CheckoutRequestFor(config, params)).value;
      res == Ok200(JObject([("sessionId", JString(s.id)), ("url", OptString(s.url))]))
    ensures provider.createCheckoutSession(CheckoutRequestFor(config, params)).Err? ==>
      res == ServerError(provider.createCheckoutSession(CheckoutRequestFor(config, params)).error)
  {
    match provider.createCheckoutSession(CheckoutRequestFor(config, params))
    case Ok(s) => Ok200(JObject([("sessionId", JString(s.id)), ("url", OptString(s.url))]))
    case Err(m) => ServerError(m)
  }

  /** The request sent to the provider does not depend on the customer id in the request body. */
  lemma CheckoutIgnoresCustomerId(config: Config, params: CheckoutParams, other: Option<string>)
    ensures CheckoutRequestFor(config, params.(customerId := other)) == CheckoutRequestFor(config, params)
  {
  }

  /** Both redirect URLs begin with the configured client URL. */
  lemma RedirectsUnderClientUrl(config: Config, params: CheckoutParams)
    ensures var base := EnvText(config.clientUrl);
      CheckoutRequestFor(config, params).successUrl[..|base|] == base &&
      CheckoutRequestFor(config, params).cancelUrl[..|base|] == base
  {
  }

  // ---------------------------------------------------------------------------
  // POST /verify-subscription

  /** The subscription fields the verification endpoint reports. */
  function VerifyJson(sub: Subscription): Json {
    JObject([
      ("status", JString(sub.status)),
      ("trialEnd", OptInt(sub.trialEnd)),
      ("currentPeriodEnd", JInt(sub.currentPeriodEnd)),
      ("customerId", JString(sub.customer))])
  }

  /**
   * The verification endpoint: the checkout session is retrieved, then the
   * subscription it refers to; either call failing gives 500.
   */
  function VerifySubscription(provider: Provider, sessionId: Option<string>): (res: Response)
    ensures provider.retrieveCheckoutSession(sessionId).Err? ==>
      res == ServerError(provider.retrieveCheckoutSession(sessionId).error)
    ensures provider.retrieveCheckoutSession(sessionId).Ok? ==>
      var sub := provider.retrieveSubscription(provider.retrieveCheckoutSession(sessionId).value.subscription);
      (sub.Err? ==> res == ServerError(sub.error)) &&
      (sub.Ok? ==>
        res.status == 200 && res.body.JsonBody? && res.body.json == JObject([
          ("status", JString(sub.value.status)),
          ("trialEnd", OptInt(sub.value.trialEnd)),
          ("currentPeriodEnd", JInt(sub.value.currentPeriodEnd)),
          ("customerId", JString(sub.value.customer))]))
  {
    match provider.retrieveCheckoutSession(sessionId)
    case Err(m) => ServerError(m)
    case Ok(session) =>
      match provider.retrieveSubscription(session.subscription)
      case Err(m) => ServerError(m)
      case Ok(sub) => Ok200(VerifyJson(sub))
  }

  // ---------------------------------------------------------------------------
  // POST /check-subscription-status

  /** The statuses that count as an active subscription. */
  predicate IsActive(status: string) {
    status in ["active", "trialing"]
  }

  /** The status query: the customer's subscriptions of any status, at most one. */
  function StatusQuery(customerId: Option<string>): (q: ListQuery)
    ensures q == ListQuery(customerId, "all", 1)
  {
    ListQuery(customerId, "all", 1)
  }

  function StatusJson(sub: Subscription): Json {
    JObject([
      ("hasActiveSubscription", JBool(IsActive(sub.status))),
      ("status", JString(sub.status)),
      ("trialEnd", OptInt(sub.trialEnd)),
      ("currentPeriodEnd", JInt(sub.currentPeriodEnd))])
  }

  const NO_SUBSCRIPTION: Json := JObject([("hasActiveSubscription", JBool(false))])

  /**
   * The status endpoint: with no subscription, only `hasActiveSubscription:
   * false`; otherwise the first listed subscription's status, trial end and
   * period end, and whether that status is active or trialing.
   */
  function CheckSubscriptionStatus(provider: Provider, customerId: Option<string>): (res: Response)
    ensures provider.listSubscriptions(StatusQuery(customerId)).Err? ==>
      res == ServerError(provider.listSubscriptions(StatusQuery(customerId)).error)
    ensures provider.listSubscriptions(StatusQuery(customerId)) == Ok([]) ==> res == Ok200(NO_SUBSCRIPTION)
    ensures provider.listSubscriptions(StatusQuery(customerId)).Ok? && |provider.listSubscriptions(StatusQuery(customerId)).value| > 0 ==>
      var sub := provider.listSubscriptions(StatusQuery(customerId)).value[0];
      res.status == 200 &&
      res.body.JsonBody? && res.body.json.JObject? && |res.body.json.members| == 4 &&
      res.body.json.members[0] == ("hasActiveSubscription", JBool(sub.status == "active" || sub.status == "trialing")) &&
      res.body.json.members[1..] == [
        ("status", JString(sub.status)),
        ("trialEnd", OptInt(sub.trialEnd)),
        ("currentPeriodEnd", JInt(sub.currentPeriodEnd))]
  {
    match provider.listSubscriptions(StatusQuery(customerId))
    case Err(m) => ServerError(m)
    case Ok(subs) =>
      if |subs| == 0 then Ok200(NO_SUBSCRIPTION)
      else Ok200(StatusJson(subs[0]))
  }

  /** Only the first listed subscription matters: lists with the same head get the same answer. */
  lemma StatusUsesFirstOnly(p: Provider, q: Provider, customerId: Option<string>)
    requires p.listSubscriptions(StatusQuery(customerId)).Ok? && q.listSubscriptions(StatusQuery(customerId)).Ok?
    requires |p.listSubscriptions(StatusQuery(customerId)).value| > 0
    requires |q.listSubscriptions(StatusQuery(customerId)).value| > 0
    requires p.listSubscriptions(StatusQuery(customerId)).value[0] == q.listSubscriptions(StatusQuery(customerId)).value[0]
    ensures CheckSubscriptionStatus(p, customerId) == CheckSubscriptionStatus(q, customerId)
  {
  }

  // ---------------------------------------------------------------------------
  // POST /create-portal-session

  function PortalRequestFor(config: Config, customerId: Option<string>): (req: PortalRequest)
    ensures req.customer == customerId
    ensures req.returnUrl == EnvText(config.clientUrl) + PORTAL_RETURN_PATH
  {
    PortalRequest(customerId, EnvText(config.clientUrl) + PORTAL_RETURN_PATH)
  }

  /** The portal endpoint answers with the portal session's URL, or 500. */
  function CreatePortalSession(config: Config, provider: Provider, customerId: Option<string>): (res: Response)
    ensures provider.createPortalSession(PortalRequestFor(config, customerId)).Ok? ==>
      res == Ok200(JObject([("url", JString(provider.createPortalSession(PortalRequestFor(config, customerId)).value.url))]))
    ensures provider.createPortalSession(PortalRequestFor(config, customerId)).Err? ==>
      res == ServerError(provider.createPortalSession(PortalRequestFor(config, customerId)).error)
  {
    match provider.createPortalSession(PortalRequestFor(config, customerId))
    case Ok(s) => Ok200(JObject([("url", JString(s.url))]))
    case Err(m) => ServerError(m)
  }

  // ---------------------------------------------------------------------------
  // POST /webhook

  /** The arms of the webhook's switch; each one only logs. */
  datatype EventKind =
    | SubscriptionCreated
    | SubscriptionUpdated
    | SubscriptionDeleted
    | TrialWillEnd
    | PaymentSucceeded
    | PaymentFailed
    | Unhandled(eventType: string)

  const HANDLED_TYPES: seq<string> := [
    "customer.subscription.created",
    "customer.subscription.updated",
    "customer.subscription.deleted",
    "customer.subscription.trial_will_end",
    "invoice.payment_succeeded",
    "invoice.payment_failed"]

  /** The switch on the event type: a known type has its own arm, any other reaches the default. */
  function Classify(eventType: string): (k: EventKind)
    ensures k.Unhandled? <==> eventType !in HANDLED_TYPES
    ensures k.Unhandled? ==> k.eventType == eventType
    ensures k == SubscriptionCreated <==> eventType == HANDLED_TYPES[0]
    ensures k == SubscriptionUpdated <==> eventType == HANDLED_TYPES[1]
    ensures k == SubscriptionDeleted <==> eventType == HANDLED_TYPES[2]
    ensures k == TrialWillEnd <==> eventType == HANDLED_TYPES[3]
    ensures k == PaymentSucceeded <==> eventType == HANDLED_TYPES[4]
    ensures k == PaymentFailed <==> eventType == HANDLED_TYPES[5]
  {
    if eventType == "customer.subscription.created" then SubscriptionCreated
    else if eventType == "customer.subscription.updated" then SubscriptionUpdated
    else if eventType == "customer.subscription.deleted" then SubscriptionDeleted
    else if eventType == "customer.subscription.trial_will_end" then TrialWillEnd
    else if eventType == "invoice.payment_succeeded" then PaymentSucceeded
    else if eventType == "invoice.payment_failed" then PaymentFailed
    else Unhandled(eventType)
  }

  /** The webhook's response, and the switch arm the event reached, if it reached one. */
  datatype WebhookOutcome = WebhookOutcome(response: Response, dispatched: Option<EventKind>)

  const RECEIVED: Response := Response(200, JsonBody(JObject([("received", JBool(true))])))

  /**
   * The webhook: the event is verified first; a failed verification is
   * answered 400 and the event goes no further. A verified event reaches its
   * switch arm and is acknowledged, whatever its type.
   */
  function HandleWebhook(config: Config, provider: Provider, rawBody: string, signature: Option<string>): (out: WebhookOutcome)
    ensures provider.constructEvent(rawBody, signature, config.webhookSecret).Err? ==>
      out.response == Response(400, TextBody("Webhook Error: " + provider.constructEvent(rawBody, signature, config.webhookSecret).error)) &&
      out.dispatched.None?
    ensures provider.constructEvent(rawBody, signature, config.webhookSecret).Ok? ==>
      out.response == RECEIVED &&
      out.dispatched == Some(Classify(provider.constructEvent(rawBody, signature, config.webhookSecret).value.eventType))
  {
    match provider.constructEvent(rawBody, signature, config.webhookSecret)
    case Err(m) => WebhookOutcome(Response(400, TextBody("Webhook Error: " + m)), None)
    case Ok(event) => WebhookOutcome(RECEIVED, Some(Classify(event.eventType)))
  }

  /** An event is dispatched exactly when its verification succeeds, and the status says which happened. */
  lemma WebhookDispatchIffVerified(config: Config, provider: Provider, rawBody: string, signature: Option<string>)
    ensures HandleWebhook(config, provider, rawBody, signature).dispatched.Some? <==>
      provider.constructEvent(rawBody, signature, config.webhookSecret).Ok?
    ensures HandleWebhook(config, provider, rawBody, signature).response.status == 400 <==>
      provider.constructEvent(rawBody, signature, config.webhookSecret).Err?
  {
  }

  /** Any two verified events, of any types, get the same acknowledgement. */
  lemma WebhookAcknowledgesAll(config: Config, p: Provider, q: Provider, b1: string, s1: Option<string>, b2: string, s2: Option<string>)
    requires p.constructEvent(b1, s1, config.webhookSecret).Ok?
    requires q.constructEvent(b2, s2, config.webhookSecret).Ok?
    ensures HandleWebhook(config, p, b1, s1).response == HandleWebhook(config, q, b2, s2).response
  {
  }
}
