/**
 * The Stripe webhook: the event type selects a handler; a completed checkout sets the
 * user's plan from the session metadata, a deleted subscription returns the user to the
 * free plan, and the other events only log. Signature checking is Stripe's: its verdict
 * is an input. Every exception inside the handler, the 400s raised for a bad request
 * included, is caught by the catch-all and answered with 500.
 */
module Webhooks {
  import opened Wrappers
  import opened Text
  import opened JsonValue
  import opened Database
  import opened UserCrud

  /** What `stripe.Webhook.construct_event` makes of the body and signature. */
  datatype Parsed = Event(event: Json) | InvalidPayload | InvalidSignature

  datatype WebhookReply = Received | Failed(status: int, detail: string)

  /** A Python value, or the exception computing it raised. */
  datatype Outcome<T> = Ok(value: T) | Raised

  const CheckoutCompleted: string := "checkout.session.completed"
  const SubscriptionUpdated: string := "customer.subscription.updated"
  const SubscriptionDeleted: string := "customer.subscription.deleted"
  const PaymentSucceeded: string := "invoice.payment_succeeded"
  const PaymentFailed: string := "invoice.payment_failed"
  const PaymentPaid: string := "invoice.payment.paid"
  const FreePlan: string := "free"

  /** `obj.get(key)`: the member or None (JNull); an object that is not a dict raises. */
  function DictGet(obj: Json, key: string): (r: Outcome<Json>)
    ensures r.Raised? <==> !obj.JObj?
    ensures r.Ok? && r.value != JNull ==> key in obj.fields && obj.fields[key] == r.value
  {
    if !obj.JObj? then Raised
    else if key in obj.fields then Ok(obj.fields[key])
    else Ok(JNull)
  }

  /** `obj.get("metadata", {}).get(key)`. */
  function MetadataGet(obj: Json, key: string): Outcome<Json> {
    if !obj.JObj? then Raised
    else DictGet(if "metadata" in obj.fields then obj.fields["metadata"] else JObj(map[]), key)
  }

  /** `int(value)` for the metadata values Stripe delivers (strings), and Python's cases:
      booleans, integers, floats truncated toward zero; anything else raises. */
  function PyInt(j: Json): Outcome<int> {
    match j
    case JInt(i) => Ok(i)
    case JBool(b) => Ok(if b then 1 else 0)
    case JFloat(x) => Ok(if x >= 0.0 then x.Floor else -((-x).Floor))
    case JStr(s) => if ParseInt(s).Some? then Ok(ParseInt(s).value) else Raised
    case _ => Raised
  }

  /** A Stripe id argument: a string, or None; ids of another JSON type are not modelled. */
  function StripeId(j: Json): Option<string> {
    if j.JStr? then Some(j.s) else None
  }

  /** A plan update on behalf of a webhook: an unknown user raises ValueError. */
  function PlanChange(users: seq<UserRow>, id: int, plan: string, customerId: Option<string>, subscriptionId: Option<string>)
    : (r: Outcome<seq<UserRow>>)
    ensures r.Raised? <==> !(1 <= id <= |users|)
    ensures r.Ok? ==> r.value == UpdatePlanSpec(users, id, plan, customerId, subscriptionId).0
  {
    var (after, user) := UpdatePlanSpec(users, id, plan, customerId, subscriptionId);
    if user.None? then Raised else Ok(after)
  }

  /** `handle_checkout_completed`: the users with the buyer's plan set to the lower-cased
      plan name and the Stripe ids recorded. */
  function CheckoutSpec(users: seq<UserRow>, session: Json): (r: Outcome<seq<UserRow>>)
    ensures r.Ok? ==>
      var userId := MetadataGet(session, "userId");
      var planName := MetadataGet(session, "planName");
      userId.Ok? && Truthy(userId.value) && planName.Ok? && planName.value.JStr? && |planName.value.s| > 0 &&
      PyInt(userId.value).Ok? && 1 <= PyInt(userId.value).value <= |users| && |r.value| == |users| &&
      r.value[PyInt(userId.value).value - 1].plan == Lower(planName.value.s) &&
      forall j | 0 <= j < |users| && j != PyInt(userId.value).value - 1 :: r.value[j] == users[j]
  {
    var userId := MetadataGet(session, "userId");
    var planName := MetadataGet(session, "planName");
    if userId.Raised? || planName.Raised? then Raised
    else if !Truthy(userId.value) || !Truthy(planName.value) then Raised
    else match PyInt(userId.value)
      case Raised => Raised
      case Ok(id) =>
        if !planName.value.JStr? then Raised
        else
          var customer := DictGet(session, "customer");
          var subscription := DictGet(session, "subscription");
          if customer.Raised? || subscription.Raised? then Raised
          else PlanChange(users, id, Lower(planName.value.s), StripeId(customer.value), StripeId(subscription.value))
  }

  /** `handle_subscription_deleted`: the user returns to the free plan; the subscription id
      is passed as None, so the stored one is kept. */
  function DeletionSpec(users: seq<UserRow>, subscription: Json): (r: Outcome<seq<UserRow>>)
    ensures var userId := MetadataGet(subscription, "userId");
      r.Ok? <==> userId.Ok? && Truthy(userId.value) && PyInt(userId.value).Ok? && 1 <= PyInt(userId.value).value <= |users|
    ensures r.Ok? ==>
      var id := PyInt(MetadataGet(subscription, "userId").value).value;
      |r.value| == |users| && r.value[id - 1].plan == FreePlan &&
      forall j | 0 <= j < |users| && j != id - 1 :: r.value[j] == users[j]
  {
    var userId := MetadataGet(subscription, "userId");
    if userId.Raised? || !Truthy(userId.value) then Raised
    else match PyInt(userId.value)
      case Raised => Raised
      case Ok(id) => PlanChange(users, id, FreePlan, None, None)
  }

  /** The handlers that only log: they read a metadata or invoice member and change nothing. */
  function LoggingSpec(kind: string, obj: Json): (r: Outcome<()>)
    ensures kind != SubscriptionUpdated ==> (r.Raised? <==> !obj.JObj?)
    ensures kind == SubscriptionUpdated ==>
      (r.Raised? <==> !obj.JObj? || ("metadata" in obj.fields && !obj.fields["metadata"].JObj?))
  {
    var read := if kind == SubscriptionUpdated then MetadataGet(obj, "userId") else DictGet(obj, "subscription");
    if read.Raised? then Raised else Ok(())
  }

  /** The payload's `data.object`. */
  function EventObject(event: Json): Outcome<Json> {
    match Member(event, "data")
    case None => Raised
    case Some(data) => if Member(data, "object").Some? then Ok(Member(data, "object").value) else Raised
  }

  /** The dispatch on `event["type"]`. */
  function DispatchSpec(users: seq<UserRow>, event: Json): (r: Outcome<seq<UserRow>>)
    ensures r.Ok? && r.value != users ==>
              Member(event, "type").Some? && Member(event, "type").value.JStr? &&
              (Member(event, "type").value.s == CheckoutCompleted || Member(event, "type").value.s == SubscriptionDeleted)
  {
    match Member(event, "type")
    case None => Raised
    case Some(kind) =>
      var k := if kind.JStr? then kind.s else "";
      if k == CheckoutCompleted || k == SubscriptionDeleted then
        match EventObject(event)
        case Raised => Raised
        case Ok(obj) => if k == CheckoutCompleted then CheckoutSpec(users, obj) else DeletionSpec(users, obj)
      else if k == SubscriptionUpdated || k == PaymentSucceeded || k == PaymentFailed || k == PaymentPaid then
        match EventObject(event)
        case Raised => Raised
        case Ok(obj) => if LoggingSpec(k, obj).Raised? then Raised else Ok(users)
      else Ok(users)
  }

  /** The request's outcome. As written, the three 400s are re-raised as 500 by the
      catch-all; corrected, they reach the client as raised. */
  function WebhookSpec(rev: Revision, users: seq<UserRow>, signature: Option<string>, parsed: Parsed)
    : (r: (seq<UserRow>, WebhookReply))
    ensures r.1 != Received ==> r.0 == users
    ensures r.1.Failed? ==> r.1.status == 500 || (rev == Corrected && r.1.status == 400)
    ensures r.1 == Received <==> Given(signature) && parsed.Event? && DispatchSpec(users, parsed.event).Ok?
    ensures r.1 == Received ==> r.0 == DispatchSpec(users, parsed.event).value
  {
    if !Given(signature) then (users, BadRequest(rev, "Missing stripe-signature header"))
    else if parsed.InvalidPayload? then (users, BadRequest(rev, "Invalid payload"))
    else if parsed.InvalidSignature? then (users, BadRequest(rev, "Invalid signature"))
    else match DispatchSpec(users, parsed.event)
      case Raised => (users, Failed(500, "Webhook handler failed"))
      case Ok(after) => (after, Received)
  }

  function BadRequest(rev: Revision, detail: string): WebhookReply {
    if rev == Corrected then Failed(400, detail) else Failed(500, "Webhook handler failed")
  }

  // ---- properties ----

  /** A completed checkout naming a known user and a plan sets that user's plan to the
      lower-cased name and records the customer id, and touches no other user. */
  lemma CheckoutUpgradesBuyer(users: seq<UserRow>, signature: string, event: Json, session: Json,
                              id: int, planName: string, customer: string)
    requires |signature| > 0 && 1 <= id <= |users| && |planName| > 0 && |customer| > 0
    requires Member(event, "type") == Some(JStr(CheckoutCompleted)) && EventObject(event) == Ok(session)
    requires MetadataGet(session, "userId") == Ok(JStr(IntToString(id)))
    requires MetadataGet(session, "planName") == Ok(JStr(planName))
    requires DictGet(session, "customer") == Ok(JStr(customer)) && DictGet(session, "subscription") == Ok(JNull)
    ensures var (after, reply) := WebhookSpec(AsWritten, users, Some(signature), Event(event));
            reply == Received && |after| == |users| &&
            after[id - 1].plan == Lower(planName) && after[id - 1].stripeCustomerId == Some(customer) &&
            after[id - 1].stripeSubscriptionId == users[id - 1].stripeSubscriptionId &&
            forall j | 0 <= j < |users| && j != id - 1 :: after[j] == users[j]
  {
    IntToStringRoundTrip(id);
  }

  /** A checkout for an id no user has fails with 500 and changes nothing. */
  lemma CheckoutForUnknownUserFails(users: seq<UserRow>, signature: string, event: Json)
    requires |signature| > 0
    requires Member(event, "type") == Some(JStr(CheckoutCompleted))
    requires EventObject(event).Ok?
    requires var userId := MetadataGet(EventObject(event).value, "userId");
             userId.Ok? && PyInt(userId.value).Ok? && !(1 <= PyInt(userId.value).value <= |users|)
    ensures WebhookSpec(AsWritten, users, Some(signature), Event(event)) == (users, Failed(500, "Webhook handler failed"))
  {
  }

  /** A deleted subscription returns the user to the free plan and keeps both Stripe ids. */
  lemma DeletionDowngradesKeepingIds(users: seq<UserRow>, signature: string, event: Json, subscription: Json, id: int)
    requires |signature| > 0 && 1 <= id <= |users|
    requires Member(event, "type") == Some(JStr(SubscriptionDeleted)) && EventObject(event) == Ok(subscription)
    requires MetadataGet(subscription, "userId").Ok? && Truthy(MetadataGet(subscription, "userId").value)
    requires PyInt(MetadataGet(subscription, "userId").value) == Ok(id)
    ensures WebhookSpec(AsWritten, users, Some(signature), Event(event)) ==
            (users[id - 1 := users[id - 1].(plan := FreePlan)], Received)
  {
    PlanUpdateKeepsMissingIds(users[id - 1], FreePlan, None, None);
  }

  /** Events other than a completed checkout and a deleted subscription never change a user. */
  lemma OtherEventsChangeNothing(rev: Revision, users: seq<UserRow>, signature: Option<string>, event: Json)
    requires Member(event, "type").Some?
    requires var kind := Member(event, "type").value;
             !(kind.JStr? && (kind.s == CheckoutCompleted || kind.s == SubscriptionDeleted))
    ensures WebhookSpec(rev, users, signature, Event(event)).0 == users
  {
  }

  /** As written, a request without a signature header is answered 500, not 400. */
  lemma MissingSignatureIs500(users: seq<UserRow>, parsed: Parsed)
    ensures WebhookSpec(AsWritten, users, None, parsed) == (users, Failed(500, "Webhook handler failed"))
  {
  }

  /** Corrected, a missing signature, an invalid payload and an invalid signature are 400s. */
  lemma CorrectedBadRequestsAre400(users: seq<UserRow>, signature: Option<string>, parsed: Parsed)
    requires !Given(signature) || !parsed.Event?
    ensures WebhookSpec(Corrected, users, signature, parsed).1.status == 400
    ensures WebhookSpec(Corrected, users, signature, parsed).0 == users
  {
  }

  // ---- the handlers on the session ----

  method HandleCheckoutCompleted(db: Session, session: Json) returns (ok: bool)
    modifies db
    ensures ok <==> CheckoutSpec(old(db.users), session).Ok?
    ensures db.users == if ok then CheckoutSpec(old(db.users), session).value else old(db.users)
    ensures db.AccountTables() == old(db.AccountTables()).(users := db.users)
    ensures db.CourseTables() == old(db.CourseTables())
  {
    var userId := MetadataGet(session, "userId");
    var planName := MetadataGet(session, "planName");
    if userId.Raised? || planName.Raised? || !Truthy(userId.value) || !Truthy(planName.value) {
      return false;
    }
    var id := PyInt(userId.value);
    if id.Raised? || !planName.value.JStr? {
      return false;
    }
    var customer := DictGet(session, "customer");
    var subscription := DictGet(session, "subscription");
    if customer.Raised? || subscription.Raised? {
      return false;
    }
    var user := UpdateUserPlan(db, id.value, Lower(planName.value.s), StripeId(customer.value), StripeId(subscription.value));
    ok := user.Some?;
  }

  method HandleSubscriptionDeleted(db: Session, subscription: Json) returns (ok: bool)
    modifies db
    ensures ok <==> DeletionSpec(old(db.users), subscription).Ok?
    ensures db.users == if ok then DeletionSpec(old(db.users), subscription).value else old(db.users)
    ensures db.AccountTables() == old(db.AccountTables()).(users := db.users)
    ensures db.CourseTables() == old(db.CourseTables())
  {
    var userId := MetadataGet(subscription, "userId");
    if userId.Raised? || !Truthy(userId.value) {
      return false;
    }
    var id := PyInt(userId.value);
    if id.Raised? {
      return false;
    }
    var user := UpdateUserPlan(db, id.value, FreePlan, None, None);
    ok := user.Some?;
  }

  method StripeWebhook(db: Session, signature: Option<string>, parsed: Parsed) returns (reply: WebhookReply)
    modifies db
    ensures (db.users, reply) == WebhookSpec(AsWritten, old(db.users), signature, parsed)
    ensures db.AccountTables() == old(db.AccountTables()).(users := db.users)
    ensures db.CourseTables() == old(db.CourseTables())
  {
    if !Given(signature) || !parsed.Event? {
      return Failed(500, "Webhook handler failed");
    }
    var event := parsed.event;
    var kind := Member(event, "type");
    if kind.None? {
      return Failed(500, "Webhook handler failed");
    }
    var k := if kind.value.JStr? then kind.value.s else "";
    var ok := true;
    if k == CheckoutCompleted || k == SubscriptionDeleted || k == SubscriptionUpdated ||
       k == PaymentSucceeded || k == PaymentFailed || k == PaymentPaid {
      var obj := EventObject(event);
      if obj.Raised? {
        return Failed(500, "Webhook handler failed");
      }
      if k == CheckoutCompleted {
        ok := HandleCheckoutCompleted(db, obj.value);
      } else if k == SubscriptionDeleted {
        ok := HandleSubscriptionDeleted(db, obj.value);
      } else {
        ok := LoggingSpec(k, obj.value).Ok?;
      }
    }
    reply := if ok then Received else Failed(500, "Webhook handler failed");
  }
}
