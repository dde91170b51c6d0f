/**
 * Entitlement (app.py, User, subscribe, webhook_received, check_subscription):
 * each user row carries a `subscribed` flag and an optional billing customer id,
 * unique when present. Opening a checkout creates the billing customer only when
 * the row has none; a signed checkout.session.completed event switches
 * `subscribed` on for the row whose customer id matches; nothing switches it off.
 */
module Billing {
  import opened Common

  /** A row of the user table; the password hash is opaque here and left out. */
  datatype User = User(id: nat, email: string, subscribed: bool, customerId: Option<string>)

  /** `if not user.stripe_customer_id` is false: a stored id that is neither NULL nor "". */
  predicate HasCustomer(u: User) {
    u.customerId.Some? && u.customerId.value != ""
  }

  /** The table's unique columns: id, email, and stripe_customer_id, which may be NULL in many rows. */
  predicate UniqueKeys(users: seq<User>) {
    forall j, k :: 0 <= j < k < |users| ==>
      && users[j].id != users[k].id
      && users[j].email != users[k].email
      && (users[j].customerId.Some? ==> users[j].customerId != users[k].customerId)
  }

  /** Some row other than i already holds customer id c. */
  predicate CustomerIdTaken(users: seq<User>, i: nat, c: string) {
    exists k :: 0 <= k < |users| && k != i && users[k].customerId == Some(c)
  }

  // ---------------------------------------------------------------------------
  // POST /api/subscribe
  // ---------------------------------------------------------------------------

  /** A billing-provider call: its answer (a customer id or a checkout URL), or an exception. */
  datatype StripeReply = Answer(value: string) | StripeRaised(message: string)

  /** 200 with the checkout URL, or 400 with the exception's text. */
  datatype SubscribeResponse =
    | CheckoutUrl(url: string)
    | StripeError(message: string)
    | ConstraintViolation   // the commit's IntegrityError, also answered 400

  datatype SubscribeRun = SubscribeRun(
    users: seq<User>,
    response: SubscribeResponse,
    calls: seq<ExternalCall>)

  /** The second half of subscribe: open a checkout session for the customer. */
  function OpenCheckout(
    users: seq<User>,
    customer: string,
    createSession: string -> StripeReply,
    calls: seq<ExternalCall>): (r: SubscribeRun)
    ensures r.users == users && r.calls == calls + [CreateCheckoutSession(customer)]
    ensures r.response.CheckoutUrl? <==> createSession(customer).Answer?
    ensures r.response.CheckoutUrl? ==> r.response.url == createSession(customer).value
  {
    var calls' := calls + [CreateCheckoutSession(customer)];
    match createSession(customer)
    case StripeRaised(m) => SubscribeRun(users, StripeError(m), calls')
    case Answer(url) => SubscribeRun(users, CheckoutUrl(url), calls')
  }

  /**
   * subscribe for the logged-in user at row i, as a function of the billing
   * provider's answers: createCustomer(email) the new customer's id,
   * retrieveCustomer(id) the retrieved customer's id, createSession(id) the
   * checkout URL.
   */
  function Subscription(
    users: seq<User>,
    i: nat,
    createCustomer: string -> StripeReply,
    retrieveCustomer: string -> StripeReply,
    createSession: string -> StripeReply): (r: SubscribeRun)
    requires i < |users|
    // only row i can change, and only its customer id
    ensures |r.users| == |users| && 1 <= |r.calls| <= 2
    ensures forall j :: 0 <= j < |users| && j != i ==> r.users[j] == users[j]
    ensures r.users[i] == users[i].(customerId := r.users[i].customerId)
    // an assigned id is kept and only retrieved; no customer is created
    ensures HasCustomer(users[i]) ==>
      && r.users == users
      && CustomersCreated(r.calls) == 0
      && r.calls[0] == RetrieveCustomer(users[i].customerId.value)
    // with no id, exactly one customer is created, and its id is stored unless the
    // creation raised or another row already holds that id
    ensures !HasCustomer(users[i]) ==>
      && CustomersCreated(r.calls) == 1
      && r.calls[0] == CreateCustomer(users[i].email)
    ensures !HasCustomer(users[i]) ==>
      var created := createCustomer(users[i].email);
      if created.Answer? && !CustomerIdTaken(users, i, created.value)
      then r.users[i].customerId == Some(created.value)
      else r.users == users
    ensures r.response == ConstraintViolation ==> r.users == users
    // the checkout is opened for the customer just created or retrieved
    ensures r.response.CheckoutUrl? ==>
      && |r.calls| == 2 && r.calls[1].CreateCheckoutSession?
      && createSession(r.calls[1].customerId) == Answer(r.response.url)
      && (if HasCustomer(users[i])
          then retrieveCustomer(users[i].customerId.value) == Answer(r.calls[1].customerId)
          else createCustomer(users[i].email) == Answer(r.calls[1].customerId))
    // the response: a checkout URL exactly when every billing call answers and the
    // new id is free; otherwise the first exception's message, or the commit's failure
    ensures r.response.CheckoutUrl? <==>
      if HasCustomer(users[i]) then
        var retrieved := retrieveCustomer(users[i].customerId.value);
        retrieved.Answer? && createSession(retrieved.value).Answer?
      else
        var created := createCustomer(users[i].email);
        && created.Answer? && !CustomerIdTaken(users, i, created.value)
        && createSession(created.value).Answer?
    ensures r.response == ConstraintViolation <==>
      var created := createCustomer(users[i].email);
      !HasCustomer(users[i]) && created.Answer? && CustomerIdTaken(users, i, created.value)
    ensures HasCustomer(users[i]) ==>
      var retrieved := retrieveCustomer(users[i].customerId.value);
      && (retrieved.StripeRaised? ==> r.response == StripeError(retrieved.message) && |r.calls| == 1)
      && (retrieved.Answer? && createSession(retrieved.value).StripeRaised? ==>
            r.response == StripeError(createSession(retrieved.value).message))
    ensures !HasCustomer(users[i]) ==>
      var created := createCustomer(users[i].email);
      && (created.StripeRaised? ==> r.response == StripeError(created.message) && |r.calls| == 1)
      && (created.Answer? && !CustomerIdTaken(users, i, created.value)
          && createSession(created.value).StripeRaised? ==>
            r.response == StripeError(createSession(created.value).message))
    // the calls made, and no others: the customer call, then the checkout request
    // only when that call answered and its id was committed
    ensures r.calls ==
      if HasCustomer(users[i]) then
        var retrieved := retrieveCustomer(users[i].customerId.value);
        [RetrieveCustomer(users[i].customerId.value)]
          + (if retrieved.Answer? then [CreateCheckoutSession(retrieved.value)] else [])
      else
        var created := createCustomer(users[i].email);
        [CreateCustomer(users[i].email)]
          + (if created.Answer? && !CustomerIdTaken(users, i, created.value)
             then [CreateCheckoutSession(created.value)] else [])
    // the unique constraints hold afterwards
    ensures UniqueKeys(users) ==> UniqueKeys(r.users)
  {
    var user := users[i];
    if !HasCustomer(user) then
      var calls := [CreateCustomer(user.email)];
      match createCustomer(user.email)
      case StripeRaised(m) => SubscribeRun(users, StripeError(m), calls)
      case Answer(id) =>
        if CustomerIdTaken(users, i, id) then
          SubscribeRun(users, ConstraintViolation, calls)
        else
          var users' := users[i := user.(customerId := Some(id))];
          OpenCheckout(users', id, createSession, calls)
    else
      var calls := [RetrieveCustomer(user.customerId.value)];
      match retrieveCustomer(user.customerId.value)
      case StripeRaised(m) => SubscribeRun(users, StripeError(m), calls)
      case Answer(id) => OpenCheckout(users, id, createSession, calls)
  }

  /**
   * Once a subscribe has left a customer id on the row (the checkout itself may
   * still have raised, since the id is committed first), a later subscribe of the
   * same user creates no further customer and keeps the stored id.
   */
  lemma SecondSubscribeCreatesNoCustomer(
    users: seq<User>,
    i: nat,
    createCustomer: string -> StripeReply,
    retrieveCustomer: string -> StripeReply,
    createSession: string -> StripeReply,
    createCustomer': string -> StripeReply,
    retrieveCustomer': string -> StripeReply,
    createSession': string -> StripeReply)
    requires i < |users|
    requires HasCustomer(Subscription(users, i, createCustomer, retrieveCustomer, createSession).users[i])
    ensures
      var first := Subscription(users, i, createCustomer, retrieveCustomer, createSession);
      var second := Subscription(first.users, i, createCustomer', retrieveCustomer', createSession');
      && CustomersCreated(first.calls + second.calls) <= 1
      && HasCustomer(second.users[i])
      && second.users[i].customerId == first.users[i].customerId
  {
    var first := Subscription(users, i, createCustomer, retrieveCustomer, createSession);
    var second := Subscription(first.users, i, createCustomer', retrieveCustomer', createSession');
    CustomersCreatedAppend(first.calls, second.calls);
  }

  // ---------------------------------------------------------------------------
  // POST /webhook
  // ---------------------------------------------------------------------------

  /** The event's data.object; `customer` is absent or null in some sessions. */
  datatype CheckoutSession = CheckoutSession(customer: Option<string>)

  /** A decoded billing event: its type and, when present, its data.object. */
  datatype Event = Event(kind: string, dataObject: Option<CheckoutSession>)

  const CheckoutCompleted: string := "checkout.session.completed"

  /** 200 {success: true}, 400 {success: false, error}, or 500 for an uncaught KeyError. */
  datatype WebhookResponse = Acknowledged | Rejected | WebhookCrashed

  datatype WebhookRun = WebhookRun(users: seq<User>, response: WebhookResponse)

  /**
   * stripe.Webhook.construct_event: the payload must decode and its signature
   * header must verify against the endpoint secret; `verify` stands for the
   * provider's signature scheme.
   */
  function ConstructEvent(
    payload: seq<byte>,
    signature: Option<string>,
    secret: Option<string>,
    decode: seq<byte> -> Option<Event>,
    verify: (seq<byte>, Option<string>, Option<string>) -> bool): (e: Option<Event>)
    ensures e.Some? <==> decode(payload).Some? && verify(payload, signature, secret)
    ensures e.Some? ==> e == decode(payload)
  {
    if decode(payload).Some? && verify(payload, signature, secret) then decode(payload) else None
  }

  /**
   * User.query.filter_by(stripe_customer_id=key).first(): the first row, in
   * table order, whose column equals key; a None key is SQL's IS NULL.
   */
  function FirstWithCustomer(users: seq<User>, key: Option<string>): (r: Option<nat>)
    ensures r.Some? ==>
      && r.value < |users|
      && users[r.value].customerId == key
      && forall j :: 0 <= j < r.value ==> users[j].customerId != key
    ensures r.None? ==> forall j :: 0 <= j < |users| ==> users[j].customerId != key
  {
    if users == [] then None
    else if users[0].customerId == key then Some(0)
    else
      match FirstWithCustomer(users[1..], key)
      case None => None
      case Some(j) => Some(j + 1)
  }

  /** webhook_received as a function of the table and the delivered request. */
  function WebhookDelivery(
    users: seq<User>,
    payload: seq<byte>,
    signature: Option<string>,
    secret: Option<string>,
    decode: seq<byte> -> Option<Event>,
    verify: (seq<byte>, Option<string>, Option<string>) -> bool): (r: WebhookRun)
    // a failed signature or payload check is a 400 with no state change
    ensures r.response == Rejected <==> ConstructEvent(payload, signature, secret, decode, verify).None?
    ensures r.response != Acknowledged ==> r.users == users
    // only checkout.session.completed has an effect
    ensures var e := ConstructEvent(payload, signature, secret, decode, verify);
      e.Some? && e.value.kind != CheckoutCompleted ==> r == WebhookRun(users, Acknowledged)
    // only the flag changes, it never goes back to false, and only on the matched row
    ensures |r.users| == |users|
    ensures forall j :: 0 <= j < |users| ==> r.users[j] == users[j].(subscribed := r.users[j].subscribed)
    ensures forall j :: 0 <= j < |users| && users[j].subscribed ==> r.users[j].subscribed
    ensures forall j :: 0 <= j < |users| && r.users[j] != users[j] ==>
      var e := ConstructEvent(payload, signature, secret, decode, verify);
      && e.Some? && e.value.kind == CheckoutCompleted && e.value.dataObject.Some?
      && FirstWithCustomer(users, e.value.dataObject.value.customer) == Some(j)
    // a verified completed checkout subscribes the matched row, and is acknowledged matched or not
    ensures var e := ConstructEvent(payload, signature, secret, decode, verify);
      e.Some? && e.value.kind == CheckoutCompleted && e.value.dataObject.Some? ==>
      && r.response == Acknowledged
      && match FirstWithCustomer(users, e.value.dataObject.value.customer)
         case Some(j) => r.users[j].subscribed
         case None => r.users == users
    // a completed checkout without data.object fails on the attribute access: a 500
    ensures var e := ConstructEvent(payload, signature, secret, decode, verify);
      r.response == WebhookCrashed <==>
        e.Some? && e.value.kind == CheckoutCompleted && e.value.dataObject.None?
    ensures UniqueKeys(users) ==> UniqueKeys(r.users)
  {
    match ConstructEvent(payload, signature, secret, decode, verify)
    case None => WebhookRun(users, Rejected)
    case Some(event) =>
      if event.kind != CheckoutCompleted then WebhookRun(users, Acknowledged)
      else
        match event.dataObject
        case None => WebhookRun(users, WebhookCrashed)
        case Some(session) =>
          match FirstWithCustomer(users, session.customer)
          case None => WebhookRun(users, Acknowledged)
          case Some(j) => WebhookRun(users[j := users[j].(subscribed := true)], Acknowledged)
  }

  /**
   * A completed checkout whose session carries no customer is looked up with
   * IS NULL, so it subscribes the first row that has no customer id at all.
   */
  lemma NullCustomerSubscribesFirstRowWithoutId(
    users: seq<User>,
    payload: seq<byte>,
    signature: Option<string>,
    secret: Option<string>,
    decode: seq<byte> -> Option<Event>,
    verify: (seq<byte>, Option<string>, Option<string>) -> bool,
    j: nat)
    requires decode(payload) == Some(Event(CheckoutCompleted, Some(CheckoutSession(None))))
    requires verify(payload, signature, secret)
    requires j < |users| && users[j].customerId.None?
    requires forall k :: 0 <= k < j ==> users[k].customerId.Some?
    ensures WebhookDelivery(users, payload, signature, secret, decode, verify).users[j].subscribed
  {
  }

  /** With unique ids, a customer id names at most one row, and the lookup finds it. */
  lemma CustomerLookupIsUnique(users: seq<User>, c: string, j: nat)
    requires UniqueKeys(users)
    requires j < |users| && users[j].customerId == Some(c)
    ensures FirstWithCustomer(users, Some(c)) == Some(j)
    ensures forall k :: 0 <= k < |users| && users[k].customerId == Some(c) ==> k == j
  {
  }

  /** Delivering the same event twice leaves the table as delivering it once (redelivery is harmless). */
  lemma RedeliveryIsHarmless(
    users: seq<User>,
    payload: seq<byte>,
    signature: Option<string>,
    secret: Option<string>,
    decode: seq<byte> -> Option<Event>,
    verify: (seq<byte>, Option<string>, Option<string>) -> bool)
    ensures
      var once := WebhookDelivery(users, payload, signature, secret, decode, verify);
      var twice := WebhookDelivery(once.users, payload, signature, secret, decode, verify);
      twice == once
  {
  }

  // ---------------------------------------------------------------------------
  // Any interleaving of subscribe and webhook requests
  // ---------------------------------------------------------------------------

  /** One request that can change the user table, with the foreign answers it gets. */
  datatype Request =
    | SubscribeRequest(
        user: nat,
        createCustomer: string -> StripeReply,
        retrieveCustomer: string -> StripeReply,
        createSession: string -> StripeReply)
    | WebhookRequest(
        payload: seq<byte>,
        signature: Option<string>,
        secret: Option<string>,
        decode: seq<byte> -> Option<Event>,
        verify: (seq<byte>, Option<string>, Option<string>) -> bool)

  /** Every subscribe request comes from a logged-in user, that is, an existing row. */
  predicate FromExistingUsers(reqs: seq<Request>, n: nat) {
    forall k :: 0 <= k < |reqs| ==> (reqs[k].SubscribeRequest? ==> reqs[k].user < n)
  }

  function Apply(users: seq<User>, req: Request): (r: seq<User>)
    requires req.SubscribeRequest? ==> req.user < |users|
  {
    match req
    case SubscribeRequest(i, create, retrieve, session) =>
      Subscription(users, i, create, retrieve, session).users
    case WebhookRequest(payload, signature, secret, decode, verify) =>
      WebhookDelivery(users, payload, signature, secret, decode, verify).users
  }

  function ApplyAll(users: seq<User>, reqs: seq<Request>): (r: seq<User>)
    requires FromExistingUsers(reqs, |users|)
    decreases |reqs|
  {
    if reqs == [] then users
    else
      var next := Apply(users, reqs[0]);
      assert |next| == |users|;
      assert FromExistingUsers(reqs[1..], |next|) by {
        forall k | 0 <= k < |reqs| - 1
          ensures reqs[1..][k].SubscribeRequest? ==> reqs[1..][k].user < |next|
        {
          assert reqs[1..][k] == reqs[k + 1];
        }
      }
      ApplyAll(next, reqs[1..])
  }

  /**
   * Over any sequence of requests: no row is lost, no subscription is ever
   * revoked, no assigned customer id is ever replaced, and the unique
   * constraints keep holding.
   */
  lemma {:induction false} EntitlementIsMonotone(users: seq<User>, reqs: seq<Request>)
    requires FromExistingUsers(reqs, |users|)
    requires UniqueKeys(users)
    ensures |ApplyAll(users, reqs)| == |users|
    ensures UniqueKeys(ApplyAll(users, reqs))
    ensures forall j :: 0 <= j < |users| && users[j].subscribed ==> ApplyAll(users, reqs)[j].subscribed
    ensures forall j :: 0 <= j < |users| && HasCustomer(users[j]) ==>
      ApplyAll(users, reqs)[j].customerId == users[j].customerId
    decreases |reqs|
  {
    if reqs != [] {
      var next := Apply(users, reqs[0]);
      assert FromExistingUsers(reqs[1..], |next|) by {
        forall k | 0 <= k < |reqs| - 1
          ensures reqs[1..][k].SubscribeRequest? ==> reqs[1..][k].user < |next|
        {
          assert reqs[1..][k] == reqs[k + 1];
        }
      }
      EntitlementIsMonotone(next, reqs[1..]);
    }
  }

  // ---------------------------------------------------------------------------
  // The persisted table
  // ---------------------------------------------------------------------------

  /** The user table, whose rows the routes update in place. */
  class UserTable {
    var users: seq<User>

    ghost predicate Valid()
      reads this
    {
      UniqueKeys(users)
    }

    constructor (rows: seq<User>)
      requires UniqueKeys(rows)
      ensures Valid() && users == rows
    {
      users := rows;
    }

    /** check_subscription: the logged-in user's flag. */
    method CheckSubscription(i: nat) returns (subscribed: bool)
      requires i < |users|
      ensures subscribed <==> users[i].subscribed
    {
      subscribed := users[i].subscribed;
    }

    /** subscribe: create or retrieve the customer, persist a new id, open a checkout. */
    method Subscribe(
      i: nat,
      createCustomer: string -> StripeReply,
      retrieveCustomer: string -> StripeReply,
      createSession: string -> StripeReply)
      returns (response: SubscribeResponse, calls: seq<ExternalCall>)
      requires Valid() && i < |users|
      modifies this
      ensures Valid()
      ensures var r := Subscription(old(users), i, createCustomer, retrieveCustomer, createSession);
        users == r.users && response == r.response && calls == r.calls
    {
      var user := users[i];
      var customer: string;
      if !HasCustomer(user) {
        calls := [CreateCustomer(user.email)];
        var created := createCustomer(user.email);
        if created.StripeRaised? {
          return StripeError(created.message), calls;
        }
        if CustomerIdTaken(users, i, created.value) {
          // the commit fails on the unique column and the change is discarded
          return ConstraintViolation, calls;
        }
        users := users[i := user.(customerId := Some(created.value))];
        customer := created.value;
      } else {
        calls := [RetrieveCustomer(user.customerId.value)];
        var retrieved := retrieveCustomer(user.customerId.value);
        if retrieved.StripeRaised? {
          return StripeError(retrieved.message), calls;
        }
        customer := retrieved.value;
      }
      calls := calls + [CreateCheckoutSession(customer)];
      var session := createSession(customer);
      if session.StripeRaised? {
        response := StripeError(session.message);
      } else {
        response := CheckoutUrl(session.value);
      }
    }

    /** webhook_received: verify, filter on the event type, subscribe the matched row. */
    method HandleWebhook(
      payload: seq<byte>,
      signature: Option<string>,
      secret: Option<string>,
      decode: seq<byte> -> Option<Event>,
      verify: (seq<byte>, Option<string>, Option<string>) -> bool)
      returns (response: WebhookResponse)
      requires Valid()
      modifies this
      ensures Valid()
      ensures var r := WebhookDelivery(old(users), payload, signature, secret, decode, verify);
        users == r.users && response == r.response
    {
      var event := ConstructEvent(payload, signature, secret, decode, verify);
      if event.None? {
        return Rejected;
      }
      if event.value.kind == CheckoutCompleted {
        if event.value.dataObject.None? {
          return WebhookCrashed;
        }
        var match_ := FirstWithCustomer(users, event.value.dataObject.value.customer);
        if match_.Some? {
          var j := match_.value;
          users := users[j := users[j].(subscribed := true)];
        }
      }
      response := Acknowledged;
    }
  }
}
