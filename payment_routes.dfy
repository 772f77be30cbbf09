/** The payment routes: the price table consulted before a payment intent is
    requested from the processor, and the plan change recorded once the
    processor reports the payment as succeeded. */
module PaymentRoutes {
  import opened Values
  import opened Store

  const PaymentFailed := "Payment not successful"

  /** The own properties of the `prices` object, in cents. */
  function Price(planId: string): (cents: Option<nat>)
    ensures planId == "monthly" <==> cents == Some(499)
    ensures planId == "yearly" <==> cents == Some(3999)
    ensures planId == "lifetime" <==> cents == Some(8999)
    ensures cents.None? <==> planId !in {"monthly", "yearly", "lifetime"}
  {
    if planId == "monthly" then Some(499)
    else if planId == "yearly" then Some(3999)
    else if planId == "lifetime" then Some(8999)
    else None
  }

  /** The members every plain object inherits from `Object.prototype`. */
  const InheritedMembers: set<string> := {
    "constructor", "hasOwnProperty", "isPrototypeOf", "propertyIsEnumerable", "toString",
    "toLocaleString", "valueOf", "__proto__", "__defineGetter__", "__defineSetter__",
    "__lookupGetter__", "__lookupSetter__"}

  /** What `prices[planId]` evaluates to in JavaScript. */
  datatype Lookup = Cents(amount: nat) | InheritedMember(name: string) | Undefined

  /** `prices[planId]` as written: the own properties, then the inherited
      members, which are all functions or objects and therefore truthy. */
  function PriceLookupAsWritten(planId: Option<string>): Lookup
  {
    if planId.None? then Undefined
    else match Price(planId.value)
      case Some(c) => Cents(c)
      case None => if planId.value in InheritedMembers then InheritedMember(planId.value) else Undefined
  }

  /** `if (!amount)` as written: the guard lets every truthy lookup through. */
  predicate PassesGuardAsWritten(planId: Option<string>)
  {
    !PriceLookupAsWritten(planId).Undefined?
  }

  /** "constructor" is not a plan, yet it passes the guard, and a payment
      intent is requested with a function for its amount. */
  lemma InheritedMemberPassesGuard()
    ensures PassesGuardAsWritten(Some("constructor"))
    ensures Price("constructor").None?
  {
  }

  /** What the create-payment-intent route asks of the processor. */
  datatype IntentRequest = IntentRequest(amount: nat, currency: string, plan: string)

  datatype IntentOutcome = Rejected(reply: Reply) | Requested(request: IntentRequest)

  /** POST /create-payment-intent, with the lookup restricted to the table's
      own entries: any other plan is refused before the processor is asked. */
  function CreatePaymentIntent(planId: Option<string>): (r: IntentOutcome)
    ensures r.Requested? <==> planId.Some? && Price(planId.value).Some?
    ensures r.Rejected? ==> r.reply == Reply(400, InvalidPlan)
    ensures r.Requested? ==>
      && r.request.amount == Price(planId.value).value
      && r.request.currency == "usd" && r.request.plan == planId.value
  {
    if planId.None? then Rejected(Reply(400, InvalidPlan))
    else match Price(planId.value)
      case None => Rejected(Reply(400, InvalidPlan))
      case Some(amount) => Requested(IntentRequest(amount, "usd", planId.value))
  }

  /** POST /confirm-payment, given the status the processor reports for the
      payment intent. The plan id is written as sent, without a look at the
      price table; an id with no account changes nothing and still answers
      success. */
  method ConfirmPayment(db: UserStore, id: Option<nat>, status: string, planId: string, now: int)
    returns (reply: Reply)
    requires db.Valid()
    modifies db
    ensures db.Valid()
    ensures status != "succeeded" ==> reply == Reply(400, PaymentFailed) && unchanged(db)
    ensures status == "succeeded" ==>
      && reply.status == 200 && db.outbox == old(db.outbox)
      && db.users == if id.Some? && id.value < |old(db.users)|
                     then old(db.users)[id.value := old(db.users)[id.value].(plan := Some(planId), premiumSince := Some(now))]
                     else old(db.users)
  {
    if status != "succeeded" {
      return Reply(400, PaymentFailed);
    }
    if id.Some? && id.value < |db.users| {
      var user := db.users[id.value];
      user := user.(plan := Some(planId), premiumSince := Some(now));
      db.users := db.users[id.value := user];
    }
    reply := Reply(200, "");
  }
}
