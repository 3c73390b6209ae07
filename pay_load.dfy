/**
 * The payload record `PayNL\Sdk\Model\Pay\PayLoad`: a constructor that copies
 * and casts each key of an array once into typed properties, and getters.
 * Under strict types an uncast value that does not match its property's type
 * (a missing key reads as null) is a TypeError; the constructor then fails on
 * the first such property, named in the failure.
 */
module PayLoad {
  import opened Wrappers
  import opened PhpValue

  datatype PayLoad = PayLoad(
    reference: string,
    action: string,
    paymentProfile: int,
    payOrderId: string,
    orderId: string,
    internalStateId: int,
    internalStateName: string,
    checkoutData: Value,
    fullPayLoad: Value)
  {
    function GetFullPayLoad(): Value
    {
      fullPayLoad
    }

    function GetInternalStateId(): int
    {
      internalStateId
    }

    function GetInternalStateName(): string
    {
      internalStateName
    }
  }

  /** `new PayLoad($payload)`; a failure names the typed property that refused its value. */
  function FromArray(payload: Value): (r: Result<PayLoad, string>)
    requires payload.Arr?
    ensures r.Success? <==>
      Get(payload, "reference").Str? && Get(payload, "action").Str?
      && Get(payload, "pay_order_id").Str? && Get(payload, "order_id").Str?
      && Get(payload, "internal_state_id").Int?
    ensures r.Success? ==>
      Str(r.value.reference) == Get(payload, "reference")
      && Str(r.value.action) == Get(payload, "action")
      && Str(r.value.payOrderId) == Get(payload, "pay_order_id")
      && Str(r.value.orderId) == Get(payload, "order_id")
      && Int(r.value.GetInternalStateId()) == Get(payload, "internal_state_id")
      && r.value.paymentProfile == IntCast(Get(payload, "payment_profile"))
      && r.value.GetInternalStateName() == StrCast(Get(payload, "internal_state_name"))
      && r.value.checkoutData.Arr? && r.value.GetFullPayLoad().Arr?
    ensures Get(payload, "full_payload").Arr? && r.Success? ==>
      r.value.GetFullPayLoad() == Get(payload, "full_payload")
  {
    var reference := Get(payload, "reference");
    var action := Get(payload, "action");
    var payOrderId := Get(payload, "pay_order_id");
    var orderId := Get(payload, "order_id");
    var stateId := Get(payload, "internal_state_id");
    if !reference.Str? then Failure("reference")
    else if !action.Str? then Failure("action")
    else if !payOrderId.Str? then Failure("payOrderId")
    else if !orderId.Str? then Failure("orderId")
    else if !stateId.Int? then Failure("internalStateId")
    else Success(PayLoad(
      reference := reference.s,
      action := action.s,
      paymentProfile := IntCast(Get(payload, "payment_profile")),
      payOrderId := payOrderId.s,
      orderId := orderId.s,
      internalStateId := stateId.i,
      internalStateName := StrCast(Get(payload, "internal_state_name")),
      checkoutData := ArrayCast(Get(payload, "checkout_data")),
      fullPayLoad := ArrayCast(Get(payload, "full_payload"))))
  }

  /** The first property to refuse its value is the one named, in assignment order. */
  lemma FromArrayFailureOrder(payload: Value)
    requires payload.Arr?
    ensures !Get(payload, "reference").Str? ==> FromArray(payload) == Failure("reference")
    ensures Get(payload, "reference").Str? && !Get(payload, "action").Str? ==>
      FromArray(payload) == Failure("action")
  {
  }

  /** A payment profile given as a decimal string is stored as that integer. */
  lemma {:induction false} PaymentProfileFromDecimal(payload: Value, n: int)
    requires payload.Arr? && FromArray(payload).Success?
    requires Get(payload, "payment_profile") == Str(IntToString(n))
    ensures FromArray(payload).value.paymentProfile == n
  {
    IntToStringRoundTrip(n);
  }

  /** A full payload that is not an array is wrapped by the array cast, as `[0 => value]`. */
  lemma FullPayLoadWrapped(payload: Value)
    requires payload.Arr? && FromArray(payload).Success?
    ensures var f := Get(payload, "full_payload");
      !f.Arr? && !f.Null? ==> FromArray(payload).value.GetFullPayLoad() == Arr([(IntKey(0), f)])
  {
  }

  /** A payment profile in exponent form is cast to its value: "1e3" is stored as 1000. */
  lemma PaymentProfileFromExponent(payload: Value, m: nat, e: nat)
    requires payload.Arr? && FromArray(payload).Success?
    requires Get(payload, "payment_profile") == Str(NatToString(m) + "e" + NatToString(e))
    ensures FromArray(payload).value.paymentProfile == m * Pow10(e)
  {
    ExponentForm(m, e);
  }

  /**
   * The state id, unlike the payment profile, is not cast: its decimal form
   * is refused even though the same text is accepted as a payment profile.
   */
  lemma StateIdIsNotCast(payload: Value, n: int)
    requires payload.Arr?
    requires Get(payload, "reference").Str? && Get(payload, "action").Str?
    requires Get(payload, "pay_order_id").Str? && Get(payload, "order_id").Str?
    requires Get(payload, "internal_state_id") == Str(IntToString(n))
    ensures FromArray(payload) == Failure("internalStateId")
  {
  }

  /**
   * The getters give back what the constructor stored: the state id as
   * given, the string cast of the state name, and the array cast of the full
   * payload.
   */
  lemma GettersReadInput(payload: Value)
    requires payload.Arr? && FromArray(payload).Success?
    ensures var l := FromArray(payload).value;
      Int(l.GetInternalStateId()) == Get(payload, "internal_state_id")
      && l.GetInternalStateName() == StrCast(Get(payload, "internal_state_name"))
      && l.GetFullPayLoad() == ArrayCast(Get(payload, "full_payload"))
  {
  }
}
