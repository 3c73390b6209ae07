/**
 * The order-create request `PayNL\Sdk\Model\Request\OrderCreateRequest`:
 * private fields set by fluent setters, two validating setters (the order
 * reference and the notification recipient), the transfer-data flattening, and
 * `getBodyParameters`, which checks the required fields and builds the request
 * body, leaving out every optional field that is empty.
 */
module OrderCreateRequest {
  import opened Wrappers
  import opened PhpValue
  import Amount

  // ---------------------------------------------------------------------------
  // Messages
  // ---------------------------------------------------------------------------

  const ReferenceMessage: string := "Reference should consist of all letters or digits"
  const EmailMessage: string := "Valid email format expected as notification recipient"
  const PushMessage: string := "Recepient expected to be AD-####-#### code"
  const OnlyOneInputMessage: string :=
    "Only one of: issuerId, terminalCode, paypalOrderId or paymentInputData may be set."
  const ReturnUrlUninitialized: string :=
    "Typed property PayNL\\Sdk\\Model\\Request\\OrderCreateRequest::$returnUrl must not be accessed before initialization"

  function RequiredMessage(field: string): string
  {
    "Required param `" + field + "` is empty"
  }

  // ---------------------------------------------------------------------------
  // The reference pattern `/^([A-Za-z0-9-]+)$/`
  // ---------------------------------------------------------------------------

  predicate IsReferenceChar(c: char)
  {
    ('A' <= c <= 'Z') || ('a' <= c <= 'z') || ('0' <= c <= '9') || c == '-'
  }

  /** One or more letters, digits and dashes, and nothing else. */
  predicate IsValidReference(s: string)
  {
    |s| > 0 && forall i :: 0 <= i < |s| ==> IsReferenceChar(s[i])
  }

  /**
   * The pattern as PCRE evaluates it: without the D modifier `$` also matches
   * before a final newline, so a valid reference followed by "\n" matches too.
   */
  predicate ReferenceMatchesAsWritten(s: string)
    ensures IsValidReference(s) ==> ReferenceMatchesAsWritten(s)
    ensures ReferenceMatchesAsWritten(s) ==>
      |s| > 0 && forall i :: 0 <= i < |s| - 1 ==> IsReferenceChar(s[i])
  {
    IsValidReference(s) || (|s| > 1 && s[|s| - 1] == '\n' && IsValidReference(s[..|s| - 1]))
  }

  // ---------------------------------------------------------------------------
  // Notification recipients
  // ---------------------------------------------------------------------------

  /**
   * `setNotification`'s check of the recipient for the lower-cased type:
   * an e-mail address for 'email', a recipient starting with 'AD-' in any
   * letter case for 'push', anything for other types.
   */
  function NotificationCheck(lowerType: string, recipient: string, isEmail: string -> bool): (r: Outcome<string>)
    ensures r.Fail? <==>
      (lowerType == "email" && !isEmail(recipient))
      || (lowerType == "push" && Prefix(ToUpper(recipient), 3) != "AD-")
  {
    if lowerType == "email" && !isEmail(recipient) then Fail(EmailMessage)
    else if lowerType == "push" && Prefix(ToUpper(recipient), 3) != "AD-" then Fail(PushMessage)
    else Pass
  }

  // ---------------------------------------------------------------------------
  // Transfer data
  // ---------------------------------------------------------------------------

  /** One transfer-data row, `['name' => $key, 'value' => $value]`. */
  function TransferRow(e: (Key, Value)): (r: Value)
    ensures Get(r, "name") == KeyValue(e.0) && Get(r, "value") == e.1
  {
    assert "value" != "name" by { assert |"value"| != |"name"|; }
    Pair("name", KeyValue(e.0), "value", e.1)
  }

  /** The rows of one element; an element that is not an array gives none. */
  function Rows(es: seq<(Key, Value)>): (r: seq<Value>)
    ensures |r| == |es|
  {
    if es == [] then [] else Rows(es[..|es| - 1]) + [TransferRow(es[|es| - 1])]
  }

  function ElementRows(element: Value): seq<Value>
  {
    if element.Arr? then Rows(element.entries) else []
  }

  /** The rows of all elements, element by element. */
  function Flatten(elements: seq<(Key, Value)>): seq<Value>
  {
    if elements == [] then []
    else Flatten(elements[..|elements| - 1]) + ElementRows(elements[|elements| - 1].1)
  }

  // ---------------------------------------------------------------------------
  // The request body
  // ---------------------------------------------------------------------------

  /** The request's fields; a typed property that was never set is None. */
  datatype RequestFields = RequestFields(
    serviceId: Option<string>,
    description: string,
    reference: string,
    expire: string,
    returnUrl: Option<string>,
    exchangeUrl: string,
    amount: Option<int>,
    currency: string,
    paymentMethodId: Option<int>,
    issuerId: Option<int>,
    paypalOrderId: Option<string>,
    paymentInputData: seq<(Key, Value)>,
    terminalCode: Option<string>,
    testMode: Option<bool>,
    notificationType: string,
    notificationRecipient: string,
    transferData: seq<Value>,
    optimize: seq<(Key, Value)>)

  /** `empty()` of an integer property that may be unset. */
  predicate EmptyInt(v: Option<int>)
  {
    v.None? || v.value == 0
  }

  /** `empty()` of a string property that may be unset. */
  predicate EmptyStr(v: Option<string>)
  {
    v.None? || IsEmptyString(v.value)
  }

  function OptStr(v: Option<string>): Value
  {
    if v.Some? then Str(v.value) else Null
  }

  /**
   * The request body under construction, an array with string keys. The
   * order of its keys is not modelled: a key→value map.
   */
  type Params = map<string, Value>

  /** `$parameters[$k] ?? null`. */
  function Lookup(p: Params, k: string): Value
  {
    if k in p then p[k] else Null
  }

  /** `addField($parameters, $field, $value)`: `$value` is merged in under `$field` unless it is empty. */
  function AddField(parameters: Params, field: string, value: Value): (r: Params)
    ensures Lookup(r, field) == if IsEmpty(value) then Lookup(parameters, field) else value
    ensures forall k :: k != field ==> Lookup(r, k) == Lookup(parameters, k)
  {
    if IsEmpty(value) then parameters else parameters[field := value]
  }

  /** The number of payment inputs that `array_filter` keeps, that is, that are not empty. */
  function InputCount(f: RequestFields): nat
  {
    (if EmptyInt(f.issuerId) then 0 else 1)
    + (if EmptyStr(f.terminalCode) then 0 else 1)
    + (if EmptyStr(f.paypalOrderId) then 0 else 1)
    + (if f.paymentInputData == [] then 0 else 1)
  }

  /** The `paymentMethod` entry, None when no payment method is set. */
  function PaymentMethod(f: RequestFields): Result<Option<Value>, string>
  {
    if EmptyInt(f.paymentMethodId) then Success(None)
    else if InputCount(f) > 1 then Failure(OnlyOneInputMessage)
    else
      var base := Single("id", Int(f.paymentMethodId.value));
      Success(Some(
        if !EmptyInt(f.issuerId) then
          Assign(base, "input", Single("issuerId", Int(f.issuerId.value)))
        else if !EmptyStr(f.terminalCode) then
          Assign(base, "input", Single("terminalCode", Str(f.terminalCode.value)))
        else if !EmptyStr(f.paypalOrderId) then
          Assign(base, "input", Single("orderId", Str(f.paypalOrderId.value)))
        else if f.paymentInputData != [] then
          Assign(base, "input", Arr(f.paymentInputData))
        else base))
  }

  /** The fields every body starts with: the service id and the amount with its currency. */
  function RequiredPart(serviceId: string, amount: int, currency: string): (r: Params)
    ensures r.Keys == {"serviceId", "amount"}
    ensures Lookup(r, "serviceId") == Str(serviceId)
    ensures Get(Lookup(r, "amount"), "value") == Int(amount)
    ensures Get(Lookup(r, "amount"), "currency") == Str(currency)
  {
    assert "amount" != "serviceId" by { assert |"amount"| != |"serviceId"|; }
    assert "currency" != "value" by { assert |"currency"| != |"value"|; }
    map["serviceId" := Str(serviceId), "amount" := Pair("value", Int(amount), "currency", Str(currency))]
  }

  /** Successive `addField` calls, in order. */
  function AddFields(p: Params, fs: seq<(string, Value)>): Params
    decreases |fs|
  {
    if fs == [] then p else AddFields(AddField(p, fs[0].0, fs[0].1), fs[1..])
  }

  /** No field name occurs twice. */
  predicate DistinctNames(fs: seq<(string, Value)>)
  {
    forall i, j :: 0 <= i < j < |fs| ==> fs[i].0 != fs[j].0
  }

  /** The optional scalar fields, in the order they are added. */
  function OptionalFieldList(f: RequestFields): seq<(string, Value)>
  {
    [("returnUrl", OptStr(f.returnUrl)), ("description", Str(f.description)),
     ("reference", Str(f.reference)), ("expire", Str(f.expire)), ("exchangeUrl", Str(f.exchangeUrl))]
  }

  /** True when `k` is none of the keys the optional part writes. */
  predicate NotOptionalKey(k: string)
  {
    k != "returnUrl" && k != "description" && k != "reference" && k != "expire" && k != "exchangeUrl"
  }

  /** The optional scalar fields, each added only when it is not empty. */
  function OptionalPart(p: Params, f: RequestFields): Params
  {
    AddFields(p, OptionalFieldList(f))
  }

  /** True when `k` is none of the keys the trailing part writes. */
  predicate NotTrailingKey(k: string)
  {
    k != "integration" && k != "optimize" && k != "notification" && k != "transferData"
  }

  /** The notification entry, `['type' => ..., 'recipient' => ...]`. */
  function NotificationEntry(f: RequestFields): (r: Value)
    ensures Get(r, "type") == Str(f.notificationType)
    ensures Get(r, "recipient") == Str(f.notificationRecipient)
  {
    assert "recipient" != "type" by { assert |"recipient"| != |"type"|; }
    Pair("type", Str(f.notificationType), "recipient", Str(f.notificationRecipient))
  }

  /**
   * The writes after the payment method, as `addField` calls: integration,
   * optimize, notification, transfer data. The integration entry is never
   * empty and the notification entry is written exactly when its type is not
   * empty, so assigning them, as `getBodyParameters` does, is adding them.
   */
  function TrailingFieldList(f: RequestFields): seq<(string, Value)>
  {
    [("integration", Single("test", Bool(f.testMode == Some(true)))),
     ("optimize", Arr(f.optimize)),
     ("notification", if IsEmptyString(f.notificationType) then Null else NotificationEntry(f)),
     ("transferData", List(f.transferData))]
  }

  /** Everything after the payment method. */
  function TrailingPart(p: Params, f: RequestFields): Params
  {
    AddFields(p, TrailingFieldList(f))
  }

  /** `empty($this->$field)` for the two required arguments. */
  predicate RequiredEmpty(f: RequestFields, field: string)
  {
    if field == "amount" then EmptyInt(f.amount) else EmptyStr(f.serviceId)
  }

  /** `requiredArguments()`, in the order they are checked. */
  const RequiredArguments: seq<string> := ["amount", "serviceId"]

  /** The body up to the payment method: required part, optional part, then `paymentMethod` when there is one. */
  function Head(f: RequestFields, pm: Option<Value>): Params
    requires !EmptyStr(f.serviceId) && !EmptyInt(f.amount)
  {
    var p := OptionalPart(RequiredPart(f.serviceId.value, f.amount.value, f.currency), f);
    if pm.Some? then p["paymentMethod" := pm.value] else p
  }

  /**
   * `getBodyParameters()`, with an unset return URL read as empty: the
   * required arguments are checked in order, then the body is assembled.
   */
  function BodyParameters(f: RequestFields): (r: Result<Params, string>)
    ensures r.Success? ==> !EmptyInt(f.amount) && !EmptyStr(f.serviceId)
    ensures RequiredEmpty(f, "amount") ==> r == Failure(RequiredMessage("amount"))
  {
    if RequiredEmpty(f, "amount") then Failure(RequiredMessage("amount"))
    else if RequiredEmpty(f, "serviceId") then Failure(RequiredMessage("serviceId"))
    else
      match PaymentMethod(f)
      case Failure(m) => Failure(m)
      case Success(pm) => Success(TrailingPart(Head(f, pm), f))
  }

  /**
   * `getBodyParameters()` as written: it passes the typed property `$returnUrl`
   * to `addField`, which fails when `setReturnurl` was never called.
   */
  function BodyParametersAsWritten(f: RequestFields): (r: Result<Params, string>)
    ensures r.Success? ==> f.returnUrl.Some? && r == BodyParameters(f)
    ensures f.returnUrl.Some? ==> r == BodyParameters(f)
  {
    if RequiredEmpty(f, "amount") then Failure(RequiredMessage("amount"))
    else if RequiredEmpty(f, "serviceId") then Failure(RequiredMessage("serviceId"))
    else if f.returnUrl.None? then Failure(ReturnUrlUninitialized)
    else BodyParameters(f)
  }

  /** `optimize` after `enableFastCheckout`. */
  function FastCheckout(o: seq<(Key, Value)>, shipping: Value, billing: Value, contact: Value): seq<(Key, Value)>
  {
    var o1 := Store(o, StrKey("flow"), Str("fastCheckout"));
    var o2 := Store(o1, StrKey("shippingAddress"), shipping);
    var o3 := Store(o2, StrKey("billingAddress"), billing);
    Store(o3, StrKey("contactDetails"), contact)
  }

  // ---------------------------------------------------------------------------
  // The request object
  // ---------------------------------------------------------------------------

  class OrderCreateRequest {
    var serviceId: Option<string>
    var description: string
    var reference: string
    var expire: string
    var returnUrl: Option<string>
    var exchangeUrl: string
    var amount: Option<int>
    var currency: string
    var paymentMethodId: Option<int>
    var issuerId: Option<int>
    var paypalOrderId: Option<string>
    var paymentInputData: seq<(Key, Value)>
    var terminalCode: Option<string>
    var testMode: Option<bool>
    var notificationType: string
    var notificationRecipient: string
    var transferData: seq<Value>
    var optimize: seq<(Key, Value)>

    function State(): RequestFields
      reads this
    {
      RequestFields(serviceId, description, reference, expire, returnUrl, exchangeUrl,
                    amount, currency, paymentMethodId, issuerId, paypalOrderId,
                    paymentInputData, terminalCode, testMode, notificationType,
                    notificationRecipient, transferData, optimize)
    }

    /** What the validating setters keep: a valid reference and an 'AD-' push recipient. */
    predicate Valid()
      reads this
    {
      (reference == "" || IsValidReference(reference))
      && (notificationType == "push" ==> Prefix(ToUpper(notificationRecipient), 3) == "AD-")
    }

    constructor()
      ensures Valid()
      ensures State() == RequestFields(None, "", "", "", None, "", None, "EUR", None, None, None,
                                       [], None, None, "", "", [], [])
    {
      serviceId, description, reference, expire := None, "", "", "";
      returnUrl, exchangeUrl, amount, currency := None, "", None, "EUR";
      paymentMethodId, issuerId, paypalOrderId := None, None, None;
      paymentInputData, terminalCode, testMode := [], None, None;
      notificationType, notificationRecipient := "", "";
      transferData, optimize := [], [];
    }

    /** `enableFastCheckout($shipping, $billing, $contact)`: four keys of `optimize` are (re)set. */
    method EnableFastCheckout(shipping: Value, billing: Value, contact: Value)
      requires Valid()
      modifies this`optimize
      ensures Valid()
      ensures optimize == FastCheckout(old(optimize), shipping, billing, contact)
    {
      optimize := Store(optimize, StrKey("flow"), Str("fastCheckout"));
      optimize := Store(optimize, StrKey("shippingAddress"), shipping);
      optimize := Store(optimize, StrKey("billingAddress"), billing);
      optimize := Store(optimize, StrKey("contactDetails"), contact);
    }

    method SetReturnurl(url: string)
      requires Valid()
      modifies this`returnUrl
      ensures Valid() && returnUrl == Some(url)
    {
      returnUrl := Some(url);
    }

    /** `setAmount(Amount $amount)`: copies the amount's value and currency. */
    method SetAmount(a: Amount.Amount)
      requires Valid()
      modifies this`amount, this`currency
      ensures Valid()
      ensures amount == Some(a.value) && currency == a.currency
    {
      amount := Some(a.GetValue());
      currency := a.GetCurrency();
    }

    method SetCurrency(c: string)
      requires Valid()
      modifies this`currency
      ensures Valid() && currency == c
    {
      currency := c;
    }

    method SetServiceId(id: string)
      requires Valid()
      modifies this`serviceId
      ensures Valid() && serviceId == Some(id)
    {
      serviceId := Some(id);
    }

    method SetDescription(d: string)
      requires Valid()
      modifies this`description
      ensures Valid() && description == d
    {
      description := d;
    }

    /** `setReference($reference)`: only a reference of letters, digits and dashes is stored. */
    method SetReference(r: string) returns (o: Outcome<string>)
      requires Valid()
      modifies this`reference
      ensures Valid()
      ensures o == if IsValidReference(r) then Pass else Fail(ReferenceMessage)
      ensures reference == if IsValidReference(r) then r else old(reference)
    {
      if !IsValidReference(r) {
        return Fail(ReferenceMessage);
      }
      reference := r;
      o := Pass;
    }

    method SetExchangeUrl(url: string)
      requires Valid()
      modifies this`exchangeUrl
      ensures Valid() && exchangeUrl == url
    {
      exchangeUrl := url;
    }

    method SetPaymentMethodId(id: int)
      requires Valid()
      modifies this`paymentMethodId
      ensures Valid() && paymentMethodId == Some(id)
    {
      paymentMethodId := Some(id);
    }

    method SetIssuerId(id: int)
      requires Valid()
      modifies this`issuerId
      ensures Valid() && issuerId == Some(id)
    {
      issuerId := Some(id);
    }

    method SetPayPalOrderId(id: string)
      requires Valid()
      modifies this`paypalOrderId
      ensures Valid() && paypalOrderId == Some(id)
    {
      paypalOrderId := Some(id);
    }

    method SetPaymentInputData(data: seq<(Key, Value)>)
      requires Valid()
      modifies this`paymentInputData
      ensures Valid() && paymentInputData == data
    {
      paymentInputData := data;
    }

    method SetTestmode(t: bool)
      requires Valid()
      modifies this`testMode
      ensures Valid() && testMode == Some(t)
    {
      testMode := Some(t);
    }

    method SetExpire(e: string)
      requires Valid()
      modifies this`expire
      ensures Valid() && expire == e
    {
      expire := e;
    }

    method SetTerminal(code: string)
      requires Valid()
      modifies this`terminalCode
      ensures Valid() && terminalCode == Some(code)
    {
      terminalCode := Some(code);
    }

    /**
     * `setNotification($type, $recipient)`: the type is lower-cased; a rejected
     * recipient throws and changes nothing, an accepted one is stored with the type.
     */
    method SetNotification(notifType: string, recipient: string, isEmail: string -> bool)
      returns (o: Outcome<string>)
      requires Valid()
      modifies this`notificationType, this`notificationRecipient
      ensures Valid()
      ensures o == NotificationCheck(ToLower(notifType), recipient, isEmail)
      ensures o.Pass? ==> notificationType == ToLower(notifType) && notificationRecipient == recipient
      ensures o.Fail? ==> notificationType == old(notificationType)
                          && notificationRecipient == old(notificationRecipient)
    {
      var t := ToLower(notifType);
      if t == "email" && !isEmail(recipient) {
        return Fail(EmailMessage);
      }
      if t == "push" && Prefix(ToUpper(recipient), 3) != "AD-" {
        return Fail(PushMessage);
      }
      notificationType := t;
      notificationRecipient := recipient;
      o := Pass;
    }

    /** The inner loop of `setTransferData`: one row per key of one element, in order. */
    method AppendRows(es: seq<(Key, Value)>)
      modifies this`transferData
      ensures transferData == old(transferData) + Rows(es)
    {
      var j := 0;
      while j < |es|
        invariant 0 <= j <= |es|
        invariant transferData == old(transferData) + Rows(es[..j])
      {
        RowsStep(es, j);
        transferData := transferData + [TransferRow(es[j])];
        j := j + 1;
      }
      assert es[..j] == es;
    }

    /** `setTransferData($transferData)`: appends one row per key of each element, in order. */
    method SetTransferData(elements: seq<(Key, Value)>)
      requires Valid()
      modifies this`transferData
      ensures Valid()
      ensures transferData == old(transferData) + Flatten(elements)
    {
      var i := 0;
      while i < |elements|
        invariant 0 <= i <= |elements|
        invariant transferData == old(transferData) + Flatten(elements[..i])
      {
        var element := elements[i].1;
        var es := if element.Arr? then element.entries else [];
        AppendRows(es);
        FlattenStep(old(transferData), elements, i);
        i := i + 1;
      }
      assert elements[..i] == elements;
    }

    /** `getBodyParameters()`, step by step, with an unset return URL read as empty. */
    method GetBodyParameters() returns (r: Result<Params, string>)
      ensures r == BodyParameters(State())
    {
      var f := State();
      assert RequiredArguments[0] == "amount" && RequiredArguments[1] == "serviceId";
      var i := 0;
      while i < |RequiredArguments|
        invariant 0 <= i <= |RequiredArguments|
        invariant forall j :: 0 <= j < i ==> !RequiredEmpty(f, RequiredArguments[j])
      {
        var field := RequiredArguments[i];
        if RequiredEmpty(f, field) {
          return Failure(RequiredMessage(field));
        }
        i := i + 1;
      }
      assert !RequiredEmpty(f, RequiredArguments[0]) && !RequiredEmpty(f, RequiredArguments[1]);
      var parameters := RequiredPart(serviceId.value, amount.value, currency);
      OptionalSteps(parameters, f);
      parameters := AddField(parameters, "returnUrl", OptStr(returnUrl));
      parameters := AddField(parameters, "description", Str(description));
      parameters := AddField(parameters, "reference", Str(reference));
      parameters := AddField(parameters, "expire", Str(expire));
      parameters := AddField(parameters, "exchangeUrl", Str(exchangeUrl));

      var pm := PaymentMethod(f);
      if pm.Failure? {
        return Failure(pm.error);
      }
      if pm.value.Some? {
        parameters := parameters["paymentMethod" := pm.value.value];
      }

      TrailingSteps(parameters, f);
      parameters := parameters["integration" := Single("test", Bool(testMode == Some(true)))];
      if optimize != [] {
        parameters := AddField(parameters, "optimize", Arr(optimize));
      }
      if !IsEmptyString(notificationType) {
        parameters := parameters["notification" := NotificationEntry(f)];
      }
      parameters := AddField(parameters, "transferData", List(transferData));
      r := Success(parameters);
    }
  }

  // ---------------------------------------------------------------------------
  // Lemmas
  // ---------------------------------------------------------------------------

  /** The pattern as written also accepts a valid reference followed by a newline. */
  lemma TrailingNewlineAccepted()
    ensures ReferenceMatchesAsWritten("Order1\n")
    ensures !IsValidReference("Order1\n")
  {
    var s := "Order1\n";
    assert s[..|s| - 1] == "Order1";
    assert !IsReferenceChar(s[6]);
  }

  /** The two readings of the pattern agree on every string without a final newline. */
  lemma ReferencePatternsAgree(s: string)
    requires |s| == 0 || s[|s| - 1] != '\n'
    ensures ReferenceMatchesAsWritten(s) <==> IsValidReference(s)
  {
  }

  /**
   * A character outside the class anywhere but at the end is refused by the
   * pattern as written too: the newline exception covers the last character only.
   */
  lemma ReferenceRejectsOutsideClass(s: string, i: nat)
    requires i < |s| - 1 && !IsReferenceChar(s[i])
    ensures !ReferenceMatchesAsWritten(s)
  {
    var w := s[..|s| - 1];
    assert w[i] == s[i];
  }

  /** A push recipient is accepted exactly when it starts with 'AD-' in any letter case. */
  lemma {:induction false} PushRecipientRule(recipient: string, isEmail: string -> bool)
    ensures NotificationCheck("push", recipient, isEmail).Pass? <==>
      (|recipient| >= 3 && ToUpper(recipient[..3]) == "AD-")
  {
    if |recipient| >= 3 {
      assert Prefix(ToUpper(recipient), 3) == ToUpper(recipient[..3]);
    } else {
      assert |Prefix(ToUpper(recipient), 3)| < 3;
    }
  }

  /** The `i`-th row of an element is the row of its `i`-th key, in the element's order. */
  lemma {:induction false} RowsAt(es: seq<(Key, Value)>, i: nat)
    requires i < |es|
    ensures Rows(es)[i] == TransferRow(es[i])
  {
    if i < |es| - 1 {
      var init := es[..|es| - 1];
      RowsAt(init, i);
      assert init[i] == es[i];
    }
  }

  lemma RowsStep(es: seq<(Key, Value)>, j: nat)
    requires j < |es|
    ensures Rows(es[..j + 1]) == Rows(es[..j]) + [TransferRow(es[j])]
  {
    assert es[..j + 1][..j] == es[..j];
  }

  lemma FlattenStep(base: seq<Value>, elements: seq<(Key, Value)>, i: nat)
    requires i < |elements|
    ensures var e := elements[i].1;
      (base + Flatten(elements[..i])) + Rows(if e.Arr? then e.entries else []) == base + Flatten(elements[..i + 1])
  {
    assert elements[..i + 1][..i] == elements[..i];
  }

  /** Two calls accumulate: the rows of `a` then `b` are the rows of `a + b`. */
  lemma {:induction false} FlattenAppend(a: seq<(Key, Value)>, b: seq<(Key, Value)>)
    ensures Flatten(a + b) == Flatten(a) + Flatten(b)
  {
    if b == [] {
      assert a + b == a;
    } else {
      var n := |b| - 1;
      var ab := a + b;
      assert ab[..|ab| - 1] == a + b[..n];
      assert ab[|ab| - 1] == b[n];
      var e := ElementRows(b[n].1);
      assert Flatten(ab) == Flatten(a + b[..n]) + e;
      assert Flatten(b) == Flatten(b[..n]) + e;
      FlattenAppend(a, b[..n]);
      calc {
        Flatten(ab);
        Flatten(a + b[..n]) + e;
        (Flatten(a) + Flatten(b[..n])) + e;
        Flatten(a) + (Flatten(b[..n]) + e);
        Flatten(a) + Flatten(b);
      }
    }
  }

  /** Each element contributes one row per key, in order: the number of rows is the number of keys. */
  lemma {:induction false} FlattenSingle(k: Key, element: Value)
    ensures Flatten([(k, element)]) == ElementRows(element)
  {
    assert [(k, element)][..0] == [];
  }

  /** Fast checkout sets its four keys and leaves every other key of `optimize` as it was. */
  lemma FastCheckoutFields(o: seq<(Key, Value)>, shipping: Value, billing: Value, contact: Value)
    ensures var r := FastCheckout(o, shipping, billing, contact);
      Find(r, StrKey("flow")) == Some(Str("fastCheckout")) && Find(r, StrKey("shippingAddress")) == Some(shipping)
      && Find(r, StrKey("billingAddress")) == Some(billing) && Find(r, StrKey("contactDetails")) == Some(contact)
    ensures forall k :: (k != StrKey("flow") && k != StrKey("shippingAddress") && k != StrKey("billingAddress")
      && k != StrKey("contactDetails")) ==> Find(FastCheckout(o, shipping, billing, contact), k) == Find(o, k)
  {
    var o1 := Store(o, StrKey("flow"), Str("fastCheckout"));
    var o2 := Store(o1, StrKey("shippingAddress"), shipping);
    var o3 := Store(o2, StrKey("billingAddress"), billing);
    var o4 := Store(o3, StrKey("contactDetails"), contact);
    assert "flow" != "shippingAddress" && "flow" != "billingAddress" && "flow" != "contactDetails" by {
      assert |"flow"| == 4 && |"shippingAddress"| == 15 && |"billingAddress"| == 14 && |"contactDetails"| == 14;
    }
    assert "shippingAddress" != "billingAddress" && "shippingAddress" != "contactDetails" by {
      assert |"shippingAddress"| == 15 && |"billingAddress"| == 14 && |"contactDetails"| == 14;
    }
    assert "billingAddress" != "contactDetails" by { assert "billingAddress"[0] != "contactDetails"[0]; }
    assert Find(o4, StrKey("flow")) == Find(o1, StrKey("flow"));
    assert Find(o4, StrKey("shippingAddress")) == Find(o2, StrKey("shippingAddress"));
    assert Find(o4, StrKey("billingAddress")) == Find(o3, StrKey("billingAddress"));
  }

  /** The required arguments are checked first, amount before serviceId. */
  lemma RequiredFieldsFirst(f: RequestFields)
    ensures EmptyInt(f.amount) ==> BodyParameters(f) == Failure(RequiredMessage("amount"))
    ensures !EmptyInt(f.amount) && EmptyStr(f.serviceId) ==>
      BodyParameters(f) == Failure(RequiredMessage("serviceId"))
    ensures BodyParameters(f).Success? ==> !EmptyInt(f.amount) && !EmptyStr(f.serviceId)
  {
    assert "serviceId" != "amount" by { assert |"serviceId"| != |"amount"|; }
  }

  /** With a payment method set, more than one payment input is refused; without one, none is. */
  lemma OnlyOnePaymentInput(f: RequestFields)
    requires !EmptyInt(f.amount) && !EmptyStr(f.serviceId)
    ensures BodyParameters(f) == Failure(OnlyOneInputMessage) <==> !EmptyInt(f.paymentMethodId) && InputCount(f) > 1
  {
    assert "serviceId" != "amount" by { assert |"serviceId"| != |"amount"|; }
    if !EmptyInt(f.paymentMethodId) && InputCount(f) > 1 {
      assert PaymentMethod(f) == Failure(OnlyOneInputMessage);
    }
  }

  /** The payment input present becomes `paymentMethod.input`: issuerId first, then terminal, PayPal, input data. */
  lemma PaymentInputPrecedence(f: RequestFields)
    requires !EmptyInt(f.paymentMethodId) && InputCount(f) <= 1
    ensures PaymentMethod(f).Success? && PaymentMethod(f).value.Some?
    ensures var pm := PaymentMethod(f).value.value;
      Get(pm, "id") == Int(f.paymentMethodId.value)
      && (!EmptyInt(f.issuerId) ==> Get(pm, "input") == Single("issuerId", Int(f.issuerId.value)))
      && (!EmptyStr(f.terminalCode) ==> Get(pm, "input") == Single("terminalCode", Str(f.terminalCode.value)))
      && (!EmptyStr(f.paypalOrderId) ==> Get(pm, "input") == Single("orderId", Str(f.paypalOrderId.value)))
      && (f.paymentInputData != [] ==> Get(pm, "input") == Arr(f.paymentInputData))
      && (InputCount(f) == 0 ==> Get(pm, "input") == Null)
  {
    assert "id" != "input" by { assert |"id"| != |"input"|; }
  }

  /** Without a payment method there is no `paymentMethod` entry, whatever inputs are set. */
  lemma NoPaymentMethodWithoutId(f: RequestFields)
    requires EmptyInt(f.paymentMethodId)
    ensures PaymentMethod(f) == Success(None)
  {
  }

  /** The five `addField` calls of `getBodyParameters` are the optional part. */
  lemma OptionalSteps(p: Params, f: RequestFields)
    ensures OptionalPart(p, f) ==
      var p1 := AddField(p, "returnUrl", OptStr(f.returnUrl));
      var p2 := AddField(p1, "description", Str(f.description));
      var p3 := AddField(p2, "reference", Str(f.reference));
      var p4 := AddField(p3, "expire", Str(f.expire));
      AddField(p4, "exchangeUrl", Str(f.exchangeUrl))
  {
    var fs := OptionalFieldList(f);
    var p1 := AddField(p, "returnUrl", OptStr(f.returnUrl));
    var p2 := AddField(p1, "description", Str(f.description));
    var p3 := AddField(p2, "reference", Str(f.reference));
    var p4 := AddField(p3, "expire", Str(f.expire));
    assert AddFields(p, fs) == AddFields(p1, fs[1..]);
    assert AddFields(p1, fs[1..]) == AddFields(p2, fs[2..]);
    assert AddFields(p2, fs[2..]) == AddFields(p3, fs[3..]);
    assert AddFields(p3, fs[3..]) == AddFields(p4, fs[4..]);
    assert AddFields(p4, fs[4..]) == AddField(p4, "exchangeUrl", Str(f.exchangeUrl)) by {
      assert fs[4..][1..] == [];
    }
  }

  /** The trailing writes of `getBodyParameters`, as it makes them, are the trailing part. */
  lemma TrailingSteps(p: Params, f: RequestFields)
    ensures TrailingPart(p, f) ==
      var p1 := p["integration" := Single("test", Bool(f.testMode == Some(true)))];
      var p2 := if f.optimize != [] then AddField(p1, "optimize", Arr(f.optimize)) else p1;
      var p3 := if !IsEmptyString(f.notificationType) then p2["notification" := NotificationEntry(f)] else p2;
      AddField(p3, "transferData", List(f.transferData))
  {
    var fs := TrailingFieldList(f);
    var p1 := p["integration" := Single("test", Bool(f.testMode == Some(true)))];
    var p2 := AddField(p1, "optimize", Arr(f.optimize));
    var p3 := AddField(p2, "notification", fs[2].1);
    assert AddFields(p, fs) == AddFields(p1, fs[1..]);
    assert AddFields(p1, fs[1..]) == AddFields(p2, fs[2..]);
    assert AddFields(p2, fs[2..]) == AddFields(p3, fs[3..]);
    assert AddFields(p3, fs[3..]) == AddField(p3, "transferData", List(f.transferData)) by {
      assert fs[3..][1..] == [];
    }
  }

  /** A key none of the calls names is left as it was. */
  lemma {:induction false} AddFieldsOther(p: Params, fs: seq<(string, Value)>, k: string)
    requires forall i :: 0 <= i < |fs| ==> fs[i].0 != k
    ensures Lookup(AddFields(p, fs), k) == Lookup(p, k)
    decreases |fs|
  {
    if fs != [] {
      AddFieldsOther(AddField(p, fs[0].0, fs[0].1), fs[1..], k);
    }
  }

  /** With distinct names, each field ends up as given when it is not empty and is left as it was otherwise. */
  lemma {:induction false} AddFieldsAt(p: Params, fs: seq<(string, Value)>, i: nat)
    requires DistinctNames(fs) && i < |fs|
    ensures Lookup(AddFields(p, fs), fs[i].0) == if IsEmpty(fs[i].1) then Lookup(p, fs[i].0) else fs[i].1
    decreases |fs|
  {
    var p1 := AddField(p, fs[0].0, fs[0].1);
    if i == 0 {
      AddFieldsOther(p1, fs[1..], fs[0].0);
    } else {
      assert fs[1..][i - 1] == fs[i];
      AddFieldsAt(p1, fs[1..], i - 1);
    }
  }

  /** The five optional names are distinct. */
  lemma OptionalNamesDistinct(f: RequestFields)
    ensures DistinctNames(OptionalFieldList(f))
    ensures forall k :: NotOptionalKey(k) ==> forall i :: 0 <= i < |OptionalFieldList(f)| ==> OptionalFieldList(f)[i].0 != k
  {
    assert |"returnUrl"| == 9 && |"description"| == 11 && |"reference"| == 9 && |"expire"| == 6 && |"exchangeUrl"| == 11;
    assert "returnUrl"[2] == 't' && "reference"[2] == 'f';
    assert "description"[0] == 'd' && "exchangeUrl"[0] == 'e';
  }

  /** Each optional field is sent as given when it is not empty, and is left as it was otherwise. */
  lemma OptionalFields(p: Params, f: RequestFields)
    ensures var r := OptionalPart(p, f);
      Lookup(r, "returnUrl") == (if EmptyStr(f.returnUrl) then Lookup(p, "returnUrl") else OptStr(f.returnUrl))
      && Lookup(r, "description") == (if IsEmptyString(f.description) then Lookup(p, "description") else Str(f.description))
      && Lookup(r, "reference") == (if IsEmptyString(f.reference) then Lookup(p, "reference") else Str(f.reference))
      && Lookup(r, "expire") == (if IsEmptyString(f.expire) then Lookup(p, "expire") else Str(f.expire))
      && Lookup(r, "exchangeUrl") == (if IsEmptyString(f.exchangeUrl) then Lookup(p, "exchangeUrl") else Str(f.exchangeUrl))
    ensures forall k :: NotOptionalKey(k) ==> Lookup(OptionalPart(p, f), k) == Lookup(p, k)
  {
    var fs := OptionalFieldList(f);
    OptionalNamesDistinct(f);
    AddFieldsAt(p, fs, 0);
    AddFieldsAt(p, fs, 1);
    AddFieldsAt(p, fs, 2);
    AddFieldsAt(p, fs, 3);
    AddFieldsAt(p, fs, 4);
    forall k | NotOptionalKey(k)
      ensures Lookup(OptionalPart(p, f), k) == Lookup(p, k)
    {
      AddFieldsOther(p, fs, k);
    }
  }

  /**
   * The trailing fields: `integration.test` is exactly `testMode === true`,
   * `notification` is written exactly when the type is not empty, and
   * `optimize` and `transferData` only when they are not empty.
   */
  lemma TrailingFields(p: Params, f: RequestFields)
    ensures var r := TrailingPart(p, f);
      Get(Lookup(r, "integration"), "test") == Bool(f.testMode == Some(true))
      && Lookup(r, "notification") == (if IsEmptyString(f.notificationType) then Lookup(p, "notification") else NotificationEntry(f))
      && Lookup(r, "optimize") == (if f.optimize == [] then Lookup(p, "optimize") else Arr(f.optimize))
      && Lookup(r, "transferData") == (if f.transferData == [] then Lookup(p, "transferData") else List(f.transferData))
    ensures forall k :: NotTrailingKey(k) ==> Lookup(TrailingPart(p, f), k) == Lookup(p, k)
  {
    var fs := TrailingFieldList(f);
    assert |"integration"| == 11 && |"optimize"| == 8 && |"notification"| == 12 && |"transferData"| == 12;
    assert "notification"[0] == 'n' && "transferData"[0] == 't';
    assert DistinctNames(fs);
    assert !IsEmpty(fs[0].1);
    assert !IsEmptyString(f.notificationType) ==> !IsEmpty(NotificationEntry(f));
    assert IsEmpty(List(f.transferData)) <==> f.transferData == [];
    AddFieldsAt(p, fs, 0);
    AddFieldsAt(p, fs, 1);
    AddFieldsAt(p, fs, 2);
    AddFieldsAt(p, fs, 3);
    forall k | NotTrailingKey(k)
      ensures Lookup(TrailingPart(p, f), k) == Lookup(p, k)
    {
      AddFieldsOther(p, fs, k);
    }
  }

  /** The keys of the required part and `paymentMethod` are written by no later step, and differ from each other. */
  lemma EarlyKeysKept()
    ensures NotOptionalKey("serviceId") && NotOptionalKey("amount") && NotOptionalKey("paymentMethod")
    ensures NotOptionalKey("notification")
    ensures NotTrailingKey("serviceId") && NotTrailingKey("amount") && NotTrailingKey("paymentMethod")
    ensures NotTrailingKey("description")
    ensures "paymentMethod" != "serviceId" && "paymentMethod" != "amount" && "paymentMethod" != "description"
    ensures "paymentMethod" != "notification"
    ensures "description" != "serviceId" && "description" != "amount"
    ensures "notification" != "serviceId" && "notification" != "amount"
  {
    assert |"serviceId"| == 9 && |"amount"| == 6 && |"paymentMethod"| == 13;
    assert |"returnUrl"| == 9 && |"description"| == 11 && |"reference"| == 9;
    assert |"expire"| == 6 && |"exchangeUrl"| == 11;
    assert |"integration"| == 11 && |"optimize"| == 8 && |"notification"| == 12 && |"transferData"| == 12;
    assert "serviceId"[0] == 's' && "returnUrl"[0] == 'r' && "reference"[0] == 'r';
    assert "amount"[0] == 'a' && "expire"[0] == 'e';
    assert "description"[0] == 'd' && "integration"[0] == 'i' && "exchangeUrl"[0] == 'e';
    assert "notification"[0] == 'n' && "transferData"[0] == 't';
  }

  /** The head carries the service id and the amount with its currency. */
  lemma HeadRequired(f: RequestFields, pm: Option<Value>)
    requires !EmptyStr(f.serviceId) && !EmptyInt(f.amount)
    ensures var q := Head(f, pm);
      Lookup(q, "serviceId") == Str(f.serviceId.value)
      && Get(Lookup(q, "amount"), "value") == Int(f.amount.value)
      && Get(Lookup(q, "amount"), "currency") == Str(f.currency)
  {
    var req := RequiredPart(f.serviceId.value, f.amount.value, f.currency);
    var p := OptionalPart(req, f);
    assert Lookup(p, "serviceId") == Lookup(req, "serviceId") && Lookup(p, "amount") == Lookup(req, "amount") by {
      EarlyKeysKept();
      OptionalFields(req, f);
    }
    var q := Head(f, pm);
    assert Lookup(q, "serviceId") == Lookup(p, "serviceId") && Lookup(q, "amount") == Lookup(p, "amount") by {
      assert "paymentMethod" != "serviceId" && "paymentMethod" != "amount" by { EarlyKeysKept(); }
    }
  }

  /** The head carries the description when it is not empty, the payment method entry when there is one, and no notification. */
  lemma HeadOptional(f: RequestFields, pm: Option<Value>)
    requires !EmptyStr(f.serviceId) && !EmptyInt(f.amount)
    ensures var q := Head(f, pm);
      Lookup(q, "description") == (if IsEmptyString(f.description) then Null else Str(f.description))
      && Lookup(q, "paymentMethod") == (if pm.Some? then pm.value else Null)
      && Lookup(q, "notification") == Null
  {
    var req := RequiredPart(f.serviceId.value, f.amount.value, f.currency);
    assert Lookup(req, "description") == Null && Lookup(req, "paymentMethod") == Null && Lookup(req, "notification") == Null by {
      assert "description" != "serviceId" && "description" != "amount" by { EarlyKeysKept(); }
      assert "paymentMethod" != "serviceId" && "paymentMethod" != "amount" by { EarlyKeysKept(); }
      assert "notification" != "serviceId" && "notification" != "amount" by { EarlyKeysKept(); }
    }
    var p := OptionalPart(req, f);
    assert Lookup(p, "description") == (if IsEmptyString(f.description) then Null else Str(f.description))
      && Lookup(p, "paymentMethod") == Null && Lookup(p, "notification") == Null by {
      assert NotOptionalKey("paymentMethod") && NotOptionalKey("notification") by { EarlyKeysKept(); }
      OptionalFields(req, f);
    }
    var q := Head(f, pm);
    assert Lookup(q, "description") == Lookup(p, "description") && Lookup(q, "notification") == Lookup(p, "notification") by {
      assert "paymentMethod" != "description" && "paymentMethod" != "notification" by { EarlyKeysKept(); }
    }
  }

  /** A body that is built carries the service id and the amount with its currency. */
  lemma BodyRequired(f: RequestFields)
    requires BodyParameters(f).Success?
    ensures var b := BodyParameters(f).value;
      Lookup(b, "serviceId") == Str(f.serviceId.value)
      && Get(Lookup(b, "amount"), "value") == Int(f.amount.value)
      && Get(Lookup(b, "amount"), "currency") == Str(f.currency)
  {
    RequiredFieldsFirst(f);
    var pm := PaymentMethod(f).value;
    var q := Head(f, pm);
    HeadRequired(f, pm);
    var b := BodyParameters(f).value;
    assert b == TrailingPart(q, f);
    assert Lookup(b, "serviceId") == Lookup(q, "serviceId") && Lookup(b, "amount") == Lookup(q, "amount") by {
      assert NotTrailingKey("serviceId") && NotTrailingKey("amount") by { EarlyKeysKept(); }
      TrailingFields(q, f);
    }
  }

  /**
   * A body that is built carries the description only when it is not empty,
   * `paymentMethod` exactly when a payment method is set, `integration.test`
   * as `testMode === true`, and the notification exactly when its type is set.
   */
  lemma BodyOptional(f: RequestFields)
    requires BodyParameters(f).Success?
    ensures var b := BodyParameters(f).value;
      Lookup(b, "description") == (if IsEmptyString(f.description) then Null else Str(f.description))
      && (Lookup(b, "paymentMethod") != Null <==> !EmptyInt(f.paymentMethodId))
      && Get(Lookup(b, "integration"), "test") == Bool(f.testMode == Some(true))
      && Lookup(b, "notification") == (if IsEmptyString(f.notificationType) then Null else NotificationEntry(f))
  {
    RequiredFieldsFirst(f);
    var pm := PaymentMethod(f).value;
    assert pm.Some? <==> !EmptyInt(f.paymentMethodId);
    assert pm.Some? ==> pm.value.Arr?;
    var q := Head(f, pm);
    HeadOptional(f, pm);
    var b := BodyParameters(f).value;
    assert b == TrailingPart(q, f);
    assert Lookup(b, "description") == Lookup(q, "description") && Lookup(b, "paymentMethod") == Lookup(q, "paymentMethod") by {
      assert NotTrailingKey("description") && NotTrailingKey("paymentMethod") by { EarlyKeysKept(); }
      TrailingFields(q, f);
    }
    assert Get(Lookup(b, "integration"), "test") == Bool(f.testMode == Some(true))
      && Lookup(b, "notification") == (if IsEmptyString(f.notificationType) then Null else NotificationEntry(f)) by {
      TrailingFields(q, f);
    }
  }

  /** A request whose return URL was never set: the body as written fails, the corrected body does not. */
  lemma UnsetReturnUrlFails(f: RequestFields)
    requires !EmptyInt(f.amount) && !EmptyStr(f.serviceId) && f.returnUrl.None?
    requires EmptyInt(f.paymentMethodId)
    ensures BodyParametersAsWritten(f) == Failure(ReturnUrlUninitialized)
    ensures BodyParameters(f).Success?
  {
    assert "serviceId" != "amount" by { assert |"serviceId"| != |"amount"|; }
  }

  /** Once the return URL is set, the body as written and the corrected body are the same. */
  lemma BodyParametersAgreeWhenReturnUrlSet(f: RequestFields)
    requires f.returnUrl.Some?
    ensures BodyParametersAsWritten(f) == BodyParameters(f)
  {
  }
}
