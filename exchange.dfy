/**
 * Exchange (webhook) ingestion, `PayNL\Sdk\Util\Exchange`.
 *
 * `getPayLoad` flattens an incoming notification into one payload record and
 * memoises it; `isSignExchange` and `checkSignExchange` decide whether the
 * request is HMAC-signed and whether its signature holds; `process` decides
 * which status code to trust and classifies it; `setResponse` renders the
 * acknowledgement. The request, the raw body, its JSON decoding, the request
 * headers and the global configuration are an `Environment` value; the HMAC
 * (section 2 of RFC 2104) is the uninterpreted function `mac`, and the
 * algorithm names `hash_hmac` accepts are the predicate `hmacAlgos`; the order
 * status request is the function `lookup`.
 */
module Exchange {
  import opened Wrappers
  import opened PhpValue
  import opened PayStatus
  import PayOrder

  /** An API token code (username) and API token (password). */
  datatype Credentials = Credentials(username: string, password: string)

  /** What the exchange reads from outside the object. */
  datatype Environment = Environment(
    request: Option<Value>,                 // `$_REQUEST`, None when it is unset
    rawBody: string,                        // `php://input`
    decodedBody: Result<Value, string>,     // `json_decode` of the raw body, or the JsonException message
    allHeaders: seq<(string, string)>,      // `getallheaders()`, in order
    globalConfig: Credentials)              // `Config::getConfig()`

  /** The flat payload `getPayLoad` stores. */
  datatype ExchangePayload = ExchangePayload(
    amount: Value,
    amountCap: Value,
    amountAuth: Value,
    reference: Value,
    action: string,
    paymentProfile: Value,
    payOrderId: Value,
    orderId: Value,
    internalStateId: int,
    internalStateName: Value,
    checkoutData: Value,
    fullPayload: Value)

  /**
   * What `getPayLoad` gives: the payload array, the message of an Exception it
   * caught (returned as a string), or a TypeError that escapes it.
   */
  datatype Fetch = Loaded(payload: ExchangePayload) | Fault(message: string) | Crash

  /**
   * An exception that leaves `process`: an Exception with its message, a
   * TypeError, the ValueError `hash_hmac` throws for an algorithm it does not
   * know, or the error a setter raised while the order was built.
   */
  datatype Abort =
    | Raised(message: string)
    | TypeError
    | ValueError
    | SetterFailed(error: PayOrder.SetterError)

  /** The outcome of the order status request: the retrieved order's status, or a PayException. */
  datatype LookupResult = Retrieved(status: Value) | ApiError(friendlyMessage: string)

  /** The order `process` returns, reduced to what it sets on it. */
  datatype Snapshot = Snapshot(
    fields: map<PayOrder.Prop, Value>,   // the fields `new PayOrder($payload['fullPayload'])` set
    amount: Value,
    paymentProfile: Value,
    orderId: Value,
    reference: Value,
    state: PayStatus.Status)

  /** The acknowledgement `setResponse` renders: a JSON object for signed exchanges, else text. */
  datatype Ack = Json(result: bool, description: string) | Text(body: string)

  // ---------------------------------------------------------------------------
  // getPayLoad
  // ---------------------------------------------------------------------------

  /** The `paymentMethod.id` of one entry of `payments`, or null. */
  function PaymentMethodId(payment: Value): Value
  {
    Get(Get(payment, "paymentMethod"), "id")
  }

  /**
   * The payment profile of a structured payload: the `paymentMethod.id` of the
   * LAST entry of `payments`, or '' when there are no entries or that id is null.
   */
  function PaymentProfile(payments: Value): (r: Value)
  {
    if payments.Arr? && |payments.entries| > 0
    then Coalesce(PaymentMethodId(payments.entries[|payments.entries| - 1].1), Str(""))
    else Str("")
  }

  /** The loop that overwrites `$ppid` once per payment, then defaults it to ''. */
  method PaymentProfileOf(payments: Value) returns (r: Value)
    ensures r == PaymentProfile(payments)
  {
    var es := if payments.Arr? then payments.entries else [];
    var ppid := Null;
    var i := 0;
    while i < |es|
      invariant 0 <= i <= |es|
      invariant ppid == if i == 0 then Null else PaymentMethodId(es[i - 1].1)
    {
      ppid := PaymentMethodId(es[i].1);
      i := i + 1;
    }
    r := Coalesce(ppid, Str(""));
  }

  /** A legacy (flat) notification, recognised by a non-empty `action`. */
  function LegacyPayload(request: Value): (r: Fetch)
    requires !IsEmpty(Get(request, "action"))
  {
    var action := Get(request, "action");
    if !action.Str? then Crash
    else Loaded(ExchangePayload(
      amount := Null,
      amountCap := Null,
      amountAuth := Null,
      reference := Get(request, "extra1"),
      action := ToLower(action.s),
      paymentProfile := Get(request, "payment_profile_id"),
      payOrderId := Coalesce(Get(request, "order_id"), Str("")),
      orderId := Get(request, "extra1"),
      internalStateId := 0,
      internalStateName := Null,
      checkoutData := Null,
      fullPayload := request))
  }

  /**
   * The structured document of a notification without `action`: the request's
   * own `object`, or else the decoded raw body, which must be a non-blank
   * `order` document.
   */
  function StructuredDocument(request: Value, env: Environment): (r: Result<Value, string>)
  {
    if !Get(request, "object").Null? then Success(Literal([("object", Get(request, "object"))]))
    else if IsEmptyString(Trim(env.rawBody)) then Failure("Empty Payload")
    else
      match env.decodedBody
      case Failure(m) => Failure(m)
      case Success(doc) =>
        if LooseEqualsWord(Get(doc, "type"), "order") then Success(doc)
        else Failure("Cant handle exchange type other then order")
  }

  /** The code that marks a paid event: `PayStatus::PAID` or `PayStatus::AUTHORIZE`. */
  predicate IsPaidEventCode(code: int)
  {
    code == PaidCode || code == AuthorizeCode
  }

  /** The flat payload of a structured document. */
  function StructuredPayload(doc: Value): (r: Fetch)
  {
    var obj := Get(doc, "object");
    if IsEmpty(obj) then Fault("Payload error: object empty")
    else
      var status := Get(obj, "status");
      var stateId := IntCast(Get(status, "code"));
      var stateName := Coalesce(Get(status, "action"), Str(""));
      var action := if IsPaidEventCode(stateId) then Str("new_ppt") else stateName;
      if !action.Str? then Crash
      else Loaded(ExchangePayload(
        amount := Coalesce(Get(Get(obj, "amount"), "value"), Str("")),
        amountCap := Coalesce(Get(Get(obj, "capturedAmount"), "value"), Str("")),
        amountAuth := Coalesce(Get(Get(obj, "authorizedAmount"), "value"), Str("")),
        reference := Coalesce(Get(obj, "reference"), Str("")),
        action := ToLower(action.s),
        paymentProfile := PaymentProfile(Get(obj, "payments")),
        payOrderId := Coalesce(Get(obj, "orderId"), Str("")),
        orderId := Coalesce(Get(obj, "reference"), Str("")),
        internalStateId := stateId,
        internalStateName := stateName,
        checkoutData := Get(obj, "checkoutData"),
        fullPayload := doc))
  }

  /** The flat payload of one request, legacy or structured. */
  function Extract(request: Value, env: Environment): Fetch
  {
    if !IsEmpty(Get(request, "action")) then LegacyPayload(request)
    else
      match StructuredDocument(request, env)
      case Failure(m) => Fault(m)
      case Success(doc) => StructuredPayload(doc)
  }

  /**
   * `getPayLoad()`: the memoised payload when there is one; otherwise the
   * payload of the non-empty custom payload, or else of `$_REQUEST`.
   */
  function FetchPayload(memo: Option<ExchangePayload>, custom: Option<Value>, env: Environment): (r: Fetch)
    ensures memo.Some? ==> r == Loaded(memo.value)
    ensures memo.None? && (custom.None? || IsEmpty(custom.value)) && env.request.None? ==> r == Fault("Empty payload")
  {
    if memo.Some? then Loaded(memo.value)
    else if custom.Some? && !IsEmpty(custom.value) then Extract(custom.value, env)
    else if env.request.None? then Fault("Empty payload")
    else Extract(env.request.value, env)
  }

  /** The memo after a fetch: set by a successful fetch, untouched otherwise. */
  function MemoAfter(memo: Option<ExchangePayload>, f: Fetch): Option<ExchangePayload>
  {
    if f.Loaded? then Some(f.payload) else memo
  }

  // ---------------------------------------------------------------------------
  // Request headers and signing
  // ---------------------------------------------------------------------------

  /** `array_change_key_case($headers)`: names lower-cased, a later duplicate wins. */
  function LowerKeys(hs: seq<(string, string)>): (m: map<string, string>)
    ensures forall k :: k in m <==> exists i :: 0 <= i < |hs| && ToLower(hs[i].0) == k
  {
    if hs == [] then map[]
    else
      var front := LowerKeys(hs[..|hs| - 1]);
      assert forall i :: 0 <= i < |hs| - 1 ==> hs[..|hs| - 1][i] == hs[i];
      front[ToLower(hs[|hs| - 1].0) := hs[|hs| - 1].1]
  }

  /** The headers after `getRequestHeaders()`: fetched once, while the memo is empty. */
  function HeadersAfter(memo: map<string, string>, env: Environment): map<string, string>
  {
    if memo == map[] then LowerKeys(env.allHeaders) else memo
  }

  /** `$headers[$name] ?? $default`. */
  function Header(hs: map<string, string>, name: string, default: string): string
  {
    if name in hs then hs[name] else default
  }

  /** `isSignExchange`: the `signature-method` header is exactly 'HMAC'. */
  predicate IsSigned(hs: map<string, string>)
  {
    "signature-method" in hs && hs["signature-method"] == "HMAC"
  }

  /** The credentials the signature is checked with: the given ones, or the global ones if either is empty. */
  function SigningCredentials(username: string, password: string, env: Environment): Credentials
  {
    if IsEmptyString(username) || IsEmptyString(password) then env.globalConfig
    else Credentials(username, password)
  }

  /**
   * `checkSignExchange($username, $password)`: false unless the request is
   * signed and the trimmed key id is non-empty and equals the username; then
   * a ValueError when `hash_hmac` does not know the algorithm the
   * `signature-algorithm` header names (sha256 by default), else whether the
   * `signature` header equals the MAC of the raw body under the password.
   */
  function CheckSign(
    hs: map<string, string>, env: Environment, username: string, password: string,
    mac: (string, string, string) -> string, hmacAlgos: string -> bool): (r: Result<bool, Abort>)
    ensures r.Failure? ==> r.error == ValueError && !hmacAlgos(Header(hs, "signature-algorithm", "sha256"))
  {
    var c := SigningCredentials(username, password, env);
    var token := Trim(Header(hs, "signature-keyid", ""));
    var algo := Header(hs, "signature-algorithm", "sha256");
    if !IsSigned(hs) || IsEmptyString(token) || token != c.username then Success(false)
    else if !hmacAlgos(algo) then Failure(ValueError)
    else Success(Header(hs, "signature", "") == mac(algo, env.rawBody, c.password))
  }

  // ---------------------------------------------------------------------------
  // process
  // ---------------------------------------------------------------------------

  /** The status code `process` trusts, or the exception it throws on the way. */
  function PaymentState(
    p: ExchangePayload, signed: bool, valid: Result<bool, Abort>, lookup: string -> LookupResult): (r: Result<int, Abort>)
    ensures signed && valid.Failure? ==> r == Failure(valid.error)
    ensures signed && valid.Success? ==>
      r == if valid.value then Success(p.internalStateId) else Failure(Raised("Signing request failed"))
  {
    if signed then
      match valid
      case Failure(a) => Failure(a)
      case Success(ok) => if ok then Success(p.internalStateId) else Failure(Raised("Signing request failed"))
    else
      match Classify(p.internalStateId)
      case Failure(m) => Failure(Raised(m))
      case Success(s) =>
        if s == PENDING then Success(p.internalStateId)
        else if IsEmpty(p.payOrderId) then Failure(Raised("Missing pay order id in payload"))
        else if !p.payOrderId.Str? then Failure(TypeError)
        else
          match lookup(p.payOrderId.s)
          case Retrieved(status) => Success(PayOrder.StatusCodeOf(status))
          case ApiError(friendly) => Failure(Raised("API Retrieval error: " + friendly))
  }

  /**
   * `process()`, given the fetched payload and the two signing decisions:
   * the order is built from the full payload before the signature is looked
   * at, so a setter error comes first.
   */
  function ProcessSpec(
    f: Fetch, signed: bool, valid: Result<bool, Abort>, lookup: string -> LookupResult): (r: Result<Snapshot, Abort>)
    ensures f.Crash? ==> r == Failure(TypeError)
    ensures f.Fault? ==> r == Failure(Raised("Invalid payload"))
    ensures f.Loaded? && PayOrder.Construct(f.payload.fullPayload).Failure? ==>
      r == Failure(SetterFailed(PayOrder.Construct(f.payload.fullPayload).error))
    ensures r.Success? ==>
      f.Loaded? && PayOrder.Construct(f.payload.fullPayload) == Success(r.value.fields)
      && PaymentState(f.payload, signed, valid, lookup).Success?
      && Classify(PaymentState(f.payload, signed, valid, lookup).value) == Success(r.value.state)
  {
    match f
    case Crash => Failure(TypeError)
    case Fault(_) => Failure(Raised("Invalid payload"))
    case Loaded(p) =>
      match PayOrder.Construct(p.fullPayload)
      case Failure(e) => Failure(SetterFailed(e))
      case Success(fields) =>
        match PaymentState(p, signed, valid, lookup)
        case Failure(a) => Failure(a)
        case Success(code) =>
          match Classify(code)
          case Failure(m) => Failure(Raised(m))
          case Success(s) =>
            Success(Snapshot(fields, p.amount, p.paymentProfile, p.payOrderId,
                             Coalesce(p.reference, Str("")), s))
  }

  // ---------------------------------------------------------------------------
  // setResponse
  // ---------------------------------------------------------------------------

  /** The unsigned acknowledgement: 'TRUE| message' or 'FALSE| message'. */
  function TextResponse(result: bool, message: string): string
  {
    (if result then "TRUE" else "FALSE") + "| " + message
  }

  /** `setResponse($result, $message, true)`. */
  function Response(signed: bool, result: bool, message: string): Ack
  {
    if signed then Json(result, message) else Text(TextResponse(result, message))
  }

  /** Reads an unsigned acknowledgement back into its result and message. */
  function ParseTextResponse(body: string): Option<(bool, string)>
  {
    if |body| >= 6 && body[..6] == "TRUE| " then Some((true, body[6..]))
    else if |body| >= 7 && body[..7] == "FALSE| " then Some((false, body[7..]))
    else None
  }

  // ---------------------------------------------------------------------------
  // The exchange object
  // ---------------------------------------------------------------------------

  class Exchange {
    /** `$payload`, the memo of `getPayLoad`; None while the typed property is uninitialised. */
    var payload: Option<ExchangePayload>
    /** `$custom_payload`, the array given to the constructor. */
    const customPayload: Option<Value>
    /** `$headers`, the memo of `getRequestHeaders`; empty until fetched. */
    var headers: map<string, string>

    constructor(custom: Option<Value>)
      requires custom.Some? ==> custom.value.Arr?
      ensures payload == None && customPayload == custom && headers == map[]
    {
      payload := None;
      customPayload := custom;
      headers := map[];
    }

    /** `getRequestHeaders()`. */
    method GetRequestHeaders(env: Environment) returns (hs: map<string, string>)
      modifies this`headers
      ensures headers == HeadersAfter(old(headers), env) && hs == headers
    {
      if headers == map[] {
        headers := LowerKeys(env.allHeaders);
      }
      hs := headers;
    }

    method IsSignExchange(env: Environment) returns (b: bool)
      modifies this`headers
      ensures headers == HeadersAfter(old(headers), env)
      ensures b == IsSigned(headers)
    {
      var hs := GetRequestHeaders(env);
      b := "signature-method" in hs && hs["signature-method"] == "HMAC";
    }

    /** `checkSignExchange`; a Failure is the ValueError that escapes its `catch (Exception)`. */
    method CheckSignExchange(
      username: string, password: string, env: Environment,
      mac: (string, string, string) -> string, hmacAlgos: string -> bool) returns (b: Result<bool, Abort>)
      modifies this`headers
      ensures headers == HeadersAfter(old(headers), env)
      ensures b == CheckSign(headers, env, username, password, mac, hmacAlgos)
    {
      var signed := IsSignExchange(env);
      if !signed {
        return Success(false);
      }
      var c := SigningCredentials(username, password, env);
      var hs := GetRequestHeaders(env);
      var tokenCode := Trim(Header(hs, "signature-keyid", ""));
      if IsEmptyString(tokenCode) || tokenCode != c.username {
        return Success(false);
      }
      var algo := Header(hs, "signature-algorithm", "sha256");
      if !hmacAlgos(algo) {
        return Failure(ValueError);
      }
      var signature := mac(algo, env.rawBody, c.password);
      b := Success(Header(hs, "signature", "") == signature);
    }

    method GetPayLoad(env: Environment) returns (r: Fetch)
      modifies this`payload
      ensures r == FetchPayload(old(payload), customPayload, env)
      ensures payload == MemoAfter(old(payload), r)
    {
      if payload.Some? {
        return Loaded(payload.value);
      }
      var request: Value;
      if customPayload.Some? && !IsEmpty(customPayload.value) {
        request := customPayload.value;
      } else if env.request.None? {
        return Fault("Empty payload");
      } else {
        request := env.request.value;
      }
      if !IsEmpty(Get(request, "action")) {
        r := LegacyPayload(request);
      } else {
        var doc := StructuredDocument(request, env);
        if doc.Failure? {
          return Fault(doc.error);
        }
        var obj := Get(doc.value, "object");
        if IsEmpty(obj) {
          return Fault("Payload error: object empty");
        }
        var ppid := PaymentProfileOf(Get(obj, "payments"));
        r := StructuredPayload(doc.value);
        assert r.Loaded? ==> r.payload.paymentProfile == ppid;
      }
      if r.Loaded? {
        payload := Some(r.payload);
      }
    }

    /** `getAction()`: the payload's action, or false; None when a TypeError escapes. */
    method GetAction(env: Environment) returns (r: Option<Value>)
      modifies this`payload
      ensures var f := FetchPayload(old(payload), customPayload, env);
        r == match f
             case Loaded(p) => Some(Str(p.action))
             case Fault(_) => Some(Bool(false))
             case Crash => None
      ensures payload == MemoAfter(old(payload), FetchPayload(old(payload), customPayload, env))
    {
      var f := GetPayLoad(env);
      r := match f
        case Loaded(p) => Some(Str(p.action))
        case Fault(_) => Some(Bool(false))
        case Crash => None;
    }

    /** `getReference()`: the payload's reference, or ''. */
    method GetReference(env: Environment) returns (r: Option<Value>)
      modifies this`payload
      ensures var f := FetchPayload(old(payload), customPayload, env);
        r == match f
             case Loaded(p) => Some(Coalesce(p.reference, Str("")))
             case Fault(_) => Some(Str(""))
             case Crash => None
      ensures payload == MemoAfter(old(payload), FetchPayload(old(payload), customPayload, env))
    {
      var f := GetPayLoad(env);
      r := match f
        case Loaded(p) => Some(Coalesce(p.reference, Str("")))
        case Fault(_) => Some(Str(""))
        case Crash => None;
    }

    /** `getPayOrderId()`: the payload's pay order id, or false. */
    method GetPayOrderId(env: Environment) returns (r: Option<Value>)
      modifies this`payload
      ensures var f := FetchPayload(old(payload), customPayload, env);
        r == match f
             case Loaded(p) => Some(Coalesce(p.payOrderId, Bool(false)))
             case Fault(_) => Some(Bool(false))
             case Crash => None
      ensures payload == MemoAfter(old(payload), FetchPayload(old(payload), customPayload, env))
    {
      var f := GetPayLoad(env);
      r := match f
        case Loaded(p) => Some(Coalesce(p.payOrderId, Bool(false)))
        case Fault(_) => Some(Bool(false))
        case Crash => None;
    }

    /**
     * `process($config)`: the configuration defaults to the global one; the
     * headers are read only once the payload is an array and the order is built.
     */
    method Process(
      config: Option<Credentials>, env: Environment,
      mac: (string, string, string) -> string, hmacAlgos: string -> bool,
      lookup: string -> LookupResult) returns (r: Result<Snapshot, Abort>)
      modifies this
      ensures var f := FetchPayload(old(payload), customPayload, env);
        var cfg := config.GetOr(env.globalConfig);
        payload == MemoAfter(old(payload), f)
        && headers == (if f.Loaded? && PayOrder.Construct(f.payload.fullPayload).Success?
                       then HeadersAfter(old(headers), env) else old(headers))
        && r == ProcessSpec(f, IsSigned(headers),
                            CheckSign(headers, env, cfg.username, cfg.password, mac, hmacAlgos), lookup)
    {
      var f := GetPayLoad(env);
      if f.Crash? {
        return Failure(TypeError);
      }
      if f.Fault? {
        return Failure(Raised("Invalid payload"));
      }
      var p := f.payload;
      var cfg := config.GetOr(env.globalConfig);
      var built := PayOrder.PayOrder.New(p.fullPayload);
      if built.Failure? {
        return Failure(SetterFailed(built.error));
      }
      var order := built.value;
      var decided := DecideState(p, cfg, env, mac, hmacAlgos, lookup);
      if decided.Failure? {
        return Failure(decided.error);
      }
      var paymentState := decided.value;
      var state := Classify(paymentState);
      if state.Failure? {
        return Failure(Raised(state.error));
      }
      r := Success(Snapshot(order.props, p.amount, p.paymentProfile, p.payOrderId,
                            Coalesce(p.reference, Str("")), state.value));
    }

    /**
     * The part of `process` that decides which status code to trust: the
     * payload's own when the signature holds or the code is PENDING, else
     * the looked-up order's.
     */
    method DecideState(
      p: ExchangePayload, cfg: Credentials, env: Environment,
      mac: (string, string, string) -> string, hmacAlgos: string -> bool,
      lookup: string -> LookupResult) returns (r: Result<int, Abort>)
      modifies this`headers
      ensures headers == HeadersAfter(old(headers), env)
      ensures r == PaymentState(p, IsSigned(headers),
                                CheckSign(headers, env, cfg.username, cfg.password, mac, hmacAlgos), lookup)
    {
      var signed := IsSignExchange(env);
      if signed {
        var signingResult := CheckSignExchange(cfg.username, cfg.password, env, mac, hmacAlgos);
        if signingResult.Failure? {
          return Failure(signingResult.error);
        }
        if !signingResult.value {
          return Failure(Raised("Signing request failed"));
        }
        return Success(p.internalStateId);
      }
      var s := Classify(p.internalStateId);
      if s.Failure? {
        return Failure(Raised(s.error));
      }
      if s.value == PENDING {
        return Success(p.internalStateId);
      }
      if IsEmpty(p.payOrderId) {
        return Failure(Raised("Missing pay order id in payload"));
      }
      if !p.payOrderId.Str? {
        return Failure(TypeError);
      }
      var transaction := lookup(p.payOrderId.s);
      if transaction.ApiError? {
        return Failure(Raised("API Retrieval error: " + transaction.friendlyMessage));
      }
      r := Success(PayOrder.StatusCodeOf(transaction.status));
    }

    /** `setResponse($result, $message, true)`. */
    method SetResponse(result: bool, message: string, env: Environment) returns (a: Ack)
      modifies this`headers
      ensures headers == HeadersAfter(old(headers), env)
      ensures a == Response(IsSigned(headers), result, message)
    {
      var signed := IsSignExchange(env);
      if signed {
        a := Json(result, message);
      } else {
        a := Text((if result then "TRUE" else "FALSE") + "| " + message);
      }
    }
  }

  // ---------------------------------------------------------------------------
  // Lemmas
  // ---------------------------------------------------------------------------

  /** The value of a lower-cased header is that of the LAST raw header with that name. */
  lemma {:induction false} LowerKeysLastWins(hs: seq<(string, string)>, i: nat)
    requires i < |hs|
    requires forall j :: i < j < |hs| ==> ToLower(hs[j].0) != ToLower(hs[i].0)
    ensures ToLower(hs[i].0) in LowerKeys(hs) && LowerKeys(hs)[ToLower(hs[i].0)] == hs[i].1
  {
    var n := |hs| - 1;
    if i < n {
      var front := hs[..n];
      assert front[i] == hs[i];
      forall j | i < j < |front|
        ensures ToLower(front[j].0) != ToLower(front[i].0)
      {
        assert front[j] == hs[j];
      }
      LowerKeysLastWins(front, i);
    }
  }

  /**
   * A request is a signed exchange exactly when its last header named
   * `signature-method`, in any letter case, has the value 'HMAC'.
   */
  lemma SignedByLastMethodHeader(hs: seq<(string, string)>, i: nat)
    requires i < |hs| && ToLower(hs[i].0) == "signature-method"
    requires forall j :: i < j < |hs| ==> ToLower(hs[j].0) != "signature-method"
    ensures IsSigned(LowerKeys(hs)) <==> hs[i].1 == "HMAC"
  {
    LowerKeysLastWins(hs, i);
  }

  /** Without any header named `signature-method`, the exchange is not signed. */
  lemma UnsignedWithoutMethodHeader(hs: seq<(string, string)>)
    requires forall j :: 0 <= j < |hs| ==> ToLower(hs[j].0) != "signature-method"
    ensures !IsSigned(LowerKeys(hs))
  {
  }

  /**
   * A valid signature needs a signed request, a matching key id, an algorithm
   * `hash_hmac` knows and a matching MAC. The first three failures give false;
   * an unknown algorithm, once the key id matches, throws a ValueError.
   */
  lemma CheckSignConditions(
    hs: map<string, string>, env: Environment, username: string, password: string,
    mac: (string, string, string) -> string, hmacAlgos: string -> bool)
    ensures !IsSigned(hs) ==> CheckSign(hs, env, username, password, mac, hmacAlgos) == Success(false)
    ensures IsEmptyString(Trim(Header(hs, "signature-keyid", ""))) ==>
      CheckSign(hs, env, username, password, mac, hmacAlgos) == Success(false)
    ensures Trim(Header(hs, "signature-keyid", "")) != SigningCredentials(username, password, env).username
      ==> CheckSign(hs, env, username, password, mac, hmacAlgos) == Success(false)
    ensures CheckSign(hs, env, username, password, mac, hmacAlgos) == Failure(ValueError) <==>
      IsSigned(hs)
      && !IsEmptyString(Trim(Header(hs, "signature-keyid", "")))
      && Trim(Header(hs, "signature-keyid", "")) == SigningCredentials(username, password, env).username
      && !hmacAlgos(Header(hs, "signature-algorithm", "sha256"))
    ensures CheckSign(hs, env, username, password, mac, hmacAlgos) == Success(true) ==>
      hmacAlgos(Header(hs, "signature-algorithm", "sha256"))
      && Header(hs, "signature", "")
        == mac(Header(hs, "signature-algorithm", "sha256"), env.rawBody,
               SigningCredentials(username, password, env).password)
  {
  }

  /** The memo wins: once a payload is stored, the input is not read again. */
  lemma MemoisedPayload(p: ExchangePayload, custom: Option<Value>, env1: Environment, env2: Environment)
    ensures FetchPayload(Some(p), custom, env1) == FetchPayload(Some(p), custom, env2) == Loaded(p)
  {
  }

  /** A non-empty custom payload shadows `$_REQUEST`, which is then never read. */
  lemma CustomPayloadShadowsRequest(custom: Value, env: Environment, request: Option<Value>)
    requires !IsEmpty(custom)
    ensures FetchPayload(None, Some(custom), env) == FetchPayload(None, Some(custom), env.(request := request))
  {
  }

  /** Legacy notifications copy `order_id` and `extra1` and carry state 0 and no state name. */
  lemma LegacyFields(request: Value, s: string)
    requires Get(request, "action") == Str(s) && !IsEmptyString(s)
    ensures LegacyPayload(request).Loaded?
    ensures var p := LegacyPayload(request).payload;
      p.action == ToLower(s)
      && p.payOrderId == Coalesce(Get(request, "order_id"), Str(""))
      && p.reference == p.orderId == Get(request, "extra1")
      && p.internalStateId == 0
      && p.internalStateName == Null
      && p.fullPayload == request
  {
  }

  /** A structured payload's action is 'new_ppt' for a paid or authorised code, else the status action, lower-cased. */
  lemma StructuredAction(doc: Value)
    requires StructuredPayload(doc).Loaded?
    ensures var p := StructuredPayload(doc).payload;
      (IsPaidEventCode(p.internalStateId) ==> p.action == "new_ppt")
      && (!IsPaidEventCode(p.internalStateId) ==> Str(p.action) == Str(ToLower(p.internalStateName.s)))
      && p.payOrderId == Coalesce(Get(Get(doc, "object"), "orderId"), Str(""))
      && p.reference == p.orderId
  {
  }

  /** A structured status code in exponent form is cast to its value: "1e2" is read as 100. */
  lemma StructuredCodeFromExponent(doc: Value, m: nat, e: nat)
    requires StructuredPayload(doc).Loaded?
    requires Get(Get(Get(doc, "object"), "status"), "code") == Str(NatToString(m) + "e" + NatToString(e))
    ensures StructuredPayload(doc).payload.internalStateId == m * Pow10(e)
  {
    ExponentForm(m, e);
  }

  /**
   * An order the full payload cannot build aborts `process` with the setter's
   * error, before the signature or the lookup is consulted.
   */
  lemma ConstructionFailsFirst(
    p: ExchangePayload, signed: bool, valid: Result<bool, Abort>, lookup: string -> LookupResult)
    requires !PayOrder.Accepts(p.fullPayload)
    ensures ProcessSpec(Loaded(p), signed, valid, lookup).Failure?
    ensures ProcessSpec(Loaded(p), signed, valid, lookup).error.SetterFailed?
    ensures forall s2: bool, v2: Result<bool, Abort>, l2: string -> LookupResult ::
      ProcessSpec(Loaded(p), s2, v2, l2) == ProcessSpec(Loaded(p), signed, valid, lookup)
  {
  }

  /** A signed exchange with a bad signature throws and never consults the lookup. */
  lemma SignedInvalidThrows(p: ExchangePayload, lookup: string -> LookupResult)
    requires PayOrder.Accepts(p.fullPayload)
    ensures ProcessSpec(Loaded(p), true, Success(false), lookup) == Failure(Raised("Signing request failed"))
  {
  }

  /** The ValueError of an unknown signing algorithm leaves `process` unchanged. */
  lemma UnknownAlgorithmEscapes(p: ExchangePayload, lookup: string -> LookupResult)
    requires PayOrder.Accepts(p.fullPayload)
    ensures ProcessSpec(Loaded(p), true, Failure(ValueError), lookup) == Failure(ValueError)
  {
  }

  /**
   * The trusted paths, signed-and-valid or unsigned-and-pending, take the
   * payload's own state: `process` gives the same result whatever the lookup does.
   */
  lemma TrustedPathsIgnoreLookup(
    p: ExchangePayload, signed: bool, valid: Result<bool, Abort>,
    l1: string -> LookupResult, l2: string -> LookupResult)
    requires (signed && valid == Success(true)) || (!signed && Classify(p.internalStateId) == Success(PENDING))
    ensures PaymentState(p, signed, valid, l1) == PaymentState(p, signed, valid, l2) == Success(p.internalStateId)
    ensures ProcessSpec(Loaded(p), signed, valid, l1) == ProcessSpec(Loaded(p), signed, valid, l2)
  {
  }

  /** Escalating without a pay order id throws before any lookup. */
  lemma EscalationNeedsOrderId(
    p: ExchangePayload, valid: Result<bool, Abort>, lookup: string -> LookupResult, s: PayStatus.Status)
    requires PayOrder.Accepts(p.fullPayload)
    requires Classify(p.internalStateId) == Success(s) && s != PENDING
    requires IsEmpty(p.payOrderId)
    ensures ProcessSpec(Loaded(p), false, valid, lookup) == Failure(Raised("Missing pay order id in payload"))
  {
  }

  /**
   * On the escalation path the state is the classification of the looked-up
   * order's status code, and a PayException becomes 'API Retrieval error: '.
   */
  lemma EscalationUsesLookup(
    p: ExchangePayload, valid: Result<bool, Abort>, lookup: string -> LookupResult,
    s: PayStatus.Status, id: string)
    requires PayOrder.Accepts(p.fullPayload)
    requires Classify(p.internalStateId) == Success(s) && s != PENDING
    requires p.payOrderId == Str(id) && !IsEmptyString(id)
    ensures lookup(id).Retrieved? ==>
      PaymentState(p, false, valid, lookup) == Success(PayOrder.StatusCodeOf(lookup(id).status))
    ensures lookup(id).Retrieved? && Classify(PayOrder.StatusCodeOf(lookup(id).status)).Success? ==>
      ProcessSpec(Loaded(p), false, valid, lookup).Success?
      && ProcessSpec(Loaded(p), false, valid, lookup).value.state
         == Classify(PayOrder.StatusCodeOf(lookup(id).status)).value
    ensures lookup(id).ApiError? ==>
      ProcessSpec(Loaded(p), false, valid, lookup)
        == Failure(Raised("API Retrieval error: " + lookup(id).friendlyMessage))
  {
  }

  /**
   * On every path that completes, the order was built from the full payload,
   * and its state is the classification of the trusted status code.
   */
  lemma FinalStateIsClassified(
    p: ExchangePayload, signed: bool, valid: Result<bool, Abort>, lookup: string -> LookupResult, snap: Snapshot)
    requires ProcessSpec(Loaded(p), signed, valid, lookup) == Success(snap)
    ensures PayOrder.Accepts(p.fullPayload)
    ensures snap.fields == PayOrder.Populate(PayOrder.ObjectEntries(p.fullPayload))
    ensures PaymentState(p, signed, valid, lookup).Success?
    ensures Classify(PaymentState(p, signed, valid, lookup).value) == Success(snap.state)
    ensures snap.orderId == p.payOrderId && snap.amount == p.amount
  {
  }

  /**
   * An unsigned legacy notification carries state 0, which the classifier
   * rejects, so `process` throws 'Unexpected status: 0' before it can
   * escalate, unless building the order from the request already failed.
   */
  lemma UnsignedLegacyThrows(request: Value, s: string, valid: Result<bool, Abort>, lookup: string -> LookupResult)
    requires Get(request, "action") == Str(s) && !IsEmptyString(s)
    ensures PayOrder.Accepts(request) ==>
      ProcessSpec(LegacyPayload(request), false, valid, lookup) == Failure(Raised("Unexpected status: 0"))
    ensures !PayOrder.Accepts(request) ==>
      ProcessSpec(LegacyPayload(request), false, valid, lookup)
        == Failure(SetterFailed(PayOrder.Construct(request).error))
  {
    assert DigitChar(0) == '0';
    assert IntToString(0) == "0";
    assert UnexpectedStatus(0) == "Unexpected status: 0";
    assert Classify(0) == Failure("Unexpected status: 0");
  }

  /** The unsigned acknowledgement reads back as the result and the message, verbatim. */
  lemma {:induction false} TextResponseRoundTrip(result: bool, message: string)
    ensures ParseTextResponse(TextResponse(result, message)) == Some((result, message))
  {
    var body := TextResponse(result, message);
    if result {
      assert body == "TRUE| " + message;
      assert body[..6] == "TRUE| ";
      assert body[6..] == message;
    } else {
      assert body == "FALSE| " + message;
      assert body[..7] == "FALSE| ";
      assert body[7..] == message;
      assert body[..6] != "TRUE| " by {
        assert body[0] == 'F';
      }
    }
  }

  /** A signed acknowledgement carries exactly the result and the description. */
  lemma SignedResponseFields(result: bool, message: string)
    ensures Response(true, result, message) == Json(result, message)
    ensures Response(false, result, message).Text?
  {
  }
}
