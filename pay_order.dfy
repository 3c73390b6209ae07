/**
 * The order view `PayNL\Sdk\Model\Pay\PayOrder`: a record of protected fields
 * that fluent setters overwrite, filled from an exchange payload by a
 * constructor that calls `set<Key>` for every key of `payload['object']`, and
 * read by status helpers that delegate to the status classifier.
 */
module PayOrder {
  import opened Wrappers
  import opened PhpValue
  import opened PayStatus

  /** The fields a single-argument setter writes. */
  datatype Prop =
    | Id | ServiceId | Description | Reference | ManualTransferCode | OrderId | Uuid
    | CustomerKey | Status | Receipt | Integration | Amount | AuthorizedAmount
    | CapturedAmount | CheckoutData | Payments | CreatedAt | CreatedBy | ModifiedAt
    | ModifiedBy | ExpiresAt | CompletedAt | Links

  const AllProps: seq<Prop> := [
    Id, ServiceId, Description, Reference, ManualTransferCode, OrderId, Uuid,
    CustomerKey, Status, Receipt, Integration, Amount, AuthorizedAmount,
    CapturedAmount, CheckoutData, Payments, CreatedAt, CreatedBy, ModifiedAt,
    ModifiedBy, ExpiresAt, CompletedAt, Links
  ]

  /** The field's name, as it follows `set` in its setter's name. */
  function PropName(p: Prop): string
  {
    match p
    case Id => "Id"
    case ServiceId => "ServiceId"
    case Description => "Description"
    case Reference => "Reference"
    case ManualTransferCode => "ManualTransferCode"
    case OrderId => "OrderId"
    case Uuid => "Uuid"
    case CustomerKey => "CustomerKey"
    case Status => "Status"
    case Receipt => "Receipt"
    case Integration => "Integration"
    case Amount => "Amount"
    case AuthorizedAmount => "AuthorizedAmount"
    case CapturedAmount => "CapturedAmount"
    case CheckoutData => "CheckoutData"
    case Payments => "Payments"
    case CreatedAt => "CreatedAt"
    case CreatedBy => "CreatedBy"
    case ModifiedAt => "ModifiedAt"
    case ModifiedBy => "ModifiedBy"
    case ExpiresAt => "ExpiresAt"
    case CompletedAt => "CompletedAt"
    case Links => "Links"
  }

  /**
   * The values a setter's declared parameter type admits under strict types:
   * a string, an array, or an object (`Amount`, `object`), which no array value is.
   */
  predicate Fits(p: Prop, v: Value)
  {
    match p
    case Status | Integration | Payments | Links => v.Arr?
    case Amount | AuthorizedAmount | CapturedAmount | CheckoutData => false
    case _ => v.Str?
  }

  /** What the constructor does with one key of `payload['object']`. */
  datatype Dispatch =
    | Skipped           // one of the three amount keys
    | Setter(p: Prop)   // `set<Key>` exists and takes one argument
    | TwoArgSetter      // `setStatusCodeName`, which needs two arguments
    | NoSetter          // no method of that name

  /** The first field whose name equals `lower` once lower-cased. */
  function SetterNamed(lower: string, ps: seq<Prop>): (r: Option<Prop>)
    ensures r.Some? ==> r.value in ps && ToLower(PropName(r.value)) == lower
    ensures r.None? ==> forall p :: p in ps ==> ToLower(PropName(p)) != lower
  {
    if ps == [] then None
    else if ToLower(PropName(ps[0])) == lower then Some(ps[0])
    else SetterNamed(lower, ps[1..])
  }

  /**
   * The three amount keys are skipped by exact comparison; any other key
   * names the method `'set' . ucfirst($key)`, which PHP looks up without
   * regard to case, so a key selects the setter whose field name equals it
   * once both are lower-cased. An integer key names no method.
   */
  function DispatchOf(k: Key): (d: Dispatch)
    ensures d.Setter? ==> k.StrKey? && ToLower(k.s) == ToLower(PropName(d.p))
    ensures d.Setter? ==> k.s != "amount" && k.s != "capturedAmount" && k.s != "authorizedAmount"
  {
    match k
    case IntKey(_) => NoSetter
    case StrKey(s) =>
      if s == "amount" || s == "capturedAmount" || s == "authorizedAmount" then Skipped
      else if ToLower(s) == "statuscodename" then TwoArgSetter
      else
        match SetterNamed(ToLower(s), AllProps)
        case Some(p) => Setter(p)
        case None => NoSetter
  }

  /** One constructor step, on the fields set so far, under the rule `dispatch`. */
  function Apply(props: map<Prop, Value>, e: (Key, Value), dispatch: Key -> Dispatch): map<Prop, Value>
  {
    match dispatch(e.0)
    case Setter(p) => props[p := e.1]
    case _ => props
  }

  /** The fields after walking the entries in order under the rule `dispatch`. */
  function PopulateBy(es: seq<(Key, Value)>, dispatch: Key -> Dispatch): map<Prop, Value>
  {
    if es == [] then map[] else Apply(PopulateBy(es[..|es| - 1], dispatch), es[|es| - 1], dispatch)
  }

  /** The fields after the constructor has walked the entries in order. */
  function Populate(es: seq<(Key, Value)>): map<Prop, Value>
  {
    PopulateBy(es, DispatchOf)
  }

  /** Entry `e` reaches its setter, if any, without an error, under the rule `dispatch`. */
  predicate AcceptedBy(e: (Key, Value), dispatch: Key -> Dispatch)
  {
    var d := dispatch(e.0);
    !d.TwoArgSetter? && (d.Setter? ==> Fits(d.p, e.1))
  }

  /** An entry the constructor can hand to its setter without a TypeError or ArgumentCountError. */
  predicate EntryAccepted(e: (Key, Value))
  {
    AcceptedBy(e, DispatchOf)
  }

  /** The entries the constructor walks: those of a non-empty array `payload['object']`. */
  function ObjectEntries(payload: Value): seq<(Key, Value)>
  {
    var obj := Get(payload, "object");
    if !IsEmpty(obj) && obj.Arr? then obj.entries else []
  }

  /** Every entry of `payload['object']` reaches its setter, if any, without an error. */
  predicate Accepts(payload: Value)
  {
    var es := ObjectEntries(payload);
    forall i :: 0 <= i < |es| ==> AcceptedBy(es[i], DispatchOf)
  }

  /** The error a setter call of the constructor raises; neither is an `Exception`. */
  datatype SetterError =
    | TypeError(p: Prop)     // the value does not have the setter's parameter type
    | ArgumentCountError     // `setStatusCodeName` called with one argument

  /** The error raised on entry `e` under the rule `dispatch`, if any. */
  function ErrorBy(e: (Key, Value), dispatch: Key -> Dispatch): (r: Option<SetterError>)
    ensures r.None? <==> AcceptedBy(e, dispatch)
    ensures r == Some(ArgumentCountError) <==> dispatch(e.0).TwoArgSetter?
    ensures r.Some? && r.value.TypeError? ==>
      dispatch(e.0) == Setter(r.value.p) && !Fits(r.value.p, e.1)
  {
    match dispatch(e.0)
    case TwoArgSetter => Some(ArgumentCountError)
    case Setter(p) => if Fits(p, e.1) then None else Some(TypeError(p))
    case _ => None
  }

  /** The index of the first entry at or after `from` that the rule `dispatch` rejects. */
  function FirstRejectedBy(es: seq<(Key, Value)>, from: nat, dispatch: Key -> Dispatch): (r: Option<nat>)
    requires from <= |es|
    ensures r.Some? ==> from <= r.value < |es| && !AcceptedBy(es[r.value], dispatch)
    ensures r.Some? ==> forall j :: from <= j < r.value ==> AcceptedBy(es[j], dispatch)
    ensures r.None? <==> forall j :: from <= j < |es| ==> AcceptedBy(es[j], dispatch)
    decreases |es| - from
  {
    if from == |es| then None
    else if !AcceptedBy(es[from], dispatch) then Some(from)
    else FirstRejectedBy(es, from + 1, dispatch)
  }

  /**
   * Walking the entries under the rule `dispatch`: the fields they set, or
   * the error of the first entry whose setter call fails.
   */
  function ConstructBy(es: seq<(Key, Value)>, dispatch: Key -> Dispatch): (r: Result<map<Prop, Value>, SetterError>)
    ensures r.Success? <==> forall i :: 0 <= i < |es| ==> AcceptedBy(es[i], dispatch)
    ensures r.Success? ==> r.value == PopulateBy(es, dispatch)
    ensures r.Failure? ==>
      exists i :: 0 <= i < |es| && ErrorBy(es[i], dispatch) == Some(r.error)
        && forall j :: 0 <= j < i ==> AcceptedBy(es[j], dispatch)
  {
    match FirstRejectedBy(es, 0, dispatch)
    case Some(i) => Failure(ErrorBy(es[i], dispatch).value)
    case None => Success(PopulateBy(es, dispatch))
  }

  /** The outcome of `new PayOrder($payload)`. */
  function Construct(payload: Value): Result<map<Prop, Value>, SetterError>
  {
    ConstructBy(ObjectEntries(payload), DispatchOf)
  }

  // ---------------------------------------------------------------------------
  // Reads of single fields
  // ---------------------------------------------------------------------------

  /** `getStatusCode`: `(int)($status['code'] ?? 0)`. */
  function StatusCodeOf(status: Value): int
  {
    IntCast(Coalesce(Get(status, "code"), Int(0)))
  }

  /** `getStatusName`: `(string)($status['action'] ?? '')`. */
  function StatusNameOf(status: Value): string
  {
    StrCast(Coalesce(Get(status, "action"), Str("")))
  }

  /** `isChargeBack`: the status action is exactly 'CHARGEBACK'. */
  predicate ChargeBackOf(status: Value)
  {
    Coalesce(Get(status, "action"), Str("")) == Str("CHARGEBACK")
  }

  /** `$status === X` for the classification of the status code, or the classifier's exception. */
  function StatusIs(status: Value, x: PayStatus.Status): (r: Result<bool, string>)
    ensures r.Failure? <==> Classify(StatusCodeOf(status)).Failure?
    ensures r == Success(true) <==> Classify(StatusCodeOf(status)) == Success(x)
  {
    match Classify(StatusCodeOf(status))
    case Success(s) => Success(s == x)
    case Failure(m) => Failure(m)
  }

  /** `isRefunded($allowPartialRefunds)`. */
  function RefundedOf(status: Value, allowPartial: bool): (r: Result<bool, string>)
    ensures r.Failure? <==> Classify(StatusCodeOf(status)).Failure?
    ensures r == Success(true) <==>
      (Classify(StatusCodeOf(status)) == Success(REFUND)
        || (allowPartial && Classify(StatusCodeOf(status)) == Success(PARTIAL_REFUND)))
  {
    match StatusIs(status, REFUND)
    case Failure(m) => Failure(m)
    case Success(full) =>
      if full then Success(true)
      else if allowPartial then StatusIs(status, PARTIAL_REFUND)
      else Success(false)
  }

  /** `isTestmode` on the integration array: its 'test' entry is exactly `true`. */
  predicate TestmodeOf(integration: Value)
  {
    Get(integration, "test") == Bool(true)
  }

  /** `getPaymentMethod`: `payments[0]['paymentMethod']['id'] ?? null`. */
  function PaymentMethodOf(payments: Value): Value
  {
    Get(Get(GetKey(payments, IntKey(0)), "paymentMethod"), "id")
  }

  /** `links[key] ?? ''`, as `getPaymentUrl` and `getStatusUrl` read it. */
  function LinkOf(links: Value, key: string): Value
  {
    Coalesce(Get(links, key), Str(""))
  }

  class PayOrder {
    /** The protected fields that have been set; a field never set is absent. */
    var props: map<Prop, Value>

    /** The field as a PHP read sees it: null until it is set. */
    function Field(p: Prop): Value
      reads this
    {
      if p in props then props[p] else Null
    }

    /** `new PayOrder()`: without a payload no field is set. */
    constructor Blank()
      ensures props == map[]
    {
      props := map[];
    }

    /**
     * `new PayOrder($payload)`: each key of a non-empty `payload['object']`
     * goes to its setter in order; the first setter call that fails aborts
     * the construction with its error.
     */
    static method New(payload: Value) returns (r: Result<PayOrder, SetterError>)
      ensures r.Success? ==> fresh(r.value) && Construct(payload) == Success(r.value.props)
      ensures r.Failure? ==> Construct(payload) == Failure(r.error)
    {
      r := Build(ObjectEntries(payload), DispatchOf);
    }

    /** The constructor's loop over the entries `es`, under the rule `dispatch`. */
    static method Build(es: seq<(Key, Value)>, dispatch: Key -> Dispatch) returns (r: Result<PayOrder, SetterError>)
      ensures r.Success? ==> fresh(r.value) && ConstructBy(es, dispatch) == Success(r.value.props)
      ensures r.Failure? ==> ConstructBy(es, dispatch) == Failure(r.error)
    {
      var o := new PayOrder.Blank();
      var i := 0;
      while i < |es|
        invariant 0 <= i <= |es|
        invariant fresh(o)
        invariant o.props == PopulateBy(es[..i], dispatch)
        invariant forall j :: 0 <= j < i ==> AcceptedBy(es[j], dispatch)
      {
        PopulateStep(es, i, dispatch);
        if !AcceptedBy(es[i], dispatch) {
          RejectedFirst(es, i, dispatch);
          return Failure(ErrorBy(es[i], dispatch).value);
        }
        var d := dispatch(es[i].0);
        if d.Setter? {
          var same := o.Set(d.p, es[i].1);
        }
        i := i + 1;
      }
      assert es[..i] == es;
      return Success(o);
    }

    /** Every single-argument setter: `set<Prop>($v)` overwrites that field and returns the order. */
    method Set(p: Prop, v: Value) returns (r: PayOrder)
      requires Fits(p, v)
      modifies this
      ensures r == this
      ensures props == old(props)[p := v]
    {
      props := props[p := v];
      r := this;
    }

    /** `setStatus(array $status)`. */
    method SetStatus(status: Value) returns (r: PayOrder)
      requires status.Arr?
      modifies this
      ensures r == this
      ensures props == old(props)[Status := status]
      ensures GetStatus() == Some(status)
    {
      props := props[Status := status];
      r := this;
    }

    /** `setStatusCodeName($stateId, $name)`: the status becomes `['code' => ..., 'action' => ...]`. */
    method SetStatusCodeName(stateId: Value, name: Value)
      modifies this
      ensures props == old(props)[Status := Literal([("code", stateId), ("action", name)])]
    {
      props := props[Status := Literal([("code", stateId), ("action", name)])];
    }

    /** `getStatus(): array`; a status never set fails the return type, shown as None. */
    function GetStatus(): (r: Option<Value>)
      reads this
      ensures r.Some? <==> Status in props
      ensures r.Some? ==> r.value == props[Status]
    {
      if Status in props then Some(props[Status]) else None
    }

    /** `getStatusCode`: 0 without a status or code, the code itself when it is an integer. */
    function GetStatusCode(): (r: int)
      reads this
      ensures Status !in props ==> r == 0
      ensures Get(Field(Status), "code").Int? ==> r == Get(Field(Status), "code").i
    {
      StatusCodeOf(Field(Status))
    }

    /** `getStatusName`: '' without a status or action, the action itself when it is a string. */
    function GetStatusName(): (r: string)
      reads this
      ensures Status !in props ==> r == ""
      ensures Get(Field(Status), "action").Str? ==> r == Get(Field(Status), "action").s
    {
      StatusNameOf(Field(Status))
    }

    /** `isTestmode`: only an integration array whose 'test' entry is exactly `true`. */
    predicate IsTestmode()
      reads this
      ensures IsTestmode() ==> Integration in props && props[Integration].Arr?
    {
      TestmodeOf(Field(Integration))
    }

    /** `getPaymentMethod`: null when no payments were set. */
    function GetPaymentMethod(): (r: Value)
      reads this
      ensures Payments !in props ==> r == Null
    {
      PaymentMethodOf(Field(Payments))
    }

    /** `getPaymentUrl`: the 'redirect' link, or '' when there is none. */
    function GetPaymentUrl(): (r: Value)
      reads this
      ensures Get(Field(Links), "redirect").Null? ==> r == Str("")
      ensures !Get(Field(Links), "redirect").Null? ==> r == Get(Field(Links), "redirect")
    {
      LinkOf(Field(Links), "redirect")
    }

    /** `getStatusUrl`: the 'status' link, or '' when there is none. */
    function GetStatusUrl(): (r: Value)
      reads this
      ensures Get(Field(Links), "status").Null? ==> r == Str("")
      ensures !Get(Field(Links), "status").Null? ==> r == Get(Field(Links), "status")
    {
      LinkOf(Field(Links), "status")
    }

    /** `isChargeBack`: only a status whose action is exactly 'CHARGEBACK'. */
    predicate IsChargeBack()
      reads this
      ensures IsChargeBack() ==> Status in props && Get(props[Status], "action") == Str("CHARGEBACK")
    {
      ChargeBackOf(Field(Status))
    }

    function IsPaid(): (r: Result<bool, string>)
      reads this
      ensures r == Success(true) <==> Classify(GetStatusCode()) == Success(PAID)
      ensures r.Failure? <==> Classify(GetStatusCode()).Failure?
    {
      StatusIs(Field(Status), PAID)
    }

    function IsPending(): (r: Result<bool, string>)
      reads this
      ensures r == Success(true) <==> Classify(GetStatusCode()) == Success(PENDING)
      ensures r.Failure? <==> Classify(GetStatusCode()).Failure?
    {
      StatusIs(Field(Status), PENDING)
    }

    function IsCancelled(): (r: Result<bool, string>)
      reads this
      ensures r == Success(true) <==> Classify(GetStatusCode()) == Success(CANCEL)
      ensures r.Failure? <==> Classify(GetStatusCode()).Failure?
    {
      StatusIs(Field(Status), CANCEL)
    }

    function IsPartialPayment(): (r: Result<bool, string>)
      reads this
      ensures r == Success(true) <==> Classify(GetStatusCode()) == Success(PARTIAL_PAYMENT)
      ensures r.Failure? <==> Classify(GetStatusCode()).Failure?
    {
      StatusIs(Field(Status), PARTIAL_PAYMENT)
    }

    function IsAuthorized(): (r: Result<bool, string>)
      reads this
      ensures r == Success(true) <==> Classify(GetStatusCode()) == Success(AUTHORIZE)
      ensures r.Failure? <==> Classify(GetStatusCode()).Failure?
    {
      StatusIs(Field(Status), AUTHORIZE)
    }

    function IsRefundedFully(): (r: Result<bool, string>)
      reads this
      ensures r == Success(true) <==> Classify(GetStatusCode()) == Success(REFUND)
      ensures r.Failure? <==> Classify(GetStatusCode()).Failure?
    {
      StatusIs(Field(Status), REFUND)
    }

    function IsRefundedPartial(): (r: Result<bool, string>)
      reads this
      ensures r == Success(true) <==> Classify(GetStatusCode()) == Success(PARTIAL_REFUND)
      ensures r.Failure? <==> Classify(GetStatusCode()).Failure?
    {
      StatusIs(Field(Status), PARTIAL_REFUND)
    }

    function IsBeingVerified(): (r: Result<bool, string>)
      reads this
      ensures r == Success(true) <==> Classify(GetStatusCode()) == Success(VERIFY)
      ensures r.Failure? <==> Classify(GetStatusCode()).Failure?
    {
      StatusIs(Field(Status), VERIFY)
    }

    /** `isRefunded`: fully refunded, or partially when partial refunds count (the default). */
    function IsRefunded(allowPartialRefunds: bool := true): (r: Result<bool, string>)
      reads this
      ensures r == Success(true) <==>
        IsRefundedFully() == Success(true) || (allowPartialRefunds && IsRefundedPartial() == Success(true))
      ensures r.Failure? <==> IsRefundedFully().Failure?
    {
      RefundedOf(Field(Status), allowPartialRefunds)
    }
  }

  // ---------------------------------------------------------------------------
  // Lemmas
  // ---------------------------------------------------------------------------

  /** Under any rule, the first rejected entry is the one `FirstRejectedBy` finds. */
  lemma RejectedFirst(es: seq<(Key, Value)>, i: nat, dispatch: Key -> Dispatch)
    requires i < |es| && !AcceptedBy(es[i], dispatch)
    requires forall j :: 0 <= j < i ==> AcceptedBy(es[j], dispatch)
    ensures FirstRejectedBy(es, 0, dispatch) == Some(i)
  {
  }

  /** One more entry is one more constructor step. */
  lemma PopulateStep(es: seq<(Key, Value)>, i: nat, dispatch: Key -> Dispatch)
    requires i < |es|
    ensures PopulateBy(es[..i + 1], dispatch) == Apply(PopulateBy(es[..i], dispatch), es[i], dispatch)
  {
    assert es[..i + 1][..i] == es[..i];
  }

  lemma ApplyOther(m: map<Prop, Value>, e: (Key, Value), dispatch: Key -> Dispatch, p: Prop)
    requires dispatch(e.0) != Setter(p)
    ensures (p in Apply(m, e, dispatch) <==> p in m) && (p in m ==> Apply(m, e, dispatch)[p] == m[p])
  {
  }

  /** Under any rule, a field holds the value of the LAST key that selects its setter. */
  lemma {:induction false} LastWinsBy(es: seq<(Key, Value)>, dispatch: Key -> Dispatch, p: Prop, i: nat)
    requires i < |es| && dispatch(es[i].0) == Setter(p)
    requires forall j :: i < j < |es| ==> dispatch(es[j].0) != Setter(p)
    ensures p in PopulateBy(es, dispatch) && PopulateBy(es, dispatch)[p] == es[i].1
  {
    var n := |es| - 1;
    var front := es[..n];
    if i < n {
      forall j | i < j < |front|
        ensures dispatch(front[j].0) != Setter(p)
      {
        assert front[j] == es[j];
      }
      assert front[i] == es[i];
      LastWinsBy(front, dispatch, p, i);
      ApplyOther(PopulateBy(front, dispatch), es[n], dispatch, p);
    }
  }

  /** Under any rule, a field that no key selects stays unset. */
  lemma {:induction false} UnsetBy(es: seq<(Key, Value)>, dispatch: Key -> Dispatch, p: Prop)
    requires forall j :: 0 <= j < |es| ==> dispatch(es[j].0) != Setter(p)
    ensures p !in PopulateBy(es, dispatch)
  {
    if es != [] {
      var n := |es| - 1;
      var front := es[..n];
      forall j | 0 <= j < |front|
        ensures dispatch(front[j].0) != Setter(p)
      {
        assert front[j] == es[j];
      }
      UnsetBy(front, dispatch, p);
      ApplyOther(PopulateBy(front, dispatch), es[n], dispatch, p);
    }
  }

  /** After the constructor, a field holds the value of the LAST key that selects its setter. */
  lemma PopulateLastWins(es: seq<(Key, Value)>, p: Prop, i: nat)
    requires i < |es| && DispatchOf(es[i].0) == Setter(p)
    requires forall j :: i < j < |es| ==> DispatchOf(es[j].0) != Setter(p)
    ensures p in Populate(es) && Populate(es)[p] == es[i].1
  {
    LastWinsBy(es, DispatchOf, p, i);
  }

  /** A field that no key selects stays unset. */
  lemma PopulateUnset(es: seq<(Key, Value)>, p: Prop)
    requires forall j :: 0 <= j < |es| ==> DispatchOf(es[j].0) != Setter(p)
    ensures p !in Populate(es)
  {
    UnsetBy(es, DispatchOf, p);
  }

  /**
   * A key naming `setCheckoutData`, in any letter case, always aborts
   * construction: no payload value is an object.
   */
  lemma CheckoutDataAlwaysRejected(s: string, v: Value)
    requires ToLower(s) == "checkoutdata"
    ensures ErrorBy((StrKey(s), v), DispatchOf) == Some(TypeError(CheckoutData))
  {
    CheckoutDataDispatch(s);
  }

  lemma CheckoutDataDispatch(s: string)
    requires ToLower(s) == "checkoutdata"
    ensures DispatchOf(StrKey(s)) == Setter(CheckoutData)
  {
    CheckoutDataLower();
    var r := SetterNamed(ToLower(s), AllProps);
    assert CheckoutData in AllProps;
    OnlyNameOfLength12(r.value);
  }

  lemma CheckoutDataLower()
    ensures ToLower(PropName(CheckoutData)) == "checkoutdata"
  {
    var name := ToLower("CheckoutData");
    forall i | 0 <= i < 12 ensures name[i] == "checkoutdata"[i] {
      if i == 0 { assert "CheckoutData"[i] == 'C'; }
      if i == 8 { assert "CheckoutData"[i] == 'D'; }
    }
  }

  /** CheckoutData is the only field whose name has twelve letters. */
  lemma OnlyNameOfLength12(p: Prop)
    requires |PropName(p)| == 12
    ensures p == CheckoutData
  {
  }

  /**
   * A key naming `setStatusCodeName`, in any letter case, always aborts
   * construction: the setter needs two arguments.
   */
  lemma StatusCodeNameAlwaysRejected(s: string, v: Value)
    requires ToLower(s) == "statuscodename"
    ensures ErrorBy((StrKey(s), v), DispatchOf) == Some(ArgumentCountError)
  {
    assert ToLower("capturedAmount") != "statuscodename" by {
      assert ToLower("capturedAmount")[0] == 'c';
    }
    assert DispatchOf(StrKey(s)) == TwoArgSetter;
  }

  /** The three amount keys never reach a setter, whatever the payload holds. */
  lemma AmountKeysSkipped(k: Key)
    requires k == StrKey("amount") || k == StrKey("capturedAmount") || k == StrKey("authorizedAmount")
    ensures DispatchOf(k) == Skipped
  {
  }

  /** An accepted payload never sets an object-typed field. */
  lemma {:induction false} PopulateSetsNoObjectField(es: seq<(Key, Value)>, p: Prop)
    requires forall e :: e in es ==> EntryAccepted(e)
    requires p in {Amount, AuthorizedAmount, CapturedAmount, CheckoutData}
    ensures p !in Populate(es)
  {
    if es != [] {
      var n := |es| - 1;
      assert es[n] in es;
      forall e | e in es[..n]
        ensures EntryAccepted(e)
      {
        assert e in es;
      }
      PopulateSetsNoObjectField(es[..n], p);
    }
  }

  /** `setStatusCodeName(c, n)` then `getStatusCode()` and `getStatusName()` give back c and n. */
  lemma StatusPairRoundTrip(code: int, name: string)
    ensures StatusCodeOf(Literal([("code", Int(code)), ("action", Str(name))])) == code
    ensures StatusNameOf(Literal([("code", Int(code)), ("action", Str(name))])) == name
  {
    var v := Literal([("code", Int(code)), ("action", Str(name))]);
    assert v.entries[0] == (StrKey("code"), Int(code));
    assert v.entries[1] == (StrKey("action"), Str(name));
    assert v.entries[1..] == [(StrKey("action"), Str(name))];
    assert StrKey("code") != StrKey("action") by {
      assert |"code"| != |"action"|;
    }
    assert Find(v.entries, StrKey("action")) == Find(v.entries[1..], StrKey("action"));
    assert Get(v, "code") == Int(code);
    assert Get(v, "action") == Str(name);
  }

  /** A status with no code reads as code 0; one with no action reads as name ''. */
  lemma StatusDefaults(status: Value)
    ensures Get(status, "code").Null? ==> StatusCodeOf(status) == 0
    ensures Get(status, "action").Null? ==> StatusNameOf(status) == ""
  {
  }

  /** Whether the order is a chargeback depends on the status action alone, not on its code. */
  lemma ChargeBackIgnoresCode(status: Value, code: Value)
    requires status.Arr?
    ensures ChargeBackOf(Assign(status, "code", code)) <==> ChargeBackOf(status)
  {
  }

  /** At most one status predicate holds: the classifier gives one status. */
  lemma StatusPredicatesExclusive(status: Value, x: PayStatus.Status, y: PayStatus.Status)
    requires StatusIs(status, x) == Success(true) && StatusIs(status, y) == Success(true)
    ensures x == y
  {
  }

  /** The status predicates throw exactly when the code is an unlisted non-negative code. */
  lemma StatusPredicateThrows(status: Value, x: PayStatus.Status)
    ensures StatusIs(status, x).Failure? <==>
      (StatusCodeOf(status) >= 0 && StatusCodeOf(status) !in Known)
    ensures StatusIs(status, x).Failure? ==>
      StatusIs(status, x).error == UnexpectedStatus(StatusCodeOf(status))
  {
  }

  /**
   * After construction, the order is in test mode iff the last key that
   * names `setIntegration` carried an array whose 'test' entry is `true`.
   */
  lemma TestmodeFromPayload(o: PayOrder, es: seq<(Key, Value)>, i: nat)
    requires o.props == Populate(es)
    requires i < |es| && DispatchOf(es[i].0) == Setter(Integration)
    requires forall j :: i < j < |es| ==> DispatchOf(es[j].0) != Setter(Integration)
    ensures o.IsTestmode() <==> Get(es[i].1, "test") == Bool(true)
  {
    PopulateLastWins(es, Integration, i);
  }

  /** Test mode is a strict comparison: 1, '1' or 'true' in the 'test' entry do not count. */
  lemma TestmodeIsStrict(integration: Value, v: Value)
    requires integration.Arr?
    ensures TestmodeOf(Assign(integration, "test", v)) <==> v == Bool(true)
  {
  }

  /** Only the first payment gives the payment method; without payments it is null. */
  lemma {:induction false} PaymentMethodOfFirst(ms: seq<Value>)
    ensures ms == [] ==> PaymentMethodOf(List(ms)) == Null
    ensures ms != [] ==> PaymentMethodOf(List(ms)) == Get(Get(ms[0], "paymentMethod"), "id")
  {
    if ms != [] {
      assert List(ms).entries[0] == (IntKey(0), ms[0]);
    } else {
      assert List(ms).entries == [];
    }
  }

  /** The payment and status URLs are never null: a missing link reads as ''. */
  lemma LinksNeverNull(o: PayOrder)
    ensures !o.GetPaymentUrl().Null? && !o.GetStatusUrl().Null?
  {
  }

  /** Without a status, the code is 0, which the classifier rejects, so `isPaid` throws. */
  lemma UnsetStatusThrows(o: PayOrder)
    requires Status !in o.props
    ensures o.IsPaid() == Failure(UnexpectedStatus(0))
    ensures o.GetStatusName() == "" && !o.IsChargeBack()
  {
    assert o.GetStatusCode() == 0;
  }
}
