# PAY. PHP SDK core, modelled in Dafny

This project models the core of the PAY. (paynl) PHP SDK and proves properties of the model:

- **Exchange ingestion** (`PayNL\Sdk\Util\Exchange`). It covers:
  - the flattening of a legacy or structured webhook into one memoised payload;
  - the HMAC signature decision;
  - `process`: building the order from the full payload, then deciding whether to trust the payload's state or look the order up;
  - the acknowledgement text.
- **The order view** (`PayOrder`). It covers the constructor's key-to-setter loop, the status reads and the status predicates. All of these use one status classifier, `PayStatus::get`.
- **Order creation** (`OrderCreateRequest`). It covers the validating setters, the flattening of transfer data and the request body that `getBodyParameters` builds.
- **Value types and lookups.** `Amount`, `PayLoad` and the two-way `AbstractMapper`.
- **Small hydrator and serializer utilities.** `MethodMatchFilter`, `IsFilter`, `StrategyChain`, `UnderscoreToCamelCaseFilter`, `SerializedName` and `EmptyGuardTrait`.

**How PHP itself is modelled.** `php_value.dfy` holds a small model of the PHP values these files handle. It covers:
- ordered arrays with integer or string keys;
- `empty` and `??`;
- `(int)` and `(string)` casts, with `(int)` reading a string's leading number: sign, digits, an optional fraction and an optional exponent, truncated toward zero;
- ASCII `strtolower`/`strtoupper`, `trim`, `strpos` and `substr`;
- the decimal form of integers.

**How state is modelled.**
- Objects whose fields the SDK overwrites are Dafny classes. These are `Exchange`, `PayOrder`, `Amount`, `OrderCreateRequest`, `StrategyChain` and `UnderscoreToCamelCaseFilter`.
- Each loop is a method proved against a function that specifies it.
- Objects that never change after construction are datatypes. These are `PayLoad`, the mapper, the filters and `SerializedName`.

**Inputs from outside.** Everything the exchange reads from outside the object is one `Environment` value:
- `$_REQUEST`;
- the raw body and its JSON decoding;
- the request headers;
- the global configuration.

Two further pieces are function parameters:
- the HMAC (section 2 of RFC 2104) is `mac`;
- the order-status request is `lookup`.

## Model

| member | source | states |
|---|---|---|
| PhpValue.Store | src/Model/Request/OrderCreateRequest.php:64-67 | `$a[k] = x`: k then reads x, and every other key reads as before |
| PhpValue.IndexOfFrom | src/Packages/Laminas/Hydrator/Filter/IsFilter.php:13 | `strpos` gives the first occurrence at or after the offset, and false only when there is none |
| PhpValue.IntToStringRoundTrip | src/Model/Pay/PayOrder.php:161 | `(int)(string)$n == $n`: the decimal form of an integer reads back as that integer |
| PhpValue.ScaledUp | src/Model/Pay/PayLoad.php:33 | shifting a mantissa up by e places multiplies it by ten to the e |
| PhpValue.ScaledDropsDigits | src/Model/Pay/PayLoad.php:33 | shifting down past appended digits drops exactly those digits |
| PhpValue.DigitRunStops | src/Model/Pay/PayLoad.php:33 | the digit run of a number ends where a non-digit follows it |
| PhpValue.ExponentForm | src/Model/Pay/PayLoad.php:33 | `(int)` of '<m>e<e>' text is m times ten to the e, as `(int)'1e3' == 1000` |
| PhpValue.FractionTruncated | src/Model/Pay/PayOrder.php:161 | `(int)` of 'a.digits' is a: the fraction is truncated |
| PhpValue.IntToStringInjective | Tests/Unit/Model/PayStatusTest.php:55-58 | different integers have different decimal forms |
| PayStatus.Classify | Tests/Unit/Model/PayStatusTest.php:10-58 | a listed code gives its status; any other negative code gives CANCEL; any other non-negative code throws 'Unexpected status: N' |
| PayStatus.ClassifyOnlyListedCodes | Tests/Unit/Model/PayStatusTest.php:10-58 | every status except CANCEL comes only from the codes listed for it |
| PayStatus.ClassifyDefinedOn | Tests/Unit/Model/PayStatusTest.php:10-58 | the classifier succeeds exactly on negative codes and the listed codes |
| PayStatus.UnexpectedStatusInjective | Tests/Unit/Model/PayStatusTest.php:55-58 | the exception message determines the rejected code |
| PayStatus.PaidEventCodes | src/Util/Exchange.php:152 | the codes PAID and AUTHORIZE are exactly those classified PAID or AUTHORIZE |
| Amount.Amount.constructor | src/Model/Amount.php:22-43 | a null argument keeps the default (0, 'EUR'); a non-null one overrides it |
| Amount.Amount.FromCents | src/Model/Amount.php:60-63 | the value is exactly the cents given; the currency is the one given, or 'EUR' |
| Amount.Amount.SetValue | src/Model/Amount.php:87-100 | `getValue` then reads the new value, `getCurrency` is unchanged, and the same object is returned |
| Amount.Amount.SetCurrency | src/Model/Amount.php:68-82 | `getCurrency` then reads the new currency, `getValue` is unchanged, and the same object is returned |
| PayLoad.FromArray | src/Model/Pay/PayLoad.php:26-40 | succeeds iff the uncast typed properties get values of their types; then it copies reference, action, payOrderId, orderId and internalStateId verbatim, and casts paymentProfile to int by PHP's leading-number rule and internalStateName to string |
| PayLoad.FromArrayFailureOrder | src/Model/Pay/PayLoad.php:31-32 | the first property, in assignment order, to refuse its value is the one reported |
| PayLoad.PaymentProfileFromDecimal | src/Model/Pay/PayLoad.php:33 | a payment profile given as a decimal string is stored as that integer |
| PayLoad.FullPayLoadWrapped | src/Model/Pay/PayLoad.php:39 | a full payload that is not an array is stored as `[0 => value]` |
| PayLoad.PaymentProfileFromExponent | src/Model/Pay/PayLoad.php:33 | a payment profile given as '<m>e<e>' text, such as '1e3', is stored as m times ten to the e, such as 1000 |
| PayLoad.StateIdIsNotCast | src/Model/Pay/PayLoad.php:33-36 | a state id given as a decimal string is refused with 'internalStateId', although the same text is accepted as a payment profile |
| PayLoad.GettersReadInput | src/Model/Pay/PayLoad.php:43-59 | the getters return the state id as given, the string cast of the state name and the array cast of the full payload |
| PayOrder.SetterNamed | src/Model/Pay/PayOrder.php:147-148 | the setter found has the key's name, ignoring letter case; when none is found, no setter has that name |
| PayOrder.DispatchOf | src/Model/Pay/PayOrder.php:144-148 | a key reaches a setter only when it names it, ignoring case, and it is not one of the three amount keys |
| PayOrder.StatusIs | src/Model/Pay/PayOrder.php:652-712 | a status predicate holds iff the classifier maps the status code to that status; it throws exactly when the classifier does |
| PayOrder.RefundedOf | src/Model/Pay/PayOrder.php:729-740 | refunded iff the status is REFUND, or partial refunds are allowed and it is PARTIAL_REFUND |
| PayOrder.ErrorBy | src/Model/Pay/PayOrder.php:147-149 | an entry fails iff its setter needs two arguments (ArgumentCountError) or its value does not fit the setter's parameter type (TypeError naming that field) |
| PayOrder.FirstRejectedBy | src/Model/Pay/PayOrder.php:143-151 | the index found is the first entry that fails; none is found iff every entry passes |
| PayOrder.ConstructBy | src/Model/Pay/PayOrder.php:140-153 | construction succeeds iff every entry passes, and then holds the fields the entries set in order; a failure carries the error of an entry all of whose predecessors passed |
| PayOrder.PayOrder.Blank | src/Model/Pay/PayOrder.php:140-142 | `new PayOrder()` without a payload sets no field |
| PayOrder.PayOrder.New | src/Model/Pay/PayOrder.php:140-153 | returns a fresh order holding exactly the fields construction sets, or the error construction raises |
| PayOrder.PayOrder.Build | src/Model/Pay/PayOrder.php:143-151 | the loop over the entries gives the construction outcome, stopping at the first setter call that fails |
| PayOrder.RejectedFirst | src/Model/Pay/PayOrder.php:143-151 | a failing entry all of whose predecessors pass is the one the construction reports |
| PayOrder.CheckoutDataAlwaysRejected | src/Model/Pay/PayOrder.php:483-487 | a key naming `setCheckoutData`, in any case, always aborts construction with a TypeError, since no payload value is an object |
| PayOrder.StatusCodeNameAlwaysRejected | src/Model/Pay/PayOrder.php:339-342 | a key naming `setStatusCodeName`, in any case, always aborts construction with an ArgumentCountError |
| PayOrder.PayOrder.Set | src/Model/Pay/PayOrder.php:185-189 | a single-argument setter overwrites its field only and returns the order |
| PayOrder.PayOrder.SetStatus | src/Model/Pay/PayOrder.php:348-352 | the status becomes the given array, `getStatus` returns it, and nothing else changes |
| PayOrder.PayOrder.SetStatusCodeName | src/Model/Pay/PayOrder.php:339-342 | the status becomes `['code' => c, 'action' => n]` |
| PayOrder.PayOrder.GetStatus | src/Model/Pay/PayOrder.php:320-323 | the status array when one was set; an unset status fails the array return type |
| PayOrder.PayOrder.GetStatusCode | src/Model/Pay/PayOrder.php:159-162 | 0 when no status was set; the code itself when it is an integer |
| PayOrder.PayOrder.GetStatusName | src/Model/Pay/PayOrder.php:167-170 | '' when no status was set; the action itself when it is a string |
| PayOrder.PayOrder.IsTestmode | src/Model/Pay/PayOrder.php:375-379 | test mode only when an integration array was set |
| PayOrder.PayOrder.GetPaymentMethod | src/Model/Pay/PayOrder.php:419-422 | null when no payments were set |
| PayOrder.PayOrder.GetPaymentUrl | src/Model/Pay/PayOrder.php:636-639 | the 'redirect' link, or '' when it is missing or null |
| PayOrder.PayOrder.GetStatusUrl | src/Model/Pay/PayOrder.php:644-647 | the 'status' link, or '' when it is missing or null |
| PayOrder.PayOrder.IsChargeBack | src/Model/Pay/PayOrder.php:719-722 | only when a status was set whose action is exactly 'CHARGEBACK' |
| PayOrder.PayOrder.IsPaid | src/Model/Pay/PayOrder.php:652-655 | true iff the status code classifies as PAID; throws iff the classifier does |
| PayOrder.PayOrder.IsPending | src/Model/Pay/PayOrder.php:660-663 | true iff the status code classifies as PENDING; throws iff the classifier does |
| PayOrder.PayOrder.IsCancelled | src/Model/Pay/PayOrder.php:668-671 | true iff the status code classifies as CANCEL; throws iff the classifier does |
| PayOrder.PayOrder.IsPartialPayment | src/Model/Pay/PayOrder.php:676-679 | true iff the status code classifies as PARTIAL_PAYMENT; throws iff the classifier does |
| PayOrder.PayOrder.IsAuthorized | src/Model/Pay/PayOrder.php:684-687 | true iff the status code classifies as AUTHORIZE; throws iff the classifier does |
| PayOrder.PayOrder.IsRefundedFully | src/Model/Pay/PayOrder.php:692-695 | true iff the status code classifies as REFUND; throws iff the classifier does |
| PayOrder.PayOrder.IsRefundedPartial | src/Model/Pay/PayOrder.php:700-704 | true iff the status code classifies as PARTIAL_REFUND; throws iff the classifier does |
| PayOrder.PayOrder.IsBeingVerified | src/Model/Pay/PayOrder.php:709-712 | true iff the status code classifies as VERIFY; throws iff the classifier does |
| PayOrder.PayOrder.IsRefunded | src/Model/Pay/PayOrder.php:729-740 | true iff fully refunded, or partially refunded when partial refunds count, which they do by default; throws iff the classifier does |
| PayOrder.PopulateStep | src/Model/Pay/PayOrder.php:143-151 | one more payload entry is one more constructor step |
| PayOrder.LastWinsBy | src/Model/Pay/PayOrder.php:143-151 | under any key-to-setter rule, a field holds the value of the last key that selects it |
| PayOrder.UnsetBy | src/Model/Pay/PayOrder.php:143-151 | under any key-to-setter rule, a field no key selects stays unset |
| PayOrder.PopulateLastWins | src/Model/Pay/PayOrder.php:143-151 | after construction, a field holds the value of the last payload key that names its setter |
| PayOrder.PopulateUnset | src/Model/Pay/PayOrder.php:142-152 | a field that no payload key names stays unset |
| PayOrder.AmountKeysSkipped | src/Model/Pay/PayOrder.php:144-146 | amount, capturedAmount and authorizedAmount never reach a setter |
| PayOrder.PopulateSetsNoObjectField | src/Model/Pay/PayOrder.php:144-149 | entries that all pass never set the Amount-typed or object-typed fields |
| PayOrder.StatusPairRoundTrip | src/Model/Pay/PayOrder.php:159-170 | after `setStatusCodeName(c, n)`, `getStatusCode` is c and `getStatusName` is n |
| PayOrder.StatusDefaults | src/Model/Pay/PayOrder.php:159-170 | a status without a code reads as code 0; one without an action reads as name '' |
| PayOrder.ChargeBackIgnoresCode | src/Model/Pay/PayOrder.php:719-722 | the chargeback test depends on the status action alone, never on the code |
| PayOrder.StatusPredicatesExclusive | src/Model/Pay/PayOrder.php:652-712 | at most one status predicate holds for an order |
| PayOrder.StatusPredicateThrows | src/Model/Pay/PayOrder.php:652-712 | the status predicates throw exactly for unlisted non-negative codes, with 'Unexpected status: N' |
| PayOrder.TestmodeFromPayload | src/Model/Pay/PayOrder.php:375-379 | after construction, test mode holds iff the last key naming `setIntegration` carried a 'test' entry that is exactly true |
| PayOrder.TestmodeIsStrict | src/Model/Pay/PayOrder.php:378 | the 'test' entry counts only when it is `true` itself; 1, '1' or 'true' do not |
| PayOrder.PaymentMethodOfFirst | src/Model/Pay/PayOrder.php:419-422 | the payment method is the first payment's `paymentMethod.id`; null without payments |
| PayOrder.LinksNeverNull | src/Model/Pay/PayOrder.php:636-647 | the payment and status URLs are never null |
| PayOrder.UnsetStatusThrows | src/Model/Pay/PayOrder.php:652-655 | without a status the code is 0, so `isPaid` throws 'Unexpected status: 0'; the name is '' and it is no chargeback |
| Exchange.PaymentProfileOf | src/Util/Exchange.php:143-146 | the loop leaves the `paymentMethod.id` of the last payment, or '' when there are none |
| Exchange.LowerKeys | src/Util/Exchange.php:294 | the lower-cased header map has exactly the lower-cased names of the raw headers |
| Exchange.Exchange.constructor | src/Util/Exchange.php:29-32 | the custom payload is stored; the payload and header memos start empty |
| Exchange.Exchange.GetRequestHeaders | src/Util/Exchange.php:291-297 | the headers are fetched and lower-cased once, while the memo is empty |
| Exchange.Exchange.IsSignExchange | src/Util/Exchange.php:281-286 | signed iff the `signature-method` header is exactly 'HMAC' |
| Exchange.FetchPayload | src/Util/Exchange.php:96-108 | the memo wins; with no memo, no custom payload and no `$_REQUEST` it fails with 'Empty payload' |
| Exchange.CheckSign | src/Util/Exchange.php:243-276 | fails only with a ValueError, and only when `hash_hmac` does not know the named algorithm |
| Exchange.PaymentState | src/Util/Exchange.php:202-226 | on a signed request, a ValueError of the check escapes, a bad signature throws 'Signing request failed', and a good one trusts the payload's code |
| Exchange.ProcessSpec | src/Util/Exchange.php:189-236 | a non-array payload is a TypeError, a failed fetch 'Invalid payload', an order the payload cannot build that setter's error; a success built the order from the payload and carries the classification of the trusted code |
| Exchange.Exchange.CheckSignExchange | src/Util/Exchange.php:243-276 | reads the headers once and gives the signing decision: false when unsigned or the key id is empty or foreign, a ValueError for an unknown algorithm, else whether the signature equals the MAC |
| Exchange.Exchange.DecideState | src/Util/Exchange.php:202-226 | reads the headers once and gives the status code `process` trusts, or the exception it throws on the way |
| Exchange.Exchange.GetPayLoad | src/Util/Exchange.php:96-181 | the memo when set; else the payload of the custom payload or of `$_REQUEST`; a failure is returned as its message and not memoised |
| Exchange.Exchange.GetAction | src/Util/Exchange.php:69-73 | the payload's action, or false when fetching failed |
| Exchange.Exchange.GetReference | src/Util/Exchange.php:78-82 | the payload's reference, or '' |
| Exchange.Exchange.GetPayOrderId | src/Util/Exchange.php:87-91 | the payload's pay order id, or false |
| Exchange.Exchange.Process | src/Util/Exchange.php:189-236 | fetches the payload, builds the order from the full payload, then trusts or looks up the state and classifies it; the headers are read only once the order is built |
| Exchange.Exchange.SetResponse | src/Util/Exchange.php:50-59 | JSON for a signed exchange, else the text acknowledgement |
| Exchange.LowerKeysLastWins | src/Util/Exchange.php:294 | a lower-cased header holds the value of the last raw header with that name |
| Exchange.SignedByLastMethodHeader | src/Util/Exchange.php:281-286 | signed iff the last header named `signature-method`, in any case, is exactly 'HMAC' |
| Exchange.UnsignedWithoutMethodHeader | src/Util/Exchange.php:284-285 | without a `signature-method` header the exchange is unsigned |
| Exchange.CheckSignConditions | src/Util/Exchange.php:246-270 | an unsigned request or an empty or foreign key id gives false; a ValueError comes iff those pass and the algorithm is unknown; true needs a known algorithm and a matching MAC |
| Exchange.MemoisedPayload | src/Util/Exchange.php:99-101 | once a payload is stored, the input is never read again |
| Exchange.CustomPayloadShadowsRequest | src/Util/Exchange.php:103-108 | a non-empty custom payload is used whatever `$_REQUEST` holds |
| Exchange.LegacyFields | src/Util/Exchange.php:112-120 | a legacy notification copies `order_id` (default '') and `extra1`, lower-cases the action, and has state 0 and no state name |
| Exchange.StructuredCodeFromExponent | src/Util/Exchange.php:148 | a structured status code given as '<m>e<e>' text, such as '1e2', is read as m times ten to the e, such as 100 |
| Exchange.StructuredAction | src/Util/Exchange.php:147-154 | the action is 'new_ppt' for a PAID or AUTHORIZE code, else the lower-cased status action; reference equals orderId |
| Exchange.ConstructionFailsFirst | src/Util/Exchange.php:200 | a payload the order cannot be built from aborts `process` with the setter's error, whatever the signature and the lookup |
| Exchange.SignedInvalidThrows | src/Util/Exchange.php:200-208 | once the order is built, a signed exchange with a bad signature throws 'Signing request failed' |
| Exchange.UnknownAlgorithmEscapes | src/Util/Exchange.php:266 | the ValueError of an unknown signing algorithm escapes `process` |
| Exchange.TrustedPathsIgnoreLookup | src/Util/Exchange.php:202-213 | signed and valid, or unsigned and PENDING: the payload's own state is used, whatever the lookup does |
| Exchange.EscalationNeedsOrderId | src/Util/Exchange.php:214-218 | escalating without a pay order id throws 'Missing pay order id in payload' |
| Exchange.EscalationUsesLookup | src/Util/Exchange.php:219-225 | on escalation the state is the looked-up status code, and a PayException becomes 'API Retrieval error: ' + message |
| Exchange.FinalStateIsClassified | src/Util/Exchange.php:200-233 | a completed `process` built the order from the whole full payload and sets the classification of the trusted code, the payload's order id and amount |
| Exchange.UnsignedLegacyThrows | src/Util/Exchange.php:171 | an unsigned legacy notification carries state 0, which the classifier rejects before any lookup, unless building the order from the request already failed |
| Exchange.TextResponseRoundTrip | src/Util/Exchange.php:55 | the text acknowledgement reads back as the result and the verbatim message |
| Exchange.SignedResponseFields | src/Util/Exchange.php:52-53 | a signed acknowledgement carries exactly the result and the description |
| OrderCreateRequest.NotificationCheck | src/Model/Request/OrderCreateRequest.php:282-292 | fails iff the type is email and the recipient is not an address, or the type is push and the recipient does not start with AD- in any case |
| OrderCreateRequest.TransferRow | src/Model/Request/OrderCreateRequest.php:305 | a row has the entry's key as name and its value as value |
| OrderCreateRequest.AddField | src/Model/Request/OrderCreateRequest.php:115-120 | a non-empty value is stored under the field; an empty value changes nothing; other keys are untouched |
| OrderCreateRequest.RequiredPart | src/Model/Request/OrderCreateRequest.php:340-346 | the body starts with exactly serviceId and amount, which holds value and currency |
| OrderCreateRequest.NotificationEntry | src/Model/Request/OrderCreateRequest.php:454-457 | the notification entry holds the type and the recipient |
| OrderCreateRequest.OrderCreateRequest.constructor | src/Model/Request/OrderCreateRequest.php:24-46 | the defaults: empty strings, 'EUR', no test mode, nothing set for the typed properties without a default |
| OrderCreateRequest.OrderCreateRequest.EnableFastCheckout | src/Model/Request/OrderCreateRequest.php:62-68 | sets the four optimize entries |
| OrderCreateRequest.OrderCreateRequest.SetReturnurl | src/Model/Request/OrderCreateRequest.php:74-78 | stores the return URL |
| OrderCreateRequest.OrderCreateRequest.SetAmount | src/Model/Request/OrderCreateRequest.php:128-131 | copies the Amount's value and currency |
| OrderCreateRequest.OrderCreateRequest.SetCurrency | src/Model/Request/OrderCreateRequest.php:141-145 | stores the currency |
| OrderCreateRequest.OrderCreateRequest.SetServiceId | src/Model/Request/OrderCreateRequest.php:181-185 | stores the service id |
| OrderCreateRequest.OrderCreateRequest.SetDescription | src/Model/Request/OrderCreateRequest.php:191-195 | stores the description |
| OrderCreateRequest.OrderCreateRequest.SetReference | src/Model/Request/OrderCreateRequest.php:202-209 | accepts exactly the references of letters, digits and '-'; otherwise it fails with the message and keeps the old reference |
| OrderCreateRequest.OrderCreateRequest.SetExchangeUrl | src/Model/Request/OrderCreateRequest.php:215-219 | stores the exchange URL |
| OrderCreateRequest.OrderCreateRequest.SetPaymentMethodId | src/Model/Request/OrderCreateRequest.php:225-229 | stores the payment method id |
| OrderCreateRequest.OrderCreateRequest.SetIssuerId | src/Model/Request/OrderCreateRequest.php:234-238 | stores the issuer id |
| OrderCreateRequest.OrderCreateRequest.SetPayPalOrderId | src/Model/Request/OrderCreateRequest.php:246-250 | stores the PayPal order id |
| OrderCreateRequest.OrderCreateRequest.SetPaymentInputData | src/Model/Request/OrderCreateRequest.php:258-262 | stores the input data |
| OrderCreateRequest.OrderCreateRequest.SetTestmode | src/Model/Request/OrderCreateRequest.php:268-272 | stores the test mode |
| OrderCreateRequest.OrderCreateRequest.SetExpire | src/Model/Request/OrderCreateRequest.php:492-495 | stores the expiry |
| OrderCreateRequest.OrderCreateRequest.SetTerminal | src/Model/Request/OrderCreateRequest.php:500-503 | stores the terminal code |
| OrderCreateRequest.OrderCreateRequest.SetNotification | src/Model/Request/OrderCreateRequest.php:280-296 | lower-cases the type; on success stores type and recipient; on failure changes nothing |
| OrderCreateRequest.OrderCreateRequest.AppendRows | src/Model/Request/OrderCreateRequest.php:304-306 | appends one name/value row per entry, in order |
| OrderCreateRequest.OrderCreateRequest.SetTransferData | src/Model/Request/OrderCreateRequest.php:301-309 | appends the rows of every element, in order, after the rows already there |
| OrderCreateRequest.OrderCreateRequest.GetBodyParameters | src/Model/Request/OrderCreateRequest.php:331-462 | the step-by-step build gives the body the specification function describes |
| OrderCreateRequest.ReferenceMatchesAsWritten | src/Model/Request/OrderCreateRequest.php:204 | the pattern as written accepts every valid reference, and what it accepts is non-empty with every character but the last a letter, digit or '-' |
| OrderCreateRequest.BodyParameters | src/Model/Request/OrderCreateRequest.php:331-462 | a successful body had a non-empty amount and serviceId; an empty amount fails first with its 'Required param' message |
| OrderCreateRequest.BodyParametersAsWritten | src/Model/Request/OrderCreateRequest.php:331-349 | as written a body succeeds only with a return URL set, and with one set it is the intended body |
| OrderCreateRequest.TrailingNewlineAccepted | src/Model/Request/OrderCreateRequest.php:204 | the pattern as written accepts "Order1\n", which is not a valid reference |
| OrderCreateRequest.ReferencePatternsAgree | src/Model/Request/OrderCreateRequest.php:204 | on strings not ending in a newline, the pattern as written and the intended rule agree |
| OrderCreateRequest.ReferenceRejectsOutsideClass | src/Model/Request/OrderCreateRequest.php:204 | any character outside letters, digits and '-' before the end makes the pattern fail |
| OrderCreateRequest.PushRecipientRule | src/Model/Request/OrderCreateRequest.php:288-292 | a push recipient passes iff its first three characters are AD- in any case |
| OrderCreateRequest.RowsAt | src/Model/Request/OrderCreateRequest.php:304-306 | row i is the row of entry i |
| OrderCreateRequest.RowsStep | src/Model/Request/OrderCreateRequest.php:304-306 | one more entry appends one row |
| OrderCreateRequest.FlattenStep | src/Model/Request/OrderCreateRequest.php:303-307 | one more element appends its rows |
| OrderCreateRequest.FlattenAppend | src/Model/Request/OrderCreateRequest.php:303-307 | flattening two lists of elements is flattening each and concatenating |
| OrderCreateRequest.FlattenSingle | src/Model/Request/OrderCreateRequest.php:304-306 | one element flattens to its own rows |
| OrderCreateRequest.FastCheckoutFields | src/Model/Request/OrderCreateRequest.php:62-68 | flow is 'fastCheckout' and the three requests hold their arguments; other entries are unchanged |
| OrderCreateRequest.RequiredFieldsFirst | src/Model/Request/OrderCreateRequest.php:333-337 | an empty amount, checked first, or an empty serviceId fails with 'Required param `…` is empty' |
| OrderCreateRequest.OnlyOnePaymentInput | src/Model/Request/OrderCreateRequest.php:355-367 | the body fails with the only-one message iff a payment method is set and more than one input is |
| OrderCreateRequest.PaymentInputPrecedence | src/Model/Request/OrderCreateRequest.php:369-377 | the input is issuerId, else terminalCode, else the PayPal orderId, else the input data |
| OrderCreateRequest.NoPaymentMethodWithoutId | src/Model/Request/OrderCreateRequest.php:355 | without a payment method id there is no paymentMethod entry |
| OrderCreateRequest.OptionalSteps | src/Model/Request/OrderCreateRequest.php:349-353 | the optional part is the five addField calls in order |
| OrderCreateRequest.TrailingSteps | src/Model/Request/OrderCreateRequest.php:380-460 | the trailing part is integration, optimize, notification and transferData, in order |
| OrderCreateRequest.AddFieldsOther | src/Model/Request/OrderCreateRequest.php:115-120 | adding fields leaves every other key untouched |
| OrderCreateRequest.AddFieldsAt | src/Model/Request/OrderCreateRequest.php:115-120 | each added field holds its value when non-empty, else what it held before |
| OrderCreateRequest.OptionalNamesDistinct | src/Model/Request/OrderCreateRequest.php:349-353 | the optional fields have five distinct names, none of them an earlier key |
| OrderCreateRequest.OptionalFields | src/Model/Request/OrderCreateRequest.php:349-353 | each optional field is present with its value exactly when the value is non-empty |
| OrderCreateRequest.TrailingFields | src/Model/Request/OrderCreateRequest.php:380-460 | integration.test is testMode === true; notification is present iff the type is non-empty; optimize and transferData only when non-empty |
| OrderCreateRequest.EarlyKeysKept | src/Model/Request/OrderCreateRequest.php:340-378 | the later steps never write the keys of the earlier ones |
| OrderCreateRequest.HeadRequired | src/Model/Request/OrderCreateRequest.php:340-346 | the head holds serviceId, amount value and currency |
| OrderCreateRequest.HeadOptional | src/Model/Request/OrderCreateRequest.php:349-378 | the head holds the description when non-empty and the payment method when there is one |
| OrderCreateRequest.BodyRequired | src/Model/Request/OrderCreateRequest.php:340-346 | a successful body holds serviceId and the amount with its currency |
| OrderCreateRequest.BodyOptional | src/Model/Request/OrderCreateRequest.php:349-458 | a successful body has the description iff non-empty, paymentMethod iff an id is set, integration.test, and notification iff a type is set |
| OrderCreateRequest.UnsetReturnUrlFails | src/Model/Request/OrderCreateRequest.php:349 | as written, a request whose return URL was never set fails on the uninitialised property |
| OrderCreateRequest.BodyParametersAgreeWhenReturnUrlSet | src/Model/Request/OrderCreateRequest.php:349 | once a return URL is set, the body as written and the intended body agree |
| AbstractMapper.ArrayKey | src/Mapper/AbstractMapper.php:66 | a canonical decimal string in the 64-bit range is used as that integer key; any other string as itself |
| AbstractMapper.SearchStrict | src/Mapper/AbstractMapper.php:50 | `array_search(…, true)` finds the first entry strictly equal to the string, or none |
| AbstractMapper.Mapper.GetMapping | src/Mapper/AbstractMapper.php:26-37 | returns the constructor's array unchanged |
| AbstractMapper.Mapper.GetSource | src/Mapper/AbstractMapper.php:44-51 | the key of the first entry equal to the target; '' when none or when the key is falsy; an integer key breaks the string return type |
| AbstractMapper.Mapper.GetTarget | src/Mapper/AbstractMapper.php:60-67 | the entry under the source's key; '' when it is missing or null; a non-string entry breaks the return type with 'Return value must be of type string, X returned' naming its type |
| AbstractMapper.FoundAt | src/Mapper/AbstractMapper.php:66 | the entry a key lookup finds is one of the array's entries |
| AbstractMapper.SourceOfTarget | src/Mapper/AbstractMapper.php:44-67 | for a one-to-one map and a non-falsy, non-numeric key, getSource(getTarget(s)) == s |
| AbstractMapper.FalsyKeyReadsAsMissing | src/Mapper/AbstractMapper.php:50 | a value found under a falsy key is reported as '' |
| AbstractMapper.NumericSourceUsesIntKey | src/Mapper/AbstractMapper.php:66 | the decimal form of an integer looks up the integer key |
| HydratorFilter.NameStart | src/Packages/Laminas/Hydrator/Filter/MethodMatchFilter.php:38-43 | the name starts just after the first '::', or at 0 when there is none |
| HydratorFilter.QualifiedNameStart | src/Packages/Laminas/Hydrator/Filter/MethodMatchFilter.php:38-43 | for 'Class::name' the compared name is exactly name |
| HydratorFilter.PlainName | src/Packages/Laminas/Hydrator/Filter/MethodMatchFilter.php:41-42 | a property without '::' is compared whole |
| HydratorFilter.MethodMatchFilter.Filter | src/Packages/Laminas/Hydrator/Filter/MethodMatchFilter.php:36-48 | the result differs from exclude iff the compared name equals the method |
| HydratorFilter.Excluding | src/Packages/Laminas/Hydrator/Filter/MethodMatchFilter.php:30-34 | the default filter excludes |
| HydratorFilter.ExcludingRejectsOnlyTheMethod | src/Packages/Laminas/Hydrator/Filter/MethodMatchFilter.php:30-47 | by default the filter returns false exactly for the named method |
| HydratorFilter.MethodMatchIgnoresClass | src/Packages/Laminas/Hydrator/Filter/MethodMatchFilter.php:38-47 | 'X::m' and 'm' give the same answer; only the first '::' is removed |
| HydratorFilter.IsFilter | src/Packages/Laminas/Hydrator/Filter/IsFilter.php:11-21 | true iff the text after the first '::' begins with 'is', case-sensitively |
| HydratorFilter.IsFilterIgnoresClass | src/Packages/Laminas/Hydrator/Filter/IsFilter.php:13-20 | the class prefix never affects the answer |
| HydratorFilter.IsFilterNeedsLeadingLowerI | src/Packages/Laminas/Hydrator/Filter/IsFilter.php:20 | a name starting with anything but 'i', such as 'IsX' or 'hasIs', is rejected |
| StrategyChain.Reverse | src/Packages/Laminas/Hydrator/Strategy/StrategyChain.php:42 | `array_reverse`: element i is the element |xs|-1-i |
| StrategyChain.HydrateAllSnoc | src/Packages/Laminas/Hydrator/Strategy/StrategyChain.php:62-64 | a strategy at the end of the list hydrates last |
| StrategyChain.ReversedHydrationUndoesExtraction | src/Packages/Laminas/Hydrator/Strategy/StrategyChain.php:42-67 | when each strategy's hydrate undoes its extract, hydrating with the reversed list undoes extraction |
| StrategyChain.StrategyChain.constructor | src/Packages/Laminas/Hydrator/Strategy/StrategyChain.php:31-43 | the hydration list is exactly the extraction list reversed |
| StrategyChain.StrategyChain.Extract | src/Packages/Laminas/Hydrator/Strategy/StrategyChain.php:48-55 | threads the value through the strategies first to last; an empty chain is the identity |
| StrategyChain.StrategyChain.Hydrate | src/Packages/Laminas/Hydrator/Strategy/StrategyChain.php:60-67 | threads the value through the reversed list; an empty chain is the identity |
| StrategyChain.ChainRoundTrip | src/Packages/Laminas/Hydrator/Strategy/StrategyChain.php:42-67 | chain.hydrate(chain.extract(v)) == v when every strategy undoes itself |
| UnderscoreToCamelCaseFilter.Replace | src/Packages/Laminas/Hydrator/NamingStrategy/UnderscoreNamingStrategy/UnderscoreToCamelCaseFilter.php:36-60 | the rewrite never lengthens the text |
| UnderscoreToCamelCaseFilter.LcFirst | src/Packages/Laminas/Hydrator/NamingStrategy/UnderscoreNamingStrategy/UnderscoreToCamelCaseFilter.php:87 | `lcfirst`: only the first character changes, to lower case |
| UnderscoreToCamelCaseFilter.CamelCase | src/Packages/Laminas/Hydrator/NamingStrategy/UnderscoreNamingStrategy/UnderscoreToCamelCaseFilter.php:31-44 | the result is never longer than the input |
| UnderscoreToCamelCaseFilter.ReplaceKeepsPlainText | src/Packages/Laminas/Hydrator/NamingStrategy/UnderscoreNamingStrategy/UnderscoreToCamelCaseFilter.php:56 | text without '_' is unchanged |
| UnderscoreToCamelCaseFilter.ReplaceAfterPlainText | src/Packages/Laminas/Hydrator/NamingStrategy/UnderscoreNamingStrategy/UnderscoreToCamelCaseFilter.php:36-40 | the scan passes over a stretch without '_' unchanged |
| UnderscoreToCamelCaseFilter.UnderscoreBeforeCharacter | src/Packages/Laminas/Hydrator/NamingStrategy/UnderscoreNamingStrategy/UnderscoreToCamelCaseFilter.php:56-59 | the first '_' before a non-space character is dropped and that character upper-cased, and the scan resumes after the pair |
| UnderscoreToCamelCaseFilter.UnderscoreBeforeSpace | src/Packages/Laminas/Hydrator/NamingStrategy/UnderscoreNamingStrategy/UnderscoreToCamelCaseFilter.php:56 | a '_' before whitespace is kept, and so is the whitespace |
| UnderscoreToCamelCaseFilter.TrailingUnderscore | src/Packages/Laminas/Hydrator/NamingStrategy/UnderscoreNamingStrategy/UnderscoreToCamelCaseFilter.php:56 | a '_' at the end is kept |
| UnderscoreToCamelCaseFilter.CamelCaseStartsLower | src/Packages/Laminas/Hydrator/NamingStrategy/UnderscoreNamingStrategy/UnderscoreToCamelCaseFilter.php:42-44 | the result never starts with an upper-case letter; its first character is the input's lower-cased when the input does not start with '_' |
| UnderscoreToCamelCaseFilter.UnderscoreToCamelCaseFilter.constructor | src/Packages/Laminas/Hydrator/NamingStrategy/UnderscoreNamingStrategy/UnderscoreToCamelCaseFilter.php:23 | the cache starts empty |
| UnderscoreToCamelCaseFilter.UnderscoreToCamelCaseFilter.Filter | src/Packages/Laminas/Hydrator/NamingStrategy/UnderscoreNamingStrategy/UnderscoreToCamelCaseFilter.php:25-49 | returns the camel-case form, cached or computed; a new input is added to the cache, the cache only grows, and every cached answer is the camel-case form of its key |
| SerializedName.SerializedName.GetSerializedName | src/Packages/Symfony/Serializer/Annotation/SerializedName.php:44-47 | returns the name the annotation was built with |
| SerializedName.New | src/Packages/Symfony/Serializer/Annotation/SerializedName.php:31-42 | succeeds iff 'value' is a string PHP does not consider empty; a missing or null value gives 'should be set.'; any other failure gives 'must be a non-empty string.' |
| SerializedName.MessagesDiffer | src/Packages/Symfony/Serializer/Annotation/SerializedName.php:34-38 | the two failures have different messages |
| SerializedName.NameRoundTrip | src/Packages/Symfony/Serializer/Annotation/SerializedName.php:37-46 | any name but '' and '0' is accepted and read back unchanged |
| EmptyGuard.GuardAgainstEmpty | src/Packages/Laminas/Stdlib/Guard/EmptyGuardTrait.php:26-35 | fails iff the data is empty, with '<dataName> cannot be empty' |
| EmptyGuard.RejectedValues | src/Packages/Laminas/Stdlib/Guard/EmptyGuardTrait.php:31 | the rejected values are exactly null, false, 0, '', '0' and [] |
| EmptyGuard.DefaultMessage | src/Packages/Laminas/Stdlib/Guard/EmptyGuardTrait.php:28-32 | without a name the message is 'Argument cannot be empty' |

## Left out

- The source of `PayStatus` is not part of this model. `PayStatus.Classify` is the table the unit tests assert for it, and PAID = 100 and AUTHORIZE = 95 are the codes the tests give those statuses.
- `setResponse` without `returnOutput` echoes and exits. That is output, not a value, so it is not modelled.
- `dbg` calls are debug output and are not modelled.
- `eventStateChangeToPaid` compares with `PayStatus::EVENT_PAID`, a constant whose source is not part of this model.
- `hash_hmac` is the uninterpreted function `mac`, and `hash_equals` is string equality. The ValueError `hash_hmac` throws for an unknown algorithm is modelled.
- `json_encode` of the acknowledgement is the record `Json(result, description)`, not its bytes.
- `Exchange.Exchange.Process`: after the state is decided, the result is a snapshot of the built order's fields and of what `process` then sets on it (Exchange.php:229-233). As written, those calls fail: `setAmount` receives a raw payload value where it takes an `Amount`, and the shown `PayOrder` has no `setPaymentProfileId` or `setStateId`. The snapshot records the values they are given.
- The `PayException` friendly message comes from the unseen exception class. It is a field of the lookup result.
- The `OrderStatusRequest` network call and its cache are the function parameter `lookup`.
- Floating point is not modelled:
  - `OrderCreateRequest::setAmount(float)` (OrderCreateRequest.php:133);
  - `Amount::fromFloat`;
  - `PayOrder::getAmount`'s division by 100;
  - the float casts of `PayLoad`.
- The customer, order, product and stats blocks of `getBodyParameters` depend on DTOs and `Vat` classes that are not part of this model. The same goes for `setOrder`, `setCustomer`, `setStats`, `getProducts`, `getSdkObject` and `start`.
- Email validation with `filter_var` is the predicate parameter `isEmail`.
- `OrderCreateRequest.BodyParameters`: the body is a map from key to value. It states which keys the body holds and with what values, but not the order in which PHP lists them.
- `PayOrder` getters other than those of the status, integration, payments and links are plain field reads, and are not listed one by one.
- `PayOrder.PayOrder.Set` covers the single-argument setters whose parameter is a string or an array. The setters whose parameter is an object are not modelled as methods, because a payload value is never an object:
  - `setAmount`, `setAuthorizedAmount` and `setCapturedAmount` take an `Amount`; the constructor skips their keys (PayOrder.php:144-146);
  - `setCheckoutData` takes an `object`; the constructor reaches it, and it always throws a TypeError there (`PayOrder.CheckoutDataAlwaysRejected`).
- `PayOrder.ErrorBy`: the TypeError carries the field whose setter refused the value, not PHP's message text with the method name and the given type.
- `PhpValue.StringToInt`: integers are unbounded. PHP saturates a cast beyond the 64-bit range, maps an infinite float to 0, and rounds a long mantissa with an exponent to the nearest double before truncating; none of these is modelled.
- `Exchange.CheckSign`: which algorithm names `hash_hmac` knows is the predicate parameter `hmacAlgos`, since the list comes from PHP's hash extension.
- `AbstractMapper.Mapper.GetSource` and `GetTarget` take strings only. For an object PHP uses its class name, which the caller can pass instead.
- `StrategyChain.StrategyChain.Extract` and `Hydrate` model strategies as total functions. A strategy that throws is not modelled, and neither are the keys `iteratorToArray` keeps.
- The Unicode branches of `UnderscoreToCamelCaseFilter` (PCRE `u` patterns and `mb_*` case mapping) depend on the unseen `StringSupportTrait`. Only the single-byte branch with `lcfirst` is modelled.
- `EmptyGuard.GuardAgainstEmpty` gives the message only. The exception class to throw is a parameter of the trait and is not modelled.
- Integers are unbounded throughout. The one place the 64-bit range matters is the conversion of numeric string keys (`AbstractMapper.ArrayKey`), which models it.
- Characters are single bytes with ASCII case mapping. There is no multibyte or locale handling.

## Findings

| source | as written | input that shows it | evidently intended | confidence | as-written member | corrected member |
|---|---|---|---|---|---|---|
| src/Model/Request/OrderCreateRequest.php:204 | `/^([A-Za-z0-9-]+)$/` without the D modifier: `$` also matches before a final newline | `setReference("Order1\n")` is accepted and stores the newline | only letters, digits and '-' are accepted | high, not executed | OrderCreateRequest.TrailingNewlineAccepted | OrderCreateRequest.OrderCreateRequest.SetReference |
| src/Model/Request/OrderCreateRequest.php:349 | reads the typed property `$returnUrl` (declared without a default at line 28) even when `setReturnurl` was never called | a request with amount and serviceId but no return URL: `getBodyParameters()` throws an Error for accessing an uninitialised property | an unset return URL is omitted like the other optional fields | high, not executed | OrderCreateRequest.UnsetReturnUrlFails | OrderCreateRequest.OrderCreateRequest.GetBodyParameters |
