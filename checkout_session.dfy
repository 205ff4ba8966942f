/** The serverless checkout-session handler: it sanitises client-supplied
    line items, derives the site's base URL from the request headers and
    decides, gate by gate, whether to answer with an error status or to ask
    the payment provider for a checkout session. */
module CheckoutSession {
  import opened Wrappers
  import opened JsValues

  const MaxLineItems: nat := 50
  const MinQuantity: int := 1
  const MaxQuantity: int := 99
  const MinUnitAmount: int := 50
  const MaxUnitAmount: int := 99999999
  const MaxNameLength: nat := 120
  const DefaultItemName: string := "CABANA Item"
  const CheckoutCurrency: string := "aud"

  /** `product_data` of a sanitised line item. */
  datatype ProductData = ProductData(name: string, images: seq<string>)

  /** `price_data` of a sanitised line item; `None` is a NaN amount. */
  datatype PriceData = PriceData(currency: string, unitAmount: Option<int>, productData: ProductData)

  /** A sanitised line item as sent to the payment provider; `None` is a
      NaN quantity. */
  datatype CheckoutLineItem = CheckoutLineItem(priceData: PriceData, quantity: Option<int>)

  // ---------------------------------------------------------------------
  // sanitizeLineItems
  // ---------------------------------------------------------------------

  /** `Math.max(lo, Math.min(hi, x))` where NaN (`None`) passes through both. */
  function ClampOrNaN(lo: int, hi: int, x: Option<int>): (r: Option<int>)
    requires lo <= hi
    ensures r.None? <==> x.None?
    ensures r.Some? ==> lo <= r.value <= hi
    ensures x.Some? && lo <= x.value <= hi ==> r == x
    ensures x.Some? && x.value < lo ==> r == Some(lo)
    ensures x.Some? && x.value > hi ==> r == Some(hi)
  {
    match x
    case None => None
    case Some(v) => Some(if v < lo then lo else if v > hi then hi else v)
  }

  /** `parseInt(v || fallback, 10)`: a falsy value gives the fallback
      itself, a truthy one is parsed from its text. */
  function ParseIntOr(v: JsValue, fallback: int): (r: Option<int>)
    ensures !Truthy(v) ==> r == Some(fallback)
    ensures Truthy(v) ==> r == ParseInt(ToJsString(v))
  {
    ParseIntDecimal(fallback, "");
    assert DecimalString(fallback) + "" == DecimalString(fallback);
    ParseInt(ToJsString(Or(v, Number(fallback))))
  }

  /** `Math.max(1, Math.min(99, parseInt(quantity || 1, 10)))` */
  function ItemQuantity(quantity: JsValue): (r: Option<int>)
    ensures r.None? <==> ParseIntOr(quantity, 1).None?
    ensures r.Some? ==> MinQuantity <= r.value <= MaxQuantity
  {
    ClampOrNaN(MinQuantity, MaxQuantity, ParseIntOr(quantity, 1))
  }

  /** `Math.max(50, Math.min(99999999, parseInt(unit_amount || 0, 10)))` */
  function ItemUnitAmount(amount: JsValue): (r: Option<int>)
    ensures r.None? <==> ParseIntOr(amount, 0).None?
    ensures r.Some? ==> MinUnitAmount <= r.value <= MaxUnitAmount
  {
    ClampOrNaN(MinUnitAmount, MaxUnitAmount, ParseIntOr(amount, 0))
  }

  /** `String(name || 'CABANA Item').slice(0, 120)` */
  function ItemName(name: JsValue): (r: string)
    ensures |r| <= MaxNameLength
    ensures !Truthy(name) ==> r == DefaultItemName
    ensures Truthy(name) ==> |r| <= |ToJsString(name)| && r == ToJsString(name)[..|r|]
    ensures Truthy(name) && |ToJsString(name)| <= MaxNameLength ==> r == ToJsString(name)
    ensures Truthy(name) && |ToJsString(name)| > MaxNameLength ==> r == ToJsString(name)[..MaxNameLength]
  {
    var s := ToJsString(Or(name, Str(DefaultItemName)));
    if |s| <= MaxNameLength then s else s[..MaxNameLength]
  }

  /** The `images` list: empty without an image, the image itself when its
      text starts with "http", otherwise the image appended to the base URL. */
  function ItemImages(image: JsValue, baseUrl: string): (r: seq<string>)
    ensures |r| <= 1
    ensures r == [] <==> !Truthy(image) || ToJsString(image) == ""
    ensures r != [] && StartsWith(ToJsString(image), "http") ==> r == [ToJsString(image)]
    ensures r != [] && !StartsWith(ToJsString(image), "http") ==> r == [baseUrl + ToJsString(image)]
    ensures forall u :: u in r ==> u != ""
  {
    var text := if Truthy(image) then ToJsString(image) else "";
    if text == "" then []
    else if StartsWith(text, "http") then [text]
    else [baseUrl + text]
  }

  /** The `map` callback of `sanitizeLineItems` on one input element; reading
      a field of a null or undefined element throws a TypeError. */
  function SanitizeItem(it: JsValue, baseUrl: string): (r: Result<CheckoutLineItem>)
    ensures r.Failure? <==> IsNullish(it)
    ensures r.Success? ==> var li := r.value;
      li.priceData.currency == CheckoutCurrency &&
      |li.priceData.productData.name| <= MaxNameLength &&
      |li.priceData.productData.images| <= 1 &&
      (li.quantity.Some? ==> MinQuantity <= li.quantity.value <= MaxQuantity) &&
      (li.priceData.unitAmount.Some? ==> MinUnitAmount <= li.priceData.unitAmount.value <= MaxUnitAmount)
    ensures r.Success? ==>
      r.value.quantity == ItemQuantity(Get(it, "quantity").value) &&
      r.value.priceData.unitAmount == ItemUnitAmount(Get(it, "unit_amount").value) &&
      r.value.priceData.productData.name == ItemName(Get(it, "name").value) &&
      r.value.priceData.productData.images == ItemImages(Get(it, "image").value, baseUrl)
  {
    if IsNullish(it) then Failure("TypeError")
    else
      var quantity := ItemQuantity(Get(it, "quantity").value);
      var unitAmount := ItemUnitAmount(Get(it, "unit_amount").value);
      var name := ItemName(Get(it, "name").value);
      var images := ItemImages(Get(it, "image").value, baseUrl);
      Success(CheckoutLineItem(PriceData(CheckoutCurrency, unitAmount, ProductData(name, images)), quantity))
  }

  /** No element is null or undefined. */
  predicate NoNullish(items: seq<JsValue>) {
    forall i :: 0 <= i < |items| ==> !IsNullish(items[i])
  }

  /** `.map(...)` over the kept elements: fails as soon as one element throws. */
  function SanitizeAll(items: seq<JsValue>, baseUrl: string): (r: Result<seq<CheckoutLineItem>>)
    ensures r.Success? <==> NoNullish(items)
    ensures r.Success? ==> |r.value| == |items|
    ensures r.Success? ==> forall i :: 0 <= i < |items| ==>
      SanitizeItem(items[i], baseUrl) == Success(r.value[i])
  {
    MapOrThrow(it => SanitizeItem(it, baseUrl), items)
  }

  /** A sanitised item survives `.filter(li => li.price_data.unit_amount > 0)`. */
  predicate HasPositiveAmount(li: CheckoutLineItem) {
    li.priceData.unitAmount.Some? && li.priceData.unitAmount.value > 0
  }

  /** `.filter(li => li.price_data.unit_amount > 0)`: NaN compares false. */
  function KeepPriced(items: seq<CheckoutLineItem>): (r: seq<CheckoutLineItem>)
    ensures |r| <= |items|
    ensures forall li :: li in r ==> li in items && HasPositiveAmount(li)
    ensures forall li :: li in items && HasPositiveAmount(li) ==> li in r
    ensures IsSubsequence(r, items)
    ensures forall li :: multiset(r)[li] == if HasPositiveAmount(li) then multiset(items)[li] else 0
  {
    if items == [] then []
    else
      assert multiset(items) == multiset{items[0]} + multiset(items[1..]) by {
        assert items == [items[0]] + items[1..];
      }
      if HasPositiveAmount(items[0]) then [items[0]] + KeepPriced(items[1..])
      else KeepPriced(items[1..])
  }

  /** `a` is `b` with some elements left out, in the same order. */
  predicate IsSubsequence<T(==)>(a: seq<T>, b: seq<T>)
    decreases |b|
  {
    a == [] || (b != [] && ((a[0] == b[0] && IsSubsequence(a[1..], b[1..])) || IsSubsequence(a, b[1..])))
  }

  /** The elements `.slice(0, 50)` keeps. */
  function FirstFifty(items: seq<JsValue>): (r: seq<JsValue>)
    ensures |r| <= MaxLineItems && |r| <= |items|
    ensures r == items[..|r|]
    ensures |items| <= MaxLineItems ==> r == items
    ensures |r| == if |items| <= MaxLineItems then |items| else MaxLineItems
  {
    if |items| <= MaxLineItems then items else items[..MaxLineItems]
  }

  /** `sanitizeLineItems(input, baseUrl)`: non-arrays give the empty list;
      otherwise the first 50 elements are sanitised and those whose amount
      did not parse are dropped. */
  function SanitizeLineItems(input: JsValue, baseUrl: string): (r: Result<seq<CheckoutLineItem>>)
    ensures !input.Array? ==> r == Success([])
    ensures r.Success? ==> |r.value| <= MaxLineItems
    ensures input.Array? && r.Success? ==> |r.value| <= |input.elems|
    ensures input.Array? ==> (r.Success? <==> NoNullish(FirstFifty(input.elems)))
    ensures r.Success? ==> forall li :: li in r.value ==>
      li.priceData.unitAmount.Some? &&
      MinUnitAmount <= li.priceData.unitAmount.value <= MaxUnitAmount
  {
    if !input.Array? then Success([])
    else
      match SanitizeAll(FirstFifty(input.elems), baseUrl)
      case Failure(e) => Failure(e)
      case Success(mapped) =>
        var kept := KeepPriced(mapped);
        assert forall li :: li in kept ==> li in mapped;
        SanitizedAmountsInRange(FirstFifty(input.elems), mapped, baseUrl);
        Success(kept)
  }

  lemma SanitizedAmountsInRange(items: seq<JsValue>, mapped: seq<CheckoutLineItem>, baseUrl: string)
    requires SanitizeAll(items, baseUrl) == Success(mapped)
    ensures forall li :: li in mapped && li.priceData.unitAmount.Some? ==>
      MinUnitAmount <= li.priceData.unitAmount.value <= MaxUnitAmount
  {
    forall li | li in mapped && li.priceData.unitAmount.Some?
      ensures MinUnitAmount <= li.priceData.unitAmount.value <= MaxUnitAmount
    {
      var i :| 0 <= i < |mapped| && mapped[i] == li;
      assert SanitizeItem(items[i], baseUrl) == Success(li);
    }
  }

  // ---------------------------------------------------------------------
  // Properties of sanitizeLineItems
  // ---------------------------------------------------------------------

  /** Survivors keep their input order: the result is a subsequence of the
      sanitised first 50 elements, and it holds exactly those whose amount
      parsed. */
  lemma SanitizeKeepsOrder(input: seq<JsValue>, baseUrl: string)
    requires SanitizeLineItems(Array(input), baseUrl).Success?
    ensures SanitizeAll(FirstFifty(input), baseUrl).Success?
    ensures var mapped := SanitizeAll(FirstFifty(input), baseUrl).value;
      var r := SanitizeLineItems(Array(input), baseUrl).value;
      IsSubsequence(r, mapped) &&
      (forall li :: li in r <==> li in mapped && li.priceData.unitAmount.Some?) &&
      (forall li :: multiset(r)[li] == if li.priceData.unitAmount.Some? then multiset(mapped)[li] else 0)
  {
    var mapped := SanitizeAll(FirstFifty(input), baseUrl).value;
    SanitizedAmountsInRange(FirstFifty(input), mapped, baseUrl);
  }

  /** Elements after the fiftieth are never looked at, not even to throw. */
  lemma SanitizeOnlyFirstFifty(input: seq<JsValue>, baseUrl: string)
    requires |input| >= MaxLineItems
    ensures SanitizeLineItems(Array(input), baseUrl) == SanitizeLineItems(Array(input[..MaxLineItems]), baseUrl)
  {
    assert FirstFifty(input[..MaxLineItems]) == FirstFifty(input);
  }

  /** A null or undefined element among the first 50 makes the sanitiser
      throw. */
  lemma SanitizeThrowsOnNull(input: seq<JsValue>, i: nat, baseUrl: string)
    requires i < |input| && i < MaxLineItems && IsNullish(input[i])
    ensures SanitizeLineItems(Array(input), baseUrl).Failure?
  {
    assert FirstFifty(input)[i] == input[i];
  }

  /** A numeric quantity is clamped into [1, 99]. */
  lemma QuantityClamp(quantity: JsValue, n: int)
    requires ParseIntOr(quantity, 1) == Some(n)
    ensures ItemQuantity(quantity) ==
      Some(if n < MinQuantity then MinQuantity else if n > MaxQuantity then MaxQuantity else n)
  {
  }

  /** A missing or zero quantity becomes 1. */
  lemma MissingQuantityIsOne(quantity: JsValue)
    requires quantity == Undefined || quantity == Number(0)
    ensures ItemQuantity(quantity) == Some(1)
  {
  }

  /** A quantity whose text has no leading digits stays NaN, and the item is
      kept all the same (the filter looks at the amount only). */
  lemma NonNumericQuantityKept(it: JsValue, baseUrl: string)
    requires !IsNullish(it)
    requires ParseIntOr(Get(it, "quantity").value, 1) == None
    requires ParseIntOr(Get(it, "unit_amount").value, 0).Some?
    ensures SanitizeItem(it, baseUrl).value.quantity == None
    ensures KeepPriced([SanitizeItem(it, baseUrl).value]) == [SanitizeItem(it, baseUrl).value]
  {
  }

  /** A numeric amount is clamped into [50, 99999999]. */
  lemma AmountClamp(amount: JsValue, n: int)
    requires ParseIntOr(amount, 0) == Some(n)
    ensures ItemUnitAmount(amount) ==
      Some(if n < MinUnitAmount then MinUnitAmount else if n > MaxUnitAmount then MaxUnitAmount else n)
  {
  }

  /** A missing or zero amount becomes 50. */
  lemma MissingAmountIsFifty(amount: JsValue)
    requires amount == Undefined || amount == Number(0)
    ensures ItemUnitAmount(amount) == Some(MinUnitAmount)
  {
  }

  /** An element without `quantity` and `unit_amount` is sanitised to
      quantity 1 and amount 50, and so survives the filter. */
  lemma MissingFieldsDefaults(fields: map<string, JsValue>, baseUrl: string)
    requires "quantity" !in fields && "unit_amount" !in fields
    ensures var li := SanitizeItem(Object(fields), baseUrl).value;
      li.quantity == Some(MinQuantity) && li.priceData.unitAmount == Some(MinUnitAmount) &&
      KeepPriced([li]) == [li]
  {
  }

  /** An amount whose text has no leading digits is NaN, and the item is
      dropped by the filter. */
  lemma NonNumericAmountDropped(it: JsValue, baseUrl: string)
    requires !IsNullish(it)
    requires ParseIntOr(Get(it, "unit_amount").value, 0) == None
    ensures SanitizeItem(it, baseUrl).value.priceData.unitAmount == None
    ensures KeepPriced([SanitizeItem(it, baseUrl).value]) == []
  {
  }

  /** The example of a non-numeric amount: the string "abc". */
  lemma AbcAmountIsNaN()
    ensures ParseIntOr(Str("abc"), 0) == None
  {
    ParseIntNoDigits("abc");
  }

  /** Name, currency and images of a sanitised item. */
  lemma ItemDescription(it: JsValue, baseUrl: string)
    requires !IsNullish(it)
    ensures var li := SanitizeItem(it, baseUrl).value;
      var image := Get(it, "image").value;
      var text := ToJsString(image);
      li.priceData.currency == "aud" &&
      li.priceData.productData.name == ItemName(Get(it, "name").value) &&
      (!Truthy(image) ==> li.priceData.productData.images == []) &&
      (Truthy(image) && StartsWith(text, "http") ==> li.priceData.productData.images == [text]) &&
      (Truthy(image) && text != "" && !StartsWith(text, "http") ==>
        li.priceData.productData.images == [baseUrl + text])
  {
  }

  /** Every image URL handed on is non-empty, so `images` is `[]` exactly
      when no usable image was given. */
  lemma ImagesNonEmpty(image: JsValue, baseUrl: string)
    ensures forall u :: u in ItemImages(image, baseUrl) ==> u != ""
  {
  }

  // ---------------------------------------------------------------------
  // getBaseUrl and parseJson
  // ---------------------------------------------------------------------

  /** `m[name] || fallback` over a map of strings (the request headers,
      `process.env`): an absent or empty entry gives the fallback. */
  function ValueOr(m: map<string, string>, name: string, fallback: string): (r: string)
    ensures name in m && m[name] != "" ==> r == m[name]
    ensures !(name in m && m[name] != "") ==> r == fallback
  {
    if name in m && m[name] != "" then m[name] else fallback
  }

  function Proto(headers: map<string, string>): string {
    ValueOr(headers, "x-forwarded-proto", "https")
  }

  function Host(headers: map<string, string>): string {
    ValueOr(headers, "x-forwarded-host", ValueOr(headers, "host", "localhost:3000"))
  }

  /** `getBaseUrl(req)`: `${proto}://${host}`. The result splits back into
      the protocol and host it was built from. */
  function GetBaseUrl(headers: map<string, string>): (r: string)
    ensures |r| == |Proto(headers)| + 3 + |Host(headers)|
    ensures r[..|Proto(headers)|] == Proto(headers)
    ensures r[|Proto(headers)|..|Proto(headers)| + 3] == "://"
    ensures r[|Proto(headers)| + 3..] == Host(headers)
  {
    Proto(headers) + "://" + Host(headers)
  }

  /** Without forwarding headers or a host header the base URL is
      "https://localhost:3000". */
  lemma BaseUrlDefaults()
    ensures GetBaseUrl(map[]) == "https://localhost:3000"
  {
  }

  /** The host falls back from x-forwarded-host to host to localhost:3000,
      and the protocol from x-forwarded-proto to https. */
  lemma BaseUrlFallbacks(headers: map<string, string>)
    ensures "x-forwarded-host" in headers && headers["x-forwarded-host"] != "" ==>
      Host(headers) == headers["x-forwarded-host"]
    ensures (!("x-forwarded-host" in headers && headers["x-forwarded-host"] != "") &&
      "host" in headers && headers["host"] != "") ==> Host(headers) == headers["host"]
    ensures (!("x-forwarded-host" in headers && headers["x-forwarded-host"] != "") &&
      !("host" in headers && headers["host"] != "")) ==> Host(headers) == "localhost:3000"
    ensures !("x-forwarded-proto" in headers && headers["x-forwarded-proto"] != "") ==>
      Proto(headers) == "https"
  {
  }

  /** The empty object `{}`. */
  const EmptyObject: JsValue := Object(map[])

  /** `parseJson(body)` with `JSON.parse` passed in as `jsonParse`
      (`None` when the text does not parse). */
  function ParseJson(body: JsValue, jsonParse: string -> Option<JsValue>): (r: JsValue)
    ensures !Truthy(body) ==> r == EmptyObject
    ensures Truthy(body) && (body.Object? || body.Array?) ==> r == body
    ensures Truthy(body) && !body.Object? && !body.Array? ==>
      r == jsonParse(ToJsString(body)).GetOr(EmptyObject)
  {
    if !Truthy(body) then EmptyObject
    else if body.Object? || body.Array? then body
    else match jsonParse(ToJsString(body))
      case Some(v) => v
      case None => EmptyObject
  }

  /** Text that does not parse gives `{}`, as does the empty string. */
  lemma ParseJsonFallbacks(text: string, jsonParse: string -> Option<JsValue>)
    requires jsonParse(text).None?
    ensures ParseJson(Str(text), jsonParse) == EmptyObject
    ensures ParseJson(Str(""), jsonParse) == EmptyObject
  {
  }

  // ---------------------------------------------------------------------
  // The handler's decisions
  // ---------------------------------------------------------------------

  /** The parts of the incoming request the handler reads. */
  datatype Request = Request(httpMethod: string, headers: map<string, string>, body: JsValue)

  /** The arguments of the payment provider's session-creation call. */
  datatype SessionRequest = SessionRequest(
    mode: string,
    lineItems: seq<CheckoutLineItem>,
    allowPromotionCodes: bool,
    billingAddressCollection: string,
    allowedCountries: seq<string>,
    successUrl: string,
    cancelUrl: string,
    site: string,
    region: string)

  /** What the gate sequence decides: an early response with a status, an
      allowed method header (for 405) and an error text, a call to the
      payment provider, or an exception escaping the handler. */
  datatype Decision =
    | Reject(status: int, allow: Option<string>, message: string)
    | CreateSession(request: SessionRequest)
    | Crash(error: string)

  /** `process.env[name]`: a string, or undefined when it is not set. */
  function EnvValue(env: map<string, string>, name: string): JsValue {
    if name in env then Str(env[name]) else Undefined
  }

  /** `String(process.env.CHECKOUT_ENABLED || 'false') === 'true'`: the
      fallback never equals "true", so only the exact setting "true" enables
      checkout. */
  function CheckoutEnabled(env: map<string, string>): (r: bool)
    ensures r <==> "CHECKOUT_ENABLED" in env && env["CHECKOUT_ENABLED"] == "true"
  {
    ValueOr(env, "CHECKOUT_ENABLED", "false") == "true"
  }

  /** `!!process.env.STRIPE_SECRET_KEY`: the key is set and not empty. */
  function HasSecretKey(env: map<string, string>): (r: bool)
    ensures r <==> "STRIPE_SECRET_KEY" in env && env["STRIPE_SECRET_KEY"] != ""
  {
    Truthy(EnvValue(env, "STRIPE_SECRET_KEY"))
  }

  /** The line items the handler sanitises: `body.lineItems || []` after
      `parseJson`, then `sanitizeLineItems`; reading `lineItems` off a null
      body throws. */
  function RequestLineItems(req: Request, jsonParse: string -> Option<JsValue>): (r: Result<seq<CheckoutLineItem>>)
    ensures IsNullish(ParseJson(req.body, jsonParse)) ==> r == Failure("TypeError")
    ensures var body := ParseJson(req.body, jsonParse);
      !IsNullish(body) && !Get(body, "lineItems").value.Array? ==> r == Success([])
    ensures var body := ParseJson(req.body, jsonParse);
      !IsNullish(body) ==>
        r == SanitizeLineItems(Or(Get(body, "lineItems").value, Array([])), GetBaseUrl(req.headers))
    ensures r.Success? ==> |r.value| <= MaxLineItems
  {
    var body := ParseJson(req.body, jsonParse);
    match Get(body, "lineItems")
    case Failure(e) => Failure(e)
    case Success(raw) => SanitizeLineItems(Or(raw, Array([])), GetBaseUrl(req.headers))
  }

  /** The handler up to the payment call, in the source's order: method,
      server flag, secret key, line items. */
  function HandlerDecision(req: Request, env: map<string, string>, jsonParse: string -> Option<JsValue>): (d: Decision)
    ensures req.httpMethod != "POST" ==> d == Reject(405, Some("POST"), "Method Not Allowed")
    ensures req.httpMethod == "POST" && !CheckoutEnabled(env) ==> d.Reject? && d.status == 503
    ensures req.httpMethod == "POST" && CheckoutEnabled(env) && !HasSecretKey(env) ==> d.Reject? && d.status == 503
    ensures d.CreateSession? <==>
      req.httpMethod == "POST" && CheckoutEnabled(env) && HasSecretKey(env) &&
      RequestLineItems(req, jsonParse).Success? && RequestLineItems(req, jsonParse).value != []
    ensures d.Reject? && d.status == 400 <==>
      req.httpMethod == "POST" && CheckoutEnabled(env) && HasSecretKey(env) &&
      RequestLineItems(req, jsonParse) == Success([])
    ensures d.CreateSession? ==> d.request.lineItems == RequestLineItems(req, jsonParse).value
    ensures d.Crash? <==>
      req.httpMethod == "POST" && CheckoutEnabled(env) && HasSecretKey(env) &&
      RequestLineItems(req, jsonParse).Failure?
  {
    if req.httpMethod != "POST" then Reject(405, Some("POST"), "Method Not Allowed")
    else if !CheckoutEnabled(env) then Reject(503, None, "Checkout is currently disabled")
    else if !HasSecretKey(env) then Reject(503, None, "Stripe is not configured")
    else
      var baseUrl := GetBaseUrl(req.headers);
      var successUrl := ValueOr(env, "CHECKOUT_SUCCESS_URL", baseUrl + "/cart.html?success=true");
      var cancelUrl := ValueOr(env, "CHECKOUT_CANCEL_URL", baseUrl + "/cart.html?cancel=true");
      match RequestLineItems(req, jsonParse)
      case Failure(e) => Crash(e)
      case Success(lineItems) =>
        if lineItems == [] then Reject(400, None, "No valid line items provided")
        else CreateSession(SessionRequest(
          mode := "payment",
          lineItems := lineItems,
          allowPromotionCodes := true,
          billingAddressCollection := "auto",
          allowedCountries := ["AU", "NZ", "US", "GB", "CA"],
          successUrl := successUrl,
          cancelUrl := cancelUrl,
          site := "CABANA Collections",
          region := ValueOr(env, "NEXT_PUBLIC_REGION", "AU")))
  }

  /** The session the payment provider returns. */
  datatype Session = Session(url: string, id: string)

  /** The handler's reply: a status with a text or JSON body, or an
      exception that escapes it. */
  datatype Reply =
    | Text(status: int, allow: Option<string>, text: string)
    | ErrorJson(status: int, error: string)
    | SessionJson(status: int, url: string, id: string)
    | Thrown(error: string)

  /** The whole handler, with the payment provider's session creation passed
      in as `createSession` (`None` when the call fails). */
  function Handle(req: Request, env: map<string, string>, jsonParse: string -> Option<JsValue>,
                  createSession: SessionRequest -> Option<Session>): (r: Reply)
    ensures req.httpMethod != "POST" ==> r == Text(405, Some("POST"), "Method Not Allowed")
    ensures r.SessionJson? <==>
      HandlerDecision(req, env, jsonParse).CreateSession? &&
      createSession(HandlerDecision(req, env, jsonParse).request).Some?
    ensures r.SessionJson? ==> r.status == 200
    ensures r.ErrorJson? && r.status == 500 <==>
      HandlerDecision(req, env, jsonParse).CreateSession? &&
      createSession(HandlerDecision(req, env, jsonParse).request).None?
    ensures r.Thrown? <==> HandlerDecision(req, env, jsonParse).Crash?
  {
    match HandlerDecision(req, env, jsonParse)
    case Reject(status, allow, message) =>
      if status == 405 then Text(status, allow, message) else ErrorJson(status, message)
    case Crash(e) => Thrown(e)
    case CreateSession(sessionRequest) =>
      match createSession(sessionRequest)
      case Some(session) => SessionJson(200, session.url, session.id)
      case None => ErrorJson(500, "Unable to create checkout session")
  }

  /** The payment provider is consulted only once every gate has passed:
      any other outcome is the same whatever the provider would do. */
  lemma PaymentCallOnlyAfterGates(req: Request, env: map<string, string>, jsonParse: string -> Option<JsValue>,
                                  f: SessionRequest -> Option<Session>, g: SessionRequest -> Option<Session>)
    requires !(req.httpMethod == "POST" && CheckoutEnabled(env) && HasSecretKey(env) &&
      RequestLineItems(req, jsonParse).Success? && RequestLineItems(req, jsonParse).value != [])
    ensures Handle(req, env, jsonParse, f) == Handle(req, env, jsonParse, g)
    ensures Handle(req, env, jsonParse, f).Text? ==> Handle(req, env, jsonParse, f).status == 405
  {
  }

  /** The statuses of the handler, gate by gate. */
  lemma HandlerStatuses(req: Request, env: map<string, string>, jsonParse: string -> Option<JsValue>,
                        createSession: SessionRequest -> Option<Session>)
    requires req.httpMethod == "POST"
    ensures var r := Handle(req, env, jsonParse, createSession);
      (!CheckoutEnabled(env) ==> r == ErrorJson(503, "Checkout is currently disabled")) &&
      (CheckoutEnabled(env) && !HasSecretKey(env) ==> r == ErrorJson(503, "Stripe is not configured")) &&
      (CheckoutEnabled(env) && HasSecretKey(env) && RequestLineItems(req, jsonParse) == Success([]) ==>
        r == ErrorJson(400, "No valid line items provided"))
  {
  }

  /** A request whose JSON body is `null` throws before any status is set. */
  lemma NullBodyThrows(req: Request, env: map<string, string>, jsonParse: string -> Option<JsValue>,
                       createSession: SessionRequest -> Option<Session>)
    requires req.httpMethod == "POST" && CheckoutEnabled(env) && HasSecretKey(env)
    requires req.body == Str("null") && jsonParse("null") == Some(Null)
    ensures Handle(req, env, jsonParse, createSession) == Thrown("TypeError")
  {
  }

  /** A body without line items, or with a non-array `lineItems`, is
      answered with 400. */
  lemma NoLineItemsIs400(req: Request, env: map<string, string>, jsonParse: string -> Option<JsValue>,
                         createSession: SessionRequest -> Option<Session>)
    requires req.httpMethod == "POST" && CheckoutEnabled(env) && HasSecretKey(env)
    requires req.body.Object?
    requires "lineItems" !in req.body.fields || !req.body.fields["lineItems"].Array?
    ensures Handle(req, env, jsonParse, createSession) == ErrorJson(400, "No valid line items provided")
  {
  }
}
