# CABANA storefront: pricing, checkout gate and launch flags

This project models three small pieces of logic from the CABANA Collections storefront and proves properties about them.

- **Cart pricing calculator** (`js/cart-utils.js`, module `CartUtils`).
  - `calcCartTotals` folds the line items into an integer-cent subtotal.
  - It caps the discount at zero.
  - It tests the free-shipping threshold (20000 cents) on the discounted subtotal.
  - It picks the shipping fee: 0 when the cart qualifies, otherwise the one supplied, otherwise 1000.
  - It derives the total, a floored 10% donation, the cents still needed for free shipping, and a progress percentage capped at 100.
  - `dollarsToCents` rounds an exact rational dollar price to the nearest cent, halves up.
- **Checkout-session handler** (`api/create-checkout-session.js`, module `CheckoutSession`).
  - `sanitizeLineItems` keeps the first 50 elements and clamps quantity into [1, 99] and unit amount into [50, 99999999].
  - It cuts names to 120 characters and makes relative image paths absolute against the base URL.
  - It drops items whose amount is NaN.
  - A null element among the first 50 throws a TypeError.
  - `getBaseUrl` and `parseJson` are also modelled.
  - The handler is a decision function over its gates, in order: 405 for a non-POST request; 503 when checkout is disabled; 503 when the secret key is missing; 400 when no line item survives; otherwise the payment provider's session call.
- **Launch feature flags** (`assets/js/flags.js`, module `Flags`).
  - `toBoolean` normalises a value to a boolean.
  - Each flag is resolved from the first source that is not null: URL parameter, then local storage, then window global. The window global is itself `NEXT_PUBLIC_* || __*_ENABLED__`.
  - The start-up script is a method. Its "safe defaults" block is proved never to change a value.
  - `CABANA_SET_FLAGS` is a method that updates a `LocalStorage` object's entry map in place.

Module `JsValues` holds the slice of JavaScript semantics these files rely on:
- `JsValue`, truthiness and `||`;
- `String(v)`;
- property reads, which fail with a TypeError on null and undefined;
- `parseInt(s, 10)`, which gives `None` for NaN;
- `trim()` and `toLowerCase()`.

Module `Wrappers` holds `Option` and `Result`.

Two external calls are passed in as function parameters:
- the payment provider's session call, as `createSession`;
- `JSON.parse`, as `jsonParse`.

`process.env` is a map parameter. The page's query string, local storage and window globals are the `Page` value.

Two behaviours of the code shape the model:
- `calcCartTotals` raises no validation error, so `CartUtils.CalcCartTotals` has no precondition. The lemmas that need non-negative prices and quantities require them.
- `Math.round` rounds halves toward +infinity, which equals rounding half away from zero on non-negative prices. `CartUtils.DollarsToCents` rounds the same way.

## Model

| member | source | states |
|---|---|---|
| CartUtils.DollarsToCents | js/cart-utils.js:10-12 | the cents c satisfy c - 1/2 <= 100 * price < c + 1/2 (nearest cent, halves up) |
| CartUtils.DollarsToCentsNonNegative | js/cart-utils.js:10-12 | a non-negative price converts to non-negative cents |
| CartUtils.DollarsToCentsExact | js/cart-utils.js:10-12 | a price already in whole cents converts exactly |
| CartUtils.FoldLineCents | js/cart-utils.js:30-33 | the left-to-right `reduce` from acc equals acc plus the reference sum of cents(price) * quantity |
| CartUtils.SumOfConcat | js/cart-utils.js:30-33 | the subtotal of two concatenated carts is the sum of their subtotals |
| CartUtils.EmptyCartSubtotal | js/cart-utils.js:30-33 | an empty cart has subtotal 0 |
| CartUtils.SubtotalPermutation | js/cart-utils.js:30-33 | carts that are permutations of each other have the same subtotal |
| CartUtils.SubtotalNonNegative | js/cart-utils.js:30-33 | with non-negative prices and quantities the subtotal is non-negative |
| CartUtils.DiscountedSubtotal | js/cart-utils.js:36 | the discounted subtotal is the least non-negative value at or above subtotal - discount: either 0 or exactly subtotal - discount |
| CartUtils.DiscountNeverRaises | js/cart-utils.js:36 | a non-negative discount keeps the discounted subtotal between 0 and the subtotal |
| CartUtils.DiscountCapExample | js/cart-utils.js:36-47 | 5000 cents of goods with a 9000 cent discount: discounted 0, total equals the shipping fee 1000 |
| CartUtils.ThresholdUsesDiscountedSubtotal | js/cart-utils.js:36-44 | a raw subtotal of 20000 brought to 19999 by a discount does not qualify and pays 1000 shipping |
| CartUtils.ThresholdBoundary | js/cart-utils.js:39-47 | 20000 cents qualifies with shipping 0 and total 20000; 19999 does not and pays 1000, total 20999 |
| CartUtils.ExplicitZeroShipping | js/cart-utils.js:42-44 | an explicit shipping fee of 0 is used, while an absent one gives the default 1000 |
| CartUtils.Donation | js/cart-utils.js:50 | the donation is the floor of a tenth: 10 * r <= d < 10 * r + 10, and 0 <= r <= d |
| CartUtils.DonationTruncates | js/cart-utils.js:50 | 10099 cents give a donation of 1009, not 1010 |
| CartUtils.DonationIgnoresShipping | js/cart-utils.js:42-67 | donation, qualification, remaining and progress are the same whatever shipping fee is given |
| CartUtils.RemainingForFreeShip | js/cart-utils.js:60-63 | remaining is non-negative, 0 exactly when the discounted subtotal reaches 20000, and otherwise tops it up to exactly 20000 |
| CartUtils.FreeShipProgress | js/cart-utils.js:64-67 | progress lies in [0, 100], is 100 from 19900 cents up, and below that is the nearest whole percent of d / 20000, halves up |
| CartUtils.FreeShipMonotone | js/cart-utils.js:50-67 | as the discounted subtotal grows, progress and donation never fall and remaining never rises |
| CartUtils.ProgressFullBeforeFreeShipping | js/cart-utils.js:60-67 | at 19900 cents progress already reads 100 while 100 cents remain |
| CartUtils.CalcCartTotals | js/cart-utils.js:28-69 | subtotal is the reference sum; discount is echoed unchanged; capped discounted subtotal; qualifies iff >= 20000; shipping 0 / supplied (even 0) / 1000; total = discounted + shipping; floored tenth donation; remaining 0 iff qualifies; progress in [0, 100] and 100 when qualifying; donation, remaining and progress are `Donation`, `RemainingForFreeShip` and `FreeShipProgress` of the discounted subtotal |
| CartUtils.BreakdownNonNegative | js/cart-utils.js:28-69 | with non-negative prices, quantities and shipping fee every amount of the breakdown is non-negative |
| CartUtils.WorkedExample | js/cart-utils.js:28-69 | 2 x $45 and 1 x $30 with a 1000 cent discount give 12000, 11000, no free shipping, 1000, 12000, 1100, 9000, 55 |
| JsValues.Truthy | api/create-checkout-session.js:15 | null and undefined are falsy, arrays and objects truthy, a boolean is itself, a number falsy exactly when it is 0 or NaN, a string truthy exactly when non-empty |
| JsValues.Or | api/create-checkout-session.js:29-31 | `a \|\| b` is `a` when `a` is truthy and `b` otherwise, so it is truthy exactly when either operand is |
| JsValues.ToJsString | api/create-checkout-session.js:31-32 | `String(v)` of a string is the string, of a number its text, of a boolean "true" or "false", of null "null", of undefined "undefined", of a plain object "[object Object]", of an empty array "", and of a one-element array that element's text ("" for null or undefined) |
| JsValues.MapOrThrow | api/create-checkout-session.js:28-46 | `map` with a throwing callback succeeds exactly when no callback throws, then maps every element in order; otherwise the error is that of the first element that throws |
| JsValues.Get | api/create-checkout-session.js:29-32 | reading a property fails with a TypeError exactly on null and undefined; an object holding the key gives that field's value; a missing key or a non-object gives undefined |
| JsValues.TrimStartShape | assets/js/flags.js:10 | `trimStart` leaves the suffix starting at the first non-white-space character, having removed only white space |
| JsValues.TrimEndShape | assets/js/flags.js:10 | `trimEnd` leaves the prefix ending at the last non-white-space character, having removed only white space |
| JsValues.Trim | assets/js/flags.js:10 | `trim` leaves the part of the input between some leading and some trailing white space, and that part neither starts nor ends with white space |
| JsValues.TrimNoSpace | assets/js/flags.js:10 | a string without white space at either end is unchanged by `trim` |
| JsValues.TrimPadded | assets/js/flags.js:10 | `trim` removes one space on either side of a word |
| JsValues.ToLower | assets/js/flags.js:10 | `toLowerCase` keeps the length and lower-cases each character in place |
| JsValues.ToLowerConcat | assets/js/flags.js:10 | `toLowerCase` distributes over concatenation |
| JsValues.ToLowerNoUpper | assets/js/flags.js:10 | a string without upper-case letters is unchanged by `toLowerCase` |
| JsValues.ParseInt | api/create-checkout-session.js:29-30 | `parseInt` is a number exactly when, after leading white space and an optional sign, a digit follows; a negative result comes only from a leading minus |
| JsValues.ParseDigits | api/create-checkout-session.js:29-30 | a digit run gives a non-negative number exactly when the text starts with a digit |
| JsValues.DigitRun | api/create-checkout-session.js:29-30 | the leading digit run is maximal: its characters are digits and the next one is not |
| JsValues.NatDigitsValue | api/create-checkout-session.js:29-30 | reading the decimal digits of n back gives n |
| JsValues.ParseIntDecimal | api/create-checkout-session.js:29-30 | `parseInt` of the decimal text of any integer, followed by any non-digit text, gives that integer |
| JsValues.ParseIntNoDigits | api/create-checkout-session.js:29-30 | `parseInt` of text whose first non-space character is neither a sign nor a digit is NaN |
| CheckoutSession.ClampOrNaN | api/create-checkout-session.js:29-30 | the max/min clamp keeps NaN as NaN, sends a number below lo to lo and one above hi to hi, and leaves numbers in [lo, hi] unchanged |
| CheckoutSession.ParseIntOr | api/create-checkout-session.js:29-30 | `parseInt(v \|\| fallback)` is the fallback itself for a falsy v and the parse of v's text otherwise |
| CheckoutSession.ItemQuantity | api/create-checkout-session.js:29 | the quantity is NaN exactly when `parseInt(quantity \|\| 1)` is, and otherwise lies in [1, 99] |
| CheckoutSession.QuantityClamp | api/create-checkout-session.js:29 | a parsed quantity n becomes 1 below 1, 99 above 99, and n otherwise |
| CheckoutSession.MissingQuantityIsOne | api/create-checkout-session.js:29 | a missing or zero quantity becomes 1 |
| CheckoutSession.ItemUnitAmount | api/create-checkout-session.js:30 | the amount is NaN exactly when `parseInt(unit_amount \|\| 0)` is, and otherwise lies in [50, 99999999] |
| CheckoutSession.AmountClamp | api/create-checkout-session.js:30 | a parsed amount n becomes 50 below 50, 99999999 above it, and n otherwise |
| CheckoutSession.MissingAmountIsFifty | api/create-checkout-session.js:30 | a missing or zero amount becomes 50 |
| CheckoutSession.AbcAmountIsNaN | api/create-checkout-session.js:30 | the amount "abc" parses to NaN |
| CheckoutSession.ItemName | api/create-checkout-session.js:31 | the name has at most 120 characters; it is "CABANA Item" for a falsy name, otherwise the name's text when that fits and exactly its first 120 characters when it does not |
| CheckoutSession.ItemImages | api/create-checkout-session.js:32-41 | at most one image URL, none exactly when the image is falsy or its text empty; an "http" text kept as is, any other appended to the base URL; no URL is empty |
| CheckoutSession.ItemDescription | api/create-checkout-session.js:31-41 | currency is "aud"; no image gives `[]`; an image starting with "http" is kept as is; any other non-empty image is appended to the base URL |
| CheckoutSession.ImagesNonEmpty | api/create-checkout-session.js:32-41 | every image URL handed on is non-empty |
| CheckoutSession.SanitizeItem | api/create-checkout-session.js:28-46 | mapping one element fails exactly on null or undefined; otherwise currency "aud", name of at most 120 characters, at most one image, quantity and amount in range or NaN; quantity, amount, name and images are `ItemQuantity`, `ItemUnitAmount`, `ItemName` and `ItemImages` of the element's fields |
| CheckoutSession.SanitizeAll | api/create-checkout-session.js:26-46 | `map` succeeds exactly when no element is nullish, and then returns one sanitised item per element, in order |
| CheckoutSession.FirstFifty | api/create-checkout-session.js:27 | `slice(0, 50)` is the prefix of exactly min(50, length) elements, the whole list when it is no longer |
| CheckoutSession.KeepPriced | api/create-checkout-session.js:47 | the filter keeps, in order and with their multiplicities, exactly the items whose amount is a positive number |
| CheckoutSession.SanitizeLineItems | api/create-checkout-session.js:24-48 | a non-array gives `[]`; an array throws exactly when a null or undefined element is among its first 50; the result has at most 50 items and no more than the input, each with an amount in [50, 99999999] |
| CheckoutSession.SanitizedAmountsInRange | api/create-checkout-session.js:28-47 | every mapped item whose amount parsed has it in [50, 99999999] |
| CheckoutSession.SanitizeKeepsOrder | api/create-checkout-session.js:26-47 | the result is a subsequence of the mapped first 50 elements holding exactly those whose amount parsed, each as many times as in the mapped list |
| CheckoutSession.SanitizeOnlyFirstFifty | api/create-checkout-session.js:27 | elements after the fiftieth never affect the result, not even by throwing |
| CheckoutSession.SanitizeThrowsOnNull | api/create-checkout-session.js:27-29 | a null or undefined element among the first 50 makes the sanitiser throw |
| CheckoutSession.NonNumericQuantityKept | api/create-checkout-session.js:29-47 | a NaN quantity stays NaN and the item is still kept when its amount parsed |
| CheckoutSession.MissingFieldsDefaults | api/create-checkout-session.js:29-47 | an element without `quantity` and `unit_amount` is sanitised to quantity 1 and amount 50 and is kept |
| CheckoutSession.NonNumericAmountDropped | api/create-checkout-session.js:30-47 | a NaN amount makes the filter drop the item |
| CheckoutSession.ValueOr | api/create-checkout-session.js:9-10 | a header (or environment setting) is used when present and non-empty, the fallback otherwise |
| CheckoutSession.GetBaseUrl | api/create-checkout-session.js:8-12 | the base URL splits back into the protocol, "://" and the host it was built from |
| CheckoutSession.BaseUrlDefaults | api/create-checkout-session.js:9-11 | without headers the base URL is "https://localhost:3000" |
| CheckoutSession.BaseUrlFallbacks | api/create-checkout-session.js:9-10 | the host falls back from x-forwarded-host to host to localhost:3000, and the protocol from x-forwarded-proto to https |
| CheckoutSession.ParseJson | api/create-checkout-session.js:14-22 | a falsy body gives `{}`, an object or array body is returned as is, and other text is parsed with `{}` on failure |
| CheckoutSession.ParseJsonFallbacks | api/create-checkout-session.js:14-22 | unparsable text and the empty string both give `{}` |
| CheckoutSession.CheckoutEnabled | api/create-checkout-session.js:58-59 | checkout is enabled exactly when CHECKOUT_ENABLED is set to the exact text "true" |
| CheckoutSession.HasSecretKey | api/create-checkout-session.js:64-65 | the secret key counts exactly when it is set and not empty |
| CheckoutSession.RequestLineItems | api/create-checkout-session.js:76-77 | a body that parses to null or undefined throws a TypeError; any other body gives `sanitizeLineItems(body.lineItems \|\| [], getBaseUrl(headers))`, so a body whose `lineItems` is not an array gives no items; at most 50 items |
| CheckoutSession.HandlerDecision | api/create-checkout-session.js:50-82 | non-POST gives 405 with Allow: POST; then disabled gives 503; then a missing key gives 503; a session is requested exactly when every gate passes with a non-empty list, and carries that list; 400 exactly when the list is empty; an exception exactly when every gate passes and sanitising throws |
| CheckoutSession.Handle | api/create-checkout-session.js:50-107 | 405 for a non-POST; 200 exactly when a session is requested and created; 500 exactly when it is requested and the call fails; an exception exactly when sanitising throws |
| CheckoutSession.PaymentCallOnlyAfterGates | api/create-checkout-session.js:50-98 | unless every gate passes, the reply is the same whatever the payment provider would do |
| CheckoutSession.HandlerStatuses | api/create-checkout-session.js:51-82 | for a POST: disabled gives 503 "Checkout is currently disabled"; then no key gives 503 "Stripe is not configured"; then an empty list gives 400 |
| CheckoutSession.NullBodyThrows | api/create-checkout-session.js:76-77 | a JSON body of `null` makes the handler throw a TypeError |
| CheckoutSession.NoLineItemsIs400 | api/create-checkout-session.js:76-82 | an object body without an array `lineItems` gets 400 |
| Flags.ToBoolean | assets/js/flags.js:6-12 | a boolean maps to itself, null and undefined to false, and any other value to whether its lower-cased, trimmed text is "true", "1", "yes" or "on" |
| Flags.ToBooleanNonStrings | assets/js/flags.js:7-9 | true gives true; false, null and undefined give false |
| Flags.ToBooleanOnStrings | assets/js/flags.js:10-11 | a string is true exactly when, lower-cased and trimmed, it is "true", "1", "yes" or "on" |
| Flags.ToBooleanPlain | assets/js/flags.js:10-11 | a lower-case string without surrounding white space is true exactly when it is an accepted word |
| Flags.PaddedUpperCaseTrue | assets/js/flags.js:10-11 | " TRUE " is true |
| Flags.ZeroIsFalse | assets/js/flags.js:10-11 | "0" is false |
| Flags.NoIsFalse | assets/js/flags.js:10-11 | "no" is false |
| Flags.EmptyIsFalse | assets/js/flags.js:10-11 | the empty string is false |
| Flags.WindowValue | assets/js/flags.js:30-31 | the window source is the public global when truthy, otherwise the legacy global |
| Flags.LegacyGlobalFallback | assets/js/flags.js:30-34 | a false or empty public global gives way to the legacy global |
| Flags.ResolveFlag | assets/js/flags.js:33-34 | a URL value decides the flag; otherwise a stored value; otherwise the window value |
| Flags.UrlOverridesStorage | assets/js/flags.js:33-34 | URL "0" overrides stored "true" |
| Flags.AllAbsentIsOff | assets/js/flags.js:33-42 | with every source absent the flag is off |
| Flags.SourcesOf | assets/js/flags.js:19-31 | the URL and stored values are the flag's parameter and storage key where the query or storage is readable and holds them, none otherwise; the two globals are read off an existing window, undefined without one |
| Flags.ComputeFlags | assets/js/flags.js:14-47 | the published flags equal the priority resolution of each flag's sources, so the safe-defaults block changes nothing |
| Flags.FlagDependsOnOwnSources | assets/js/flags.js:19-34 | two pages that agree on a flag's own sources agree on that flag |
| Flags.StoringOneFlagKeepsTheOther | assets/js/flags.js:22-34 | storing one flag's key leaves the other flag's sources unchanged |
| Flags.LocalStorage.SetItem | assets/js/flags.js:53 | where storage works the key is set to the value, and nothing else changes; where it throws nothing changes |
| Flags.Requested | assets/js/flags.js:52-55 | a field is requested exactly when `next` is an object holding it with a value other than undefined, and the request carries that value |
| Flags.StoredFlags | assets/js/flags.js:50-58 | a field that `next` mentions is stored as "true" or "false" by its truthiness; the keys of fields it does not mention, and all other keys, are left unchanged |
| Flags.SetFlags | assets/js/flags.js:50-58 | the new entries are `StoredFlags` of the old ones where storage works, and the old ones where it throws |
| Flags.StoredTextRoundTrip | assets/js/flags.js:52-57 | `toBoolean` of the text stored for a flag gives back the value stored |
| Flags.SetFlagsRoundTrip | assets/js/flags.js:50-57 | after setting a flag, a page with no URL override reads it as the truthiness of the value set |

## Left out

- CartUtils.DollarsToCents: the product `dollars * 100` is taken exactly, not as an IEEE double. A price such as 1.005, whose double is slightly below 1.005, rounds up in the model but down in JavaScript. Prices are exact rationals num / den.
- CartUtils.FreeShipProgress: the quotient `d / 20000 * 100` is taken exactly. In IEEE doubles it falls just below the half at d = 2900, 5700, 11300 and 11500 cents, where JavaScript gives 14, 28, 56 and 57 and the model gives 15, 29, 57 and 58.
- CartUtils.CalcCartTotals: the subtotal and `d * 0.10` are doubles in JavaScript. Sums are exact only below 2^53 cents, and `Math.floor(d * 0.10)` equals `d / 10` as modelled only below 2^52 cents; between 2^52 and 2^53 the double product can round up to the next integer (d = 6755399441055749 gives 675539944105575 against 675539944105574).
- CartUtils.CalcCartTotals: takes typed items (a rational price and an integer quantity). Non-numeric, fractional or missing prices and quantities are not modelled, and neither are null items or a non-array list, which throw in JavaScript. An omitted discount is passed as its default 0; a null discount, which JavaScript treats as 0 in the subtraction, is not distinguished.
- `centsToDollars`, `formatAUD` and `updateFreeShippingUI` are not modelled. They are a float division, locale formatting through `Intl.NumberFormat`, and DOM writes. The `CURRENCY` constant is read only by `formatAUD`, so it is not modelled either.
- The Stripe client construction and `sessions.create` are not modelled; the session call is the `createSession` parameter. An exception from the constructor (line 70) and the `console.error` logging are not modelled.
- `JSON.parse` is not modelled; it is the `jsonParse` parameter.
- JsValues.ParseInt: digits are read exactly; JavaScript loses precision at 2^53 and above. `String(n)` is modelled only for integer numbers below 10^21; other numbers are carried as their text.
- JsValues.ToLower: lower-cases ASCII letters only, not the full Unicode case mapping.
- CheckoutSession.ItemName: counts characters, where `slice(0, 120)` counts UTF-16 code units.
- JsValues.Get: built-in properties of strings and arrays (`length`, prototype members) are not modelled. Any property of a non-object reads as undefined.
- JsValues.ToJsString: objects with their own `toString`, functions and symbols are not modelled. A plain object is "[object Object]".
- The HTTP response (headers, JSON serialisation, `res.end`) is modelled as the `Reply` value.
- Parsing the query string (`URLSearchParams`), detecting `window`, and reading local storage are the `Page` value. `location.reload` after `CABANA_SET_FLAGS` is not modelled.
- Flags.LocalStorage.SetItem: storage either works for every key or throws for every key (`available`). A quota error on one key only is not modelled.
