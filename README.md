# Car-classifieds matcher: a Dafny model

The application lets sellers publish car listings and buyers record the car
they want: brand, model, a year range and a price range. When a listing is
published, the notification endpoint `POST /api/notify` looks up the buyer
requests for the same brand and model. It keeps those whose ranges contain the
listing's year and price and emails each of those buyers. It answers with the
number of matches and the number of emails that succeeded and failed. The two
forms that feed it format the price fields with thousands separators while
the user types. They strip the separators again before saving.

The model has seven modules, one file each:

- `Seqs` (`seqs.dfy`): order-preserving filtering, the model of
  `Array.prototype.filter`. Also the subsequence relation and the filter
  facts the other modules use.
- `JsText` (`jstext.dfy`): the JavaScript built-ins the code relies on.
  These are `replace(/\D/g, "")`, `replace(/,/g, "")` and `parseInt` with no
  radix. `parseInt` follows ECMAScript. It skips leading white space, takes
  one sign and reads hexadecimal after a `0x`/`0X` prefix. It stops at the
  first non-digit. `None` stands for `NaN`.
- `NumberFormat` (`numberformat.dfy`): `formatNumber`. The buyer page and
  the seller page hold the same text of it, so it is defined once here.
- `Records` (`records.dfy`): the stored buyer request and seller listing. All
  their fields are text, as the forms save them.
- `Notify` (`notify.dfy`): the endpoint, as pure functions. The document
  store is a sequence of buyer requests, or `None` when the query fails. The
  request body is a listing, or `None` when it cannot be read. The mail
  transport is an oracle that maps a recipient address to success or failure.
  `Promise.all` over the deliveries is a sequential, order-preserving map.
  The deliveries share no state.
- `BuyerPage` and `SellerPage` (`buyerpage.dfy`, `sellerpage.dfy`): each form
  is a class. Its fields are the React state (`formData`, `loading`, `error`,
  `success`, and the image preview on the seller page). Its methods are
  `handleChange` and `handleSubmit`. The store write and the call to the
  notifier are outcome parameters. `Valid()` says that a price field always
  holds formatted text between events.

Four behaviours of the code that a reader might not expect are modelled
as the code has them:
- Stored years and prices are strings that `parseInt` reads at match time,
  not integers.
- `parseInt` is called without a radix, so a bound written `0x7E2` reads as
  2018.
- The per-recipient outcomes are a list in match order, not a map keyed by
  contact.
- Neither form clears `success` when a submission starts. A failure after an
  earlier success therefore leaves `success` true and also sets `error`. The
  model keeps this behaviour.

## Model

| member | source | states |
|---|---|---|
| `Seqs.Filter` | src/app/api/notify/route.ts:32-43 | the result is no longer than the input; it holds exactly the input's elements that pass the test |
| `Seqs.FilterIsSubsequence` | src/app/api/notify/route.ts:32 | a filter's result is an order-preserving subsequence of its input |
| `Seqs.FilterPartition` | src/app/api/notify/route.ts:77-78 | the elements that pass a test and those that fail it together number the whole sequence |
| `JsText.Digits` | src/app/comprador/page.tsx:23 | the result holds only decimal digits and is no longer than the input |
| `JsText.StripCommas` | src/app/comprador/page.tsx:37-40 | the result holds no comma and is no longer than the input |
| `JsText.StripCommasNoComma` | src/app/vendedor/page.tsx:50-51 | text without a comma is left unchanged by the comma removal |
| `JsText.ParseInt` | src/app/api/notify/route.ts:34-41 | the result is NaN exactly when no digit of the radix follows the white space, sign and hex prefix; without a minus sign it is non-negative |
| `JsText.ParseIntDigits` | src/app/api/notify/route.ts:34-41 | a non-empty decimal digit string parses to its decimal value |
| `JsText.ParseIntDigitsThenText` | src/app/api/notify/route.ts:34-41 | digits followed by a non-digit parse to the digits' value, except for a lone `0` before `x`/`X` |
| `JsText.ParseIntHexPrefix` | src/app/api/notify/route.ts:38 | `parseInt("0x7E2")` is 2018, because the missing radix lets a hex prefix through |
| `JsText.ParseIntSignAndText` | src/app/api/notify/route.ts:34 | `parseInt(" -42abc")` is -42: leading space and sign are taken, trailing text ignored |
| `JsText.ParseIntNoDigitStart` | src/app/api/notify/route.ts:34-42 | text whose first character is neither white space, a sign nor a decimal digit is NaN |
| `NumberFormat.InsertCommas` | src/app/comprador/page.tsx:25 | the regular expression's replacement on a digit run puts a comma before every digit after the first from which a multiple of three digits runs to the end; the result is the digits grouped by threes from the right |
| `NumberFormat.InsertCommasGroups` | src/app/comprador/page.tsx:25 | the regular expression's comma insertion equals grouping the digits by threes from the right |
| `NumberFormat.FormatNumber` | src/app/comprador/page.tsx:21-26 | keeps the digits, then inserts the commas: the result is the digits grouped by threes from the right, and removing its commas gives back exactly the digits of the input, in order |
| `NumberFormat.FormatNumberShape` | src/app/comprador/page.tsx:21-26 | the output has only digits and commas and no comma first or last; commas sit exactly where the distance to the end is a multiple of 4 |
| `NumberFormat.GroupedFirstGroup` | src/app/comprador/page.tsx:25 | in grouped text the first group is 1 to 3 digits, followed by a comma unless it is the whole text |
| `NumberFormat.GroupedNextGroup` | src/app/comprador/page.tsx:25 | in grouped text every comma is followed by exactly three digits and then a comma or the end |
| `NumberFormat.FormatNumberIdempotent` | src/app/comprador/page.tsx:21-26 | formatting formatted text changes nothing |
| `NumberFormat.FormattedValueParses` | src/app/vendedor/page.tsx:23-26 | a formatted value, once its commas are removed, parses to the number its digits spell, or to NaN when there are none |
| `Notify.InRange` | src/app/api/notify/route.ts:32-43 | a request is kept iff all six `parseInt` results are numbers and minYear ≤ year ≤ maxYear and minPrice ≤ price ≤ maxPrice |
| `Notify.QueryBrandModel` | src/app/api/notify/route.ts:22-29 | the query returns store requests only, each with the listing's brand and model, and every such request |
| `Notify.FindMatches` | src/app/api/notify/route.ts:22-43 | every match is a store request with equal brand and model that is in range; every such store request is a match |
| `Notify.FindMatchesOnePass` | src/app/api/notify/route.ts:19-43 | the equality query followed by the in-memory range filter selects what one filter by the whole condition selects, in the same order |
| `Seqs.FilterFilter` | src/app/api/notify/route.ts:22-43 | filtering by one test and then by another selects what one filter by both tests selects, in the same order |
| `Notify.MatchesAreSubsequence` | src/app/api/notify/route.ts:32 | the matches are an order-preserving subsequence of the store |
| `Notify.NaNNeverMatches` | src/app/api/notify/route.ts:34-42 | if any of the six `parseInt` results is NaN the request is in no store's matches, with no error |
| `Notify.InvertedRangeNeverMatches` | src/app/api/notify/route.ts:37-42 | a request with minYear > maxYear or minPrice > maxPrice matches no listing |
| `Notify.BoundsInclusive` | src/app/api/notify/route.ts:37-42 | a year equal to either bound is in range; one past either bound is out |
| `Notify.DifferentBrandOrModelNeverMatches` | src/app/api/notify/route.ts:23-27 | a request whose brand or model differs from the listing's is never matched |
| `Notify.BrandModelCaseSensitive` | src/app/api/notify/route.ts:23-27 | a "Toyota"/"Corolla" listing does not match a "toyota"/"corolla" request |
| `Notify.Dispatch` | src/app/api/notify/route.ts:46-76 | exactly one result per match, in match order, addressed to that request's contact, successful iff the transport accepts that address |
| `Notify.DeliveryIsolated` | src/app/api/notify/route.ts:67-73 | a recipient's result depends only on the transport's answer for that recipient |
| `Notify.SuccessCount` | src/app/api/notify/route.ts:76-77 | the successful results number the matches whose address the transport accepts |
| `Notify.Summarize` | src/app/api/notify/route.ts:76-85 | the answer is a summary with `success` true and the given match count; successes plus failures equal the number of results |
| `Notify.Post` | src/app/api/notify/route.ts:15-92 | an unreadable body or a failed query gives the status-500 answer and sends nothing; otherwise each match gets one email, `successfulEmails + failedEmails == matches` and both are at most `matches` |
| `Notify.PostCountsAccepted` | src/app/api/notify/route.ts:76-85 | `successfulEmails` is the number of matched requests whose address the transport accepts |
| `Notify.SingleMatchDelivered` | src/app/api/notify/route.ts:32-85 | one matching request and an accepting transport give matches=1, successfulEmails=1, failedEmails=0 |
| `Notify.YearPastRangeNoMatch` | src/app/api/notify/route.ts:37-39 | a listing one year past the request's maximum gives matches=0 and sends nothing |
| `Notify.OneFailureDoesNotBlockOthers` | src/app/api/notify/route.ts:46-85 | with two matches and the first address failing, the second email is still sent and the counts are 1 success, 1 failure |
| `BuyerPage.Put` | src/app/comprador/page.tsx:67-69 | the named field takes the value; every other field is unchanged |
| `BuyerPage.Entered` | src/app/comprador/page.tsx:66-70 | a price field stores thousands-grouped text whose comma-free form is the typed digits; any other field stores the value verbatim |
| `BuyerPage.ToSave` | src/app/comprador/page.tsx:35-42 | brand, model and contact are unchanged; the four numeric fields have no comma and are unchanged when they had none |
| `BuyerPage.PriceSavedAsDigits` | src/app/comprador/page.tsx:35-42 | a price typed through `handleChange` is saved as exactly its digits and `parseInt` reads it as their value |
| `NumberFormat.FormattedFieldSavesDigits` | src/app/comprador/page.tsx:37-40 | a formatted price field is thousands-grouped and is saved as a plain digit string |
| `BuyerPage.BuyerForm.constructor` | src/app/comprador/page.tsx:8-19 | empty fields, `loading` and `success` false, no error |
| `BuyerPage.BuyerForm.HandleChange` | src/app/comprador/page.tsx:63-71 | only the named field changes; the price fields are formatted, other fields stored verbatim; flags untouched |
| `BuyerPage.BuyerForm.StartSubmit` | src/app/comprador/page.tsx:28-42 | `loading` becomes true and `error` empty; the payload is the comma-stripped form, with both prices plain digit strings |
| `BuyerPage.BuyerForm.FinishSubmit` | src/app/comprador/page.tsx:44-60 | after the save, on the form as it is then: success empties all seven fields and sets `success`; failure sets `error` and keeps fields and `success`; `loading` ends false |
| `BuyerPage.BuyerForm.HandleSubmit` | src/app/comprador/page.tsx:28-61 | on a successful save all seven fields are empty and `success` is true; on failure `error` is set and fields and `success` are kept; `loading` ends false; the saved prices are plain digit strings |
| `BuyerPage.BuyerForm.SubmitWithEdit` | src/app/comprador/page.tsx:28-71 | a keystroke while the save is pending is not saved; a successful save discards it, a failed one keeps it |
| `SellerPage.Put` | src/app/vendedor/page.tsx:95-97 | the named field takes the value; every other field, the image name included, is unchanged |
| `SellerPage.Entered` | src/app/vendedor/page.tsx:94-98 | the price stores thousands-grouped text whose comma-free form is the typed digits; year and the other fields store the value verbatim |
| `SellerPage.ToSave` | src/app/vendedor/page.tsx:48-53 | brand, model, contact and image name are unchanged; year and price have no comma and are unchanged when they had none |
| `SellerPage.PricePostedAsDigits` | src/app/vendedor/page.tsx:48-64 | a price typed through `handleChange` is saved and posted as exactly its digits, which the notifier's `parseInt` reads as their value |
| `SellerPage.SellerForm.constructor` | src/app/vendedor/page.tsx:9-20 | empty fields, no preview, `loading` and `success` false, no error |
| `SellerPage.SellerForm.HandleChange` | src/app/vendedor/page.tsx:91-99 | only the named field changes; only the price is formatted; flags and preview untouched |
| `SellerPage.SellerForm.ImageLoaded` | src/app/vendedor/page.tsx:33-37 | the preview takes the data URL and the image name the file's name; nothing else changes |
| `SellerPage.SellerForm.StartSubmit` | src/app/vendedor/page.tsx:42-53 | `loading` becomes true and `error` empty; the payload is the form with year and price comma-stripped, the price a plain digit string |
| `SellerPage.SellerForm.FinishSubmit` | src/app/vendedor/page.tsx:55-88 | the notifier gets the record built before the save, and only after a successful save; on the form as it is then, both succeeding clears fields and preview and sets `success`, anything else sets `error` and keeps the state; `loading` ends false |
| `SellerPage.SellerForm.HandleSubmit` | src/app/vendedor/page.tsx:42-89 | the notifier is called only after a successful save, with exactly the saved record; a failed save or a non-ok answer sets `error` and keeps fields, preview and `success`; when both succeed all six fields and the preview are cleared and `success` is true; `loading` ends false |

## Left out

- The document store (`getDocs`, `addDoc`, `collection`, `query`, `where`) is not modelled as a service. The buyer requests are a sequence. The brand/model query is an equality filter in store order. A failed query is `None`. A save's outcome is a boolean parameter.
- The mail transport (`nodemailer`, `sendMail`) and its configuration are an oracle from recipient address to success. The error object carried by a failed result is not kept.
- The HTML body and the subject of the email are plain interpolation with no stated guarantee, so they are not modelled.
- `Promise.all` concurrency: the deliveries are a sequential, order-preserving map, because they share no state.
- `console.error` logging is left out.
- `parseInt` on very large values (precision lost beyond 2^53), on non-string JSON values and on `-0` is not modelled. Numbers are unbounded integers, and every field is a string.
- The request body is either a listing with string fields or unreadable (`None`). A body that parses but lacks fields, where the query would be given `undefined`, is not modelled.
- Choosing the image file and reading it (`e.target.files`, `FileReader.readAsDataURL`) is browser I/O. Only the state update of its `onloadend` callback is modelled (`ImageLoaded`), with the file name and data URL as parameters. `fileInputRef` and `createdAt: new Date()` are DOM and clock and are not modelled.
- The JSX markup is not modelled beyond the handlers it wires up. `src/app/page.tsx` and `src/app/layout.tsx` hold no logic.
- Browser form validation (`required`, `pattern="[0-9,]*"`) and `disabled={loading}` are not modelled: `StartSubmit` and `HandleSubmit` may run on any field contents and while `loading`, and their contracts hold for all of them.
- The awaits of `handleSubmit` are modelled only as the gap between `StartSubmit` and `FinishSubmit`. Input events may run in that gap (`SubmitWithEdit` shows one), but the model does not capture a second submission or any other interleaving inside those methods. In the page the submit button is disabled while `loading`, so a second submission cannot start there. The model does not enforce this, as the line above says.
- React's state batching is not modelled. Each setter is applied in program order, which is what the functional updaters in `handleChange` guarantee.
