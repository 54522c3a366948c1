# Tan Lounge serverless handlers — a Dafny model

This project models the deterministic core of four Netlify functions that sit
between a marketing website and third-party APIs:

- **send-quiz-email** takes a lead from the shade-match quiz. It checks the
  method, the mail configuration and the required fields. It HTML-escapes
  every value the lead supplied and sends one mail to the submitter. It sends
  a second mail to the internal address when one is configured.
- **gbp-reviews** pulls reviews of one Business Profile location. It reads
  pages until it has `max` reviews (default 200, capped at 500) or no
  next-page token is left. It normalises each review (star enum to 1..5,
  defaults for missing fields) and reports the count and the mean rating
  to one decimal.
- **places-reviews** asks the Places Details API about one place. It checks
  the upstream status and reshapes at most five reviews into the widget's
  field names.
- **gbp-list** lists every Business Profile account with its locations. It
  parses account and location ids out of `accounts/{A}/locations/{L}`
  resource names by splitting on `/`.

Everything outside the process is an input to the model:

- The OAuth token exchange is a `Js.Call<string>`.
- Each fetch plus its `res.json()` is a `Js.Call<…>` that either returns
  a JSON shape or throws with a message.
- The review pages are the sequence of answers to successive page requests.
- The per-account location listing is a function of the account id.
- `toLocaleDateString` is an opaque function parameter.
- The quiz handler's calls to the mail API are recorded, in order, in an
  out-parameter `sends`.

Files and modules:

- `js.dfy` (`Js`): JSON values and JavaScript truthiness, `||` defaults,
  `join`, `Option`, `Call` (returned or threw) and `Response`.
- `quiz_email.dfy` (`QuizEmail`): the escaper and the entity decoder it is
  checked against, the two mails described by the values they
  interpolate, and the handler as a method.
- `gbp_reviews.dfy` (`GbpReviews`): the pieces are:
  - the star map, trimming and the `max` clamp;
  - normalisation;
  - the pagination loop, as the function `Pull` and as the method
    `CollectReviews` proved against it;
  - the average in integer tenths;
  - the handler.
- `places_reviews.dfy` (`PlacesReviews`): the handler as a pure function
  and the five-review reshape.
- `gbp_list.dfy` (`GbpList`): `split` and `join`, location reshaping, the
  account loop as a method proved against `Entry`/`FirstFailure`, and the
  handler.

The functions that define each operation, and the rows below that state
their properties:

- `QuizEmail.Escape` (send-quiz-email.js:89): the `Escape…` and `UnescapeEscape` rows.
- `QuizEmail.RenderCustomer` and `QuizEmail.RenderInternal` (send-quiz-email.js:38-52, 73-78): `CustomerSafe`, `InternalSafe`, `ConsentShown`.
- `GbpReviews.Pull` (gbp-reviews.js:37-57): the `Pull…` rows and `CollectReviews`.
- `GbpReviews.Trim` and `GbpReviews.Param` (gbp-reviews.js:14-15): `TrimStart`, `TrimEnd`, `TrimEmpty`.
- `GbpList.Split` (gbp-list.js:24): `JoinSplit`, `SplitPieces`, `SplitJoin`, `SplitLocationResource`.
- `GbpList.Entry`, `GbpList.AccountId` and `GbpList.AccountName` (gbp-list.js:24-40): `EntryShape`, `FirstFailure`, `CollectAccounts`.

### Behaviour of the code worth knowing

- **A review page carrying `error` gives 500.**
  - gbp-reviews.js:42 returns `jsonOut(502, json)`, and no `jsonOut` exists
    in the file.
  - Reaching that line raises a ReferenceError, which the catch at lines
    70-71 turns into a 500 with the message "jsonOut is not defined".
  - The reviews gathered so far are dropped.
- **A failed mail API response is not detected.**
  - `fetch` resolves on HTTP 4xx/5xx, and the handler never looks at the
    status.
  - The quiz handler therefore answers 200 `{ok:true}` unless the call
    itself throws.
  - The model's mail calls return or throw; a returned call is success
    whatever status it carries.
- **No pages are fetched for a non-numeric `max`.**
  - `parseInt` gives NaN, `Math.min(NaN, 500)` is NaN, and no count is
    below NaN.
  - The loop never runs, and the answer is 200 with no reviews and rating
    "0.0". The same holds for `max <= 0`.
  - This is not a validation error.

## Model

| member | source | states |
|---|---|---|
| QuizEmail.EscapeSafe | netlify/functions/send-quiz-email.js:89 | escaped text holds no raw `<`, `>`, `"` or `'`, and every `&` in it starts one of `&amp; &lt; &gt; &quot; &#039;` |
| QuizEmail.EscapeCharSafe | netlify/functions/send-quiz-email.js:89 | the replacement of any single character is safe HTML text |
| QuizEmail.EscapeConcat | netlify/functions/send-quiz-email.js:89 | the escaper works character by character: `escape(a + b) == escape(a) + escape(b)` |
| QuizEmail.EscapePlain | netlify/functions/send-quiz-email.js:89 | a string with none of the five special characters comes back unchanged |
| QuizEmail.UnescapeEscape | netlify/functions/send-quiz-email.js:89 | escaping loses nothing: decoding the five entities gives the input back, for every string |
| QuizEmail.EscapeAll | netlify/functions/send-quiz-email.js:47 | `tips.map(escape)` keeps the length and escapes each tip in place |
| QuizEmail.JoinSafe | netlify/functions/send-quiz-email.js:47 | joining safe pieces with a safe separator gives safe text |
| QuizEmail.EscapeTextSafe | netlify/functions/send-quiz-email.js:32 | an escaped field is safe whether it was absent (default `''`), null or a string |
| QuizEmail.ConsentSafe | netlify/functions/send-quiz-email.js:50 | the consent text is safe HTML text |
| QuizEmail.ConsentShown | netlify/functions/send-quiz-email.js:50 | both mails say "Yes" exactly when `marketingConsent` is truthy, otherwise "No" |
| QuizEmail.CustomerSafe | netlify/functions/send-quiz-email.js:38-52 | every value interpolated into the customer mail is safe HTML text, care tips included |
| QuizEmail.InternalSafe | netlify/functions/send-quiz-email.js:73-78 | every value interpolated into the internal notification is safe HTML text, the JSON dump included |
| QuizEmail.HandleQuizEmail | netlify/functions/send-quiz-email.js:6-86 | the full ladder. OPTIONS gives 200 empty; other non-POST gives 405; missing key or sender gives 500; a parse throw gives 500; an empty name or email gives 400; a null `result` gives 500 with the TypeError of reading `family`; none of these sends anything. Otherwise the first send goes to the submitter, and a second goes to `INTERNAL_EMAIL` iff it is set and the first did not throw. Every send's slots are safe. The answer is 200 `{ok:true}` iff every send returned; a throwing send gives 500 with its message or "Send failed" |
| GbpReviews.StarValue | netlify/functions/netlify/functions/gbp-reviews.js:4 | ONE..FIVE map to 1..5 (the position in the enum list); every other or missing value maps to 0; results lie in 0..5 |
| GbpReviews.EffectiveMax | netlify/functions/netlify/functions/gbp-reviews.js:16 | the cap is `min(parsed, 500)`, 200 when the parameter is absent or empty, NaN (None) exactly when parsing fails |
| GbpReviews.TrimStart | netlify/functions/netlify/functions/gbp-reviews.js:14-15 | the result is a suffix of the input; only JavaScript white space was removed, and it does not start with white space |
| GbpReviews.TrimEnd | netlify/functions/netlify/functions/gbp-reviews.js:14-15 | the result is a prefix of the input; only JavaScript white space was removed, and it does not end with white space |
| GbpReviews.TrimEmpty | netlify/functions/netlify/functions/gbp-reviews.js:14-20 | a parameter counts as missing after `trim()` exactly when it is white space only |
| GbpReviews.Normalise | netlify/functions/netlify/functions/gbp-reviews.js:44-53 | the author is the display name or "Google User", never empty; photo and text are copied when truthy, otherwise ""; the rating is the star map's value; the date is the locale formatting of `createTime`; `author_url` is "" |
| GbpReviews.PullShape | netlify/functions/netlify/functions/gbp-reviews.js:38-57 | a successful loop appends whole pages in page order then in-page order, each read without error |
| GbpReviews.PullStops | netlify/functions/netlify/functions/gbp-reviews.js:38-57 | the loop stops at the cap or after a page with no next-page token, and not earlier: every earlier page had a token and the count was below `max` before every fetch |
| GbpReviews.PullFromStart | netlify/functions/netlify/functions/gbp-reviews.js:37-57 | from an empty start the reviews are the concatenation of the pages read; a NaN or non-positive `max` reads no page; the count is below `max` plus the size of the last page read |
| GbpReviews.PullErrorPage | netlify/functions/netlify/functions/gbp-reviews.js:42 | a page carrying `error` that the loop reaches ends the pull with the "jsonOut is not defined" failure, discarding everything gathered; it is the last page requested |
| GbpReviews.PullStep | netlify/functions/netlify/functions/gbp-reviews.js:44-56 | one page: with a token the loop moves on with the page appended; without one it stops after appending it |
| GbpReviews.PushNormalised | netlify/functions/netlify/functions/gbp-reviews.js:44-53 | the inner `forEach` keeps the reviews already gathered and appends each review of the page, normalised, in order |
| GbpReviews.CollectReviews | netlify/functions/netlify/functions/gbp-reviews.js:37-57 | the `while` loop fails with the loop's failure message and number of page requests, or returns the pages read and exactly the normalised reviews `Pull` gathers, in order |
| GbpReviews.SumRatings | netlify/functions/netlify/functions/gbp-reviews.js:61 | the sum of the ratings lies between 0 and five times the count |
| GbpReviews.RatingTenthsBounds | netlify/functions/netlify/functions/gbp-reviews.js:60-62 | the mean in tenths lies in 0..50, is 0 for no reviews, and is within half a tenth of the exact mean |
| GbpReviews.RatingText | netlify/functions/netlify/functions/gbp-reviews.js:60-62 | the rating is written `d.d`, is "0.0" for no reviews, and its digits spell the rounded mean in tenths |
| GbpReviews.HandleReviews | netlify/functions/netlify/functions/gbp-reviews.js:7-72 | missing OAuth vars give 500 and a missing or blank id gives 400, both before any outbound call. A throwing token exchange, title lookup, page fetch or error page gives 500. Otherwise 200 with the title or "Google Reviews", `user_ratings_total` equal to the number of reviews, the normalised reviews in page order and the rating text of their mean. The calls made are the token exchange, the title lookup, then one request per page the loop asked for; a NaN or non-positive `max` requests no page |
| GbpReviews.Retrieve | netlify/functions/netlify/functions/gbp-reviews.js:25-69 | after the parameter checks: token exchange, then title lookup, then the pages, each throw ending the request with a 500 and no later call |
| GbpReviews.Summarise | netlify/functions/netlify/functions/gbp-reviews.js:37-69 | the page requests are exactly those `Pull` makes; the loop's failure gives 500 with its message; success gives the summary of the normalised reviews; a NaN or non-positive cap requests no page |
| GbpReviews.NoPagesWithoutMax | netlify/functions/netlify/functions/gbp-reviews.js:16 | a NaN or non-positive `max` fetches no page and so gives no reviews and rating "0.0" |
| PlacesReviews.ReshapeAll | netlify/functions/netlify/functions/places-reviews.js:42-48 | the map keeps length and order and copies author_name, profile_photo_url, rating, text and relative_time_description into author, avatar, rating, text, when |
| PlacesReviews.PlaceBody | netlify/functions/netlify/functions/places-reviews.js:37-49 | name, rating, total and url are copied unchanged; the review list has length `min(5, upstream length)`, each entry renamed from the upstream entry at the same index |
| PlacesReviews.ShownIsPrefix | netlify/functions/netlify/functions/places-reviews.js:42 | the shown reviews are the reshaped in-order prefix of the upstream reviews |
| PlacesReviews.HandlePlaces | netlify/functions/netlify/functions/places-reviews.js:6-53 | OPTIONS gives 200 empty and other non-GET gives 405. A missing key gives 500 and a missing placeId gives 400, both with no request. Otherwise exactly one request, sorted by `sort` or `most_relevant`. A throw gives 500 with its message or "Unknown error". A non-OK status or missing result gives 502 with the status or "NO_RESULT". 200 iff OK with a result, carrying at most five reshaped reviews |
| GbpList.JoinSplit | netlify/functions/gbp-list.js:24 | `split("/")` loses nothing: joining the pieces with the separator gives the input back |
| GbpList.SplitPieces | netlify/functions/gbp-list.js:24 | no piece of a split holds the separator |
| GbpList.SplitJoin | netlify/functions/gbp-list.js:35-37 | pieces without the separator survive a join then a split unchanged |
| GbpList.SplitLocationResource | netlify/functions/gbp-list.js:35-37 | `accounts/A/locations/L` splits into exactly `accounts`, A, `locations`, L when A and L hold no `/` |
| GbpList.ReshapeLocation | netlify/functions/gbp-list.js:33-39 | a location throws exactly when its name is missing. Otherwise the title and name are copied; `accountId` and `locationId` are the second and fourth `/`-segments; `storeCode` is the code when truthy, else null |
| GbpList.ReshapeWellFormed | netlify/functions/gbp-list.js:35-37 | for the name `accounts/A/locations/L` the parsed account id is A, the location id is L and `locationName` is the unchanged string |
| GbpList.ReshapeLocations | netlify/functions/gbp-list.js:33-39 | the `map` returns one location per upstream location, in order, iff every location has a name; otherwise it throws the `split` error |
| GbpList.EntryShape | netlify/functions/gbp-list.js:24-40 | an account entry carries the second segment of the account name as id and `accountName` or else `name` as name. Its locations match the upstream `locations` (or none when absent) in length and order |
| GbpList.FirstFailure | netlify/functions/gbp-list.js:23-41 | the index of the first account whose location listing or reshaping throws: all earlier entries return and that one throws |
| GbpList.CollectAccounts | netlify/functions/gbp-list.js:22-41 | the `for...of` loop asks for locations once per account in order, stopping at the first throw. With no throw it returns one entry per account in upstream order; otherwise it throws that account's message |
| GbpList.ListAccounts | netlify/functions/gbp-list.js:3-47 | missing OAuth vars, a throwing token exchange or a throwing accounts call give 500 and request no locations. An accounts `error` gives 502 with that body. Otherwise the account loop's outcome: 200 with one entry per account in order, or 500 with the first failure's message |

## Left out

- The OAuth token exchange and the `googleapis` client: foreign library calls, modelled only as a call that returns a token or throws.
- All network I/O (`fetch`, the mail API, the Business Profile and Places endpoints): upstream answers are inputs, and the URLs, query strings and request headers built for them are not modelled.
- The page token sent with each review-page request: the pages are the answers in request order, so the model does not check that the token chooses the next page.
- GbpReviews.Pull: an upstream that keeps returning next-page tokens with empty pages would make the source loop forever; the model has a finite sequence of answers, and asking past its end is the "fetch failed" rejection.
- `JSON.parse`, `JSON.stringify`, `new URL`/`searchParams`, `encodeURIComponent` and `parseInt`: library behaviour. Their results are inputs: the parsed lead (or the throw, including destructuring a `null` body), the query parameters, and the parsed `max` as absent, a number or NaN.
- PlacesReviews.HandlePlaces: a `new URL(...)` that throws on a malformed request URL (a 500) is not modelled.
- `new Date(createTime).toLocaleDateString()`: locale-dependent, a function parameter.
- GbpReviews.RatingText: the mean is rounded half up in exact arithmetic. `toFixed(1)` on a binary float can round a mean that lies exactly on a half-tenth (such as 4.05) downwards.
- The HTML template text, CSS and the CORS, Content-Type and Cache-Control header maps: constant strings. A mail is modelled by the values its template interpolates.
- GbpReviews.StarValue: a `starRating` naming a member of `Object.prototype` ("constructor", "toString", "valueOf", "__proto__") is looked up through the prototype by `STAR_MAP[...]` and yields a truthy non-number, so the source's rating text becomes "NaN"; the model maps every string other than ONE..FIVE to 0.
- QuizEmail.HandleQuizEmail: non-string values in the lead's text fields (a number as `name`, say) are not modelled; each field is absent, null or a string.
- QuizEmail.HandleQuizEmail: the `answers` object appears only inside the pretty-printed JSON dump, which is an input string.
- GbpList.ReshapeLocation: a `null` location name throws with the message for an absent one, and a non-string `storeCode` is not modelled.
- GbpList.ListAccounts: `null` and absent account names are one case, although `JSON.stringify` prints the first and omits the second.
- The Gmail-based mail sender: it is not part of this model.
- Concurrency: `async`/`await` only sequences the calls.
