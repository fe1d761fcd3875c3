# Promotions front end: a Dafny model

This project models the logic of the React front end of a QR-code promotion:

- the public landing page, where a visitor enters a 14-character code, learns the
  outcome and, as a winner, claims the prize with a name, phone and email;
- the admin dashboard's winners panel, with its search filter, its "mark delivered"
  action and its timestamp formatting;
- the two admin forms that create a batch of QR codes and change a code's prize, and
  their handling of an expired session.

Each React component becomes a Dafny `class` whose fields are the component's state
variables. Each event handler becomes a method that updates those fields. The
landing page's and the two forms' `async` handlers are split at their `await` into two
methods. The `Begin…` method is the part that runs before the request. The `Complete…`
method takes the reply as a parameter and is the part that runs after it. The
dashboard's `handleDeliveredToggle` is one method, `DeliveredToggle`, that takes the
admin's answer to the confirmation and the request's reply as parameters. Rendering rules (an enabled button, a label) are pure
functions of the state. The string work the pages do with JavaScript built-ins and
regular expressions is written out character by character. This covers `trim`,
`toLowerCase`, `includes`, `replace` with `/\D/g`, `/[^a-zA-Z ]/g` and the phone
pattern, `slice`, `padStart` and `parseInt`.

Modules:

- `Wrappers`: `Option`.
- `JsStrings`: the JavaScript string and number built-ins the pages use, and their laws.
- `AdminDashboard`: `src/pages/AdminDashboard.js`, covering the winners panel, the filter,
  delivery and `formatDate`.
- `LandingPage`: `src/pages/LandingPage.js`.
- `AdminSession`: what the two admin forms share. This is the reply shape, the
  `Authorization` header and `handleAuthError`'s decision.
- `CreateQRCode`: `src/pages/CreateQRCode.js`.
- `UpdateQRCode`: `src/pages/UpdateQRCode.js`.

## Model

| member | source | states |
|---|---|---|
| JsStrings.Trim | src/pages/AdminDashboard.js:91 | `trim` never lengthens, leaves no whitespace at either end, and leaves an already trimmed string unchanged |
| JsStrings.TrimDropsOnlyEdges | src/pages/AdminDashboard.js:91 | `trim` removes only whitespace, and only at the two ends: the result is a slice of the input with nothing but whitespace before and after it |
| JsStrings.TrimEmptyIff | src/pages/UpdateQRCode.js:15 | `s.trim()` is empty (falsy) exactly when `s` has no non-whitespace character |
| JsStrings.LowerKeepsWhitespace | src/pages/AdminDashboard.js:151 | lower-casing maps whitespace to whitespace and everything else to non-whitespace |
| JsStrings.Includes | src/pages/AdminDashboard.js:177 | `s.includes(p)` holds iff `p` occurs in `s` at some index |
| JsStrings.IncludesTransitive | src/pages/AdminDashboard.js:177 | a substring of a substring is a substring |
| JsStrings.JoinIncludesPart | src/pages/AdminDashboard.js:166-175 | every part of a `join` occurs in the joined string |
| JsStrings.Filter | src/pages/LandingPage.js:114 | `replace(/[^…]/g, "")` keeps exactly the characters of the class and never lengthens |
| JsStrings.FilterConcat | src/pages/LandingPage.js:114 | removing characters distributes over concatenation |
| JsStrings.FilterKeepsAll | src/pages/LandingPage.js:114 | removing characters leaves a string whose every character is kept as it is |
| JsStrings.Take | src/pages/LandingPage.js:117 | `slice(0, n)` is the prefix of length `n`, or the whole string when it is shorter than `n` |
| JsStrings.NatToString | src/pages/AdminDashboard.js:101 | `String(n)` is a non-empty digit string with no leading zero (unless it is `"0"`) whose decimal value is `n` |
| JsStrings.DecimalValueZero | src/pages/CreateQRCode.js:18 | a digit string has value 0 iff all its digits are `0` |
| JsStrings.DigitPrefix | src/pages/CreateQRCode.js:15 | the digit run `parseInt` reads is all digits and ends at a non-digit or at the end |
| JsStrings.ParseInt10 | src/pages/CreateQRCode.js:15 | `parseInt(s, 10)` of a digit string is its decimal value, and `NaN` for the empty string |
| JsStrings.ParseIntRoundTrip | src/pages/CreateQRCode.js:15 | `parseInt(String(n), 10) == n` for every integer, negative ones included |
| JsStrings.PadStart2 | src/pages/AdminDashboard.js:101-105 | `padStart(2, "0")` keeps a string of two or more characters and otherwise left-fills it with `0` to two characters, keeping it as the tail |
| AdminDashboard.Matches | src/pages/AdminDashboard.js:150-178 | a blank term matches every winner; "delivered" and "not delivered" match on the delivery date in both directions; any other term matches iff it occurs in the winner's searchable text |
| AdminDashboard.FilterWinners | src/pages/AdminDashboard.js:150-178 | the result holds exactly the winners that match the term, each as often as in the list, and is never longer |
| AdminDashboard.FilterWinnersIsSubsequence | src/pages/AdminDashboard.js:150 | filtering keeps the winners in the list's order |
| AdminDashboard.FilterKeepsMatchingList | src/pages/AdminDashboard.js:150 | a list whose every winner matches is returned unchanged |
| AdminDashboard.BlankTermKeepsAll | src/pages/AdminDashboard.js:151-152 | an empty or all-whitespace search shows the whole list, in order |
| AdminDashboard.DeliveryKeywords | src/pages/AdminDashboard.js:154-163 | the exact terms "delivered" and "not delivered" select on the delivery date alone, in both directions |
| AdminDashboard.FieldHitMatches | src/pages/AdminDashboard.js:165-177 | any other term that occurs in a lower-cased field, or in the delivery label, keeps the winner |
| AdminDashboard.MarkDelivered | src/pages/AdminDashboard.js:137-144 | every entry with the winner's id gets the new delivery date, and every other entry is unchanged |
| AdminDashboard.MarkDeliveredIdempotent | src/pages/AdminDashboard.js:137-144 | applying the same update twice is the same as once |
| AdminDashboard.MarkDeliveredNeverClears | src/pages/AdminDashboard.js:134-144 | with a truthy date, nothing delivered becomes undelivered and the target becomes delivered |
| AdminDashboard.NotDeliveredSearchDropsMarked | src/pages/AdminDashboard.js:137-163 | after the update, the "not delivered" search no longer shows that winner id |
| AdminDashboard.MarkBeforeTail | src/pages/AdminDashboard.js:88 | `/[zZ+\-][tail]*$/` matches iff some zone mark is followed to the end only by `tail` characters |
| AdminDashboard.HasTimeZone | src/pages/AdminDashboard.js:88 | the written test holds iff some `z`, `Z`, `+` or `-` is followed to the end only by digits |
| AdminDashboard.HasZoneDesignator | src/pages/AdminDashboard.js:86-88 | the intended test holds iff some zone mark is followed to the end only by digits and colons |
| AdminDashboard.TimestampAsWritten | src/pages/AdminDashboard.js:86-94 | the string given to `new Date` is the trimmed input, with `Z` added iff it contains `T` and the untrimmed input does not end in `[zZ+-]` followed by digits |
| AdminDashboard.ColonOffsetIsZoned | src/pages/AdminDashboard.js:86 | `+05:30` at the end of the sample is a zone offset |
| AdminDashboard.ColonOffsetMissedAsWritten | src/pages/AdminDashboard.js:88 | the written test does not recognise that offset |
| AdminDashboard.AsWrittenAppendsToColonOffset | src/pages/AdminDashboard.js:88-94 | a timestamp with a colon offset gets a second zone `Z` appended |
| AdminDashboard.AsWrittenDoublesZ | src/pages/AdminDashboard.js:88-94 | a timestamp ending in `Z` plus a blank becomes `…ZZ` |
| AdminDashboard.TimestampForParse | src/pages/AdminDashboard.js:86-94 | corrected: the output is the trimmed input, or that plus `Z`; `Z` is added iff the trimmed input contains `T` and has no zone designator; any input with `T` comes out with a zone |
| AdminDashboard.TimestampForParseIdempotent | src/pages/AdminDashboard.js:90-94 | normalising twice adds `Z` at most once |
| AdminDashboard.TwoDigitsRoundTrip | src/pages/AdminDashboard.js:101-105 | `String(n).padStart(2, "0")` for 0..99 is two digits whose value is `n` |
| AdminDashboard.LayoutShape | src/pages/AdminDashboard.js:99-107 | for a valid local time, the text is the year, then month+1, day, hours, minutes and seconds as two-digit fields behind `-`, `-`, ` `, `:`, `:` |
| AdminDashboard.FormatDate | src/pages/AdminDashboard.js:83-107 | the output is empty iff the input is falsy; otherwise it is the layout of the local time of the normalised timestamp |
| AdminDashboard.DashboardState.constructor | src/pages/AdminDashboard.js:18-24 | the panel starts hidden with no winners, no error, no fetch and an empty search |
| AdminDashboard.DashboardState.FilteredWinners | src/pages/AdminDashboard.js:150-178 | the panel lists exactly the stored winners that match the search term, and all of them for a blank term |
| AdminDashboard.DashboardState.SetSearchTerm | src/pages/AdminDashboard.js:222 | only the search term changes |
| AdminDashboard.DashboardState.FetchWinners | src/pages/AdminDashboard.js:56-58 | loading starts and the error is cleared; nothing else changes |
| AdminDashboard.DashboardState.WinnersClick | src/pages/AdminDashboard.js:47-53 | a shown panel is hidden; a hidden one starts a fetch (and stays hidden until the reply) |
| AdminDashboard.DashboardState.CompleteFetchWinners | src/pages/AdminDashboard.js:67-76 | success shows the panel and replaces the list only if `winners` is present; failure sets the fixed error; loading ends either way |
| AdminDashboard.DashboardState.DeliveredToggle | src/pages/AdminDashboard.js:111-147 | a request is made iff the winner is undelivered and the admin confirms; a saved reply marks exactly that id; a failure alerts and keeps the list |
| LandingPage.ValidEmailMatchesPattern | src/pages/LandingPage.js:18 | every address the character rules accept matches `/^[^\s@]+@[^\s@]+\.[^\s@]+$/` |
| LandingPage.PatternIsValidEmail | src/pages/LandingPage.js:18 | every address that matches the pattern is accepted by the character rules |
| LandingPage.EmailCharsMatchPattern | src/pages/LandingPage.js:17-19 | the character rules accept exactly the strings matching the regular expression |
| LandingPage.ValidateEmail | src/pages/LandingPage.js:17-19 | `validateEmail` accepts exactly the strings matching `/^[^\s@]+@[^\s@]+\.[^\s@]+$/` |
| LandingPage.PhonePositionsAreGroups | src/pages/LandingPage.js:22 | digits everywhere but positions 3 and 7, which hold `-`, is the same as three, three and four digits joined by `-` |
| LandingPage.ValidatePhone | src/pages/LandingPage.js:21-23 | `validatePhone` accepts exactly twelve characters of the form three digits, `-`, three digits, `-`, four digits |
| LandingPage.TenDigitsFrom | src/pages/LandingPage.js:116 | it finds the leftmost run of ten digits; none lies before it, and `None` means there is none at all |
| LandingPage.DashedIsValid | src/pages/LandingPage.js:116 | `$1-$2-$3` of ten digits passes `validatePhone` and keeps those ten digits |
| LandingPage.FormatPhone | src/pages/LandingPage.js:113-117 | of the digits typed, at least ten give the first ten dashed as `XXX-XXX-XXXX`; fewer are shown bare |
| LandingPage.FormatPhoneShape | src/pages/LandingPage.js:113-119 | with at least ten digits typed, the phone is the first ten dashed and valid; with fewer, the bare digits are shown and are invalid; never more than 12 characters |
| LandingPage.FormatPhoneKeepsValid | src/pages/LandingPage.js:114-117 | a phone already in `XXX-XXX-XXXX` form is left unchanged |
| LandingPage.FormatPhoneIdempotent | src/pages/LandingPage.js:114-117 | formatting a formatted phone changes nothing |
| LandingPage.SanitiseName | src/pages/LandingPage.js:105 | the name holds only ASCII letters and spaces and is at most 100 characters |
| LandingPage.SanitiseNameIdempotent | src/pages/LandingPage.js:105 | sanitising twice is sanitising once, and a clean name of at most 100 characters is kept |
| LandingPage.CodeInput | src/pages/LandingPage.js:85-86 | the code holds at most 14 characters, the typed ones upper-cased, with no lower-case letter |
| LandingPage.CodeInputIdempotent | src/pages/LandingPage.js:85-86 | re-entering the stored code changes nothing |
| LandingPage.SubmitEnabledForTypedCode | src/pages/LandingPage.js:85-90 | for the code the input stores from the typed text, Submit (`SubmitEnabled`) is enabled iff nothing is loading, at least 14 characters were typed, and the outcome is neither WINNER nor CLAIMED |
| LandingPage.ClaimEnabled | src/pages/LandingPage.js:140 | Claim is enabled iff nothing is being submitted, name, phone and email are non-empty, neither error text is set and the message does not contain "successfully" |
| LandingPage.EnabledClaimIsValid | src/pages/LandingPage.js:140 | when the error texts track the fields, an enabled Claim button means email and phone are valid |
| LandingPage.ScanOutcome | src/pages/LandingPage.js:38 | the outcome shown is never blank: the server's outcome when it sent a non-empty one, otherwise NO_PRIZE |
| LandingPage.ErrorText | src/pages/LandingPage.js:40 | the error shown is never blank: the server's message when it sent a non-empty one, otherwise the generic error |
| LandingPage.LandingState.constructor | src/pages/LandingPage.js:8-15 | all fields start empty and not busy |
| LandingPage.LandingState.ChangeCode | src/pages/LandingPage.js:85-90 | only the code changes, to the upper-cased first 14 characters; afterwards Submit is enabled iff nothing is loading, at least 14 characters were typed and the outcome is neither WINNER nor CLAIMED |
| LandingPage.LandingState.ChangeName | src/pages/LandingPage.js:105 | only the name changes, to the sanitised text |
| LandingPage.LandingState.ChangePhone | src/pages/LandingPage.js:113-120 | the phone becomes the formatted text and its error is set iff that text is invalid |
| LandingPage.LandingState.ChangeEmail | src/pages/LandingPage.js:130-133 | the email is stored as typed and its error is set iff it is invalid |
| LandingPage.LandingState.BeginScan | src/pages/LandingPage.js:25-31 | loading starts; message, error and outcome are cleared |
| LandingPage.LandingState.CompleteScan | src/pages/LandingPage.js:32-42 | a reply sets the message and the outcome, defaulting to NO_PRIZE; a failure sets the server message or the generic error; loading ends |
| LandingPage.LandingState.ClaimPrize | src/pages/LandingPage.js:45-57 | the email is checked before the phone, and only the first failing field's error is set; a claim is sent iff both are valid; an enabled Claim button always gets through |
| LandingPage.LandingState.CompleteClaim | src/pages/LandingPage.js:59-73 | the reply's message or the error text is shown; submitting ends |
| CreateQRCode.SanitiseCount | src/pages/CreateQRCode.js:21-24 | the count keeps exactly the typed digits |
| CreateQRCode.SanitiseCountIdempotent | src/pages/CreateQRCode.js:22 | sanitising twice is sanitising once, and a digit string is kept |
| CreateQRCode.NumericCount | src/pages/CreateQRCode.js:15 | the numeric count (`parseInt` in base 10, with `NaN` read as 0) of a digit string is its decimal value |
| CreateQRCode.NumericCountRoundTrip | src/pages/CreateQRCode.js:15 | the numeric count of `String(n)` is `n` |
| CreateQRCode.GenerateDisabled | src/pages/CreateQRCode.js:18 | Generate is disabled iff loading, the prize type is blank or the numeric count is not positive |
| CreateQRCode.GenerateEnabledIff | src/pages/CreateQRCode.js:18 | for a digit count, Generate is enabled iff nothing is loading, the prize type is not blank and some digit is non-zero |
| CreateQRCode.CreateForm.constructor | src/pages/CreateQRCode.js:9-12 | the form starts empty and idle, holding the stored token |
| CreateQRCode.CreateForm.ChangePrizeType | src/pages/CreateQRCode.js:101 | only the prize type changes |
| CreateQRCode.CreateForm.ChangeCount | src/pages/CreateQRCode.js:21-24 | only the count changes, to the typed digits; it always holds digits only |
| CreateQRCode.CreateForm.Disabled | src/pages/CreateQRCode.js:15-18 | in the form's state, Generate is enabled iff idle, the prize type is not blank and some digit of the count is non-zero |
| CreateQRCode.CreateForm.BeginCreate | src/pages/CreateQRCode.js:26-40 | loading starts, the label (`CreateButtonText`, src/pages/CreateQRCode.js:84) becomes "Generating...", the message is cleared, and the arguments passed to `createQRCode` are the prize type and count as typed and the bearer header |
| CreateQRCode.CreateForm.HandleAuthError | src/pages/CreateQRCode.js:50-57 | a missing status or 401 removes the token and redirects to the login page; otherwise the fallback message is shown |
| CreateQRCode.CreateForm.CompleteCreate | src/pages/CreateQRCode.js:30-47 | the reply's message is shown, or the error is handled with "Error creating QR Code"; loading ends and the label (`CreateButtonText`) is back to "Generate QR Code" |
| UpdateQRCode.UpdateDisabled | src/pages/UpdateQRCode.js:15 | Update is enabled iff nothing is loading and neither field is blank |
| UpdateQRCode.UpdateForm.constructor | src/pages/UpdateQRCode.js:9-12 | the form starts empty and idle, holding the stored token |
| UpdateQRCode.UpdateForm.Disabled | src/pages/UpdateQRCode.js:15 | in the form's state, Update is enabled iff idle and neither the QR code id nor the prize type is blank |
| UpdateQRCode.UpdateForm.ChangeQrCodeId | src/pages/UpdateQRCode.js:92 | only the QR code id changes |
| UpdateQRCode.UpdateForm.ChangePrizeType | src/pages/UpdateQRCode.js:107 | only the prize type changes |
| UpdateQRCode.UpdateForm.BeginUpdate | src/pages/UpdateQRCode.js:17-31 | loading starts, the label (`UpdateButtonText`, src/pages/UpdateQRCode.js:75) becomes "Updating...", the message is cleared, and the arguments passed to `updateQRCode` are both fields as typed and the bearer header |
| UpdateQRCode.UpdateForm.HandleAuthError | src/pages/UpdateQRCode.js:41-48 | a missing status or 401 removes the token and redirects to the login page; otherwise the fallback message is shown |
| UpdateQRCode.UpdateForm.CompleteUpdate | src/pages/UpdateQRCode.js:21-37 | the reply's message is shown, or the error is handled with "Error updating QR Code"; loading ends and the label (`UpdateButtonText`) is back to "Update QR Code" |

## Left out

- HTTP requests are not made. Each request's reply, or its error status and server
  message, is a parameter of the `Complete…` method. The two forms' `Begin…` methods return
  the arguments the handler passes to the request helper, not the request that goes out.
  The URLs, the content-type headers and the landing page's user agent are not modelled.
- The `src/services/api.js` helpers do not send what the forms pass them:
  - `createQRCode` (src/services/api.js:37-39) takes one argument, so the config with the
    `Authorization` header is dropped and the body is `{ prize_type: { prize_type, count } }`.
  - `updateQRCode` (src/services/api.js:41-43) takes its two arguments as the two body
    fields, so the body is `{ qr_code_id: { qr_code_id, prize_type }, prize_type: { headers } }`
    and no `Authorization` header is sent.
  Neither helper's body nor its headers are modelled.
- The 401 interceptor in src/services/api.js:12-23 is not modelled. It also removes the
  token and redirects to the login page on every 401 reply, before the page's own
  handler runs.
- Browser effects are reduced to state:
  - `localStorage` is the form's `token` field.
  - `window.location.href` is `redirectedTo`.
  - `window.confirm` is the `confirmed` parameter.
  - `alert` is the `alerted` result.
- Concurrency is not modelled. Between a `Begin…` and its `Complete…`, other handlers may
  run in the browser. The model treats a reply as arriving in one step and does not
  model interleavings.
- The dashboard's report statistics (`useEffect`, the `isFetching` ref and the reports
  request) are not part of this model.
- `LoginPage`, `AdminNavbar`, the routes and all styling
  and markup are not part of this model.
- `new Date(…)` and the local-time getters are not modelled. `FormatDate` takes them as a
  function `toLocal` from the normalised string to the local date components, or
  `InvalidDate`.
- `FormatDate` uses the corrected zone test `TimestampForParse`, not the written one. See
  Findings.
- Case mapping covers ASCII letters only. `toLowerCase` and `toUpperCase` on other
  letters are not modelled.
- Strings are sequences of Unicode scalar values, not UTF-16 code units. `maxLength`,
  `slice` and `length` count code units in the browser, so they differ for characters
  outside the Basic Multilingual Plane.
- `\d` is ASCII `0`–`9` and `\s` is the ECMAScript whitespace set, both as in JavaScript.
- CreateQRCode.NumericCount: `parseInt` in the browser yields a double. Counts above 2^53
  lose precision there, but the model's integer is exact.
- JsStrings.NatToString: JavaScript numbers are doubles. `String(n)` switches to exponent
  form (`"1e+21"`) from 10^21 on, and above 2^53 not every integer is representable. The
  model writes every natural number in plain decimal, which agrees with JavaScript only
  below those bounds. The dashboard only renders date fields, which stay far below them.
- JsStrings.ParseInt10: the model's result is an exact integer. The browser's is a double,
  so a digit run longer than about 15 digits is rounded there.
- JsStrings.ParseIntRoundTrip: the round trip holds for the model's exact decimal text. In
  JavaScript it fails from 10^21 on, where `parseInt("1e+21", 10)` is 1, and above 2^53 the
  integer may not be representable to begin with.
- LandingPage.LandingState.CompleteScan: the reply's `message` is modelled as always
  present. If the server omitted it, `message` would become `undefined` and the
  `message.includes(…)` in the render would throw; that case is not modelled.
- LandingPage.LandingState.CompleteClaim: the claim reply's `message` is also modelled as
  always present. A reply without it would set `message` to `undefined`, and the render's
  `message.includes("successfully")` would throw; that case is not modelled.
- Input `disabled` conditions (the code input when the outcome is WINNER, and the claim
  inputs after a successful claim) are not preconditions of the handlers. Only the two
  buttons' enabled rules are modelled, as `SubmitEnabled` and `ClaimEnabled`.
- The button labels "Checking..." / "Submit" and "Submitting..." / "Claim my Prize" on
  the landing page are presentation and are not modelled.

## Findings

| source | as written | input that shows it | evidently intended | confidence | as-written member | corrected member |
|---|---|---|---|---|---|---|
| src/pages/AdminDashboard.js:88 | `/[zZ+\-]\d*$/` treats only a zone mark followed by digits as a time zone | `"2025-03-19T23:56:31+05:30"` becomes `"…+05:30Z"`, which is not a valid date | an offset with a colon counts as a time zone, so no `Z` is added | medium, not executed | AdminDashboard.AsWrittenAppendsToColonOffset | AdminDashboard.TimestampForParse |
| src/pages/AdminDashboard.js:88-91 | the zone test runs on the untrimmed string, and the trimmed one is what is parsed | `"2025-03-19T23:56:31Z "` becomes `"2025-03-19T23:56:31ZZ"` | test the trimmed string, so a trailing blank does not hide the `Z` | medium, not executed | AdminDashboard.AsWrittenDoublesZ | AdminDashboard.TimestampForParse |
