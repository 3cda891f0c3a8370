# Albanian AI image generator — account, quota, generation and payment core

This project models, in Dafny, the logic core of a React client that turns an Albanian
description into three generated images for a signed-in account, subject to a daily
quota set by the account's subscription tier (FREE, STANDARD, PREMIUM). The model covers:

- **Types** (`types.dfy`): the generation statuses, the seven-field enriched brief, the
  tiers, the account record, and the fixed tier → daily-limit and tier → price tables.
- **Account session** (`auth_context.dfy`, `storage.dfy`): the browser's local storage
  as a `map` from keys to parsed records (`Storage.Store`), and the provider
  (`AuthContext.AuthProvider`) whose mount-time load, `login`, `register`, `logout`,
  `incrementUsage` and `upgradeTier` update the signed-in record. The record lives under
  the session key `albanian_ai_user_data` and under the per-account key
  `albanian_ai_user_data_<email>`: `login`, `register`, `incrementUsage` and
  `upgradeTier` write both, the mount-time load writes only the session key, and
  `logout` removes only the session key. A stored value is read as an account record,
  a blank value (treated like a missing key), a JSON scalar (which parses but has no
  fields), or text whose parse or field read throws. The derived `remainingGenerations` and
  `canGenerate`, and the day-boundary reset, are pure functions.
- **Administration** (`admin_service.dfy`, `admin_dashboard.dfy`): the key scan that
  lists every stored account whose key is enumerated, the dual write that saves one, the dashboard's
  case-insensitive search, its draft edits (reset usage, deduct five, change tier), the
  over-limit badge, and the save handler.
- **Generation** (`gemini_service.dfy`, `app.dfy`): enrichment's empty-response check,
  one image attempt (the first part carrying inline data becomes a data URI, any failure
  becomes no result), the fan-out aggregation that keeps successful attempts in index
  order and throws when none succeeded, the data-URI build and parse and their round
  trip, and the application shell that gates a request on sign-in and quota, runs the
  two stages, shows the images and charges exactly one use on success only.
- **Payment** (`stripe_service.dfy`, `payment_modal.dfy`): the ordered card checks with
  their messages and the 4000-prefix decline rule, the card-number and expiry
  formatters (output shape, length bounds, idempotence), the security-code digit filter
  and the payment form's state.

Helper modules: `Wrappers` (Option, Result), `Text` (the JavaScript string operations
the core uses, over the ECMAScript white-space set and ASCII letter case) and
`JsNumber` (when `isNaN(Number(s))` holds, following the StringNumericLiteral grammar of
section 7.1.4.1 of ECMA-262).

Inputs the program reads from its environment are parameters: the current ISO time
`now` (the current day is the text before its `T`), the enumeration order of the stored
keys, what each remote model call answered (`EnrichOutcome`, `AttemptOutcome`), and the
random parts of generated ids (`id` of `register`, `randomId` of the transaction id).

Behaviour worth noting:

- The day reset is applied only on mount and on sign-in; `incrementUsage` and the
  derived quota values use the record as it is, so a session kept open past midnight
  keeps the previous day's usage until the next mount or sign-in.
- Enrichment does not check that the seven brief fields are present: the answer is
  accepted when its text is non-empty and parses.
- An account has two copies, under the session key and under its per-account key.
  `login`, `register`, `incrementUsage` and `upgradeTier` write both; the mount-time load
  writes only the session copy; `logout` removes only the session copy; the
  administrative save writes the per-account copy and overwrites the session copy only
  when its email matches. The model keeps the two keys rather than a single store.
- Failures of the enrichment and image stages surface as one fixed message; the model
  keeps the distinct errors the services throw (`GeminiError`) only up to that point.

## Model

| member | source | states |
|---|---|---|
| Types.TierLimit | types.ts:42-46 | every tier's daily limit is positive |
| Types.TierLimitValues | types.ts:42-46 | the limits are FREE 1, STANDARD 5, PREMIUM 15 |
| Types.TierPrice | types.ts:48-52 | a tier costs nothing exactly when it is FREE |
| Types.TierPriceValues | types.ts:48-52 | the prices are FREE 0, STANDARD 500, PREMIUM 1000 |
| Types.TierOrderMonotone | types.ts:42-52 | a tier later in declaration order has a strictly larger limit and a strictly larger price, and conversely |
| Text.RemoveWhitespace | services/stripeService.ts:27 | the cleaned number holds no white space, is no longer than the input, and equals an input that had none |
| Text.RemoveWhitespaceContents | services/stripeService.ts:27 | every character of the cleaned number comes from the input, and every non-white-space character of the input is kept |
| Text.RemoveWhitespaceAppend | services/stripeService.ts:27 | removal distributes over concatenation, so with the contents lemma a single white-space character is dropped and every other character kept in place |
| Text.DigitsOf | components/PaymentModal.tsx:163 | the security-code filter's result holds only digits, is no longer than the input, and leaves an all-digit input unchanged |
| Text.DigitsOfContents | components/PaymentModal.tsx:163 | every character of the filtered code comes from the input, and every digit of the input is kept |
| Text.DigitsOfAppend | components/PaymentModal.tsx:163 | filtering distributes over concatenation, so with the contents lemma a single non-digit is dropped and every digit kept in order |
| Text.Trim | services/stripeService.ts:38 | the trimmed name is empty exactly when the name is all white space |
| Text.SplitFirst | context/AuthContext.tsx:50-52 | `split(c)[0]` is the prefix before the first `c`, or the whole text when there is none |
| JsNumber.DigitStringIsNumber | services/stripeService.ts:30-36 | a string of digits is never NaN, so a digit-only number or code of the right length passes its check |
| JsNumber.BlankIsNumber | services/stripeService.ts:34 | every string made only of white space (the empty one included) converts to 0, not NaN |
| JsNumber.ExponentIsNumber | services/stripeService.ts:30 | every string of digits, `e`, digits (such as `1e5`) is a number |
| JsNumber.TrailingLettersAreNaN | services/stripeService.ts:30 | digits followed by one or more lower-case letters from `g` to `z` are NaN (letters `a`–`f` are left out: `0xab` is a hexadecimal number) |
| AuthContext.UserKeyDistinct | context/AuthContext.tsx:77-79 | no per-account key is the session key, and two emails share a key only when equal |
| AuthContext.RemainingGenerations | context/AuthContext.tsx:121-122 | 0 when signed out; otherwise never negative, at most the tier limit, 0 exactly when usage reaches the limit, and limit minus usage when positive |
| AuthContext.CanGenerate | context/AuthContext.tsx:123 | holds exactly when someone is signed in and usage is below the tier limit |
| AuthContext.UnusedAccountCanGenerate | context/AuthContext.tsx:121-123 | an account with no usage can generate on every tier, with the whole limit left |
| AuthContext.ResetForDay | context/AuthContext.tsx:65-69 | the result is dated today; a record of today is unchanged; a record of another day has usage 0; no other field changes |
| AuthContext.ResetIsIdempotent | context/AuthContext.tsx:28-33 | resetting twice equals resetting once |
| AuthContext.ResetRestoresAllowance | context/AuthContext.tsx:28-33 | a record from an earlier day regains its tier's whole allowance |
| AuthContext.BackfillTimestamps | context/AuthContext.tsx:34-36 | a missing creation or login time becomes `now`; present ones and every other field are kept |
| AuthContext.WithOneMoreUse | context/AuthContext.tsx:107 | usage rises by exactly one and no other field changes |
| AuthContext.WithTier | context/AuthContext.tsx:115 | the tier becomes the chosen one and no other field changes |
| AuthContext.UpgradeKeepsUsage | context/AuthContext.tsx:113-122 | an upgrade keeps usage, so remaining becomes the new limit less usage; FREE at usage 1 upgraded to STANDARD has 4 left |
| AuthContext.MockUser | context/AuthContext.tsx:49-58 | the account `login` builds for an unknown email is a FREE account with that email, dated today so the day reset leaves it alone, with its whole allowance available |
| AuthContext.NewAccount | context/AuthContext.tsx:84-93 | the account `register` builds has the given id, email and name, is FREE, dated today, and has its whole allowance available |
| AuthContext.SignedInUser | context/AuthContext.tsx:49-75 | sign-in stamps `now` as last login and today as usage date; without a stored record it is a FREE account with usage 0 named after the email's local part with id local part + `-id`; with one it keeps that record's tier, id, email and name, and backfills a missing creation time |
| AuthContext.AuthProvider.constructor | context/AuthContext.tsx:21 | the provider starts signed out |
| AuthContext.AuthProvider.Mount | context/AuthContext.tsx:23-42 | a stored session record is reset for today, backfilled, written back to the session key only, and signed in; a missing, blank, scalar or unparsable value changes nothing |
| AuthContext.AuthProvider.Login | context/AuthContext.tsx:44-80 | signs in the `SignedInUser` record and writes it under the session key and the per-account key, changing no other key; a missing or blank per-account value gives the new FREE account; a scalar or unparsable one changes nothing |
| AuthContext.AuthProvider.Register | context/AuthContext.tsx:82-98 | signs in a new FREE account with usage 0 and writes it under both keys, changing no other key |
| AuthContext.AuthProvider.Logout | context/AuthContext.tsx:100-103 | signs out and removes only the session key; the per-account record survives |
| AuthContext.WrittenUnderBothKeys | context/AuthContext.tsx:109-110 | the record is stored under the session key and its per-account key; every other key is kept |
| AuthContext.AuthProvider.IncrementUsage | context/AuthContext.tsx:105-111 | signed in: one more use, nothing else changed, the same record under both keys and no other key changed, no day reset; signed out: nothing changes |
| AuthContext.AuthProvider.UpgradeTier | context/AuthContext.tsx:113-119 | signed in: the new tier, nothing else changed, written under both keys; signed out: nothing changes |
| AuthContext.LogoutThenLoginKeepsTier | context/AuthContext.tsx:44-103 | when the per-account copy holds a record with the signed-in email and tier (its usage and dates may differ, as after a new-day mount), signing out and in again restores the account's tier |
| AdminService.PrefixMatchesSessionKeys | services/adminService.ts:4 | the admin prefix plus an email is the per-account key the session uses, and the session key does not carry the prefix |
| AdminService.SessionKeyNeverListed | services/adminService.ts:16 | the bare session key never yields a listed account |
| AdminService.ListedUser | services/adminService.ts:16-34 | a key yields an account exactly when it has the prefix and holds an object record with a non-empty email, and that account is the record with missing timestamps backfilled |
| AdminService.ListedUsersAppend | services/adminService.ts:12-40 | listing a concatenation of key sequences is the concatenation of the listings, so order is kept and a skipped key does not affect the others |
| AdminService.ListedUsersSound | services/adminService.ts:16-33 | every listed account comes from some scanned key that qualifies |
| AdminService.ListedUsersComplete | services/adminService.ts:16-33 | every scanned key that qualifies has its account listed |
| AdminService.ScanListsEveryStoredAccount | services/adminService.ts:12-40 | when the enumeration covers every stored key, the listing holds exactly the (backfilled) records stored under prefixed keys that parse and have an email |
| AdminService.GetAllUsers | services/adminService.ts:8-42 | the loop returns the listing of the given keys in enumeration order, skipping blank, scalar and unparsable values and going on; every listed account has an email |
| AdminService.UpdateUser | services/adminService.ts:45-58 | writes the prefixed key; overwrites the session record exactly when it is an object with the same email; a missing, blank or scalar session value is left alone; no other key changes; a session value whose parse or field read throws stops it after the first write |
| GeminiService.TransformAlbanianPrompt | services/geminiService.ts:47-65 | the brief is returned exactly when the call answered with non-empty text that parses; an empty text fails with the no-response error |
| GeminiService.BuildDataUri | services/geminiService.ts:98 | the URI starts with `data:` and ends with the payload; `DataUriRoundTrip` states that parsing it gives back MIME type and payload |
| GeminiService.EffectiveMimeType | services/geminiService.ts:98 | the MIME type written into a URI is never empty (PNG by default) |
| GeminiService.ParseDataUri | services/geminiService.ts:123-126 | succeeds exactly when the pattern matches, returning the greedy split at the last usable marker; otherwise fails with the invalid-URI error |
| GeminiService.DataUriRoundTrip | services/geminiService.ts:98-126 | parsing a URI built from a non-empty base64 payload and a MIME type without line terminators gives back that MIME type and payload |
| GeminiService.FirstImage | services/geminiService.ts:96-100 | none exactly when no part carries inline data; otherwise the URI of the first part that does |
| GeminiService.RunAttempt | services/geminiService.ts:90-106 | the attempt yields no result exactly when the call threw, the response had no parts, or no part carries inline data; otherwise the first such part's URI |
| GeminiService.ValidImages | services/geminiService.ts:110 | the filter is no longer than the results and empty exactly when every attempt failed |
| GeminiService.ValidImagesAppend | services/geminiService.ts:109-110 | filtering distributes over concatenation, so attempt-index order is kept |
| GeminiService.ValidImagesFromResults | services/geminiService.ts:110 | every returned image is the result of some attempt |
| GeminiService.ValidImagesKeepsOrder | services/geminiService.ts:109-110 | attempts 0 and 2 succeeding around a failed attempt 1 give exactly their two images in that order |
| GeminiService.GenerateImagesFromPrompt | services/geminiService.ts:67-117 | throws exactly when every attempt failed; otherwise returns between one and `count` images, the successful results in index order |
| App.IsAdmin | App.tsx:33 | holds exactly when the signed-in email equals `admin@albanian.ai` |
| App.AdminIsCaseSensitive | App.tsx:33 | the admin email in other letter case is not the admin |
| App.ChargedIffBriefAndImage | App.tsx:55-69 | the two stages succeed, and a use is charged, exactly when enrichment gave a brief and some attempt gave an image; the images then number between one and the attempts |
| App.App.constructor | App.tsx:13-25 | the shell starts idle with empty input, no images, no error and every dialog closed |
| App.App.ChangeInput | App.tsx:211 | typing changes only the input: status, trace, images, selection, error, brief and dialogs are kept |
| App.App.PerformGeneration | App.tsx:49-76 | blank input changes nothing; success goes ANALYZING, GENERATING, COMPLETED, shows the brief and the images from the first, and charges exactly one use written under both account keys; a failure in either stage sets ERROR with the fixed message, keeps the images, the account and the store, and shows the brief only if enrichment gave one; input and dialogs are never touched |
| App.App.Analyze | App.tsx:52-62 | enrichment failure goes to ERROR without calling the image stage, leaving account and store alone; otherwise the image stage runs with the brief |
| App.App.Generate | App.tsx:61-69 | the brief is kept; no image gives ERROR with account and store unchanged; images give COMPLETED with the list shown and one use charged under both keys |
| App.App.FailGeneration | App.tsx:71-75 | the error is the fixed message and the status ERROR; images and usage are untouched |
| App.App.CompleteGeneration | App.tsx:64-69 | the images are shown from index 0, the status is COMPLETED, and the account is charged one use, written under both keys, as the last step |
| App.App.TriggerGeneration | App.tsx:35-47 | signed out opens sign-in and at the limit opens pricing, each changing no other dialog, input, status, screen, account or store; otherwise it has every effect of the generation pipeline; an account within its limit stays within it |
| App.App.HandleTierSelection | App.tsx:85-94 | FREE only closes pricing; a paid tier becomes the pending tier and opens payment; nothing else on the screen changes |
| App.App.HandlePaymentSuccess | App.tsx:96-105 | with a pending tier: upgrades to exactly it (written under both keys), closes payment, clears it and shows the success message; without one: nothing changes; input, status and screen are kept |
| App.App.OpenAdminDashboard | App.tsx:119-121 | the dashboard opens for the admin account only (one already open stays open), and nothing else changes |
| App.UpgradeFlow | App.tsx:85-105 | choosing a paid tier and paying leaves the account on that tier with its usage, and its remaining allowance is the new limit less usage |
| App.FreeAccountSecondRequestRejected | App.tsx:35-69 | a FREE account's first successful request charges one use (written under both keys) and exhausts the day, so the next request opens pricing and keeps the account, the store, the status and the images of the first |
| StripeService.ProcessStripePayment | services/stripeService.ts:17-51 | checks run in the order number, code, name, decline and the first failing one gives its message; success exactly when all pass, with a `ch_` transaction id and no error |
| StripeService.TestNumberIsDeclined | services/stripeService.ts:43-45 | a well-formed number starting with 4000 is declined even when the code and name are fine |
| StripeService.BlankCvcPassesCheck | services/stripeService.ts:34-36 | a code of three spaces passes the code check, since it converts to 0 |
| PaymentModal.DigitsIgnoreWhitespace | components/PaymentModal.tsx:63 | removing white space before removing non-digits keeps exactly the digits |
| PaymentModal.JoinChunks | components/PaymentModal.tsx:66-71 | joining the four-digit substrings with spaces gives the grouped number |
| PaymentModal.GroupedShape | components/PaymentModal.tsx:66-71 | grouping n digits gives the card layout of n + (n - 1) / 4 characters with the same digits |
| PaymentModal.FormattedCardNumber | components/PaymentModal.tsx:62-75 | what the formatter returns; its shape, idempotence and length check are stated by `CardNumberShape`, `CardNumberIdempotent` and `FormattedNumberCheck` |
| PaymentModal.CardNumberShape | components/PaymentModal.tsx:62-75 | the output has only digits and spaces, at most 19 characters and 16 digits; fewer than 4 digits are returned ungrouped; otherwise the first min(16, n) digits in groups of four |
| PaymentModal.CardNumberIdempotent | components/PaymentModal.tsx:62-75 | formatting a formatted number changes nothing |
| PaymentModal.FormattedNumberCheck | components/PaymentModal.tsx:62-75 | a formatted number passes the payment number check exactly when at least 15 digits were typed |
| PaymentModal.FormatCardNumber | components/PaymentModal.tsx:62-75 | the stepping loop over four-digit parts returns the formatted number |
| PaymentModal.FormatExpiry | components/PaymentModal.tsx:77-83 | two or more digits give the first two, ` / `, then up to two more; fewer are returned as they are; at most 7 characters |
| PaymentModal.ExpiryIdempotent | components/PaymentModal.tsx:77-83 | formatting a formatted expiry changes nothing |
| PaymentModal.PaymentForm.constructor | components/PaymentModal.tsx:13-20 | the form starts empty and not busy |
| PaymentModal.PaymentForm.Open | components/PaymentModal.tsx:23-32 | opening clears the four fields, the error and the busy flag |
| PaymentModal.PaymentForm.ChangeCardNumber | components/PaymentModal.tsx:138 | the card field holds the formatted input and nothing else changes |
| PaymentModal.PaymentForm.ChangeExpiry | components/PaymentModal.tsx:153 | the expiry field holds the formatted input and nothing else changes |
| PaymentModal.PaymentForm.ChangeCvc | components/PaymentModal.tsx:163 | the code field holds only the typed digits and nothing else changes |
| PaymentModal.PaymentForm.ChangeName | components/PaymentModal.tsx:122 | the name field holds the input and nothing else changes |
| PaymentModal.PaymentForm.HandlePayment | components/PaymentModal.tsx:36-59 | success is reported exactly when the payment succeeds; a failure shows the service's error or "Payment failed"; the form is not busy afterwards and the fields are kept |
| AdminDashboard.FilteredUsers | components/AdminDashboard.tsx:43-46 | keeps exactly the accounts whose lower-cased email or name contains the lower-cased term |
| AdminDashboard.FilteredUsersAppend | components/AdminDashboard.tsx:43-46 | filtering distributes over concatenation, so list order is kept |
| AdminDashboard.EmptyTermKeepsAll | components/AdminDashboard.tsx:43-46 | an empty term keeps every account in order |
| AdminDashboard.SearchIgnoresCase | components/AdminDashboard.tsx:43-46 | searching for the lower-cased term gives the same list as the term itself |
| AdminDashboard.IsOverLimit | components/AdminDashboard.tsx:140 | the red-badge condition; `OverLimitMeansCannotGenerate` states it is exactly the negation of `canGenerate` |
| AdminDashboard.OverLimitMeansCannotGenerate | components/AdminDashboard.tsx:140 | the badge is red exactly when usage reaches the tier limit, that is when the account cannot generate |
| AdminDashboard.ResetDraftUsage | components/AdminDashboard.tsx:245 | usage becomes 0, nothing else changes, and the whole limit is available again |
| AdminDashboard.DeductFiveCredits | components/AdminDashboard.tsx:252 | usage becomes 0 exactly when it was at most 5, and five less otherwise; nothing else changes |
| AdminDashboard.DeductNeverHurts | components/AdminDashboard.tsx:252 | deducting never lowers the remaining allowance and never turns the badge red |
| AdminDashboard.Dashboard.constructor | components/AdminDashboard.tsx:13-15 | the dashboard starts with no accounts, no draft and no search |
| AdminDashboard.Dashboard.LoadUsers | components/AdminDashboard.tsx:24-27 | the list becomes the admin service's listing of the store |
| AdminDashboard.Dashboard.ChangeSearchTerm | components/AdminDashboard.tsx:103 | only the search term changes |
| AdminDashboard.Dashboard.EditUser | components/AdminDashboard.tsx:157 | the chosen account becomes the draft |
| AdminDashboard.Dashboard.CancelEdit | components/AdminDashboard.tsx:181 | the draft is dropped unsaved |
| AdminDashboard.Dashboard.ResetUsage | components/AdminDashboard.tsx:245 | the draft's usage is reset and the list is unchanged |
| AdminDashboard.Dashboard.DeductCredits | components/AdminDashboard.tsx:252 | the draft has five credits deducted and the list is unchanged |
| AdminDashboard.Dashboard.ChooseTier | components/AdminDashboard.tsx:219 | only the draft's tier changes |
| AdminDashboard.Dashboard.HandleSaveUser | components/AdminDashboard.tsx:29-41 | with a draft: its prefixed key holds it, the session copy is overwritten exactly when it is a record with the same email, no other key changes, the save completes exactly when the session value does not make the parse or field read throw (missing, blank and scalar values let it complete), and then the list is reloaded (showing the draft when its key is enumerated), the draft is cleared, and the page reloads exactly for the administrator's own account; without one nothing changes |

## Left out

- Rendering: every JSX element, style and SVG, the pricing, prompt-breakdown, image-display and sign-in dialogs (the sign-in dialog only forwards to `login` and `register`).
- The remote model calls, the video generation call, its unbounded polling loop and the video download: their answers are inputs, and video generation is modelled only up to parsing the image URI.
- Timers and latency: the 300 ms stagger between attempts, the 2 s simulated payment delay, and the 4 s success toast timeout (the toast is set and never cleared in the model).
- Concurrency of `Promise.all`: the attempts are a sequence in index order; overlapping requests from one account and stale React state across `await` are not modelled.
- Clock and locale: `now` is a parameter; the dashboard's date formatting is left out.
- Randomness: the registration id and the transaction id's random part are parameters.
- Floating point: the usage-bar width percentage.
- JSON and storage internals: a stored value is one of four kinds (`Record`, `Blank`, `Scalar`, `Malformed`); an array reads as a record with no fields; a record missing a string field holds the empty string; storage is a map and its enumeration order a parameter; storage quota errors are not modelled.
- `JSON.parse(text) as PromptDetails`: what the text parses to is an input; a JSON object missing brief fields is not distinguished from a complete one.
- `toLowerCase` and `trim` beyond ASCII letters and the ECMAScript white-space set; `Number()` coercion is modelled only as whether it yields NaN.
- Browser `maxLength` truncation of the card, expiry and code fields.
- The catch branch of `handlePayment`: the simulated payment never throws, so that branch is unreachable in the model.
- The page reload after saving one's own account: reported as a flag, not performed.
- Passwords: `login` and `register` ignore them.
- The source's `Math.max(0, …)` and usage counters are unbounded integers here; JavaScript number precision is not modelled.
