# AI journaling app: accounts, journal analytics and subscription endpoints

A Dafny model of the two parts of the AI journaling application that carry
decision logic:

- **The journaling component** (`src/journaling_app.tsx`). It keeps an
  in-memory user table, signs users up and in, and keeps a per-user journal
  history. It submits entries for language-model guidance and computes the
  analytics tab's statistics and trend. The component's state is the class
  `JournalApp.Journaling`, one field per piece of React state, and each
  handler is a method that applies all its updates as one step. The
  analytics are the pure functions of module `Analytics`, plus the method
  `CalculateStats`, whose loops mirror the source's `forEach` loops.
- **The subscription server** (`backend/server.js`). Five Express routes
  talk to the billing provider. Each route is a pure function of the request
  fields, the configuration and the provider's replies. The provider is the
  datatype `SubscriptionServer.Provider`: one function per provider call
  (create/retrieve a checkout session, retrieve/list subscriptions, create a
  portal session, verify and parse a webhook event). Each returns the
  provider's object or the message of the error it throws.

Modules: `Wrappers` (Option, Result), `Journal` (entry and analysis records,
JavaScript's `trim`), `Analytics`, `JournalApp`, `SubscriptionServer`.

In the journaling component, timestamps are integers in milliseconds. The
provider's `trial_end` and `current_period_end` are Unix seconds, and the
server passes them through as given. Clock readings, the language model's
replies and the provider's replies are parameters.

Notes on the subscription routes:
- The webhook has no event deduplication, no stale-event ordering and no
  stored subscription table. Every switch arm only logs.
- Checkout does not require an email and ignores the `customerId` it reads.
- The status check looks only at the first subscription of a list requested
  with limit 1. It does not choose among several subscriptions.
- The portal route does not check for a customer id.
- A checkout session without a subscription is passed on to the provider's
  subscription lookup as it is. Whatever that call answers (in practice an
  error, hence status 500) is what the route answers.

## Model

| member | source | states |
|---|---|---|
| `Journal.TrimBlank` | src/journaling_app.tsx:451-455 | `entry.trim()` is empty exactly when every character of the entry is ECMAScript whitespace or a line terminator |
| `Analytics.DaysBack` | src/journaling_app.tsx:383 | a window reaches 30 days back exactly for "month" and 7 days otherwise ("week" or anything unknown) |
| `Analytics.Window` | src/journaling_app.tsx:384-386 | the window keeps each entry stamped at or after the cutoff, with its multiplicity, and drops every other entry |
| `Analytics.WindowSingle` | src/journaling_app.tsx:384-386 | a single entry is kept exactly when its timestamp is at or after the cutoff |
| `Analytics.WindowAppend` | src/journaling_app.tsx:384-386 | the filter keeps the order: the window of two concatenated histories is the window of the first followed by the window of the second |
| `Analytics.FilteredHistory` | src/journaling_app.tsx:379-387 | "all" gives the whole history; any other timeframe gives the window whose cutoff is its number of days before now: exactly the entries no older than that, each as often as it occurs, in their original order (`WindowSingle`, `WindowAppend`) |
| `Analytics.SentimentCount` | src/journaling_app.tsx:401-413 | no sentiment is counted more often than there are entries with an analysis |
| `Analytics.AnalysedCount` | src/journaling_app.tsx:401-413 | the number of entries with an analysis is at most the number of entries, and equals it iff every entry has one |
| `Analytics.Midpoint` | src/journaling_app.tsx:440-441 | the split point is ceil(n/2); with at least 4 entries, both halves hold at least 2 entries, so neither fraction divides by zero |
| `Analytics.FractionMargin` | src/journaling_app.tsx:443-447 | comparing two positive shares with the 0.2 margin is the same as the integer cross-multiplied comparison, in both directions |
| `Analytics.CalculateTrend` | src/journaling_app.tsx:437-449 | fewer than 4 entries give stable; otherwise improving iff the recent positive share exceeds the older share plus 0.2, declining iff it is below the older share minus 0.2, stable otherwise |
| `Analytics.ReduceMaxFrom` | src/journaling_app.tsx:421-425 | the left fold `v[a] > v[b] ? a : b` ends at an index of maximal value after which every value is strictly smaller |
| `Analytics.ReduceMax` | src/journaling_app.tsx:421-425 | the reduce over all keys picks the last key whose value is maximal, so ties go to the later key |
| `Analytics.LastMaxUnique` | src/journaling_app.tsx:421-425 | the tie rule determines the chosen key uniquely |
| `Analytics.BumpLookup` | src/journaling_app.tsx:411 | incrementing `sentimentCounts[s]` raises the count of `s` by one and changes no other count |
| `Analytics.BumpTotal` | src/journaling_app.tsx:411 | each increment raises the sum of all counts by one |
| `Analytics.BumpKeys` | src/journaling_app.tsx:411 | an increment keeps the key order and appends the key only when it was absent |
| `Analytics.TallyLookup` | src/journaling_app.tsx:401-413 | after the loop, each sentiment's count is the number of analysed entries with that sentiment |
| `Analytics.TallyTotal` | src/journaling_app.tsx:401-413 | after the loop, the counts sum to the number of entries that have an analysis |
| `Analytics.TallyKeys` | src/journaling_app.tsx:401-413 | the count keys are distinct, begin with positive, neutral and negative, and otherwise are exactly the sentiments that occur |
| `Analytics.RoundedTenths` | src/journaling_app.tsx:418 | the average in tenths is `10*sum/n` rounded half up (t <= 10*sum/n + 1/2 < t + 1) |
| `Analytics.AddScores` | src/journaling_app.tsx:406-410 | one analysed entry adds its score for each category, 0 when missing, to that category's sum |
| `Analytics.Accumulate` | src/journaling_app.tsx:404-413 | after the loop, each category sum is the total of its scores over the analysed entries, and the counts are the tally of the window |
| `Analytics.Averages` | src/journaling_app.tsx:416-419 | the averages list has the five category keys in order, each with its sum over the window size rounded half up to tenths |
| `Analytics.CalculateStats` | src/journaling_app.tsx:389-435 | no statistics iff the window has fewer than 5 entries; otherwise the total, the category averages, the sentiment counts as the loop builds them (keys in order of first appearance after positive, neutral and negative), each sentiment's count, counts summing to the analysed entries, the dominant sentiment and the top concern as last maximal keys, and the trend of the window |
| `Journal.Utf16Length` | src/journaling_app.tsx:124 | a string's `length` lies between its number of characters and twice that, and equals its number of characters iff no character lies beyond U+FFFF |
| `JournalApp.SignupError` | src/journaling_app.tsx:112-132 | sign-up is rejected, first failure wins, for an empty field, then differing passwords, then a password under 6 UTF-16 code units, then an existing name; it is accepted iff none holds |
| `JournalApp.SurrogatePairsCountTwice` | src/journaling_app.tsx:124 | a password of three emoji has length 6 and passes the sign-up checks |
| `JournalApp.SignupErrorAsWritten` | src/journaling_app.tsx:129-132 | the existence test as written also treats every `Object.prototype` property name as an existing user |
| `JournalApp.InheritedNameReportedTaken` | src/journaling_app.tsx:129-132 | with an empty table, "constructor" is refused as taken by the code as written and accepted by the intended check |
| `JournalApp.SignupChecksDifferOnlyOnInheritedNames` | src/journaling_app.tsx:129-132 | the existence test as written and the intended one disagree exactly on an inherited property name that passes every other check, which the code as written reports as taken |
| `JournalApp.LoginError` | src/journaling_app.tsx:155-165 | login succeeds iff both fields are non-empty, the user exists and the stored password equals the given one; a missing user and a wrong password give the same message |
| `JournalApp.Register` | src/journaling_app.tsx:134-146 | sign-up adds exactly the new name, holding the given password, the time and an empty history, and leaves every other user untouched |
| `JournalApp.SaveJournal` | src/journaling_app.tsx:90-99 | saving replaces only the named user's history and activity time, keeps that user's password, name and creation time, and leaves every other user untouched; for an unknown name it creates a record without a password |
| `JournalApp.StoredHistory` | src/journaling_app.tsx:101-107 | loading gives the stored history of a known user and an empty history for an unknown one |
| `JournalApp.RegisteredCanLogIn` | src/journaling_app.tsx:134-171 | after a successful sign-up, logging in with the same name and password succeeds and loads an empty history |
| `JournalApp.SaveThenLoad` | src/journaling_app.tsx:90-107 | loading after saving gives back the saved history, and other users' histories are unchanged |
| `JournalApp.SaveKeepsLogins` | src/journaling_app.tsx:90-99 | saving any history, under a known or an unknown name, changes the outcome of no login attempt |
| `JournalApp.NewEntry` | src/journaling_app.tsx:345-355 | the new entry holds the submitted text, the mood, the guidance and the clock readings (id, date, time, day of week, timestamp); its analysis is the parsed reply, or the default analysis when the analysis request fails |
| `JournalApp.Journaling.constructor` | src/journaling_app.tsx:22-49 | the initial state: no user, the sign-in screen shown, login mode, empty form, empty history, the "write" tab, the "all" timeframe |
| `JournalApp.Journaling.SaveUserJournalData` | src/journaling_app.tsx:90-99 | only the user table changes, as `SaveJournal` says; the object invariant survives when the user exists |
| `JournalApp.Journaling.LoadUserJournalData` | src/journaling_app.tsx:101-107 | only the current history changes, to the user's stored history or empty |
| `JournalApp.Journaling.SyncJournal` | src/journaling_app.tsx:84-88 | the history is saved under the signed-in user only when someone is signed in and the history is non-empty; otherwise the table is unchanged |
| `JournalApp.Journaling.HandleAuth` | src/journaling_app.tsx:109-173 | on a rejected sign-up or login, only the error message changes; a sign-up registers the user, signs them in with an empty history, hides the sign-in screen and clears the form; a login signs the user in with their stored history. The sign-up existence test is the intended one, `SignupError`, not the code as written (see Findings) |
| `JournalApp.Journaling.HandleLogout` | src/journaling_app.tsx:175-184 | logout clears the user and history, shows the sign-in screen, selects the "write" tab and clears the reply, the entry and the mood |
| `JournalApp.Journaling.AnalyzeEntry` | src/journaling_app.tsx:290-368 | a guidance reply puts exactly one new entry in front of the unchanged earlier history and shows the reply; a failed request leaves the history unchanged and shows the fixed fallback reply |
| `JournalApp.Journaling.HandleSubmit` | src/journaling_app.tsx:451-455 | a whitespace-only entry changes nothing; any other is analysed as `AnalyzeEntry` says |
| `JournalApp.Journaling.ProvideInsight` | src/journaling_app.tsx:370-377 | when the newest entry has a non-empty insight, it is appended to the reply after a blank line and a light bulb and the insight offer closes; otherwise nothing changes |
| `SubscriptionServer.ServerError` | backend/server.js:44-47 | a provider failure is answered with status 500 and exactly `{error: message}` |
| `SubscriptionServer.CheckoutRequestFor` | backend/server.js:18-41 | the checkout request is always card payment in subscription mode with exactly one line item of quantity 1 at the configured price, a 3-day trial that cancels without a payment method, the request's email and username, and success and cancel URLs under the client URL |
| `SubscriptionServer.CreateCheckoutSession` | backend/server.js:14-48 | the response is exactly `{sessionId, url}` of the created session, or 500 with the provider's message |
| `SubscriptionServer.CheckoutIgnoresCustomerId` | backend/server.js:16-41 | the request sent to the provider does not depend on the request body's `customerId` |
| `SubscriptionServer.RedirectsUnderClientUrl` | backend/server.js:36-37 | both redirect URLs begin with the configured client URL |
| `SubscriptionServer.VerifySubscription` | backend/server.js:51-68 | the response gives the status, trial end, period end and customer of the subscription that the retrieved session refers to; a failure of either call gives 500 |
| `SubscriptionServer.StatusQuery` | backend/server.js:75-79 | the status route lists the customer's subscriptions of every status, at most one |
| `SubscriptionServer.CheckSubscriptionStatus` | backend/server.js:71-98 | an empty list gives only `hasActiveSubscription: false`; otherwise the first subscription's status, trial end and period end are copied, and `hasActiveSubscription` holds iff the status is active or trialing; a provider failure gives 500 |
| `SubscriptionServer.StatusUsesFirstOnly` | backend/server.js:75-86 | two subscription lists with the same first element get the same answer |
| `SubscriptionServer.PortalRequestFor` | backend/server.js:105-108 | the portal request names the given customer and returns to the client URL followed by `/settings` |
| `SubscriptionServer.CreatePortalSession` | backend/server.js:101-115 | the response is exactly `{url}` of the portal session, or 500 with the provider's message |
| `SubscriptionServer.Classify` | backend/server.js:134-167 | each of the six known event types reaches its own arm; every other type reaches the default arm |
| `SubscriptionServer.HandleWebhook` | backend/server.js:118-170 | a failed verification is answered 400 with the error text and nothing is dispatched; a verified event reaches its arm and is answered `{received: true}` |
| `SubscriptionServer.WebhookDispatchIffVerified` | backend/server.js:122-131 | an event is dispatched iff it verifies, and the status is 400 iff it does not |
| `SubscriptionServer.WebhookAcknowledgesAll` | backend/server.js:134-169 | every verified event, whatever its type, gets the same acknowledgement |

## Left out

- Rendering: all markup, styling and icons (src/journaling_app.tsx:482-979) and the UI-only state (`showPassword`, `showHistory`, `lastReminderCheck`). The one-line setters bound to inputs and buttons (auth mode, form fields, mood, tab, timeframe) are not modelled either.
- Language-model calls: the requests, the prompt text and the recent-history summary built for the prompt (src/journaling_app.tsx:238-341) are network I/O. Their replies are the parameters of `AnalyzeEntry`.
- Browser persistence: the mount-time loading from `localStorage` and the effect that writes the user table to it (src/journaling_app.tsx:51-81, 149, 168, 183).
- Clocks: `Date.now()`, the ISO and locale formatting of dates (`Stamp`, the `now` parameters).
- React's asynchronous batching of state updates: each handler is one atomic step, and `isLoading` is observed only after `AnalyzeEntry` finishes.
- Floating point: averages are rounded half up on the exact quotient, and the 0.2 margin is compared on exact fractions. Where the doubles of the source land exactly on a rounding or margin boundary, they may decide differently.
- `totalScore` in calculateStats is accumulated but never used; it is not modelled.
- Category scores are integers. An analysis without a `categories` object, which makes the source throw, and a `fullDate` that is not a valid date are not modelled.
- JavaScript's placement of integer-like keys first in `sentimentCounts` is not modelled: `Tally` appends every new sentiment in order of first appearance.
- JournalApp.Journaling.HandleAuth: its sign-up branch runs the intended existence test `SignupError`, so it registers an inherited property name such as "constructor", which the code as written refuses with "Username already exists". `SignupChecksDifferOnlyOnInheritedNames` states exactly where the two differ.
- Lookups of inherited `Object.prototype` names other than in the sign-up test (for example login as "constructor", which fails as intended) are not modelled.
- `src/authHelpers.ts`, `src/ApiTest.tsx` and `src/App.tsx` are not part of this model: they are foreign-library calls, a debugging page and a path comparison.
- Stripe's signature computation is the abstract `constructEvent` of the provider. Express wiring is not modelled: the global JSON parser registered before the webhook's raw-body parser (backend/server.js:11, 118) may mean verification never sees the raw body. `app.listen` and the port are also not modelled.
- Logging: the console output of every route and every webhook arm. The arms' effect is captured only as which arm was reached.

## Findings

| source | as written | input that shows it | evidently intended | confidence | as-written member | corrected member |
|---|---|---|---|---|---|---|
| src/journaling_app.tsx:129 | `if (userDatabase[authForm.username])` also finds properties inherited from `Object.prototype` | sign-up as "constructor" with password "secret1" twice, on an empty table: "Username already exists" | only registered users count as existing | medium, not executed | `JournalApp.SignupErrorAsWritten` | `JournalApp.SignupError` |
