# Appointment-reminder job: a Dafny model

This project models the core of a scheduled job that sends appointment
reminders for a fixed list of salon accounts ("clients"). It covers two parts.

**The authentication service.** `AuthService` caches a bearer token, which
starts out `null`. `signIn` validates the reply to the sign-in POST and stores
the token only if all three checks pass. `getAuthHeaders` signs in lazily, and
only when no token is cached. Every authenticated request resolves its URL
against the base URL and merges the caller's headers over the auth headers.

**The reminders handler.** The handler signs in once. Then, for each client in
order, it:

1. fetches the reminder-eligible bookings;
2. groups them into a dictionary keyed by booking id, built in place;
3. dispatches one message per group (modelled as an opaque step);
4. posts every fetched booking id to the mark-sent endpoint.

A client that throws gets an entry `{success: false, error}` in the outcome map,
and the loop moves on to the next client. Once sign-in has succeeded, the handler
always answers 200 with message `"ok"`. It answers 500 with
`authenticated: false` only when sign-in fails.

Files:

- `results.dfy` (module `Results`): Option, Result and Outcome.
- `auth_service.dfy` (module `Auth`): the sign-in validator, the `AuthService`
  class (its `accessToken` field is updated in place by its methods), and URL
  and header composition.
- `booking_map.dfy` (module `BookingMap`): the grouping loop. It is proved
  against a reference definition of a group (`WithId`: the bookings with a given
  id, in input order), and the partition lemmas are proved about that definition.
- `reminder_cron.dfy` (module `ReminderCron`): one client's step, the client
  loop, the response envelopes, and the properties of the handler's answer and
  of the requests it issues.

Everything that touches the outside world is a parameter:

- the sign-in reply, or the HTTP client's transport error;
- for each client, the reply to the fetch, how its dispatches settle, and how the
  mark-sent POST settles;
- the `API_BASE_URL` value;
- the timestamp.

An authenticated request yields the request record (URL, method, headers, body)
that would be handed to the HTTP client. The handler returns the list of those
records alongside its answer.

The handler's source file does not parse as written: it has an empty `if()`,
`response` is declared twice, and a stray `;` sits in an object literal. The
model follows the evident intent: fetch, group, dispatch as an opaque step, then
mark as sent with all ids.

The intended design of the job differs from its code in several places, and the
model follows the code:

- The intended design groups bookings by customer id; the code groups them by
  the booking's own `id`.
- The intended design visits groups in first-seen order; the code visits them in
  `Object.keys` order. The model keeps the groups in a map and promises no order.
- `response.data` is used as the booking list directly. A falsy value becomes
  `[]`. A truthy value that is not an array makes `forEach` throw, which fails
  that client.
- The intended design checks the fetch status; the code never does. The status of the mark-sent reply is never
  checked either.
- The intended design marks bookings with a PATCH; the code sends a POST. It is still sent when the fetched
  list is empty, with an empty id list.
- The intended design fetches settings and fills message templates; the code
  does neither.
- The intended design reports failed clients as a job-level error; the code
  still answers 200.

## Model

| member | source | states |
|---|---|---|
| `Auth.BaseUrlFrom` | src/services/authService.js:12-13 | A set, non-empty `API_BASE_URL` is used as is; an unset or empty one falls back to an absolute default URL; the base URL is never empty |
| `Auth.Decimal` | src/services/authService.js:46 | The status code in the error message is a non-empty string of decimal digits with no leading zero: a single digit exactly when the code is below 10 |
| `Auth.DecimalDenotes` | src/services/authService.js:46 | The rendered digits denote the status code itself, so together with the absence of a leading zero the rendering is the code's usual decimal form |
| `Auth.CheckSignIn` | src/services/authService.js:43-67 | The reply is accepted iff status is exactly 200, `success` is truthy and the access token is non-empty, and then the token is returned; each rejection carries the source's message: status and status text, the reply's message or "Unknown error", or "Access token not found in response" |
| `Auth.SignInResult` | src/services/authService.js:25-72 | A transport error of the sign-in POST is rethrown unchanged; a reply is accepted or rejected exactly as `CheckSignIn` decides, with its message; an accepted sign-in always yields the reply's non-empty token |
| `Auth.AuthHeaders` | src/services/authService.js:82-85 | The auth headers are exactly `Authorization: "Bearer " + token` and `Content-Type: application/json` |
| `Auth.ResolveUrl` | src/services/authService.js:97-99 | An endpoint starting with "http" is used verbatim, any other is appended to the base URL; the endpoint is always a suffix of the URL, and an absolute base gives an absolute URL |
| `Auth.ResolveUrlIdempotent` | src/services/authService.js:97-99 | Against an absolute base URL, resolving an already resolved URL changes nothing |
| `Auth.MergeHeaders` | src/services/authService.js:101-107 | Caller headers win on every colliding key, auth headers are kept on every other key, the key set is the union, and absent caller headers leave the auth headers unchanged |
| `Auth.ShapeRequest` | src/services/authService.js:97-112 | The request handed to the HTTP client keeps the caller's method and body, has the `ResolveUrl` URL (the endpoint itself when it starts with "http", otherwise the base URL followed by the endpoint, so it always ends in the endpoint), and carries the `MergeHeaders` merge of the auth headers with the caller's (exactly the auth headers when the caller passes none) |
| `Auth.ShapedRequestAuthorization` | src/services/authService.js:101-107 | A shaped request carries `Bearer <token>` unless the caller supplies `Authorization`, in which case the caller's value replaces it |
| `Auth.AuthService.constructor` | src/services/authService.js:10-18 | A new service holds no token and takes its base URL from the environment rule |
| `Auth.AuthService.SignIn` | src/services/authService.js:25-72 | Returns the validation result of the reply; the token field is set to the returned token on success and left unchanged on every failure |
| `Auth.AuthService.GetAuthHeaders` | src/services/authService.js:78-86 | With a cached token: no sign-in, token unchanged, headers built from it; without one: signs in, stores and uses the new token, or rethrows the sign-in error with the token unchanged |
| `Auth.AuthService.AuthenticatedRequest` | src/services/authService.js:94-117 | The request carries the resolved URL, the caller's method and body, and the merged headers around the cached or freshly obtained token; a sign-in failure is rethrown |
| `Auth.TokenIsReused` | src/services/authService.js:78-86 | After a first call that produced headers, a second call produces the same headers whatever the second sign-in reply would have been |
| `BookingMap.IdsEmpty` | src/handlers/reminderCron.js:38-46 | A booking list yields no group exactly when it is empty, so an empty list creates zero dispatch promises |
| `BookingMap.WithId` | src/handlers/reminderCron.js:38-44 | A group holds only bookings of the input, all with the group's id, and is no longer than the input |
| `BookingMap.WithIdConcat` | src/handlers/reminderCron.js:38-44 | The group of a concatenation is the concatenation of the groups, so appending with `push` keeps relative input order |
| `BookingMap.WithIdMembership` | src/handlers/reminderCron.js:39-43 | A booking is in the group of `k` iff it is in the input and its id is `k` |
| `BookingMap.WithIdNonEmpty` | src/handlers/reminderCron.js:39-43 | The group of `k` is non-empty iff `k` occurs as an id in the input |
| `BookingMap.WithIdCountsOccurrences` | src/handlers/reminderCron.js:38-44 | Partition: every occurrence of a booking is in the group of its own id, with its multiplicity, and in no other group |
| `BookingMap.GroupingStep` | src/handlers/reminderCron.js:39-43 | Appending a booking to its existing group, or starting a new group, turns the grouping of a prefix into the grouping of the longer prefix |
| `BookingMap.GroupById` | src/handlers/reminderCron.js:36-44 | The in-place loop builds a map whose keys are exactly the ids that occur and whose entry for each id is that id's group in input order; every entry is non-empty |
| `ReminderCron.CronUrlsAreAbsolute` | src/handlers/reminderCron.js:28-63 | The fetch and mark-sent URLs are absolute, so URL resolution returns them unchanged for every base URL |
| `ReminderCron.BookingListOf` | src/handlers/reminderCron.js:35-38 | A falsy `response.data` becomes the empty list, an array is used as is, and any other truthy value makes `forEach` throw its TypeError |
| `ReminderCron.MarkSentIds` | src/handlers/reminderCron.js:60 | The mark-sent list has exactly one id per fetched booking |
| `ReminderCron.MarkSentIdsAt` | src/handlers/reminderCron.js:60 | The mark-sent list keeps the fetched order: its i-th id is the id of the i-th fetched booking |
| `ReminderCron.MarkSentIdsCountGroup` | src/handlers/reminderCron.js:38-61 | Each id occurs in the mark-sent list as often as its group has bookings, so duplicates are included |
| `ReminderCron.MarkSentIdsAreGroupKeys` | src/handlers/reminderCron.js:38-61 | The ids in the mark-sent list are exactly the keys of the booking map |
| `ReminderCron.ClientFailure` | src/handlers/reminderCron.js:25-73 | A client succeeds iff its fetch succeeds, the data is falsy or an array, dispatch settles (or there is nothing to dispatch) and the mark-sent call settles; the recorded message is that of the first step that threw: the fetch error, the `forEach` TypeError, the dispatch rejection or the mark-sent rejection |
| `ReminderCron.ClientRequests` | src/handlers/reminderCron.js:28-63 | A client issues the fetch GET first, then at most the mark-sent POST whose body lists every fetched id; every request carries exactly the auth headers; the mark-sent POST is issued iff the fetch succeeded, the list is usable and dispatch settled (or there was nothing to dispatch), so a rejected dispatch suppresses it and a settled one issues it even if it then fails |
| `ReminderCron.EmptyFetch` | src/handlers/reminderCron.js:35-63 | A falsy or empty fetched list creates no group and no dispatch; the mark-sent POST is still sent, with an empty list, and only its failure can fail the client |
| `ReminderCron.ProcessClient` | src/handlers/reminderCron.js:25-73 | One loop iteration records exactly the client's failure and issues exactly that client's requests, with the cached token left unchanged |
| `ReminderCron.FailuresOf` | src/handlers/reminderCron.js:22-74 | After the loop, a client has an entry iff it is in the list and failed, and that entry is `{success: false, error: <its message>}`; a succeeding client adds no key |
| `ReminderCron.LoopRequests` | src/handlers/reminderCron.js:24-74 | Every client's fetch is issued, even after earlier clients failed, and every request carries the auth headers of the one token |
| `ReminderCron.LoopStep` | src/handlers/reminderCron.js:24-74 | One more iteration adds that client's entry (if it failed) to the outcome map and appends its requests to the request log |
| `ReminderCron.FailureIsolation` | src/handlers/reminderCron.js:67-73 | A client's entry depends only on what the network did for that client, so other clients' failures cannot change it |
| `ReminderCron.RunClientLoop` | src/handlers/reminderCron.js:22-74 | The sequential loop over the fixed client list produces exactly the outcome map `FailuresOf` and request log `LoopRequests`, with the token unchanged |
| `ReminderCron.HandlerResponse` | src/handlers/reminderCron.js:76-106 | Status is 200 iff sign-in succeeded and 500 otherwise. A 500 answer has message "error", `authenticated: false`, the sign-in error and no reminders. A 200 answer has message "ok", `authenticated: true` and an entry `{success: false, error}` with its own failure message for exactly the failing clients. Both carry the JSON and CORS headers, the client list and the given timestamp |
| `ReminderCron.OkDespiteClientFailures` | src/handlers/reminderCron.js:76-89 | With a valid sign-in the answer is 200 "ok" whatever happened to the clients |
| `ReminderCron.Handler` | src/handlers/reminderCron.js:7-108 | The handler's answer is the specified one; after a failed sign-in no client request is issued; otherwise it issues exactly the loop's requests |

## Left out

- HTTP transport, response streaming, timeouts, `JSON.parse` and the HTTP client's default headers (src/utils/httpClient.js): I/O. Replies are parameters, and a request is modelled by the record that would be sent.
- The sign-in request itself (POST to the base URL plus `/auth/signIn`, the credentials body, its 15-second timeout): it is I/O, and the credentials come from the environment. Only its reply is modelled.
- Reading the environment (`dotenv`, `AUTH_EMAIL`, `AUTH_PASSWORD`): the base URL is a parameter, and an unset variable is represented by "".
- `ApiService`: it only delegates, so the model calls `AuthService` directly. `getUserProfile`, `getStores` and `directRequest` are plain network calls.
- The Twilio wrapper and the unfinished dispatch body: dispatch is an opaque step whose outcome is a parameter. The wrapper only builds the message options (the `whatsapp:` prefix, a fixed content template and an optional `contentVariables`) and hands them to the Twilio client, which is I/O.
- ReminderCron.ClientFailure: a client's dispatch is one settled outcome of the `Promise.all`, consulted only when at least one group exists. Per-group outcomes, concurrency, and which rejection comes first are not modelled.
- `Object.keys` order of the groups: dispatch is opaque, so nothing in the model depends on it.
- Booking ids are integers. The coercion of JavaScript object keys to strings is not modelled, and neither are non-numeric or missing ids.
- Sign-in bodies are reduced to truthiness: a missing or empty `message` or token is "". A body that is not an object behaves as `success` false. A `null` body, which would throw a TypeError instead, is not modelled.
- `Booking` is always an object: a `null` or `undefined` element of the fetched array, which would throw a TypeError at `booking.id` and fail that client, is not modelled.
- Request options other than method, headers and body (for example `timeout`, or a `url` key that would override the resolved URL) are not modelled.
- `console` logging and `JSON.stringify` of the response body: the body is a datatype. `new Date().toISOString()` is a parameter.
- Message templating, deduplicating dates and contacts, phone normalisation, time-zone date formatting and fetching settings: the handler has no code for them.
