# Event management platform: stores, token gate and form logic in Dafny

This project models the logic of a small event-listing application: an
Express backend holding users and events in two in-memory arrays, with
bcrypt-hashed passwords and JSON Web Token (RFC 7519) sessions presented as
`Authorization: Bearer <token>` (the scheme of section 2.1 of RFC 6750,
matched case-sensitively here), and a Next.js frontend whose dashboard
filters the fetched events and whose create page validates a form before
calling the API.

Modules, one per file:

- `Wrappers` (`wrappers.dfy`): `Option`.
- `Text` (`text.dfy`): ASCII `toLowerCase`, `startsWith`, `includes`, and the case-insensitive test that both event filters use.
- `Sequences` (`sequences.dfy`): `Array.prototype.filter` and `find`, with lemmas: filtering keeps order, fuses, commutes, and keeps everything when nothing fails the test.
- `Records` (`records.dfy`): the `User` and `Event` records, the `Reply` a handler sends (status plus body, or status plus `error`), and the title and location match predicates.
- `Tokens` (`tokens.dfy`): `generateToken` and `authMiddleware` over an abstract `Jwt` value (`sign`, `verify`).
- `Credentials` (`credentials.dfy`): the `users` array as class `UserStore`, with `Register` (which changes the store) and `Login` (which only reads it), over an abstract `Bcrypt` value (`hash`, `compare`).
- `Events` (`events.dfy`): the `events` array as class `EventStore`, with `List` (optional location filter), `Get` (by id) and `Create`.
- `Dashboard` (`dashboard.dfy`): `filterEvents`, the frontend title and location filter, against a one-pass reference definition `Visible`.
- `CreateEventForm` (`create_event_form.dfy`): the form record, `handleChange`, JavaScript `parseInt`, and the validation and submit steps of `handleSubmit`.

The cryptographic primitives are values with function fields, so nothing is
assumed about them globally. The facts a proof needs are stated as
preconditions of the lemmas that use them:

- `AcceptsOwnHash(b, p)`: bcrypt accepts a password against its own hash.
- `IssuedTokensVerify(jwt, c)`: a token just issued for `c` verifies to `c`, which holds while the token has not expired.

`uuidv4()` becomes a `freshId` parameter. The store methods require that it is
not already in use, so that ids stay unique.

Three behaviours of the code a reader might not expect:

- A duplicate email is answered with status 400 and "User already exists", the same status as missing fields. There is no distinct conflict status.
- The backend create route refuses only a falsy `maxParticipants`. A negative number passes (`Events.NegativeCapacityAccepted`), so stored events with a numeric `maxParticipants` satisfy `maxParticipants != 0`, not `> 0`. Only the frontend form insists on a positive number.
- Login with a missing email or password answers 400 "Email and password are required". Only an unknown email or a wrong password gives 401 "Invalid credentials", and those two cases give the same reply.

## Model

| member | source | states |
|---|---|---|
| `Text.Lower` | backend/src/routes/events.ts:20 | `toLowerCase` keeps the length, maps each character to its lower-case form, leaves no upper-case ASCII letter behind and changes no other character (also used at frontend/src/app/dashboard/page.tsx:45 and 51) |
| `Text.Includes` | backend/src/routes/events.ts:20 | the case-insensitive test holds exactly when the lower-cased needle occurs at some position of the lower-cased haystack (the same test as frontend/src/app/dashboard/page.tsx:45 and 51) |
| `Text.StartsWith` | backend/src/middleware/authMiddleware.ts:21 | `startsWith` holds exactly when the prefix is no longer than the string and agrees with it character by character, and then the string is the prefix followed by the rest |
| `Text.ContainsIffOccurs` | backend/src/routes/events.ts:20 | `includes` holds exactly when the needle occurs at some position of the haystack |
| `Text.CaseInsensitive` | backend/src/routes/events.ts:20 | lower-casing either side first does not change the outcome of the case-insensitive match |
| `Text.LocationExample` | backend/src/routes/events.ts:18-21 | the filter `lon` matches the location `London` and does not match `Paris` |
| `Sequences.Filter` | backend/src/routes/events.ts:19-21 | every kept element is in the input and passes the test; every value of the input that passes appears in the result; the result is no longer than the input |
| `Sequences.FilterCount` | backend/src/routes/events.ts:19-21 | a value that passes the test occurs in the result exactly as many times as in the input, and a value that fails does not occur at all |
| `Sequences.FilterIsSubsequence` | backend/src/routes/events.ts:19-21 | the filter result is a subsequence of its input, so the stored order is kept |
| `Sequences.Find` | backend/src/routes/auth.ts:23 | nothing is found exactly when no element passes; otherwise the result is the first element that passes |
| `Sequences.FilterCommutes` | frontend/src/app/dashboard/page.tsx:43-53 | applying two filters in either order gives the same list |
| `Records.Falsy` | backend/src/routes/auth.ts:17 | a string field of the request body is falsy exactly when it is missing or the empty string (the same test at backend/src/routes/auth.ts:61 and for the four text fields at backend/src/routes/events.ts:53) |
| `Tokens.GenerateToken` | backend/src/middleware/authMiddleware.ts:39-41 | whenever a freshly issued seven-day token for the `{id, email}` claims verifies, the token returned verifies to exactly those claims |
| `Tokens.BearerToken` | backend/src/middleware/authMiddleware.ts:21-26 | a token is extracted exactly when the header is present and starts with `Bearer `, and the header is `Bearer ` followed by the token (the first 7 characters dropped) |
| `Tokens.Authenticate` | backend/src/middleware/authMiddleware.ts:19-36 | a request passes exactly when the bearer token verifies, and then as the decoded claims; a missing or non-`Bearer ` header gives 401 "No token provided"; a token that fails verification gives 401 "Invalid token" |
| `Tokens.AuthMiddleware` | backend/src/middleware/authMiddleware.ts:13-37 | on a pass `req.user` is set to the decoded claims and `next` is called once; on a refusal `req.user` is left as it was |
| `Tokens.IssuedTokenAuthenticates` | backend/src/middleware/authMiddleware.ts:21-41 | the header `Bearer ` + `generateToken(c)` lets the request through as `c` |
| `Tokens.LowerCaseSchemeRefused` | backend/src/middleware/authMiddleware.ts:21-24 | the scheme is case-sensitive: `bearer <token>` gives "No token provided" |
| `Credentials.LoginOutcome` | backend/src/routes/auth.ts:57-93 | a missing or empty field gives 400; every other failure is the same 401 "Invalid credentials", for an unknown email and for a wrong password alike; a success is status 200 for a stored user with that email whose hash accepts the password, and carries only that user's id and email and a token for them |
| `Credentials.LoginSucceedsIff` | backend/src/routes/auth.ts:66-78 | with unique emails, login succeeds exactly when some stored user has the email and a hash that accepts the password |
| `Credentials.AppendKeepsEmailsUnique` | backend/src/routes/auth.ts:23-39 | appending a user whose email is not yet stored keeps all emails distinct |
| `Credentials.LoginAfterRegister` | backend/src/routes/auth.ts:30-89 | after a successful register of (email, password) with id `id`, logging in with the same pair returns status 200 with user `{id, email}` |
| `Credentials.UserStore.constructor` | backend/src/routes/auth.ts:10 | the store starts empty |
| `Credentials.UserStore.Register` | backend/src/routes/auth.ts:13-54 | a missing or empty field gives 400 "Email and password are required" and an exact duplicate email gives 400 "User already exists", both leaving the store unchanged; otherwise exactly one user `{freshId, email, hash(password, 10)}` is appended, the reply is 201 with that user's id and email and a token for them, and emails and ids stay unique |
| `Credentials.UserStore.Login` | backend/src/routes/auth.ts:57-93 | login answers as `LoginOutcome` on the current users and changes nothing |
| `Credentials.RegisterTwiceThenLogin` | backend/src/routes/auth.ts:13-93 | registering the same email twice: the first succeeds and the second gets "User already exists"; a login then returns the registered user, and both tokens verify to that user |
| `Events.LocationFilter` | backend/src/routes/events.ts:14-18 | the location filter is in force exactly when the query value is a non-empty string |
| `Events.AllFieldsPresent` | backend/src/routes/events.ts:53 | the create guard passes exactly when title, description, location and date are each present and non-empty and `maxParticipants` is present and not 0 |
| `Events.NegativeCapacityAccepted` | backend/src/routes/events.ts:53-64 | the create guard lets a negative `maxParticipants` through; only a zero or missing one is refused |
| `Events.EventStore.constructor` | backend/src/routes/events.ts:9 | the store starts empty |
| `Events.EventStore.List` | backend/src/routes/events.ts:12-28 | with no filter in force the reply is every event in stored order; with a filter it is the stored list filtered by the case-insensitive location match: a subsequence of the stored events holding every event whose location includes the filter and no other; every event occurs in the reply as many times as in the store when it matches, and not at all otherwise |
| `Events.EventStore.Get` | backend/src/routes/events.ts:31-46 | 404 "Event not found" exactly when no stored event has the id; otherwise 200 with a stored event carrying that id |
| `Events.EventStore.Create` | backend/src/routes/events.ts:49-74 | a falsy title, description, location, date or `maxParticipants` gives 400 "All fields are required" and leaves the store unchanged; otherwise exactly one event with the given fields, `freshId` and `currentParticipants` 0 is appended and returned with 201 |
| `Events.CreateThenListByLocation` | backend/src/routes/events.ts:12-74 | an event just created has nobody signed up yet and is listed under a filter that differs from its location only in letter case |
| `Dashboard.Visible` | frontend/src/app/dashboard/page.tsx:40-56 | an event is shown exactly when it matches the title search (if non-empty) and the location filter (if non-empty), case-insensitively; each shown event occurs as many times as in the fetched list |
| `Dashboard.VisibleIsSubsequence` | frontend/src/app/dashboard/page.tsx:41-55 | the shown list is a subsequence of the fetched list: nothing added, order kept |
| `Dashboard.NoFilterShowsAll` | frontend/src/app/dashboard/page.tsx:41-49 | with both inputs empty every fetched event is shown, in order |
| `Dashboard.LocationFirstSameResult` | frontend/src/app/dashboard/page.tsx:43-53 | filtering by location first and by title second gives the same list |
| `Dashboard.DashboardPage.constructor` | frontend/src/app/dashboard/page.tsx:12-15 | the page starts with no events and empty inputs |
| `Dashboard.DashboardPage.FilterEvents` | frontend/src/app/dashboard/page.tsx:40-56 | the two filters applied one after the other store exactly the one-pass `Visible` list, and nothing else in the page changes |
| `CreateEventForm.WithField` | frontend/src/app/dashboard/events/new/page.tsx:25-30 | the named field takes the new value and every other field keeps its value |
| `CreateEventForm.CreateEventPage.HandleChange` | frontend/src/app/dashboard/events/new/page.tsx:25-30 | the form state becomes the field-wise update of the previous state |
| `CreateEventForm.ParseInt` | frontend/src/app/dashboard/events/new/page.tsx:42 | `parseInt` yields a number only when the text holds a decimal digit, and a text that starts with a decimal digit not followed by `x` or `X` always yields a non-negative number |
| `CreateEventForm.ParseDecimalPrefix` | frontend/src/app/dashboard/events/new/page.tsx:42 | `parseInt` reads back the decimal rendering of a number and ignores what follows its digits |
| `CreateEventForm.Validate` | frontend/src/app/dashboard/events/new/page.tsx:36-57 | any empty field gives "All fields are required" (so an empty capacity is a missing field, not a bad number); a filled form is accepted exactly when the capacity parses to a positive integer, else "Max participants must be a positive number"; the payload carries the four text fields unchanged and the parsed capacity |
| `CreateEventForm.PositiveDecimalAccepted` | frontend/src/app/dashboard/events/new/page.tsx:37-57 | a filled form whose capacity is the decimal rendering of a positive `n` is sent with capacity `n` |
| `CreateEventForm.FailureMessage` | frontend/src/app/dashboard/events/new/page.tsx:59-60 | the shown error is the server's error text when it sent a non-empty one, and "Failed to create event" otherwise |
| `CreateEventForm.CreateEventPage.constructor` | frontend/src/app/dashboard/events/new/page.tsx:15-23 | the form starts with five empty fields, no error and not loading |
| `CreateEventForm.CreateEventPage.HandleSubmit` | frontend/src/app/dashboard/events/new/page.tsx:32-64 | the error is cleared first; a rejected form shows the validation error, makes no create call and leaves `loading` alone; an accepted form sends exactly the validated payload and ends not loading, then either moves to the dashboard with no error or shows the failure message |

## Left out

- bcrypt internals and salting: `Bcrypt.hash` is a deterministic function of password and rounds, so two hashes of one password are equal in the model, while the real salt makes them differ.
- JWT cryptography, the signing secret and its hard-coded fallback, and the wall-clock expiry check: `Jwt.verify` decides alone, and the `iat`/`exp` fields that `jwt.verify` adds to `req.user` are not modelled.
- `uuidv4()` randomness: ids are parameters, and their freshness is a precondition.
- The 500 "Internal server error" branches. A throwing bcrypt or JWT call is outside the abstract primitives. A request body can also reach them: the create guard accepts any truthy `location`, so a non-string one (a number, an array) is stored, and from then on `event.location.toLowerCase()` throws and every location-filtered list answers 500. The model stores only string locations, so it does not show this.
- Request body fields of non-string type for email, password and the event text fields: a field is a string or missing.
- `Number(maxParticipants)` and `NaN`: the backend's `maxParticipants` is taken as an integer or missing, and falsy means missing or 0. A truthy string is converted after the guard, so `"0"` and `" "` pass the guard and are stored as 0, and `"abc"` passes and is stored as `NaN`. `Events.EventStore.Valid` (`maxParticipants != 0`) holds only for a numeric `maxParticipants`.
- `toLowerCase` is ASCII-only: non-ASCII letters are compared as they are.
- `parseInt` on numbers beyond 2^53 is exact in the model, whereas JavaScript rounds them to a double. `parseInt("-0")` is 0 here rather than -0; both are refused as not positive.
- Express wiring, CORS, `listen`, the health route, and the HTTP plumbing in `backend/src/index.ts`: handler outcomes are `Reply` values.
- `frontend/src/lib/api.ts` (axios client, token interceptor), the sign-in and sign-up pages (including the `password !== confirmPassword` check), the landing page and the dashboard layout. These are user interface and network code.
- `fetchEvents`, the dashboard's loading and error state, and the `useEffect` triggers. `router.push` is the `navigated` result of `HandleSubmit`, and `eventAPI.create` is the `sent` payload together with the `CreateCall` outcome given as a parameter.
- `handleChange` only for the five named inputs: the page has no other input, so a spread that adds a new key cannot happen.
- Concurrency and `async` interleaving: every handler runs to completion before the next one starts. This serialisation is what makes email uniqueness true. `register` awaits `bcrypt.hash` (backend/src/routes/auth.ts:30) between the duplicate check (line 23) and `users.push` (line 39), so two overlapping registrations of one email both succeed in the real server. `Credentials.UserStore.Valid` and the `UniqueEmails` precondition of `Credentials.LoginSucceedsIff` hold only under this serialisation.
- `Events.EventStore.Get`: states that the returned event is a stored one with the id, not that it is the first such; with the store's unique-id invariant there is only one.
- `Tokens.AuthMiddleware`: "`next` is called exactly once" is represented by the single `Next` verdict the method returns, not by counting calls.
