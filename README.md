# Horse-race analysis service: route handlers and sign-in, modelled in Dafny

This project models the server side of a Next.js web application. A signed-in user
saves an encrypted provider API key, submits a race name for analysis, and polls for
the result. The analysis runs in the background: one call to a language-model
provider, followed by a best-effort extraction of a JSON object from the reply. Users
sign up or register with email verification and sign in with a username and password.
All state lives in a managed Redis-style key-value store (`@vercel/kv`).

The model covers these pieces:

- `/api/analyze`: submission (POST), the background run (`analyzeRace`) and polling
  (GET) of an analysis job. The job record goes from `pending` to `processing`, then
  to `completed` or `error`.
- `/api/api-keys`: viewing the saved key masked (GET) and saving it encrypted (POST).
- `/api/api-keys/test`: decrypting the key, listing the provider's models and stamping
  the record as verified.
- `/api/auth/signup` and `/api/auth/register`: two account-creation routes. Each
  writes a user record, an email-to-id mapping and a 24-hour verification token.
- `/api/auth/verify-email`: consumes a token and marks its user verified.
- `src/lib/auth.ts`: the credentials provider's `authorize`, and the `jwt` and
  `session` callbacks.

## How it is built

- **Values.** `JsValues` models the JavaScript values the handlers see. Objects are
  lists of properties in the order they were added. `Object.keys`, as `authorize`
  uses it, lists the array-index names ("0", "1", ...) first in ascending numeric
  order and then the other names in that order (`Auth.Keys`). The module also gives
  truthiness, `x?.k`, `{...x}`, property assignment, `String(x)` and the numeric
  comparison with coercion.
- **Store.** `KvStore` models the store as a class. Its `entries` field maps each key
  to a string value (`kv.set`/`kv.get`) or a hash (`kv.hset`/`kv.hgetall`). A command
  against a key of the other kind raises WRONGTYPE, as Redis does. A ghost `log` field
  records every completed write in order.
- **Handlers.** Each handler has two parts:
  - A specification function that returns an `Outcome`: the response plus the list of
    writes the request performs. Its contract states every error branch and what an
    accepted request writes.
  - A `method` that performs the reads and writes on the `Store` in the order the
    source does. Its contract ties the response, the new `entries` and the new `log`
    to that function.
- **Cross-request properties.** The lemmas in `Flows` connect requests to one another:
  what a later request sees of the writes of an earlier one.
- **Sign-in.** The sign-in callbacks mutate the token and the session in place, so
  they are classes with `modifies` clauses.

The code is followed where it differs from the documented design of the job lifecycle:

- The failed status is stored as `'error'`, not `failed`.
- Field names are `race_name`, `user_id` and `session_id`.
- A key that cannot be decrypted gives 500, not 400. Only a missing key gives 400.
  Both carry the `api_key_error` tag.
- A failed job records only the exception's message, with no credential-specific
  tag.
- The parse fallback stores `{error, raw_text}` as the job's `result`.
- The ownership check happens before the status is examined. An `error` record gives
  500 with its message; `pending`/`processing` give 202; any other status gives 200
  with the result spread in.

## Model

| member | source | states |
|---|---|---|
| `Http.CallerId` | src/app/api/analyze/route.ts:37-43 | the caller's id is usable exactly when the session has a user whose `id` is a non-empty string |
| `AnalyzeRoute.PhaseOf` | src/app/api/analyze/route.ts:249-261 | a record's phase is the one whose status name it stores; when it names none, no phase name matches |
| `AnalyzeRoute.PhaseOfName` | src/app/api/analyze/route.ts:249-261 | a record whose `status` is a phase's name is in that phase (the four names are distinct) |
| `AnalyzeRoute.JobMembersLookups` | src/app/api/analyze/route.ts:186-203 | every record the route writes has its race name, owner and status; it has `result` only when completed and `error` only when failed |
| `AnalyzeRoute.JobRecord` | src/app/api/analyze/route.ts:113-118 | a written record is well-formed: owner, race name and phase as given; result iff completed, error iff failed |
| `AnalyzeRoute.PendingRecord` | src/app/api/analyze/route.ts:81-86 | the submission record is a well-formed `pending` record owned by the submitter |
| `AnalyzeRoute.SubmitOutcome` | src/app/api/analyze/route.ts:25-104 | 401 without a session; 500 without a user id or for a body that is not JSON or is null; 400 without a truthy race name; 500 on a store error reading the credential; 400 `api_key_error` when no key is stored; 500 `api_key_error` when the stored key decrypts to "". Otherwise the job is started with the hex text of the 16 random bytes as id, the race name, the decrypted stored key and the caller. Every rejection writes nothing and starts no job; an acceptance writes exactly one pending record under that 32-digit id and returns the id |
| `AnalyzeRoute.Submit` | src/app/api/analyze/route.ts:25-104 | the handler's response, the job it starts, and the store and log after it are those `SubmitOutcome` gives |
| `AnalyzeRoute.FirstIndexOf` | src/app/api/analyze/route.ts:170 | the position of the first occurrence of a character, or none when it does not occur |
| `AnalyzeRoute.LastIndexOf` | src/app/api/analyze/route.ts:170 | the position of the last occurrence of a character, or none when it does not occur |
| `AnalyzeRoute.ExtractJson` | src/app/api/analyze/route.ts:170-175 | `/\{[\s\S]*\}/` matches iff some `{` precedes some `}`; the match runs from the leftmost `{` to the last `}` after it (leftmost start, greedy body) |
| `AnalyzeRoute.AnalysisResult` | src/app/api/analyze/route.ts:165-183 | the parsed block when there is one and it parses; otherwise the fallback with the raw text (a parse failure is not a job failure) |
| `AnalyzeRoute.ProcessingRecord` | src/app/api/analyze/route.ts:113-118 | the start-of-run record is a well-formed `processing` record with the job's owner and race |
| `AnalyzeRoute.FinalRecord` | src/app/api/analyze/route.ts:185-203 | an answered call ends `completed` with the analysis result; a raised call ends `error` with the message (or '不明なエラー') and no result |
| `AnalyzeRoute.RunWrites` | src/app/api/analyze/route.ts:107-205 | a run writes twice, both times to the job's key: first the processing record, then the final one |
| `AnalyzeRoute.RunKeepsOwnershipAndAdvances` | src/app/api/analyze/route.ts:107-205 | every record a run writes keeps the job's owner and race; the statuses climb strictly from pending; the last is terminal, and it is `completed` iff the provider answered |
| `AnalyzeRoute.Run` | src/app/api/analyze/route.ts:107-205 | `analyzeRace` leaves the store and log exactly as `RunWrites` says, processing before the provider call |
| `AnalyzeRoute.Poll` | src/app/api/analyze/route.ts:208-276 | 401 without a session; 400 without an id; 404 for a missing or falsy record; 403 when the stored owner is not the caller; otherwise the owner's view |
| `AnalyzeRoute.View` | src/app/api/analyze/route.ts:249-268 | by the stored `status`: 500 with the stored message or the default for 'error'; 202 with only `status` and `race_name` for 'pending' and 'processing'; otherwise 200 with the result's fields, `race_name` and `status` overriding them |
| `AnalyzeRoute.ViewOfJob` | src/app/api/analyze/route.ts:249-268 | the owner sees 500 with the stored error iff failed; 202 with only status and race name iff pending or processing; 200 with the result's fields iff completed, `race_name` and `status` overriding |
| `Credentials.KeyMaterial` | src/app/api/api-keys/route.ts:36 | the server secret when it is non-empty, the user id otherwise |
| `Credentials.DecryptApiKey` | src/app/api/api-keys/route.ts:34-45 | the result is non-empty exactly when the stored value is a string, a password is available, and the cipher accepts the ciphertext with a non-empty plaintext; every failure is "" |
| `Credentials.DecryptEncrypted` | src/app/api/api-keys/route.ts:24-45 | for any cipher that inverts its own encryption, decrypting an encrypted key gives back the key |
| `ApiKeysRoute.MaskApiKey` | src/app/api/api-keys/route.ts:13-21 | empty iff the key is empty; `****` for 1 to 8 characters; otherwise 12 characters: the first four, `****`, the last four |
| `ApiKeysRoute.MaskEqualIff` | src/app/api/api-keys/route.ts:13-21 | two keys mask alike exactly when both are empty, both are short, or both are long and share their first and last four characters |
| `ApiKeysRoute.MaskValue` | src/app/api/api-keys/route.ts:71-75 | `maskApiKey` applied to a stored value: "" for a falsy value, the string mask for a string, a raise (500) for a truthy boolean, number or object |
| `ApiKeysRoute.View` | src/app/api/api-keys/route.ts:48-85 | 401 without a session; 500 without an id or on a store error; otherwise 200 with `api_key_set`, the mask of the stored value and `last_verified` defaulting to "" |
| `ApiKeysRoute.ViewIntended` | src/app/api/api-keys/route.ts:70-77 | corrected GET: the mask is of the decrypted key |
| `ApiKeysRoute.ParseSaveRequest` | src/app/api/api-keys/route.ts:8-10 | accepted exactly when the body is an object whose `api_key` is a non-empty string, which is then the key |
| `ApiKeysRoute.SavedRecord` | src/app/api/api-keys/route.ts:125-128 | the saved record has exactly two members, the ciphertext as `api_key` and the given time as `updated_at`; no `last_verified` and no `status` survive |
| `ApiKeysRoute.SaveOutcome` | src/app/api/api-keys/route.ts:88-141 | 401, or 500 without an id or for a non-JSON body, or 400 for an invalid body, each writing nothing. Otherwise exactly one write of the caller's record, and the response masks the plaintext |
| `ApiKeysRoute.Save` | src/app/api/api-keys/route.ts:88-141 | the handler's response, store and log are those `SaveOutcome` gives |
| `ApiKeyTestRoute.IdText` | src/app/api/api-keys/test/route.ts:35 | the id as the template writes it; an absent id is "undefined" |
| `ApiKeyTestRoute.ModelLabelAlwaysAvailable` | src/app/api/api-keys/test/route.ts:68 | as written, the label is "Available" whatever the provider lists |
| `ApiKeyTestRoute.ModelLabelIntended` | src/app/api/api-keys/test/route.ts:68 | corrected label: "gpt-4o" iff the listing contains it, "Available" otherwise |
| `ApiKeyTestRoute.ModelLabelDiffers` | src/app/api/api-keys/test/route.ts:68 | the written and the intended labels differ exactly on listings that contain "gpt-4o" |
| `ApiKeyTestRoute.VerifiedRecord` | src/app/api/api-keys/test/route.ts:60-64 | the re-saved record keeps every other field and sets `last_verified` and `status: 'active'` |
| `ApiKeyTestRoute.TestOutcome` | src/app/api/api-keys/test/route.ts:22-77 | 401 without a session; 500 with the error text on a store error; 400 without a stored key; 500 when decryption gives ""; 500 with the provider's error text, writing nothing, when the listing fails; otherwise 200 and one write, of only the caller's record, with the model label |
| `ApiKeyTestRoute.Test` | src/app/api/api-keys/test/route.ts:22-77 | the handler's response, store and log are those `TestOutcome` gives |
| `Accounts.TokenRecord` | src/app/api/auth/register/route.ts:115-119 | the verification record names the user id, the email and the expiry |
| `Accounts.UserKeyIsNotVerificationKey` | src/app/api/auth/register/route.ts:98-119 | a user key never collides with a verification key |
| `Accounts.EmailKeyIsNotVerificationKey` | src/app/api/auth/register/route.ts:111-119 | an email mapping key never collides with a verification key |
| `Accounts.HexUserKeyIsNotEmailKey` | src/app/api/auth/register/route.ts:92-112 | the user key of a hex or UUID id never collides with an email mapping key |
| `Encoding.Hex` | src/app/api/auth/register/route.ts:92 | the hex text of n bytes has 2n lower-case hex digits |
| `Encoding.UnhexHex` | src/app/api/auth/register/route.ts:92-95 | hex text reads back to the bytes it was made from |
| `Encoding.HexInjective` | src/app/api/auth/register/route.ts:92-95 | different random bytes give different ids and tokens |
| `Encoding.Uuid` | src/app/api/auth/signup/route.ts:131 | `randomUUID` text: 36 characters, dashes at 8, 13, 18 and 23, version digit '4', variant digit in `89ab`, hex digits elsewhere |
| `VerifyEmailRoute.VerifiedUser` | src/app/api/auth/verify-email/route.ts:50-54 | the updated user keeps every other field, with `emailVerified: true` and `updatedAt` the current time |
| `VerifyEmailRoute.VerifyOutcome` | src/app/api/auth/verify-email/route.ts:7-70 | 400 without a token, or for an unknown or expired token; 500 when the token key or the user key holds a hash; 404 for a missing user. A known, unexpired token whose user is found writes exactly the verified user, then deletes the token, and answers 200; nothing else writes |
| `VerifyEmailRoute.Verify` | src/app/api/auth/verify-email/route.ts:7-70 | the handler's response, store and log are those `VerifyOutcome` gives |
| `VerifyEmailRoute.ExpiryBoundary` | src/app/api/auth/verify-email/route.ts:31-36 | a token is refused as expired exactly from the millisecond after `expires`; up to and including `expires` it is not refused with 400 |
| `VerifyEmailRoute.TokenIsOneShot` | src/app/api/auth/verify-email/route.ts:56-57 | after a successful verification, the same token is unknown |
| `SignupRoute.EmailShapedMatches` | src/app/api/auth/signup/route.ts:103 | a string of the positional shape is in the pattern's language |
| `SignupRoute.PatternShaped` | src/app/api/auth/signup/route.ts:103 | every string of the pattern's language has the positional shape |
| `SignupRoute.EmailShapedIff` | src/app/api/auth/signup/route.ts:103 | the positional check is exactly the language of `/^[^\s@]+@[^\s@]+\.[^\s@]+$/` |
| `SignupRoute.Check` | src/app/api/auth/signup/route.ts:81-110 | the checks in source order: a non-JSON or null body gives 500; a missing field gives 400; a password shorter than 8 gives 400; a bad email gives 400; otherwise the request passes |
| `SignupRoute.PasswordLengthBoundary` | src/app/api/auth/signup/route.ts:94-100 | a string password is refused as too short exactly when it has fewer than 8 characters |
| `SignupRoute.UserHash` | src/app/api/auth/signup/route.ts:138-145 | the hash written for the user has exactly the six fields, with the new id, the email and `emailVerified: false` |
| `SignupRoute.Persist` | src/app/api/auth/signup/route.ts:147-164 | `hset` on a key holding a string raises: 500 and nothing written. Otherwise the three writes in order and 201 with the id |
| `SignupRoute.PersistAsWritten` | src/app/api/auth/signup/route.ts:147-164 | the writes as performed match `Persist` under the commands as written |
| `SignupRoute.SignupWith` | src/app/api/auth/signup/route.ts:76-184 | a rejected check writes nothing. A duplicate (as the chosen commands see it) gives 409. Otherwise a password that is not a string gives 500, and a string password leads to `Persist` with the UUID, the hex token and the hashed password: 500 if the user write fails, else the user record, the email-to-UUID mapping and a 24-hour token, and 201. Nothing else writes |
| `SignupRoute.Signup` | src/app/api/auth/signup/route.ts:76-184 | the handler's response, store and log are those `SignupWith` gives for the commands as written |
| `RegisterRoute.ParseRegistration` | src/app/api/auth/register/route.ts:11-15 | accepted exactly when the body is an object with a non-empty string `name`, an email string, and a string `password` of at least 8 characters |
| `RegisterRoute.UserRecordIdentity` | src/app/api/auth/register/route.ts:99-102 | the user record holds the new id, the name and the email |
| `RegisterRoute.UserRecordState` | src/app/api/auth/register/route.ts:103-109 | the record stores the password only as the salted hash and its salt, unverified, created now |
| `RegisterRoute.PasswordRecord` | src/app/api/auth/register/route.ts:103-106 | the password field holds the hash and the salt |
| `RegisterRoute.RegisterOutcome` | src/app/api/auth/register/route.ts:60-137 | 500 for a non-JSON body; 400 for an invalid one; 500 on a store error; 409 when the mapping is truthy. Otherwise the three writes and 200 with the id and `emailSent` |
| `RegisterRoute.AcceptedWrites` | src/app/api/auth/register/route.ts:85-119 | a 32-digit hex id and a 64-digit hex token. The user record is stored unverified, with a salted hash. The mapping gives that id. The token record names the same id and email and expires 86400000 ms later |
| `RegisterRoute.PersistRegistration` | src/app/api/auth/register/route.ts:98-119 | the three `kv.set` calls leave the store and log as `RegisterWrites` says |
| `RegisterRoute.Register` | src/app/api/auth/register/route.ts:60-137 | the handler's response, store and log are those `RegisterOutcome` gives |
| `Auth.ParseLogin` | src/lib/auth.ts:8-11 | accepted exactly when both `username` and `password` are non-empty strings, which are then the credentials |
| `Auth.Find` | src/lib/auth.ts:35-37 | `find` returns a match only at the first matching key. It finds none iff every user is non-null and none matches. It throws only if some user is null |
| `Auth.KeysOrder` | src/lib/auth.ts:35 | `Object.keys` lists every property name, the array-index names first in ascending numeric order, then the other names in the order they were added |
| `Auth.IndexNameSignsInFirst` | src/lib/auth.ts:35-56 | of two users with the same username under "b" then "1", the sign-in is as "1" |
| `Auth.UsersObject` | src/lib/auth.ts:32 | the stored `users` value when it is truthy, `{}` when it is missing or falsy, and a raise on a hash |
| `Auth.Authorize` | src/lib/auth.ts:21-61 | no sign-in for invalid credentials or a store error. A sign-in returns the first matching key in `Object.keys` order as id, the username as name and that user's email, and requires a truthy id and a string `password_hash` that the password matches |
| `Auth.FindStopsAtFirstMatch` | src/lib/auth.ts:35-37 | `find` stops at index i exactly when i is the first match and no earlier user is null |
| `Auth.FindThrowsBeforeMatch` | src/lib/auth.ts:35-37 | `find` does not throw when a match precedes every null user |
| `Auth.AuthorizeFirstMatch` | src/lib/auth.ts:21-61 | sign-in succeeds iff the first match in `Object.keys` order has a non-empty key and a string hash the password matches; no user with the name means no sign-in |
| `Auth.Jwt` | src/lib/auth.ts:71-76 | on sign-in `token.id` becomes the user's id and no other claim changes; otherwise the token is unchanged |
| `Auth.SessionCallback` | src/lib/auth.ts:77-82 | when the session has a user, its `id` becomes `token.id` (absent when the token has none) and no other field changes |
| `Auth.SignIn` | src/lib/auth.ts:71-82 | the id `authorize` returned reaches `session.user.id`; nothing else of the token or the session user changes |
| `Flows.PollStoredJob` | src/app/api/analyze/route.ts:231-261 | for a stored job record, the owner sees 202, 200 or 500 by phase; every other signed-in caller gets 403 whatever the phase |
| `Flows.SubmitThenPoll` | src/app/api/analyze/route.ts:78-96 | right after an accepted submission, the owner sees 202 `pending` with the race name and anyone else gets 403 |
| `Flows.PollPending` | src/app/api/analyze/route.ts:256-261 | a pending record shows its owner only status and race name, and refuses others |
| `Flows.RunThenPoll` | src/app/api/analyze/route.ts:107-205 | during a run the owner sees 202; afterwards 200 if the provider answered, 500 if it raised; others get 403 throughout |
| `Flows.SaveThenSubmit` | src/app/api/api-keys/route.ts:123-128 | a key saved through POST is the key a later submission decrypts and hands to the run |
| `Flows.SaveThenView` | src/app/api/api-keys/route.ts:70-77 | after a save, GET reports the key as set, with the mask of the ciphertext and `last_verified` "" |
| `Flows.SaveThenViewIntended` | src/app/api/api-keys/route.ts:130-133 | the corrected GET after a save shows exactly the mask the save returned |
| `Flows.SavedMaskIsNotShown` | src/app/api/api-keys/route.ts:75 | as written, GET after a save never shows the mask the save returned, for a hex ciphertext and a key starting with a non-hex character |
| `Flows.TestKeepsKey` | src/app/api/api-keys/test/route.ts:60-64 | a successful test keeps the ciphertext and stamps `last_verified` and `status` |
| `Flows.VerifyKnownToken` | src/app/api/auth/verify-email/route.ts:31-47 | with a known token: expired means 400; a user stored as a hash means 500; a user record means 200 with writes |
| `Flows.RegisterThenVerify` | src/app/api/auth/register/route.ts:114-119 | the token of an accepted registration verifies the new user up to 24 hours later, then is refused as expired |
| `Flows.VerifyThenVerifyAgain` | src/app/api/auth/verify-email/route.ts:49-57 | after verification the user is verified with every other field kept, and reusing the token gives 400 |
| `Flows.SignupStore` | src/app/api/auth/signup/route.ts:147-155 | after an accepted sign-up the mapping, the token and the user record are in the store |
| `Flows.SignupAgainstMapping` | src/app/api/auth/signup/route.ts:112-125 | against an existing string mapping, the sign-up as written does not answer 409 and goes on: 500 for a non-string password, otherwise, unless the new user key holds a string, the three writes and 201; with consistent commands it answers 409 |
| `Flows.SignupSecondTime` | src/app/api/auth/signup/route.ts:112-125 | as written, a second sign-up with the same email is not refused with 409; with consistent commands it is |
| `Flows.SignupThenVerify` | src/app/api/auth/signup/route.ts:149 | as written, the token of a sign-up always gives 500 at verification; with consistent commands it verifies within 24 hours |

## Left out

- Network failures and other transient store faults are not modelled. A store command
  either succeeds or raises WRONGTYPE; a dropped connection, which would end in each
  route's generic 500, is not represented.
- The provider calls are parameters: the completion result (`Completion`) and the
  model listing (`Listing`). `JSON.parse` is an abstract `parse` function.
- The prompt text is not modelled, and neither are the `model` and `temperature`
  arguments. They do not affect what the routes store or answer.
- Crypto is supplied as parameters of unknown behaviour:
  - AES-256-CBC (`Cipher`);
  - `bcrypt.hash` and `bcrypt.compare`;
  - `pbkdf2Sync`.
- Random bytes and clocks are parameters too. One `now` is used per request; the
  source reads `Date.now()` twice in some handlers, a few milliseconds apart.
- ISO time strings are parameters.
- Sending email is not modelled. Register reports the mailer's result as a boolean
  parameter. Signup's mailer swallows every failure and cannot change the answer.
- zod's email check is the abstract predicate `isEmail`. The error `details` object
  of a 400 response is not modelled.
- JSON numbers are integers. Floating point and NaN are out of scope.
- String lengths count characters where JavaScript counts UTF-16 code units, so
  characters outside the Basic Multilingual Plane are not modelled.
- `Below` treats strings and arrays as NaN: a numeric-looking string in `expires` or
  in a password's `length` is not coerced.
- Inherited properties are not modelled. A property read sees only an object's own
  members. `LengthOf` reads an object's own `length` member.
- `ApiKeysRoute.MaskValue`: an object stored as `api_key` is modelled as making
  `maskApiKey` raise. In JavaScript, an object with a small numeric `length` member
  would instead mask to `****`.
- An object body with two members of the same name is not modelled: `JSON.parse`
  keeps the last binding, the model's lookup finds the first.
- Concurrency is not modelled. The background run is a separate method (`Run`),
  started with the `Job` that `Submit` returns. Interleavings of two requests are
  modelled only one whole request after another (`Flows`).
- The session is a parameter (`Session`). How NextAuth issues and decodes it is not
  modelled, beyond the two callbacks.
- No route in the application writes the `users` key that `authorize` reads. The
  model takes whatever the store holds there.
- Page rendering, styling and the client-side variants of the analysis feature are
  not part of this model.
- `Flows.SignupSecondTime`: as written, the second sign-up is only stated not to answer
  409. Its full outcome depends on the store and the new id.
- `Flows.SavedMaskIsNotShown`: stated only for a key whose first character is not a hex
  digit (as with every `sk-` key) and a hex ciphertext of more than eight digits.
- `ApiKeysRoute.ViewIntended`: its contract covers only the case where the record is
  found. Every other branch is the same as in `ApiKeysRoute.View`.
- Object spread (`{...x}`) keeps the order in which the properties were added, where
  JavaScript puts array-index names first. This changes only the order of members
  in a serialised body or record, not what any property read gives.

## Findings

| source | as written | input that shows it | evidently intended | confidence | as-written member | corrected member |
|---|---|---|---|---|---|---|
| src/app/api/auth/signup/route.ts:114-125 | the duplicate check reads `user:email:{email}` with `kv.hgetall`, but every route writes that key with `kv.set`; the WRONGTYPE raise is caught and treated as "no such user" | sign up twice with the same email: the second request is not answered 409 | look the mapping up with `kv.get`, so an existing registration gives 409 | not executed | `Flows.SignupSecondTime` (with `SignupRoute.SignupWith` under `AsWritten`) | `Flows.SignupSecondTime` under `Consistent`: the second sign-up gives 409 |
| src/app/api/auth/signup/route.ts:149 | the user record is written with `kv.hset`, but verify-email reads `user:{id}` with `kv.get`, which raises on a hash | sign up, then open the emailed link within 24 hours: 500 | write the user with `kv.set`, as register does | not executed | `Flows.SignupThenVerify` under `AsWritten` (500) | `Flows.SignupThenVerify` under `Consistent` (200, user verified) |
| src/app/api/api-keys/test/route.ts:68 | `'gpt-4o' in array` tests whether "gpt-4o" is an index of the array, not an element | a listing `["gpt-4o"]`: the label is "Available" | "gpt-4o" whenever the provider lists it | not executed | `ApiKeyTestRoute.ModelLabelAlwaysAvailable` | `ApiKeyTestRoute.ModelLabelIntended`, with `ApiKeyTestRoute.ModelLabelDiffers` |
| src/app/api/api-keys/route.ts:70-77 | GET masks the stored ciphertext, not the key | save `sk-abcdefghijkl`: POST shows `sk-a****ijkl`, GET shows the first and last four digits of the hex ciphertext | mask the decrypted key, as POST does | not executed | `Flows.SavedMaskIsNotShown` (with `ApiKeysRoute.View`) | `ApiKeysRoute.ViewIntended`, with `Flows.SaveThenViewIntended` |
