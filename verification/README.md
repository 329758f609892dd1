# User router: session tokens and allow-listed profile updates

This project models the logic of the user-account router `src/routers/user.js`.
The router is an Express/Mongoose service with signup, login, logout, logout
from all devices, lookup by id and a partial profile update. The persistence
layer and the authentication middleware stay outside the model. A user is a
plain document with seven scalar fields (name, email, password, age, dob,
mobile, gender) and `tokens`, an ordered list of `{ token }` session records.
Every awaited collaborator call (`save`, `findById`, `findByCredentials`,
`generateAuthToken`) is a separate `Attempt` parameter of the handler that
awaits it. An `Attempt` either completes with a value or throws an error.
`AndThen` chains the calls of one `try` block: the first call to throw ends
the block with its own error, and the calls after it play no part.

Files:

- `outcomes.dfy` (`Outcomes`): `Option`, the thrown `Error`, `Attempt<T>` and
  the sequencing `AndThen`.
- `sessions.dfy` (`Sessions`): session records and the single-session logout
  filter `RemoveToken`, with lemmas covering:
  - which records it removes;
  - how many copies of each record it keeps;
  - the order in which it keeps them;
  - idempotence and length.
- `profile.dfy` (`Profiles`): JSON values, request bodies, `Object.keys` and
  `body[k]`. A request body is a `JsonObject`: its entries in key order, with
  no key twice, as a parsed JSON object is. The module also holds the
  seven-name allow-list and the `every` gate `AllAllowed`. `ApplyKeys` is the
  field-by-field assignment, with lemmas saying which fields change and to what.
- `user.dfy` (`Users`): the `User` class whose fields the handlers assign in
  place, and `UserDoc`, a snapshot of it.
- `responses.dfy` (`Responses`): status and body for each handler, given the
  outcome of the calls the handler awaits.
- `router.dfy` (`UserRouter`): the handlers that change the authenticated
  user: logout, logoutAll and the PATCH update. The PATCH update runs its
  `forEach` as a loop over the body's keys.

## Model

| member | source | states |
|---|---|---|
| `Outcomes.AndThen` | src/routers/user.js:10-12 | Two calls awaited in one `try` complete together exactly when both complete. When the first throws, the block fails with the first call's error. When the first completes, the block's outcome is the second call's. |
| `Outcomes.AndThenSkipsAfterThrow` | src/routers/user.js:10-12 | Once the first call throws, the second is never made: its outcome does not change the block's. |
| `Sessions.RemoveToken` | src/routers/user.js:38 | A record is in the result exactly when it was in the old list and its token differs from the presented one. No result record carries the presented token, and the list never grows. |
| `Sessions.RemoveTokenAppend` | src/routers/user.js:38 | Filtering a concatenation gives the filtered parts, concatenated. So the surviving sessions keep their relative order. |
| `Sessions.RemoveTokenCounts` | src/routers/user.js:38 | Every copy of the presented token is removed, not just one. Every other record keeps its exact multiplicity. |
| `Sessions.RemoveTokenAbsent` | src/routers/user.js:38 | When no record carries the presented token, logout leaves the list exactly as it was. |
| `Sessions.RemoveTokenIdempotent` | src/routers/user.js:38 | Logging out twice with the same token leaves the same list as logging out once. |
| `Sessions.RemoveTokenLength` | src/routers/user.js:38 | The list shrinks by exactly the number of records that carry the presented token. |
| `Profiles.Keys` | src/routers/user.js:82 | `Object.keys(req.body)` lists the body's keys in entry order, one per entry, and no key twice. |
| `Profiles.Lookup` | src/routers/user.js:93 | `body[k]` is the value of the entry whose key is `k`. It is `undefined` for a key that is neither an own entry nor an `Object.prototype` property; every allow-listed key is one of these. |
| `Profiles.FieldName` | src/routers/user.js:83 | Every updatable field is named by a key on the allow-list. |
| `Profiles.FieldOf` | src/routers/user.js:83 | A key names a field exactly when it is on the seven-name allow-list, and the field it names is spelled by that key. |
| `Profiles.FieldNameRoundTrip` | src/routers/user.js:83 | Field names and fields correspond one to one: reading a field's key back gives the field, and distinct fields have distinct keys. |
| `Profiles.AllAllowed` | src/routers/user.js:84 | The gate passes exactly when every key of the update is on the allow-list. In particular, an empty key list passes. |
| `Profiles.ForeignKeyRejects` | src/routers/user.js:84-87 | One key off the allow-list, anywhere in the body, fails the whole gate. |
| `Profiles.Set` | src/routers/user.js:93 | One assignment `user[f] = v` gives field `f` the value `v` and leaves every other field as it was. |
| `Profiles.ProfileExtensionality` | src/routers/user.js:93 | Two profiles that agree on all seven fields are equal. So "every field as stated" fixes the whole profile. |
| `Profiles.ApplyKeys` | src/routers/user.js:93 | The `forEach` assignment over keys that passed the gate never touches a field whose key it does not name. |
| `Profiles.ApplyKeysGet` | src/routers/user.js:93 | After the field-by-field assignment, a field whose key the update names holds the body's value for that key. Every other field is unchanged. |
| `Profiles.PatchSemantics` | src/routers/user.js:82-93 | For keys taken from the body itself: each named field takes the body's value, that value is an entry of the body, and unnamed fields are unchanged. |
| `Profiles.EmptyPatchIsIdentity` | src/routers/user.js:82-93 | An empty body passes the gate, and the assignment then leaves the profile unchanged. |
| `Profiles.ApplyKeysAllFields` | src/routers/user.js:93 | An update that names all seven fields replaces the whole profile with the body's values, whatever the profile held before. |
| `Users.User.Assign` | src/routers/user.js:93 | Assigning one field of the user changes that field of its profile as `Set` says. The session list is untouched. |
| `Responses.SignupResponse` | src/routers/user.js:8-18 | Given the outcomes of `save` and of `generateAuthToken`, signup succeeds exactly when both complete: 201 with the user and the token. If `save` throws, the answer is 400 with the save's error. If `save` completes and token generation throws, the answer is 400 with the token error. |
| `Responses.SignupSkipsTokenAfterFailedSave` | src/routers/user.js:10-12 | When `save` throws, token generation plays no part: the signup response is the same whatever it would have given. |
| `Responses.LoginResponse` | src/routers/user.js:22-31 | Given the outcomes of `findByCredentials`, `generateAuthToken` and `save`, login succeeds exactly when all three complete: 200 with the user and token. If any one throws, the answer is 400 "Unable to login". |
| `Responses.LoginFailureHidesDetail` | src/routers/user.js:29-30 | Any two failed logins give identical responses, whichever call threw and whatever its error. The error detail is discarded. |
| `Responses.SaveConfirmation` | src/routers/user.js:39-43 | The shape logout and logoutAll share: 200 with the confirmation text exactly when the save completes, and 500 with an empty body when it throws. |
| `Responses.LogoutResponse` | src/routers/user.js:39-43 | Logout answers 200 "Successfully logged out" exactly when the save completes, and 500 with an empty body when the save throws. |
| `Responses.LogoutAllResponse` | src/routers/user.js:51-55 | LogoutAll answers 200 "Successfully logged out from all devices" exactly when the save completes, and 500 with an empty body when it throws. |
| `Responses.GetByIdResponse` | src/routers/user.js:67-76 | Lookup by id answers 404 "user not found" exactly when the store returns nothing. It answers 200 with the user exactly when the store returns one, and 500 with the error exactly when the lookup throws. |
| `Responses.PatchGate` | src/routers/user.js:83-87 | The gate lets the request through exactly when every key is on the allow-list. Otherwise it answers 400 "ERROR: Invalid Operation". |
| `Responses.PatchResponse` | src/routers/user.js:94-99 | After the fields are assigned, the update answers 200 with the updated user exactly when the save completes. When the save throws, it answers 400 with the error. |
| `UserRouter.Logout` | src/routers/user.js:35-44 | The new token list is the filter of the old one, and no remaining record carries the presented token. The seven profile fields are unchanged. The response is the one logout gives for the save's outcome. |
| `UserRouter.LogoutAll` | src/routers/user.js:47-56 | The token list is empty afterwards, whatever it held before. The profile fields are unchanged. The response follows the save's outcome. |
| `UserRouter.Patch` | src/routers/user.js:80-100 | A body with any key off the allow-list gives 400 "ERROR: Invalid Operation", and the user document is left exactly as it was. Otherwise the profile becomes the field-by-field assignment of the body's keys in order and the sessions are untouched. The response then follows the save's outcome and carries the updated user. |

## Left out

- Routing and module wiring are not modelled. This covers `router.post`/`get`/`patch`/`delete`, the `multer` import (which is never used) and the exports (src/routers/user.js:1-5, 114). This is framework plumbing with no behaviour of its own.
- The persistence and model calls are not modelled. These are `save`, `findById`, `findByCredentials`, `generateAuthToken`, `remove` and `new User(req.body)`. `src/models/user.js` is not part of this model, so each call appears only as an `Attempt` outcome.
- `Responses.LoginResponse` and `Responses.SignupResponse`: the model does not say that login or signup appends a token to the user's list. That append happens inside `generateAuthToken`, whose code is not part of this model. The user and token in each response are taken as given.
- Password hashing in the pre-save hook is not modelled, because its code is not part of this model. The same holds for how a user document is serialised: whether the password is hidden depends on the model's `toJSON`.
- The authentication middleware (`src/middleware/auth.js`) is not part of this model. Its resolved user and presented token are parameters of the handlers. The model does not assume the presented token is in the user's list.
- GET /users/me (src/routers/user.js:59-62) is not modelled. It only sends back the user that the middleware resolved.
- DELETE /users/me (src/routers/user.js:103-110) is not modelled. Its success path only sends back the removed user. Its failure path calls `req.status`, which is not a method of the request. That call throws inside the `catch`, so no response is defined.
- Schema casting is not modelled. A Mongoose document casts each value in the setter that `user[update] = …` runs (src/routers/user.js:93). A value that fails to cast leaves the field as it was and records an error, and that error surfaces when `save` throws. The schema in `src/models/user.js` is not part of this model, so the model stores the body's raw JSON values. JSON numbers are modelled as integers.
- UserRouter.Patch: the profile after the update holds the raw body values. The real in-memory user holds their cast values, and keeps the old value wherever a cast failed. After a completed save, the real user's `password` is the hash that the pre-save hook computes (src/routers/user.js:91), not the body's value.
- Users.User.Assign: assigns the raw value. The real setter casts it first and leaves the field unchanged when the cast fails.
- Responses.PatchResponse: on a completed save, the 200 body carries the user exactly as the model's update left it, with raw values. The real body carries the cast values, and a `password` hashed by the pre-save hook.
- Profiles.Lookup: lookups through the prototype chain are not modelled. `body["constructor"]` or `body["toString"]` would give an inherited property, not `undefined`. No such key reaches the assignment, because only the body's own keys, and only allow-listed ones, get there.
- Parsing the request text is not modelled. A request body arrives here already parsed. When the JSON text repeats a key, the parser keeps only the last occurrence, so the parsed object has each key once. That is the `JsonObject` the model starts from.
- `async`/`await` suspension and concurrent requests for the same user are not modelled. Each handler runs here as one uninterrupted step.
