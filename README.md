# User accounts and credentials of the storefront backend

This project is a Dafny model of `backend/controllers/userController.js`. That controller holds the storefront's accounts and handles their credentials:

- registration and login;
- the admin listing, create, update and delete handlers;
- the password-reset flow (`forgotPassword`, `resetPassword`);
- two helpers gated by a shared key: `promoteUser` and `listUsersDebug`.

The `users` collection is a class, `UserController.Controller`. It holds a map from `_id` to `Account` documents and the collection's natural (insertion) order of ids. That order decides which document `findOne` returns and the order of the listings. Each Express handler is a method of that class. It returns the JSON envelope `{ success, message, ... }` as a `Response`, and its `ensures` states both the response and the new state, in terms of the old state. The per-document changes, the projections and the display-name rule are functions. Lemmas state their properties.

The handlers get some values from outside. The model takes each of these as a parameter:

- the bcrypt salt;
- the 20 bytes from `crypto.randomBytes`;
- `Date.now()`, in milliseconds;
- whether `sendMail` succeeded.

Request-body values are strings or `undefined` (`Field = Option<string>`). JavaScript truthiness is `Truthy`.

External pieces are replaced as follows:

- **bcrypt** is a symbolic hash term: `Credentials.Hash` and `Credentials.Compare`. A hash made by the model matches the password it was made from and no other; real bcrypt reads only the first 72 bytes of the password (see "## Left out"). Accounts store only this term, never the plaintext. `bcrypt.hash(undefined)` and `bcrypt.compare(undefined, …)` throw, so they lead to the handler's catch branch.
- **jsonwebtoken** is a claims record, `SessionToken(id, isAdmin, issuedAt, expiresAt)`, with a one-day lifetime.
- **The hex reset token** is `HexEncoding.HexEncode` of the random bytes. It is proved to decode back to those bytes, so distinct bytes give distinct tokens.

Where the code's behaviour may surprise, the model follows the code:

- `forgotPassword` answers "User not found" for an unknown email. It does not give a uniform success.
- `createUserByAdmin` performs no required-field check.
- `updateUser` keeps a field when the supplied value is falsy, so an empty string does not clear it.
- The debug listing omits only the password, so it returns the reset token and its expiry.
- The update response returns the whole updated document, password hash included (`Data.UpdatedUser`). The login response and the two listings are password-free (`SummaryHidesSecrets`, `ListedHidesSecrets`, `DebugViewOmitsOnlyPassword`).
- A mail failure answers "Error creating reset token", but the token has already been saved and stays valid.
- `promoteUser` also answers "Email required" for an empty email.

`Scenarios.dfy` walks through three cases using only the handlers' contracts:

- register, a duplicate registration, then a wrong and a right login;
- a reset token refused one hour after issue, and a token that works once and changes which password logs in;
- promotion refused with a wrong key whether or not the account exists, then a login whose token carries `isAdmin`.

## Model

| member | source | states |
|---|---|---|
| `JsText.Trim` | backend/controllers/userController.js:14 | `trim()` result has no white space at either end, is no longer than its input, and is empty exactly when the input is all white space |
| `JsText.TrimStart` | backend/controllers/userController.js:14 | leading white space is dropped: the result is a suffix of the input, the dropped prefix is all white space, and the result does not start with white space |
| `JsText.TrimEnd` | backend/controllers/userController.js:14 | trailing white space is dropped: the result is a prefix of the input, the dropped suffix is all white space, and the result does not end with white space |
| `JsText.TrimStripsPadding` | backend/controllers/userController.js:14 | trim removes exactly the white-space padding around an unpadded core |
| `UserController.DisplayNameEmptyIff` | backend/controllers/userController.js:14 | the display name (also used at line 78) is empty iff `name` is falsy and the given name parts are white space only |
| `UserController.DisplayNameJoinsParts` | backend/controllers/userController.js:14 | without `name`, unpadded first and last names are joined with one space |
| `UserController.DisplayName` | backend/controllers/userController.js:14 | a non-empty `name` is taken as it is; otherwise the name is built from the parts, carries no white space at either end and is at most one character longer than the two parts together (the same rule at line 78) |
| `UserController.RegistrationComplete` | backend/controllers/userController.js:19 | registration's field check passes iff the name is non-empty or some name part has a non-white-space character, and email and password are non-empty |
| `UserController.NewAccount` | backend/controllers/userController.js:25 | a newly saved document holds the request's names, email and phone, the display name, the given hash, isAdmin false, and no pending reset token or expiry |
| `UserController.Controller.Insert` | backend/controllers/userController.js:25-26 | `save()` of a new document adds exactly that document under an unused id at the end of the natural order; nothing else changes |
| `UserController.Controller.FindOne` | backend/controllers/userController.js:16 | `findOne` returns a document that matches the filter, and returns nothing exactly when no document matches |
| `UserModel.FindFirst` | backend/controllers/userController.js:224 | `findOne` returns the first match in natural order: it matches, no earlier document matches, and None means no document matches |
| `Credentials.Hash` | backend/controllers/userController.js:22-23 | the hash is made with the caller's salt and cost 10 |
| `Credentials.Compare` | backend/controllers/userController.js:42 | for a cost-10 hash, `compare` succeeds exactly when the hash is the one `Hash` makes from the password with the stored salt |
| `Credentials.CompareHash` | backend/controllers/userController.js:42 | a hash matches its own password and no other |
| `UserController.Controller.RegisterUser` | backend/controllers/userController.js:11-33 | an existing email gives "User already exists" with no change, before the required-field check; an empty display name, email or password gives "All fields are required" with no change; otherwise exactly one account is added, holding `Hash(password)` and isAdmin false; email uniqueness is preserved |
| `UserController.Controller.LoginUser` | backend/controllers/userController.js:36-58 | unknown email gives "User not found"; a missing password gives "Error logging in"; a failed compare gives "Incorrect password"; otherwise the response has a token with the account's id and isAdmin and a password-free summary; with unique emails, success iff some account has that email and the password; the store is not modified |
| `Credentials.Sign` | backend/controllers/userController.js:46 | the token claims carry the id and admin flag, are issued at the current second and expire one day later |
| `UserController.Summary` | backend/controllers/userController.js:51 | the login summary carries the account's id, email and admin flag |
| `UserController.SummaryHidesSecrets` | backend/controllers/userController.js:51 | the login summary does not depend on the password hash or the reset fields |
| `UserController.Controller.GetAllUsers` | backend/controllers/userController.js:65-73 | lists every account exactly once, each as its projection of id, names, email and phone |
| `UserController.Listed` | backend/controllers/userController.js:67 | a listing entry carries the account's id and email |
| `UserController.ListedHidesSecrets` | backend/controllers/userController.js:67 | a listing entry does not depend on the password hash, the admin flag or the reset fields |
| `UserController.Controller.CreateUserByAdmin` | backend/controllers/userController.js:76-94 | an existing email gives "User already exists" with no change; an undefined password gives "Error adding user" with no change; otherwise one account is added even if the name or email is empty; email uniqueness is preserved |
| `UserController.Controller.DeleteUser` | backend/controllers/userController.js:97-111 | an unknown id gives "User not found" with no change; otherwise exactly that account is removed from the map and from the natural order |
| `UserModel.RemoveId` | backend/controllers/userController.js:100 | the natural order after a delete holds every other id, stays free of duplicates, and is unchanged when the id is absent |
| `UserModel.RemoveIdAt` | backend/controllers/userController.js:100 | deleting the id at position k of the natural order cuts out exactly that position and keeps the other ids in their order |
| `UserController.BuildUpdateData` | backend/controllers/userController.js:119-128 | a key is in `updateData` exactly when its request field is truthy; a password is present only as its hash |
| `UserController.ApplyUpdate` | backend/controllers/userController.js:130 | a `$set` of the update keys keeps the token/expiry pairing |
| `UserController.Controller.UpdateUser` | backend/controllers/userController.js:114-140 | an unknown id gives "User not found" with no change; otherwise only truthy fields are replaced (the password by its hash), the admin flag and reset fields are kept, no other account changes, and the response carries the updated document |
| `HexEncoding.HexEncode` | backend/controllers/userController.js:161 | the token has two lower-case hex digits per random byte, so 40 characters |
| `HexEncoding.HexRoundTrip` | backend/controllers/userController.js:161 | decoding the token gives back the random bytes |
| `HexEncoding.HexEncodeInjective` | backend/controllers/userController.js:161 | distinct random bytes give distinct tokens |
| `UserController.IssueReset` | backend/controllers/userController.js:162-163 | issuing sets the token and its expiry together, overwrites any earlier token, and changes nothing else |
| `UserController.IssuedTokenWindow` | backend/controllers/userController.js:163 | a token issued at T is accepted at `now` iff it is the token presented and `now < T + 3600000` |
| `UserController.Controller.ForgotPassword` | backend/controllers/userController.js:154-216 | an empty email gives "Email required" and an unknown one "User not found", both with no change; otherwise the account's token becomes the hex of the random bytes with expiry now + 1 h, nothing else changes, and the token is stored even when mail dispatch fails ("Error creating reset token") |
| `UserController.ConsumeReset` | backend/controllers/userController.js:228-230 | a reset sets the hash to the new one, clears token and expiry, and changes nothing else |
| `UserController.ConsumedTokenDead` | backend/controllers/userController.js:229-230 | after a reset no token of the account is accepted at any time |
| `UserController.LiveEarlier` | backend/controllers/userController.js:224 | acceptance is monotone in time: a token accepted at some time was accepted at every earlier time |
| `UserController.Controller.ResetPassword` | backend/controllers/userController.js:219-238 | a missing token or password is rejected with no change; success iff some account holds the token unexpired (expiry strictly after now); wrong and expired tokens get the same "Token invalid or expired"; on success the matched account gets `Hash(password)` and drops out of the token's holders |
| `UserController.ExpectedKey` | backend/controllers/userController.js:246 | the expected key is the configured `ADMIN_PROMOTE_KEY` when that is non-empty and `dev_promote_key` otherwise, so it is never empty (the same rule at line 271) |
| `UserController.PresentedKey` | backend/controllers/userController.js:245 | the presented key is the `x-admin-key` header when that is non-empty and otherwise the fallback (the body key at line 245, the query key at line 270) |
| `UserController.Authorized` | backend/controllers/userController.js:247 | the key check `adminKey !== expected` passes only when a non-empty key was presented |
| `UserController.MissingKeyUnauthorized` | backend/controllers/userController.js:245-247 | a request presenting no key is never authorized |
| `UserController.FallbackKeyDecides` | backend/controllers/userController.js:245-247 | without a header, the request is authorized exactly when the body or query key equals the expected key |
| `UserController.HeaderKeyDecides` | backend/controllers/userController.js:245 | when the `x-admin-key` header is given, it alone decides and the body or query key is ignored |
| `UserController.Controller.PromoteUser` | backend/controllers/userController.js:243-263 | a wrong key gives "Unauthorized" with no change, before any lookup; then an empty email gives "Email required" and an unknown one "User not found"; otherwise only that account's isAdmin becomes true, and promoting an admin changes nothing |
| `UserController.Promote` | backend/controllers/userController.js:255 | promotion sets isAdmin and changes no other field |
| `UserController.PromoteIdempotent` | backend/controllers/userController.js:255 | promoting twice is promoting once, and promoting an admin is a no-op |
| `UserController.Controller.ListUsersDebug` | backend/controllers/userController.js:268-280 | a wrong key gives "Unauthorized"; otherwise lists every account exactly once, each as the document without its password |
| `UserController.DebugView` | backend/controllers/userController.js:274 | a debug entry carries the account's id and email |
| `UserController.DebugViewOmitsOnlyPassword` | backend/controllers/userController.js:274 | a debug entry plus the password hash rebuilds the document, and the entry does not depend on the hash |

## Left out

- bcrypt internals (salt generation, work factor, one-wayness, constant-time compare, and the truncation of the password to its first 72 UTF-8 bytes): a foreign crypto library. The hash is a symbolic term that records its plaintext. It is compared only through `Compare`.
- jsonwebtoken signing and verification, and the `"secret123"` fallback signing key: foreign crypto. A token is its claims record.
- Mail dispatch: nodemailer transport selection, the Ethereal test account, message formatting and the preview URL are network I/O. Dispatch is reduced to the `mailSent` outcome, which comes after the token is saved.
- Storage failures and the catch branches they reach ("Error registering user", "Error fetching users", …): persistence errors are not modelled. The catch branches reached by `bcrypt` on an undefined password are modelled.
- `userModel.js` is not part of this model. Schema validation (required fields, defaults, any unique index on email) is therefore not modelled. `updateUser` may give two accounts the same email, and lookups then return the first in natural order.
- `findOne({ email: undefined })`: how the document store treats an undefined filter value is not modelled. An absent email matches only documents stored without one.
- Casting an `:id` route parameter to an ObjectId (a malformed id throws): ids are naturals.
- Request values that are neither strings nor undefined (numbers, objects, arrays): not modelled.
- Concurrency, async interleaving and check-then-insert races: each handler is one atomic step.
- `backend/routes/userRoute.js` and `backend/routes/messageRoute.js` are route wiring only. The frontend components are view code.
- `UserController.Controller.FindOne`: its contract does not say which of several matching documents it returns. `UserModel.FindFirst`, which it calls, states the first-in-natural-order rule.
- Credentials.CompareHash: the "no other password" direction holds for the symbolic hash only. bcrypt uses only the first 72 UTF-8 bytes of a password, so two passwords that agree on those bytes match the same hash; the model does not encode strings as UTF-8.
