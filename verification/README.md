# Crispy Kitchen: a Dafny model of the recipe application's logic

Crispy Kitchen is a recipe site: an Express/Mongoose backend with users and
recipes, and a React front end with public pages and admin pages. This project
models the decision logic of both halves as pure functions over immutable data.
It proves what the handlers and the page helpers promise.

**Backend** (`Server`, `Routes`, `Invariants`):
- Every route handler is a function `State × request × now → Step(state, Response(status, message, body))`.
- The state holds the user collection and the recipe collection. Each is a sequence of documents in natural order. The state also holds the next free identifier.
- bcrypt is an injective `Hash` with `Matches`.
- A JSON Web Token is an abstract `Jwt(claims, expiry, key)`. `Verify` accepts it exactly when it was signed with the server secret and has not expired.
- Time is one integer clock in seconds.
- The document shapes, the schema defaults, the normalising setters and the validators are in `Models`.
- The per-category tally that the dashboard and the analysis page share is in `Stats`.

**Front end:**
- `Search`: the home and admin-home search, and the admin list after a delete.
- `Gates`: the client-side role gates.
- `Analysis`: the admin statistics.
- `CommaList`: the comma-separated list codec.
- `RecipeForms`: the add and update recipe forms.
- `AccountForms`: the sign-up, forgot-password and reset-password pages.
- `Links`: the reset link text and how the page extracts its token.

Navigation, request bodies and form resets are returned values.

**Support:** `Text` has the JavaScript string operations (`toLowerCase`, `trim`, `includes`, `split`, `join`). `Seqs` has `filter`, `map` and counting. `Store` has the document collection.

Four behaviours of the code that are easy to miss:
- Recipes with an empty category are skipped by the category tally. The values add up to at most the recipe count, and to exactly it when no category is empty (`Stats.CategorySumBound`).
- A name or email made only of whitespace passes the signup handler's checks. The schema's `required` validator then refuses it after trimming, which is a 500 (`Server.Signup`).
- Reset accepts any verifiable token carrying a user id, including a five-hour login token (`Invariants.ResetAcceptsLoginToken`).
- Forgot-password has no check for a missing email. A body without one queries the empty filter, so the first registered user's reset link goes to a caller who named nobody (`Invariants.ForgotWithoutEmailPicksFirstUser`).

## Model

| member | source | states |
|---|---|---|
| Server.Authenticate | backend/server.js:32-43 | No bearer token is a 401 "no token". A token that fails verification is a 401 "invalid". The caller is admitted exactly when the token verifies, with that token's claims. |
| Server.AdminGate | backend/server.js:46-51 | After authentication, only a role equal to exactly the string "admin" passes. A verified token with any other role is a 403 "Admins only". An authentication refusal is passed through unchanged. |
| Server.FindByEmail | backend/server.js:61 | The lookup finds a user whose stored email equals the lower-cased, trimmed query. When it finds none, no user has that email. |
| Server.Signup | backend/server.js:56-79 | The checks run in source order. A missing field is a 400. An already registered email is a 400. Asking for admin with the wrong code is a 403. Any other role value becomes "user". A blank-after-trim name or email is a 500. Success appends exactly one user holding only the password's hash, and answers 201 with name, email and role but no password. Every failure leaves the state unchanged. |
| Server.Login | backend/server.js:82-109 | A missing field is a 400. An unknown email and a wrong password both give the same 400 "Invalid email or password" and change nothing. Success marks only that user online with `lastLogin = now`. It issues a token carrying `{userId, email, role}` that expires five hours later. |
| Server.Logout | backend/server.js:112-124 | Any verified token gets 200. Only the user its id names is marked offline, and nothing else changes. An id with no user is a no-op. |
| Server.ListUsers | backend/server.js:129-137 | Admins get every user in store order, each without the password hash. The state is never changed. |
| Server.NewRecipe | backend/server.js:144-149 | A created recipe holds the submitted fields. Difficulty falls back to "Medium". The owner is the caller's id and the creation instant is now, whatever the body says about either. |
| Server.CreateRecipe | backend/server.js:142-156 | Without all seven required fields truthy it is a 400 and nothing changes. A 0 number or an empty string counts as missing, and an array never does. Otherwise exactly one recipe, owned by the caller, is appended under a fresh id and returned with 201. |
| Server.ListRecipes | backend/server.js:159-167 | Every recipe in store order, with no change. |
| Server.GetRecipe | backend/server.js:170-179 | An id not in the store is a 404. Otherwise the answer is the stored recipe with that id. The state is never changed. |
| Server.Overwrite | backend/server.js:184 | Exactly the supplied fields are replaced, the owner (`createdBy`) and creation instant (`createdAt`) included. A field the body does not supply keeps its value. |
| Server.UpdateRecipe | backend/server.js:182-191 | Behind the admin gate, an unknown id is a 404 with no change. Otherwise only that recipe changes, in place, and the new version is returned. |
| Server.DeleteRecipe | backend/server.js:194-203 | Behind the admin gate, an unknown id is a 404 with no change. Otherwise exactly the documents with that id leave the collection, the rest keep their order, and the removed recipe is returned. |
| Server.ForgotPassword | backend/server.js:208-221 | An unknown email is a 404. A known one gets a fifteen-minute token carrying only the user id, in a link built from the front-end URL and the email as submitted. A body without an email queries the empty filter: the first user gets the link, with "undefined" as its email, and only an empty store is a 404. Nothing changes. |
| Server.ResetPassword | backend/server.js:224-243 | A missing field is a 400. An unverifiable token is a 400. A verified id without a user holding the submitted email is a 404. Success happens exactly when such a user exists, and only that user's hash is replaced. |
| Server.DashboardOf | backend/server.js:249-258 | The admin and active counts never exceed the user count. The category values add up to at most the recipe count, and to exactly it iff no recipe's category is empty. |
| Server.DashboardRoute | backend/server.js:247-265 | Behind the admin gate, the aggregate of the current state. Never a change. |
| Server.RecipesBy | backend/server.js:281 | Exactly the recipes whose `createdBy` is the caller's id, in store order. |
| Server.Me | backend/server.js:272-289 | A verified caller whose id names a user gets that user without the hash, plus exactly its own recipes. Otherwise the answer is a 404, or the gate's 401. Never a change. |
| Routes.AdminRouteGate | backend/server.js:32-51 | On every admin route, a missing token, an invalid token and a non-admin role are answered 401, 401 and 403, and the state is left unchanged. |
| Routes.MemberRouteGate | backend/server.js:32-43 | On logout and profile, a missing or invalid token is answered 401 and the state is left unchanged. |
| Routes.StatusCodes | backend/server.js:56-289 | Every route answers with one of 200, 201, 400, 401, 403, 404 and 500. |
| Invariants.HandleKeepsValid | backend/Models/user.js:4-5 | Every route keeps the stored data valid. Identifiers stay unique, every user keeps a non-empty trimmed name and a non-empty normalised email, and no two users share an email. |
| Invariants.SignupKeepsValid | backend/server.js:59-72 | Signup adds only users that pass the validators, under an email not yet registered. |
| Invariants.LoginKeepsValid | backend/server.js:94-96 | Login's save keeps the store valid. |
| Invariants.LogoutKeepsValid | backend/server.js:114-118 | Logout's save keeps the store valid. |
| Invariants.ResetKeepsValid | backend/server.js:236-237 | The reset's save keeps the store valid. |
| Invariants.UpdateKeepsValid | backend/server.js:184 | A recipe update keeps the store valid. |
| Invariants.DeleteKeepsValid | backend/server.js:196 | A recipe delete keeps the store valid. |
| Invariants.HandleKeepsUsersStable | backend/Models/user.js:7-10 | No route deletes or moves a user, or rewrites its name, email, role or status. A user a route adds starts Active, offline and without `lastLogin`. |
| Invariants.SignupTwiceRefused | backend/server.js:61-62 | After a successful signup, the same email in any letter case or padding is refused as already registered. |
| Invariants.SignupThenLogin | backend/server.js:56-104 | Signing up and then logging in with the same email and password succeeds. |
| Invariants.LoginTokenLifetime | backend/server.js:98-102 | A login token carries the user's id, stored email and role, and verifies exactly until five hours after the login. |
| Invariants.LoginFailuresIndistinguishable | backend/server.js:87-91 | An unknown email and a wrong password get identical responses, and neither changes anything. |
| Invariants.LogoutIdempotent | backend/server.js:112-124 | Logging out twice has the same effect and answer as logging out once. |
| Invariants.CreateThenGet | backend/server.js:142-179 | A created recipe is then found under the returned id, with the submitted fields, the defaults and the caller as owner. |
| Invariants.UpdateReassignsOwner | backend/server.js:184 | An update whose body names an owner moves the recipe into that user's own recipe list. |
| Invariants.DeleteThenGone | backend/server.js:194-203 | After a successful delete, exactly one recipe has left the store and the id answers 404. |
| Invariants.ResetSuccess | backend/server.js:233-238 | A verified token with a user's id, plus that user's email, gets the reset. |
| Invariants.ForgotThenReset | backend/server.js:208-243 | The token from forgot-password resets that user's password exactly until fifteen minutes after it was issued. |
| Invariants.ForgotWithoutEmailPicksFirstUser | backend/server.js:210-215 | With anyone registered, a forgot-password body without an email gets a link whose token verifies for fifteen minutes and names the first user. |
| Invariants.ResetAcceptsLoginToken | backend/server.js:229-233 | A five-hour login token is accepted by reset too. |
| Invariants.ResetThenLogin | backend/server.js:236-237 | After a reset, login succeeds with exactly the new password. The old one fails. |
| Store.Position | backend/server.js:172 | `findById` finds a document with that id, and finds nothing exactly when no document has it. |
| Store.FindOne | backend/server.js:61 | `findOne` returns the first document that satisfies the filter. When it returns nothing, no document does. |
| Store.Save | backend/server.js:96 | A save changes one document in place and leaves every other document as it was. |
| Store.Remove | backend/server.js:196 | `findByIdAndDelete` keeps, in order, exactly the documents without that id. |
| Store.RemoveOne | backend/server.js:196 | With unique ids, a delete removes one document when the id is present, and otherwise changes nothing. |
| Crypto.MatchesExactly | backend/server.js:90 | `bcrypt.compare` accepts a password against a hash of exactly that password. |
| Crypto.Sign | backend/server.js:98-102 | A signed token carries the given claims and expires `ttl` seconds after signing. |
| Crypto.Verify | backend/server.js:37 | Verification yields the claims exactly when the token was signed with the secret and has not expired. |
| Crypto.SignedTokenLifetime | backend/server.js:98-102 | A server-signed token verifies until exactly its lifetime has passed, and never after. |
| Crypto.ForeignTokenRejected | backend/server.js:37-41 | A token signed with another key never verifies. |
| Models.NormalizeEmail | backend/Models/user.js:5 | A stored email is trimmed and has no upper-case letter. An already normal email is kept as it is. |
| Models.NormalizeEmailIdempotent | backend/Models/user.js:5 | Normalising twice is the same as normalising once. |
| Models.NewUser | backend/Models/user.js:3-10 | A new user has a trimmed name and a normalised email. The defaults are Active, offline and no `lastLogin`. It passes the validators exactly when its name is not all whitespace and its email does not normalise to empty. |
| Models.Public | backend/server.js:131 | `select('-password')` keeps every field but the hash. |
| Stats.Bump | backend/server.js:258 | One increment keeps the keys distinct and non-empty, and adds no key other than the incremented category. |
| Stats.BumpCounts | backend/server.js:258 | One increment adds one to that category's value and to the sum, and leaves every other category's value alone. |
| Stats.TallyFrom | backend/server.js:258 | Every key is a non-empty category with count at least one. Each category gains its number of occurrences. The sum grows by the number of non-empty categories. |
| Stats.CategoryCounts | backend/server.js:257-258 | Each non-empty category maps to its number of recipes. No key is empty. The values add up to the number of recipes with a non-empty category. |
| Stats.CategorySumBound | backend/server.js:255-258 | The category values add up to at most the recipe count, with equality iff every recipe has a non-empty category. |
| Text.LowerIsLowerCase | frontend/src/pages/Home.js:31 | `toLowerCase` leaves no upper-case letter and changes exactly the strings that have one. |
| Text.Trim | frontend/src/Components/AddRecipe.jsx:53 | `trim` returns a string with no whitespace at either end, made of the input's characters. A trimmed string is kept as it is. The result is empty iff the input is all whitespace. |
| Text.TrimIsSlice | frontend/src/Components/AddRecipe.jsx:53 | `trim` returns the input with its leading and trailing whitespace cut off: a slice of the input where everything before and after the slice is whitespace. |
| Text.IndexOf | frontend/src/pages/ForgotPassword.jsx:30 | `indexOf` reports the first occurrence of the pattern, or none when there is no occurrence. |
| Text.Split | frontend/src/Components/AddRecipe.jsx:53 | `split` yields at least one piece. No piece contains the separator. `join` with the separator gives the input back. |
| Text.SplitCharCount | frontend/src/Components/AddRecipe.jsx:53 | Splitting on one character yields one piece more than that character's occurrences. |
| Seqs.Filter | frontend/src/pages/Home.js:34 | `filter` returns an order-preserving subsequence of the input. Every element it returns satisfies the predicate, and every input element that satisfies it is returned. |
| Seqs.FilterMultiplicity | frontend/src/pages/Home.js:34 | `filter` keeps every copy of an element that satisfies the predicate and no copy of one that does not. |
| Seqs.Count | backend/server.js:253 | `filter(p).length` is the number of positions whose element satisfies `p`. It equals the length iff every element satisfies `p`. |
| Links.ExtractResetToken | frontend/src/pages/ForgotPassword.jsx:30 | The expression yields a token exactly when the link contains "token=". The token never contains '&' or "token=". |
| Links.ResetLinkRoundTrip | frontend/src/pages/ForgotPassword.jsx:30 | The page recovers exactly the token that the server's link template embeds. This holds when the token has no '&' or "token=" and the front-end URL has no "token=". |
| CommaList.ParseList | frontend/src/Components/AddRecipe.jsx:53-54 | Item k is the k-th comma-separated piece of the text, trimmed. There is one item more than the text has commas, so an empty textarea gives `[""]`. No item has surrounding whitespace. |
| CommaList.RenderParseRoundTrip | frontend/src/AdminComponents/UpdateRecipe.jsx:54-92 | Joining with ", " and then splitting and trimming returns the original list, when it is non-empty and no item has a comma or surrounding whitespace. |
| CommaList.CommaItemBreaksRoundTrip | frontend/src/AdminComponents/UpdateRecipe.jsx:54-91 | An item containing a comma makes the resubmitted list longer than the original. |
| CommaList.EmptyListComesBackAsBlank | frontend/src/AdminComponents/UpdateRecipe.jsx:54-91 | An empty list comes back as one empty item. |
| Search.SearchRecipes | frontend/src/pages/Home.js:30-46 | A recipe is kept iff the lower-cased term occurs in its lower-cased title, category or some ingredient. The result is an order-preserving subsequence of the fetched list. |
| Search.Loaded | frontend/src/pages/Home.js:16-18 | After the fetch, the shown list is the whole fetched list. |
| Search.OnSearch | frontend/src/AdminComponents/AdminHome.jsx:57-66 | After a search, the shown list holds exactly the fetched recipes that match the lower-cased input, in fetched order. The previously shown list plays no part, and the fetched list is left alone. |
| Search.OnDelete | frontend/src/AdminComponents/AdminHome.jsx:69-89 | A cancelled or failed delete changes nothing. A successful one drops exactly the shown entries with that id, keeps the others in order, and never touches the fetched list. |
| Search.EmptySearchKeepsAll | frontend/src/pages/Home.js:34-43 | The empty term keeps every recipe. |
| Search.SearchIdempotent | frontend/src/pages/Home.js:34 | Searching the result again for the same term changes nothing. |
| Search.SearchForgetsHistory | frontend/src/AdminComponents/AdminHome.jsx:60 | The shown list after a search depends only on that term, not on earlier searches or deletes. |
| Search.SearchCaseInsensitive | frontend/src/pages/Home.js:31 | Terms that differ only in letter case select the same recipes. |
| Search.MatchIgnoresFieldCase | frontend/src/pages/Home.js:36-40 | Changing the letter case of a recipe's fields does not change whether it matches. |
| Search.DeleteDropsOne | frontend/src/AdminComponents/AdminHome.jsx:81 | With unique ids, a successful delete of a shown recipe shortens the shown list by exactly one. |
| Search.SearchAfterDeleteRestores | frontend/src/AdminComponents/AdminHome.jsx:60-81 | A deleted recipe that matches a later search is shown again. |
| Gates.AdminHomeGate | frontend/src/AdminComponents/AdminHome.jsx:17-35 | No token goes to /login and an unreadable token goes to /. The page stays exactly for a role that lower-cases to "admin". Any other readable role goes to /. |
| Gates.AddRecipeGate | frontend/src/Components/AddRecipe.jsx:22-41 | No token or an unreadable token goes to /login. The page stays exactly for a role equal to "admin", which is the server's own admin check. Any other readable role goes to /. |
| Gates.UpdateRecipeGate | frontend/src/AdminComponents/UpdateRecipe.jsx:24-42 | No token or an unreadable token goes to /login. The page stays exactly for a role that lower-cases to "admin". Any other readable role goes to /. |
| Gates.AddRecipeGateStrictest | frontend/src/Components/AddRecipe.jsx:32 | Passing the exact comparison implies passing both case-insensitive gates. |
| Gates.CapitalisedAdminSplitsGates | frontend/src/AdminComponents/AdminHome.jsx:23 | The role "Admin" opens the admin home and update pages, but not the add page, and the server refuses it. |
| Gates.GatesAgreeOnLoginTokens | frontend/src/Components/AddRecipe.jsx:31-35 | On tokens issued at login that every page can read, the three gates and the server agree: they admit exactly the admin role. |
| Gates.ExpiredTokenPassesGate | frontend/src/Components/AddRecipe.jsx:31 | The page gate reads the token without checking expiry: an expired admin token the server refuses still opens the page. |
| Analysis.ComputeStats | frontend/src/AdminComponents/Analysis.jsx:31-59 | The totals are the list lengths. The admin, active, online and recently active figures count the users with role "admin", status Active, `isOnline`, and a last login within the last thirty days. Each is at most the user count, and only users who have logged in can be recently active. The category tally is the dashboard's own: its values add up to the recipe count iff no category is empty. |
| Analysis.RecentWithinWindow | frontend/src/AdminComponents/Analysis.jsx:37-40 | The recently active count is the number of users whose last login lies strictly after the instant thirty days before now. |
| Analysis.AgreesWithDashboard | frontend/src/AdminComponents/Analysis.jsx:52-59 | Fed the lists the server returns to an admin, the page reports the same totals, admin and active counts, and category tally as the server dashboard. |
| Analysis.NoLoginNoRecentActivity | frontend/src/AdminComponents/Analysis.jsx:38-40 | Users without `lastLogin` are never recently active. |
| RecipeForms.BuildPayload | frontend/src/Components/AddRecipe.jsx:53-68 | Both lists are the parsed comma-separated lists of their textareas, with comma count + 1 trimmed items. Every other field is sent as the form holds it. |
| RecipeForms.ToRequestBody | frontend/src/Components/AddRecipe.jsx:64-68 | JSON carries every key of the payload, and a number from a loaded recipe arrives as that number. |
| RecipeForms.AddSubmitted | frontend/src/Components/AddRecipe.jsx:73-89 | Success resets the form to exactly its initial state and goes to /recipes. Failure keeps the form. |
| RecipeForms.BlankFormRefused | frontend/src/Components/AddRecipe.jsx:7-17 | An untouched form is refused by the server's required-field check. |
| RecipeForms.NumberOr | frontend/src/AdminComponents/UpdateRecipe.jsx:56-57 | A zero number loads as the empty input. Any other number loads as itself. |
| RecipeForms.LoadForm | frontend/src/AdminComponents/UpdateRecipe.jsx:51-61 | The lists are rendered with ", ". Absent or falsy fields become "", and an empty difficulty becomes "Medium". |
| RecipeForms.UpdateSubmitted | frontend/src/AdminComponents/UpdateRecipe.jsx:109-114 | Success goes to /admin-home. The form is never reset. |
| RecipeForms.LoadSubmitRoundTrip | frontend/src/AdminComponents/UpdateRecipe.jsx:51-104 | Loading and submitting untouched sends back the recipe's own lists and text fields. This holds when each list is non-empty, comma-free and trimmed. |
| RecipeForms.UntouchedUpdateChangesNothing | frontend/src/AdminComponents/UpdateRecipe.jsx:94-104 | When each list is non-empty, comma-free and trimmed, both numbers are non-zero, the difficulty is non-empty and an image URL is present, the server's overwrite with the resubmitted body leaves the stored recipe unchanged. |
| RecipeForms.EmptyListResubmitted | frontend/src/AdminComponents/UpdateRecipe.jsx:54 | An empty stored list is resubmitted as `[""]`. |
| AccountForms.SignupRequest | frontend/src/pages/Signup.jsx:29-43 | Differing passwords send nothing. Otherwise the body has the trimmed name and email and the untrimmed password, with no role or admin code. |
| AccountForms.SignupSubmitted | frontend/src/pages/Signup.jsx:46-52 | Success clears all four fields and goes to /login. Failure keeps the form. |
| AccountForms.PageSignupIsNeverAdmin | frontend/src/pages/Signup.jsx:38-42 | Every account created through the page is a plain user. |
| AccountForms.PageSignupNeverFaults | frontend/src/pages/Signup.jsx:39-40 | Because the page trims first, the server answers its signups with 201 or 400, never 500. |
| AccountForms.ForgotRequest | frontend/src/pages/ForgotPassword.jsx:13-24 | An empty email sends nothing. Otherwise the trimmed email is sent. |
| AccountForms.ForgotNavigation | frontend/src/pages/ForgotPassword.jsx:28-33 | A refusal, or a link without "token=", stays on the page. Otherwise the reset page opens with the extracted token and the untrimmed email. |
| AccountForms.Prefill | frontend/src/pages/ResetPassword.jsx:10-18 | The email field starts from the query's email, or empty. |
| AccountForms.ResetPageGate | frontend/src/pages/ResetPassword.jsx:23-28 | A missing or empty token goes to /forgot-password. |
| AccountForms.ResetRequest | frontend/src/pages/ResetPassword.jsx:39-62 | An empty email or differing passwords send nothing. Otherwise the body has the trimmed email, the query token and the untrimmed password. |
| AccountForms.ResetSubmitted | frontend/src/pages/ResetPassword.jsx:66-72 | Success clears the form and goes to /login. Failure keeps the form. |
| AccountForms.ForgotPageOpensResetPage | frontend/src/pages/ForgotPassword.jsx:20-30 | When the server finds the account, the reset page opens with exactly the server's token and the untrimmed email, and its submit posts that token. |
| AccountForms.ForgotPageResetSucceeds | frontend/src/pages/ResetPassword.jsx:52-61 | The reset the pages post succeeds exactly while the token is less than fifteen minutes old. |

## Left out

- Express routing, CORS, `express.json`, the environment checks, the database connection and logging are plumbing and are not modelled. The generic 500 catch paths are left out, except signup's validator failure.
- Server.Authenticate: the `Authorization` header's word split is reduced to an optional token value.
- Store.Position: identifiers are natural numbers, so the 500 that an ill-formed ObjectId string causes in `findById` is not modelled.
- Server.FindByEmail: the query value is normalised by the schema's setters, which is a reading of the document mapper's query casting. Stored emails are normalised.
- Server.UpdateRecipe: the update is an overwrite of the supplied fields. The code passes `runValidators: true`, so an update that blanks a required field such as the category fails validation there and becomes a 500. The model leaves those validators out and answers 200 for such an update. Casting of body values is also not modelled.
- Server.CreateRecipe: the schema's `required` on arrays, and the casting of text to numbers, go beyond the handler's own truthiness check and are not modelled. `populate` on the recipe reads is left out.
- Crypto.Hash: bcrypt's salting and cost are not modelled. The hash is a deterministic injective function. Real bcrypt reads only the first 72 bytes of a password, so two passwords that agree on those bytes match each other's hash. The model does not capture this.
- Crypto.MatchesExactly: holds for the injective hash only. With bcrypt it fails for passwords that share their first 72 bytes.
- Invariants.ResetThenLogin: "the old password fails" holds for the injective hash only. It is false when the old and new passwords share their first 72 bytes.
- Models.Recipe: `cookingTime` and `servings` are integers. The schema's `Number` also admits fractions, which are not modelled.
- Server.ForgotPassword: body fields are modelled as strings. `express.json` accepts any JSON value, and `findOne({ email })` treats an object such as `{"$ne": ""}` as a query operator. Such an email finds the first user and returns that user's reset link. Operator objects are not modelled, so the claim that an unknown email is a 404 holds only for string emails and for a missing email, which is modelled.
- Server.ResetPassword: the same operator-object email matches the token's user whatever that user's email is. The model's "a user holding the submitted email" holds only for string emails.
- Server.Login: an operator-object email selects the first matching user as well. The password must still match, and this path is not modelled.
- Server.DashboardOf: the category tally is treated as a clean map in first-seen key order. A JavaScript object lists integer-like keys first. Category names inherited from `Object.prototype` misbehave: "__proto__" leaves the object empty and "constructor" gets a string value. Neither is modelled.
- Stats.CategoryCounts: key order and category names that are `Object.prototype` members are not modelled, as for Server.DashboardOf.
- Stats.CategorySumBound: the "sum equals the recipe count" direction fails in the code for a category named "__proto__" or "constructor". Those names are not modelled.
- Crypto.Verify: signature bytes and base64 decoding are not modelled.
- Gates.GatesAgreeOnLoginTokens: every login token is taken to be readable on all three pages. The admin home and update pages decode the payload with `atob`, which rejects the base64url characters '-' and '_', while the add page's `jwtDecode` accepts them. A login token whose payload encodes to either character therefore splits the gates: for an admin, the admin home goes to /, the update page goes to /login, and the add page stays. Base64 decoding is not modelled.
- The `timestamps` option and the unused reset-token fields of the user schema are left out, as is `nodemailer`.
- Text.LowerChar: lower-cases ASCII letters only. Characters outside ASCII are left as they are, unlike `toLowerCase`.
- Analysis.ComputeStats: thirty days is a fixed 2,592,000 seconds of the model's clock, not calendar days in milliseconds. The category tally has the same object-key limits as Server.DashboardOf.
- RecipeForms.ToRequestBody: how the server converts a typed number field's text to a number is a parameter `cast`, not modelled.
- AccountForms.ForgotNavigation: `encodeURIComponent` and `URLSearchParams` are treated as an exact round trip. The navigation returns the query values the reset page reads.
- AccountForms.ForgotPageOpensResetPage: the token's text form is a parameter. Its having no '&' or "token=" is assumed, as it holds for base64url-encoded tokens.
- React rendering, hooks, timers, pop-ups, alerts, `localStorage` and `fetch` are left out. A failed or thrown request is the `ok = false` outcome.
- The login, profile, header, footer and about pages and the app's route table only perform storage and fetch effects or render markup. The profile page's logout clears local storage and never calls the server.
- Concurrent requests and last-write-wins between them are storage-layer behaviour and are not modelled. Handlers run one at a time.
