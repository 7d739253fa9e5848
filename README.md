# Inventory Management App — a verified model of its core

The Inventory Management App is a React Native client. Admins and customers
sign in through a proxy that forwards requests to an n8n back end. Admins see
a dashboard and an inventory list, and they add and edit items through two
forms. The app keeps a cart with stock and expiry rules. This project models,
in Dafny, the logic of that client that does not depend on the UI:

- **Session** (`AuthState`, `AuthFlow`, `Session`, `Jwt`, `Base64`, `Storage`):
  - the authentication reducer and its queries;
  - the start-up restore from the device store;
  - the admin and customer sign-ins with their token-extraction chains and role checks;
  - sign-out;
  - the client-side JWT payload decoder, with `atob` as the forgiving-base64 decode of the WHATWG Infra standard over the alphabet of section 4 of RFC 4648.
- **HTTP client** (`Api`):
  - the Authorization header cell and the 401 callback;
  - the proxy-envelope reader `parseProxyResponse`;
  - the recursive `findToken`;
  - the login calls, which store any token they find.
- **Inventory service** (`InventoryService`):
  - the recursive `findFirstArray`;
  - the field-name normaliser `getNormalizedValue`;
  - the item-list extractor `extractItems` and the record mapping of `getAllItems`;
  - `handleError` and the item `createItem` builds.
- **Cart** (`Cart`):
  - the reducer and its running-total invariant;
  - unique item ids;
  - `canAddItem`, `addItem`, `updateQuantity` and the cart queries.
- **Screens and forms**:
  - the expiry, low-stock and button rules of an inventory row (`ItemRow`);
  - the dashboard's envelope reader, list selection, statistics and load (`Dashboard`);
  - the inventory screen's error messages, low-stock summary, loads and additions (`InventoryScreen`);
  - the add and edit forms (`Forms`, `AddItemModal`, `UpdateItemModal`);
  - the root screen choice (`AppNavigator`).
- **Configuration** (`Config`, `ProxyUrl`):
  - the constants;
  - `buildProxyUrl`, with `encodeURIComponent` as in section 15.1.3.4 of ECMA-262 (5.1) and UTF-8 as in section 3 of RFC 3629.

Conventions:
- JSON values are the `Json` datatype. Object keys keep their key order. JavaScript `undefined` is `None`; `null` is `JNull`.
- Numbers are integers, and prices are whole minor units (cents).
- Times are integer milliseconds.
- These are parameters of the operations that need them:
  - `JSON.parse`, `parseFloat`, `Number` on strings and `new Date`;
  - the server's answer (an `HttpOutcome`);
  - the random ids.
- The device store is the `Storage.SecureStore` class: a map plus whether the store is available.
- Where the source changes state in place — the client, the store, the authentication provider, the forms and the screens — the model is a class with those fields. The pure rules are functions, and lemmas relate the two.

## Model

| member | source | states |
|---|---|---|
| AuthState.Reduce | src/hooks/useAuth.tsx:25-49 | SET_LOADING and SET_TOKEN change only their field; SET_USER sets user, token and type and ends loading; CLEAR_USER empties every field and ends loading |
| AuthState.IsAuthenticated | src/hooks/useAuth.tsx:373-375 | authenticated only with a user and a non-empty (truthy) token |
| AuthState.IsAdmin | src/hooks/useAuth.tsx:377-379 | an admin is never a customer |
| AuthState.IsCustomer | src/hooks/useAuth.tsx:381-383 | a customer has a user whose role is not admin |
| AuthState.InitialStateLoading | src/hooks/useAuth.tsx:51-57 | the initial state is loading, not authenticated, neither admin nor customer |
| AuthState.ClearUserForgets | src/hooks/useAuth.tsx:39-45 | CLEAR_USER yields the signed-out state from any state, applying it twice equals once, and no query holds afterwards |
| AuthState.ClearUserCommutesWithLoadingOff | src/hooks/useAuth.tsx:288-289 | the 401 sign-out and the failed sign-in's loading reset give the same state in either order |
| AuthState.SetUserQueries | src/hooks/useAuth.tsx:373-383 | after SET_USER the session is authenticated iff the token is non-empty, admin iff the role is "admin", customer iff it is "customer" |
| AuthState.RolesExclusive | src/hooks/useAuth.tsx:377-383 | no state is both admin and customer |
| AuthFlow.ReplyValue | src/services/api.ts:108-113 | a login call yields a value exactly when the request returned and the envelope was not null |
| AuthFlow.RestoreDecision | src/hooks/useAuth.tsx:102-135 | a resumed session carries the stored token and type and a user whose role is that type |
| AuthFlow.RestoredUser | src/hooks/useAuth.tsx:109-114 | the restored user has the stored type as role, the payload's email, no phone, and always a truthy id and name |
| AuthFlow.HasRole | src/hooks/useAuth.tsx:108 | only an object payload has a role |
| AuthFlow.RestoreDecisionCases | src/hooks/useAuth.tsx:105-132 | resume iff both keys are non-empty and the decoded payload's role equals the stored type; nothing to restore iff a key is missing or empty; a resumed token has two dots |
| AuthFlow.ParsedToken | src/hooks/useAuth.tsx:190-194 | a token read from a JSON text is truthy |
| AuthFlow.WrappedToken | src/hooks/useAuth.tsx:184-209 | the token from the first three steps of the chain is truthy |
| AuthFlow.DataToken | src/hooks/useAuth.tsx:226-234 | the last step only takes a string `data.token` |
| AuthFlow.AdminTokenCandidate | src/hooks/useAuth.tsx:182-234 | the settled token is truthy or a string |
| AuthFlow.AdminTokenShape | src/hooks/useAuth.tsx:246-251 | a token is accepted iff it is a string with exactly three dot-separated parts, and it is kept as it is |
| AuthFlow.AdminUser | src/hooks/useAuth.tsx:257-262 | the id is `sub`, else `id`, else "admin"; the name defaults to "Admin"; the email falls back to the login email; the role is admin and there is no phone |
| AuthFlow.AdminSignInAccepted | src/hooks/useAuth.tsx:237-287 | accepted iff the settled token is a non-empty string with three parts whose payload says admin; the token then has two dots and the user is `AdminUser` of its payload and the login email |
| AuthFlow.AdminSignIn | src/hooks/useAuth.tsx:142-297 | a rejected request is rethrown, an empty proxy answer is "Bad response from proxy", a falsy token is "Invalid admin token received", and a string token with three parts and an admin payload is accepted with `AdminUser` of that payload |
| AuthFlow.AdminDirectTokenFirst | src/hooks/useAuth.tsx:185-187 | a truthy `response.token` wins over every other step |
| AuthFlow.AdminMessageShadowsUpstream | src/hooks/useAuth.tsx:188-209 | a string `message` without a token hides a token in `upstreamBody`, and the sign-in fails with "Invalid admin token received" |
| AuthFlow.AdminEmptyDataToken | src/hooks/useAuth.tsx:226-243 | an empty `data.token` is taken and then refused as no token |
| AuthFlow.CustomerTokenCandidate | src/hooks/useAuth.tsx:309 | reading `response.token` throws exactly when the response is null |
| AuthFlow.OrElseOpt | src/hooks/useAuth.tsx:320-322 | `a \|\| b` on possibly undefined values: truthy iff either operand is, and always one of the two |
| AuthFlow.CustomerUser | src/hooks/useAuth.tsx:318-324 | the id is `sub`, else `id`, else "customer"; the name, email and phone fall back to the form's values; the role is customer |
| AuthFlow.CustomerSignInAccepted | src/hooks/useAuth.tsx:309-338 | accepted iff the settled token is a non-empty string whose payload says customer; the token then has two dots and the user is `CustomerUser` of its payload and the form; a truthy token that is not a string is refused |
| AuthFlow.CustomerSignIn | src/hooks/useAuth.tsx:299-345 | a rejected request is rethrown, an empty proxy answer is "Bad response from proxy", a falsy token is "Invalid customer token received", and a string token with a customer payload is accepted with `CustomerUser` of that payload and the form |
| AuthFlow.SignInUsesStoredToken | src/services/api.ts:117-147 | the token a login call stored is the one both sign-ins then settle on |
| AuthFlow.AdminSessionRestored | src/hooks/useAuth.tsx:102-126 | an accepted admin session is resumed at the next start with the same token, role and name, and the same id when the payload has `sub` or `id` |
| AuthFlow.CustomerSessionRestored | src/hooks/useAuth.tsx:105-126 | the same for a customer session; the name agrees when the payload has one |
| Session.ClearedEntries | src/hooks/useAuth.tsx:357-367 | with the store available both keys are gone and every other entry is kept; otherwise nothing changes |
| Session.StartupDecision | src/hooks/useAuth.tsx:98-140 | an unavailable store gives no session; a resumed session carries exactly the stored token and type, and a user whose role is that type |
| Session.ClearedEntriesIdempotent | src/hooks/useAuth.tsx:347-355 | clearing twice equals clearing once |
| Session.ClearAfterSignIn | src/hooks/useAuth.tsx:357-367 | a sign-in's two writes followed by a clear leave what a clear alone leaves |
| Session.SignedInAfterLogin | src/hooks/useAuth.tsx:265-270 | the entries after an accepted sign-in do not depend on what the login call wrote first |
| Session.AuthProvider.constructor | src/hooks/useAuth.tsx:82-83 | the provider starts in the initial state |
| Session.AuthProvider.InstallUnauthorizedCallback | src/hooks/useAuth.tsx:91-96 | the client has a 401 callback afterwards |
| Session.AuthProvider.ClearStoredAuth | src/hooks/useAuth.tsx:357-367 | the header is dropped and the entries are `ClearedEntries` of the old ones |
| Session.AuthProvider.SignOut | src/hooks/useAuth.tsx:347-355 | ends signed out, with no header and both keys cleared, from any state |
| Session.AuthProvider.HandleRejected | src/services/api.ts:24-38 | a 401 with a callback installed signs out; any other failure changes nothing |
| Session.AuthProvider.InitializeAuth | src/hooks/useAuth.tsx:98-140 | resumes with the stored token as header and nothing deleted; wipes both keys and signs out when the payload's role differs; signs out with the store untouched when a key is missing or the store throws |
| Session.AuthProvider.RestoreSession | src/hooks/useAuth.tsx:105-132 | with two non-empty keys: SET_USER with the header installed, or both keys cleared and signed out |
| Session.AuthProvider.SettleAdminToken | src/hooks/useAuth.tsx:182-234 | the loop-free reassignment chain settles on `AdminTokenCandidate` |
| Session.AuthProvider.StoreAdminSession | src/hooks/useAuth.tsx:265-279 | SET_USER as admin; with the store available both keys are written and the header installed, otherwise the store and header are unchanged |
| Session.AuthProvider.StoreCustomerSession | src/hooks/useAuth.tsx:326-335 | succeeds iff the store is available, then writes both keys, installs the header and sets the user; otherwise only loading ends and the error is passed on |
| Session.AuthProvider.AdminAttempt | src/hooks/useAuth.tsx:182-296 | succeeds iff `AdminSignIn` accepts; on failure only loading ends (after the 401 sign-out when it fires) and the error is rethrown |
| Session.AuthProvider.SignInAdmin | src/hooks/useAuth.tsx:142-297 | the whole sign-in: on failure the user, token and type keep their values and the store holds only what the login call wrote |
| Session.AuthProvider.CustomerAttempt | src/hooks/useAuth.tsx:309-344 | as `AdminAttempt` with the customer's token rule; a failed store write fails the sign-in |
| Session.AuthProvider.SignInCustomer | src/hooks/useAuth.tsx:299-345 | the whole customer sign-in, with the same guarantees as `SignInAdmin` |
| Storage.SecureStore.constructor | src/services/api.ts:4 | the store holds the given entries and availability |
| Storage.SecureStore.GetItem | src/hooks/useAuth.tsx:102-103 | throws iff the store is unavailable; otherwise the stored string, or null for a missing key |
| Storage.SecureStore.SetItem | src/services/api.ts:98-100 | succeeds iff the store is available and the value is a string, and then only that key changes |
| Storage.SecureStore.DeleteItem | src/services/api.ts:87-89 | succeeds iff the store is available, and then only that key is removed |
| Jwt.ToStandardAlphabet | src/hooks/useAuth.tsx:416 | same length; every `-` becomes `+`, every `_` becomes `/`, all else is kept |
| Jwt.Padded | src/hooks/useAuth.tsx:417 | the input followed by the fewest `=` (at most three) that make the length a multiple of four |
| Jwt.PadBase64 | src/hooks/useAuth.tsx:417 | the padding loop computes `Padded` |
| Jwt.StandardPayloadTextShape | src/hooks/useAuth.tsx:416-417 | the text given to `atob` has no `-` or `_`, keeps the other characters in place and ends in padding only |
| Jwt.DecodeJwtPayload | src/hooks/useAuth.tsx:410-444 | the decoder with its loop returns what `JwtPayload` defines |
| Jwt.JwtPayload | src/hooks/useAuth.tsx:410-444 | a payload comes only from a non-empty token with exactly two dots, and it is what `JSON.parse` gave for some text |
| Jwt.PayloadNeedsTwoDots | src/hooks/useAuth.tsx:412-414 | a payload is only read from a token with exactly two dots |
| Jwt.StandardOfUrl | src/hooks/useAuth.tsx:416 | the replacement turns base64url text into the standard base 64 text of the same bytes |
| Jwt.PayloadOfEncodedToken | src/hooks/useAuth.tsx:410-439 | a token whose middle part is the base64url text of some bytes decodes to `JSON.parse` of those bytes |
| Base64.Sextets | src/hooks/useAuth.tsx:421-422 | the sextet count of a byte string; never one more than a multiple of four |
| Base64.SextetsRoundTrip | src/hooks/useAuth.tsx:421-422 | decoding the sextets of any bytes gives the bytes back |
| Base64.EncodeUrl | src/hooks/useAuth.tsx:416 | base64url text has no `.`, `=`, `+` or `/` |
| Base64.StripAsciiWhitespace | src/hooks/useAuth.tsx:421-422 | the first step of `atob` removes ASCII white space and keeps text without any |
| Base64.StripPadding | src/hooks/useAuth.tsx:421-422 | at most two trailing characters are removed |
| Base64.Atob | src/hooks/useAuth.tsx:421-422 | a successful decode is a binary string (every character below 256) |
| Base64.StripPaddingOfPadded | src/hooks/useAuth.tsx:417-422 | removing the padding the decoder added gives the unpadded text back |
| Base64.NoWhitespace | src/hooks/useAuth.tsx:416-422 | padded standard text has no white space to strip |
| Base64.AtobOfEncodeStd | src/hooks/useAuth.tsx:416-422 | `atob` of the padded standard text of any bytes is those bytes |
| Api.ParseProxyResponse | src/services/api.ts:43-70 | ok iff the data is not null, with null parsed otherwise; a truthy `token` keeps the data; otherwise a string `upstreamBody` gives its parse, or `{raw: body}` when it is not JSON, a truthy object `upstreamBody` is returned as it is, and any other data is kept; the parsed value differs from the data only when there is an `upstreamBody` |
| Api.OwnToken | src/services/api.ts:126-127 | a node's own token is a non-empty string |
| Api.FindToken | src/services/api.ts:125-138 | a found token is non-empty; a node's own token wins over its children's; nothing is found in a primitive |
| Api.FindTokenFromFirstHit | src/services/api.ts:128-136 | children are searched in key order: when child j is the first from i on whose tree carries a token, the search gives child j's token |
| Api.FindTokenNested | src/services/api.ts:125-138 | a token two objects deep (`{a:{b:{token:"z"}}}`) is found |
| Api.FindTokenFrom | src/services/api.ts:128-136 | the search over the children from the i-th key on finds only non-empty tokens |
| Api.FindTokenComplete | src/services/api.ts:125-138 | a token is found iff some array or object node of the tree carries one |
| Api.FindTokenFromComplete | src/services/api.ts:128-136 | the child search finds a token iff some later child's tree carries one |
| Api.FindTokenSound | src/services/api.ts:125-138 | the token found is one that some node of the tree carries |
| Api.FindTokenFromSound | src/services/api.ts:128-136 | the child search returns a token some child's tree carries |
| Api.LoginStoresReturnedToken | src/services/api.ts:117-147 | a token is stored iff the returned value has a truthy `token`, and it is that value |
| Api.LoginResult | src/services/api.ts:108-147 | rejected iff the request failed, with its error; a bad proxy response iff the data was null; otherwise the parsed answer when it has a truthy `token`, else `{token}` of the token `FindToken` finds, else the parsed answer |
| Api.LoginToken | src/services/api.ts:115-145 | what is stored comes from a non-null answer: the parsed answer's truthy `token`, else the token `FindToken` finds, else nothing |
| Api.ApiClient.FiresUnauthorized | src/services/api.ts:23-35 | the 401 callback fires only when one is installed and the error has a response |
| Api.LoginFailureStoresNothing | src/services/api.ts:108-113 | a rejected request or a null envelope stores no token |
| Api.BearerHeader | src/services/api.ts:72-78 | a header exists iff the token is non-empty, and it is exactly `Bearer ` followed by the token |
| Api.EntriesAfterSetToken | src/services/api.ts:98-105 | only the JWT key is written, and only when the store works and the token is a string |
| Api.ApiClient.constructor | src/services/api.ts:10-21 | no header, no callback, and the configured login paths |
| Api.ApiClient.SetAxiosTokenHeader | src/services/api.ts:72-78 | the header becomes `BearerHeader(token)` |
| Api.ApiClient.SetToken | src/services/api.ts:98-105 | the header is installed only after the store write succeeded; a failed write leaves store and header as they were |
| Api.ApiClient.ClearToken | src/services/api.ts:87-95 | the header is removed even when the delete fails; only the JWT key is deleted |
| Api.ApiClient.SetUnauthorizedCallback | src/services/api.ts:82-84 | a callback is installed |
| Api.ApiClient.Login | src/services/api.ts:108-148 | POSTs to the proxy URL of the path; returns `LoginResult` and leaves the store and header as the stored token requires |
| Api.ApiClient.HandleLoginOutcome | src/services/api.ts:111-147 | the reply is `LoginResult`; the JWT key and the header change only when `LoginToken` finds a token and the store takes it |
| InventoryService.FirstArray | src/services/inventoryService.ts:12-28 | what is found is a non-empty array whose first element is an object or null; such an array is its own answer; nothing is found in a primitive |
| InventoryService.FirstArrayFromFirstHit | src/services/inventoryService.ts:17-26 | children are searched in key order: when child j is the first from i on whose tree has a record array, the search gives child j's answer |
| InventoryService.NumbersAreNoRecords | src/services/inventoryService.ts:12-28 | `{a:[1,2,3]}` has no list of records |
| InventoryService.FirstArrayFrom | src/services/inventoryService.ts:17-26 | the same for the search over the children |
| InventoryService.FindFirstArray | src/services/inventoryService.ts:12-28 | the loop over the keys returns `FirstArray` |
| InventoryService.FirstArrayComplete | src/services/inventoryService.ts:12-28 | an array is found iff some node of the tree is such an array |
| InventoryService.FirstArrayFromComplete | src/services/inventoryService.ts:17-26 | the child search finds one iff some later child's tree has one |
| InventoryService.FirstArraySound | src/services/inventoryService.ts:12-28 | what is found is a node of the tree, not a new value |
| InventoryService.FirstArrayFromSound | src/services/inventoryService.ts:17-26 | the same for the child search |
| InventoryService.LowerAscii | src/services/inventoryService.ts:41 | no upper-case ASCII letter survives; other characters are kept by this model |
| InventoryService.ToLowerAsciiLowers | src/services/inventoryService.ts:41 | the lowered text has no upper-case ASCII letter, and text without one is unchanged by this model |
| InventoryService.RemoveSpacesShape | src/services/inventoryService.ts:41 | the result has no white space and only characters of the input, and text without white space is unchanged |
| InventoryService.NormalizeKeyShape | src/services/inventoryService.ts:41 | a normalised key has no white space and no upper-case ASCII letter |
| InventoryService.NormalizeKey | src/services/inventoryService.ts:41 | a normalised key has no white space and no upper-case ASCII letter |
| InventoryService.NormalizeKeyIdempotent | src/services/inventoryService.ts:41-47 | normalising twice equals normalising once |
| InventoryService.LastKeyWith | src/services/inventoryService.ts:39-43 | the key stored for a normalised name normalises to that name |
| InventoryService.GetNormalizedValue | src/services/inventoryService.ts:30-52 | the two loops and the map return `NormalizedValue` |
| InventoryService.FirstExactMatch | src/services/inventoryService.ts:34-36 | the exact-match loop returns `ExactMatch` |
| InventoryService.NormalizedKeyMap | src/services/inventoryService.ts:39-43 | the map holds a name iff some key normalises to it, and then the last such key |
| InventoryService.FirstNormalizedMatch | src/services/inventoryService.ts:46-49 | the normalised loop returns `NormalizedMatch` |
| InventoryService.LastKeyAbsent | src/services/inventoryService.ts:39-43 | the map has no entry for a name iff no key normalises to it |
| InventoryService.LastKeyWins | src/services/inventoryService.ts:39-43 | the entry is the last key, in key order, that normalises to the name |
| InventoryService.LookupSound | src/services/inventoryService.ts:35 | a property read returns the value of a field with that key |
| InventoryService.ExactMatchSound | src/services/inventoryService.ts:34-36 | an exact match is the value of a field whose key is a candidate |
| InventoryService.NormalizedMatchSound | src/services/inventoryService.ts:46-49 | a normalised match is the value of some field |
| InventoryService.NormalizedValueSound | src/services/inventoryService.ts:30-52 | whatever is returned is the value of one of the item's own fields |
| InventoryService.NormalizedValue | src/services/inventoryService.ts:30-52 | a value is found only in a truthy object, and it is the value of one of the item's own fields |
| InventoryService.ExactMatchFirst | src/services/inventoryService.ts:30-36 | the first candidate that is an own key wins over every normalised match |
| InventoryService.ExactMatchAt | src/services/inventoryService.ts:34-36 | the exact match is the first candidate present |
| InventoryService.ExtractItemsOfArray | src/services/inventoryService.ts:222-224 | an array response is its own item list |
| InventoryService.ExtractItemsUnparsableBody | src/services/inventoryService.ts:184-193 | a non-empty string body that is not JSON gives no items, whatever else the response holds |
| InventoryService.ExtractItemsSingleRecord | src/services/inventoryService.ts:207-217 | a single record with an item-like key, sent as the body, becomes a one-element list |
| InventoryService.ExtractItemsAgreesWithEnvelope | src/services/inventoryService.ts:184-200 | without a token, the extractor and `parseProxyResponse` read the same array out of a string body |
| InventoryService.IntOrZeroOfNumber | src/services/inventoryService.ts:84 | a numeric quantity survives `String` then `parseInt` |
| InventoryService.TruthyOrNone | src/services/inventoryService.ts:79-80 | a value is kept iff it is present and truthy, and what is kept is the value itself |
| InventoryService.BuildItem | src/services/inventoryService.ts:74-93 | the id is a string; expiry and description are present iff truthy |
| InventoryService.MapItem | src/services/inventoryService.ts:71-94 | every mapped record has a string id |
| InventoryService.BuildItemDefaults | src/services/inventoryService.ts:74-80 | with nothing found: the random id, an empty name, price 0, quantity 0, no expiry, no description |
| InventoryService.MapItemOfPrimitive | src/services/inventoryService.ts:71-94 | a value that is not a record maps to the default item |
| InventoryService.BuildItemNumbers | src/services/inventoryService.ts:83-84 | numeric quantity and price are taken as they are |
| InventoryService.BuildItemStrings | src/services/inventoryService.ts:86-88 | a non-empty string id and a string name are kept |
| InventoryService.HandleErrorPriority | src/services/inventoryService.ts:104-112 | the server's message wins, then the error's own, then "An unknown error occurred", with or without a response |
| InventoryService.HandleError | src/services/inventoryService.ts:104-112 | a truthy `data.message` from the server is the message, as `String` writes it; otherwise the error's own message, or "An unknown error occurred" when it has none |
| InventoryService.AllItems | src/services/inventoryService.ts:55-102 | a response gives one mapped item per extracted record; a failure gives `handleError`'s message |
| InventoryService.CreatedItem | src/services/inventoryService.ts:114-140 | succeeds iff the request did; keeps the submitted fields; the id is the server's `itemId` when truthy and the random id otherwise; fails with `handleError`'s message |
| InventoryService.ExtractItems | src/services/inventoryService.ts:177-257 | an unparsable string `upstreamBody` gives no items; a read body gives itself if an array, else its `items` array, else itself as one record when a key looks like an item field; past that, the response array, `items`, `data.items`, `data`, then `message` parsed as an array or holding `items`, else no items |
| Cart.FindIndex | src/hooks/useCart.tsx:17-19 | the index of the first line with the id, or the length when none has it |
| Cart.InCart | src/hooks/useCart.tsx:190-192 | an id is in the cart iff `find` finds its line |
| Cart.Total | src/hooks/useCart.tsx:97-102 | with non-negative prices and quantities the total is non-negative |
| Cart.Count | src/hooks/useCart.tsx:178-180 | with non-negative quantities the count is non-negative and at least every line's quantity |
| Cart.ItemQuantity | src/hooks/useCart.tsx:173-176 | 0 for an id not in the cart |
| Cart.Increment | src/hooks/useCart.tsx:24-28 | same length; matching lines gain one, the others are kept |
| Cart.SetQuantity | src/hooks/useCart.tsx:68-70 | same length; matching lines get the quantity, the others are kept |
| Cart.Without | src/hooks/useCart.tsx:45-47 | no remaining line has the id |
| Cart.Reduce | src/hooks/useCart.tsx:14-94 | every state returned has `total == calculateTotal(items)` |
| Cart.TotalAppend | src/hooks/useCart.tsx:97-102 | appending a line adds its price times quantity to the total |
| Cart.TotalOfOneLine | src/hooks/useCart.tsx:97-102 | changing one line's quantity changes the total by the difference times its price |
| Cart.IncrementUnique | src/hooks/useCart.tsx:17-28 | with unique ids the map changes exactly the line found |
| Cart.AddItemExisting | src/hooks/useCart.tsx:16-41 | ADD_ITEM on an id in the cart adds one to that line only and grows the total by its price |
| Cart.AddItemNew | src/hooks/useCart.tsx:29-41 | ADD_ITEM on a new id appends a line of quantity 1 and grows the total by the price |
| Cart.AddItemKeepsUnique | src/hooks/useCart.tsx:16-36 | ADD_ITEM keeps the ids unique |
| Cart.WithoutKeeps | src/hooks/useCart.tsx:44-52 | a line survives REMOVE_ITEM iff it was in the cart with another id |
| Cart.WithoutAbsent | src/hooks/useCart.tsx:44-52 | removing an absent id changes nothing |
| Cart.RemoveItemEffect | src/hooks/useCart.tsx:44-52 | afterwards the id is absent; a second removal changes nothing; unique ids stay unique |
| Cart.WithoutUnique | src/hooks/useCart.tsx:44-52 | the filter keeps the ids unique |
| Cart.UpdateToZeroRemoves | src/hooks/useCart.tsx:54-66 | UPDATE_QUANTITY to 0 or less is REMOVE_ITEM |
| Cart.UpdatePositive | src/hooks/useCart.tsx:68-75 | a positive update keeps the length and every line's item, keeps ids unique, and leaves a cart without the id unchanged |
| Cart.ClearCartEmpties | src/hooks/useCart.tsx:78-82 | CLEAR_CART gives the empty cart with total 0 |
| Cart.TotalInvariant | src/hooks/useCart.tsx:14-102 | every state reached from the empty cart by any actions has the right total |
| Cart.ItemQuantityFound | src/hooks/useCart.tsx:173-192 | with unique ids, `isItemInCart` holds and `getItemQuantity` reads the line that has the id |
| Cart.CanAddItem | src/hooks/useCart.tsx:194-224 | allowed iff not expired before today and cart quantity plus request is within stock; expiry is reported first |
| Cart.AddItemChecked | src/hooks/useCart.tsx:138-147 | dispatches ADD_ITEM iff `canAddItem(item, 1)` allows it, else fails with its reason |
| Cart.AddItemWithinStock | src/hooks/useCart.tsx:138-147 | after an accepted add the item's line is within its stock |
| Cart.UpdateQuantityAsWritten | src/hooks/useCart.tsx:154-166 | dispatches UPDATE_QUANTITY unless the check refuses; never refuses an absent id or a quantity of 0 or less; for a line in the cart and a positive quantity, accepted iff `canAddItem(line, quantity)` is, refused with its reason |
| Cart.UpdateQuantityAsWrittenWithinStock | src/hooks/useCart.tsx:154-161 | as written, a positive quantity is accepted iff the item has not expired and the line's current quantity plus the new one is within stock |
| Cart.UpdateQuantityChecked | src/hooks/useCart.tsx:154-166 | the corrected update, with the same dispatch and never-refused cases; for a line in the cart it asks `canAddItem` for the difference to the current quantity |
| Cart.UpdateQuantityCheckedWithinStock | src/hooks/useCart.tsx:154-166 | the corrected update accepts a positive quantity iff the item has not expired and the quantity is within stock, and the line then holds it |
| Cart.UpdateQuantityRefusesWithinStock | src/hooks/useCart.tsx:154-161 | with 4 in stock and 2 in the cart, setting 3 is refused as written and accepted when corrected |
| Cart.CountOfUnitLines | src/hooks/useCart.tsx:178-180 | the count sums units: lines of one unit each count as the number of lines |
| ItemRow.CeilDivBounds | src/components/ItemRow.tsx:203-205 | `Math.ceil(a / b)` is the least d with `a <= d * b` |
| ItemRow.CheckExpiryStatus | src/components/ItemRow.tsx:198-211 | no date gives neither flag; an item is never both expired and expiring soon |
| ItemRow.ExpiryStatusByTime | src/components/ItemRow.tsx:203-210 | expired iff the date is a whole day or more before now; expiring soon iff it is less than a day before now or at most seven days after |
| ItemRow.ExpiryAgreesWithCart | src/components/ItemRow.tsx:198-211 | for a date at the start of a day, the row's expired flag agrees with the cart's expiry refusal |
| ItemRow.Controls | src/components/ItemRow.tsx:48-167 | minus disabled iff the cart holds none; plus disabled iff the cart holds the whole stock or the item has expired; add-to-cart disabled iff there is no stock or it has expired; the alert icon iff expired, the warning icon iff low and not expired |
| ItemRow.ControlsByTime | src/components/ItemRow.tsx:101-167 | with a parsed date e, plus and add-to-cart are enabled iff within stock and now is before e plus a day, and the alert icon shows iff now is past it |
| ItemRow.ControlsWithoutExpiry | src/components/ItemRow.tsx:101-167 | without a date the buttons depend on stock alone, and the warning icon shows iff the stock is low |
| Dashboard.ExtractUpstreamData | src/screens/AdminDashboard.tsx:46-75 | null for null or for a value that is not an object; a string `upstreamBody` gives its parse, or `{raw: body}` when it is not JSON; a truthy object `upstreamBody` is returned as it is, and a truthy primitive one gives null; an object whose `upstreamBody` is missing, or falsy and not a string, is returned as it is |
| Dashboard.ExtractAgreesWithClient | src/screens/AdminDashboard.tsx:46-75 | without a token it unwraps exactly as `parseProxyResponse` does; with a token only the client keeps the envelope |
| Dashboard.FirstArrayValue | src/screens/AdminDashboard.tsx:117-123 | found iff some top-level field holds an array, and then it is that field's array with no earlier field holding one |
| Dashboard.SelectItems | src/screens/AdminDashboard.tsx:109-125 | an array is its own list; else an `items` array; else an `inventory` array; a primitive, or an object with no array-valued field, gives the empty list; every list is empty, the data itself or one of its fields' arrays |
| Dashboard.SelectFirstArrayField | src/screens/AdminDashboard.tsx:115-123 | with neither `items` nor `inventory` an array, the list is the array of the first array-valued field in key order |
| Dashboard.ItemsKeyPreferred | src/screens/AdminDashboard.tsx:109-114 | an `items` array is chosen over every other field |
| Dashboard.CountWhere | src/screens/AdminDashboard.tsx:160-172 | `filter(p).length`: the number of positions whose element satisfies `p`, never more than the length |
| Dashboard.DisjointCounts | src/screens/AdminDashboard.tsx:163-172 | two counts whose conditions exclude each other add up to at most the length |
| Dashboard.CalculateStats | src/screens/AdminDashboard.tsx:152-176 | the statistics throw iff a record is null; `totalItems` is the length, and the low-stock, expiring-soon and expired counts are the numbers of records that are low on stock, expire within seven days, and have expired |
| Dashboard.StatsBounded | src/screens/AdminDashboard.tsx:158-173 | the low-stock count, and expiring-soon plus expired, are at most the total |
| Dashboard.NoDateNoExpiry | src/screens/AdminDashboard.tsx:164-169 | a record without a date counts as neither expiring soon nor expired |
| Dashboard.DashboardScreen.constructor | src/screens/AdminDashboard.tsx:26-37 | starts loading with no items and zero statistics |
| Dashboard.DashboardScreen.LoadDashboardData | src/screens/AdminDashboard.tsx:77-144 | mock mode gives an empty list; a failed request raises the alert and keeps the list and statistics; a response sets the selected list and its statistics; loading always ends |
| InventoryScreen.FailureText | src/screens/InventoryScreen.tsx:87-103 | every message is non-empty; a server error shows its status, or "Unknown" for 0 |
| InventoryScreen.ClassifyLoadError | src/screens/InventoryScreen.tsx:87-103 | authentication iff 401, access denied iff 403, not found iff 404; network iff there is no response or the code is NETWORK_ERROR and the status is none of those; otherwise a server error with its status |
| InventoryScreen.RethrownError | src/services/inventoryService.ts:98-101 | the rethrown error has neither a response nor a code |
| InventoryScreen.LoadFailureAlwaysNetwork | src/services/inventoryService.ts:98-101 | as written, every failed load shows the network message |
| InventoryScreen.UnauthorizedReportedAsNetwork | src/screens/InventoryScreen.tsx:87-88 | on a 401 the program keeps the list and shows the network message, while the intended load asks for a new login |
| InventoryScreen.LowStockCount | src/screens/InventoryScreen.tsx:252-256 | the summary never exceeds the number of items |
| InventoryScreen.LowStockAppend | src/screens/InventoryScreen.tsx:252-256 | appending an item adds one iff it is low on stock |
| InventoryScreen.LowStockAll | src/screens/InventoryScreen.tsx:254-255 | when every item is low, the summary counts them all |
| InventoryScreen.AfterLoad | src/screens/InventoryScreen.tsx:55-122 | mock mode shows the two sample items; a response shows `getAllItems`' list, item i mapped from the i-th extracted record; an alert iff not mock and the request failed, the old list then stays and the alert is the message classified from the error `getAllItems` rethrew, which is always the network message |
| InventoryScreen.AfterLoadIntended | src/screens/InventoryScreen.tsx:87-103 | the load with the request's own error classified: the same lists as `AfterLoad`; an alert iff not mock and the request failed, the old list then stays and the message is the text of `ClassifyLoadError` of that error |
| InventoryScreen.IntendedDiffersOnlyInText | src/screens/InventoryScreen.tsx:80-108 | the program and the intended load keep the same list and alert on the same loads; their texts differ only when the request's own error is not a network failure |
| InventoryScreen.ForbiddenReportedAsNetwork | src/screens/InventoryScreen.tsx:88-97 | on a 403 the program keeps the list and shows the network message, while the intended load says access was denied |
| InventoryScreen.RefusedLoadMessages | src/screens/InventoryScreen.tsx:87-98 | in the intended load, a 401 keeps the list and asks for a new login, a 403 or 404 names its cause, and a request without a response reports the network |
| InventoryScreen.Screen.constructor | src/screens/InventoryScreen.tsx:39-47 | starts loading with no items and no alert |
| InventoryScreen.Screen.LoadInventoryData | src/screens/InventoryScreen.tsx:55-122 | list and alert become `AfterLoad` of the old list, so a failed load always alerts the network message; loading always ends |
| InventoryScreen.Screen.AddItem | src/screens/InventoryScreen.tsx:130-154 | mock mode appends one item with the random id; a failed create passes `handleError`'s message on and changes nothing; a created item reloads the list as `AfterLoad` does |
| InventoryScreen.MockAddRaisesLowStock | src/screens/InventoryScreen.tsx:134-141 | the list a mock addition leaves raises the low-stock summary by one iff the new item is low |
| Forms.TrimmedOrNone | src/components/AddItemModal.tsx:67-68 | absent iff the input is all white space; otherwise a non-empty trimmed string |
| Forms.TrimmedOrNoneOfTrimmed | src/components/UpdateItemModal.tsx:93-94 | a non-empty text with nothing to trim is kept |
| AddItemModal.ValidateNew | src/components/AddItemModal.tsx:43-69 | each refusal iff its check fails and all earlier checks passed; the item has the trimmed name, the parsed price and quantity, and the optional fields trimmed or absent |
| AddItemModal.QuantityTextRoundTrip | src/components/AddItemModal.tsx:55-66 | any whole number written by `String`, negative or not, is accepted and submitted unchanged |
| AddItemModal.AddForm.constructor | src/components/AddItemModal.tsx:28-33 | empty inputs, not loading |
| AddItemModal.AddForm.ResetForm | src/components/AddItemModal.tsx:35-41 | every input is empty |
| AddItemModal.AddForm.HandleClose | src/components/AddItemModal.tsx:82-85 | the inputs are cleared and the form closes |
| AddItemModal.AddForm.HandleSubmit | src/components/AddItemModal.tsx:43-80 | a refusal alerts and changes nothing; success submits, clears and closes; a failed submission keeps the inputs and shows its message; loading ends either way |
| UpdateItemModal.DateShapedIsTrimmed | src/components/UpdateItemModal.tsx:78-94 | a `YYYY-MM-DD` text is not blank and has nothing to trim |
| UpdateItemModal.CheckedExpiry | src/components/UpdateItemModal.tsx:78-94 | an accepted expiry is submitted absent or as a date |
| UpdateItemModal.ValidateUpdate | src/components/UpdateItemModal.tsx:56-95 | each refusal iff its check fails and all earlier checks passed; the changes have a trimmed name, a non-negative price and quantity, trimmed optional fields, and an expiry that is absent or a date |
| UpdateItemModal.PassingChecks | src/components/UpdateItemModal.tsx:60-95 | inputs that pass every check are submitted as read |
| UpdateItemModal.PaddedDateRefused | src/components/UpdateItemModal.tsx:78-84 | a date is accepted, and the same date after a space is refused |
| UpdateItemModal.Prefill | src/components/UpdateItemModal.tsx:39-54 | no item gives empty inputs; an item gives its name and its quantity's text |
| UpdateItemModal.PrefillSubmitsItem | src/components/UpdateItemModal.tsx:39-95 | saving a prefilled form without edits submits the item's own values, the name trimmed |
| UpdateItemModal.TextOrRoundTrip | src/components/UpdateItemModal.tsx:44-45 | an absent or trimmed non-empty field comes back from its input unchanged |
| UpdateItemModal.UpdateForm.constructor | src/components/UpdateItemModal.tsx:31-36 | empty inputs, not loading |
| UpdateItemModal.UpdateForm.SyncWithItem | src/components/UpdateItemModal.tsx:39-54 | the inputs become `Prefill` of the item |
| UpdateItemModal.UpdateForm.HandleUpdate | src/components/UpdateItemModal.tsx:56-108 | no item does nothing; a refusal alerts; otherwise the changes are submitted for the item's id, the form closes iff the submission succeeded, and loading ends; the inputs never change |
| AppNavigator.SelectScreen | App.tsx:74-96 | loading iff loading; the admin screens iff loaded, authenticated and admin; the sign-in screens otherwise |
| AppNavigator.CustomerSeesSignIn | App.tsx:88-90 | a customer session shows the sign-in screens |
| AppNavigator.SignOutLeavesAdmin | App.tsx:84-87 | after CLEAR_USER the admin screens are never shown |
| AppNavigator.AdminSignInShowsAdmin | App.tsx:84-87 | an admin SET_USER, once loading ends, shows the admin screens iff the token is non-empty |
| ProxyUrl.StripLeadingSlashes | src/CONFIG.ts:24 | the result is a suffix that does not start with `/`, and only `/` were removed |
| ProxyUrl.Utf8 | src/CONFIG.ts:25 | one to four bytes; a single byte of the same value iff the code point is ASCII |
| ProxyUrl.EncodeUriComponent | src/CONFIG.ts:25 | the output has only unreserved characters, `%` and upper-case hexadecimal digits |
| ProxyUrl.EncodeUriComponentRoundTrip | src/CONFIG.ts:25 | percent-decoding the output gives the UTF-8 bytes of the input |
| ProxyUrl.LeadingSlashIgnored | src/CONFIG.ts:23-26 | a leading `/` makes no difference to the URL |
| ProxyUrl.BuildProxyUrl | src/CONFIG.ts:23-26 | every URL starts with the proxy base and `?path=`; a missing or empty path leaves the parameter empty |
| ProxyUrl.PathParameter | src/CONFIG.ts:25 | after `?path=` nothing can end the parameter, and its value decodes to the path's bytes |
| ProxyUrl.ProxyUrlCarriesPath | src/CONFIG.ts:23-26 | the URL is the proxy base, `?path=` and one value that decodes to the path without its leading slashes |
| JsText.TrimBounds | src/components/AddItemModal.tsx:64 | `trim` keeps one slice `s[i..j]` and drops only white space before and after it |
| JsText.TrimIsSlice | src/components/AddItemModal.tsx:64 | `trim` returns a slice of its input with only white space around it, neither end white space |
| JsText.BlankIffAllSpace | src/components/AddItemModal.tsx:45 | a text is blank iff every character is white space |
| JsText.TrimIdempotent | src/components/UpdateItemModal.tsx:90-94 | trimming twice equals trimming once |
| JsText.Trim | src/components/UpdateItemModal.tsx:90-94 | the trimmed text is no longer and neither starts nor ends with white space |
| JsText.ParseIntOfIntToString | src/components/UpdateItemModal.tsx:71 | `parseInt` reads back what `String` writes, with or without a radix |
| JsText.ParseInt | src/components/UpdateItemModal.tsx:71 | the empty text gives NaN; a negative result needs a leading `-` after the white space |
| JsText.IntToString | src/screens/InventoryScreen.tsx:101 | the text is non-empty, starts with `-` iff the number is negative, and is digits after that |
| JsText.IntToStringNotBlank | src/components/AddItemModal.tsx:55 | what `String` writes for an integer is never blank |
| JsText.SplitCount | src/hooks/useAuth.tsx:413-414 | `split` gives one more piece than there are separators |
| JsText.Split | src/hooks/useAuth.tsx:413-414 | at least one piece, and no piece contains the separator |
| Json.OrElse | src/hooks/useAuth.tsx:110-111 | `a \|\| b`: truthy iff either operand is, and always one of the two |
| Json.OwnEntries | src/services/api.ts:128-131 | one entry per own key, in `Object.keys` order |

## Left out

- Network, storage and the UI are not modelled as such. The proxy's answer is a parameter. The device store is a map with an availability flag. Alerts, `console`, navigation, styling and React's effect scheduling are left out. Awaited steps run in order, and interleavings are not modelled.
- Floating point is left out. Prices and quantities are integers. `parseFloat`, `Number` on strings, `price.toString()` and `new Date` are caller-supplied functions, and `toFixed`, `getFormattedTotal` and `toLocaleDateString` are not modelled.
- `JSON.parse` is a caller-supplied partial function; no JSON parser is modelled.
- `Math.random()` ids are parameters.
- `Object.keys` order is the order of the model's fields. The rule that integer-like keys come first in JavaScript is not modelled.
- `decodeJWTPayload` is modelled through `atob` only. The `Buffer`, `globalThis.atob` and percent-decoding branches are not modelled (src/hooks/useAuth.tsx:423-436).
- `signInAdmin` asks for `apiService.getStoredToken`, which the client does not define. That step is therefore a no-op and is left out.
- The client has no `localStorage` fallback. `setToken` only ever writes to the device store.
- `updateItem` and `deleteItem` of the inventory service and of the inventory screen are left out, as are their alerts.
- The inventory screen's `keyExtractor` id and the "Failed to load inventory data" fallback text are left out. The second can never show, because every message thrown is non-empty.
- The dashboard's `getMockInventoryItems` branch is left out. The client defines no such function, so mock mode always gives an empty list.
- `MOCK_MODE` is not defined in the configuration, so the app runs with it false. The screens take it as a constructor argument.
- The add and edit forms' `onSubmit`/`onUpdate` callbacks are parameters: the message they threw, if any.
- The sign-in screens, the PDF export and the presentational components are left out.
- Jwt.DecodeJwtPayload: a thrown `JSON.parse` and a refused `atob` both give null, as in the source. Which of the two happened is not distinguished.
- UpdateItemModal.Prefill: a description or expiry that is not a string is prefilled with its `String` text. Prices are prefilled through the `priceText` parameter.
- ItemRow.CheckExpiryStatus: dates are integer milliseconds from `parseDate`. An invalid date (NaN in JavaScript) gives neither flag, as NaN comparisons do.
- Dashboard.CalculateStats: `new Date` of a stored value is the `parseDate` parameter. A null record is the only error it models.
- InventoryScreen.Screen.LoadInventoryData, InventoryScreen.Screen.AddItem, Dashboard.DashboardScreen.LoadDashboardData: the client's 401 interceptor (src/services/api.ts:24-38) also runs on these requests, and with a callback installed a 401 signs the user out (src/hooks/useAuth.tsx:91-96). The model applies that sign-out (`Session.AuthProvider.HandleRejected`) only to the login calls, so after a 401 these screens' models keep the session that the program clears.
- Json.Lookup: object keys are assumed unique. With a repeated key `Lookup` returns the first value, where a parsed JavaScript object keeps the last.
- InventoryService.LowerAscii: `toLowerCase` is modelled on ASCII letters only, where JavaScript lowers every Unicode capital. The candidate names of src/services/inventoryService.ts:74-80 are all ASCII, and lowering any other non-ASCII character still leaves a non-ASCII character in the key. Only the Kelvin sign lowers to a plain ASCII letter (`k`), and no candidate contains `k`, so the key lookups it serves find the same fields.

## Findings

| source | as written | input that shows it | evidently intended | confidence | as-written member | corrected member |
|---|---|---|---|---|---|---|
| src/hooks/useCart.tsx:154-161 | `updateQuantity` asks `canAddItem(line, quantity)`, which adds the line's current quantity to the new one | a line holding 2 of an item with stock 4, then `updateQuantity(id, 3)`: refused as "Requested: 5" | setting the line to `quantity` is checked against the stock as `quantity` itself | not executed | Cart.UpdateQuantityRefusesWithinStock | Cart.UpdateQuantityCheckedWithinStock |
| src/services/inventoryService.ts:98-101 | `getAllItems` rethrows `new Error(message)`, so the error the screen classifies has no response (src/screens/InventoryScreen.tsx:87-103) | the server answers 403: the screen shows "Network error. Check your connection and server status." | a 403 says access was denied, a 404 that the resource was not found, and a 401 asks for a new login | not executed | InventoryScreen.ForbiddenReportedAsNetwork | InventoryScreen.RefusedLoadMessages |
