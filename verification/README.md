# Inventory client: session store, form validators and page decisions

This project is a Dafny model of the decision logic in a small inventory client
(a React single-page app). Users sign in or register, then list, view, create
and edit products (name, optional description, price, stock quantity). The
client has no algorithms of its own. What it does have are small, exact rules
buried in event handlers and in the API service. The model pulls them out as
pure functions over immutable datatypes:

- **The API service** (`Api`). The session lives in browser storage under
  `user` and `token`. It is modelled as a `Storage` record of those two
  entries. Each backend call (`GetAllProducts`, `CreateProduct`,
  `UpdateProduct`, `Login`, `Register`) takes the server's reply as an input
  (`Reply`: no response at all, or a status with a body). It returns a `Call`
  holding how the promise settles (`Outcome`: resolved with a value or
  rejected with an `ApiError`), the storage afterwards, and the requests it
  sent. `AuthHeaders`, `GetCurrentUser` and `Logout` are pure functions of
  the storage.
- **The authentication context** (`Auth`). It loads the stored user on mount.
  It maps each service outcome (a user, `null` or a rejection) to a yes/no
  answer and to the user it holds.
- **The pages.** Each submit handler is a first-failure-wins validation chain
  that yields one message or one call (`LoginPage`, `RegisterPage`,
  `ProductFormPage`). The product pages have stock thresholds (`Stock`), the
  precedence of the loading/error/empty/content views, and a find-by-id lookup
  (`ProductsPage`, `ProductDetailPage`). A page handler takes the value its
  awaited call produced. It returns the new page state, the call it made (if
  any) and where it navigated (if anywhere).
- **Shared pieces.** `Domain` holds the records, `FindById` and the route id.
  `Text` holds the JavaScript string primitives the rules depend on:
  `trim()` with the ECMAScript whitespace set, `length` in UTF-16 code units,
  and `split("@")[0]`.

Lemmas compose the layers. A login page with good credentials, the context and
the service together navigate to the products with a session named after the
email (`LoginPage.SignIn`, `RegisterPage.SignUpFlow`). A failed list fetch
shows the empty view, not the error view (`ProductsPage.FailedFetchLooksEmpty`).
A save that the backend answers with `success: false` still returns to the
list without an error (`ProductFormPage.RejectedSaveStillLeaves`).

Two facts about the code are easy to miss:

- The session is named after the email, not after the name typed at
  registration: `register("Ana", "ana@x.com", …)` yields a session named
  "ana" (`RegisterPage.SignUpExample`, `Api.RegisteredNameIgnored`).
- There is one backend contract. Updates go to `PUT /Product` with the id in
  the body; storage keeps `user` and `token` as separate entries; the
  `Authorization` header carries the raw token, with no scheme prefix.

## Model

| member | source | states |
|---|---|---|
| Domain.FindById | src/pages/ProductDetailPage.tsx:28-32 | `find` by id yields nothing exactly when no product has the id, and otherwise the first product carrying it |
| Domain.WithId | src/services/api.ts:117 | `{ id, ...input }` has the given id and exactly the input's fields |
| Domain.RequestedId | src/pages/ProductDetailPage.tsx:19-23 | a load is requested exactly when the route `id` is present and non-empty, for the id `parseInt` reads |
| Text.Trim | src/pages/ProductFormPage.tsx:69 | `name.trim()` is the stretch of the name left after removing its leading and trailing whitespace: everything before and after it is whitespace and it neither starts nor ends with whitespace; it is empty exactly when every character of the name is whitespace |
| Text.TrimStart | src/pages/ProductFormPage.tsx:69 | the leading part `trim()` removes is all whitespace and what remains is a suffix that does not start with whitespace |
| Text.TrimEnd | src/pages/ProductFormPage.tsx:69 | the trailing part `trim()` removes is all whitespace and what remains is a prefix that does not end with whitespace |
| Text.Utf16Length | src/pages/RegisterPage.tsx:42 | `length` counts UTF-16 code units: between one and two per character, and one per character exactly when none lies outside the Basic Multilingual Plane |
| Text.Utf16LengthCounts | src/pages/RegisterPage.tsx:42 | `length` is exactly the number of characters plus the number of characters outside the Basic Multilingual Plane |
| Text.BeforeFirst | src/services/api.ts:148 | `split(sep)[0]` is a prefix of the string without `sep`, followed by `sep` whenever it is shorter than the string |
| Text.BeforeFirstWhole | src/services/api.ts:148 | the first piece is the whole string exactly when the separator does not occur |
| Api.AuthHeaders | src/services/api.ts:47-58 | the JSON content type is always set; `Authorization` is present exactly when the stored token is non-empty, and then it is the raw token |
| Api.GetCurrentUser | src/services/api.ts:198-201 | the current user is what is kept under the `user` entry: the user the last accepted login stored, and none after logout (see `Api.Login`, `Api.Logout`, `Auth.SessionSurvivesReload`) |
| Api.SessionName | src/services/api.ts:148 | the session name is the part of the email before its first `@` |
| Api.SessionNameWhole | src/services/api.ts:148 | the session name is the whole email exactly when the email has no `@` |
| Api.GetAllProducts | src/services/api.ts:59-70 | one GET without auth headers; storage untouched; listing never rejects; the result is empty exactly when the request failed, the status was not ok or the server listed nothing, and a non-empty result is the server's list |
| Api.CreateProduct | src/services/api.ts:72-97 | one POST with the fields and the auth headers; storage untouched; a failed request or non-ok status rejects; an ok reply yields the fields under the placeholder id when `success` is set and nothing otherwise |
| Api.UpdateProduct | src/services/api.ts:99-125 | one PUT with the id, the fields and the auth headers; storage untouched; rejects on failure or non-ok; an ok reply with `success` yields the request fields under the argument id, and an ok reply without it yields nothing |
| Api.Login | src/services/api.ts:128-164 | a user is yielded exactly when the reply is ok with `success` and a non-empty token; it has id 1, the input email, the email-derived name and the server token, and becomes the current user with the token sent as `Authorization`; otherwise storage is unchanged, a failure or non-ok status rejects and an unaccepted ok reply yields nothing |
| Api.Register | src/services/api.ts:166-196 | the register request goes first; only an ok reply with `success` chains a login with the same email and password, whose result and storage it returns; otherwise storage is unchanged and nothing more is sent, a failure or non-ok status rejects, and an ok reply without `success` yields nothing |
| Api.Logout | src/services/api.ts:203-206 | logout removes both entries, whatever was stored, so no user is current and no `Authorization` header is sent |
| Api.RegisteredNameIgnored | src/services/api.ts:186-188 | a user yielded by register is named after the email, never after the name given to register |
| Auth.Load | src/contexts/AuthContext.tsx:20-24 | on mount the context user is the stored user and loading ends |
| Auth.Settle | src/contexts/AuthContext.tsx:26-37 | the answer is true exactly when the service yielded a user, which the context then holds; `null` and a rejection answer false and leave the context unchanged |
| Auth.Login | src/contexts/AuthContext.tsx:26-38 | the context login answers true exactly when the backend accepts, then holds the session user, with its loading flag unchanged, and storage holds exactly that user and the server token; otherwise context and storage are unchanged |
| Auth.Register | src/contexts/AuthContext.tsx:40-56 | register answers true exactly when registration succeeds and the chained login is accepted, and then the context and storage are as after login: the session user and the server token; otherwise nothing changes |
| Auth.Logout | src/contexts/AuthContext.tsx:58-61 | logout clears the context user and removes both storage entries, so no user is current and no token remains |
| Auth.SessionSurvivesReload | src/contexts/AuthContext.tsx:20-24 | after a successful login, reloading the context from storage restores the same user |
| Auth.LogoutSurvivesReload | src/contexts/AuthContext.tsx:58-61 | after logout, reloading the context finds no user |
| LoginPage.Submit | src/pages/LoginPage.tsx:23-43 | `login` is called, once and with the typed fields, exactly when both fields are non-empty; an empty field shows the fill-all-fields message; a true answer navigates to the products, a false one shows "Credenciais inválidas"; loading always ends |
| LoginPage.SignIn | src/pages/LoginPage.tsx:34-40 | with the context and service composed, the page reaches the products exactly when the backend accepts, and then the context holds a user with the typed email, named after it |
| RegisterPage.Validate | src/pages/RegisterPage.tsx:30-46 | each message appears exactly when its check is the first to fail: empty field (untrimmed), then password mismatch, then fewer than 6 UTF-16 units; none when all pass |
| RegisterPage.Submit | src/pages/RegisterPage.tsx:25-57 | `register` is called with the typed name, email and password exactly when validation passes; a failed check shows its message; a true answer navigates to the products, a false one shows the sign-up failure; loading always ends and the typed fields are kept |
| RegisterPage.MismatchReportedBeforeLength | src/pages/RegisterPage.tsx:36-46 | for every filled form, a password shorter than 6 units that differs from its confirmation reports the mismatch, not the length |
| RegisterPage.SignUpExample | src/pages/RegisterPage.tsx:30-48 | "secret1" passes the checks and "abc" is too short; the "ana@x.com" session is named "ana" |
| RegisterPage.SignUpFlow | src/pages/RegisterPage.tsx:48-54 | with the context and service composed, the page reaches the products exactly when registration and the chained login both succeed, with a session named after the email |
| Stock.LevelOf | src/pages/ProductsPage.tsx:190-203 | more than 10 is high, 1 to 10 is low, 0 or less is out; each quantity has exactly one level |
| Stock.ToneFor | src/pages/ProductsPage.tsx:190-196 | the colour is green, yellow or red by the stock level; the same rule colours the list's quantity figure (lines 234-240) and the detail page's badge and status label (src/pages/ProductDetailPage.tsx lines 116-122 and 174-180) |
| ProductsPage.StatusTitle | src/pages/ProductsPage.tsx:197-203 | the dot's title is "Em estoque" exactly at the high level, "Estoque baixo" exactly at the low level, and "Sem estoque" exactly when out of stock |
| ProductsPage.Rows | src/pages/ProductsPage.tsx:180-182 | one row per product, in the fetched order |
| ProductsPage.Load | src/pages/ProductsPage.tsx:21-32 | a fetched list replaces the products wholesale and keeps the error; a rejection sets the load error; loading ends |
| ProductsPage.ViewOf | src/pages/ProductsPage.tsx:90-164 | loading wins over the error, the error over the empty list, and the empty list over the rows |
| ProductsPage.ErrorSticks | src/pages/ProductsPage.tsx:21-28 | once an error is set, every later load still shows the error view |
| ProductsPage.FailedFetchLooksEmpty | src/pages/ProductsPage.tsx:24-25 | a failed request or non-ok status shows the empty-inventory view, not the error view |
| ProductsPage.FetchedListShown | src/pages/ProductsPage.tsx:164-182 | a non-empty fetched list with no earlier error is listed in full, in order |
| ProductDetailPage.Load | src/pages/ProductDetailPage.tsx:25-42 | the first product with the id is set; no match sets "Produto não encontrado" and a rejection the load error, both keeping the product; a newly set product is from the list and has the id; loading ends |
| ProductDetailPage.Mount | src/pages/ProductDetailPage.tsx:19-23 | a load happens only when the route has an id |
| ProductDetailPage.Badge | src/pages/ProductDetailPage.tsx:124 | the badge reads "Em Estoque" exactly when stock is positive, and "Sem Estoque" otherwise |
| ProductDetailPage.StatusLabel | src/pages/ProductDetailPage.tsx:182-186 | the status label is "Estoque Alto", "Estoque Baixo" or "Sem Estoque" by the stock level, and reads "Sem Estoque" exactly when the two-way badge does |
| ProductDetailPage.CardOf | src/pages/ProductDetailPage.tsx:116-186 | the card shows the badge and status label of the quantity, both coloured by its stock level, and the total value price × quantity (line 149); for a positive price the total is positive exactly when the badge reads "Em Estoque" |
| ProductDetailPage.ViewOf | src/pages/ProductDetailPage.tsx:92-251 | loading wins over the error, the error over the product, and the product over nothing |
| ProductDetailPage.NoIdKeepsLoading | src/pages/ProductDetailPage.tsx:13-23 | without a route id nothing loads and the loading view stays |
| ProductDetailPage.OpenShowsFirstMatch | src/pages/ProductDetailPage.tsx:19-35 | opening an id shows the first listed product with it, or the not-found error |
| ProductFormPage.Initial | src/pages/ProductFormPage.tsx:15-26 | the form starts empty, and the product is awaited exactly when editing |
| ProductFormPage.IsEditing | src/pages/ProductFormPage.tsx:16 | `Boolean(id)`: the page edits exactly when the route has a non-empty id |
| ProductFormPage.FormOf | src/pages/ProductFormPage.tsx:46-51 | loading copies name, price and stock, and a missing description becomes "" |
| ProductFormPage.LoadProduct | src/pages/ProductFormPage.tsx:37-62 | the error is cleared; a match fills the form; no match sets "Produto não encontrado" and navigates to the list; a rejection sets the load error; loading ends |
| ProductFormPage.Edit | src/pages/ProductFormPage.tsx:109-118 | only the edited field changes; an unparsable number is stored as 0 |
| ProductFormPage.Validate | src/pages/ProductFormPage.tsx:69-85 | each message appears exactly when its check is the first to fail: blank name after trimming, then price ≤ 0, then negative stock; stock 0 passes |
| ProductFormPage.SaveError | src/pages/ProductFormPage.tsx:98-102 | a rejected save shows the update message exactly when editing and the create message exactly otherwise |
| ProductFormPage.Submit | src/pages/ProductFormPage.tsx:64-107 | a failed check shows one message and calls nothing; otherwise edit mode updates under the route id and new mode creates, both with the form; any resolved value navigates to the list; a rejection shows the mode's message; saving ends and nothing else on the page changes |
| ProductFormPage.CancelTarget | src/pages/ProductFormPage.tsx:331-334 | cancel goes to `/products/{id}` when editing and to `/products` otherwise |
| ProductFormPage.Perform | src/pages/ProductFormPage.tsx:88-95 | the save sends exactly one create or update request with the form and the session's auth headers, without touching storage |
| ProductFormPage.RejectedSaveStillLeaves | src/pages/ProductFormPage.tsx:88-96 | a valid save that the backend answers with `success: false` still returns to the list with no error |
| ProductFormPage.UnchangedEditRoundTrip | src/pages/ProductFormPage.tsx:46-51 | saving a loaded product unchanged yields it back, with a missing description sent as "" |

## Left out

- JSX, CSS classes and the icons: only the chosen label or colour token is kept.
- The browser's own form validation, which runs before any submit handler: `required` on every input, `type="email"`, and `min="0"`/`step="0.01"` on the number inputs. Only the handlers are modelled, so their messages for empty fields, a price of 0 or less and a negative stock are stated even though ordinary typing is stopped earlier. The stock input shows `stockQuantity || ""`, so a stock of 0 renders as an empty required field; `ProductFormPage.Validate` accepts stock 0 as the handler does, but the browser blocks such a submit first.
- `Intl.NumberFormat` currency formatting of prices and totals: locale library behaviour.
- `fetch`, HTTP and JSON: each server reply is an input `Reply`. `getAllProducts` returns `response.json()` without awaiting it, so a malformed body rejects past its `catch`. That path is only covered on the page side: page loads take any `Outcome`, including a rejection.
- Unread reply fields (`message`, `expiresAt`, `userId`) and the fixed headers of the login and register requests.
- `localStorage` internals, other storage keys and `JSON.stringify`/`parse`: the stored user is kept as a structured value, which round-trips exactly.
- `Date.now()` as the placeholder id of a created product: it is the parameter `now`.
- `parseFloat` and `parseInt` text parsing: numeric edits carry the parsed value (`None` for NaN), and a route id carries its text and its parsed value. A route id that `parseInt` reads as NaN is not modelled.
- IEEE floating point: prices are `real`, and the `|| 0` guard keeps NaN out of the form.
- ProductDetailPage.CardOf: the total value is the exact product of real numbers; the page multiplies doubles, which can round.
- Stock quantities are integers. The form's `parseFloat` could accept a fractional stock; that is not modelled.
- React hooks, effects and async timing: disabled buttons, in-flight requests, state updates after navigation, and the form's "loading product" placeholder.
- The context's `isLoading` flag is modelled, but no modelled page reads it.
- Routing in `src/App.tsx` and the `ProtectedRoute` component: react-router behaviour; `ProtectedRoute` is not part of this model.
- `useAuth` throwing outside its provider, and `console.error` logging.
