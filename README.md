# SIGE: a verified model of the management system's server rules and browser logic

SIGE is a small business-management web application for one company per
account. The company registers, then keeps products, clients, services,
service orders, financial entries and exits, and terms of service. An
Express/SQLite server (`backend/server.js`) stores the data and scopes every
row by `company_id`. Plain browser scripts (`js/*.js`) check the forms, keep
the session in `localStorage`, route between pages, and draw the financial
totals and the monthly chart.

This project models that core in Dafny and proves what it promises:

- **Server store** (modules `Schema`, `ServerRules`, `Crud`, `Store`).
  - The class `Store.Store` holds the tables as maps from id to row, each
    with an AUTOINCREMENT counter. Every route is one method that returns the
    HTTP reply and updates the maps.
  - The UNIQUE constraints of `backend/database.js` are part of the class
    invariant.
  - The partial-update routes build their SET list with a loop over the
    columns. The model proves that running this list overwrites exactly the
    truthy fields.
  - Updates and deletes touch only the row whose id and company_id both match.
  - The reset token can be used only before the expiry stored with it (issue
    time plus one hour) and only once.
- **Validators** (module `Validators`).
  - The e-mail regular expression is proved equal to a plain description of
    an address.
  - The five password rules are checked in the same fixed order by the forms
    and by the server.
- **Form checks** (modules `AuthClient`, `ResetPasswordClient`,
  `ForgotPasswordClient`).
  - Each handler is modelled up to its request: it either sends the request
    or stops with the exact message the user sees.
  - Lemmas show that anything the browser sends passes the server's own checks.
- **Session and routing** (modules `Utils`, `Ui`).
  - `systemData` and the two `localStorage` keys are modelled as a class.
  - Also modelled: the router's protected-page rule and switch, the message
    modal, and the profile icon.
- **Finance** (modules `Financial`, `Dashboard`).
  - The month filter, totals and balance.
  - The chart's in-place monthly bucketing loop and its sorted `MM/YYYY`
    labels.
  - Lemmas: the chart conserves the totals, and the dashboard agrees with the
    financial page's unfiltered view.
- **Orders page** (module `OrdersView`): the order-number padding, the status
  badge, the empty-table case, the value autofill and the login guards.

Modelling conventions:

- Amounts are integer cents.
- The clock, the reset token, the outcome of sending mail and the replies of
  other requests are parameters.
- The password hash is the injective constructor `Hashed`.
- A JSON value in `localStorage` is stored as the value itself, so a save
  followed by a restore gives back the value that was saved.

## Model

| member | source | states |
|---|---|---|
| JsStrings.Trim | js/auth.js:69-76 | `String.prototype.trim`: the result has no white space at either end and is a contiguous slice of the input |
| JsStrings.TrimEmptyIffAllSpace | js/auth.js:78-92 | a trimmed input is empty exactly when the input is all white space, so a blank field is refused |
| JsStrings.TrimIdempotent | js/forgotPassword.js:22 | trimming twice is trimming once |
| JsStrings.PadStart | js/orders.js:51-54 | `padStart`: the result is at least `width` long, ends with the input, and is padded in front with the pad character |
| JsStrings.ParseDecimalInverts | js/financial.js:52-54 | `String(n)` is a numeral that reads back as `n` |
| JsStrings.PaddedDecimalInverts | js/financial.js:52-54 | a zero-padded numeral is still all digits and reads back as its number |
| JsStrings.SplitAt | js/dashboard.js:300 | `split` on a string with exactly one separator gives the two sides |
| JsStrings.SortDistinct | js/dashboard.js:298 | the default `sort()` of distinct keys: strictly ascending by code unit and a permutation of its input |
| JsStrings.LessTransitive | js/dashboard.js:298 | the order used by `sort()` is transitive |
| JsStrings.LessTrichotomy | js/dashboard.js:298 | any two different strings are ordered one way or the other |
| Validators.EmailPatternIffWellFormed | js/auth.js:95-103 | `^[^\s@]+@[^\s@]+\.[^\s@]+$` accepts exactly the strings with no white space, exactly one `@` that is not first, and a `.` after the `@` that is neither the first nor the last character after it |
| Validators.FirstBrokenRule | backend/server.js:236-260 | the early-return chain: None exactly for a strong password; otherwise a rule the password breaks, with every earlier rule satisfied |
| Validators.StrongPasswordNotEmpty | backend/server.js:229-234 | a password that passes every rule has at least eight UTF-16 units, so it is never empty |
| Validators.RuleIndex | js/auth.js:106-134 | each rule has its fixed place in the check order |
| Schema.Columns | backend/server.js:528-563 | each resource's body fields, in the order the update routes test them, without repeats |
| ServerRules.ResetPrecheck | backend/server.js:229-260 | the reset route lets a request through exactly when the token is truthy and the password is strong; otherwise 400, with the message of the first broken rule once both fields are present |
| ServerRules.IssuedTokenWindow | backend/server.js:174-178 | a token issued at time t is accepted exactly while `now < t + 3600000`, and no other token is accepted |
| ServerRules.ConsumedTokenRejected | backend/server.js:263-283 | after a reset the row holds the new hash and accepts no token, so a second use of the link fails |
| ServerRules.GivenIndices | backend/server.js:534-557 | the positions of the truthy fields, strictly increasing: every truthy field is listed and nothing else |
| ServerRules.SetListEmptyIffNothingGiven | backend/server.js:559-563 | the SET list is empty exactly when no field is truthy, so the second 400 check can never fire |
| ServerRules.BuildSetList | backend/server.js:534-557 | the loop of `if (x) { fields.push; values.push }`: the truthy fields and their values, in column order, and a non-empty list exactly when some field is truthy |
| ServerRules.ColumnIndexOfDistinct | backend/server.js:565-567 | in a list of distinct columns, the column at position k is found at position k |
| ServerRules.SetListOverwritesGiven | backend/server.js:565-574 | running the built SET list on a row overwrites exactly the truthy fields and leaves the other columns as they were |
| Crud.ListFor | backend/server.js:508-521 | `SELECT * ... WHERE company_id = ?` returns exactly that company's rows, unchanged |
| Crud.Create | backend/server.js:483-506 | 400 exactly when a required field or company_id is falsy, 409 exactly on a UNIQUE clash, otherwise 201 with the row stored under the next id; any other reply leaves the table unchanged, and the table invariant is kept |
| Crud.Update | backend/server.js:524-577 | 400 exactly when no field is truthy, 404 exactly when no row has this id and company_id, 409 on a UNIQUE clash, otherwise 200 with the truthy fields written over that row only |
| Crud.Delete | backend/server.js:579-603 | 400 exactly for a falsy company_id, 404 exactly when no row has this id and company_id, otherwise 200 with that row removed |
| Crud.OtherTenantsUntouched | backend/server.js:565-574 | an update or delete for one company leaves every other company's listing exactly as it was |
| Crud.CreatedRowListed | backend/server.js:492-506 | a created row appears in its own company's listing and in no other |
| Crud.UpdateIdempotent | backend/server.js:524-577 | a repeated successful update leaves the table as the first one did |
| Crud.DeleteTwiceNotFound | backend/server.js:592-597 | deleting the same row again gives 404 |
| Crud.ListOrders | backend/server.js:882-908 | the orders listing holds exactly the company's orders whose client and service rows exist, with their names, status and value |
| Crud.DeletedClientHidesOrders | backend/database.js:72-81 | with no cascade, deleting a client makes its orders disappear from the listing |
| Store.Store.constructor | backend/database.js:8-114 | an empty database: every table empty, every AUTOINCREMENT counter at 1 |
| Store.Store.Register | backend/server.js:48-109 | as written: 400 when a field is missing; 409 when the CNPJ or company e-mail is taken; otherwise the company row is stored, then either 409 for a taken user e-mail (the company row stays) or 201 with the user row and its hash |
| Store.Store.RegisterAtomic | backend/server.js:48-109 | 201 exactly when all fields are present and neither the company nor the user e-mail is taken; any other reply leaves the database unchanged |
| Store.RegisterOrphanExample | backend/server.js:81-90 | a registration refused for its user e-mail keeps its company, and that company blocks every retry with 409 |
| Store.RegisterAtomicRetryExample | backend/server.js:81-90 | with the atomic registration, the refused attempt leaves nothing behind and the retry succeeds |
| Store.Store.Login | backend/server.js:112-150 | 200 exactly for a stored e-mail with the matching password, with that user's id and company; an unknown e-mail and a wrong password both get "Credenciais inválidas." |
| Store.Store.ForgotPassword | backend/server.js:153-223 | 400 for an empty e-mail; an unknown e-mail gets the 200 message a known one gets when its mail is sent; a known user's row gets the token and an expiry one hour after `now`, and keeps them when the mail fails (500) |
| Store.ForgotReplyHidesRegistration | backend/server.js:165-217 | with the mail sent, every non-empty e-mail gets the same 200 reply, stored or not; with the mail failing, the reply is 500 exactly for a stored e-mail, so a mail outage reveals which e-mails are registered |
| Store.ForgotReplyLeakExample | backend/server.js:165-217 | as written, with the mail failing, a stored e-mail gets 500 and an unknown one gets 200 |
| Store.UniformForgotReply | backend/server.js:165-171 | corrected: 400 for an empty e-mail, otherwise the same 200 message, and the reply as written whenever the mail is sent |
| Store.UniformForgotReplyHidesRegistration | backend/server.js:165-171 | with the corrected reply, no two user tables can be told apart by the reply, whatever happens to the mail |
| Store.Store.ResetPassword | backend/server.js:226-304 | the policy replies first; then 400 when no row holds the token unexpired; otherwise 200, and that row gets the new hash with the token cleared |
| Store.Store.GetCompanyProfile | backend/server.js:307-324 | 200 with the stored company, or 404 when there is none |
| Store.RunProfileSetList | backend/server.js:337-358 | the profile SET list run on the stored row keeps every field whose input is falsy and replaces the others |
| Store.Store.UpdateCompanyProfile | backend/server.js:327-383 | 400 exactly when name, e-mail and CNPJ are all falsy; 404 for an unknown company; 409 when the merged row repeats another company's CNPJ or e-mail; otherwise 200 and the merged row |
| Store.Store.ChangePassword | backend/server.js:386-434 | 400 for a missing password, 404 for an unknown user, 401 for a wrong current password, otherwise 200 with the new hash; no policy check |
| Store.Store.DeleteUser | backend/server.js:437-451 | 404 for an unknown user, otherwise 200 with that user removed |
| Store.Store.DeleteCompany | backend/server.js:454-480 | 404 for an unknown company, otherwise 200 with only the company row removed; users, terms and resource rows stay |
| Store.RunSetList | backend/server.js:534-574 | a resource's SET list followed by the UPDATE overwrites exactly the truthy fields of the row |
| Store.Store.CreateRow | backend/server.js:483-506 | the POST route of each resource behaves as `Crud.Create`, and only that resource's table changes |
| Store.Store.ListRows | backend/server.js:508-521 | the GET route of each resource returns `Crud.ListFor` |
| Store.Store.ListOrders | backend/server.js:882-908 | GET /orders returns the joined listing |
| Store.Store.UpdateRow | backend/server.js:524-577 | the PUT route of each resource builds and runs its SET list and behaves as `Crud.Update` |
| Store.Store.DeleteRow | backend/server.js:579-603 | the DELETE route of each resource behaves as `Crud.Delete` |
| Store.Store.GetTerms | backend/server.js:1245-1266 | the company's terms row, or "Nenhum termo cadastrado ainda." with a null `last_updated` |
| Store.Store.PutTerms | backend/server.js:1268-1325 | 400 for empty content; otherwise 200 updating the company's row, or 201 inserting one; a row with the new content always exists, and each company keeps at most one row |
| Store.ProfileUpdateKeepsUnique | backend/database.js:11-12 | a profile update that clashes with no other company keeps CNPJ and e-mail unique |
| Utils.Prop | js/auth.js:263 | reading `j.key` gives the stored property, or null for a missing key or a non-object |
| Utils.Restore | js/utils.js:3-6 | `JSON.parse(getItem(key)) \|\| null`: the stored value when it is truthy, otherwise null |
| Utils.RestoreAfterSave | js/utils.js:9-14 | a start-up after `saveUserData` gives back both saved values, with a falsy one read as null; other keys are untouched |
| Utils.RestoreAfterClear | js/utils.js:17-22 | a start-up after `clearUserData` gives null for both fields; other keys are untouched |
| Utils.ClearIdempotent | js/utils.js:20-21 | clearing twice is clearing once |
| Utils.SystemData.constructor | js/utils.js:3-6 | at start-up both fields are the restored stored values |
| Utils.SystemData.SaveUserData | js/utils.js:9-14 | both fields are set, and both keys are written with the same values; for truthy values memory and storage agree |
| Utils.SystemData.ClearUserData | js/utils.js:17-22 | both fields become null and both keys are removed, so memory and storage agree |
| Ui.DispatchNamesViews | js/ui.js:164-219 | each page name reaches its own view, each view is reached only by its own name, any other name gives "Selecione uma opção", and the protected views are exactly those of the protected pages |
| Ui.ProfileIconVisible | js/ui.js:40-53 | the icon is shown exactly when `loggedInUser` is truthy |
| Ui.LoadPage | js/ui.js:128-220 | a protected page requested with no user is replaced by the login form with the warning; any other request is dispatched unchanged; a protected view is never shown to a logged-out user |
| Ui.StartPage | js/ui.js:229-235 | start-up opens the dashboard exactly when `loggedInUser` is truthy, and the login page otherwise |
| Ui.StartPageFollowsSession | js/ui.js:229-235 | after a save of a truthy user the app starts on the dashboard; after a clear, or with nothing stored, it starts on login; start-up never asks for a protected page without a user |
| Ui.KindOf | js/ui.js:76-98 | the switch on the message type: the four named types, and every other string is info |
| Ui.ShowCustomMessage | js/ui.js:64-107 | the close button is shown exactly for "error"; the modal closes itself exactly when `autoClose` is set and the type is not "loading"; the border colour follows the type |
| Ui.UnknownTypeIsInfo | js/ui.js:95-98 | an unknown message type is shown as the default "info" type |
| Ui.ReplyOutcomeShown | js/resetPassword.js:78-83 | the modal shows an ok reply as a success (green border) and any other reply as an error (red border); an ok reply moves to the login form, which needs no session |
| AuthClient.RegisterSubmit | js/auth.js:66-155 | a request is sent exactly when all six trimmed fields are non-empty, both e-mails match the pattern, the password is strong and equals the confirmation; the body maps companyName to name and companyEmail to email; a refusal is an error with no page change |
| AuthClient.RegisterCheckOrder | js/auth.js:95-140 | the company e-mail is checked before the user e-mail, then the rules in order, and the confirmation only after every rule holds |
| AuthClient.SentRegisterPassesServer | js/auth.js:143-155 | a sent registration passes the server's field check, its password passes the server's policy, and both e-mails are well formed |
| AuthClient.LoginSubmit | js/auth.js:175-194 | no request when the trimmed e-mail or password is empty or the e-mail is malformed, each with its own message; otherwise the trimmed pair |
| AuthClient.CompleteLogin | js/auth.js:209-238 | both replies ok: the session is saved and the dashboard loads; company reply not ok: the session is cleared; login reply not ok: nothing changes and "Erro: " is shown |
| AuthClient.CompletedLoginOpensDashboard | js/auth.js:217-224 | the saved session user is truthy, so the dashboard the handler loads is not refused and the icon shows |
| AuthClient.Logout | js/auth.js:253-257 | the session is cleared, the login page loads with the info message, and the icon is hidden |
| AuthClient.EditCompanySubmit | js/auth.js:260-285 | without a user holding a truthy companyId: the warning, the login page and no request; otherwise the three raw inputs are sent |
| AuthClient.CachedProfileAsWritten | js/auth.js:294 | as written: the cached record gets all three inputs, empty ones included, and keeps its other fields |
| AuthClient.CachedProfile | js/auth.js:294 | corrected: only truthy inputs replace a cached field; all other fields are kept |
| AuthClient.CachedProfileMatchesServer | js/auth.js:291-298 | the corrected cache equals the record of the row the server stores after the same edit |
| AuthClient.BlankNameCacheDiverges | js/auth.js:294 | as written, clearing the name keeps "ACME" on the server but caches an empty name |
| AuthClient.EditCompanyReply | js/auth.js:291-302 | ok: the cache is replaced as written and written to storage; otherwise nothing changes and "Erro ao atualizar perfil: " is shown |
| ResetPasswordClient.ResetSubmit | js/resetPassword.js:14-73 | no token: error and login page; otherwise the first broken rule of the trimmed password, then the confirmation check; a request is sent exactly when all pass, with body `{token, newPassword}` |
| ResetPasswordClient.SentResetPassesServer | js/resetPassword.js:23-57 | a sent reset passes the server's checks, and the form and the server blame the same rule |
| ResetPasswordClient.ResetReply | js/resetPassword.js:78-83 | login page exactly on an ok reply; the server message as a success, or "Erro: " and the message as an error |
| ForgotPasswordClient.ForgotSubmit | js/forgotPassword.js:22-44 | a request `{email}` with the trimmed e-mail is sent exactly when that e-mail is well formed; an empty one and a malformed one get their own messages |
| ForgotPasswordClient.SentEmailIsTrimmed | js/forgotPassword.js:22 | the sent e-mail has no surrounding white space |
| ForgotPasswordClient.ForgotReply | js/forgotPassword.js:48-53 | an ok reply loads login with the server message as a success; any other reply stays and shows "Erro: " and the message as an error |
| Financial.SumAppend | js/financial.js:107-111 | the `reduce` total of two lists joined is the sum of their totals |
| Financial.KeepMonth | js/financial.js:99-104 | the filter keeps exactly the rows whose date starts with the month, each taken from the input |
| Financial.KeepMonthAppend | js/financial.js:99-104 | filtering keeps the order of the rows |
| Financial.Filter | js/financial.js:95-105 | a falsy month keeps every row; a truthy one keeps the rows of that month |
| Financial.ResetShowsAll | js/financial.js:240-243 | after reset every row is shown |
| Financial.DefaultFilterIsCurrentMonth | js/financial.js:51-57 | the default filter is the year, a dash and the two-digit one-based month, which read back as the year and the month; it is truthy and labelled `MM/YYYY` |
| Financial.PageTotals | js/financial.js:107-135 | the entry and exit cards are the sums of the filtered entries and exits, the counts are the lengths of those filtered lists, and the balance is their difference |
| Financial.PageTotalsMatchMonth | js/financial.js:95-112 | with a full `YYYY-MM` filter, the page totals and balance equal that month's chart buckets |
| Financial.BalanceCardOf | js/financial.js:136-149 | the blue gradient and the caption "Positivo" each appear exactly for a non-negative balance; otherwise the card is grey and captioned "Negativo" |
| Financial.MonthSumAbsent | js/dashboard.js:287-297 | a month in which no row falls sums to zero, so a month seen only among exits has zero entries |
| Financial.MonthSumIsFilteredSum | js/dashboard.js:287-297 | for a full `YYYY-MM` key, the chart bucket equals the total the page shows with that key as its filter |
| Financial.AddMonthsMembers | js/dashboard.js:298 | `Object.keys(monthlyData)` holds each month of the rows once, and nothing else |
| Financial.AllMonths | js/dashboard.js:285-298 | the chart's keys are distinct and are exactly the months of the entries and exits |
| Financial.BucketsStep | js/dashboard.js:287-291 | one forEach step creates a zero bucket for a new month and credits the row's value to its month only |
| Financial.AddToBuckets | js/dashboard.js:287-297 | after one forEach loop every bucket is its starting value plus the month's total of the rows on that side, and the keys are those seen, in first-seen order |
| Financial.BuildMonthlyData | js/dashboard.js:285-297 | after both loops every month's bucket holds that month's entry total and exit total |
| Financial.MonthLabelSwaps | js/dashboard.js:299-302 | a `YYYY-MM` key is labelled `MM/YYYY` |
| Financial.Series | js/dashboard.js:303-304 | one value per key: the key's month total |
| Financial.Labels | js/dashboard.js:299-302 | one label per key, in key order |
| Financial.ChartMonths | js/dashboard.js:298 | the sorted keys are strictly ascending and are exactly the months of the rows |
| Financial.SeriesConserves | js/dashboard.js:303-304 | over distinct keys that cover every row, the series adds up to the rows' total |
| Financial.ChartAlignedAndConserving | js/dashboard.js:287-304 | labels and both series are index-aligned with the ascending keys, every key is a month of some row, and each series sums to the full total |
| Financial.SeriesFromBuckets | js/dashboard.js:303-304 | reading the buckets in key order gives the two series |
| Financial.SalesChart.Render | js/dashboard.js:276-344 | with a canvas the chart is replaced by the one for these rows; without one nothing changes |
| Dashboard.BalanceClass | js/dashboard.js:92-94 | green exactly for a non-negative balance, otherwise red |
| Dashboard.BalanceStylesAgree | js/dashboard.js:92-94 | the dashboard's green balance, the financial page's blue card and its "Positivo" caption (js/financial.js:136-149) appear together, exactly when total entries are at least total exits |
| Dashboard.DashboardStats | js/dashboard.js:63-104 | the balance is total entries minus total exits, and the client card is the number of clients |
| Dashboard.DashboardAgreesWithFinancial | js/dashboard.js:63-71 | the dashboard totals are the financial page's totals with the filter reset, and they equal the sums of the chart series |
| Dashboard.AddTxnSubmit | js/dashboard.js:150-163 | no request and the login page unless a user with a truthy companyId is stored; otherwise the body with that company |
| Dashboard.LoggedOutCannotPost | js/dashboard.js:229-242 | after logout, or at a start-up with nothing stored, no financial row can be posted |
| OrdersView.OrderNumber | js/orders.js:51-54 | the number is `#` followed by at least three characters |
| OrdersView.OrderNumberWidth | js/orders.js:51-54 | ids of fewer than three digits are zero-padded to three, and longer ids are shown unchanged |
| OrdersView.OrderNumberInverts | js/orders.js:51-54 | the characters after `#` are digits that read back as the id |
| OrdersView.OrderNumberInjective | js/orders.js:51-54 | two orders never show the same number |
| OrdersView.StatusClass | js/orders.js:58-63 | green exactly for "Concluído", yellow exactly for "Em Andamento", grey for anything else |
| OrdersView.StatusOptionsDistinct | js/orders.js:155-159 | the three choices are distinct and get three different badges; "Pendente" is grey like an unknown status |
| OrdersView.RenderOrders | js/orders.js:46-84 | the message shows exactly for a non-ok reply or an empty list, with an empty body; otherwise one row per order with its number, names, status badge and value |
| OrdersView.Autofill | js/orders.js:180-184 | a truthy `data-valor` replaces the value field; otherwise the field is kept |
| OrdersView.AutofillIdempotent | js/orders.js:180-184 | the placeholder option never changes the field, and choosing the same service twice equals choosing it once |
| OrdersView.OpenOrderModal | js/orders.js:99-109 | without a user holding a truthy companyId: the warning and the login page; otherwise it goes on for that company |
| OrdersView.AddOrderSubmit | js/orders.js:195-223 | no request and the login page unless a user with a truthy companyId is stored; otherwise the body `{client_id, service_id, status, value, company_id}` |

## Left out

- HTTP plumbing is not modelled: Express setup, CORS, static files, `app.listen`. JSON bodies are typed fields, with `Null` standing for an absent field.
- Nodemailer and `sendMail` are network I/O. Whether the mail was sent is a boolean parameter of `Store.Store.ForgotPassword`.
- bcrypt and `crypto.randomBytes` are foreign calls. The hash is the injective constructor `Hashed`, and the reset token is a parameter.
- Rule: `Date.now()` and `new Date().toISOString()` are parameters.
- Store methods treat each route as one atomic step. Interleaving between the asynchronous callbacks of concurrent requests is not modelled.
- SQLite errors other than UNIQUE violations take a 500 path, which is not modelled. The one 500 that is modelled is the failed reset mail.
- `reset_password_expires` is a TEXT column, so SQLite compares it as text. The model compares it as an integer. The two agree while timestamps have the same number of digits.
- Token collisions are not modelled. If two users held the same token, the model picks one of them, as the unordered `SELECT` does.
- A 200 login reply's JSON shape is not modelled: the model takes the session it yields, and the company reply's `company` object, as inputs of `AuthClient.CompleteLogin`.
- Each CRUD route has its own message texts. The model states the status codes and the table effects, and keeps the message texts only for the authentication, profile and terms routes.
- The `ORDER BY` of row listings is not modelled: listings are maps, and the browser's row order is taken as given.
- Spreading a non-object `companyInfo` into the cache is read as spreading `{}`.
- `JSON.stringify` of `undefined` is not modelled.
- Object keys that collide with `Object.prototype` properties are not modelled in `monthlyData`: a key such as `"constructor"` would find an inherited value.
- Money is integer cents. Floating-point sums, `parseFloat` of the form inputs, `toLocaleString` and `toFixed` are not modelled.
- `Split`, `Trim` and `padStart` work on `char`s, that is, UTF-16 units in the Basic Multilingual Plane. `JsStrings.Utf16Length` counts any astral characters explicitly for the password length rule.
- The default `sort()` is modelled as code-unit order. It agrees with JavaScript for keys without astral characters.
- Rendering is not modelled: DOM templating, event listeners, `fetch`, `confirm`, `setTimeout`, and Chart.js drawing and `destroy`. `Financial.SalesChart` records the data the chart is built from.
- `js/products.js`, `js/clients.js`, `js/services.js`, `js/terms.js`, `js/profile.js` and `js/main.js` are not part of this model: they are UI and fetch glue.
- The remove-entry and remove-exit login guards are not modelled (js/financial.js:249-256, 290-297). Their shape is the same as `Dashboard.AddTxnSubmit`.
- The page-level guards that return silently are not modelled: `fetchFinancialData` and `fetchOrders` need a companyId, `fetchDashboardData` only a user.
- Store.Store.GetTerms: does not model the two reply shapes. With a row the route answers `{terms: {content, last_updated}}`, and without one it answers a flat `{content, last_updated: null}` (backend/server.js:1256-1263). The model returns the content and the date in both cases; the browser reads both shapes through `data.terms || data` (js/terms.js:63).
- ON DELETE CASCADE: the comment at backend/server.js:457-466 describes a cascade that backend/database.js does not declare. The model follows the DDL, so `Store.Store.DeleteCompany` removes only the company row. The `FOREIGN KEY` clauses of backend/database.js are not enforced either: the node `sqlite3` connection never issues `PRAGMA foreign_keys = ON`. So `Store.Store.DeleteCompany` and the client and service deletes leave rows that point at a missing row, and `Crud.DeletedClientHidesOrders` shows such an order dropping out of the listing.
- The server's register route applies no password policy, and `Store.Store.Register` models it that way. Only the register form checks the rules (js/auth.js:106-134), while the reset route checks them on the server.
- `Store.Store.ForgotPassword` models the reply as written, with a 500 on a failed mail. The corrected reply, `Store.UniformForgotReply`, is proved separately (see Findings).
- `AuthClient.EditCompanyReply` models the cache update as written. The corrected update, `AuthClient.CachedProfile`, is proved separately (see Findings).

## Findings

| source | as written | input that shows it | evidently intended | confidence | as-written member | corrected member |
|---|---|---|---|---|---|---|
| backend/server.js:62-100 | the company row is inserted before the user row, and a UNIQUE conflict on the user e-mail returns 409 without removing it | register "Alfa" with user e-mail ana@alfa.com, then "Beta" (CNPJ 222) with the same user e-mail: 409, yet company "Beta" is stored; retrying "Beta" with a fresh user e-mail then fails with "CNPJ ou E-mail da empresa já cadastrado." | both inserts succeed or neither does | high, not executed | Store.Store.Register, Store.RegisterOrphanExample | Store.Store.RegisterAtomic, Store.RegisterAtomicRetryExample |
| js/auth.js:294 | `{ ...companyInfo, name, email, cnpj }` copies every input into the cache, while the server keeps fields whose input is falsy | company ("ACME", "123", "a@b.co") edited with name "" and e-mail "x@y.co": the server keeps the name "ACME", but the cache holds "" | the cache shows exactly what the server stored | medium, not executed | AuthClient.CachedProfileAsWritten, AuthClient.BlankNameCacheDiverges | AuthClient.CachedProfile, AuthClient.CachedProfileMatchesServer |
| backend/server.js:165-217 | the route tries not to reveal whether an e-mail is registered (comment at line 166), but a failed mail answers 500 only on the registered path | an outage of the mail service: "ana@alfa.com", which is stored, gets 500; an unknown e-mail gets the 200 message | the same reply for every non-empty e-mail, with the mail failure logged only on the server | medium, not executed | Store.ForgotPasswordReply, Store.ForgotReplyLeakExample | Store.UniformForgotReply, Store.UniformForgotReplyHidesRegistration |
