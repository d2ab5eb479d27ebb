# Monika finance tracker — a verified model of its core

Monika is a personal finance tracker: a FastAPI back end over SQLite and a Vue front end. This
project models, in Dafny, the parts of it that decide what is stored and who may see it:

- **The record store** (`crud.dfy`, `tables.dfy`, `updates.dfy`, `setattr.dfy`, `records.dfy`).
  - It keeps users, accounts, projects, categories, transactions, tags and budgets. Each is a
    table from id to row, and each row carries its owner.
  - It also keeps the `transaction_tags` association rows, as a map from a transaction to the
    set of its tag ids.
  - Every read, create, update and delete looks up rows by the caller's user id. The one
    exception: categories without an owner are system categories, which every user reads and
    nobody edits. In the model, a write therefore touches only the caller's own rows. In the
    program, the ORM's handling of references on delete can reach other users' rows (see
    "Left out").
  - Updates are partial. The `setattr` loop over `dict(exclude_unset=True)` is modelled as a loop
    over the fields that were sent. A lemma per entity proves that the loop overwrites exactly
    those fields.
  - A commit that would put a null into a NOT NULL column is refused, and the row stays as it
    was.
  - Listing follows SQLite's `OFFSET`/`LIMIT`: a negative offset skips nothing, and a negative
    limit sets no bound. Rows come back in no particular order.
- **Seeding** (`init_data.dfy`). The fourteen system categories are inserted when no ownerless
  category exists yet, and nothing happens otherwise.
- **Registration and login** (`auth_api.dfy`).
  - Registration refuses a taken username before it looks at the email.
  - Login maps a failed authentication to a 401 that asks for bearer authentication, and a
    successful one to a bearer token for the username.
- **The front-end auth store** (`auth_store.dfy`). It holds the token, the user profile and the
  token copy in local storage. Every request the store makes is an input: the reply, or the
  error detail, is passed to the operation that awaits it.
- **The router** (`router.dfy`). It holds the route table and the navigation guard. The guard's
  decision is a pure function, and the method that runs it validates the token through the auth
  store when it needs to.

Conventions:

- A column named `type` is called `kind`.
- Amounts are integer cents.
- Dates and timestamps are integers.
- Ids are handed out from one counter, and a new row gets an id no row of its table has.

## Model

| member | source | states |
|---|---|---|
| Tables.Window | backend/crud/crud.py:52-53 | how many rows `.offset(skip).limit(limit)` keeps out of n: never more than n, never more than a non-negative limit, all of them when nothing is skipped and the limit does not bite, none when the offset passes the end |
| Tables.Skip | backend/crud/crud.py:53 | OFFSET drops `offset` of the selected ids (all of them when there are fewer) and keeps only selected ids |
| Tables.Take | backend/crud/crud.py:53 | LIMIT keeps min(limit, remaining) rows (all when limit is negative), each a stored row of the remaining ids, none twice |
| Tables.Page | backend/crud/crud.py:52-53 | a listing returns exactly `Window` rows, every one a selected row as stored, no row twice; no order is promised |
| Tables.PageCoversAll | backend/crud/crud.py:52-53 | when the window covers all selected rows, the listing returns each selected row |
| Partial.SetAttrs | backend/crud/crud.py:71-73 | the `setattr` loop over `update_data` yields the fold of the entries over the row, in order |
| Updates.UserSetAttrs | backend/crud/crud.py:43-45 | the loop over the sent user fields gives the row where exactly the sent fields take the sent values |
| Updates.AccountSetAttrs | backend/crud/crud.py:71-73 | same for accounts |
| Updates.ProjectSetAttrs | backend/crud/crud.py:108-110 | same for projects; a null sent for description or a date is written as null |
| Updates.CategorySetAttrs | backend/crud/crud.py:152-154 | same for categories; a null sent for the parent or the icon is written as null |
| Updates.TransactionSetAttrs | backend/crud/crud.py:201-205 | same for the nine transaction columns (`tag_ids` is popped first and does not take part) |
| Updates.TagSetAttrs | backend/crud/crud.py:248-250 | same for tags |
| Updates.BudgetSetAttrs | backend/crud/crud.py:285-287 | same for budgets; a null sent for the category is written as null |
| Crud.OwnedTags | backend/crud/crud.py:191 | the tags the `Tag.id.in_(tag_ids), Tag.user_id == user_id` query selects: exactly the listed ids that name a tag of the caller |
| Crud.Store.GetUser | backend/crud/crud.py:14-15 | some user exactly when one has this id, and then that user |
| Crud.Store.GetUserByEmail | backend/crud/crud.py:18-19 | some user exactly when one has this email, and then a stored user with it |
| Crud.Store.GetUserByUsername | backend/crud/crud.py:22-23 | some user exactly when one has this username, and then a stored user with it |
| Crud.Store.CreateUser | backend/crud/crud.py:26-37 | one new user under a fresh id with the payload's username, email and default currency and the hash of the password; no other user changes |
| Crud.Store.UpdateUser | backend/crud/crud.py:40-48 | no such id: NotFound and nothing changes; a null for a NOT NULL column or a username/email another user has: refused, nothing changes; otherwise exactly the sent fields are overwritten |
| Crud.Store.GetAccounts | backend/crud/crud.py:52-53 | a page of the caller's accounts only |
| Crud.Store.GetAccount | backend/crud/crud.py:56-57 | a row exactly when the id exists and the caller owns it |
| Crud.Store.CreateAccount | backend/crud/crud.py:60-65 | one new row under a fresh id, owned by the caller, columns from the payload; other rows unchanged |
| Crud.Store.UpdateAccount | backend/crud/crud.py:68-76 | not owned: None, store unchanged; null into NOT NULL: refused, unchanged; otherwise only that row changes, to the field-wise patch |
| Crud.Store.DeleteAccount | backend/crud/crud.py:79-85 | true exactly when the caller owns the row, and then exactly that row is removed; false leaves the table unchanged |
| Crud.Store.GetProjects | backend/crud/crud.py:89-90 | a page of the caller's projects only |
| Crud.Store.GetProject | backend/crud/crud.py:93-94 | a row exactly when the id exists and the caller owns it |
| Crud.Store.CreateProject | backend/crud/crud.py:97-102 | one new owned row from the payload; other rows unchanged |
| Crud.Store.UpdateProject | backend/crud/crud.py:105-113 | as UpdateAccount, for projects |
| Crud.Store.DeleteProject | backend/crud/crud.py:116-122 | as DeleteAccount, for projects |
| Crud.Store.GetCategories | backend/crud/crud.py:126-129 | a page of the caller's categories and the system categories |
| Crud.Store.GetCategory | backend/crud/crud.py:132-136 | a row exactly when the id exists and the caller owns it or nobody does |
| Crud.Store.AddCategory | backend/database/init_data.py:47-51 | a category row with the given owner is stored under a fresh id; nothing else changes |
| Crud.Store.CreateCategory | backend/crud/crud.py:139-144 | one new category owned by the caller; other rows unchanged |
| Crud.Store.UpdateCategory | backend/crud/crud.py:147-157 | matches only rows the caller owns, so system categories are never modified; otherwise as UpdateAccount |
| Crud.Store.DeleteCategory | backend/crud/crud.py:160-168 | true exactly when the caller owns the row; system categories are never removed |
| Crud.Store.GetTransactions | backend/crud/crud.py:172-173 | a page of the caller's transactions only |
| Crud.Store.GetTransaction | backend/crud/crud.py:176-177 | a row exactly when the id exists and the caller owns it |
| Crud.Store.CreateTransaction | backend/crud/crud.py:180-195 | one new owned row from the payload; its tag set is exactly the caller's tags among `tag_ids` (none when null or empty); no other links change |
| Crud.Store.UpdateTransaction | backend/crud/crud.py:198-216 | columns as UpdateAccount; absent or null `tag_ids` keeps the tag set; a list, even empty, replaces it by the caller's tags among the ids; a refused commit changes neither |
| Crud.Store.DeleteTransaction | backend/crud/crud.py:219-225 | true exactly when owned; removes the row and its association rows only |
| Crud.Store.GetTags | backend/crud/crud.py:229-230 | a page of the caller's tags only |
| Crud.Store.GetTag | backend/crud/crud.py:233-234 | a row exactly when the id exists and the caller owns it |
| Crud.Store.CreateTag | backend/crud/crud.py:237-242 | one new owned tag from the payload; other rows unchanged |
| Crud.Store.UpdateTag | backend/crud/crud.py:245-253 | as UpdateAccount, for tags |
| Crud.Store.DeleteTag | backend/crud/crud.py:256-262 | true exactly when owned; removes the tag and unlinks it from every transaction, nothing else |
| Crud.Store.GetBudgets | backend/crud/crud.py:266-267 | a page of the caller's budgets only |
| Crud.Store.GetBudget | backend/crud/crud.py:270-271 | a row exactly when the id exists and the caller owns it |
| Crud.Store.CreateBudget | backend/crud/crud.py:274-279 | one new owned budget from the payload; other rows unchanged |
| Crud.Store.UpdateBudget | backend/crud/crud.py:282-290 | as UpdateAccount, for budgets |
| Crud.Store.DeleteBudget | backend/crud/crud.py:293-299 | as DeleteAccount, for budgets |
| InitData.SeedRows | backend/database/init_data.py:46-51 | the inserted rows: one per seed under consecutive ids, no owner, the seed's name, type and icon |
| InitData.DefaultCategoriesShape | backend/database/init_data.py:23-44 | fourteen defaults, the nine expense categories first and the five income categories after |
| InitData.Seeded | backend/database/init_data.py:16-53 | the table and id counter after `init_default_categories`: unchanged when a system category exists; afterwards a system category always exists, no id is lost and the counter never goes back |
| InitData.SeedingInserts | backend/database/init_data.py:23-53 | on a table without system categories, seeding adds exactly fourteen ownerless rows under fresh ids in order and leaves every existing row unchanged |
| InitData.SeedingIdempotent | backend/database/init_data.py:16-20 | seeding a seeded table changes nothing, so seeding twice equals seeding once |
| InitData.AddSystemCategories | backend/database/init_data.py:46-51 | the insert loop adds exactly the rows of `SeedRows` and advances the id counter by their number |
| InitData.InitDefaultCategories | backend/database/init_data.py:11-55 | the store afterwards is `Seeded` of the store before: unchanged when a system category exists, the defaults added otherwise |
| AuthApi.Register | backend/api/auth.py:13-32 | taken username: 400 "Username already registered", checked first; else taken email: 400 "Email already registered"; a refusal changes nothing; otherwise exactly one user is created from the payload |
| AuthApi.LoginForAccessToken | backend/api/auth.py:35-49 | a failed authentication gives 401 with `WWW-Authenticate: Bearer`; a successful one gives token type "bearer" and a token whose subject is the username |
| AuthApi.TokenSubjectIdentifiesUser | backend/api/auth.py:46-48 | with unique usernames, the subject of an issued token names exactly the user who logged in |
| AuthStore.ErrorMessage | frontend/src/stores/auth.js:30 | the server's detail when it is a non-empty string, the fallback message otherwise |
| AuthStore.Register | frontend/src/stores/auth.js:35-46 | success exactly when the request succeeded; a success carries the created user as its data; a failure carries the detail or "注册失败" |
| AuthStore.Auth.IsAuthenticated | frontend/src/stores/auth.js:9 | true exactly when the token is a non-empty string |
| AuthStore.Auth.constructor | frontend/src/stores/auth.js:84-87 | the token comes from local storage (an empty string counts as none) and is validated when present: kept with the profile on success, logged out on failure |
| AuthStore.Auth.Logout | frontend/src/stores/auth.js:61-65 | token and user are null and the stored token is removed |
| AuthStore.Auth.FetchUser | frontend/src/stores/auth.js:48-59 | true and the profile loaded on success; false and logged out on failure |
| AuthStore.Auth.Login | frontend/src/stores/auth.js:11-33 | a refused token request gives failure with the detail or "登录失败" and changes nothing; a token reply sets the token and its stored copy and always gives success, with the profile loaded or, if that fetch fails, logged out; it never carries data |
| AuthStore.Auth.ValidateToken | frontend/src/stores/auth.js:68-82 | no truthy token: false, nothing sent, nothing changes; otherwise true with the profile loaded, or false and logged out |
| Router.Routes | frontend/src/router/index.js:4-49 | the table has eight records; only the first ("/") redirects, to /dashboard, and it is the only one without a name; exactly the records from /dashboard on require authentication |
| Router.Canonical | frontend/src/router/index.js:51-54 | the form the default matcher compares: one trailing "/" dropped ("/" itself kept) and ASCII letters lower-cased |
| Router.Lookup | frontend/src/router/index.js:4-54 | the record found matches the requested path, ignoring case and one trailing "/", and comes from the table; no match means no record matches |
| Router.LookupIsFirst | frontend/src/router/index.js:4-54 | a matching record with no match before it is the one found: the lookup returns the first match in table order |
| Router.LookupAgrees | frontend/src/router/index.js:51-54 | two paths with the same canonical form find the same record |
| Router.TrailingSlashIgnored | frontend/src/router/index.js:51-54 | adding one trailing "/" to a path does not change the record it finds |
| Router.Resolve | frontend/src/router/index.js:4-8 | a navigation lands on the matching record, after the redirect of "/"; a path no record matches lands on an unnamed route that needs no authentication |
| Router.Guard | frontend/src/router/index.js:56-86 | protected page without a token: /login; with a token but no profile and a failed validation: /login; login or register page while authenticated: /dashboard; every other case proceeds |
| Router.BeforeEach | frontend/src/router/index.js:56-86 | one decision per navigation, equal to `Guard` of the state on entry; validation runs only for a protected page reached with a token but no profile, and otherwise the store is unchanged; a successful validation loads the profile and keeps the token and its stored copy |
| Router.RootLandsOnDashboard | frontend/src/router/index.js:5-24 | "/" lands on the dashboard, which is protected |
| Router.LoginResolves | frontend/src/router/index.js:9-13 | "/login" lands on the Login record |
| Router.DashboardFolds | frontend/src/router/index.js:19-24 | "/Dashboard/" has the canonical form of "/dashboard" |
| Router.DashboardVariants | frontend/src/router/index.js:19-24 | "/Dashboard/" lands on the protected Dashboard record, so a signed-out visitor is sent to /login |
| Router.RecordsDistinct | frontend/src/router/index.js:4-49 | any two records of the table have different canonical paths, so no path matches two records and their order does not decide a match |
| Router.ProtectedPages | frontend/src/router/index.js:4-49 | the login and register records are the sign-in pages, and none of the protected records is one |
| Router.SignedOutAccess | frontend/src/router/index.js:60-65 | signed out, a page is reachable exactly when it is not protected, and a protected one redirects to /login |
| Router.LoginAdmitsSignedOut | frontend/src/router/index.js:9-13 | a signed-out visitor sent to /login is let through |
| Router.DashboardSettles | frontend/src/router/index.js:19-24 | signed in, /dashboard either proceeds or, when validation fails, sends the visitor to /login |
| Router.RedirectsSettle | frontend/src/router/index.js:60-83 | a redirect to /login proceeds in the signed-out state it leaves behind; a redirect to /dashboard happens only when signed in and then proceeds or goes to /login |

## Left out

- Foreign keys (SQLite runs with `PRAGMA foreign_keys=ON`). Creating or updating a row that
  points at a missing account, project, category or parent category is refused by SQLite. The
  model stores such rows. Nothing in the code checks that a referenced account, project or
  category belongs to the caller, and the model does not check it either.
- Deleting a row that other rows reference. On delete, SQLAlchemy nulls the referencing
  columns of every referencing row, whoever owns it. Because references are not checked for
  ownership, another user's transaction or budget can point at the caller's rows. The model
  removes only the row itself, plus its association rows. So its delete methods, and the claim
  that a write touches only the caller's rows, hold for the model but not for the program.
- `Crud.Store.DeleteAccount`: when a transaction of any user still points at the account, the
  program nulls its NOT NULL `account_id` and the commit fails. The model removes the account.
- `Crud.Store.DeleteProject`: the program nulls `project_id` of every transaction of any user
  that points at the project. The model leaves those transactions as they were.
- `Crud.Store.DeleteCategory`: the program nulls `category_id` of every transaction and budget,
  of any user, that points at the category. When another category has it as parent, nothing
  nulls `parent_category_id` first, and SQLite's foreign-key check refuses the commit. The model
  removes the category and leaves the other rows as they were.
- UNIQUE constraints apart from usernames and emails. There are none in the schema.
- `Crud.Store.CreateUser` requires a free username and email instead of modelling the
  IntegrityError the UNIQUE columns would raise. Its only caller, `register`, checks both first.
- DECIMAL(10, 2) rounding and the float amounts in the request schemas. Amounts are exact
  integer cents.
- The server-side `created_at` timestamps.
- SQLite's reuse of the largest rowid after it is deleted. Ids only come out fresh.
- Password hashing, `authenticate_user` and JWT signing and verification. They live in
  backend/auth/auth.py, which is not part of this model. The hash is a function parameter, the
  authentication outcome is an input, and a token is represented by its claims.
- `ACCESS_TOKEN_EXPIRE_MINUTES` is defined in backend/auth/auth.py, so the lifetime is a
  parameter.
- The HTTP routes of backend/api other than `auth.py`, which map None and false to 404. So are
  the response models, request validation, CORS and the app wiring.
- `create_transaction` commits the row before it attaches the tags. The model makes both steps
  one atomic change.
- A session left in a failed state after a refused commit. A refused commit is modelled as
  changing nothing.
- The network side of the front end: axios interceptors, the 307 re-request, and the
  `window.location` redirect on 401 in frontend/src/api/index.js. So are console logging,
  FormData construction and the password value, which only travels in the request. The 401
  interceptor also removes the token from local storage. So after a refused login (a 401 from
  /auth/token) the program has lost its stored token, while `AuthStore.Auth.Login` keeps it:
  its "changes nothing" means nothing apart from what the interceptor does.
- Asynchrony in the auth store. The validation at store creation is not awaited in the source
  and may interleave with other actions. The model runs it to completion at creation.
- `AuthStore.ErrorMessage`: a `detail` that is not a string is not modelled, such as the list a
  422 validation error carries.
- Router.Resolve: lazy-loaded components, history mode, query strings, hash fragments and
  percent-decoding are not modelled. The path is taken as the router sees it after those are
  split off, and the redirect of "/" is followed once.
- Project statistics are not part of the modelled code.
