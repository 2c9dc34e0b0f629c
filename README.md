# RentalXpert bookkeeping store, modelled in Dafny

RentalXpert is a multi-owner rental bookkeeping web application. Owners
register and log in. They record properties, tenants and rent payments, and
they see lists and a dashboard scoped to their own properties. This project
models the application's data and access-control logic (`app.py`) as an
in-memory database:

- `schema.dfy` (module `Schema`): one record type per table (Owner, Property,
  Tenant, Payment, Expense, MaintenanceRequest), the tables together
  (`Tables`), and the integrity facts the store keeps (`WellFormed`).
- `passwords.dfy` (module `Passwords`): the salted password digest stored in
  place of the password, and the check used at login.
- `relational.dfy` (module `Relational`): the SQL pieces the queries use, over
  tables held as sequences. These are WHERE (`Filter`), SUM with its NULL over
  no rows (`SqlSum`), `ORDER BY ... DESC` (`OrderByDesc`, an insertion sort
  specified as "a permutation, keys never increasing") and LIMIT (`Limit`).
- `accounts.dfy` (module `Accounts`): the email lookup used by registration
  and login, and the credential check.
- `queries.dfy` (module `Queries`): the owner-scoped lists and the dashboard,
  as functions of the tables and the asking owner's id. It also holds the
  lemmas on isolation between owners and on what each insert does to every
  owner's lists.
- `store.dfy` (module `Rental`): class `Store`. It holds the six tables as
  `seq` fields, the logged-in owner (`current`) and the dark-mode flag. The
  request handlers are its methods (they append rows or change the session)
  and its functions (the guarded list and dashboard views).

Tenants, payments, expenses and maintenance requests reach their owner only
through `propertyId`. The handlers that create tenants and payments take that
id from the form and never check who owns the property. The model keeps this
behaviour:

- `AddTenant` and `AddPayment` accept any `propertyId`.
- `ForeignTenantLandsWithPropertyOwner` and
  `ForeignPaymentLandsWithPropertyOwner` prove where such a row goes. If the
  row names owner B's property, it joins B's list, whoever created it, and the
  creator's own list does not change.
- `DanglingTenantAdopted` shows a second effect. A tenant that names a
  property id that does not exist yet joins the list of whoever later creates
  a property with that id.

Reads are still isolated (`OwnersIsolated`), because property ids are unique:
no row ever appears in the lists of two different owners.

Amounts (rent, deposits, payments, expenses, floor area) are integers, e.g.
cents. Dates are integer day numbers. A text field the form may leave out is
the empty string.

The create handlers validate nothing. A bad number or date raises in
`int()`, `float()` or `strptime()` (app.py:239-242, app.py:269-272,
app.py:295-298). No route lists maintenance requests; they appear only in the
dashboard count, through `MaintenanceOf`.

## Model

| member | source | states |
|---|---|---|
| `Passwords.Check` | app.py:177 | a digest accepts a candidate exactly when the digest is the candidate's hash under some salt |
| `Passwords.CheckHash` | app.py:154 | a freshly made digest accepts the hashed password and no other, whatever the salt |
| `Schema.OwnerInsertKeepsWellFormed` | app.py:155-162 | appending an owner under the next id, with an unused email and username, keeps ids sequential and emails and usernames unique |
| `Schema.PropertyInsertKeepsWellFormed` | app.py:235-246 | appending a property under the next id, for an existing owner, keeps the tables well formed |
| `Schema.TenantInsertKeepsWellFormed` | app.py:264-275 | appending a tenant under the next id keeps the tables well formed, whatever property id it names |
| `Schema.PaymentInsertKeepsWellFormed` | app.py:294-304 | appending a payment under the next id keeps the tables well formed, whatever property id it names |
| `Relational.Filter` | app.py:228 | the result holds each qualifying row exactly as often as the table does, and no other row |
| `Relational.SumPermutation` | app.py:203-205 | SUM adds an unordered bag of rows: rearranging the rows leaves the total unchanged |
| `Relational.SqlSumOrderIndependent` | app.py:203-205 | SUM, NULL over no rows included, gives the same value however the rows are ordered |
| `Relational.OrderByDesc` | app.py:287 | the result is a permutation of the rows whose keys never increase |
| `Relational.Limit` | app.py:210 | LIMIT n keeps the first min(n, size) rows in order |
| `Accounts.OwnerByEmail` | app.py:149 | None exactly when no owner has the email; otherwise the first owner in table order with it |
| `Accounts.OwnerByEmailUnique` | app.py:175 | with unique emails, the lookup returns the one owner with that email |
| `Accounts.Authenticate` | app.py:175-177 | accepts only an owner on file with that email whose digest accepts the password; with unique emails, accepts exactly when such an owner exists |
| `Accounts.AuthenticateRegistered` | app.py:175-182 | for an owner whose digest was made from a password, login with their email succeeds exactly for that password, and yields that owner |
| `Queries.PropertiesOf` | app.py:228 | the properties list holds exactly the properties whose owner is the asker |
| `Queries.TenantsOf` | app.py:255-257 | the tenants list holds exactly the tenants whose property, joined by id, belongs to the asker |
| `Queries.PaymentsOf` | app.py:285-287 | the payments list is a permutation of the asker's joined payments, ordered newest first |
| `Queries.ExpensesOf` | app.py:314-316 | the expenses list is a permutation of the asker's joined expenses, ordered newest first |
| `Queries.MaintenanceOf` | app.py:213-215 | the requests joined to the asker's properties, and no others |
| `Queries.Dashboard` | app.py:207-210 | the dashboard's recent payments are at most five |
| `Queries.DashboardMatchesLists` | app.py:196-216 | the property count equals the size of the properties list. Active tenants are the active rows of the tenants list. Monthly income is the sum of the listed properties' rents, and 0 with no properties. Pending maintenance counts the owner's requests that are not completed |
| `Queries.RecentPaymentsAreNewest` | app.py:208-210 | recent payments are the first min(5, n) rows of the payments list, newest first, and no payment left out is newer than one shown |
| `Queries.OwnerOfPropertyUnique` | app.py:37-38 | with unique property ids, a property id leads to at most one owner |
| `Queries.OwnersIsolated` | app.py:196-316 | for two different owners, no property, tenant, payment, expense or maintenance request is in both owners' lists |
| `Queries.PropertiesAfterInsert` | app.py:235-246 | a new property joins its owner's properties list at the end and no other owner's list |
| `Queries.DashboardUnaffectedByProperty` | app.py:243 | a new property leaves the dashboard of every other owner unchanged |
| `Queries.MonthlyIncomeOrderIndependent` | app.py:203-205 | the monthly income is the same under any rearrangement of the properties table |
| `Queries.OthersUnaffectedByProperty` | app.py:243 | a new property leaves every list of every other owner unchanged |
| `Queries.DanglingTenantAdopted` | app.py:272 | a tenant that already names a new property's id appears in that property owner's tenants list |
| `Queries.TenantsAfterInsert` | app.py:264-275 | a new tenant joins, at the end, exactly the tenants list of the owner its property id leads to |
| `Queries.PaymentsAfterInsert` | app.py:294-304 | a new payment joins, as a permutation, the payments list of the owner its property id leads to, and leaves every other list unchanged |
| `Queries.ForeignTenantLandsWithPropertyOwner` | app.py:272 | a tenant naming owner B's property joins B's list and not the creator's |
| `Queries.ForeignPaymentLandsWithPropertyOwner` | app.py:295 | a payment naming owner B's property joins B's list, and the creator's list is unchanged |
| `Rental.Store.Open` | app.py:335-337 | opening the database keeps its rows and starts with no one logged in and dark mode off |
| `Rental.Store.Register` | app.py:140-167 | a taken email is refused with DuplicateEmail, then a taken username with DuplicateUsername, and both leave the owners unchanged. Otherwise exactly one owner is appended with the next id, the given username, email and phone, and the password's digest. Emails stay unique |
| `Rental.Store.Login` | app.py:169-184 | logs in exactly when some owner has the email and the digest accepts the password. On success the session names that owner. On failure it returns InvalidCredentials and the session is unchanged. No table changes |
| `Rental.Store.Logout` | app.py:186-190 | afterwards no one is logged in; without a session it returns Unauthorized |
| `Rental.Store.ToggleDarkMode` | app.py:128-131 | flips the dark-mode preference and nothing else |
| `Rental.Store.AddProperty` | app.py:231-250 | without a session: Unauthorized and nothing changes. Otherwise one property is appended, under the next id and owned by the logged-in owner. That owner's list gains exactly this row. Every other owner's properties, tenants, payments, expenses and maintenance requests, and their dashboard, are unchanged |
| `Rental.Store.AddTenant` | app.py:260-277 | without a session: Unauthorized and nothing changes. Otherwise one active tenant is appended with the unchecked property id, and every owner's tenants list gains it exactly when that property is theirs |
| `Rental.Store.AddPayment` | app.py:290-306 | without a session: Unauthorized and nothing changes. Otherwise one payment with status "completed" is appended. It joins, up to order, the payments list of the owner of the named property, and every other list is unchanged |
| `Rental.Store.ListProperties` | app.py:225-229 | Unauthorized exactly without a session; otherwise exactly the logged-in owner's properties |
| `Rental.Store.ListTenants` | app.py:252-258 | Unauthorized exactly without a session; otherwise exactly the tenants of the logged-in owner's properties |
| `Rental.Store.ListPayments` | app.py:282-288 | Unauthorized exactly without a session; otherwise exactly the payments on the logged-in owner's properties, newest first |
| `Rental.Store.ListExpenses` | app.py:311-317 | Unauthorized exactly without a session; otherwise exactly the expenses of the logged-in owner's properties, newest first |
| `Rental.Store.ShowDashboard` | app.py:192-223 | Unauthorized exactly without a session; otherwise at most five recent payments, all on the logged-in owner's properties |

## Left out

- Flask routing, templates, flash messages and redirects: handlers return a result value or an error instead. The GET branches only render forms. The property choices they offer (app.py:279, app.py:308) are the same query as `ListProperties`.
- SQLAlchemy and SQLite: tables are sequences. A new row's id is the table size plus one, because rows are never deleted. Foreign keys are not enforced, as in SQLite by default. `create_all` becomes the constructor `Open`, which accepts existing rows. That is also how expenses and maintenance requests, which no handler creates, get into the store.
- The `created_at`, `resolved_at` and default-date columns: they read the clock.
- Nullable columns are modelled as always set. SQL's treatment of a NULL `status` (not counted as pending) or a NULL `is_active` (not counted as active) is therefore not modelled. Required columns left empty by a form (an IntegrityError on commit) are not modelled either.
- Form parsing with `int()`, `float()` and `strptime`: inputs arrive already typed, so the crash on malformed input is not modelled.
- Floating-point columns (`monthly_rent`, `area_sqft`, `security_deposit`, `amount`): modelled as integers, so sums are exact.
- The werkzeug hash algorithm: `Passwords.Hash` is an injective stand-in. The random salt is a parameter of `Register`.
- Flask-Login cookies, `load_user` and the per-process `SECRET_KEY`: reduced to the `current` field. A login while someone is logged in replaces the session.
- Unspecified row order: queries without ORDER BY return rows in table order. Rows with equal dates keep table order. The contracts say only "permutation, newest first", which holds for any order SQL picks. Taking the recent payments as a prefix of the payments list assumes both queries break ties the same way.
- `Rental.Store.Register`: a taken username passes the email check, and the insert then fails at `db.session.commit()` (app.py:161-162) with an IntegrityError that the handler does not catch, so the user gets an error page. The model reports that failed insert as `Failure(DuplicateUsername)`, with the owners table unchanged.
- The `Message` and `Document` tables: no handler uses them.
- The `index` redirect, the `reports` placeholder and the WhatsApp reminder stub: they have no logic.
- `Rental.Store.ShowDashboard`: its contract states only the session guard and the recent payments' size and scope. The figures themselves are stated by `Queries.DashboardMatchesLists` and `Queries.RecentPaymentsAreNewest`.
