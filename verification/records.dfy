/**
 * The persistent entities of the finance tracker and the request payloads that create and
 * update them (backend/models/models.py and backend/schemas/schemas.py).
 *
 * Conventions:
 * - a column named `type` in the source is called `kind` here (`type` is a Dafny keyword);
 * - DECIMAL(10, 2) amounts and the schemas' float amounts are integer cents;
 * - dates are day numbers and date-times are instants, both plain integers;
 * - the server-side `created_at` timestamps are not modelled.
 */
module Records {
  import opened Wrappers

  /** Primary and foreign keys (SQLite INTEGER primary keys). */
  type Id = int
  /** A money amount in cents. */
  type Cents = int
  /** A calendar date as a day number. */
  type Date = int
  /** A point in time. */
  type DateTime = int

  /**
   * One field of an update payload: either left out of the request (`Unset`, dropped by
   * `dict(exclude_unset=True)`) or sent, and then possibly sent as an explicit null.
   */
  datatype Patch<T> = Unset | Sent(value: T)

  /** The field was sent as an explicit null. */
  predicate SentNull<T>(p: Patch<Option<T>>) {
    p.Sent? && p.value.None?
  }

  /**
   * New value of a NOT NULL column: the sent value, or the old one when the field was not
   * sent. (A sent null is refused when the row is written; see `SentNull`.)
   */
  function Keep<T>(p: Patch<Option<T>>, was: T): T {
    if p.Sent? && p.value.Some? then p.value.value else was
  }

  /** New value of a nullable column: whatever was sent, null included, or the old value. */
  function Over<T>(p: Patch<Option<T>>, was: Option<T>): Option<T> {
    if p.Sent? then p.value else was
  }

  /** A row of an owner-scoped table: its id, its owner (`user_id`) and its other columns. */
  datatype Row<F> = Row(id: Id, userId: Option<Id>, fields: F)

  // ---- users -------------------------------------------------------------------------

  /** A registered user; the password is stored only as a hash. */
  datatype User = User(id: Id, username: string, email: string, passwordHash: string, defaultCurrency: string)

  /** Registration payload (the schema fills in "CNY" when no default currency is sent). */
  datatype UserCreate = UserCreate(username: string, email: string, defaultCurrency: string, password: string)

  datatype UserUpdate = UserUpdate(
    username: Patch<Option<string>>,
    email: Patch<Option<string>>,
    defaultCurrency: Patch<Option<string>>)

  // ---- accounts ----------------------------------------------------------------------

  /** An account's columns; also the creation payload (`Account(**account.dict(), user_id=...)`). */
  datatype AccountFields = AccountFields(name: string, kind: string, initialBalance: Cents, isActive: bool)

  datatype AccountUpdate = AccountUpdate(
    name: Patch<Option<string>>,
    kind: Patch<Option<string>>,
    initialBalance: Patch<Option<Cents>>,
    isActive: Patch<Option<bool>>)

  // ---- projects ----------------------------------------------------------------------

  datatype ProjectFields = ProjectFields(
    name: string,
    description: Option<string>,
    startDate: Option<Date>,
    endDate: Option<Date>)

  datatype ProjectUpdate = ProjectUpdate(
    name: Patch<Option<string>>,
    description: Patch<Option<string>>,
    startDate: Patch<Option<Date>>,
    endDate: Patch<Option<Date>>)

  // ---- categories --------------------------------------------------------------------

  /** A category's columns; a category row with no owner is a system category shared by everyone. */
  datatype CategoryFields = CategoryFields(
    parentCategoryId: Option<Id>,
    name: string,
    kind: string,
    iconName: Option<string>)

  datatype CategoryUpdate = CategoryUpdate(
    name: Patch<Option<string>>,
    kind: Patch<Option<string>>,
    parentCategoryId: Patch<Option<Id>>,
    iconName: Patch<Option<string>>)

  // ---- transactions ------------------------------------------------------------------

  datatype TransactionFields = TransactionFields(
    accountId: Id,
    projectId: Option<Id>,
    categoryId: Option<Id>,
    kind: string,
    title: Option<string>,
    amount: Cents,
    currency: string,
    transactionDate: DateTime,
    notes: Option<string>)

  /** Creation payload: the columns plus the ids of the tags to attach (`tag_ids`, may be null). */
  datatype TransactionCreate = TransactionCreate(fields: TransactionFields, tagIds: Option<seq<Id>>)

  datatype TransactionUpdate = TransactionUpdate(
    accountId: Patch<Option<Id>>,
    projectId: Patch<Option<Id>>,
    categoryId: Patch<Option<Id>>,
    kind: Patch<Option<string>>,
    title: Patch<Option<string>>,
    amount: Patch<Option<Cents>>,
    currency: Patch<Option<string>>,
    transactionDate: Patch<Option<DateTime>>,
    notes: Patch<Option<string>>,
    tagIds: Patch<Option<seq<Id>>>)

  // ---- tags and budgets --------------------------------------------------------------

  datatype TagFields = TagFields(name: string)

  datatype TagUpdate = TagUpdate(name: Patch<Option<string>>)

  /** A budget; no category means an overall budget. */
  datatype BudgetFields = BudgetFields(categoryId: Option<Id>, amount: Cents, period: string, startDate: Date)

  datatype BudgetUpdate = BudgetUpdate(
    categoryId: Patch<Option<Id>>,
    amount: Patch<Option<Cents>>,
    period: Patch<Option<string>>,
    startDate: Patch<Option<Date>>)
}
