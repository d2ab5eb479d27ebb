/**
 * Partial updates entity by entity (the `update_*` functions of backend/crud/crud.py with
 * the `*Update` schemas of backend/schemas/schemas.py): which entries `update_data` holds,
 * what `setattr` does with each, and the lemma that the loop over them overwrites exactly
 * the fields that were sent.
 */
module Updates {
  import opened Wrappers
  import opened Records
  import opened Partial

  // ---- user rows ------------------------------------------------------------------

  /** One entry of the `update_data` dict of `update_user`: a column name and the value sent for it. */
  datatype UserAttr =
    | UserUsername(Option<string>)
    | UserEmail(Option<string>)
    | UserDefaultCurrency(Option<string>)

  /** `setattr` of one entry on a user row (a null aimed at a NOT NULL column leaves it as it was; such a row is never committed). */
  function UserSetAttr(a: User, x: UserAttr): User {
    match x
    case UserUsername(v) => a.(username := Keep(Sent(v), a.username))
    case UserEmail(v) => a.(email := Keep(Sent(v), a.email))
    case UserDefaultCurrency(v) => a.(defaultCurrency := Keep(Sent(v), a.defaultCurrency))
  }

  /** `user_update.dict(exclude_unset=True).items()`: one entry per field that was sent, in schema order. */
  function UserItems(u: UserUpdate): seq<UserAttr> {
    (if u.username.Sent? then [UserUsername(u.username.value)] else []) +
    ((if u.email.Sent? then [UserEmail(u.email.value)] else []) +
    ((if u.defaultCurrency.Sent? then [UserDefaultCurrency(u.defaultCurrency.value)] else [])))
  }

  /** The committed row satisfies its NOT NULL constraints: no NOT NULL column was sent an explicit null. */
  predicate UserWritable(u: UserUpdate) {
    !SentNull(u.username) && !SentNull(u.email) && !SentNull(u.defaultCurrency)
  }

  /** Reference meaning of a partial update: every column the payload sent takes the sent value, every other column keeps its value. */
  function PatchUser(a: User, u: UserUpdate): User {
    a.(
      username := Keep(u.username, a.username),
      email := Keep(u.email, a.email),
      defaultCurrency := Keep(u.defaultCurrency, a.defaultCurrency)
    )
  }

  /** The setattr loop over `update_data` yields exactly the field-wise patch. */
  lemma UserSetAttrs(a: User, u: UserUpdate)
    ensures Fold(UserSetAttr, a, UserItems(u)) == PatchUser(a, u)
  {
    var i1 := if u.username.Sent? then [UserUsername(u.username.value)] else [];
    var i2 := if u.email.Sent? then [UserEmail(u.email.value)] else [];
    var i3 := if u.defaultCurrency.Sent? then [UserDefaultCurrency(u.defaultCurrency.value)] else [];
    assert UserItems(u) == i1 + (i2 + i3);
    assert i3 + [] == i3;
    var a1 := a.(username := Keep(u.username, a.username));
    assert Fold(UserSetAttr, a, i1 + (i2 + i3)) == Fold(UserSetAttr, a1, i2 + i3) by {
      FoldField(UserSetAttr, a, i1, i2 + i3, a1);
    }
    var a2 := a1.(email := Keep(u.email, a1.email));
    assert Fold(UserSetAttr, a1, i2 + i3) == Fold(UserSetAttr, a2, i3) by {
      FoldField(UserSetAttr, a1, i2, i3, a2);
    }
    var a3 := a2.(defaultCurrency := Keep(u.defaultCurrency, a2.defaultCurrency));
    assert Fold(UserSetAttr, a2, i3 + []) == Fold(UserSetAttr, a3, []) by {
      FoldField(UserSetAttr, a2, i3, [], a3);
    }
  }

  // ---- account rows ---------------------------------------------------------------

  /** One entry of the `update_data` dict of `update_account`: a column name and the value sent for it. */
  datatype AccountAttr =
    | AccountName(Option<string>)
    | AccountKind(Option<string>)
    | AccountInitialBalance(Option<Cents>)
    | AccountIsActive(Option<bool>)

  /** `setattr` of one entry on a account row (a null aimed at a NOT NULL column leaves it as it was; such a row is never committed). */
  function AccountSetAttr(a: AccountFields, x: AccountAttr): AccountFields {
    match x
    case AccountName(v) => a.(name := Keep(Sent(v), a.name))
    case AccountKind(v) => a.(kind := Keep(Sent(v), a.kind))
    case AccountInitialBalance(v) => a.(initialBalance := Keep(Sent(v), a.initialBalance))
    case AccountIsActive(v) => a.(isActive := Keep(Sent(v), a.isActive))
  }

  /** `account_update.dict(exclude_unset=True).items()`: one entry per field that was sent, in schema order. */
  function AccountItems(u: AccountUpdate): seq<AccountAttr> {
    (if u.name.Sent? then [AccountName(u.name.value)] else []) +
    ((if u.kind.Sent? then [AccountKind(u.kind.value)] else []) +
    ((if u.initialBalance.Sent? then [AccountInitialBalance(u.initialBalance.value)] else []) +
    ((if u.isActive.Sent? then [AccountIsActive(u.isActive.value)] else []))))
  }

  /** The committed row satisfies its NOT NULL constraints: no NOT NULL column was sent an explicit null. */
  predicate AccountWritable(u: AccountUpdate) {
    !SentNull(u.name) && !SentNull(u.kind) && !SentNull(u.initialBalance) && !SentNull(u.isActive)
  }

  /** Reference meaning of a partial update: every column the payload sent takes the sent value, every other column keeps its value. */
  function PatchAccount(a: AccountFields, u: AccountUpdate): AccountFields {
    a.(
      name := Keep(u.name, a.name),
      kind := Keep(u.kind, a.kind),
      initialBalance := Keep(u.initialBalance, a.initialBalance),
      isActive := Keep(u.isActive, a.isActive)
    )
  }

  /** The setattr loop over `update_data` yields exactly the field-wise patch. */
  lemma AccountSetAttrs(a: AccountFields, u: AccountUpdate)
    ensures Fold(AccountSetAttr, a, AccountItems(u)) == PatchAccount(a, u)
  {
    var i1 := if u.name.Sent? then [AccountName(u.name.value)] else [];
    var i2 := if u.kind.Sent? then [AccountKind(u.kind.value)] else [];
    var i3 := if u.initialBalance.Sent? then [AccountInitialBalance(u.initialBalance.value)] else [];
    var i4 := if u.isActive.Sent? then [AccountIsActive(u.isActive.value)] else [];
    assert AccountItems(u) == i1 + (i2 + (i3 + i4));
    assert i4 + [] == i4;
    var a1 := a.(name := Keep(u.name, a.name));
    assert Fold(AccountSetAttr, a, i1 + (i2 + (i3 + i4))) == Fold(AccountSetAttr, a1, i2 + (i3 + i4)) by {
      FoldField(AccountSetAttr, a, i1, i2 + (i3 + i4), a1);
    }
    var a2 := a1.(kind := Keep(u.kind, a1.kind));
    assert Fold(AccountSetAttr, a1, i2 + (i3 + i4)) == Fold(AccountSetAttr, a2, i3 + i4) by {
      FoldField(AccountSetAttr, a1, i2, i3 + i4, a2);
    }
    var a3 := a2.(initialBalance := Keep(u.initialBalance, a2.initialBalance));
    assert Fold(AccountSetAttr, a2, i3 + i4) == Fold(AccountSetAttr, a3, i4) by {
      FoldField(AccountSetAttr, a2, i3, i4, a3);
    }
    var a4 := a3.(isActive := Keep(u.isActive, a3.isActive));
    assert Fold(AccountSetAttr, a3, i4 + []) == Fold(AccountSetAttr, a4, []) by {
      FoldField(AccountSetAttr, a3, i4, [], a4);
    }
  }

  // ---- project rows ---------------------------------------------------------------

  /** One entry of the `update_data` dict of `update_project`: a column name and the value sent for it. */
  datatype ProjectAttr =
    | ProjectName(Option<string>)
    | ProjectDescription(Option<string>)
    | ProjectStartDate(Option<Date>)
    | ProjectEndDate(Option<Date>)

  /** `setattr` of one entry on a project row (a null aimed at a NOT NULL column leaves it as it was; such a row is never committed). */
  function ProjectSetAttr(a: ProjectFields, x: ProjectAttr): ProjectFields {
    match x
    case ProjectName(v) => a.(name := Keep(Sent(v), a.name))
    case ProjectDescription(v) => a.(description := v)
    case ProjectStartDate(v) => a.(startDate := v)
    case ProjectEndDate(v) => a.(endDate := v)
  }

  /** `project_update.dict(exclude_unset=True).items()`: one entry per field that was sent, in schema order. */
  function ProjectItems(u: ProjectUpdate): seq<ProjectAttr> {
    (if u.name.Sent? then [ProjectName(u.name.value)] else []) +
    ((if u.description.Sent? then [ProjectDescription(u.description.value)] else []) +
    ((if u.startDate.Sent? then [ProjectStartDate(u.startDate.value)] else []) +
    ((if u.endDate.Sent? then [ProjectEndDate(u.endDate.value)] else []))))
  }

  /** The committed row satisfies its NOT NULL constraints: no NOT NULL column was sent an explicit null. */
  predicate ProjectWritable(u: ProjectUpdate) {
    !SentNull(u.name)
  }

  /** Reference meaning of a partial update: every column the payload sent takes the sent value, every other column keeps its value. */
  function PatchProject(a: ProjectFields, u: ProjectUpdate): ProjectFields {
    a.(
      name := Keep(u.name, a.name),
      description := Over(u.description, a.description),
      startDate := Over(u.startDate, a.startDate),
      endDate := Over(u.endDate, a.endDate)
    )
  }

  /** The setattr loop over `update_data` yields exactly the field-wise patch. */
  lemma ProjectSetAttrs(a: ProjectFields, u: ProjectUpdate)
    ensures Fold(ProjectSetAttr, a, ProjectItems(u)) == PatchProject(a, u)
  {
    var i1 := if u.name.Sent? then [ProjectName(u.name.value)] else [];
    var i2 := if u.description.Sent? then [ProjectDescription(u.description.value)] else [];
    var i3 := if u.startDate.Sent? then [ProjectStartDate(u.startDate.value)] else [];
    var i4 := if u.endDate.Sent? then [ProjectEndDate(u.endDate.value)] else [];
    assert ProjectItems(u) == i1 + (i2 + (i3 + i4));
    assert i4 + [] == i4;
    var a1 := a.(name := Keep(u.name, a.name));
    assert Fold(ProjectSetAttr, a, i1 + (i2 + (i3 + i4))) == Fold(ProjectSetAttr, a1, i2 + (i3 + i4)) by {
      FoldField(ProjectSetAttr, a, i1, i2 + (i3 + i4), a1);
    }
    var a2 := a1.(description := Over(u.description, a1.description));
    assert Fold(ProjectSetAttr, a1, i2 + (i3 + i4)) == Fold(ProjectSetAttr, a2, i3 + i4) by {
      FoldField(ProjectSetAttr, a1, i2, i3 + i4, a2);
    }
    var a3 := a2.(startDate := Over(u.startDate, a2.startDate));
    assert Fold(ProjectSetAttr, a2, i3 + i4) == Fold(ProjectSetAttr, a3, i4) by {
      FoldField(ProjectSetAttr, a2, i3, i4, a3);
    }
    var a4 := a3.(endDate := Over(u.endDate, a3.endDate));
    assert Fold(ProjectSetAttr, a3, i4 + []) == Fold(ProjectSetAttr, a4, []) by {
      FoldField(ProjectSetAttr, a3, i4, [], a4);
    }
  }

  // ---- category rows --------------------------------------------------------------

  /** One entry of the `update_data` dict of `update_category`: a column name and the value sent for it. */
  datatype CategoryAttr =
    | CategoryName(Option<string>)
    | CategoryKind(Option<string>)
    | CategoryParentCategoryId(Option<Id>)
    | CategoryIconName(Option<string>)

  /** `setattr` of one entry on a category row (a null aimed at a NOT NULL column leaves it as it was; such a row is never committed). */
  function CategorySetAttr(a: CategoryFields, x: CategoryAttr): CategoryFields {
    match x
    case CategoryName(v) => a.(name := Keep(Sent(v), a.name))
    case CategoryKind(v) => a.(kind := Keep(Sent(v), a.kind))
    case CategoryParentCategoryId(v) => a.(parentCategoryId := v)
    case CategoryIconName(v) => a.(iconName := v)
  }

  /** `category_update.dict(exclude_unset=True).items()`: one entry per field that was sent, in schema order. */
  function CategoryItems(u: CategoryUpdate): seq<CategoryAttr> {
    (if u.name.Sent? then [CategoryName(u.name.value)] else []) +
    ((if u.kind.Sent? then [CategoryKind(u.kind.value)] else []) +
    ((if u.parentCategoryId.Sent? then [CategoryParentCategoryId(u.parentCategoryId.value)] else []) +
    ((if u.iconName.Sent? then [CategoryIconName(u.iconName.value)] else []))))
  }

  /** The committed row satisfies its NOT NULL constraints: no NOT NULL column was sent an explicit null. */
  predicate CategoryWritable(u: CategoryUpdate) {
    !SentNull(u.name) && !SentNull(u.kind)
  }

  /** Reference meaning of a partial update: every column the payload sent takes the sent value, every other column keeps its value. */
  function PatchCategory(a: CategoryFields, u: CategoryUpdate): CategoryFields {
    a.(
      name := Keep(u.name, a.name),
      kind := Keep(u.kind, a.kind),
      parentCategoryId := Over(u.parentCategoryId, a.parentCategoryId),
      iconName := Over(u.iconName, a.iconName)
    )
  }

  /** The setattr loop over `update_data` yields exactly the field-wise patch. */
  lemma CategorySetAttrs(a: CategoryFields, u: CategoryUpdate)
    ensures Fold(CategorySetAttr, a, CategoryItems(u)) == PatchCategory(a, u)
  {
    var i1 := if u.name.Sent? then [CategoryName(u.name.value)] else [];
    var i2 := if u.kind.Sent? then [CategoryKind(u.kind.value)] else [];
    var i3 := if u.parentCategoryId.Sent? then [CategoryParentCategoryId(u.parentCategoryId.value)] else [];
    var i4 := if u.iconName.Sent? then [CategoryIconName(u.iconName.value)] else [];
    assert CategoryItems(u) == i1 + (i2 + (i3 + i4));
    assert i4 + [] == i4;
    var a1 := a.(name := Keep(u.name, a.name));
    assert Fold(CategorySetAttr, a, i1 + (i2 + (i3 + i4))) == Fold(CategorySetAttr, a1, i2 + (i3 + i4)) by {
      FoldField(CategorySetAttr, a, i1, i2 + (i3 + i4), a1);
    }
    var a2 := a1.(kind := Keep(u.kind, a1.kind));
    assert Fold(CategorySetAttr, a1, i2 + (i3 + i4)) == Fold(CategorySetAttr, a2, i3 + i4) by {
      FoldField(CategorySetAttr, a1, i2, i3 + i4, a2);
    }
    var a3 := a2.(parentCategoryId := Over(u.parentCategoryId, a2.parentCategoryId));
    assert Fold(CategorySetAttr, a2, i3 + i4) == Fold(CategorySetAttr, a3, i4) by {
      FoldField(CategorySetAttr, a2, i3, i4, a3);
    }
    var a4 := a3.(iconName := Over(u.iconName, a3.iconName));
    assert Fold(CategorySetAttr, a3, i4 + []) == Fold(CategorySetAttr, a4, []) by {
      FoldField(CategorySetAttr, a3, i4, [], a4);
    }
  }

  // ---- transaction rows -----------------------------------------------------------

  /** One entry of the `update_data` dict of `update_transaction`: a column name and the value sent for it. */
  datatype TransactionAttr =
    | TransactionAccountId(Option<Id>)
    | TransactionProjectId(Option<Id>)
    | TransactionCategoryId(Option<Id>)
    | TransactionKind(Option<string>)
    | TransactionTitle(Option<string>)
    | TransactionAmount(Option<Cents>)
    | TransactionCurrency(Option<string>)
    | TransactionTransactionDate(Option<DateTime>)
    | TransactionNotes(Option<string>)

  /** `setattr` of one entry on a transaction row (a null aimed at a NOT NULL column leaves it as it was; such a row is never committed). */
  function TransactionSetAttr(a: TransactionFields, x: TransactionAttr): TransactionFields {
    match x
    case TransactionAccountId(v) => a.(accountId := Keep(Sent(v), a.accountId))
    case TransactionProjectId(v) => a.(projectId := v)
    case TransactionCategoryId(v) => a.(categoryId := v)
    case TransactionKind(v) => a.(kind := Keep(Sent(v), a.kind))
    case TransactionTitle(v) => a.(title := v)
    case TransactionAmount(v) => a.(amount := Keep(Sent(v), a.amount))
    case TransactionCurrency(v) => a.(currency := Keep(Sent(v), a.currency))
    case TransactionTransactionDate(v) => a.(transactionDate := Keep(Sent(v), a.transactionDate))
    case TransactionNotes(v) => a.(notes := v)
  }

  // A transaction has nine updatable columns, more than one proof can take at once: each
  // column's entry gets a function of its own, and the proof goes three columns at a time.

  function AccountIdEntry(u: TransactionUpdate): seq<TransactionAttr> {
    if u.accountId.Sent? then [TransactionAccountId(u.accountId.value)] else []
  }

  function ProjectIdEntry(u: TransactionUpdate): seq<TransactionAttr> {
    if u.projectId.Sent? then [TransactionProjectId(u.projectId.value)] else []
  }

  function CategoryIdEntry(u: TransactionUpdate): seq<TransactionAttr> {
    if u.categoryId.Sent? then [TransactionCategoryId(u.categoryId.value)] else []
  }

  function KindEntry(u: TransactionUpdate): seq<TransactionAttr> {
    if u.kind.Sent? then [TransactionKind(u.kind.value)] else []
  }

  function TitleEntry(u: TransactionUpdate): seq<TransactionAttr> {
    if u.title.Sent? then [TransactionTitle(u.title.value)] else []
  }

  function AmountEntry(u: TransactionUpdate): seq<TransactionAttr> {
    if u.amount.Sent? then [TransactionAmount(u.amount.value)] else []
  }

  function CurrencyEntry(u: TransactionUpdate): seq<TransactionAttr> {
    if u.currency.Sent? then [TransactionCurrency(u.currency.value)] else []
  }

  function TransactionDateEntry(u: TransactionUpdate): seq<TransactionAttr> {
    if u.transactionDate.Sent? then [TransactionTransactionDate(u.transactionDate.value)] else []
  }

  function NotesEntry(u: TransactionUpdate): seq<TransactionAttr> {
    if u.notes.Sent? then [TransactionNotes(u.notes.value)] else []
  }

  /** `transaction_update.dict(exclude_unset=True).items()` without `tag_ids`, which is popped first: one entry per field that was sent, in schema order. */
  function TransactionItems(u: TransactionUpdate): seq<TransactionAttr> {
    AccountIdEntry(u) + (ProjectIdEntry(u) + (CategoryIdEntry(u) +
    (KindEntry(u) + (TitleEntry(u) + (AmountEntry(u) +
    (CurrencyEntry(u) + (TransactionDateEntry(u) + NotesEntry(u))))))))
  }

  /** The committed row satisfies its NOT NULL constraints: no NOT NULL column was sent an explicit null. */
  predicate TransactionWritable(u: TransactionUpdate) {
    !SentNull(u.accountId) && !SentNull(u.kind) && !SentNull(u.amount) && !SentNull(u.currency) && !SentNull(u.transactionDate)
  }

  /** Reference meaning of a partial update: every column the payload sent takes the sent value, every other column keeps its value. */
  function PatchTransaction(a: TransactionFields, u: TransactionUpdate): TransactionFields {
    a.(
      accountId := Keep(u.accountId, a.accountId),
      projectId := Over(u.projectId, a.projectId),
      categoryId := Over(u.categoryId, a.categoryId),
      kind := Keep(u.kind, a.kind),
      title := Over(u.title, a.title),
      amount := Keep(u.amount, a.amount),
      currency := Keep(u.currency, a.currency),
      transactionDate := Keep(u.transactionDate, a.transactionDate),
      notes := Over(u.notes, a.notes)
    )
  }

  /** The patch restricted to the first three columns, the middle three and the last three. */
  function PatchTransactionIds(a: TransactionFields, u: TransactionUpdate): TransactionFields {
    a.(accountId := Keep(u.accountId, a.accountId), projectId := Over(u.projectId, a.projectId),
       categoryId := Over(u.categoryId, a.categoryId))
  }

  function PatchTransactionHead(a: TransactionFields, u: TransactionUpdate): TransactionFields {
    a.(kind := Keep(u.kind, a.kind), title := Over(u.title, a.title), amount := Keep(u.amount, a.amount))
  }

  function PatchTransactionTail(a: TransactionFields, u: TransactionUpdate): TransactionFields {
    a.(currency := Keep(u.currency, a.currency), transactionDate := Keep(u.transactionDate, a.transactionDate),
       notes := Over(u.notes, a.notes))
  }

  lemma PatchTransactionInThrees(a: TransactionFields, u: TransactionUpdate)
    ensures PatchTransaction(a, u) == PatchTransactionTail(PatchTransactionHead(PatchTransactionIds(a, u), u), u)
  {
  }

  /** The loop over the entries of accountId, projectId and categoryId, followed by any others. */
  lemma TransactionSetAttrsIds(b: TransactionFields, u: TransactionUpdate, rest: seq<TransactionAttr>)
    ensures Fold(TransactionSetAttr, b, AccountIdEntry(u) + (ProjectIdEntry(u) + (CategoryIdEntry(u) + rest)))
         == Fold(TransactionSetAttr, PatchTransactionIds(b, u), rest)
  {
    var b1 := b.(accountId := Keep(u.accountId, b.accountId));
    FoldField(TransactionSetAttr, b, AccountIdEntry(u), ProjectIdEntry(u) + (CategoryIdEntry(u) + rest), b1);
    var b2 := b1.(projectId := Over(u.projectId, b1.projectId));
    FoldField(TransactionSetAttr, b1, ProjectIdEntry(u), CategoryIdEntry(u) + rest, b2);
    var b3 := b2.(categoryId := Over(u.categoryId, b2.categoryId));
    FoldField(TransactionSetAttr, b2, CategoryIdEntry(u), rest, b3);
  }

  /** The loop over the entries of kind, title and amount, followed by any others. */
  lemma TransactionSetAttrsHead(b: TransactionFields, u: TransactionUpdate, rest: seq<TransactionAttr>)
    ensures Fold(TransactionSetAttr, b, KindEntry(u) + (TitleEntry(u) + (AmountEntry(u) + rest)))
         == Fold(TransactionSetAttr, PatchTransactionHead(b, u), rest)
  {
    var b1 := b.(kind := Keep(u.kind, b.kind));
    FoldField(TransactionSetAttr, b, KindEntry(u), TitleEntry(u) + (AmountEntry(u) + rest), b1);
    var b2 := b1.(title := Over(u.title, b1.title));
    FoldField(TransactionSetAttr, b1, TitleEntry(u), AmountEntry(u) + rest, b2);
    var b3 := b2.(amount := Keep(u.amount, b2.amount));
    FoldField(TransactionSetAttr, b2, AmountEntry(u), rest, b3);
  }

  /** The loop over the entries of currency, transactionDate and notes, followed by any others. */
  lemma TransactionSetAttrsTail(b: TransactionFields, u: TransactionUpdate, rest: seq<TransactionAttr>)
    ensures Fold(TransactionSetAttr, b, CurrencyEntry(u) + (TransactionDateEntry(u) + (NotesEntry(u) + rest)))
         == Fold(TransactionSetAttr, PatchTransactionTail(b, u), rest)
  {
    var b1 := b.(currency := Keep(u.currency, b.currency));
    FoldField(TransactionSetAttr, b, CurrencyEntry(u), TransactionDateEntry(u) + (NotesEntry(u) + rest), b1);
    var b2 := b1.(transactionDate := Keep(u.transactionDate, b1.transactionDate));
    FoldField(TransactionSetAttr, b1, TransactionDateEntry(u), NotesEntry(u) + rest, b2);
    var b3 := b2.(notes := Over(u.notes, b2.notes));
    FoldField(TransactionSetAttr, b2, NotesEntry(u), rest, b3);
  }

  /** The setattr loop over `update_data` yields exactly the field-wise patch. */
  lemma TransactionSetAttrs(a: TransactionFields, u: TransactionUpdate)
    ensures Fold(TransactionSetAttr, a, TransactionItems(u)) == PatchTransaction(a, u)
  {
    var tail := CurrencyEntry(u) + (TransactionDateEntry(u) + NotesEntry(u));
    var head := KindEntry(u) + (TitleEntry(u) + (AmountEntry(u) + tail));
    TransactionSetAttrsIds(a, u, head);
    var a1 := PatchTransactionIds(a, u);
    TransactionSetAttrsHead(a1, u, tail);
    var a2 := PatchTransactionHead(a1, u);
    assert tail == CurrencyEntry(u) + (TransactionDateEntry(u) + (NotesEntry(u) + []));
    TransactionSetAttrsTail(a2, u, []);
    PatchTransactionInThrees(a, u);
  }

  // ---- tag rows -------------------------------------------------------------------

  /** One entry of the `update_data` dict of `update_tag`: a column name and the value sent for it. */
  datatype TagAttr =
    | TagName(Option<string>)

  /** `setattr` of one entry on a tag row (a null aimed at a NOT NULL column leaves it as it was; such a row is never committed). */
  function TagSetAttr(a: TagFields, x: TagAttr): TagFields {
    match x
    case TagName(v) => a.(name := Keep(Sent(v), a.name))
  }

  /** `tag_update.dict(exclude_unset=True).items()`: one entry per field that was sent, in schema order. */
  function TagItems(u: TagUpdate): seq<TagAttr> {
    (if u.name.Sent? then [TagName(u.name.value)] else [])
  }

  /** The committed row satisfies its NOT NULL constraints: no NOT NULL column was sent an explicit null. */
  predicate TagWritable(u: TagUpdate) {
    !SentNull(u.name)
  }

  /** Reference meaning of a partial update: every column the payload sent takes the sent value, every other column keeps its value. */
  function PatchTag(a: TagFields, u: TagUpdate): TagFields {
    a.(
      name := Keep(u.name, a.name)
    )
  }

  /** The setattr loop over `update_data` yields exactly the field-wise patch. */
  lemma TagSetAttrs(a: TagFields, u: TagUpdate)
    ensures Fold(TagSetAttr, a, TagItems(u)) == PatchTag(a, u)
  {
    var i1 := if u.name.Sent? then [TagName(u.name.value)] else [];
    assert TagItems(u) == i1;
    assert i1 + [] == i1;
    var a1 := a.(name := Keep(u.name, a.name));
    assert Fold(TagSetAttr, a, i1 + []) == Fold(TagSetAttr, a1, []) by {
      FoldField(TagSetAttr, a, i1, [], a1);
    }
  }

  // ---- budget rows ----------------------------------------------------------------

  /** One entry of the `update_data` dict of `update_budget`: a column name and the value sent for it. */
  datatype BudgetAttr =
    | BudgetCategoryId(Option<Id>)
    | BudgetAmount(Option<Cents>)
    | BudgetPeriod(Option<string>)
    | BudgetStartDate(Option<Date>)

  /** `setattr` of one entry on a budget row (a null aimed at a NOT NULL column leaves it as it was; such a row is never committed). */
  function BudgetSetAttr(a: BudgetFields, x: BudgetAttr): BudgetFields {
    match x
    case BudgetCategoryId(v) => a.(categoryId := v)
    case BudgetAmount(v) => a.(amount := Keep(Sent(v), a.amount))
    case BudgetPeriod(v) => a.(period := Keep(Sent(v), a.period))
    case BudgetStartDate(v) => a.(startDate := Keep(Sent(v), a.startDate))
  }

  /** `budget_update.dict(exclude_unset=True).items()`: one entry per field that was sent, in schema order. */
  function BudgetItems(u: BudgetUpdate): seq<BudgetAttr> {
    (if u.categoryId.Sent? then [BudgetCategoryId(u.categoryId.value)] else []) +
    ((if u.amount.Sent? then [BudgetAmount(u.amount.value)] else []) +
    ((if u.period.Sent? then [BudgetPeriod(u.period.value)] else []) +
    ((if u.startDate.Sent? then [BudgetStartDate(u.startDate.value)] else []))))
  }

  /** The committed row satisfies its NOT NULL constraints: no NOT NULL column was sent an explicit null. */
  predicate BudgetWritable(u: BudgetUpdate) {
    !SentNull(u.amount) && !SentNull(u.period) && !SentNull(u.startDate)
  }

  /** Reference meaning of a partial update: every column the payload sent takes the sent value, every other column keeps its value. */
  function PatchBudget(a: BudgetFields, u: BudgetUpdate): BudgetFields {
    a.(
      categoryId := Over(u.categoryId, a.categoryId),
      amount := Keep(u.amount, a.amount),
      period := Keep(u.period, a.period),
      startDate := Keep(u.startDate, a.startDate)
    )
  }

  /** The setattr loop over `update_data` yields exactly the field-wise patch. */
  lemma BudgetSetAttrs(a: BudgetFields, u: BudgetUpdate)
    ensures Fold(BudgetSetAttr, a, BudgetItems(u)) == PatchBudget(a, u)
  {
    var i1 := if u.categoryId.Sent? then [BudgetCategoryId(u.categoryId.value)] else [];
    var i2 := if u.amount.Sent? then [BudgetAmount(u.amount.value)] else [];
    var i3 := if u.period.Sent? then [BudgetPeriod(u.period.value)] else [];
    var i4 := if u.startDate.Sent? then [BudgetStartDate(u.startDate.value)] else [];
    assert BudgetItems(u) == i1 + (i2 + (i3 + i4));
    assert i4 + [] == i4;
    var a1 := a.(categoryId := Over(u.categoryId, a.categoryId));
    assert Fold(BudgetSetAttr, a, i1 + (i2 + (i3 + i4))) == Fold(BudgetSetAttr, a1, i2 + (i3 + i4)) by {
      FoldField(BudgetSetAttr, a, i1, i2 + (i3 + i4), a1);
    }
    var a2 := a1.(amount := Keep(u.amount, a1.amount));
    assert Fold(BudgetSetAttr, a1, i2 + (i3 + i4)) == Fold(BudgetSetAttr, a2, i3 + i4) by {
      FoldField(BudgetSetAttr, a1, i2, i3 + i4, a2);
    }
    var a3 := a2.(period := Keep(u.period, a2.period));
    assert Fold(BudgetSetAttr, a2, i3 + i4) == Fold(BudgetSetAttr, a3, i4) by {
      FoldField(BudgetSetAttr, a2, i3, i4, a3);
    }
    var a4 := a3.(startDate := Keep(u.startDate, a3.startDate));
    assert Fold(BudgetSetAttr, a3, i4 + []) == Fold(BudgetSetAttr, a4, []) by {
      FoldField(BudgetSetAttr, a3, i4, [], a4);
    }
  }
}
