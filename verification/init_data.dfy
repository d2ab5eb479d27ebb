/**
 * Seeding of the system categories (backend/database/init_data.py): when no category without
 * an owner exists yet, fourteen are inserted, the nine expense categories first and the five
 * income categories after them; otherwise nothing happens.
 */
module InitData {
  import opened Wrappers
  import opened Records
  import opened Tables
  import opened Crud

  /** One default category: its name, its type and its icon. */
  datatype Seed = Seed(name: string, kind: string, icon: string)

  const Expense: string := "expense"
  const Income: string := "income"

  function ExpenseCategories(): seq<Seed> {
    [ Seed("餐饮", Expense, "restaurant"),
      Seed("交通", Expense, "directions_car"),
      Seed("购物", Expense, "shopping_cart"),
      Seed("娱乐", Expense, "movie"),
      Seed("医疗", Expense, "local_hospital"),
      Seed("教育", Expense, "school"),
      Seed("住房", Expense, "home"),
      Seed("通讯", Expense, "phone"),
      Seed("其他支出", Expense, "more_horiz") ]
  }

  function IncomeCategories(): seq<Seed> {
    [ Seed("工资", Income, "work"),
      Seed("奖金", Income, "card_giftcard"),
      Seed("投资收益", Income, "trending_up"),
      Seed("兼职", Income, "business_center"),
      Seed("其他收入", Income, "more_horiz") ]
  }

  /** All default categories in insertion order. */
  function DefaultCategories(): seq<Seed> {
    ExpenseCategories() + IncomeCategories()
  }

  /** The columns of a seeded category: no parent, the seed's name, type and icon. */
  function SeedFields(s: Seed): CategoryFields {
    CategoryFields(None, s.name, s.kind, Some(s.icon))
  }

  /** The guard query `filter(Category.user_id.is_(None)).first()` finds a row. */
  predicate HasSystemCategory(cats: Table<CategoryFields>) {
    exists k :: k in cats && cats[k].userId.None?
  }

  /** The rows inserted for `seeds`, owned by nobody, with consecutive ids from `next`. */
  function SeedRows(next: Id, seeds: seq<Seed>): (rows: Table<CategoryFields>)
    ensures forall k :: k in rows <==> next <= k < next + |seeds|
    ensures forall i :: 0 <= i < |seeds| ==> rows[next + i] == Row(next + i, None, SeedFields(seeds[i]))
    decreases |seeds|
  {
    if seeds == [] then map[]
    else
      var last := |seeds| - 1;
      SeedRows(next, seeds[..last])[next + last := Row(next + last, None, SeedFields(seeds[last]))]
  }

  /** Inserting one more seed adds one row to the inserted ones. */
  lemma SeedRowsGrow(cats: Table<CategoryFields>, next: Id, seeds: seq<Seed>, i: nat)
    requires i < |seeds|
    ensures cats + SeedRows(next, seeds[..i + 1])
         == (cats + SeedRows(next, seeds[..i]))[next + i := Row(next + i, None, SeedFields(seeds[i]))]
  {
    assert seeds[..i + 1][..i] == seeds[..i];
  }

  /** The categories table and the next free id after seeding. */
  function Seeded(cats: Table<CategoryFields>, next: Id): (s: (Table<CategoryFields>, Id))
    ensures HasSystemCategory(cats) ==> s == (cats, next)
    ensures HasSystemCategory(s.0)
    ensures cats.Keys <= s.0.Keys && next <= s.1
  {
    if HasSystemCategory(cats) then (cats, next)
    else
      var rows := SeedRows(next, DefaultCategories());
      assert rows[next + 0] == Row(next, None, SeedFields(DefaultCategories()[0]));
      (cats + rows, next + |DefaultCategories()|)
  }

  /** Fourteen defaults: nine of type expense, then five of type income. */
  lemma DefaultCategoriesShape()
    ensures |DefaultCategories()| == 14
    ensures forall i :: 0 <= i < 9 ==> DefaultCategories()[i].kind == Expense
    ensures forall i :: 9 <= i < 14 ==> DefaultCategories()[i].kind == Income
  {
  }

  /**
   * Seeding an unseeded table adds exactly the fourteen defaults, in order, under fresh ids,
   * each with no owner, and leaves every existing row as it was.
   */
  lemma SeedingInserts(cats: Table<CategoryFields>, next: Id)
    requires !HasSystemCategory(cats) && Below(cats, next)
    ensures Seeded(cats, next).1 == next + 14
    ensures forall k :: k in Seeded(cats, next).0 <==> k in cats || next <= k < next + 14
    ensures forall k :: k in cats ==> Seeded(cats, next).0[k] == cats[k]
    ensures forall i :: 0 <= i < 14 ==>
      Seeded(cats, next).0[next + i] == Row(next + i, None, SeedFields(DefaultCategories()[i]))
  {
    DefaultCategoriesShape();
  }

  /** Seeding twice leaves the same table as seeding once. */
  lemma SeedingIdempotent(cats: Table<CategoryFields>, next: Id)
    ensures Seeded(Seeded(cats, next).0, Seeded(cats, next).1) == Seeded(cats, next)
  {
  }

  /** The `for cat_data in all_categories: db.add(Category(user_id=None, **cat_data))` loop. */
  method AddSystemCategories(db: Store, seeds: seq<Seed>)
    requires db.Valid()
    modifies db`categories, db`nextId
    ensures db.Valid()
    ensures db.categories == old(db.categories) + SeedRows(old(db.nextId), seeds)
    ensures db.nextId == old(db.nextId) + |seeds|
  {
    ghost var cats, next := db.categories, db.nextId;
    for i := 0 to |seeds|
      invariant db.nextId == next + i
      invariant db.categories == cats + SeedRows(next, seeds[..i])
      invariant db.Valid()
    {
      ghost var before := db.categories;
      var row := db.AddCategory(None, SeedFields(seeds[i]));
      assert row == Row(next + i, None, SeedFields(seeds[i]));
      assert db.categories == before[next + i := row];
      SeedRowsGrow(cats, next, seeds, i);
    }
    assert seeds[..|seeds|] == seeds;
  }

  /** `init_default_categories`: the guarded insert of the defaults, committed together. */
  method InitDefaultCategories(db: Store)
    requires db.Valid()
    modifies db`categories, db`nextId
    ensures db.Valid()
    ensures (db.categories, db.nextId) == Seeded(old(db.categories), old(db.nextId))
  {
    if HasSystemCategory(db.categories) {
      return;
    }
    AddSystemCategories(db, DefaultCategories());
  }
}
