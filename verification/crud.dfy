/**
 * The record store of backend/crud/crud.py: one table per entity, each row carrying its
 * owner, and the association rows between transactions and tags. Every operation but the
 * user ones is scoped to the caller's user id; categories with no owner are system rows that
 * every user reads and nobody edits.
 */
module Crud {
  import opened Wrappers
  import opened Records
  import opened Partial
  import opened Updates
  import opened Tables

  /** Outcome of an `update_*` call: no matching row (None), a refused commit, or the new row. */
  datatype UpdateResult<R> = NotFound | Rejected | Updated(row: R)

  /** Some user other than `id` already has this username or this email (UNIQUE columns). */
  predicate Clashes(users: map<Id, User>, id: Id, user: User) {
    exists k :: k in users && k != id && (users[k].username == user.username || users[k].email == user.email)
  }

  /** A user has this username. */
  predicate UsernameTaken(users: map<Id, User>, name: string) {
    exists k :: k in users && users[k].username == name
  }

  /** A user has this email. */
  predicate EmailTaken(users: map<Id, User>, email: string) {
    exists k :: k in users && users[k].email == email
  }

  /** No two users share a username or an email. */
  ghost predicate UniqueLogins(users: map<Id, User>) {
    forall a, b :: a in users && b in users && a != b ==>
      users[a].username != users[b].username && users[a].email != users[b].email
  }

  /** The tags `filter(Tag.id.in_(ids), Tag.user_id == uid)` selects. */
  function OwnedTags(tags: Table<TagFields>, uid: Id, ids: seq<Id>): (s: set<Id>)
    ensures forall g :: g in s <==> g in ids && OwnedBy(tags, g, uid)
  {
    set g | g in tags && tags[g].userId == Some(uid) && g in ids
  }

  /** Every transaction has a link set, and links only to existing tags of its own owner. */
  ghost predicate LinksOk(links: map<Id, set<Id>>, tags: Table<TagFields>, txs: Table<TransactionFields>) {
    && links.Keys == txs.Keys
    && forall t, g :: t in links && g in links[t] ==> g in tags && tags[g].userId == txs[t].userId
  }

  /** Storing transaction row `row` under `id` with links to tags of the row's owner keeps the links consistent. */
  lemma Relinked(links: map<Id, set<Id>>, tags: Table<TagFields>, txs: Table<TransactionFields>,
                 id: Id, row: Row<TransactionFields>, linked: set<Id>)
    requires LinksOk(links, tags, txs)
    requires forall g :: g in linked ==> g in tags && tags[g].userId == row.userId
    ensures LinksOk(links[id := linked], tags, txs[id := row])
  {
  }

  class Store {
    var users: map<Id, User>
    var accounts: Table<AccountFields>
    var projects: Table<ProjectFields>
    var categories: Table<CategoryFields>
    var transactions: Table<TransactionFields>
    var tags: Table<TagFields>
    var budgets: Table<BudgetFields>
    /** The `transaction_tags` rows: for each transaction, the ids of its tags. */
    var tagLinks: map<Id, set<Id>>
    /** The next primary key to hand out; every id in use is below it. */
    var nextId: Id

    ghost predicate Valid()
      reads this
    {
      && 0 < nextId
      && (forall k :: k in users ==> users[k].id == k && 0 < k < nextId)
      && UniqueLogins(users)
      && Keyed(accounts) && Owned(accounts) && Below(accounts, nextId)
      && Keyed(projects) && Owned(projects) && Below(projects, nextId)
      && Keyed(categories) && Below(categories, nextId)
      && Keyed(transactions) && Owned(transactions) && Below(transactions, nextId)
      && Keyed(tags) && Owned(tags) && Below(tags, nextId)
      && Keyed(budgets) && Owned(budgets) && Below(budgets, nextId)
      && LinksOk(tagLinks, tags, transactions)
    }

    /** An empty database. */
    constructor ()
      ensures Valid() && nextId == 1
      ensures users == map[] && accounts == map[] && projects == map[] && categories == map[]
      ensures transactions == map[] && tags == map[] && budgets == map[] && tagLinks == map[]
    {
      users, accounts, projects, categories := map[], map[], map[], map[];
      transactions, tags, budgets, tagLinks := map[], map[], map[], map[];
      nextId := 1;
    }

    // ---- users --------------------------------------------------------------

    /** `get_user`: the user with this id. */
    method GetUser(id: Id) returns (r: Option<User>)
      requires Valid()
      ensures r.Some? <==> id in users
      ensures r.Some? ==> r.value == users[id] && r.value.id == id
    {
      r := if id in users then Some(users[id]) else None;
    }

    /** `get_user_by_email`: the user with this email, if any. */
    method GetUserByEmail(email: string) returns (r: Option<User>)
      requires Valid()
      ensures r.Some? <==> EmailTaken(users, email)
      ensures r.Some? ==> r.value.id in users && users[r.value.id] == r.value && r.value.email == email
    {
      if EmailTaken(users, email) {
        var k :| k in users && users[k].email == email;
        r := Some(users[k]);
      } else {
        r := None;
      }
    }

    /** `get_user_by_username`: the user with this username, if any. */
    method GetUserByUsername(name: string) returns (r: Option<User>)
      requires Valid()
      ensures r.Some? <==> UsernameTaken(users, name)
      ensures r.Some? ==> r.value.id in users && users[r.value.id] == r.value && r.value.username == name
    {
      if UsernameTaken(users, name) {
        var k :| k in users && users[k].username == name;
        r := Some(users[k]);
      } else {
        r := None;
      }
    }

    /**
     * `create_user`: stores a new user with the hash of the password. The username and the
     * email must be free: the UNIQUE columns refuse the row otherwise.
     */
    method CreateUser(u: UserCreate, hash: string -> string) returns (user: User)
      requires Valid() && !UsernameTaken(users, u.username) && !EmailTaken(users, u.email)
      modifies this`users, this`nextId
      ensures Valid()
      ensures user.id !in old(users)
      ensures user == User(user.id, u.username, u.email, hash(u.password), u.defaultCurrency)
      ensures users == old(users)[user.id := user]
    {
      user := User(nextId, u.username, u.email, hash(u.password), u.defaultCurrency);
      users := users[nextId := user];
      nextId := nextId + 1;
    }

    /**
     * `update_user`: writes the fields the payload sent. The commit is refused when it would put
     * a null into a NOT NULL column or give the user another user's username or email.
     */
    method UpdateUser(id: Id, u: UserUpdate) returns (r: UpdateResult<User>)
      requires Valid()
      modifies this`users
      ensures Valid()
      ensures id !in old(users) ==> r == NotFound && users == old(users)
      ensures id in old(users) && (!UserWritable(u) || Clashes(old(users), id, PatchUser(old(users)[id], u))) ==>
        r == Rejected && users == old(users)
      ensures id in old(users) && UserWritable(u) && !Clashes(old(users), id, PatchUser(old(users)[id], u)) ==>
        r == Updated(PatchUser(old(users)[id], u)) && users == old(users)[id := r.row]
    {
      var found := GetUser(id);
      if found.None? {
        return NotFound;
      }
      var user := SetAttrs(UserSetAttr, found.value, UserItems(u));
      UserSetAttrs(found.value, u);
      if !UserWritable(u) || Clashes(users, id, user) {
        return Rejected;
      }
      users := users[id := user];
      return Updated(user);
    }

    // ---- accounts -----------------------------------------------------------

    /** `get_accounts`: a page of the caller's accounts. */
    method GetAccounts(uid: Id, skip: int, limit: int) returns (r: seq<Row<AccountFields>>)
      requires Valid()
      ensures IsPage(accounts, OwnedIds(accounts, uid), skip, limit, r)
      ensures forall i :: 0 <= i < |r| ==> r[i].userId == Some(uid)
    {
      r := Page(accounts, OwnedIds(accounts, uid), skip, limit);
    }

    /** `get_account`: the row with this id, only when the caller owns it. */
    method GetAccount(id: Id, uid: Id) returns (r: Option<Row<AccountFields>>)
      requires Valid()
      ensures r.Some? <==> OwnedBy(accounts, id, uid)
      ensures r.Some? ==> r.value == accounts[id] && r.value.id == id && r.value.userId == Some(uid)
    {
      r := Find(accounts, id, uid);
    }

    /** `create_account`: stores the payload as a new row owned by the caller. */
    method CreateAccount(payload: AccountFields, uid: Id) returns (r: Row<AccountFields>)
      requires Valid()
      modifies this`accounts, this`nextId
      ensures Valid()
      ensures r.id !in old(accounts) && r.userId == Some(uid) && r.fields == payload
      ensures accounts == old(accounts)[r.id := r]
    {
      r := Row(nextId, Some(uid), payload);
      accounts := accounts[nextId := r];
      nextId := nextId + 1;
    }

    /**
     * `update_account`: when the caller owns row `id`, writes the fields the payload sent and
     * commits; a commit that would put a null into a NOT NULL column is refused.
     */
    method UpdateAccount(id: Id, uid: Id, u: AccountUpdate) returns (r: UpdateResult<Row<AccountFields>>)
      requires Valid()
      modifies this`accounts
      ensures Valid()
      ensures !OwnedBy(old(accounts), id, uid) ==> r == NotFound && accounts == old(accounts)
      ensures OwnedBy(old(accounts), id, uid) && !AccountWritable(u) ==> r == Rejected && accounts == old(accounts)
      ensures OwnedBy(old(accounts), id, uid) && AccountWritable(u) ==>
        r == Updated(old(accounts)[id].(fields := PatchAccount(old(accounts)[id].fields, u))) && accounts == old(accounts)[id := r.row]
    {
      var found := GetAccount(id, uid);
      if found.None? {
        return NotFound;
      }
      var fields := SetAttrs(AccountSetAttr, found.value.fields, AccountItems(u));
      if !AccountWritable(u) {
        return Rejected;
      }
      AccountSetAttrs(found.value.fields, u);
      var row := found.value.(fields := fields);
      accounts := accounts[id := row];
      return Updated(row);
    }

    /** `delete_account`: removes row `id` when the caller owns it and says whether it did. */
    method DeleteAccount(id: Id, uid: Id) returns (found: bool)
      requires Valid()
      modifies this`accounts
      ensures Valid()
      ensures found <==> OwnedBy(old(accounts), id, uid)
      ensures accounts == if found then old(accounts) - {id} else old(accounts)
    {
      found := OwnedBy(accounts, id, uid);
      if found {
        accounts := accounts - {id};
      }
    }

    // ---- projects -----------------------------------------------------------

    /** `get_projects`: a page of the caller's projects. */
    method GetProjects(uid: Id, skip: int, limit: int) returns (r: seq<Row<ProjectFields>>)
      requires Valid()
      ensures IsPage(projects, OwnedIds(projects, uid), skip, limit, r)
      ensures forall i :: 0 <= i < |r| ==> r[i].userId == Some(uid)
    {
      r := Page(projects, OwnedIds(projects, uid), skip, limit);
    }

    /** `get_project`: the row with this id, only when the caller owns it. */
    method GetProject(id: Id, uid: Id) returns (r: Option<Row<ProjectFields>>)
      requires Valid()
      ensures r.Some? <==> OwnedBy(projects, id, uid)
      ensures r.Some? ==> r.value == projects[id] && r.value.id == id && r.value.userId == Some(uid)
    {
      r := Find(projects, id, uid);
    }

    /** `create_project`: stores the payload as a new row owned by the caller. */
    method CreateProject(payload: ProjectFields, uid: Id) returns (r: Row<ProjectFields>)
      requires Valid()
      modifies this`projects, this`nextId
      ensures Valid()
      ensures r.id !in old(projects) && r.userId == Some(uid) && r.fields == payload
      ensures projects == old(projects)[r.id := r]
    {
      r := Row(nextId, Some(uid), payload);
      projects := projects[nextId := r];
      nextId := nextId + 1;
    }

    /**
     * `update_project`: when the caller owns row `id`, writes the fields the payload sent and
     * commits; a commit that would put a null into a NOT NULL column is refused.
     */
    method UpdateProject(id: Id, uid: Id, u: ProjectUpdate) returns (r: UpdateResult<Row<ProjectFields>>)
      requires Valid()
      modifies this`projects
      ensures Valid()
      ensures !OwnedBy(old(projects), id, uid) ==> r == NotFound && projects == old(projects)
      ensures OwnedBy(old(projects), id, uid) && !ProjectWritable(u) ==> r == Rejected && projects == old(projects)
      ensures OwnedBy(old(projects), id, uid) && ProjectWritable(u) ==>
        r == Updated(old(projects)[id].(fields := PatchProject(old(projects)[id].fields, u))) && projects == old(projects)[id := r.row]
    {
      var found := GetProject(id, uid);
      if found.None? {
        return NotFound;
      }
      var fields := SetAttrs(ProjectSetAttr, found.value.fields, ProjectItems(u));
      if !ProjectWritable(u) {
        return Rejected;
      }
      ProjectSetAttrs(found.value.fields, u);
      var row := found.value.(fields := fields);
      projects := projects[id := row];
      return Updated(row);
    }

    /** `delete_project`: removes row `id` when the caller owns it and says whether it did. */
    method DeleteProject(id: Id, uid: Id) returns (found: bool)
      requires Valid()
      modifies this`projects
      ensures Valid()
      ensures found <==> OwnedBy(old(projects), id, uid)
      ensures projects == if found then old(projects) - {id} else old(projects)
    {
      found := OwnedBy(projects, id, uid);
      if found {
        projects := projects - {id};
      }
    }

    // ---- categories ---------------------------------------------------------

    /** `get_categories`: a page of the caller's and the system categories. */
    method GetCategories(uid: Id, skip: int, limit: int) returns (r: seq<Row<CategoryFields>>)
      requires Valid()
      ensures IsPage(categories, VisibleIds(categories, uid), skip, limit, r)
      ensures forall i :: 0 <= i < |r| ==> r[i].userId == Some(uid) || r[i].userId.None?
    {
      r := Page(categories, VisibleIds(categories, uid), skip, limit);
    }

    /** `get_category`: the row with this id when the caller owns it or it is a system category. */
    method GetCategory(id: Id, uid: Id) returns (r: Option<Row<CategoryFields>>)
      requires Valid()
      ensures r.Some? <==> VisibleTo(categories, id, uid)
      ensures r.Some? ==> r.value == categories[id] && r.value.id == id
      ensures r.Some? ==> r.value.userId == Some(uid) || r.value.userId.None?
    {
      r := FindVisible(categories, id, uid);
    }

    /** `db.add(Category(...))` and commit: stores a category row with the given owner under a fresh id. */
    method AddCategory(owner: Option<Id>, fields: CategoryFields) returns (r: Row<CategoryFields>)
      requires Valid()
      modifies this`categories, this`nextId
      ensures Valid()
      ensures r.id == old(nextId) && r.id !in old(categories) && r.userId == owner && r.fields == fields
      ensures categories == old(categories)[r.id := r] && nextId == old(nextId) + 1
    {
      r := Row(nextId, owner, fields);
      categories := categories[nextId := r];
      nextId := nextId + 1;
    }

    /** `create_category`: stores the payload as a new category owned by the caller. */
    method CreateCategory(payload: CategoryFields, uid: Id) returns (r: Row<CategoryFields>)
      requires Valid()
      modifies this`categories, this`nextId
      ensures Valid()
      ensures r.id !in old(categories) && r.userId == Some(uid) && r.fields == payload
      ensures categories == old(categories)[r.id := r]
    {
      r := AddCategory(Some(uid), payload);
    }

    /**
     * `update_category`: when the caller owns row `id`, writes the fields the payload sent and
     * commits; a commit that would put a null into a NOT NULL column is refused.
     */
    method UpdateCategory(id: Id, uid: Id, u: CategoryUpdate) returns (r: UpdateResult<Row<CategoryFields>>)
      requires Valid()
      modifies this`categories
      ensures Valid()
      ensures !OwnedBy(old(categories), id, uid) ==> r == NotFound && categories == old(categories)
      ensures OwnedBy(old(categories), id, uid) && !CategoryWritable(u) ==> r == Rejected && categories == old(categories)
      ensures OwnedBy(old(categories), id, uid) && CategoryWritable(u) ==>
        r == Updated(old(categories)[id].(fields := PatchCategory(old(categories)[id].fields, u))) && categories == old(categories)[id := r.row]
      ensures forall k :: k in old(categories) && old(categories)[k].userId.None? ==>
        k in categories && categories[k] == old(categories)[k]
    {
      var found := Find(categories, id, uid);
      if found.None? {
        return NotFound;
      }
      var fields := SetAttrs(CategorySetAttr, found.value.fields, CategoryItems(u));
      if !CategoryWritable(u) {
        return Rejected;
      }
      CategorySetAttrs(found.value.fields, u);
      var row := found.value.(fields := fields);
      categories := categories[id := row];
      return Updated(row);
    }

    /** `delete_category`: removes row `id` when the caller owns it and says whether it did. */
    method DeleteCategory(id: Id, uid: Id) returns (found: bool)
      requires Valid()
      modifies this`categories
      ensures Valid()
      ensures found <==> OwnedBy(old(categories), id, uid)
      ensures categories == if found then old(categories) - {id} else old(categories)
      ensures forall k :: k in old(categories) && old(categories)[k].userId.None? ==>
        k in categories && categories[k] == old(categories)[k]
    {
      found := OwnedBy(categories, id, uid);
      if found {
        categories := categories - {id};
      }
    }

    // ---- transactions -------------------------------------------------------

    /** `get_transactions`: a page of the caller's transactions. */
    method GetTransactions(uid: Id, skip: int, limit: int) returns (r: seq<Row<TransactionFields>>)
      requires Valid()
      ensures IsPage(transactions, OwnedIds(transactions, uid), skip, limit, r)
      ensures forall i :: 0 <= i < |r| ==> r[i].userId == Some(uid)
    {
      r := Page(transactions, OwnedIds(transactions, uid), skip, limit);
    }

    /** `get_transaction`: the row with this id, only when the caller owns it. */
    method GetTransaction(id: Id, uid: Id) returns (r: Option<Row<TransactionFields>>)
      requires Valid()
      ensures r.Some? <==> OwnedBy(transactions, id, uid)
      ensures r.Some? ==> r.value == transactions[id] && r.value.id == id && r.value.userId == Some(uid)
    {
      r := Find(transactions, id, uid);
    }

    /**
     * `create_transaction`: stores the columns as a new row owned by the caller, then links the
     * caller's tags among `tag_ids`; ids of missing tags and of other users' tags are dropped.
     */
    method CreateTransaction(payload: TransactionCreate, uid: Id) returns (r: Row<TransactionFields>)
      requires Valid()
      modifies this`transactions, this`tagLinks, this`nextId
      ensures Valid()
      ensures r.id !in old(transactions) && r.userId == Some(uid) && r.fields == payload.fields
      ensures transactions == old(transactions)[r.id := r]
      ensures r.id in tagLinks && tagLinks == old(tagLinks)[r.id := tagLinks[r.id]]
      ensures forall g :: g in tagLinks[r.id] <==>
        payload.tagIds.Some? && g in payload.tagIds.value && OwnedBy(tags, g, uid)
    {
      var ids := if payload.tagIds.Some? then payload.tagIds.value else [];
      var links := {};
      if ids != [] {
        links := links + OwnedTags(tags, uid, ids);
      }
      r := Row(nextId, Some(uid), payload.fields);
      Relinked(tagLinks, tags, transactions, r.id, r, links);
      transactions := transactions[r.id := r];
      tagLinks := tagLinks[r.id := links];
      nextId := nextId + 1;
    }

    /**
     * `update_transaction`: like the other updates for the columns; `tag_ids`, when sent and not
     * null, replaces the transaction's tags by the caller's tags among them (an empty list
     * clears them). Nothing is written when the commit is refused.
     */
    method UpdateTransaction(id: Id, uid: Id, u: TransactionUpdate) returns (r: UpdateResult<Row<TransactionFields>>)
      requires Valid()
      modifies this`transactions, this`tagLinks
      ensures Valid()
      ensures !OwnedBy(old(transactions), id, uid) ==>
        r == NotFound && transactions == old(transactions) && tagLinks == old(tagLinks)
      ensures OwnedBy(old(transactions), id, uid) && !TransactionWritable(u) ==>
        r == Rejected && transactions == old(transactions) && tagLinks == old(tagLinks)
      ensures OwnedBy(old(transactions), id, uid) && TransactionWritable(u) ==>
        r == Updated(old(transactions)[id].(fields := PatchTransaction(old(transactions)[id].fields, u)))
        && transactions == old(transactions)[id := r.row]
      ensures r.Updated? && !(u.tagIds.Sent? && u.tagIds.value.Some?) ==> tagLinks == old(tagLinks)
      ensures r.Updated? && u.tagIds.Sent? && u.tagIds.value.Some? ==>
        id in tagLinks && tagLinks == old(tagLinks)[id := tagLinks[id]]
        && forall g :: g in tagLinks[id] <==> g in u.tagIds.value.value && OwnedBy(tags, g, uid)
    {
      var found := GetTransaction(id, uid);
      if found.None? {
        return NotFound;
      }
      var fields := SetAttrs(TransactionSetAttr, found.value.fields, TransactionItems(u));
      var links := tagLinks[id];
      if u.tagIds.Sent? && u.tagIds.value.Some? {
        var ids := u.tagIds.value.value;
        links := {};
        if ids != [] {
          links := links + OwnedTags(tags, uid, ids);
        }
      }
      if !TransactionWritable(u) {
        return Rejected;
      }
      TransactionSetAttrs(found.value.fields, u);
      var row := found.value.(fields := fields);
      Relinked(tagLinks, tags, transactions, id, row, links);
      transactions := transactions[id := row];
      tagLinks := tagLinks[id := links];
      return Updated(row);
    }

    /** `delete_transaction`: removes an owned transaction together with its tag links. */
    method DeleteTransaction(id: Id, uid: Id) returns (found: bool)
      requires Valid()
      modifies this`transactions, this`tagLinks
      ensures Valid()
      ensures found <==> OwnedBy(old(transactions), id, uid)
      ensures transactions == if found then old(transactions) - {id} else old(transactions)
      ensures tagLinks == if found then old(tagLinks) - {id} else old(tagLinks)
    {
      found := OwnedBy(transactions, id, uid);
      if found {
        transactions := transactions - {id};
        tagLinks := tagLinks - {id};
      }
    }

    // ---- tags ---------------------------------------------------------------

    /** `get_tags`: a page of the caller's tags. */
    method GetTags(uid: Id, skip: int, limit: int) returns (r: seq<Row<TagFields>>)
      requires Valid()
      ensures IsPage(tags, OwnedIds(tags, uid), skip, limit, r)
      ensures forall i :: 0 <= i < |r| ==> r[i].userId == Some(uid)
    {
      r := Page(tags, OwnedIds(tags, uid), skip, limit);
    }

    /** `get_tag`: the row with this id, only when the caller owns it. */
    method GetTag(id: Id, uid: Id) returns (r: Option<Row<TagFields>>)
      requires Valid()
      ensures r.Some? <==> OwnedBy(tags, id, uid)
      ensures r.Some? ==> r.value == tags[id] && r.value.id == id && r.value.userId == Some(uid)
    {
      r := Find(tags, id, uid);
    }

    /** `create_tag`: stores the payload as a new row owned by the caller. */
    method CreateTag(payload: TagFields, uid: Id) returns (r: Row<TagFields>)
      requires Valid()
      modifies this`tags, this`nextId
      ensures Valid()
      ensures r.id !in old(tags) && r.userId == Some(uid) && r.fields == payload
      ensures tags == old(tags)[r.id := r]
    {
      r := Row(nextId, Some(uid), payload);
      tags := tags[nextId := r];
      nextId := nextId + 1;
    }

    /**
     * `update_tag`: when the caller owns row `id`, writes the fields the payload sent and
     * commits; a commit that would put a null into a NOT NULL column is refused.
     */
    method UpdateTag(id: Id, uid: Id, u: TagUpdate) returns (r: UpdateResult<Row<TagFields>>)
      requires Valid()
      modifies this`tags
      ensures Valid()
      ensures !OwnedBy(old(tags), id, uid) ==> r == NotFound && tags == old(tags)
      ensures OwnedBy(old(tags), id, uid) && !TagWritable(u) ==> r == Rejected && tags == old(tags)
      ensures OwnedBy(old(tags), id, uid) && TagWritable(u) ==>
        r == Updated(old(tags)[id].(fields := PatchTag(old(tags)[id].fields, u))) && tags == old(tags)[id := r.row]
    {
      var found := GetTag(id, uid);
      if found.None? {
        return NotFound;
      }
      var fields := SetAttrs(TagSetAttr, found.value.fields, TagItems(u));
      if !TagWritable(u) {
        return Rejected;
      }
      TagSetAttrs(found.value.fields, u);
      var row := found.value.(fields := fields);
      tags := tags[id := row];
      return Updated(row);
    }

    /** `delete_tag`: removes an owned tag and unlinks it from every transaction. */
    method DeleteTag(id: Id, uid: Id) returns (found: bool)
      requires Valid()
      modifies this`tags, this`tagLinks
      ensures Valid()
      ensures found <==> OwnedBy(old(tags), id, uid)
      ensures tags == if found then old(tags) - {id} else old(tags)
      ensures tagLinks.Keys == old(tagLinks).Keys
      ensures forall t :: t in tagLinks ==> tagLinks[t] == if found then old(tagLinks)[t] - {id} else old(tagLinks)[t]
    {
      found := OwnedBy(tags, id, uid);
      if found {
        tags := tags - {id};
        tagLinks := map t | t in tagLinks :: tagLinks[t] - {id};
      }
    }

    // ---- budgets ------------------------------------------------------------

    /** `get_budgets`: a page of the caller's budgets. */
    method GetBudgets(uid: Id, skip: int, limit: int) returns (r: seq<Row<BudgetFields>>)
      requires Valid()
      ensures IsPage(budgets, OwnedIds(budgets, uid), skip, limit, r)
      ensures forall i :: 0 <= i < |r| ==> r[i].userId == Some(uid)
    {
      r := Page(budgets, OwnedIds(budgets, uid), skip, limit);
    }

    /** `get_budget`: the row with this id, only when the caller owns it. */
    method GetBudget(id: Id, uid: Id) returns (r: Option<Row<BudgetFields>>)
      requires Valid()
      ensures r.Some? <==> OwnedBy(budgets, id, uid)
      ensures r.Some? ==> r.value == budgets[id] && r.value.id == id && r.value.userId == Some(uid)
    {
      r := Find(budgets, id, uid);
    }

    /** `create_budget`: stores the payload as a new row owned by the caller. */
    method CreateBudget(payload: BudgetFields, uid: Id) returns (r: Row<BudgetFields>)
      requires Valid()
      modifies this`budgets, this`nextId
      ensures Valid()
      ensures r.id !in old(budgets) && r.userId == Some(uid) && r.fields == payload
      ensures budgets == old(budgets)[r.id := r]
    {
      r := Row(nextId, Some(uid), payload);
      budgets := budgets[nextId := r];
      nextId := nextId + 1;
    }

    /**
     * `update_budget`: when the caller owns row `id`, writes the fields the payload sent and
     * commits; a commit that would put a null into a NOT NULL column is refused.
     */
    method UpdateBudget(id: Id, uid: Id, u: BudgetUpdate) returns (r: UpdateResult<Row<BudgetFields>>)
      requires Valid()
      modifies this`budgets
      ensures Valid()
      ensures !OwnedBy(old(budgets), id, uid) ==> r == NotFound && budgets == old(budgets)
      ensures OwnedBy(old(budgets), id, uid) && !BudgetWritable(u) ==> r == Rejected && budgets == old(budgets)
      ensures OwnedBy(old(budgets), id, uid) && BudgetWritable(u) ==>
        r == Updated(old(budgets)[id].(fields := PatchBudget(old(budgets)[id].fields, u))) && budgets == old(budgets)[id := r.row]
    {
      var found := GetBudget(id, uid);
      if found.None? {
        return NotFound;
      }
      var fields := SetAttrs(BudgetSetAttr, found.value.fields, BudgetItems(u));
      if !BudgetWritable(u) {
        return Rejected;
      }
      BudgetSetAttrs(found.value.fields, u);
      var row := found.value.(fields := fields);
      budgets := budgets[id := row];
      return Updated(row);
    }

    /** `delete_budget`: removes row `id` when the caller owns it and says whether it did. */
    method DeleteBudget(id: Id, uid: Id) returns (found: bool)
      requires Valid()
      modifies this`budgets
      ensures Valid()
      ensures found <==> OwnedBy(old(budgets), id, uid)
      ensures budgets == if found then old(budgets) - {id} else old(budgets)
    {
      found := OwnedBy(budgets, id, uid);
      if found {
        budgets := budgets - {id};
      }
    }
  }
}
