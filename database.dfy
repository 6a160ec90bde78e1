/**
 * The tracker's SQLite database (`create_db`, app.py:162-177 and
 * app1.py:8-23) as an object holding its two tables in rowid order and the
 * AUTOINCREMENT counters SQLite keeps for them in `sqlite_sequence`. Each
 * SQL statement the front-ends issue is one method or function here.
 */
module Database {
  import opened Wrappers

  const Expense: string := "expense"
  const Income: string := "income"

  /** `CHECK(type IN ('expense', 'income'))`, on both tables. */
  predicate IsKind(k: string)
  {
    k == Expense || k == Income
  }

  /** A row of `categories (id, name, type)`. */
  datatype Category = Category(id: int, name: string, kind: string)

  /** A row of `transactions (id, date, amount, category_id, type, description)`. */
  datatype Transaction = Transaction(id: int, date: string, amount: real, categoryId: int, kind: string, description: string)

  /** An engine failure; the only one modelled is a violated CHECK constraint. */
  datatype StorageError = CheckFailed

  /** Rows as a table of this schema keeps them: ids positive, increasing in rowid order, issued by the counter. */
  predicate CategoriesWellFormed(cats: seq<Category>, last: int)
  {
    && (forall i :: 0 <= i < |cats| ==> 1 <= cats[i].id <= last && IsKind(cats[i].kind))
    && (forall i, j :: 0 <= i < j < |cats| ==> cats[i].id < cats[j].id)
  }

  predicate TransactionsWellFormed(txs: seq<Transaction>, last: int)
  {
    && (forall i :: 0 <= i < |txs| ==> 1 <= txs[i].id <= last && IsKind(txs[i].kind))
    && (forall i, j :: 0 <= i < j < |txs| ==> txs[i].id < txs[j].id)
  }

  /**
   * The application-level link the schema leaves unenforced: every
   * transaction's `category_id` names an existing category of the
   * transaction's own type.
   */
  predicate ReferencesResolve(cats: seq<Category>, txs: seq<Transaction>)
  {
    forall t | t in txs :: exists c | c in cats :: c.id == t.categoryId && c.kind == t.kind
  }

  predicate Matches(c: Category, name: string, kind: string)
  {
    c.name == name && c.kind == kind
  }

  /**
   * `SELECT id FROM categories WHERE name = ? AND type = ?` followed by
   * `fetchone()`: the id of the first matching row, if any.
   */
  function FindCategory(cats: seq<Category>, name: string, kind: string): (r: Option<int>)
    ensures r.None? <==> forall i :: 0 <= i < |cats| ==> !Matches(cats[i], name, kind)
    ensures r.Some? ==> exists i :: 0 <= i < |cats| && cats[i] == Category(r.value, name, kind)
                                    && forall j :: 0 <= j < i ==> !Matches(cats[j], name, kind)
  {
    if cats == [] then None
    else if Matches(cats[0], name, kind) then Some(cats[0].id)
    else
      var r := FindCategory(cats[1..], name, kind);
      if r.Some? then
        var i :| 0 <= i < |cats[1..]| && cats[1..][i] == Category(r.value, name, kind)
                 && forall j :: 0 <= j < i ==> !Matches(cats[1..][j], name, kind);
        assert cats[i + 1] == Category(r.value, name, kind);
        r
      else r
  }

  /** A row appended after the table changes the lookup only when nothing matched before. */
  lemma {:induction false} FindCategoryAppend(cats: seq<Category>, c: Category, name: string, kind: string)
    ensures FindCategory(cats + [c], name, kind)
            == if FindCategory(cats, name, kind).Some? then FindCategory(cats, name, kind)
               else if Matches(c, name, kind) then Some(c.id) else None
  {
    if cats != [] {
      assert (cats + [c])[1..] == cats[1..] + [c];
      FindCategoryAppend(cats[1..], c, name, kind);
    }
  }

  /**
   * No two category rows share a `(name, type)` pair. The schema does not
   * enforce this; every path that writes a category looks the pair up
   * first, so the tables the front-ends produce keep it.
   */
  predicate Deduplicated(cats: seq<Category>)
  {
    forall i, j :: 0 <= i < j < |cats| ==> !Matches(cats[j], cats[i].name, cats[i].kind)
  }

  /** Appending a pair that the lookup does not find keeps the pairs distinct. */
  lemma DeduplicatedAppend(cats: seq<Category>, c: Category)
    requires Deduplicated(cats) && FindCategory(cats, c.name, c.kind).None?
    ensures Deduplicated(cats + [c])
  {
    var all := cats + [c];
    forall i, j | 0 <= i < j < |all| ensures !Matches(all[j], all[i].name, all[i].kind) {
      if j == |cats| {
        assert !Matches(cats[i], c.name, c.kind);
      } else {
        assert all[i] == cats[i] && all[j] == cats[j];
      }
    }
  }

  /** In deduplicated rows the lookup's answer is the only row with that pair. */
  lemma DeduplicatedLookupIsOnly(cats: seq<Category>, name: string, kind: string, k: int)
    requires Deduplicated(cats) && FindCategory(cats, name, kind).Some?
    requires 0 <= k < |cats| && Matches(cats[k], name, kind)
    ensures cats[k].id == FindCategory(cats, name, kind).value
  {
    var i :| 0 <= i < |cats| && cats[i] == Category(FindCategory(cats, name, kind).value, name, kind)
             && forall j :: 0 <= j < i ==> !Matches(cats[j], name, kind);
    if i < k {
      assert !Matches(cats[k], cats[i].name, cats[i].kind);
    }
  }

  /**
   * With unique ids, one name filed under both types resolves to two
   * different category ids.
   */
  lemma DistinctKindsDistinctIds(cats: seq<Category>, last: int, name: string, k1: string, k2: string)
    requires CategoriesWellFormed(cats, last) && k1 != k2
    requires FindCategory(cats, name, k1).Some? && FindCategory(cats, name, k2).Some?
    ensures FindCategory(cats, name, k1).value != FindCategory(cats, name, k2).value
  {
    var a, b := FindCategory(cats, name, k1).value, FindCategory(cats, name, k2).value;
    var i :| 0 <= i < |cats| && cats[i] == Category(a, name, k1);
    var j :| 0 <= j < |cats| && cats[j] == Category(b, name, k2);
    assert i != j;
  }

  /** `[row[0] for row in cursor.execute("SELECT name FROM categories").fetchall()]`. */
  function CategoryNames(cats: seq<Category>): (names: seq<string>)
    ensures |names| == |cats|
    ensures forall i :: 0 <= i < |cats| ==> names[i] == cats[i].name
  {
    if cats == [] then [] else [cats[0].name] + CategoryNames(cats[1..])
  }

  /** `UPDATE transactions SET date=?, amount=?, category_id=?, type=?, description=? WHERE id=?`. */
  function Overwrite(txs: seq<Transaction>, id: int, date: string, amount: real, categoryId: int,
                     kind: string, description: string): seq<Transaction>
  {
    if txs == [] then []
    else
      var head := if txs[0].id == id then Transaction(id, date, amount, categoryId, kind, description) else txs[0];
      [head] + Overwrite(txs[1..], id, date, amount, categoryId, kind, description)
  }

  /** The UPDATE rewrites all five columns of the rows with that id and leaves every other row as it was. */
  lemma {:induction false} OverwriteAt(txs: seq<Transaction>, id: int, date: string, amount: real, categoryId: int,
                                       kind: string, description: string)
    ensures var r := Overwrite(txs, id, date, amount, categoryId, kind, description);
            && |r| == |txs|
            && forall i :: 0 <= i < |txs| ==>
                 r[i] == if txs[i].id == id then Transaction(id, date, amount, categoryId, kind, description) else txs[i]
  {
    if txs != [] {
      OverwriteAt(txs[1..], id, date, amount, categoryId, kind, description);
    }
  }

  predicate HasId(txs: seq<Transaction>, id: int)
  {
    exists i :: 0 <= i < |txs| && txs[i].id == id
  }

  /** Updating an id no row has changes nothing. */
  lemma OverwriteMissing(txs: seq<Transaction>, id: int, date: string, amount: real, categoryId: int,
                         kind: string, description: string)
    requires !HasId(txs, id)
    ensures Overwrite(txs, id, date, amount, categoryId, kind, description) == txs
  {
    OverwriteAt(txs, id, date, amount, categoryId, kind, description);
  }

  /** `DELETE FROM transactions WHERE id=?`. */
  function Without(txs: seq<Transaction>, id: int): seq<Transaction>
  {
    if txs == [] then []
    else if txs[0].id == id then Without(txs[1..], id)
    else [txs[0]] + Without(txs[1..], id)
  }

  /** The DELETE keeps exactly the rows with another id. */
  lemma {:induction false} WithoutMembers(txs: seq<Transaction>, id: int)
    ensures forall t :: t in Without(txs, id) <==> t in txs && t.id != id
  {
    if txs != [] {
      WithoutMembers(txs[1..], id);
      assert txs == [txs[0]] + txs[1..];
    }
  }

  /** Deleting an id no row has changes nothing. */
  lemma {:induction false} WithoutMissing(txs: seq<Transaction>, id: int)
    requires !HasId(txs, id)
    ensures Without(txs, id) == txs
  {
    if txs != [] {
      assert !HasId(txs[1..], id) by {
        forall i | 0 <= i < |txs[1..]| ensures txs[1..][i].id != id {
          assert txs[1..][i] == txs[i + 1];
        }
      }
      WithoutMissing(txs[1..], id);
      assert txs == [txs[0]] + txs[1..];
    }
  }

  /** Deleting the one row with that id removes it and keeps the others in their order. */
  lemma {:induction false} WithoutPresent(txs: seq<Transaction>, last: int, k: int)
    requires TransactionsWellFormed(txs, last) && 0 <= k < |txs|
    ensures Without(txs, txs[k].id) == txs[..k] + txs[k + 1..]
  {
    var id := txs[k].id;
    if k == 0 {
      assert !HasId(txs[1..], id) by {
        forall i | 0 <= i < |txs[1..]| ensures txs[1..][i].id != id {
          assert txs[1..][i] == txs[i + 1];
        }
      }
      WithoutMissing(txs[1..], id);
    } else {
      TailWellFormed(txs, last);
      assert txs[1..][k - 1] == txs[k];
      WithoutPresent(txs[1..], last, k - 1);
      assert txs[..k] == [txs[0]] + txs[1..][..k - 1];
      assert txs[k + 1..] == txs[1..][k..];
    }
  }

  lemma TailWellFormed(txs: seq<Transaction>, last: int)
    requires TransactionsWellFormed(txs, last) && txs != []
    ensures TransactionsWellFormed(txs[1..], last)
  {
    var tail := txs[1..];
    forall i, j | 0 <= i < j < |tail| ensures tail[i].id < tail[j].id {
      assert tail[i] == txs[i + 1] && tail[j] == txs[j + 1];
    }
  }

  lemma ConsWellFormed(t: Transaction, rest: seq<Transaction>, last: int)
    requires TransactionsWellFormed(rest, last) && 1 <= t.id <= last && IsKind(t.kind)
    requires forall j | 0 <= j < |rest| :: t.id < rest[j].id
    ensures TransactionsWellFormed([t] + rest, last)
  {
    var all := [t] + rest;
    forall i, j | 0 <= i < j < |all| ensures all[i].id < all[j].id {
      assert all[j] == rest[j - 1];
      if i > 0 {
        assert all[i] == rest[i - 1];
      }
    }
  }

  lemma {:induction false} WithoutWellFormed(txs: seq<Transaction>, last: int, id: int)
    requires TransactionsWellFormed(txs, last)
    ensures TransactionsWellFormed(Without(txs, id), last)
  {
    if txs != [] {
      var tail := txs[1..];
      TailWellFormed(txs, last);
      WithoutWellFormed(tail, last, id);
      if txs[0].id != id {
        WithoutMembers(tail, id);
        var rest := Without(tail, id);
        forall j | 0 <= j < |rest| ensures txs[0].id < rest[j].id {
          assert rest[j] in tail;
          var m :| 0 <= m < |tail| && tail[m] == rest[j];
          assert tail[m] == txs[m + 1];
        }
        ConsWellFormed(txs[0], rest, last);
      }
    }
  }

  /** Categories are only ever appended to: a reference that resolved still does. */
  lemma ResolvePrefix(cats: seq<Category>, more: seq<Category>, txs: seq<Transaction>)
    requires ReferencesResolve(cats, txs) && cats <= more
    ensures ReferencesResolve(more, txs)
  {
    forall t | t in txs ensures exists c | c in more :: c.id == t.categoryId && c.kind == t.kind {
      var c :| c in cats && c.id == t.categoryId && c.kind == t.kind;
      var i :| 0 <= i < |cats| && cats[i] == c;
      assert more[i] == c;
    }
  }

  /** A new transaction whose category exists, under its own type, keeps every reference resolved. */
  lemma ResolveAppend(cats: seq<Category>, txs: seq<Transaction>, t: Transaction)
    requires ReferencesResolve(cats, txs)
    requires exists c | c in cats :: c.id == t.categoryId && c.kind == t.kind
    ensures ReferencesResolve(cats, txs + [t])
  {
  }

  /**
   * Appending a transaction whose category find-or-create just returned
   * keeps every reference resolved, the categories having only grown.
   */
  lemma ResolveFound(cats0: seq<Category>, cats: seq<Category>, txs: seq<Transaction>, name: string, t: Transaction)
    requires ReferencesResolve(cats0, txs) && cats0 <= cats
    requires FindCategory(cats, name, t.kind) == Some(t.categoryId)
    ensures ReferencesResolve(cats, txs + [t])
  {
    ResolvePrefix(cats0, cats, txs);
    FindCategoryResolves(cats, name, t.kind);
    ResolveAppend(cats, txs, t);
  }

  /** Updating rows to a category that exists under the new type keeps every reference resolved. */
  lemma ResolveOverwrite(cats: seq<Category>, txs: seq<Transaction>, id: int, date: string, amount: real,
                         categoryId: int, kind: string, description: string)
    requires ReferencesResolve(cats, txs)
    requires exists c | c in cats :: c.id == categoryId && c.kind == kind
    ensures ReferencesResolve(cats, Overwrite(txs, id, date, amount, categoryId, kind, description))
  {
    OverwriteAt(txs, id, date, amount, categoryId, kind, description);
  }

  /** Deleting transactions leaves the remaining references resolved. */
  lemma ResolveWithout(cats: seq<Category>, txs: seq<Transaction>, id: int)
    requires ReferencesResolve(cats, txs)
    ensures ReferencesResolve(cats, Without(txs, id))
  {
    WithoutMembers(txs, id);
  }

  /** The id the lookup returns names a category of the requested type. */
  lemma FindCategoryResolves(cats: seq<Category>, name: string, kind: string)
    requires FindCategory(cats, name, kind).Some?
    ensures exists c | c in cats :: c.id == FindCategory(cats, name, kind).value && c.kind == kind
  {
  }

  /**
   * The categories table and its counter once find-or-create of
   * `(name, kind)` has succeeded: unchanged when a row matched, otherwise
   * one row appended under the next id.
   */
  ghost predicate CategoryEnsured(cats0: seq<Category>, last0: int, cats: seq<Category>, last: int,
                                  name: string, kind: string)
  {
    if FindCategory(cats0, name, kind).Some? then cats == cats0 && last == last0
    else cats == cats0 + [Category(last0 + 1, name, kind)] && last == last0 + 1
  }

  class Store {
    var categories: seq<Category>
    var transactions: seq<Transaction>
    /** The largest id each table has handed out (`sqlite_sequence`); 0 before the first insert. */
    var lastCategoryId: int
    var lastTransactionId: int

    ghost predicate Valid()
      reads this
    {
      && lastCategoryId >= 0 && lastTransactionId >= 0
      && CategoriesWellFormed(categories, lastCategoryId)
      && TransactionsWellFormed(transactions, lastTransactionId)
    }

    /** `create_db()` on a new database file: both tables exist and are empty. */
    constructor ()
      ensures Consistent(this)
      ensures categories == [] && transactions == [] && lastCategoryId == 0 && lastTransactionId == 0
    {
      categories, transactions := [], [];
      lastCategoryId, lastTransactionId := 0, 0;
    }

    /** `INSERT INTO categories (name, type) VALUES (?, ?)`: a new row under the next id, or a CHECK failure. */
    method InsertCategory(name: string, kind: string) returns (r: Result<int, StorageError>)
      requires Valid()
      modifies this
      ensures Valid()
      ensures transactions == old(transactions) && lastTransactionId == old(lastTransactionId)
      ensures IsKind(kind) ==> && r == Ok(old(lastCategoryId) + 1)
                               && categories == old(categories) + [Category(r.value, name, kind)]
                               && lastCategoryId == r.value
      ensures !IsKind(kind) ==> r == Err(CheckFailed) && categories == old(categories) && lastCategoryId == old(lastCategoryId)
      ensures r.Err? ==> unchanged(this)
    {
      if !IsKind(kind) {
        return Err(CheckFailed);
      }
      lastCategoryId := lastCategoryId + 1;
      categories := categories + [Category(lastCategoryId, name, kind)];
      r := Ok(lastCategoryId);
    }

    /**
     * The lookup-then-insert every save path performs (app.py:372-384,
     * app.py:449-459, app1.py:204-216, app1.py:258-270): the id of the
     * first `(name, type)` row; otherwise insert one and select it again.
     */
    method FindOrCreateCategory(name: string, kind: string) returns (r: Result<int, StorageError>)
      requires Valid()
      modifies this
      ensures Valid()
      ensures transactions == old(transactions) && lastTransactionId == old(lastTransactionId)
      ensures old(FindCategory(categories, name, kind)).Some? ==>
                && r == Ok(old(FindCategory(categories, name, kind)).value)
                && categories == old(categories) && lastCategoryId == old(lastCategoryId)
      ensures old(FindCategory(categories, name, kind)).None? && IsKind(kind) ==>
                && r == Ok(old(lastCategoryId) + 1)
                && categories == old(categories) + [Category(r.value, name, kind)]
                && lastCategoryId == r.value
      ensures !IsKind(kind) ==> r == Err(CheckFailed) && categories == old(categories) && lastCategoryId == old(lastCategoryId)
      ensures r.Ok? ==> FindCategory(categories, name, kind) == Some(r.value)
      ensures r.Ok? ==> CategoryEnsured(old(categories), old(lastCategoryId), categories, lastCategoryId, name, kind)
      ensures r.Err? ==> unchanged(this)
      ensures Deduplicated(old(categories)) ==> Deduplicated(categories)
    {
      var found := FindCategory(categories, name, kind);
      if found.None? {
        var inserted := InsertCategory(name, kind);
        if inserted.Err? {
          return Err(inserted.error);
        }
        FindCategoryAppend(old(categories), Category(inserted.value, name, kind), name, kind);
        if Deduplicated(old(categories)) {
          DeduplicatedAppend(old(categories), Category(inserted.value, name, kind));
        }
        found := FindCategory(categories, name, kind);
      }
      r := Ok(found.value);
    }

    /** `INSERT INTO transactions (date, amount, category_id, type, description) VALUES (?, ?, ?, ?, ?)`. */
    method InsertTransaction(date: string, amount: real, categoryId: int, kind: string, description: string)
      returns (r: Result<int, StorageError>)
      requires Valid()
      modifies this
      ensures Valid()
      ensures categories == old(categories) && lastCategoryId == old(lastCategoryId)
      ensures IsKind(kind) ==>
                && r == Ok(old(lastTransactionId) + 1)
                && transactions == old(transactions) + [Transaction(r.value, date, amount, categoryId, kind, description)]
                && lastTransactionId == r.value
      ensures !IsKind(kind) ==> r == Err(CheckFailed) && transactions == old(transactions) && lastTransactionId == old(lastTransactionId)
      ensures r.Err? ==> unchanged(this)
    {
      if !IsKind(kind) {
        return Err(CheckFailed);
      }
      lastTransactionId := lastTransactionId + 1;
      transactions := transactions + [Transaction(lastTransactionId, date, amount, categoryId, kind, description)];
      r := Ok(lastTransactionId);
    }

    /**
     * The UPDATE of all five columns by id. A CHECK failure needs a row to
     * update; an id no row has is a silent no-op.
     */
    method UpdateTransaction(id: int, date: string, amount: real, categoryId: int, kind: string, description: string)
      returns (r: Outcome<StorageError>)
      requires Valid()
      modifies this
      ensures Valid()
      ensures categories == old(categories) && lastCategoryId == old(lastCategoryId) && lastTransactionId == old(lastTransactionId)
      ensures r.Fail? <==> HasId(old(transactions), id) && !IsKind(kind)
      ensures r.Fail? ==> unchanged(this)
      ensures r.Pass? ==> transactions == Overwrite(old(transactions), id, date, amount, categoryId, kind, description)
    {
      if HasId(transactions, id) && !IsKind(kind) {
        return Fail(CheckFailed);
      }
      OverwriteAt(transactions, id, date, amount, categoryId, kind, description);
      transactions := Overwrite(transactions, id, date, amount, categoryId, kind, description);
      r := Pass;
    }

    /**
     * The statements of an add (app.py:372-390, app1.py:204-223): find or
     * create the category, then insert the transaction under its id. The
     * only failure is the type's CHECK, raised before anything is written.
     */
    method AddWithCategory(date: string, amount: real, category: string, kind: string, description: string)
      returns (r: Result<int, StorageError>)
      requires Valid() && ReferencesResolve(categories, transactions)
      modifies this
      ensures Valid() && ReferencesResolve(categories, transactions)
      ensures Deduplicated(old(categories)) ==> Deduplicated(categories)
      ensures r.Err? <==> !IsKind(kind)
      ensures r.Err? ==> r.error == CheckFailed && unchanged(this)
      ensures r.Ok? ==> && r.value == old(lastTransactionId) + 1 && lastTransactionId == r.value
                        && CategoryEnsured(old(categories), old(lastCategoryId), categories, lastCategoryId, category, kind)
                        && FindCategory(categories, category, kind).Some?
                        && transactions == old(transactions) + [Transaction(r.value, date, amount,
                                                                            FindCategory(categories, category, kind).value,
                                                                            kind, description)]
    {
      var categoryId := FindOrCreateCategory(category, kind);
      if categoryId.Err? {
        return Err(categoryId.error);
      }
      ghost var before := transactions;
      r := InsertTransaction(date, amount, categoryId.value, kind, description);
      ResolveFound(old(categories), categories, before, category,
                   Transaction(r.value, date, amount, categoryId.value, kind, description));
    }

    /**
     * The statements of an update (app.py:449-467, app1.py:258-281): find
     * or create the category, then the UPDATE by id, which does nothing
     * when no row has that id.
     */
    method UpdateWithCategory(id: int, date: string, amount: real, category: string, kind: string, description: string)
      returns (r: Outcome<StorageError>)
      requires Valid() && ReferencesResolve(categories, transactions)
      modifies this
      ensures Valid() && ReferencesResolve(categories, transactions)
      ensures Deduplicated(old(categories)) ==> Deduplicated(categories)
      ensures r.Fail? <==> !IsKind(kind)
      ensures r.Fail? ==> r.error == CheckFailed && unchanged(this)
      ensures r.Pass? ==> && lastTransactionId == old(lastTransactionId)
                          && CategoryEnsured(old(categories), old(lastCategoryId), categories, lastCategoryId, category, kind)
                          && FindCategory(categories, category, kind).Some?
                          && transactions == Overwrite(old(transactions), id, date, amount,
                                                       FindCategory(categories, category, kind).value, kind, description)
      ensures r.Pass? && !HasId(old(transactions), id) ==> transactions == old(transactions)
    {
      var categoryId := FindOrCreateCategory(category, kind);
      if categoryId.Err? {
        return Fail(categoryId.error);
      }
      ResolvePrefix(old(categories), categories, transactions);
      FindCategoryResolves(categories, category, kind);
      ResolveOverwrite(categories, transactions, id, date, amount, categoryId.value, kind, description);
      if !HasId(transactions, id) {
        OverwriteMissing(transactions, id, date, amount, categoryId.value, kind, description);
      }
      r := UpdateTransaction(id, date, amount, categoryId.value, kind, description);
    }

    /** `DELETE FROM transactions WHERE id=?`. */
    method DeleteTransaction(id: int)
      requires Valid()
      modifies this
      ensures Valid()
      ensures categories == old(categories) && lastCategoryId == old(lastCategoryId) && lastTransactionId == old(lastTransactionId)
      ensures transactions == Without(old(transactions), id)
    {
      WithoutWellFormed(transactions, lastTransactionId, id);
      transactions := Without(transactions, id);
    }
  }

  /**
   * What every handler keeps: well-formed tables, one row per category
   * pair, and every transaction's category present under its type.
   */
  ghost predicate Consistent(db: Store)
    reads db
  {
    db.Valid() && Deduplicated(db.categories) && ReferencesResolve(db.categories, db.transactions)
  }
}
