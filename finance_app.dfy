/**
 * The main front-end, app.py: the edit window's validation and save, and
 * the `FinanceApp` handlers that add, update, delete and list
 * transactions. Each handler is a method on the database; what the user
 * typed or picked, the answers to the dialogs, and today's date are its
 * parameters, and the message box it would show is its result.
 */
module FinanceApp {
  import opened Wrappers
  import opened Text
  import opened Dates
  import opened Database
  import opened Query

  /** Why a form is refused; each is one error message box. */
  datatype InputError =
    | MissingField    // "Please fill in all required fields."
    | BadDateFormat   // "Please enter date in YYYY-MM-DD format."
    | NotANumber      // "Amount must be a (valid) number."
    | NotPositive     // "Amount must be a positive number."
    | BadType         // "Type must be 'expense' or 'income'."

  /** Why an add wrote nothing: the form was refused, or SQLite raised. */
  datatype Failure = Rejected(reason: InputError) | DatabaseError(cause: StorageError)

  /** The amount check both forms make: `float(s)` succeeds and is more than 0. */
  function CheckAmount(s: string, parseFloat: string -> Option<real>): (r: Outcome<InputError>)
    ensures r.Pass? <==> parseFloat(s).Some? && parseFloat(s).value > 0.0
    ensures r.Fail? ==> r.error == NotANumber || r.error == NotPositive
  {
    match parseFloat(s)
    case None => Fail(NotANumber)
    case Some(x) => if x <= 0.0 then Fail(NotPositive) else Pass
  }

  /**
   * `EditTransactionWindow.validate_inputs` (app.py:91-125). Date, amount
   * and category are stripped first, the type is taken as it is; the
   * checks run in order and the first that fails is reported. A field
   * left blank or holding only whitespace counts as missing.
   */
  function ValidateEdit(date: string, amount: string, category: string, kind: string,
                        parseFloat: string -> Option<real>): (r: Outcome<InputError>)
    ensures r == Fail(MissingField) <==> AllSpace(date) || AllSpace(amount) || AllSpace(category) || kind == ""
    ensures r.Pass? <==> && !AllSpace(amount) && !AllSpace(category)
                         && ParseYmd(Strip(date)).Some?
                         && parseFloat(Strip(amount)).Some? && parseFloat(Strip(amount)).value > 0.0
                         && IsKind(kind)
  {
    StripEmptyIffBlank(date);
    StripEmptyIffBlank(amount);
    StripEmptyIffBlank(category);
    var d, a, c := Strip(date), Strip(amount), Strip(category);
    if d == "" || a == "" || c == "" || kind == "" then Fail(MissingField)
    else if ParseYmd(d).None? then Fail(BadDateFormat)
    else if CheckAmount(a, parseFloat).Fail? then CheckAmount(a, parseFloat)
    else if !IsKind(kind) then Fail(BadType)
    else Pass
  }

  /**
   * The checks `add_transaction` makes before touching the database
   * (app.py:351-369): the fields exactly as typed, without stripping, and
   * no check of the type.
   */
  function CheckAddForm(date: string, amount: string, category: string,
                        parseFloat: string -> Option<real>): (r: Outcome<InputError>)
    ensures r == Fail(MissingField) <==> date == "" || amount == "" || category == ""
    ensures r.Pass? <==> && amount != "" && category != "" && ParseYmd(date).Some?
                         && parseFloat(amount).Some? && parseFloat(amount).value > 0.0
  {
    if date == "" || amount == "" || category == "" then Fail(MissingField)
    else if ParseYmd(date).None? then Fail(BadDateFormat)
    else CheckAmount(amount, parseFloat)
  }

  /** On fields that carry no surrounding whitespace and a valid type, the add form and the edit window agree. */
  lemma AddAndEditAgreeOnTrimmedFields(date: string, amount: string, category: string, kind: string,
                                       parseFloat: string -> Option<real>)
    requires Strip(date) == date && Strip(amount) == amount && Strip(category) == category
    requires IsKind(kind)
    ensures CheckAddForm(date, amount, category, parseFloat) == ValidateEdit(date, amount, category, kind, parseFloat)
  {
  }

  /**
   * On `DDDD-DD-DD` text the edit window's date check passes exactly for
   * real calendar dates of years 1 to 9999.
   */
  lemma EditAcceptsExactlyCalendarDates(date: string, amount: string, category: string, kind: string,
                                        parseFloat: string -> Option<real>)
    requires CanonicalShape(Strip(date))
    requires ValidateEdit(date, amount, category, kind, parseFloat) != Fail(MissingField)
    ensures ValidateEdit(date, amount, category, kind, parseFloat) == Fail(BadDateFormat)
            <==> !ValidDate(ShapeDate(Strip(date)))
  {
    ParseCanonical(Strip(date));
  }

  /** The same for the add form, whose date is taken as typed. */
  lemma AddAcceptsExactlyCalendarDates(date: string, amount: string, category: string,
                                       parseFloat: string -> Option<real>)
    requires CanonicalShape(date) && amount != "" && category != ""
    ensures CheckAddForm(date, amount, category, parseFloat) == Fail(BadDateFormat) <==> !ValidDate(ShapeDate(date))
  {
    ParseCanonical(date);
  }

  /** A thirteenth month is refused (tests/test_finance_app.py:337-356 list it as invalid). */
  lemma RejectsMonthThirteen(s: string)
    requires s == "2024-13-01"
    ensures ParseYmd(s).None?
  {
    var t := s[5..];
    assert t[0] == '1' && t[1] == '3';
  }

  /** A thirty-second day is refused: `%d` reads `3` and leaves `2` unconverted. */
  lemma RejectsDayThirtyTwo(s: string)
    requires s == "2024-01-32"
    ensures ParseYmd(s).None?
  {
    var t := s[5..];
    assert t[0] == '0' && t[1] == '1' && t[2] == '-';
    var u := t[3..];
    assert u[0] == '3' && u[1] == '2' && u[1..] == "2";
  }

  /** Month and day first is refused: the text does not start with four digits. */
  lemma RejectsMonthFirst(s: string)
    requires s == "01-15-2024"
    ensures ParseYmd(s).None?
  {
    assert s[..4][2] == '-';
  }

  /** 28 February of a common year is accepted. */
  lemma AcceptsFebruary28(s: string, d: Date)
    requires s == "2023-02-28" && d == Date(2023, 2, 28)
    ensures ParseYmd(s) == Some(d)
  {
    FormatChars(d);
    assert d.year / 1000 == 2 && d.year / 100 % 10 == 0 && d.year / 10 % 10 == 2 && d.year % 10 == 3;
    assert d.month / 10 == 0 && d.month % 10 == 2 && d.day / 10 == 2 && d.day % 10 == 8;
    ParseFormat(d);
  }

  /** The last day of the year is accepted. */
  lemma AcceptsDecember31(s: string, d: Date)
    requires s == "2024-12-31" && d == Date(2024, 12, 31)
    ensures ParseYmd(s) == Some(d)
  {
    FormatChars(d);
    assert d.year / 1000 == 2 && d.year / 100 % 10 == 0 && d.year / 10 % 10 == 2 && d.year % 10 == 4;
    assert d.month / 10 == 1 && d.month % 10 == 2 && d.day / 10 == 3 && d.day % 10 == 1;
    ParseFormat(d);
  }

  /**
   * `add_transaction` stores the category name as typed and the edit
   * window stores it stripped: once `Food` exists, adding ` Food` finds or
   * creates a category whose id is not Food's, while `Food`, the name an
   * edit to ` Food` resolves, keeps Food's id.
   */
  lemma SpacedNameIsAnotherCategory(cats0: seq<Category>, last0: int, cats: seq<Category>, last: int, kind: string)
    requires CategoriesWellFormed(cats0, last0)
    requires FindCategory(cats0, "Food", kind).Some?
    requires CategoryEnsured(cats0, last0, cats, last, " Food", kind)
    ensures Strip(" Food") == "Food"
    ensures FindCategory(cats, " Food", kind).Some?
    ensures FindCategory(cats, " Food", kind).value != FindCategory(cats0, "Food", kind).value
    ensures FindCategory(cats, Strip(" Food"), kind) == FindCategory(cats0, "Food", kind)
  {
    FoodStripped(" Food");
    var food := FindCategory(cats0, "Food", kind).value;
    var j :| 0 <= j < |cats0| && cats0[j] == Category(food, "Food", kind);
    var found := FindCategory(cats0, " Food", kind);
    if found.Some? {
      var i :| 0 <= i < |cats0| && cats0[i] == Category(found.value, " Food", kind);
      assert i != j;
    } else {
      var c := Category(last0 + 1, " Food", kind);
      FindCategoryAppend(cats0, c, " Food", kind);
      FindCategoryAppend(cats0, c, "Food", kind);
      assert food <= last0;
    }
  }

  lemma FoodStripped(s: string)
    requires s == " Food"
    ensures Strip(s) == "Food"
  {
    assert IsSpace(s[0]) && !IsSpace(s[1]) && !IsSpace(s[4]);
    assert SkipLeading(s, 0) == 1;
    assert SkipTrailing(s, 1, 5) == 5;
  }

  /**
   * `add_transaction` (app.py:344-395). A refused form and a failing
   * statement write nothing; otherwise the category is found or created
   * (app.py:372-384) and exactly one transaction row is appended, holding
   * the fields as typed and the parsed amount.
   */
  method AddTransaction(db: Store, date: string, amount: string, category: string, kind: string,
                        description: string, parseFloat: string -> Option<real>) returns (r: Result<int, Failure>)
    requires Consistent(db)
    modifies db
    ensures Consistent(db)
    ensures r == match CheckAddForm(date, amount, category, parseFloat)
                 case Fail(e) => Err(Rejected(e))
                 case Pass => if IsKind(kind) then Ok(old(db.lastTransactionId) + 1) else Err(DatabaseError(CheckFailed))
    ensures r.Err? ==> unchanged(db)
    ensures r.Ok? ==>
              && parseFloat(amount).Some?
              && CategoryEnsured(old(db.categories), old(db.lastCategoryId), db.categories, db.lastCategoryId, category, kind)
              && FindCategory(db.categories, category, kind).Some?
              && db.transactions == old(db.transactions)
                                    + [Transaction(r.value, date, parseFloat(amount).value,
                                                   FindCategory(db.categories, category, kind).value, kind, description)]
              && db.lastTransactionId == r.value
  {
    var check := CheckAddForm(date, amount, category, parseFloat);
    if check.Fail? {
      return Err(Rejected(check.error));
    }
    var added := db.AddWithCategory(date, parseFloat(amount).value, category, kind, description);
    match added
    case Err(e) =>
      r := Err(DatabaseError(e));
    case Ok(id) =>
      r := Ok(id);
  }

  /**
   * `update_transaction_callback` (app.py:446-474): find or create the
   * category, then the UPDATE by id. It reports success for every valid
   * type, also when no row has that id; a category it had to create stays.
   */
  method UpdateTransactionCallback(db: Store, id: int, date: string, amount: real, category: string, kind: string,
                                   description: string) returns (success: bool)
    requires Consistent(db)
    modifies db
    ensures Consistent(db)
    ensures success <==> IsKind(kind)
    ensures !success ==> unchanged(db)
    ensures success ==>
              && CategoryEnsured(old(db.categories), old(db.lastCategoryId), db.categories, db.lastCategoryId, category, kind)
              && FindCategory(db.categories, category, kind).Some?
              && db.transactions == Overwrite(old(db.transactions), id, date, amount,
                                              FindCategory(db.categories, category, kind).value, kind, description)
              && db.lastTransactionId == old(db.lastTransactionId)
    ensures success && !HasId(old(db.transactions), id) ==> db.transactions == old(db.transactions)
  {
    var outcome := db.UpdateWithCategory(id, date, amount, category, kind, description);
    success := outcome.Pass?;
  }

  /**
   * `EditTransactionWindow.save_changes` (app.py:127-154): validate, then
   * hand the stripped fields and the parsed amount to the callback. A
   * refused form writes nothing.
   */
  method SaveChanges(db: Store, id: int, date: string, amount: string, category: string, kind: string,
                     description: string, parseFloat: string -> Option<real>) returns (r: Result<bool, InputError>)
    requires Consistent(db)
    modifies db
    ensures Consistent(db)
    ensures r.Err? <==> ValidateEdit(date, amount, category, kind, parseFloat).Fail?
    ensures r.Err? ==> r.error == ValidateEdit(date, amount, category, kind, parseFloat).error && unchanged(db)
    ensures r.Ok? ==>
              && r.value
              && parseFloat(Strip(amount)).Some?
              && CategoryEnsured(old(db.categories), old(db.lastCategoryId), db.categories, db.lastCategoryId,
                                 Strip(category), kind)
              && FindCategory(db.categories, Strip(category), kind).Some?
              && db.transactions == Overwrite(old(db.transactions), id, Strip(date), parseFloat(Strip(amount)).value,
                                              FindCategory(db.categories, Strip(category), kind).value, kind,
                                              Strip(description))
              && db.lastTransactionId == old(db.lastTransactionId)
  {
    var check := ValidateEdit(date, amount, category, kind, parseFloat);
    if check.Fail? {
      return Err(check.error);
    }
    var success := UpdateTransactionCallback(db, id, Strip(date), parseFloat(Strip(amount)).value, Strip(category),
                                             kind, Strip(description));
    r := Ok(success);
  }

  /**
   * `delete_transaction` (app.py:427-444): with a row selected and the
   * deletion confirmed, the DELETE by that row's id; otherwise nothing.
   */
  method DeleteTransaction(db: Store, selected: Option<int>, confirmed: bool)
    requires Consistent(db)
    modifies db
    ensures Consistent(db)
    ensures db.categories == old(db.categories)
    ensures db.lastCategoryId == old(db.lastCategoryId) && db.lastTransactionId == old(db.lastTransactionId)
    ensures db.transactions == if selected.Some? && confirmed then Without(old(db.transactions), selected.value)
                               else old(db.transactions)
  {
    if selected.Some? && confirmed {
      ResolveWithout(db.categories, db.transactions, selected.value);
      db.DeleteTransaction(selected.value);
    }
  }

  /**
   * `load_categories` (app.py:289-295): the name of every category row,
   * in table order, for the drop-down.
   */
  method LoadCategories(db: Store) returns (names: seq<string>)
    ensures names == CategoryNames(db.categories)
  {
    names := CategoryNames(db.categories);
  }

  /**
   * `load_transactions` (app.py:297-342): build the statement for the
   * filters, run it, and show what it returns. The listing is cleared
   * first, so on an error it stays empty.
   */
  method LoadTransactions(db: Store, filterType: string, filterPeriod: string, startDate: Option<string>,
                          endDate: Option<string>, today: Date) returns (r: Result<seq<Row>, QueryError>)
    requires ValidDate(today)
    ensures r == Filtered(db.categories, db.transactions, filterType, filterPeriod, startDate, endDate, today)
  {
    var q := BuildQuery(filterType, filterPeriod, startDate, endDate, today);
    ExecuteFilter(db.categories, db.transactions, filterType, filterPeriod, startDate, endDate, today);
    match q
    case Err(e) =>
      r := Err(e);
    case Ok(query) =>
      var rows := Execute(db.categories, db.transactions, query);
      r := Ok(rows.value);
  }

  /**
   * `filter_transactions` (app.py:476-487): for a custom period the two
   * dialogs are asked first and a cancelled or empty answer reloads
   * nothing (`None`); any other period reloads without dates.
   */
  method FilterTransactions(db: Store, filterType: string, filterPeriod: string, askedStart: Option<string>,
                            askedEnd: Option<string>, today: Date) returns (r: Option<Result<seq<Row>, QueryError>>)
    requires ValidDate(today)
    ensures filterPeriod == "custom" && !(Given(askedStart) && Given(askedEnd)) ==> r.None?
    ensures filterPeriod == "custom" && Given(askedStart) && Given(askedEnd) ==>
              r == Some(Filtered(db.categories, db.transactions, filterType, filterPeriod, askedStart, askedEnd, today))
    ensures filterPeriod != "custom" ==>
              r == Some(Filtered(db.categories, db.transactions, filterType, filterPeriod, None, None, today))
    ensures r.Some? ==> r.value != Err(MissingRange)
  {
    if filterPeriod == "custom" {
      if !(Given(askedStart) && Given(askedEnd)) {
        return None;
      }
      var shown := LoadTransactions(db, filterType, filterPeriod, askedStart, askedEnd, today);
      r := Some(shown);
    } else {
      var shown := LoadTransactions(db, filterType, filterPeriod, None, None, today);
      r := Some(shown);
    }
  }

  /**
   * The reload at the end of `add_transaction` (app.py:386-391, and
   * app1.py:220-224 alike) calls `load_transactions()` with no arguments,
   * so it lists under `all`/`all` and always shows the appended row. Under
   * any later filter the row is listed exactly when the filter admits its
   * type and date.
   */
  lemma AddedRowIsListed(cats: seq<Category>, txs0: seq<Transaction>, txs: seq<Transaction>, id: int, date: string,
                         amount: real, category: string, kind: string, description: string, filterType: string,
                         filterPeriod: string, startDate: Option<string>, endDate: Option<string>, today: Date)
    requires ValidDate(today) && PeriodOf(filterPeriod, startDate, endDate, today).Ok?
    requires FindCategory(cats, category, kind).Some?
    requires txs == txs0 + [Transaction(id, date, amount, FindCategory(cats, category, kind).value, kind, description)]
    ensures Row(id, date, amount, category, kind, description)
              in Filtered(cats, txs, filterType, filterPeriod, startDate, endDate, today).value
            <==> (filterType == "all" || kind == filterType)
                 && InPeriod(date, PeriodOf(filterPeriod, startDate, endDate, today).value)
    ensures filterType == "all" && filterPeriod == "all" ==>
              Row(id, date, amount, category, kind, description)
                in Filtered(cats, txs, filterType, filterPeriod, startDate, endDate, today).value
  {
    var row := Row(id, date, amount, category, kind, description);
    var t := Transaction(id, date, amount, FindCategory(cats, category, kind).value, kind, description);
    var i :| 0 <= i < |cats| && cats[i] == Category(t.categoryId, category, kind);
    assert t in txs && cats[i] in cats && RowOf(t, cats[i]) == row;
    FilteredMembers(cats, txs, filterType, filterPeriod, startDate, endDate, today, row);
  }

  /**
   * How many rows the add puts in a listing: with category ids unique, the
   * appended transaction joins exactly once, so a listing gains exactly
   * its row, at the end, when the filter admits it, and nothing otherwise.
   * The `all`/`all` reload gains exactly that row; on a fresh store it is
   * the only row listed.
   */
  lemma AddAppendsListedRow(cats: seq<Category>, last: int, txs0: seq<Transaction>, txs: seq<Transaction>, id: int,
                            date: string, amount: real, category: string, kind: string, description: string,
                            filterType: string, filterPeriod: string, startDate: Option<string>,
                            endDate: Option<string>, today: Date)
    requires CategoriesWellFormed(cats, last)
    requires ValidDate(today) && PeriodOf(filterPeriod, startDate, endDate, today).Ok?
    requires FindCategory(cats, category, kind).Some?
    requires txs == txs0 + [Transaction(id, date, amount, FindCategory(cats, category, kind).value, kind, description)]
    ensures Filtered(cats, txs, filterType, filterPeriod, startDate, endDate, today).value
            == Filtered(cats, txs0, filterType, filterPeriod, startDate, endDate, today).value
               + if (filterType == "all" || kind == filterType)
                    && InPeriod(date, PeriodOf(filterPeriod, startDate, endDate, today).value)
                 then [Row(id, date, amount, category, kind, description)] else []
    ensures filterType == "all" && filterPeriod == "all" ==>
              Filtered(cats, txs, filterType, filterPeriod, startDate, endDate, today).value
              == Filtered(cats, txs0, filterType, filterPeriod, startDate, endDate, today).value
                 + [Row(id, date, amount, category, kind, description)]
    ensures txs0 == [] && filterType == "all" && filterPeriod == "all" ==>
              Filtered(cats, txs, filterType, filterPeriod, startDate, endDate, today)
              == Ok([Row(id, date, amount, category, kind, description)])
  {
    var p := PeriodOf(filterPeriod, startDate, endDate, today).value;
    var t := Transaction(id, date, amount, FindCategory(cats, category, kind).value, kind, description);
    var i :| 0 <= i < |cats| && cats[i] == Category(t.categoryId, category, kind);
    assert Filtered(cats, txs, filterType, filterPeriod, startDate, endDate, today).value
           == Shown(Joined(cats, txs), filterType, p);
    assert Filtered(cats, txs0, filterType, filterPeriod, startDate, endDate, today).value
           == Shown(Joined(cats, txs0), filterType, p);
    ShownJoinedAppend(cats, last, txs0, t, i, filterType, p);
    assert RowOf(t, cats[i]) == Row(id, date, amount, category, kind, description);
    if txs0 == [] {
      assert Shown(Joined(cats, txs0), filterType, p) == [];
      var row := Row(id, date, amount, category, kind, description);
      assert [] + [row] == [row];
    }
  }
}
