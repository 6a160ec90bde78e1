/**
 * The second front-end, app1.py: the same database and the same filter
 * statement, an add form with a weaker check, and a save of the form over
 * the transaction selected in the listing instead of an edit window.
 */
module FinanceApp1 {
  import opened Wrappers
  import opened Dates
  import opened Database
  import opened Query
  import App = FinanceApp

  /** Why a form is refused; each is one error message box. */
  datatype FormError =
    | MissingField   // "Please fill in all required fields."
    | NotANumber     // "Amount must be a number."

  /** Why a save or an add wrote nothing. */
  datatype Failure =
    | NothingSelected            // "Please select a record to save."
    | Rejected(reason: FormError)
    | DatabaseError(cause: StorageError)

  /**
   * The only checks app1.py makes before writing (app1.py:194-202,
   * app1.py:248-256): the three fields are non-empty as typed and the
   * amount parses. Nothing is stripped, the date is not looked at, the
   * sign of the amount is not looked at, and neither is the type.
   */
  function CheckForm(date: string, amount: string, category: string,
                     parseFloat: string -> Option<real>): (r: Outcome<FormError>)
    ensures r == Fail(MissingField) <==> date == "" || amount == "" || category == ""
    ensures r.Pass? <==> date != "" && amount != "" && category != "" && parseFloat(amount).Some?
  {
    if date == "" || amount == "" || category == "" then Fail(MissingField)
    else if parseFloat(amount).None? then Fail(NotANumber)
    else Pass
  }

  /** Every form app.py's add accepts, app1.py accepts too. */
  lemma AcceptsWhatAppAccepts(date: string, amount: string, category: string, parseFloat: string -> Option<real>)
    ensures App.CheckAddForm(date, amount, category, parseFloat).Pass? ==> CheckForm(date, amount, category, parseFloat).Pass?
    ensures CheckForm(date, amount, category, parseFloat) == Fail(MissingField)
            <==> App.CheckAddForm(date, amount, category, parseFloat) == Fail(App.MissingField)
  {
    if App.CheckAddForm(date, amount, category, parseFloat).Pass? {
      assert ParseYmd(date).Some?;
    }
  }

  /** A zero or negative amount on a well-formed date passes app1.py and is refused by app.py. */
  lemma StoresNonPositiveAmounts(date: string, amount: string, category: string, parseFloat: string -> Option<real>)
    requires amount != "" && category != "" && ParseYmd(date).Some?
    requires parseFloat(amount).Some? && parseFloat(amount).value <= 0.0
    ensures CheckForm(date, amount, category, parseFloat).Pass?
    ensures App.CheckAddForm(date, amount, category, parseFloat) == Fail(App.NotPositive)
  {
    assert date != "";
  }

  /** Text that is no date at all passes app1.py's check; app.py's add refuses it. */
  lemma StoresAnyDateText(date: string, amount: string, category: string, parseFloat: string -> Option<real>)
    requires date == "not a date" && amount != "" && category != "" && parseFloat(amount).Some?
    ensures CheckForm(date, amount, category, parseFloat).Pass?
    ensures App.CheckAddForm(date, amount, category, parseFloat) == Fail(App.BadDateFormat)
  {
    assert date[..4][0] == 'n';
  }

  /**
   * `load_categories` (app1.py:137-140) lists every row's name: a name
   * kept under both types appears twice in the drop-down.
   */
  lemma NameUnderBothTypesListedTwice(cats: seq<Category>, name: string)
    requires FindCategory(cats, name, "expense").Some? && FindCategory(cats, name, "income").Some?
    ensures exists i, j :: 0 <= i < j < |CategoryNames(cats)| && CategoryNames(cats)[i] == name && CategoryNames(cats)[j] == name
  {
    var names := CategoryNames(cats);
    var a :| 0 <= a < |cats| && cats[a] == Category(FindCategory(cats, name, "expense").value, name, "expense");
    var b :| 0 <= b < |cats| && cats[b] == Category(FindCategory(cats, name, "income").value, name, "income");
    assert a != b;
    if a < b {
      assert names[a] == name && names[b] == name;
    } else {
      assert names[b] == name && names[a] == name;
    }
  }

  /**
   * `add_transaction` (app1.py:186-227): after the weak check, the
   * category is found or created and one row is appended with the fields
   * as typed. SQLite's CHECK on the type is the only thing that refuses a
   * bad type, and it fires before anything is written.
   */
  method AddTransaction(db: Store, date: string, amount: string, category: string, kind: string,
                        description: string, parseFloat: string -> Option<real>) returns (r: Result<int, Failure>)
    requires Consistent(db)
    modifies db
    ensures Consistent(db)
    ensures r == match CheckForm(date, amount, category, parseFloat)
                 case Fail(e) => Err(Rejected(e))
                 case Pass => if IsKind(kind) then Ok(old(db.lastTransactionId) + 1) else Err(DatabaseError(CheckFailed))
    ensures r.Err? ==> unchanged(db)
    ensures r.Ok? ==>
              && parseFloat(amount).Some?
              && CategoryEnsured(old(db.categories), old(db.lastCategoryId), db.categories, db.lastCategoryId, category, kind)
              && FindCategory(db.categories, category, kind).Some?
              && db.transactions == old(db.transactions)
                                    + [Transaction(r.value, date, parseFloat(amount).value,
                                                   FindCategory(db.categories, category, kind).value, kind, description)]
              && db.lastTransactionId == r.value
  {
    if date == "" || amount == "" || category == "" {
      return Err(Rejected(MissingField));
    }
    var value := parseFloat(amount);
    if value.None? {
      return Err(Rejected(NotANumber));
    }
    var added := db.AddWithCategory(date, value.value, category, kind, description);
    if added.Err? {
      return Err(DatabaseError(added.error));
    }
    r := Ok(added.value);
  }

  /**
   * `save_transaction` (app1.py:236-285): with no row selected nothing is
   * checked or written; otherwise the form is checked as for an add, the
   * category found or created, and the selected row's five fields
   * overwritten. No other row changes.
   */
  method SaveTransaction(db: Store, selected: Option<int>, date: string, amount: string, category: string,
                         kind: string, description: string, parseFloat: string -> Option<real>)
    returns (r: Outcome<Failure>)
    requires Consistent(db)
    modifies db
    ensures Consistent(db)
    ensures selected.None? ==> r == Fail(NothingSelected)
    ensures selected.Some? ==> r == match CheckForm(date, amount, category, parseFloat)
                                   case Fail(e) => Fail(Rejected(e))
                                   case Pass => if IsKind(kind) then Pass else Fail(DatabaseError(CheckFailed))
    ensures r.Fail? ==> unchanged(db)
    ensures r.Pass? ==>
              && selected.Some? && parseFloat(amount).Some?
              && CategoryEnsured(old(db.categories), old(db.lastCategoryId), db.categories, db.lastCategoryId, category, kind)
              && FindCategory(db.categories, category, kind).Some?
              && db.transactions == Overwrite(old(db.transactions), selected.value, date, parseFloat(amount).value,
                                              FindCategory(db.categories, category, kind).value, kind, description)
              && db.lastTransactionId == old(db.lastTransactionId)
  {
    if selected.None? {
      return Fail(NothingSelected);
    }
    if date == "" || amount == "" || category == "" {
      return Fail(Rejected(MissingField));
    }
    var value := parseFloat(amount);
    if value.None? {
      return Fail(Rejected(NotANumber));
    }
    var updated := db.UpdateWithCategory(selected.value, date, value.value, category, kind, description);
    if updated.Fail? {
      return Fail(DatabaseError(updated.error));
    }
    r := Pass;
  }

  /**
   * `load_transactions` (app1.py:142-184): the statement app.py builds,
   * run against the two tables; a custom period without both dates runs
   * nothing.
   */
  method LoadTransactions(db: Store, filterType: string, filterPeriod: string, startDate: Option<string>,
                          endDate: Option<string>, today: Date) returns (r: Result<seq<Row>, QueryError>)
    requires ValidDate(today)
    ensures r == Filtered(db.categories, db.transactions, filterType, filterPeriod, startDate, endDate, today)
  {
    var q := BuildQuery(filterType, filterPeriod, startDate, endDate, today);
    ExecuteFilter(db.categories, db.transactions, filterType, filterPeriod, startDate, endDate, today);
    if q.Err? {
      return Err(q.error);
    }
    var rows := Execute(db.categories, db.transactions, q.value);
    r := Ok(rows.value);
  }

  /**
   * `filter_transactions` (app1.py:287-298): as in app.py, a custom
   * period needs two non-empty answers, otherwise nothing is reloaded.
   */
  method FilterTransactions(db: Store, filterType: string, filterPeriod: string, askedStart: Option<string>,
                            askedEnd: Option<string>, today: Date) returns (r: Option<Result<seq<Row>, QueryError>>)
    requires ValidDate(today)
    ensures filterPeriod == "custom" && !(Given(askedStart) && Given(askedEnd)) ==> r.None?
    ensures filterPeriod == "custom" && Given(askedStart) && Given(askedEnd) ==>
              r == Some(Filtered(db.categories, db.transactions, filterType, filterPeriod, askedStart, askedEnd, today))
    ensures filterPeriod != "custom" ==>
              r == Some(Filtered(db.categories, db.transactions, filterType, filterPeriod, None, None, today))
    ensures r.Some? ==> r.value != Err(MissingRange)
  {
    var start, end := None, None;
    if filterPeriod == "custom" {
      if !(Given(askedStart) && Given(askedEnd)) {
        return None;
      }
      start, end := askedStart, askedEnd;
    }
    var shown := LoadTransactions(db, filterType, filterPeriod, start, end, today);
    r := Some(shown);
  }
}
