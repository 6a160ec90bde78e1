/**
 * The listing query of `load_transactions` (app.py:297-342, repeated in
 * app1.py:142-184): the joined SELECT, the WHERE conditions the type and
 * period filters add, the SQL text and parameter list built from them, and
 * what SQLite returns for that text.
 */
module Query {
  import opened Wrappers
  import opened Text
  import opened Dates
  import opened Database

  /** A result row: `t.id, t.date, t.amount, c.name, t.type, t.description`. */
  datatype Row = Row(id: int, date: string, amount: real, category: string, kind: string, description: string)

  function RowOf(t: Transaction, c: Category): Row
  {
    Row(t.id, t.date, t.amount, c.name, t.kind, t.description)
  }

  /** `... FROM transactions t JOIN categories c ON t.category_id = c.id`, transactions in table order. */
  function Joined(cats: seq<Category>, txs: seq<Transaction>): seq<Row>
  {
    if txs == [] then [] else JoinOne(cats, txs[0]) + Joined(cats, txs[1..])
  }

  function JoinOne(cats: seq<Category>, t: Transaction): seq<Row>
  {
    if cats == [] then []
    else (if cats[0].id == t.categoryId then [RowOf(t, cats[0])] else []) + JoinOne(cats[1..], t)
  }

  lemma {:induction false} JoinOneMembers(cats: seq<Category>, t: Transaction)
    ensures forall row :: row in JoinOne(cats, t) <==> exists c :: c in cats && c.id == t.categoryId && row == RowOf(t, c)
  {
    if cats != [] {
      JoinOneMembers(cats[1..], t);
      assert cats == [cats[0]] + cats[1..];
    }
  }

  /** The inner join holds one row for each transaction and category whose ids meet, and nothing else. */
  lemma {:induction false} JoinedMembers(cats: seq<Category>, txs: seq<Transaction>)
    ensures forall row :: row in Joined(cats, txs) <==>
              exists t, c :: t in txs && c in cats && c.id == t.categoryId && row == RowOf(t, c)
  {
    if txs != [] {
      JoinOneMembers(cats, txs[0]);
      JoinedMembers(cats, txs[1..]);
      assert txs == [txs[0]] + txs[1..];
    }
  }

  /** A transaction appended to the table adds its own join rows at the end. */
  lemma {:induction false} JoinedAppend(cats: seq<Category>, txs: seq<Transaction>, t: Transaction)
    ensures Joined(cats, txs + [t]) == Joined(cats, txs) + JoinOne(cats, t)
  {
    if txs == [] {
      assert [t][1..] == [];
    } else {
      assert (txs + [t])[1..] == txs[1..] + [t];
      JoinedAppend(cats, txs[1..], t);
    }
  }

  /** A transaction whose category id no row has joins nothing. */
  lemma {:induction false} JoinOneNone(cats: seq<Category>, t: Transaction)
    requires forall k :: 0 <= k < |cats| ==> cats[k].id != t.categoryId
    ensures JoinOne(cats, t) == []
  {
    if cats != [] {
      JoinOneNone(cats[1..], t);
    }
  }

  /** A transaction whose category id exactly one row has joins once, with that row. */
  lemma {:induction false} JoinOneOnly(cats: seq<Category>, t: Transaction, i: int)
    requires 0 <= i < |cats| && cats[i].id == t.categoryId
    requires forall k :: 0 <= k < |cats| && k != i ==> cats[k].id != t.categoryId
    ensures JoinOne(cats, t) == [RowOf(t, cats[i])]
  {
    if i == 0 {
      JoinOneNone(cats[1..], t);
    } else {
      JoinOneOnly(cats[1..], t, i - 1);
    }
  }

  /** One WHERE condition together with the value bound to its `?`. */
  datatype Condition =
    | TypeIs(value: string)      // t.type = ?
    | DateFrom(value: string)    // t.date >= ?
    | DateBelow(value: string)   // t.date < ?
    | DateUpTo(value: string)    // t.date <= ?

  function ConditionSql(c: Condition): string
  {
    match c
    case TypeIs(_) => "t.type = ?"
    case DateFrom(_) => "t.date >= ?"
    case DateBelow(_) => "t.date < ?"
    case DateUpTo(_) => "t.date <= ?"
  }

  /** How SQLite evaluates the condition on a row; TEXT compares under BINARY collation. */
  predicate Satisfies(row: Row, c: Condition)
  {
    match c
    case TypeIs(k) => row.kind == k
    case DateFrom(b) => !LexLess(row.date, b)
    case DateBelow(b) => LexLess(row.date, b)
    case DateUpTo(b) => !LexLess(b, row.date)
  }

  predicate SatisfiesAll(row: Row, cs: seq<Condition>)
  {
    forall i :: 0 <= i < |cs| ==> Satisfies(row, cs[i])
  }

  /** The rows that pass every condition, in their order. */
  function Where(rows: seq<Row>, cs: seq<Condition>): (r: seq<Row>)
    ensures forall row :: row in r <==> row in rows && SatisfiesAll(row, cs)
  {
    if rows == [] then []
    else
      var rest := Where(rows[1..], cs);
      assert rows == [rows[0]] + rows[1..];
      if SatisfiesAll(rows[0], cs) then [rows[0]] + rest else rest
  }

  /** A statement as `cursor.execute(query, params)` receives it. */
  datatype Query = Query(sql: string, params: seq<string>)

  /**
   * `SELECT t.id, t.date, t.amount, c.name, t.type, t.description FROM
   * transactions t JOIN categories c ON t.category_id = c.id`, written in
   * pieces so that facts about its characters stay cheap to check.
   */
  const SelectJoined: string := SelectColumns + FromJoin
  const SelectColumns := "SELECT t.id, " + "t.date, " + "t.amount, " + "c.name, " + "t.type, " + "t.description "
  const FromJoin := "FROM " + "transactions t " + "JOIN " + "categories c " + "ON t.category_id " + "= c.id"

  function ConditionsSql(cs: seq<Condition>): string
    requires cs != []
  {
    if |cs| == 1 then ConditionSql(cs[0]) else ConditionSql(cs[0]) + (" AND " + ConditionsSql(cs[1..]))
  }

  function Params(cs: seq<Condition>): (ps: seq<string>)
    ensures |ps| == |cs| && forall i :: 0 <= i < |cs| ==> ps[i] == cs[i].value
  {
    if cs == [] then [] else [cs[0].value] + Params(cs[1..])
  }

  /** The statement for a list of conditions: the join, then ` WHERE ` and the conditions joined by ` AND `. */
  function Render(cs: seq<Condition>): Query
  {
    Query(SelectJoined + WhereClause(cs), Params(cs))
  }

  function WhereClause(cs: seq<Condition>): string
  {
    if cs == [] then "" else " WHERE " + ConditionsSql(cs)
  }

  predicate HasPrefix(t: string, p: string)
  {
    |p| <= |t| && t[..|p|] == p
  }

  /** Reads one condition off the front of `t`, bound to `p`; returns it with the text after it. */
  function ParseCondition(t: string, p: string): Option<(Condition, string)>
  {
    if HasPrefix(t, "t.type = ?") then Some((TypeIs(p), t[10..]))
    else if HasPrefix(t, "t.date >= ?") then Some((DateFrom(p), t[11..]))
    else if HasPrefix(t, "t.date < ?") then Some((DateBelow(p), t[10..]))
    else if HasPrefix(t, "t.date <= ?") then Some((DateUpTo(p), t[11..]))
    else None
  }

  function DecodeConditions(t: string, ps: seq<string>): Option<seq<Condition>>
    decreases |t|
  {
    if ps == [] then None
    else
      match ParseCondition(t, ps[0])
      case None => None
      case Some((c, after)) =>
        if after == [] then (if |ps| == 1 then Some([c]) else None)
        else if HasPrefix(after, " AND ") then
          match DecodeConditions(after[5..], ps[1..])
          case None => None
          case Some(rest) => Some([c] + rest)
        else None
  }

  /**
   * What SQLite makes of a statement of this shape: the conditions it
   * states, each `?` bound to the next parameter; `None` where SQLite would
   * raise an error (unknown text, or a parameter count that does not match).
   */
  function Decode(q: Query): Option<seq<Condition>>
  {
    if !HasPrefix(q.sql, SelectJoined) then None
    else
      var rest := q.sql[|SelectJoined|..];
      if rest == [] then (if q.params == [] then Some([]) else None)
      else if HasPrefix(rest, " WHERE ") then DecodeConditions(rest[7..], q.params)
      else None
  }

  lemma ParseConditionSql(c: Condition, rest: string)
    ensures ParseCondition(ConditionSql(c) + rest, c.value) == Some((c, rest))
  {
    var t := ConditionSql(c) + rest;
    assert t[..|ConditionSql(c)|] == ConditionSql(c);
    assert t[|ConditionSql(c)|..] == rest;
    match c
    case TypeIs(_) =>
    case DateFrom(_) =>
      assert t[2] == 'd';
    case DateBelow(_) =>
      assert t[2] == 'd' && t[7] == '<';
    case DateUpTo(_) =>
      assert t[2] == 'd' && t[7] == '<' && t[8] == '=';
  }

  lemma {:induction false} DecodeConditionsSql(cs: seq<Condition>)
    requires cs != []
    ensures DecodeConditions(ConditionsSql(cs), Params(cs)) == Some(cs)
  {
    if |cs| == 1 {
      assert Params(cs) == [cs[0].value] && cs == [cs[0]];
      DecodeOne(cs[0]);
    } else {
      DecodeConditionsSql(cs[1..]);
      DecodeAnd(cs[0], ConditionsSql(cs[1..]), Params(cs[1..]));
      assert Params(cs) == [cs[0].value] + Params(cs[1..]);
      assert cs == [cs[0]] + cs[1..];
    }
  }

  lemma DecodeOne(c: Condition)
    ensures DecodeConditions(ConditionSql(c), [c.value]) == Some([c])
  {
    ParseConditionSql(c, "");
    assert ConditionSql(c) + "" == ConditionSql(c);
  }

  /** A condition followed by ` AND ` reads as that condition in front of what the rest reads as. */
  lemma DecodeAnd(c: Condition, rest: string, ps: seq<string>)
    ensures DecodeConditions(ConditionSql(c) + (" AND " + rest), [c.value] + ps)
            == match DecodeConditions(rest, ps) case None => None case Some(r) => Some([c] + r)
  {
    var tail := " AND " + rest;
    ParseConditionSql(c, tail);
    assert tail[..5] == " AND " && tail[5..] == rest;
    assert ([c.value] + ps)[0] == c.value && ([c.value] + ps)[1..] == ps;
  }

  /** SQLite reads back from the statement exactly the conditions it was rendered from. */
  lemma DecodeRender(cs: seq<Condition>)
    ensures Decode(Render(cs)) == Some(cs)
  {
    var q := Render(cs);
    assert q.sql[..|SelectJoined|] == SelectJoined;
    if cs != [] {
      var rest := q.sql[|SelectJoined|..];
      assert rest == " WHERE " + ConditionsSql(cs);
      assert rest[..7] == " WHERE " && rest[7..] == ConditionsSql(cs);
      DecodeConditionsSql(cs);
    } else {
      assert q.sql[|SelectJoined|..] == [];
    }
  }

  /** Neither a placeholder nor the letter W occurs in `s`. */
  predicate Plain(s: string)
  {
    '?' !in s && 'W' !in s
  }

  lemma SelectJoinedPlain()
    ensures Plain(SelectJoined)
  {
    SelectColumnsPlain();
    FromJoinPlain();
  }

  lemma SelectColumnsPlain()
    ensures Plain(SelectColumns)
  {
    assert Plain("SELECT t.id, ");
    assert Plain("t.date, ");
    assert Plain("t.amount, ");
    assert Plain("c.name, ");
    assert Plain("t.type, ");
    assert Plain("t.description ");
  }

  lemma FromJoinPlain()
    ensures Plain(FromJoin)
  {
    assert Plain("FROM ");
    assert Plain("transactions t ");
    assert Plain("JOIN ");
    assert Plain("categories c ");
    assert Plain("ON t.category_id ");
    assert Plain("= c.id");
  }

  /** How many times `ch` occurs in `s`. */
  function Occurrences(s: string, ch: char): nat
  {
    if s == [] then 0 else (if s[0] == ch then 1 else 0) + Occurrences(s[1..], ch)
  }

  lemma {:induction false} OccurrencesAppend(a: string, b: string, ch: char)
    ensures Occurrences(a + b, ch) == Occurrences(a, ch) + Occurrences(b, ch)
  {
    if a != [] {
      OccurrencesAppend(a[1..], b, ch);
      assert (a + b)[1..] == a[1..] + b;
    } else {
      assert a + b == b;
    }
  }

  lemma {:induction false} OccurrencesAbsent(s: string, ch: char)
    requires ch !in s
    ensures Occurrences(s, ch) == 0
  {
    if s != [] {
      assert s == [s[0]] + s[1..];
      OccurrencesAbsent(s[1..], ch);
    }
  }

  lemma ConditionSqlCounts(c: Condition)
    ensures Occurrences(ConditionSql(c), '?') == 1 && Occurrences(ConditionSql(c), 'W') == 0
  {
    var s := ConditionSql(c);
    var body := s[..|s| - 1];
    assert s == body + "?";
    assert Plain(body) by {
      match c
      case TypeIs(_) => assert body == "t.type = ";
      case DateFrom(_) => assert body == "t.date >= ";
      case DateBelow(_) => assert body == "t.date < ";
      case DateUpTo(_) => assert body == "t.date <= ";
    }
    OccurrencesAppend(body, "?", '?');
    OccurrencesAppend(body, "?", 'W');
    OccurrencesAbsent(body, '?');
    OccurrencesAbsent(body, 'W');
  }

  lemma {:induction false} ConditionsSqlCounts(cs: seq<Condition>)
    requires cs != []
    ensures Occurrences(ConditionsSql(cs), '?') == |cs|
    ensures Occurrences(ConditionsSql(cs), 'W') == 0
  {
    ConditionSqlCounts(cs[0]);
    if |cs| > 1 {
      ConditionsSqlCounts(cs[1..]);
      assert Plain(" AND ");
      OccurrencesAbsent(" AND ", '?');
      OccurrencesAbsent(" AND ", 'W');
      OccurrencesAppend(" AND ", ConditionsSql(cs[1..]), '?');
      OccurrencesAppend(" AND ", ConditionsSql(cs[1..]), 'W');
      OccurrencesAppend(ConditionSql(cs[0]), " AND " + ConditionsSql(cs[1..]), '?');
      OccurrencesAppend(ConditionSql(cs[0]), " AND " + ConditionsSql(cs[1..]), 'W');
    }
  }

  /**
   * The statement carries exactly one `?` per parameter, and the letter W
   * only in the one ` WHERE ` it has when there is any condition at all.
   */
  lemma RenderCounts(cs: seq<Condition>)
    ensures Occurrences(Render(cs).sql, '?') == |Render(cs).params|
    ensures Occurrences(Render(cs).sql, 'W') == if cs == [] then 0 else 1
  {
    SelectJoinedPlain();
    OccurrencesAbsent(SelectJoined, '?');
    OccurrencesAbsent(SelectJoined, 'W');
    if cs != [] {
      ConditionsSqlCounts(cs);
      WhereCounts();
      OccurrencesAppend(" WHERE ", ConditionsSql(cs), '?');
      OccurrencesAppend(" WHERE ", ConditionsSql(cs), 'W');
      OccurrencesAppend(SelectJoined, " WHERE " + ConditionsSql(cs), '?');
      OccurrencesAppend(SelectJoined, " WHERE " + ConditionsSql(cs), 'W');
    } else {
      assert Render(cs).sql == SelectJoined + "" == SelectJoined;
    }
  }

  lemma WhereCounts()
    ensures Occurrences(" WHERE ", '?') == 0 && Occurrences(" WHERE ", 'W') == 1
  {
    assert " WHERE " == " " + "W" + "HERE " && Plain(" ") && Plain("HERE ");
    OccurrencesAbsent(" ", '?');
    OccurrencesAbsent(" ", 'W');
    OccurrencesAbsent("HERE ", '?');
    OccurrencesAbsent("HERE ", 'W');
    OccurrencesAppend(" ", "W", '?');
    OccurrencesAppend(" ", "W", 'W');
    OccurrencesAppend(" " + "W", "HERE ", '?');
    OccurrencesAppend(" " + "W", "HERE ", 'W');
  }

  /** What `cursor.execute(q)` followed by `fetchall()` returns; `None` where it raises sqlite3.Error. */
  function Execute(cats: seq<Category>, txs: seq<Transaction>, q: Query): Option<seq<Row>>
  {
    match Decode(q)
    case None => None
    case Some(cs) => Some(Where(Joined(cats, txs), cs))
  }

  // ---------------------------------------------------------------------------
  // The filters

  datatype QueryError =
    | MissingRange      // custom period without both dates (app.py:333-335)
    | DateOutOfRange    // the window end falls past year 9999 (OverflowError / ValueError)

  /** Python truthiness of an optional string: present and non-empty. */
  predicate Given(s: Option<string>)
  {
    s.Some? && s.value != ""
  }

  /** The date range a period filter stands for. */
  datatype Period =
    | AnyDate
    | HalfOpen(from: string, until: string)   // from <= date < until
    | Closed(from: string, to: string)        // from <= date <= to

  /**
   * The period for `filter_period`: this month's or this year's window as
   * formatted dates, the user's two dates, or no restriction for any other
   * value.
   */
  function PeriodOf(filterPeriod: string, startDate: Option<string>, endDate: Option<string>, today: Date)
    : Result<Period, QueryError>
    requires ValidDate(today)
  {
    if filterPeriod == "month" then
      match MonthWindow(today)
      case None => Err(DateOutOfRange)
      case Some((start, end)) => Ok(HalfOpen(Format(start), Format(end)))
    else if filterPeriod == "year" then
      match YearWindow(today)
      case None => Err(DateOutOfRange)
      case Some((start, end)) => Ok(HalfOpen(Format(start), Format(end)))
    else if filterPeriod == "custom" then
      if Given(startDate) && Given(endDate) then Ok(Closed(startDate.value, endDate.value)) else Err(MissingRange)
    else Ok(AnyDate)
  }

  function TypeConditions(filterType: string): seq<Condition>
  {
    if filterType != "all" then [TypeIs(filterType)] else []
  }

  /** The date conditions that state a period. */
  function PeriodConditions(p: Period): seq<Condition>
  {
    match p
    case AnyDate => []
    case HalfOpen(from, until) => [DateFrom(from), DateBelow(until)]
    case Closed(from, to) => [DateFrom(from), DateUpTo(to)]
  }

  /** The conditions `load_transactions` adds, in the order it adds them. */
  function Conditions(filterType: string, filterPeriod: string, startDate: Option<string>, endDate: Option<string>,
                      today: Date): Result<seq<Condition>, QueryError>
    requires ValidDate(today)
  {
    match PeriodOf(filterPeriod, startDate, endDate, today)
    case Err(e) => Err(e)
    case Ok(p) => Ok(TypeConditions(filterType) + PeriodConditions(p))
  }

  /** `from <= date < until` or `from <= date <= to` as TEXT. */
  predicate InPeriod(date: string, p: Period)
  {
    match p
    case AnyDate => true
    case HalfOpen(from, until) => !LexLess(date, from) && LexLess(date, until)
    case Closed(from, to) => !LexLess(date, from) && !LexLess(to, date)
  }

  /** The rows the filter is meant to show: the type matches unless it is `all`, and the date is in the period. */
  predicate Selected(filterType: string, p: Period, row: Row)
  {
    (filterType == "all" || row.kind == filterType) && InPeriod(row.date, p)
  }

  lemma SatisfiesAllConcat(row: Row, a: seq<Condition>, b: seq<Condition>)
    ensures SatisfiesAll(row, a + b) <==> SatisfiesAll(row, a) && SatisfiesAll(row, b)
  {
    if SatisfiesAll(row, a + b) {
      forall i | 0 <= i < |a| ensures Satisfies(row, a[i]) {
        assert (a + b)[i] == a[i];
      }
      forall i | 0 <= i < |b| ensures Satisfies(row, b[i]) {
        assert (a + b)[|a| + i] == b[i];
      }
    }
    if SatisfiesAll(row, a) && SatisfiesAll(row, b) {
      forall i | 0 <= i < |a + b| ensures Satisfies(row, (a + b)[i]) {
        if i < |a| {
          assert (a + b)[i] == a[i];
        } else {
          assert (a + b)[i] == b[i - |a|];
        }
      }
    }
  }

  lemma PeriodConditionsMeaning(row: Row, p: Period)
    ensures SatisfiesAll(row, PeriodConditions(p)) <==> InPeriod(row.date, p)
  {
    var ds := PeriodConditions(p);
    if ds != [] {
      assert SatisfiesAll(row, ds) <==> Satisfies(row, ds[0]) && Satisfies(row, ds[1]);
    }
  }

  /**
   * The WHERE conditions select exactly the rows of the chosen type and
   * period, and the filter fails exactly when the period cannot be formed.
   */
  lemma ConditionsMeaning(filterType: string, filterPeriod: string, startDate: Option<string>, endDate: Option<string>,
                          today: Date, row: Row)
    requires ValidDate(today)
    ensures var cs := Conditions(filterType, filterPeriod, startDate, endDate, today);
            var p := PeriodOf(filterPeriod, startDate, endDate, today);
            && (cs.Ok? <==> p.Ok?)
            && (cs.Err? ==> cs.error == p.error)
            && (cs.Ok? ==> (SatisfiesAll(row, cs.value) <==> Selected(filterType, p.value, row)))
  {
    var p := PeriodOf(filterPeriod, startDate, endDate, today);
    if p.Ok? {
      var byType := TypeConditions(filterType);
      if filterType != "all" {
        assert SatisfiesAll(row, byType) <==> Satisfies(row, byType[0]);
      }
      SatisfiesAllConcat(row, byType, PeriodConditions(p.value));
      PeriodConditionsMeaning(row, p.value);
    }
  }

  /** The text of `cs` rendered after a statement that already holds the conditions `done`. */
  function Continuation(done: seq<Condition>, cs: seq<Condition>): string
    requires cs != []
  {
    (if done == [] then " WHERE " else " AND ") + ConditionsSql(cs)
  }

  lemma {:induction false} ConditionsSqlAppend(cs: seq<Condition>, ds: seq<Condition>)
    requires cs != [] && ds != []
    ensures ConditionsSql(cs + ds) == ConditionsSql(cs) + " AND " + ConditionsSql(ds)
  {
    var all := cs + ds;
    assert all[0] == cs[0];
    if |cs| == 1 {
      assert all[1..] == ds;
    } else {
      assert all[1..] == cs[1..] + ds;
      ConditionsSqlAppend(cs[1..], ds);
      AndRegroup(ConditionSql(cs[0]), ConditionsSql(cs[1..]), ConditionsSql(ds));
    }
  }

  lemma AndRegroup(h: string, t: string, d: string)
    ensures h + (" AND " + (t + " AND " + d)) == h + (" AND " + t) + " AND " + d
  {
  }

  lemma {:induction false} ParamsAppend(cs: seq<Condition>, ds: seq<Condition>)
    ensures Params(cs + ds) == Params(cs) + Params(ds)
  {
    if cs == [] {
      assert cs + ds == ds;
    } else {
      assert (cs + ds)[1..] == cs[1..] + ds;
      ParamsAppend(cs[1..], ds);
    }
  }

  lemma WhereClauseAppend(done: seq<Condition>, cs: seq<Condition>)
    requires cs != []
    ensures WhereClause(done + cs) == WhereClause(done) + Continuation(done, cs)
  {
    if done == [] {
      assert done + cs == cs;
    } else {
      ConditionsSqlAppend(done, cs);
      WhereRegroup(ConditionsSql(done), ConditionsSql(cs));
    }
  }

  lemma WhereRegroup(a: string, c: string)
    ensures " WHERE " + (a + " AND " + c) == " WHERE " + a + (" AND " + c)
  {
  }

  /** Rendering more conditions extends the statement text and the parameters. */
  lemma RenderAppend(done: seq<Condition>, cs: seq<Condition>)
    requires cs != []
    ensures Render(done + cs).sql == Render(done).sql + Continuation(done, cs)
    ensures Render(done + cs).params == Render(done).params + Params(cs)
  {
    WhereClauseAppend(done, cs);
    assert SelectJoined + (WhereClause(done) + Continuation(done, cs))
           == (SelectJoined + WhereClause(done)) + Continuation(done, cs);
    ParamsAppend(done, cs);
  }

  lemma PairSql(x: Condition, y: Condition)
    ensures ConditionsSql([x, y]) == ConditionSql(x) + (" AND " + ConditionSql(y))
  {
    assert [x, y][1..] == [y];
  }

  lemma TypeClauseText(k: string)
    ensures " WHERE t.type = ?" == Continuation([], [TypeIs(k)])
  {
    assert " WHERE t.type = ?" == " WHERE " + "t.type = ?";
  }

  lemma HalfOpenClauseText(done: seq<Condition>, f: string, u: string)
    ensures (if done == [] then " WHERE t.date >= ? AND t.date < ?" else " AND t.date >= ? AND t.date < ?")
            == Continuation(done, [DateFrom(f), DateBelow(u)])
  {
    PairSql(DateFrom(f), DateBelow(u));
    if done == [] {
      WhereHalfOpenText();
    } else {
      AndHalfOpenText();
    }
  }

  lemma ClosedClauseText(done: seq<Condition>, f: string, t: string)
    ensures (if done == [] then " WHERE t.date >= ? AND t.date <= ?" else " AND t.date >= ? AND t.date <= ?")
            == Continuation(done, [DateFrom(f), DateUpTo(t)])
  {
    PairSql(DateFrom(f), DateUpTo(t));
    if done == [] {
      WhereClosedText();
    } else {
      AndClosedText();
    }
  }

  lemma WhereHalfOpenText()
    ensures " WHERE t.date >= ? AND t.date < ?" == " WHERE " + ("t.date >= ?" + (" AND " + "t.date < ?"))
  {
  }

  lemma AndHalfOpenText()
    ensures " AND t.date >= ? AND t.date < ?" == " AND " + ("t.date >= ?" + (" AND " + "t.date < ?"))
  {
  }

  lemma WhereClosedText()
    ensures " WHERE t.date >= ? AND t.date <= ?" == " WHERE " + ("t.date >= ?" + (" AND " + "t.date <= ?"))
  {
  }

  lemma AndClosedText()
    ensures " AND t.date >= ? AND t.date <= ?" == " AND " + ("t.date >= ?" + (" AND " + "t.date <= ?"))
  {
  }

  /** Appending the half-open window's text and values to the statement for `done`. */
  lemma HalfOpenStep(done: seq<Condition>, start: string, end: string, query: string, params: seq<string>)
    requires query == Render(done).sql && params == Render(done).params
    ensures Built(query + (if done == [] then " WHERE t.date >= ? AND t.date < ?" else " AND t.date >= ? AND t.date < ?"),
                  params + [start, end], done, HalfOpen(start, end))
  {
    HalfOpenClauseText(done, start, end);
    RenderAppend(done, [DateFrom(start), DateBelow(end)]);
  }

  /** Appending the closed range's text and values to the statement for `done`. */
  lemma ClosedStep(done: seq<Condition>, from: string, to: string, query: string, params: seq<string>)
    requires query == Render(done).sql && params == Render(done).params
    ensures Built(query + (if done == [] then " WHERE t.date >= ? AND t.date <= ?" else " AND t.date >= ? AND t.date <= ?"),
                  params + [from, to], done, Closed(from, to))
  {
    ClosedClauseText(done, from, to);
    RenderAppend(done, [DateFrom(from), DateUpTo(to)]);
  }

  /** `query` and `params` are the rendering of `done` followed by the conditions of `period`. */
  ghost predicate Built(query: string, params: seq<string>, done: seq<Condition>, period: Period)
  {
    Render(done + PeriodConditions(period)) == Query(query, params)
  }

  /**
   * The statement built for the filters: the rendering of the filter's
   * conditions, or the reason none is run.
   */
  method BuildQuery(filterType: string, filterPeriod: string, startDate: Option<string>, endDate: Option<string>,
                    today: Date) returns (r: Result<Query, QueryError>)
    requires ValidDate(today)
    ensures var cs := Conditions(filterType, filterPeriod, startDate, endDate, today);
            r == if cs.Ok? then Ok(Render(cs.value)) else Err(cs.error)
  {
    var query := SelectJoined;
    var params: seq<string> := [];
    assert SelectJoined + "" == SelectJoined;

    if filterType != "all" {
      TypeClauseText(filterType);
      RenderAppend([], [TypeIs(filterType)]);
      query := query + " WHERE t.type = ?";
      params := params + [filterType];
    }

    r := AddPeriod(query, params, filterType, filterPeriod, startDate, endDate, today);
  }

  /**
   * The second half of the builder: the period's text and values appended
   * to the statement that already holds the type condition, or the reason
   * no statement is run.
   */
  method AddPeriod(query0: string, params0: seq<string>, filterType: string, filterPeriod: string,
                   startDate: Option<string>, endDate: Option<string>, today: Date) returns (r: Result<Query, QueryError>)
    requires ValidDate(today)
    requires Render(TypeConditions(filterType)) == Query(query0, params0)
    ensures r == match PeriodOf(filterPeriod, startDate, endDate, today)
                 case Err(e) => Err(e)
                 case Ok(p) => Ok(Render(TypeConditions(filterType) + PeriodConditions(p)))
  {
    if filterPeriod == "month" {
      r := AddWindow(query0, params0, filterType, MonthWindow(today));
    } else if filterPeriod == "year" {
      r := AddWindow(query0, params0, filterType, YearWindow(today));
    } else if filterPeriod == "custom" {
      if Given(startDate) && Given(endDate) {
        r := AddRange(query0, params0, filterType, startDate.value, endDate.value);
      } else {
        r := Err(MissingRange);
      }
    } else {
      assert TypeConditions(filterType) + [] == TypeConditions(filterType);
      r := Ok(Query(query0, params0));
    }
  }

  /** The `custom` branch with both dates given: the closed range appended. */
  method AddRange(query0: string, params0: seq<string>, filterType: string, startDate: string, endDate: string)
    returns (r: Result<Query, QueryError>)
    requires Render(TypeConditions(filterType)) == Query(query0, params0)
    ensures r == Ok(Render(TypeConditions(filterType) + PeriodConditions(Closed(startDate, endDate))))
  {
    var query, params := query0, params0;
    ClosedStep(TypeConditions(filterType), startDate, endDate, query, params);
    if filterType != "all" {
      query := query + " AND t.date >= ? AND t.date <= ?";
    } else {
      query := query + " WHERE t.date >= ? AND t.date <= ?";
    }
    params := params + [startDate, endDate];
    r := Ok(Query(query, params));
  }

  /**
   * The `month` and `year` branches, which differ only in the window: the
   * window's bounds formatted and appended as a half-open range; the error
   * `datetime` raises when the window cannot be formed.
   */
  method AddWindow(query0: string, params0: seq<string>, filterType: string, window: Option<(Date, Date)>)
    returns (r: Result<Query, QueryError>)
    requires window.Some? ==> ValidDate(window.value.0) && ValidDate(window.value.1)
    requires Render(TypeConditions(filterType)) == Query(query0, params0)
    ensures window.None? ==> r == Err(DateOutOfRange)
    ensures window.Some? ==>
              r == Ok(Render(TypeConditions(filterType) +
                             PeriodConditions(HalfOpen(Format(window.value.0), Format(window.value.1)))))
  {
    if window.None? {
      return Err(DateOutOfRange);
    }
    var query, params := query0, params0;
    var start, end := Format(window.value.0), Format(window.value.1);
    HalfOpenStep(TypeConditions(filterType), start, end, query, params);
    if filterType != "all" {
      query := query + " AND t.date >= ? AND t.date < ?";
    } else {
      query := query + " WHERE t.date >= ? AND t.date < ?";
    }
    params := params + [start, end];
    r := Ok(Query(query, params));
  }

  // ---------------------------------------------------------------------------
  // What the text comparisons mean on dates

  /** On formatted dates, `start <= date < end` as TEXT is the calendar comparison. */
  lemma HalfOpenOnDates(d: Date, start: Date, end: Date)
    requires ValidDate(d) && ValidDate(start) && ValidDate(end)
    ensures InPeriod(Format(d), HalfOpen(Format(start), Format(end))) <==> !Before(d, start) && Before(d, end)
  {
    FormatOrder(d, start);
    FormatOrder(d, end);
  }

  /** On formatted dates, `start <= date <= end` as TEXT is the calendar comparison. */
  lemma ClosedOnDates(d: Date, start: Date, end: Date)
    requires ValidDate(d) && ValidDate(start) && ValidDate(end)
    ensures InPeriod(Format(d), Closed(Format(start), Format(end))) <==> !Before(d, start) && !Before(end, d)
  {
    FormatOrder(d, start);
    FormatOrder(end, d);
  }

  /**
   * The `year` filter shows exactly the dates of today's year, and fails
   * only in year 9999, whose successor `datetime` cannot represent.
   */
  lemma YearFilterIsThisYear(today: Date, d: Date, startDate: Option<string>, endDate: Option<string>)
    requires ValidDate(today) && ValidDate(d)
    ensures var p := PeriodOf("year", startDate, endDate, today);
            && (p.Err? <==> today.year == MaxYear)
            && (p.Ok? ==> (InPeriod(Format(d), p.value) <==> d.year == today.year))
  {
    var w := YearWindow(today);
    if w.Some? {
      HalfOpenOnDates(d, w.value.0, w.value.1);
    }
  }

  /** A valid date lies in `[y-m-01, first of the next month)` exactly when it is in month `m` of year `y`. */
  lemma CalendarMonthBounds(d: Date, y: int, m: int)
    requires ValidDate(d) && 1 <= m <= 12
    ensures !Before(d, Date(y, m, 1)) && Before(d, FirstOfNextMonth(y, m)) <==> d.year == y && d.month == m
  {
  }

  /** Up to the 27th the `month` filter shows exactly the dates of today's calendar month. */
  lemma MonthFilterEarlyIsThisMonth(today: Date, d: Date, startDate: Option<string>, endDate: Option<string>)
    requires ValidDate(today) && ValidDate(d) && today.day <= 27
    requires PeriodOf("month", startDate, endDate, today).Ok?
    ensures InPeriod(Format(d), PeriodOf("month", startDate, endDate, today).value) <==>
            d.year == today.year && d.month == today.month
  {
    MonthWindowIsCalendarMonthEarly(today);
    var start, end := Date(today.year, today.month, 1), FirstOfNextMonth(today.year, today.month);
    assert PeriodOf("month", startDate, endDate, today).value == HalfOpen(Format(start), Format(end));
    HalfOpenOnDates(d, start, end);
    CalendarMonthBounds(d, today.year, today.month);
  }

  /**
   * Late in a month, when `today.day + 32` runs past the end of the next
   * month, the `month` filter also shows every date of the next month.
   */
  lemma MonthFilterLateTakesNextMonth(today: Date, d: Date, startDate: Option<string>, endDate: Option<string>)
    requires ValidDate(today) && ValidDate(d)
    requires PeriodOf("month", startDate, endDate, today).Ok?
    requires var next := FirstOfNextMonth(today.year, today.month);
             today.day + 32 > DaysInMonth(today.year, today.month) + DaysInMonth(next.year, next.month)
    requires d.year == FirstOfNextMonth(today.year, today.month).year && d.month == FirstOfNextMonth(today.year, today.month).month
    ensures InPeriod(Format(d), PeriodOf("month", startDate, endDate, today).value)
  {
    MonthWindowEnd(today);
    var w := MonthWindow(today);
    HalfOpenOnDates(d, w.value.0, w.value.1);
  }

  /** On 31 January 2023 the `month` filter shows 15 February 2023. */
  lemma MonthFilterOnJanuary31ShowsFebruary()
    ensures PeriodOf("month", None, None, Date(2023, 1, 31)).Ok?
    ensures InPeriod(Format(Date(2023, 2, 15)), PeriodOf("month", None, None, Date(2023, 1, 31)).value)
  {
    MonthWindowOnJanuary31();
    HalfOpenOnDates(Date(2023, 2, 15), Date(2023, 1, 1), Date(2023, 3, 1));
  }

  /**
   * A date stored with its month unpadded, `2024-1-5` (which strptime
   * accepts), is not shown by the `month` filter on any day of January
   * 2024 up to the 27th: as TEXT it sorts after the window's end
   * `2024-02-01`.
   */
  lemma UnpaddedDateMissesMonthFilter(today: Date)
    requires ValidDate(today) && today.year == 2024 && today.month == 1 && today.day <= 27
    ensures PeriodOf("month", None, None, today).Ok?
    ensures !InPeriod("2024-1-5", PeriodOf("month", None, None, today).value)
  {
    AddDays32(today);
    var w := MonthWindow(today).value;
    MonthWindowIsCalendarMonthEarly(today);
    FebruaryFirst2024(w.1);
    UnpaddedSortsAfter();
  }

  /**
   * Only the month's missing zero puts a date past the window: `2024-01-5`,
   * with the day unpadded, which strptime accepts too, is shown by the
   * same filters, since as TEXT it lies between `2024-01-01` and
   * `2024-02-01`.
   */
  lemma UnpaddedDayIsShown(today: Date)
    requires ValidDate(today) && today.year == 2024 && today.month == 1 && today.day <= 27
    ensures PeriodOf("month", None, None, today).Ok?
    ensures InPeriod("2024-01-5", PeriodOf("month", None, None, today).value)
  {
    AddDays32(today);
    var w := MonthWindow(today).value;
    MonthWindowIsCalendarMonthEarly(today);
    JanuaryFirst2024(w.0);
    FebruaryFirst2024(w.1);
    UnpaddedDayBetween();
  }

  lemma JanuaryFirst2024(d: Date)
    requires d == Date(2024, 1, 1)
    ensures Format(d) == "2024-01-01"
  {
    FormatChars(d);
    assert d.year / 1000 == 2 && d.year / 100 % 10 == 0 && d.year / 10 % 10 == 2 && d.year % 10 == 4;
    assert d.month / 10 == 0 && d.month % 10 == 1 && d.day / 10 == 0 && d.day % 10 == 1;
  }

  /** As TEXT `2024-01-01` <= `2024-01-5` < `2024-02-01`. */
  lemma UnpaddedDayBetween()
    ensures !LexLess("2024-01-5", "2024-01-01") && LexLess("2024-01-5", "2024-02-01")
  {
    assert "2024-01-5" == "2024-01-" + "5" && "2024-01-01" == "2024-01-" + "01";
    LexConcat("2024-01-", "5", "2024-01-", "01");
    LexIrreflexive("2024-01-");
    assert "2024-01-5" == "2024-0" + "1-5" && "2024-02-01" == "2024-0" + "2-01";
    LexConcat("2024-0", "1-5", "2024-0", "2-01");
    LexIrreflexive("2024-0");
  }

  lemma FebruaryFirst2024(d: Date)
    requires d == Date(2024, 2, 1)
    ensures Format(d) == "2024-02-01"
  {
    FormatChars(d);
    assert d.year / 1000 == 2 && d.year / 100 % 10 == 0 && d.year / 10 % 10 == 2 && d.year % 10 == 4;
    assert d.month / 10 == 0 && d.month % 10 == 2 && d.day / 10 == 0 && d.day % 10 == 1;
  }

  /** As TEXT `2024-1-5` sorts after `2024-02-01`: at the sixth character `1` exceeds `0`. */
  lemma UnpaddedSortsAfter()
    ensures !LexLess("2024-1-5", "2024-02-01")
  {
    assert "2024-1-5" == "2024-" + "1-5" && "2024-02-01" == "2024-" + "02-01";
    LexConcat("2024-", "1-5", "2024-", "02-01");
    LexIrreflexive("2024-");
  }

  // ---------------------------------------------------------------------------
  // What the listing shows

  /** The rows of `rows` the filter is meant to show, in their order. */
  function Shown(rows: seq<Row>, filterType: string, p: Period): (r: seq<Row>)
    ensures forall row :: row in r <==> row in rows && Selected(filterType, p, row)
  {
    if rows == [] then []
    else
      var rest := Shown(rows[1..], filterType, p);
      assert rows == [rows[0]] + rows[1..];
      if Selected(filterType, p, rows[0]) then [rows[0]] + rest else rest
  }

  /** Filtering rows appended at the end appends their filtered rows. */
  lemma {:induction false} ShownAppend(rows: seq<Row>, more: seq<Row>, filterType: string, p: Period)
    ensures Shown(rows + more, filterType, p) == Shown(rows, filterType, p) + Shown(more, filterType, p)
  {
    if rows == [] {
      assert rows + more == more;
    } else {
      assert (rows + more)[1..] == rows[1..] + more;
      ShownAppend(rows[1..], more, filterType, p);
    }
  }

  /**
   * With category ids unique, a transaction appended under an existing
   * category adds at most its one row to a filtered join, at the end.
   */
  lemma ShownJoinedAppend(cats: seq<Category>, last: int, txs: seq<Transaction>, t: Transaction, i: int,
                          filterType: string, p: Period)
    requires CategoriesWellFormed(cats, last)
    requires 0 <= i < |cats| && cats[i].id == t.categoryId
    ensures Shown(Joined(cats, txs + [t]), filterType, p)
            == Shown(Joined(cats, txs), filterType, p)
               + if Selected(filterType, p, RowOf(t, cats[i])) then [RowOf(t, cats[i])] else []
  {
    forall k | 0 <= k < |cats| && k != i
      ensures cats[k].id != t.categoryId
    {
      if k < i { assert cats[k].id < cats[i].id; } else { assert cats[i].id < cats[k].id; }
    }
    JoinOneOnly(cats, t, i);
    JoinedAppend(cats, txs, t);
    ShownAppend(Joined(cats, txs), [RowOf(t, cats[i])], filterType, p);
    assert [RowOf(t, cats[i])][1..] == [];
  }

  /**
   * The listing the filters ask for: the joined rows of the selected type
   * within the period, in table order, or the reason there is none.
   */
  function Filtered(cats: seq<Category>, txs: seq<Transaction>, filterType: string, filterPeriod: string,
                    startDate: Option<string>, endDate: Option<string>, today: Date): Result<seq<Row>, QueryError>
    requires ValidDate(today)
  {
    match PeriodOf(filterPeriod, startDate, endDate, today)
    case Err(e) => Err(e)
    case Ok(p) => Ok(Shown(Joined(cats, txs), filterType, p))
  }

  /** The SQL conditions keep exactly the rows the filter means, one row at a time, so in the same order. */
  lemma {:induction false} WhereIsShown(rows: seq<Row>, filterType: string, filterPeriod: string,
                                        startDate: Option<string>, endDate: Option<string>, today: Date)
    requires ValidDate(today) && PeriodOf(filterPeriod, startDate, endDate, today).Ok?
    ensures Conditions(filterType, filterPeriod, startDate, endDate, today).Ok?
    ensures Where(rows, Conditions(filterType, filterPeriod, startDate, endDate, today).value)
            == Shown(rows, filterType, PeriodOf(filterPeriod, startDate, endDate, today).value)
  {
    if rows == [] {
      assert Conditions(filterType, filterPeriod, startDate, endDate, today).Ok?;
    } else {
      ConditionsMeaning(filterType, filterPeriod, startDate, endDate, today, rows[0]);
      WhereIsShown(rows[1..], filterType, filterPeriod, startDate, endDate, today);
    }
  }

  /**
   * Running the statement the builder renders lists exactly the rows the
   * filter asks for; a filter with no statement reports why.
   */
  lemma ExecuteFilter(cats: seq<Category>, txs: seq<Transaction>, filterType: string, filterPeriod: string,
                      startDate: Option<string>, endDate: Option<string>, today: Date)
    requires ValidDate(today)
    ensures var cs := Conditions(filterType, filterPeriod, startDate, endDate, today);
            var f := Filtered(cats, txs, filterType, filterPeriod, startDate, endDate, today);
            && (cs.Ok? <==> f.Ok?)
            && (cs.Err? ==> f == Err(cs.error))
            && (cs.Ok? ==> Execute(cats, txs, Render(cs.value)) == Some(f.value))
  {
    ConditionsMeaning(filterType, filterPeriod, startDate, endDate, today, Row(0, "", 0.0, "", "", ""));
    var cs := Conditions(filterType, filterPeriod, startDate, endDate, today);
    if cs.Ok? {
      DecodeRender(cs.value);
      WhereIsShown(Joined(cats, txs), filterType, filterPeriod, startDate, endDate, today);
    }
  }

  /** A listed row is a transaction joined to its category, of the selected type and within the period. */
  lemma FilteredMembers(cats: seq<Category>, txs: seq<Transaction>, filterType: string, filterPeriod: string,
                        startDate: Option<string>, endDate: Option<string>, today: Date, row: Row)
    requires ValidDate(today) && PeriodOf(filterPeriod, startDate, endDate, today).Ok?
    ensures var p := PeriodOf(filterPeriod, startDate, endDate, today).value;
            row in Filtered(cats, txs, filterType, filterPeriod, startDate, endDate, today).value
            <==> && (exists t, c :: t in txs && c in cats && c.id == t.categoryId && row == RowOf(t, c))
                 && (filterType == "all" || row.kind == filterType)
                 && InPeriod(row.date, p)
  {
    JoinedMembers(cats, txs);
  }
}
