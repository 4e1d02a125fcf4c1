/** The neutral query language of the repository port, its translation to TypeORM's, and what each of
    them means on rows with NULLs. */
module QueryTranslation {
  import opened OrderedMap
  import opened Results

  /** A column value; `Null` is JavaScript's `null` and SQL's NULL. */
  datatype Value = Null | Int(n: int) | Str(s: string)

  type Row = map<string, Value>

  function Cell(row: Row, column: string): Value {
    if column in row then row[column] else Null
  }

  // ----- the neutral language -----

  /** What a caller can put behind a key of a `WhereFilter`. */
  datatype Filter = Undefined | Is(value: Value) | AnyOf(values: seq<Value>)

  type Where = seq<Entry<Filter>>

  datatype Direction = Unspecified | Asc | Desc

  type OrderBy = seq<Entry<Direction>>

  datatype Criteria = Criteria(select: Option<seq<string>>, orderBy: Option<OrderBy>, filter: Option<Where>,
                               skip: Option<nat>, take: Option<nat>)

  /** The documented reading: an array means IN and never matches NULL, `null` means IS NULL. */
  predicate Holds(f: Filter, cell: Value) {
    match f
    case Undefined => true
    case Is(v) => cell == v
    case AnyOf(vs) => cell != Null && cell in vs
  }

  predicate Matches(w: Where, row: Row) {
    forall i :: 0 <= i < |w| ==> Holds(w[i].value, Cell(row, w[i].key))
  }

  /** Filters that the adapter accepts: no value is `undefined`. */
  predicate Defined(w: Where) {
    forall i :: 0 <= i < |w| ==> w[i].value != Undefined
  }

  /** The rows the caller asked for, in table order. */
  function Asked(w: Option<Where>, rows: seq<Row>): seq<Row> {
    if rows == [] then []
    else (if w.None? || Matches(w.value, rows[0]) then [rows[0]] else []) + Asked(w, rows[1..])
  }

  /** The two cells agree on this key. */
  predicate Tie(order: OrderBy, k: nat, a: Row, b: Row, compare: (Value, Value) -> int)
    requires k < |order|
  {
    compare(Cell(a, order[k].key), Cell(b, order[k].key)) == 0
  }

  predicate Placed(order: OrderBy, k: nat, a: Row, b: Row, compare: (Value, Value) -> int)
    requires k < |order|
  {
    var c := compare(Cell(a, order[k].key), Cell(b, order[k].key));
    match order[k].value
    case Unspecified => true
    case Asc => c <= 0
    case Desc => c >= 0
  }

  /** `a` may come before `b`: on every specified key whose earlier specified keys all tie, it is not on
      the wrong side. */
  predicate Precedes(order: OrderBy, a: Row, b: Row, compare: (Value, Value) -> int) {
    forall k ::
      0 <= k < |order| && (forall j :: 0 <= j < k ==> order[j].value == Unspecified || Tie(order, j, a, b, compare)) ==>
        Placed(order, k, a, b, compare)
  }

  // ----- TypeORM's language -----

  /** What TypeORM finds behind a key: a plain value, or an operator. */
  datatype Operand = PlainUndefined | Plain(value: Value) | IsNull | In(values: seq<Value>)

  datatype Truth = True | False | Unknown

  function And(a: Truth, b: Truth): Truth {
    if a == False || b == False then False else if a == True && b == True then True else Unknown
  }

  function Or(a: Truth, b: Truth): Truth {
    if a == True || b == True then True else if a == False && b == False then False else Unknown
  }

  /** SQL's `=`: unknown as soon as one side is NULL. */
  function SqlEquals(a: Value, b: Value): Truth {
    if a == Null || b == Null then Unknown else if a == b then True else False
  }

  /** SQL's IN, which is a disjunction of equalities; an empty list is false. */
  function SqlIn(cell: Value, values: seq<Value>): Truth {
    if values == [] then False else Or(SqlEquals(cell, values[0]), SqlIn(cell, values[1..]))
  }

  /** TypeORM leaves a plain `null` or `undefined` out of the WHERE clause. */
  function Eval(op: Operand, cell: Value): Truth {
    match op
    case PlainUndefined => True
    case Plain(v) => if v == Null then True else SqlEquals(cell, v)
    case IsNull => if cell == Null then True else False
    case In(vs) => SqlIn(cell, vs)
  }

  function EvalAll(w: seq<Entry<Operand>>, row: Row): Truth {
    if w == [] then True else And(Eval(w[0].value, Cell(row, w[0].key)), EvalAll(w[1..], row))
  }

  /** The rows that a SELECT with this WHERE clause returns, in table order. */
  function Fetched(w: Option<seq<Entry<Operand>>>, rows: seq<Row>): seq<Row> {
    if rows == [] then []
    else (if w.None? || EvalAll(w.value, rows[0]) == True then [rows[0]] else []) + Fetched(w, rows[1..])
  }

  datatype SqlDirection = ASC | DESC

  /** ORDER BY: the first column that differs decides. */
  function Compare(order: seq<Entry<SqlDirection>>, a: Row, b: Row, compare: (Value, Value) -> int): int {
    if order == [] then 0
    else
      var c := compare(Cell(a, order[0].key), Cell(b, order[0].key));
      if c != 0 then (if order[0].value == ASC then c else -c) else Compare(order[1..], a, b, compare)
  }

  datatype Options = Options(select: Option<seq<string>>, order: Option<seq<Entry<SqlDirection>>>,
                             filter: Option<seq<Entry<Operand>>>,
                             skip: Option<nat>, take: Option<nat>)

  // ----- the translation -----

  datatype Operation = FindOne | FindMany | Count | Update | Remove

  datatype ContractError = UndefinedValue(operation: Operation, key: string) | EmptyWhere(operation: Operation)

  function Translate(f: Filter): Operand {
    match f
    case Undefined => PlainUndefined
    case Is(v) => if v == Null then IsNull else Plain(v)
    case AnyOf(vs) => In(vs)
  }

  function Translated(w: Where): seq<Entry<Operand>> {
    seq(|w|, i requires 0 <= i < |w| => Entry(w[i].key, Translate(w[i].value)))
  }

  /** The first key whose value is `undefined`, as an index. */
  function FirstUndefined(w: Where): nat {
    if w == [] then 0 else if w[0].value == Undefined then 0 else 1 + FirstUndefined(w[1..])
  }

  lemma {:induction false} FirstUndefinedIs(w: Where)
    ensures FirstUndefined(w) <= |w| && (FirstUndefined(w) < |w| <==> !Defined(w))
    ensures FirstUndefined(w) < |w| ==> w[FirstUndefined(w)].value == Undefined
    ensures forall j :: 0 <= j < FirstUndefined(w) ==> w[j].value != Undefined
  {
    if w != [] && w[0].value != Undefined {
      FirstUndefinedIs(w[1..]);
      assert forall j :: 0 < j < |w| ==> w[j] == w[1..][j - 1];
    }
  }

  function WhereFor(w: Where, operation: Operation): Result<seq<Entry<Operand>>, ContractError> {
    FirstUndefinedIs(w);
    if Defined(w) then Success(Translated(w)) else Failure(UndefinedValue(operation, w[FirstUndefined(w)].key))
  }

  /** `toWhere`: fills a fresh object key by key, and stops at the first `undefined`. */
  method ToWhere(w: Where, operation: Operation) returns (r: Result<seq<Entry<Operand>>, ContractError>)
    requires Unique(w)
    ensures r == WhereFor(w, operation)
  {
    var result: seq<Entry<Operand>> := [];
    for i := 0 to |w|
      invariant result == Translated(w[..i]) && Defined(w[..i])
    {
      var key, value := w[i].key, w[i].value;
      if value == Undefined {
        FirstUndefinedIs(w);
        return Failure(UndefinedValue(operation, key));
      }
      NewKey(w, i);
      assert w[..i + 1] == w[..i] + [w[i]];
      if value == Is(Null) {
        result := Put(result, key, IsNull);
        continue;
      }
      result := Put(result, key, if value.AnyOf? then In(value.values) else Plain(value.value));
    }
    assert w[..|w|] == w;
    return Success(result);
  }

  lemma NewKey(w: Where, i: nat)
    requires Unique(w) && i < |w|
    ensures !Has(Translated(w[..i]), w[i].key)
  {
    assert forall j :: 0 <= j < i ==> Translated(w[..i])[j].key == w[j].key;
  }

  function OrderFor(order: OrderBy): seq<Entry<SqlDirection>> {
    if order == [] then []
    else if order[0].value == Unspecified then OrderFor(order[1..])
    else [Entry(order[0].key, if order[0].value == Desc then DESC else ASC)] + OrderFor(order[1..])
  }

  // ----- the translation preserves meaning -----

  lemma {:induction false} InMeansAny(cell: Value, values: seq<Value>)
    ensures SqlIn(cell, values) == True <==> cell != Null && cell in values
  {
    if values != [] {
      InMeansAny(cell, values[1..]);
      assert values == [values[0]] + values[1..];
    }
  }

  lemma FilterMeaning(f: Filter, cell: Value)
    requires f != Undefined
    ensures Eval(Translate(f), cell) == True <==> Holds(f, cell)
  {
    if f.AnyOf? {
      InMeansAny(cell, f.values);
    }
  }

  /** On every row, also with NULLs, the translated WHERE clause is true exactly when the neutral filter
      matches. */
  lemma {:induction false} WhereMeaning(w: Where, row: Row)
    requires Defined(w)
    ensures EvalAll(Translated(w), row) == True <==> Matches(w, row)
  {
    if w != [] {
      FilterMeaning(w[0].value, Cell(row, w[0].key));
      assert Translated(w)[1..] == Translated(w[1..]);
      WhereMeaning(w[1..], row);
      assert forall i :: 0 < i < |w| ==> w[i] == w[1..][i - 1];
      assert Matches(w, row) <==> Holds(w[0].value, Cell(row, w[0].key)) && Matches(w[1..], row);
    }
  }

  /** Passed through as it is, a `null` would match every row instead of the NULLs. */
  lemma PlainNullMatchesEverything(row: Row, column: string, n: int)
    requires Cell(row, column) == Int(n)
    ensures EvalAll([Entry(column, Plain(Null))], row) == True && !Matches([Entry(column, Is(Null))], row)
    ensures EvalAll(Translated([Entry(column, Is(Null))]), row) != True
  {
    WhereMeaning([Entry(column, Is(Null))], row);
    assert [Entry(column, Plain(Null))][1..] == [];
    assert [Entry(column, Is(Null))][0].key == column;
  }

  lemma {:induction false} SameRows(w: Option<Where>, rows: seq<Row>)
    requires w.Some? ==> Defined(w.value)
    ensures Fetched(if w.None? then None else Some(Translated(w.value)), rows) == Asked(w, rows)
  {
    if rows != [] {
      SameRows(w, rows[1..]);
      if w.Some? {
        WhereMeaning(w.value, rows[0]);
      }
    }
  }

  lemma PrecedesStep(order: OrderBy, a: Row, b: Row, compare: (Value, Value) -> int)
    requires order != []
    ensures Precedes(order, a, b, compare) <==>
              Placed(order, 0, a, b, compare)
              && ((order[0].value == Unspecified || Tie(order, 0, a, b, compare)) ==>
                  Precedes(order[1..], a, b, compare))
  {
    var rest := order[1..];
    assert forall k :: 0 < k < |order| ==> order[k] == rest[k - 1];
    if Precedes(order, a, b, compare) {
      if order[0].value == Unspecified || Tie(order, 0, a, b, compare) {
        forall k | 0 <= k < |rest|
                   && (forall j :: 0 <= j < k ==> rest[j].value == Unspecified || Tie(rest, j, a, b, compare))
          ensures Placed(rest, k, a, b, compare)
        {
          forall j | 0 <= j < k + 1 ensures order[j].value == Unspecified || Tie(order, j, a, b, compare) {
            if j > 0 { assert rest[j - 1].value == Unspecified || Tie(rest, j - 1, a, b, compare); }
          }
          assert Placed(order, k + 1, a, b, compare);
        }
      }
    } else {
      var k :| 0 <= k < |order|
          && (forall j :: 0 <= j < k ==> order[j].value == Unspecified || Tie(order, j, a, b, compare))
          && !Placed(order, k, a, b, compare);
      if k > 0 {
        assert order[0].value == Unspecified || Tie(order, 0, a, b, compare);
        forall j | 0 <= j < k - 1 ensures rest[j].value == Unspecified || Tie(rest, j, a, b, compare) {
          assert order[j + 1].value == Unspecified || Tie(order, j + 1, a, b, compare);
        }
        assert !Placed(rest, k - 1, a, b, compare);
      }
    }
  }

  /** ORDER BY in key order ranks two rows as the neutral `orderBy` does, whatever the collation and
      wherever the database puts NULLs. */
  lemma {:induction false} OrderMeaning(order: OrderBy, a: Row, b: Row, compare: (Value, Value) -> int)
    ensures Compare(OrderFor(order), a, b, compare) <= 0 <==> Precedes(order, a, b, compare)
  {
    if order != [] {
      PrecedesStep(order, a, b, compare);
      OrderMeaning(order[1..], a, b, compare);
      if order[0].value != Unspecified {
        assert OrderFor(order)[1..] == OrderFor(order[1..]);
      }
    }
  }

  // ----- whole queries -----

  /** Some rows and some columns of them, skipping and taking. */
  function Page(rows: seq<Row>, skip: Option<nat>, take: Option<nat>): seq<Row> {
    var from := if skip.None? then rows else if skip.value <= |rows| then rows[skip.value..] else [];
    if take.None? || |from| <= take.value then from else from[..take.value]
  }

  /** The requested columns; without a request, every column but those marked `select: false`. */
  function Shown(row: Row, select: Option<seq<string>>, hidden: set<string>): Row {
    if select.None? then row - hidden else map c | c in row && c in select.value :: row[c]
  }

  function ShownAll(rows: seq<Row>, select: Option<seq<string>>, hidden: set<string>): seq<Row> {
    seq(|rows|, i requires 0 <= i < |rows| => Shown(rows[i], select, hidden))
  }

  ghost predicate InOrder(order: Option<OrderBy>, rows: seq<Row>, compare: (Value, Value) -> int) {
    order.Some? ==> forall i, j :: 0 <= i < j < |rows| ==> Precedes(order.value, rows[i], rows[j], compare)
  }

  ghost predicate InSqlOrder(order: Option<seq<Entry<SqlDirection>>>, rows: seq<Row>, compare: (Value, Value) -> int) {
    order.Some? ==> forall i, j :: 0 <= i < j < |rows| ==> Compare(order.value, rows[i], rows[j], compare) <= 0
  }

  /** `result` is an answer to the neutral criteria: a page of some arrangement of the asked rows that
      respects the order. Rows that tie may come in any order. */
  ghost predicate Answers(c: Criteria, rows: seq<Row>, hidden: set<string>, compare: (Value, Value) -> int,
                          result: seq<Row>) {
    exists arranged: seq<Row> ::
      && multiset(arranged) == multiset(Asked(c.filter, rows)) && InOrder(c.orderBy, arranged, compare)
      && result == ShownAll(Page(arranged, c.skip, c.take), c.select, hidden)
  }

  /** `result` is an answer that a database may give to TypeORM's options. */
  ghost predicate SqlAnswers(o: Options, rows: seq<Row>, hidden: set<string>, compare: (Value, Value) -> int,
                             result: seq<Row>) {
    exists arranged: seq<Row> ::
      && multiset(arranged) == multiset(Fetched(o.filter, rows)) && InSqlOrder(o.order, arranged, compare)
      && result == ShownAll(Page(arranged, o.skip, o.take), o.select, hidden)
  }

  predicate Accepted(c: Criteria) {
    c.filter.Some? ==> Defined(c.filter.value)
  }

  function OptionsFor(c: Criteria): Options {
    Options(c.select, if c.orderBy.None? then None else Some(OrderFor(c.orderBy.value)),
            if c.filter.None? then None else Some(Translated(c.filter.value)), c.skip, c.take)
  }

  lemma SameOrder(order: Option<OrderBy>, rows: seq<Row>, compare: (Value, Value) -> int)
    ensures InSqlOrder(if order.None? then None else Some(OrderFor(order.value)), rows, compare)
       <==> InOrder(order, rows, compare)
  {
    if order.Some? {
      forall i, j | 0 <= i < j < |rows|
        ensures Compare(OrderFor(order.value), rows[i], rows[j], compare) <= 0
           <==> Precedes(order.value, rows[i], rows[j], compare)
      {
        OrderMeaning(order.value, rows[i], rows[j], compare);
      }
    }
  }

  /** For every table, every accepted criteria, every collation and every result: the database may give
      this result to the translated options exactly when it answers the neutral criteria. */
  lemma QueryMeaning(c: Criteria, rows: seq<Row>, hidden: set<string>, compare: (Value, Value) -> int, result: seq<Row>)
    requires Accepted(c)
    ensures SqlAnswers(OptionsFor(c), rows, hidden, compare, result) <==> Answers(c, rows, hidden, compare, result)
  {
    SameRows(c.filter, rows);
    forall arranged: seq<Row>
      ensures InSqlOrder(OptionsFor(c).order, arranged, compare) <==> InOrder(c.orderBy, arranged, compare)
    {
      SameOrder(c.orderBy, arranged, compare);
    }
  }

  /** Translation keeps the keys, so a filter is empty after it exactly when it was empty before. */
  lemma TranslationKeepsKeys(w: Where, operation: Operation)
    ensures WhereFor(w, operation).Success? <==> Defined(w)
    ensures WhereFor(w, operation).Success? ==>
              |WhereFor(w, operation).value| == |w| && forall i :: 0 <= i < |w| ==>
                WhereFor(w, operation).value[i].key == w[i].key
    ensures WhereFor(w, operation).Success? ==>
              forall i :: 0 <= i < |w| ==> WhereFor(w, operation).value[i].value !in {PlainUndefined, Plain(Null)}
  {
    if WhereFor(w, operation).Success? {
      forall i | 0 <= i < |w| ensures Translated(w)[i].value !in {PlainUndefined, Plain(Null)} {
        assert w[i].value != Undefined;
      }
    }
  }
}
