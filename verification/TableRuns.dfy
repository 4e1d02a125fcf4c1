/** Whole runs through the adapter: what every operation keeps, and what the totals say. */
module TableRuns {
  import opened OrderedMap
  import opened QueryTranslation
  import opened RepositoryAdapter
  import opened Results

  // ----- what one operation keeps -----

  lemma {:induction false} WithoutKeeps(filter: seq<Entry<Operand>>, rows: seq<Row>)
    ensures forall r :: r in Without(filter, rows) ==> r in rows
    ensures |Without(filter, rows)| == |rows| - Hits(filter, rows)
  {
    if rows != [] {
      WithoutKeeps(filter, rows[1..]);
      assert rows == [rows[0]] + rows[1..];
    }
  }

  lemma UniqueTail(index: seq<string>, rows: seq<Row>)
    requires rows != []
    ensures UniqueRows(index, rows)
       <==> UniqueRows(index, rows[1..]) && forall r :: r in rows[1..] ==> !Conflict(index, rows[0], r)
  {
    var rest := rows[1..];
    assert forall i :: 0 < i < |rows| ==> rows[i] == rest[i - 1];
    if UniqueRows(index, rows) {
      forall r | r in rest ensures !Conflict(index, rows[0], r) {
        var i :| 0 <= i < |rest| && rest[i] == r;
        assert rows[i + 1] == r;
      }
    }
    if UniqueRows(index, rest) && forall r :: r in rest ==> !Conflict(index, rows[0], r) {
      forall i, j | 0 <= i < j < |rows| ensures !Conflict(index, rows[i], rows[j]) {
        if i == 0 { assert rows[j] in rest; } else { assert rows[i] == rest[i - 1] && rows[j] == rest[j - 1]; }
      }
    }
  }

  lemma {:induction false} WithoutUnique(index: seq<string>, filter: seq<Entry<Operand>>, rows: seq<Row>)
    requires UniqueRows(index, rows)
    ensures UniqueRows(index, Without(filter, rows))
  {
    if rows != [] {
      UniqueTail(index, rows);
      WithoutUnique(index, filter, rows[1..]);
      WithoutKeeps(filter, rows[1..]);
      if !Selected(filter, rows[0]) {
        assert Without(filter, rows)[1..] == Without(filter, rows[1..]);
        UniqueTail(index, Without(filter, rows));
      }
    }
  }

  /** No two rows ever share an index value, whatever the operation and the driver do. */
  lemma StepKeepsUnique(index: seq<string>, w: World, op: Op)
    requires UniqueRows(index, w.rows)
    ensures UniqueRows(index, Step(index, w, op).0.rows)
  {
    match op {
      case OpRemove(filter, turn) =>
        var g := GuardedWhere(filter, QueryTranslation.Remove);
        if g.Success? {
          WithoutUnique(index, g.value, w.rows);
        }
      case _ =>
    }
  }

  /** A statement that may touch or reveal rows only under a condition, and whose conditions are all
      operators that TypeORM does not drop. */
  predicate NoneDropped(filter: seq<Entry<Operand>>) {
    forall i :: 0 <= i < |filter| ==> filter[i].value != PlainUndefined && filter[i].value != Plain(Null)
  }

  predicate Safe(call: Call) {
    match call
    case FindOneCall(o) => o.filter.Some? && o.filter.value != [] && NoneDropped(o.filter.value)
    case FindCall(o) => o.filter.Some? ==> NoneDropped(o.filter.value)
    case CountCall(f) => f.Some? ==> NoneDropped(f.value)
    case InsertCall(_) => true
    case UpdateCall(f, patch) => f != [] && NoneDropped(f) && patch != map[]
    case DeleteCall(f) => f != [] && NoneDropped(f)
  }

  lemma TranslatedNoneDropped(w: Where)
    requires Defined(w)
    ensures NoneDropped(Translated(w))
  {
    forall i | 0 <= i < |w| ensures Translated(w)[i].value != PlainUndefined && Translated(w)[i].value != Plain(Null) {
      assert w[i].value != Undefined;
    }
  }

  /** At most one statement reaches the store per operation, and it is safe. */
  lemma StepIsSafe(index: seq<string>, w: World, op: Op)
    ensures var calls := Step(index, w, op).0.calls;
            calls == w.calls || (|calls| == |w.calls| + 1 && calls[..|w.calls|] == w.calls && Safe(calls[|w.calls|]))
  {
    match op {
      case OpFindOne(filter, _, _, _) => if Defined(filter) { TranslatedNoneDropped(filter); }
      case OpFindMany(c, _) => if c.filter.Some? && Accepted(c) { TranslatedNoneDropped(c.filter.value); }
      case OpCount(counted) => if counted.Some? && Defined(counted.value) { TranslatedNoneDropped(counted.value); }
      case OpInsert(_, _) =>
      case OpUpdate(filter, _, _) => if Defined(filter) { TranslatedNoneDropped(filter); }
      case OpRemove(filter, _) => if Defined(filter) { TranslatedNoneDropped(filter); }
    }
  }

  function OpFilter(op: Op): Option<Where> {
    match op
    case OpFindOne(filter, _, _, _) => Some(filter)
    case OpFindMany(c, _) => c.filter
    case OpCount(counted) => counted
    case OpInsert(_, _) => None
    case OpUpdate(filter, _, _) => Some(filter)
    case OpRemove(filter, _) => Some(filter)
  }

  /** Exactly when an operation breaks the contract: an `undefined` in the filter, or an empty filter
      where one is required. Then nothing reaches the store and nothing changes. */
  lemma ContractBrokenIff(index: seq<string>, w: World, op: Op)
    ensures var filter := OpFilter(op);
            Step(index, w, op).1.ContractBroken? <==>
              (filter.Some?
               && (!Defined(filter.value) || (filter.value == [] && (op.OpFindOne? || op.OpUpdate? || op.OpRemove?))))
    ensures Step(index, w, op).1.ContractBroken? ==> Step(index, w, op).0 == w
  {
    if op.OpInsert? {
      assert !Translation(op.turn.violation).ContractBroken?;
      assert op.turn.outage.Some? ==> !Translation(op.turn.outage.value).ContractBroken?;
    }
    if op.OpUpdate? {
      assert !Translation(op.turn.violation).ContractBroken?;
      assert op.turn.outage.Some? ==> !Translation(op.turn.outage.value).ContractBroken?;
    }
  }

  predicate Failed(r: Reply) {
    r.ContractBroken? || r.NotUnique? || r.Rethrown? || r.Crashed?
  }

  /** An operation that fails leaves every row as it was. */
  lemma FailureChangesNothing(index: seq<string>, w: World, op: Op)
    requires Failed(Step(index, w, op).1)
    ensures Step(index, w, op).0.rows == w.rows
  {
  }

  /** INSERT never overwrites: the old rows stay, in place, and a success adds one row, which shows every
      value of the data unless the database filled that column itself. */
  lemma InsertOnlyAdds(index: seq<string>, w: World, data: Row, turn: Turn)
    ensures var (next, reply) := Step(index, w, OpInsert(data, turn));
            && w.rows <= next.rows
            && (reply.Inserted? <==> |next.rows| == |w.rows| + 1) && (!reply.Inserted? <==> next.rows == w.rows)
            && (reply.Inserted? && turn.returned == Some(turn.filled) ==> reply.row == next.rows[|w.rows|])
  {
    if Inserts(index, w.rows, data, turn).Failure? {
      assert Failed(Translation(Inserts(index, w.rows, data, turn).error));
    }
  }

  /** A driver that tells a violated index from every other failure. */
  predicate Faithful(turn: Turn) {
    && UniqueConstraintOf(turn.violation).Violation?
    && (turn.outage.Some? ==> !UniqueConstraintOf(turn.outage.value).Violation?)
  }

  predicate Collides(index: seq<string>, rows: seq<Row>, row: Row) {
    exists i :: 0 <= i < |rows| && Conflict(index, rows[i], row)
  }

  /** With such a driver, an insert is refused as not unique exactly when a row with the same index value
      is there, and an update exactly when its result would hold two such rows. */
  lemma NotUniqueIff(index: seq<string>, w: World, data: Row, filter: Where, patch: Row, turn: Turn)
    requires Faithful(turn)
    ensures Step(index, w, OpInsert(data, turn)).1.NotUnique?
       <==> turn.outage.None? && Collides(index, w.rows, data + turn.filled)
    ensures Defined(filter) && filter != [] && patch != map[] ==>
              (Step(index, w, OpUpdate(filter, patch, turn)).1.NotUnique? <==>
               turn.outage.None? && !UniqueRows(index, Patched(Translated(filter), patch, w.rows)))
  {
  }

  // ----- how the drivers signal -----

  function PgError(constraint: string): JsValue {
    JsObject(map["code" := JsString("23505"), "constraint" := JsString(constraint)])
  }

  function MysqlError(code: string): JsValue {
    JsObject(map["code" := JsString(code), "errno" := JsNumber(1062)])
  }

  /** TypeORM wraps the driver's error. */
  function Wrapped(inner: JsValue): JsValue {
    JsObject(map["driverError" := inner])
  }

  lemma FieldNamesDiffer()
    ensures "code" != "constraint" && "code" != "errno" && "driverError" != "code" && "driverError" != "errno"
    ensures "23505" != "ER_DUP_ENTRY" && "23505" != "23503"
  {
    assert "23505"[4] != "23503"[4];
  }

  /** Each supported driver's signal is recognised, bare or wrapped; only postgres names the constraint.
      A foreign-key failure is passed on. */
  lemma DriversRecognised(constraint: string, code: string)
    requires code != "23505"
    ensures UniqueConstraintOf(PgError(constraint)) == UniqueConstraintOf(Wrapped(PgError(constraint)))
         == Violation(Some(constraint))
    ensures UniqueConstraintOf(MysqlError(code)) == UniqueConstraintOf(Wrapped(MysqlError(code))) == Violation(None)
    ensures UniqueConstraintOf(Wrapped(JsObject(map["code" := JsString("23503")]))) == Other
  {
    FieldNamesDiffer();
    assert |"driverError"| == 11 && |"code"| == 4 && |"errno"| == 5 && |"constraint"| == 10;
  }

  // ----- what a caller is told -----

  /** The value that carries the signal: `driverError` unless it is missing. */
  function Signal(thrown: JsValue): JsValue {
    if thrown.JsObject? && "driverError" in thrown.fields && thrown.fields["driverError"] != JsUndefined
       && thrown.fields["driverError"] != JsNull
    then thrown.fields["driverError"] else thrown
  }

  predicate HasCode(signal: JsValue, code: string) {
    signal.JsObject? && "code" in signal.fields && signal.fields["code"] == JsString(code)
  }

  predicate HasErrno(signal: JsValue, errno: int) {
    signal.JsObject? && "errno" in signal.fields && signal.fields["errno"] == JsNumber(errno)
  }

  /** What becomes of a thrown value: postgres's signal names the constraint when it is a text, mysql's names none,
      and everything else is passed on unchanged; of `undefined` and `null` no property can be read. */
  ghost predicate Reports(thrown: JsValue, reply: Reply) {
    var signal := Signal(thrown);
    if thrown == JsUndefined || thrown == JsNull then reply == Crashed
    else if HasCode(signal, "23505") then
      && reply.NotUnique?
      && (reply.constraint.Some? <==> "constraint" in signal.fields && signal.fields["constraint"].JsString?)
      && (reply.constraint.Some? ==> signal.fields["constraint"] == JsString(reply.constraint.value))
    else if HasCode(signal, "ER_DUP_ENTRY") || HasErrno(signal, 1062) then reply == NotUnique(None)
    else reply == Rethrown(thrown)
  }

  lemma TranslationReports(thrown: JsValue)
    ensures Reports(thrown, Translation(thrown))
  {
    assert Carrier(thrown) == Signal(thrown);
  }

  /** What an insert and an update answer when the statement fails, whatever was thrown. */
  lemma WriteFailuresReport(index: seq<string>, w: World, data: Row, filter: Where, patch: Row, turn: Turn)
    ensures var reply, collides := Step(index, w, OpInsert(data, turn)).1, Collides(index, w.rows, data + turn.filled);
            && (turn.outage.Some? ==> Reports(turn.outage.value, reply))
            && (turn.outage.None? && collides ==> Reports(turn.violation, reply))
            && (turn.outage.None? && !collides ==> reply.Inserted?)
    ensures Defined(filter) && filter != [] && patch != map[] ==>
              var reply := Step(index, w, OpUpdate(filter, patch, turn)).1;
              var collides := !UniqueRows(index, Patched(Translated(filter), patch, w.rows));
              && (turn.outage.Some? ==> Reports(turn.outage.value, reply))
              && (turn.outage.None? && collides ==> Reports(turn.violation, reply))
              && (turn.outage.None? && !collides ==> reply.Affected?)
  {
    TranslationReports(turn.violation);
    if turn.outage.Some? {
      TranslationReports(turn.outage.value);
    }
  }

  /** The drivers' own signals, bare and wrapped: only postgres's names the constraint. */
  lemma DriversReport(constraint: string, code: string, thrown: JsValue, reply: Reply)
    requires Reports(thrown, reply) && code != "23505"
    ensures thrown == PgError(constraint) || thrown == Wrapped(PgError(constraint)) ==>
              reply == NotUnique(Some(constraint))
    ensures thrown == MysqlError(code) || thrown == Wrapped(MysqlError(code)) ==> reply == NotUnique(None)
  {
    FieldNamesDiffer();
    assert |"driverError"| == 11 && |"code"| == 4 && |"errno"| == 5 && |"constraint"| == 10;
  }

  /** A removal passes every failure on unchanged, also one that looks like a violated index. */
  lemma RemovalPassesOn(index: seq<string>, w: World, filter: Where, turn: Turn)
    requires Defined(filter) && filter != [] && turn.outage.Some?
    ensures Step(index, w, OpRemove(filter, turn)).1 == Rethrown(turn.outage.value)
  {
  }

  /** An inserted row is answered with every column that the database hands back, and otherwise with the data. */
  lemma InsertAnswers(index: seq<string>, w: World, data: Row, turn: Turn)
    requires Step(index, w, OpInsert(data, turn)).1.Inserted?
    ensures var row := Step(index, w, OpInsert(data, turn)).1.row;
            var back := if turn.returned.Some? then turn.returned.value else map[];
            && row.Keys == data.Keys + back.Keys
            && (forall c :: c in back ==> row[c] == back[c])
            && (forall c :: c in data && c !in back ==> row[c] == data[c])
  {
    assert Inserts(index, w.rows, data, turn).Success? || Failed(Translation(Inserts(index, w.rows, data, turn).error));
  }

  /** Which broken contract is reported, and for which operation: the first `undefined` of the filter, or a filter
      without a condition. */
  lemma ContractErrorNames(index: seq<string>, w: World, op: Op)
    requires Step(index, w, op).1.ContractBroken?
    ensures var error := Step(index, w, op).1.error;
            && error.operation == (match op
                                   case OpFindOne(_, _, _, _) => QueryTranslation.FindOne
                                   case OpFindMany(_, _) => QueryTranslation.FindMany
                                   case OpCount(_) => QueryTranslation.Count
                                   case OpUpdate(_, _, _) => QueryTranslation.Update
                                   case _ => QueryTranslation.Remove)
            && OpFilter(op).Some?
            && (error.EmptyWhere? <==> OpFilter(op).value == [])
            && (error.UndefinedValue? ==> FirstUndefinedAt(OpFilter(op).value, error.key))
  {
    ContractBrokenIff(index, w, op);
    var filter := OpFilter(op).value;
    FirstUndefinedIs(filter);
    if !Defined(filter) {
      UndefinedIsFirst(filter);
    }
  }

  /** The key of the first `undefined`. */
  ghost predicate FirstUndefinedAt(w: Where, key: string) {
    exists i :: 0 <= i < |w| && w[i] == Entry(key, Undefined) && forall j :: 0 <= j < i ==> w[j].value != Undefined
  }

  lemma UndefinedIsFirst(w: Where)
    requires !Defined(w)
    ensures FirstUndefined(w) < |w| && FirstUndefinedAt(w, w[FirstUndefined(w)].key)
  {
    FirstUndefinedIs(w);
    assert w[FirstUndefined(w)].value == Undefined;
  }

  // ----- update and remove, read in the neutral language -----

  function Remaining(w: Where, rows: seq<Row>): seq<Row> {
    if rows == [] then [] else (if Matches(w, rows[0]) then [] else [rows[0]]) + Remaining(w, rows[1..])
  }

  lemma {:induction false} RemoveMeaning(w: Where, rows: seq<Row>)
    requires Defined(w)
    ensures Without(Translated(w), rows) == Remaining(w, rows)
    ensures Hits(Translated(w), rows) == |Asked(Some(w), rows)|
  {
    if rows != [] {
      WhereMeaning(w, rows[0]);
      RemoveMeaning(w, rows[1..]);
    }
  }

  /** An accepted removal takes away exactly the rows that the neutral filter matches, and reports their
      number; an accepted update changes exactly those rows. */
  lemma WritesMeanWhatTheySay(index: seq<string>, w: World, filter: Where, patch: Row, turn: Turn)
    requires Defined(filter) && filter != [] && turn.counts && turn.outage.None? && patch != map[]
    ensures Step(index, w, OpRemove(filter, turn)).0.rows == Remaining(filter, w.rows)
    ensures Step(index, w, OpRemove(filter, turn)).1 == Affected(|Asked(Some(filter), w.rows)|)
    ensures var (next, reply) := Step(index, w, OpUpdate(filter, patch, turn));
            reply.Affected? ==>
              && reply.n == |Asked(Some(filter), w.rows)| && |next.rows| == |w.rows|
              && forall i :: 0 <= i < |w.rows| ==>
                   next.rows[i] == if Matches(filter, w.rows[i]) then w.rows[i] + patch else w.rows[i]
  {
    RemoveMeaning(filter, w.rows);
    forall i | 0 <= i < |w.rows| ensures Selected(Translated(filter), w.rows[i]) <==> Matches(filter, w.rows[i]) {
      WhereMeaning(filter, w.rows[i]);
    }
    if Updates(index, w.rows, Translated(filter), patch, turn).Failure? {
      assert Failed(Translation(turn.violation));
    }
  }

  /** A driver that does not count makes both report zero rows, and an update without a change reports zero without
      asking it. */
  lemma UncountedWrites(index: seq<string>, w: World, filter: Where, patch: Row, turn: Turn)
    requires Defined(filter) && filter != []
    ensures !turn.counts && turn.outage.None? ==> Step(index, w, OpRemove(filter, turn)).1 == Affected(0)
    ensures Step(index, w, OpUpdate(filter, map[], turn)) == (w, Affected(0))
    ensures !turn.counts && turn.outage.None? && UniqueRows(index, Patched(Translated(filter), patch, w.rows)) ==>
              Step(index, w, OpUpdate(filter, patch, turn)).1 == Affected(0)
  {
  }

  // ----- reads, in the neutral language -----

  /** An accepted `findMany` asks the database once and passes its answer on, and that answers what the
      caller asked exactly when it answers the options. */
  lemma ListsMeanWhatTheySay(index: seq<string>, w: World, c: Criteria, answer: seq<Row>, hidden: set<string>,
                             compare: (Value, Value) -> int)
    requires Accepted(c)
    ensures var (next, reply) := Step(index, w, OpFindMany(c, answer));
            && next.rows == w.rows && |next.calls| == |w.calls| + 1 && next.calls[|w.calls|].FindCall? && reply.Listed?
            && (SqlAnswers(next.calls[|w.calls|].options, w.rows, hidden, compare, answer)
                <==> Answers(c, w.rows, hidden, compare, reply.rows))
  {
    QueryMeaning(c, w.rows, hidden, compare, answer);
  }

  /** The whole answer that a read of one row is cut from. */
  function OneCriteria(filter: Where, select: Option<seq<string>>, orderBy: Option<OrderBy>): Criteria {
    Criteria(select, orderBy, Some(filter), None, None)
  }

  lemma WholeAnswer(c: Criteria, rows: seq<Row>, hidden: set<string>, compare: (Value, Value) -> int, answer: seq<Row>)
    requires Answers(c, rows, hidden, compare, answer) && c.skip.None? && c.take.None?
    ensures |answer| == |Asked(c.filter, rows)|
  {
    var arranged: seq<Row> :| multiset(arranged) == multiset(Asked(c.filter, rows))
        && InOrder(c.orderBy, arranged, compare)
      && answer == ShownAll(Page(arranged, c.skip, c.take), c.select, hidden);
    assert |multiset(arranged)| == |arranged| && |multiset(Asked(c.filter, rows))| == |Asked(c.filter, rows)|;
  }

  /** An accepted `findOne` asks the database once. Whatever answer it gives to the options, the reply is the
      first row of an answer to what the caller asked, and `null` exactly when no row matches. */
  lemma OneRowMeansWhatItSays(index: seq<string>, w: World, filter: Where, select: Option<seq<string>>,
                              orderBy: Option<OrderBy>,
                              answer: seq<Row>, hidden: set<string>, compare: (Value, Value) -> int)
    requires Defined(filter) && filter != []
    ensures var (next, reply) := Step(index, w, OpFindOne(filter, select, orderBy, answer));
            && next.rows == w.rows && |next.calls| == |w.calls| + 1 && next.calls[|w.calls|].FindOneCall?
            && reply.Found?
            && (SqlAnswers(next.calls[|w.calls|].options, w.rows, hidden, compare, answer) ==>
                  && (reply.found.None? <==> Asked(Some(filter), w.rows) == [])
                  && (reply.found.Some? ==>
                        exists whole :: Answers(OneCriteria(filter, select, orderBy), w.rows, hidden, compare, whole)
                                     && whole != [] && whole[0] == reply.found.value))
  {
    var c := OneCriteria(filter, select, orderBy);
    QueryMeaning(c, w.rows, hidden, compare, answer);
    if Answers(c, w.rows, hidden, compare, answer) {
      WholeAnswer(c, w.rows, hidden, compare, answer);
    }
  }

  /** A count is the number of rows that the neutral filter matches. */
  lemma CountMeansWhatItSays(index: seq<string>, w: World, counted: Option<Where>)
    requires counted.Some? ==> Defined(counted.value)
    ensures Step(index, w, OpCount(counted)).1 == Counted(|Asked(counted, w.rows)|)
    ensures Step(index, w, OpCount(counted)).0.rows == w.rows
  {
    SameRows(counted, w.rows);
  }

  // ----- runs -----

  function Run(index: seq<string>, w: World, ops: seq<Op>): World
    decreases |ops|
  {
    if ops == [] then w else Run(index, Step(index, w, ops[0]).0, ops[1..])
  }

  /** In every run the index stays unique. */
  lemma {:induction false} RunKeepsUnique(index: seq<string>, w: World, ops: seq<Op>)
    requires UniqueRows(index, w.rows)
    ensures UniqueRows(index, Run(index, w, ops).rows)
    decreases |ops|
  {
    if ops != [] {
      StepKeepsUnique(index, w, ops[0]);
      RunKeepsUnique(index, Step(index, w, ops[0]).0, ops[1..]);
    }
  }

  /** In every run, no unconditional read of one row, update or delete reaches the store, and no condition that
      TypeORM would drop. */
  lemma {:induction false} RunIsSafe(index: seq<string>, w: World, ops: seq<Op>)
    requires forall i :: 0 <= i < |w.calls| ==> Safe(w.calls[i])
    ensures var calls := Run(index, w, ops).calls; |calls| <= |w.calls| + |ops| && forall i :: 0 <= i < |calls| ==>
              Safe(calls[i])
    decreases |ops|
  {
    if ops != [] {
      StepIsSafe(index, w, ops[0]);
      var next := Step(index, w, ops[0]).0;
      forall i | 0 <= i < |next.calls| ensures Safe(next.calls[i]) {
        if next.calls != w.calls && i < |w.calls| { assert next.calls[i] == next.calls[..|w.calls|][i]; }
      }
      RunIsSafe(index, next, ops[1..]);
    }
  }

  /** A translated filter has exactly the keys of the neutral one, in order, drops no condition, and is true of
      exactly the rows that the neutral one matches. */
  ghost predicate SameFilter(w: Where, filter: seq<Entry<Operand>>) {
    && |filter| == |w| && (forall i :: 0 <= i < |w| ==> filter[i].key == w[i].key)
    && NoneDropped(filter)
    && forall row: Row :: Selected(filter, row) <==> Matches(w, row)
  }

  ghost predicate SameOptionalFilter(w: Option<Where>, filter: Option<seq<Entry<Operand>>>) {
    (filter.Some? <==> w.Some?) && (w.Some? ==> SameFilter(w.value, filter.value))
  }

  predicate SameOrder(orderBy: Option<OrderBy>, order: Option<seq<Entry<SqlDirection>>>) {
    order == if orderBy.None? then None else Some(OrderFor(orderBy.value))
  }

  /** A statement that does for the store what the operation asks. */
  ghost predicate Serves(call: Call, op: Op) {
    match op
    case OpFindOne(filter, select, orderBy, _) =>
      && call.FindOneCall? && SameOptionalFilter(Some(filter), call.options.filter)
      && call.options.select == select && SameOrder(orderBy, call.options.order)
    case OpFindMany(c, _) =>
      && call.FindCall? && SameOptionalFilter(c.filter, call.options.filter)
      && call.options.select == c.select && SameOrder(c.orderBy, call.options.order)
      && call.options.skip == c.skip && call.options.take == c.take
    case OpCount(counted) => call.CountCall? && SameOptionalFilter(counted, call.counted)
    case OpInsert(data, _) => call == InsertCall(data)
    case OpUpdate(filter, patch, _) => call.UpdateCall? && SameFilter(filter, call.filter) && call.patch == patch
    case OpRemove(filter, _) => call.DeleteCall? && SameFilter(filter, call.filter)
  }

  /** An operation that sends nothing: it breaks the contract, or it is an update without a change. */
  predicate Silent(op: Op) {
    var filter := OpFilter(op);
    || (filter.Some? && !Defined(filter.value))
    || (filter == Some([]) && (op.OpFindOne? || op.OpUpdate? || op.OpRemove?))
    || (op.OpUpdate? && op.patch == map[])
  }

  lemma TranslatedIsSame(w: Where)
    requires Defined(w)
    ensures SameFilter(w, Translated(w))
  {
    TranslatedNoneDropped(w);
    forall row: Row ensures Selected(Translated(w), row) <==> Matches(w, row) {
      WhereMeaning(w, row);
    }
  }

  lemma StepSends(index: seq<string>, w: World, op: Op)
    ensures var calls := Step(index, w, op).0.calls;
            if Silent(op) then calls == w.calls
            else |calls| == |w.calls| + 1 && calls[..|w.calls|] == w.calls && Serves(calls[|w.calls|], op)
  {
    var filter := OpFilter(op);
    if filter.Some? && Defined(filter.value) {
      TranslatedIsSame(filter.value);
    }
  }

  /** One statement per operation that is not silent, in order, and each serves its own. */
  ghost predicate Served(calls: seq<Call>, ops: seq<Op>)
    decreases |ops|
  {
    if ops == [] then calls == []
    else if Silent(ops[0]) then Served(calls, ops[1..])
    else calls != [] && Serves(calls[0], ops[0]) && Served(calls[1..], ops[1..])
  }

  /** In every run, what reaches the store is exactly one statement for each operation that neither breaks the
      contract nor changes nothing, in order, with the keys and the meaning of that operation's own filter. */
  lemma {:induction false} RunSends(index: seq<string>, w: World, ops: seq<Op>)
    ensures w.calls <= Run(index, w, ops).calls && Served(Run(index, w, ops).calls[|w.calls|..], ops)
    decreases |ops|
  {
    var last := Run(index, w, ops).calls;
    if ops == [] {
      assert last[|w.calls|..] == [];
    } else {
      var next := Step(index, w, ops[0]).0;
      StepSends(index, w, ops[0]);
      RunSends(index, next, ops[1..]);
      if !Silent(ops[0]) {
        SplitLog(w.calls, next.calls, last);
      }
    }
  }

  lemma SplitLog(a: seq<Call>, b: seq<Call>, c: seq<Call>)
    requires |b| == |a| + 1 && b[..|a|] == a && b <= c
    ensures a <= c && c[|a|..] == [b[|a|]] + c[|b|..]
  {
    assert c[..|b|] == b;
    assert c[..|a|] == c[..|b|][..|a|];
  }

  /** The change in the number of rows that the reply tells: one more for an insert, as many fewer as a
      removal reports. */
  function Told(op: Op, r: Reply): int {
    if r.Inserted? then 1 else if op.OpRemove? && r.Affected? then -(r.n as int) else 0
  }

  function ToldInRun(index: seq<string>, w: World, ops: seq<Op>): int
    decreases |ops|
  {
    if ops == [] then 0
    else Told(ops[0], Step(index, w, ops[0]).1) + ToldInRun(index, Step(index, w, ops[0]).0, ops[1..])
  }

  /** A removal that is carried out by a driver that does not count rows. */
  predicate Uncounted(op: Op) {
    op.OpRemove? && Defined(op.filter) && op.filter != [] && op.turn.outage.None? && !op.turn.counts
  }

  /** The rows that such a removal takes away without telling. */
  function Untold(w: World, op: Op): nat {
    if Uncounted(op) then |Asked(Some(op.filter), w.rows)| else 0
  }

  function UntoldInRun(index: seq<string>, w: World, ops: seq<Op>): nat
    decreases |ops|
  {
    if ops == [] then 0 else Untold(w, ops[0]) + UntoldInRun(index, Step(index, w, ops[0]).0, ops[1..])
  }

  lemma StepTells(index: seq<string>, w: World, op: Op)
    ensures |Step(index, w, op).0.rows| == |w.rows| + Told(op, Step(index, w, op).1) - Untold(w, op)
  {
    match op {
      case OpInsert(data, turn) => InsertOnlyAdds(index, w, data, turn);
      case OpRemove(filter, turn) =>
        var g := GuardedWhere(filter, QueryTranslation.Remove);
        if g.Success? {
          WithoutKeeps(g.value, w.rows);
          RemoveMeaning(filter, w.rows);
        }
      case _ =>
    }
  }

  /** In every run, the rows at the end are the rows at the start, plus the successful inserts, minus what
      the removals reported, minus what the uncounted removals took. */
  lemma {:induction false} RowsAddUp(index: seq<string>, w: World, ops: seq<Op>)
    ensures |Run(index, w, ops).rows| == |w.rows| + ToldInRun(index, w, ops) - UntoldInRun(index, w, ops)
    decreases |ops|
  {
    if ops != [] {
      StepTells(index, w, ops[0]);
      RowsAddUp(index, Step(index, w, ops[0]).0, ops[1..]);
    }
  }

  /** Every uncounted removal of the run found nothing to remove. */
  ghost predicate NothingUntold(index: seq<string>, w: World, ops: seq<Op>) {
    forall i :: 0 <= i < |ops| && Uncounted(ops[i]) ==>
      forall row :: row in Run(index, w, ops[..i]).rows ==> !Matches(ops[i].filter, row)
  }

  lemma {:induction false} NoneAsked(w: Where, rows: seq<Row>)
    ensures Asked(Some(w), rows) == [] <==> forall row :: row in rows ==> !Matches(w, row)
  {
    if rows != [] {
      NoneAsked(w, rows[1..]);
      assert rows == [rows[0]] + rows[1..];
    }
  }

  lemma RunFrom(index: seq<string>, w: World, ops: seq<Op>, i: nat)
    requires 0 < i <= |ops|
    ensures Run(index, w, ops[..i]) == Run(index, Step(index, w, ops[0]).0, ops[1..][..i - 1])
  {
    assert ops[..i][0] == ops[0] && ops[..i][1..] == ops[1..][..i - 1];
  }

  lemma NothingUntoldCons(index: seq<string>, w: World, ops: seq<Op>)
    requires ops != []
    ensures NothingUntold(index, w, ops)
       <==> (Untold(w, ops[0]) == 0 && NothingUntold(index, Step(index, w, ops[0]).0, ops[1..]))
  {
    var next, rest := Step(index, w, ops[0]).0, ops[1..];
    assert Run(index, w, ops[..0]) == w;
    if Uncounted(ops[0]) {
      NoneAsked(ops[0].filter, w.rows);
    }
    forall i | 0 < i < |ops|
      ensures Run(index, w, ops[..i]) == Run(index, next, rest[..i - 1]) && ops[i] == rest[i - 1]
    {
      RunFrom(index, w, ops, i);
    }
    if NothingUntold(index, w, ops) {
      forall j | 0 <= j < |rest| && Uncounted(rest[j])
        ensures forall row :: row in Run(index, next, rest[..j]).rows ==> !Matches(rest[j].filter, row)
      {
        assert rest[j] == ops[j + 1];
      }
    }
  }

  lemma {:induction false} UntoldIff(index: seq<string>, w: World, ops: seq<Op>)
    ensures UntoldInRun(index, w, ops) == 0 <==> NothingUntold(index, w, ops)
    decreases |ops|
  {
    if ops != [] {
      NothingUntoldCons(index, w, ops);
      UntoldIff(index, Step(index, w, ops[0]).0, ops[1..]);
    }
  }

  /** The replies alone account for every row exactly when no uncounted removal of the run matched one. */
  lemma RepliesAccountIff(index: seq<string>, w: World, ops: seq<Op>)
    ensures |Run(index, w, ops).rows| == |w.rows| + ToldInRun(index, w, ops) <==> NothingUntold(index, w, ops)
  {
    RowsAddUp(index, w, ops);
    UntoldIff(index, w, ops);
  }

  /** The sum of the replies does fail: this removal reports 0 and takes a row away. */
  lemma UncountedRemovalTellsNothing()
    ensures var w, filter := World([map["id" := Int(1)]], []), [Entry("id", Is(Int(1)))];
            var (next, reply) := Step(["id"], w, OpRemove(filter, Turn(map[], None, false, JsNull, None)));
            reply == Affected(0) && next.rows == []
  {
    var row: Row := map["id" := Int(1)];
    var filter := [Entry("id", Is(Int(1)))];
    assert Matches(filter, row);
    RemoveMeaning(filter, [row]);
    assert Remaining(filter, [row]) == [] + Remaining(filter, [row][1..]);
  }
}
