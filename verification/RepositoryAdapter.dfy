/** `TypeOrmRepositoryAdapter` in front of a table with a unique index, one operation after another. */
module RepositoryAdapter {
  import opened OrderedMap
  import opened QueryTranslation
  import opened Results

  // ----- driver errors -----

  datatype JsValue =
    | JsUndefined
    | JsNull
    | JsString(text: string)
    | JsNumber(n: int)
    | JsObject(fields: map<string, JsValue>)

  function Field(v: JsValue, name: string): JsValue {
    if v.JsObject? && name in v.fields then v.fields[name] else JsUndefined
  }

  /** The verdict on a thrown value: reading a property of `undefined` or `null` is an error of its own. */
  datatype Verdict = Crash | Other | Violation(constraint: Option<string>)

  /** The value that carries the driver's code: `driverError` when it is there, else the error itself. */
  function Carrier(error: JsValue): JsValue {
    var inner := Field(error, "driverError");
    if inner == JsUndefined || inner == JsNull then error else inner
  }

  /** `uniqueConstraintOf` */
  function UniqueConstraintOf(error: JsValue): Verdict {
    if error == JsUndefined || error == JsNull then Crash
    else
      var driver := Carrier(error);
      if !driver.JsObject? then Other
      else if Field(driver, "code") == JsString("23505") then
        Violation(if Field(driver, "constraint").JsString? then Some(Field(driver, "constraint").text) else None)
      else if Field(driver, "code") == JsString("ER_DUP_ENTRY")
           || Field(driver, "errno") == JsNumber(1062) then Violation(None)
      else Other
  }

  // ----- the table behind TypeORM's repository -----

  /** What the database and its driver contribute to one write: columns it fills in, columns it hands
      back, whether it counts rows, how it reports a violated index, and a failure of its own. */
  datatype Turn = Turn(filled: Row, returned: Option<Row>, counts: bool, violation: JsValue, outage: Option<JsValue>)

  datatype Call =
    | FindOneCall(options: Options)
    | FindCall(options: Options)
    | CountCall(counted: Option<seq<Entry<Operand>>>)
    | InsertCall(entity: Row)
    | UpdateCall(filter: seq<Entry<Operand>>, patch: Row)
    | DeleteCall(filter: seq<Entry<Operand>>)

  /** The rows of the table, and every statement that reached it. */
  datatype World = World(rows: seq<Row>, calls: seq<Call>)

  /** A unique index ignores rows with a NULL in it. */
  predicate Conflict(index: seq<string>, a: Row, b: Row) {
    index != [] && forall c :: c in index ==> Cell(a, c) != Null && Cell(a, c) == Cell(b, c)
  }

  predicate UniqueRows(index: seq<string>, rows: seq<Row>) {
    forall i, j :: 0 <= i < j < |rows| ==> !Conflict(index, rows[i], rows[j])
  }

  predicate Selected(filter: seq<Entry<Operand>>, row: Row) {
    EvalAll(filter, row) == True
  }

  function Patched(filter: seq<Entry<Operand>>, patch: Row, rows: seq<Row>): seq<Row> {
    seq(|rows|, i requires 0 <= i < |rows| => if Selected(filter, rows[i]) then rows[i] + patch else rows[i])
  }

  function Without(filter: seq<Entry<Operand>>, rows: seq<Row>): seq<Row> {
    if rows == [] then [] else (if Selected(filter, rows[0]) then [] else [rows[0]]) + Without(filter, rows[1..])
  }

  function Hits(filter: seq<Entry<Operand>>, rows: seq<Row>): nat {
    if rows == [] then 0 else (if Selected(filter, rows[0]) then 1 else 0) + Hits(filter, rows[1..])
  }

  /** TypeORM's `Repository` on one table: statements run whole or not at all. */
  class Repository {
    const index: seq<string>
    var rows: seq<Row>
    var calls: seq<Call>

    constructor (index: seq<string>, rows: seq<Row>)
      ensures this.index == index && Contents() == World(rows, [])
    {
      this.index, this.rows, calls := index, rows, [];
    }

    function Contents(): World
      reads this
    {
      World(rows, calls)
    }

    method Log(call: Call)
      modifies this`calls
      ensures calls == old(calls) + [call]
    {
      calls := calls + [call];
    }

    method FindOne(options: Options, answer: seq<Row>) returns (row: Option<Row>)
      modifies this`calls
      ensures calls == old(calls) + [FindOneCall(options)] && row == FirstOf(answer)
    {
      Log(FindOneCall(options));
      row := FirstOf(answer);
    }

    method Find(options: Options, answer: seq<Row>) returns (found: seq<Row>)
      modifies this`calls
      ensures calls == old(calls) + [FindCall(options)] && found == answer
    {
      Log(FindCall(options));
      found := answer;
    }

    method Count(filter: Option<seq<Entry<Operand>>>) returns (n: nat)
      modifies this`calls
      ensures calls == old(calls) + [CountCall(filter)] && n == |Fetched(filter, rows)|
    {
      Log(CountCall(filter));
      n := |Fetched(filter, rows)|;
    }

    method Insert(entity: Row, turn: Turn) returns (r: Result<Option<Row>, JsValue>)
      modifies this
      ensures calls == old(calls) + [InsertCall(entity)]
      ensures r == Inserts(index, old(rows), entity, turn)
      ensures rows == if r.Success? then old(rows) + [entity + turn.filled] else old(rows)
    {
      Log(InsertCall(entity));
      r := Inserts(index, rows, entity, turn);
      if r.Success? {
        rows := rows + [entity + turn.filled];
      }
    }

    method Update(filter: seq<Entry<Operand>>, patch: Row, turn: Turn) returns (r: Result<Option<nat>, JsValue>)
      modifies this
      ensures calls == old(calls) + [UpdateCall(filter, patch)]
      ensures r == Updates(index, old(rows), filter, patch, turn)
      ensures rows == if r.Success? then Patched(filter, patch, old(rows)) else old(rows)
    {
      Log(UpdateCall(filter, patch));
      r := Updates(index, rows, filter, patch, turn);
      if r.Success? {
        rows := Patched(filter, patch, rows);
      }
    }

    method Delete(filter: seq<Entry<Operand>>, turn: Turn) returns (r: Result<Option<nat>, JsValue>)
      modifies this
      ensures calls == old(calls) + [DeleteCall(filter)]
      ensures r == Deletes(old(rows), filter, turn)
      ensures rows == if r.Success? then Without(filter, old(rows)) else old(rows)
    {
      Log(DeleteCall(filter));
      r := Deletes(rows, filter, turn);
      if r.Success? {
        rows := Without(filter, rows);
      }
    }
  }

  /** INSERT: the columns handed back, or the driver's error. */
  function Inserts(index: seq<string>, rows: seq<Row>, entity: Row, turn: Turn): Result<Option<Row>, JsValue> {
    if turn.outage.Some? then Failure(turn.outage.value)
    else if exists i :: 0 <= i < |rows| && Conflict(index, rows[i], entity + turn.filled) then Failure(turn.violation)
    else Success(turn.returned)
  }

  /** UPDATE: the number of rows, when the driver counts them, or the driver's error. */
  function Updates(index: seq<string>, rows: seq<Row>, filter: seq<Entry<Operand>>, patch: Row,
                   turn: Turn): Result<Option<nat>, JsValue> {
    if turn.outage.Some? then Failure(turn.outage.value)
    else if !UniqueRows(index, Patched(filter, patch, rows)) then Failure(turn.violation)
    else Success(if turn.counts then Some(Hits(filter, rows)) else None)
  }

  function Deletes(rows: seq<Row>, filter: seq<Entry<Operand>>, turn: Turn): Result<Option<nat>, JsValue> {
    if turn.outage.Some? then Failure(turn.outage.value)
    else Success(if turn.counts then Some(Hits(filter, rows)) else None)
  }

  // ----- one operation -----

  /** A call on the port. A read carries `answer`, the rows that the database gives to its options. */
  datatype Op =
    | OpFindOne(filter: Where, select: Option<seq<string>>, orderBy: Option<OrderBy>, answer: seq<Row>)
    | OpFindMany(criteria: Criteria, answer: seq<Row>)
    | OpCount(counted: Option<Where>)
    | OpInsert(data: Row, turn: Turn)
    | OpUpdate(filter: Where, patch: Row, turn: Turn)
    | OpRemove(filter: Where, turn: Turn)

  datatype Reply =
    | Found(found: Option<Row>)
    | Listed(rows: seq<Row>)
    | Counted(n: nat)
    | Inserted(row: Row)
    | Affected(n: nat)
    | ContractBroken(error: ContractError)
    | NotUnique(constraint: Option<string>)
    | Rethrown(thrown: JsValue)
    | Crashed

  /** `rethrowUniqueViolation` on a failure. */
  function Translation(error: JsValue): Reply {
    match UniqueConstraintOf(error)
    case Crash => Crashed
    case Other => Rethrown(error)
    case Violation(constraint) => NotUnique(constraint)
  }

  /** The filter of a single-row read, an update or a removal. */
  function GuardedWhere(w: Where, operation: Operation): Result<seq<Entry<Operand>>, ContractError> {
    var r := WhereFor(w, operation);
    if r.Success? && r.value == [] then Failure(EmptyWhere(operation)) else r
  }

  function OneRow(filter: seq<Entry<Operand>>, select: Option<seq<string>>, orderBy: Option<OrderBy>): Options {
    Options(select, if orderBy.None? then None else Some(OrderFor(orderBy.value)), Some(filter), None, None)
  }

  /** TypeORM's `findOne` cuts an answer to its first row, or `null`. */
  function FirstOf(answer: seq<Row>): Option<Row> {
    if answer == [] then None else Some(answer[0])
  }

  function Step(index: seq<string>, w: World, op: Op): (World, Reply) {
    match op
    case OpFindOne(filter, select, orderBy, answer) =>
      var r := GuardedWhere(filter, QueryTranslation.FindOne);
      if r.Failure? then (w, ContractBroken(r.error))
      else (w.(calls := w.calls + [FindOneCall(OneRow(r.value, select, orderBy))]), Found(FirstOf(answer)))
    case OpFindMany(c, answer) =>
      if !Accepted(c) then (w, ContractBroken(WhereFor(c.filter.value, QueryTranslation.FindMany).error))
      else (w.(calls := w.calls + [FindCall(OptionsFor(c))]), Listed(answer))
    case OpCount(counted) =>
      if counted.None? then (w.(calls := w.calls + [CountCall(None)]), Counted(|Fetched(None, w.rows)|))
      else
        var r := WhereFor(counted.value, QueryTranslation.Count);
        if r.Failure? then (w, ContractBroken(r.error))
        else (w.(calls := w.calls + [CountCall(Some(r.value))]), Counted(|Fetched(Some(r.value), w.rows)|))
    case OpInsert(data, turn) =>
      var r, calls := Inserts(index, w.rows, data, turn), w.calls + [InsertCall(data)];
      if r.Failure? then (World(w.rows, calls), Translation(r.error))
      else (World(w.rows + [data + turn.filled], calls), Inserted(if r.value.None? then data else data + r.value.value))
    case OpUpdate(filter, patch, turn) =>
      var g := GuardedWhere(filter, QueryTranslation.Update);
      if g.Failure? then (w, ContractBroken(g.error))
      else if patch == map[] then (w, Affected(0))
      else
        var r, calls := Updates(index, w.rows, g.value, patch, turn), w.calls + [UpdateCall(g.value, patch)];
        if r.Failure? then (World(w.rows, calls), Translation(r.error))
        else (World(Patched(g.value, patch, w.rows), calls), Affected(if r.value.None? then 0 else r.value.value))
    case OpRemove(filter, turn) =>
      var g := GuardedWhere(filter, QueryTranslation.Remove);
      if g.Failure? then (w, ContractBroken(g.error))
      else
        var r, calls := Deletes(w.rows, g.value, turn), w.calls + [DeleteCall(g.value)];
        if r.Failure? then (World(w.rows, calls), Rethrown(r.error))
        else (World(Without(g.value, w.rows), calls), Affected(if r.value.None? then 0 else r.value.value))
  }

  // ----- the adapter object -----

  /** `toOrder`: fills a fresh object key by key, skipping keys without a direction. */
  method ToOrder(orderBy: OrderBy) returns (result: seq<Entry<SqlDirection>>)
    requires Unique(orderBy)
    ensures result == OrderFor(orderBy)
  {
    result := [];
    for i := 0 to |orderBy|
      invariant result + OrderFor(orderBy[i..]) == OrderFor(orderBy)
      invariant forall k :: 0 <= k < |result| ==> exists j :: 0 <= j < i && result[k].key == orderBy[j].key
    {
      assert orderBy[i..][0] == orderBy[i] && orderBy[i..][1..] == orderBy[i + 1..];
      var key, direction := orderBy[i].key, orderBy[i].value;
      if direction == Unspecified {
        continue;
      }
      FreshOrderKey(orderBy, i, result);
      result := Put(result, key, if direction == Desc then DESC else ASC);
    }
    assert orderBy[|orderBy|..] == [];
  }

  lemma FreshOrderKey(orderBy: OrderBy, i: nat, result: seq<Entry<SqlDirection>>)
    requires Unique(orderBy) && i < |orderBy|
    requires forall k :: 0 <= k < |result| ==> exists j :: 0 <= j < i && result[k].key == orderBy[j].key
    ensures !Has(result, orderBy[i].key)
  {
  }

  class TypeOrmRepositoryAdapter {
    const repository: Repository

    constructor (repository: Repository)
      ensures this.repository == repository
    {
      this.repository := repository;
    }

    /** `applyProjection`: sets `select` and `order` on the options it is given. */
    method ApplyProjection(options: Options, select: Option<seq<string>>, orderBy: Option<OrderBy>) returns (r: Options)
      requires orderBy.Some? ==> Unique(orderBy.value)
      requires options.select.None? && options.order.None?
      ensures r == options.(select := select, order := if orderBy.None? then None else Some(OrderFor(orderBy.value)))
    {
      r := options;
      if select.Some? {
        r := r.(select := select);
      }
      if orderBy.Some? {
        var order := ToOrder(orderBy.value);
        r := r.(order := Some(order));
      }
    }

    /** `toFindManyOptions` */
    method ToFindManyOptions(c: Criteria) returns (r: Result<Options, ContractError>)
      requires c.orderBy.Some? ==> Unique(c.orderBy.value)
      requires c.filter.Some? ==> Unique(c.filter.value)
      ensures r == if Accepted(c) then Success(OptionsFor(c))
              else Failure(WhereFor(c.filter.value, QueryTranslation.FindMany).error)
    {
      var options := Options(None, None, None, None, None);
      options := ApplyProjection(options, c.select, c.orderBy);
      if c.filter.Some? {
        var translated := ToWhere(c.filter.value, QueryTranslation.FindMany);
        if translated.Failure? {
          return Failure(translated.error);
        }
        options := options.(filter := Some(translated.value));
      }
      if c.skip.Some? {
        options := options.(skip := c.skip);
      }
      if c.take.Some? {
        options := options.(take := c.take);
      }
      return Success(options);
    }

    method FindOne(filter: Where, select: Option<seq<string>>, orderBy: Option<OrderBy>,
                   answer: seq<Row>) returns (reply: Reply)
      requires Unique(filter) && (orderBy.Some? ==> Unique(orderBy.value))
      modifies repository`calls
      ensures (repository.Contents(), reply)
           == Step(repository.index, old(repository.Contents()), OpFindOne(filter, select, orderBy, answer))
    {
      var translated := ToWhere(filter, QueryTranslation.FindOne);
      if translated.Failure? {
        return ContractBroken(translated.error);
      }
      if translated.value == [] {
        return ContractBroken(EmptyWhere(QueryTranslation.FindOne));
      }
      var options := Options(None, None, Some(translated.value), None, None);
      options := ApplyProjection(options, select, orderBy);
      var row := repository.FindOne(options, answer);
      return Found(row);
    }

    method FindMany(c: Criteria, answer: seq<Row>) returns (reply: Reply)
      requires c.orderBy.Some? ==> Unique(c.orderBy.value)
      requires c.filter.Some? ==> Unique(c.filter.value)
      modifies repository`calls
      ensures (repository.Contents(), reply)
           == Step(repository.index, old(repository.Contents()), OpFindMany(c, answer))
    {
      var options := ToFindManyOptions(c);
      if options.Failure? {
        return ContractBroken(options.error);
      }
      var rows := repository.Find(options.value, answer);
      return Listed(rows);
    }

    method Count(counted: Option<Where>) returns (reply: Reply)
      requires counted.Some? ==> Unique(counted.value)
      modifies repository`calls
      ensures (repository.Contents(), reply) == Step(repository.index, old(repository.Contents()), OpCount(counted))
    {
      if counted.None? {
        var all := repository.Count(None);
        return Counted(all);
      }
      var translated := ToWhere(counted.value, QueryTranslation.Count);
      if translated.Failure? {
        return ContractBroken(translated.error);
      }
      var n := repository.Count(Some(translated.value));
      return Counted(n);
    }

    method Insert(data: Row, turn: Turn) returns (reply: Reply)
      modifies repository
      ensures (repository.Contents(), reply) == Step(repository.index, old(repository.Contents()), OpInsert(data, turn))
    {
      var result := repository.Insert(data, turn);
      if result.Failure? {
        return Translation(result.error);
      }
      return Inserted(if result.value.None? then data else data + result.value.value);
    }

    method Update(filter: Where, patch: Row, turn: Turn) returns (reply: Reply)
      requires Unique(filter)
      modifies repository
      ensures (repository.Contents(), reply)
           == Step(repository.index, old(repository.Contents()), OpUpdate(filter, patch, turn))
    {
      var criteria := ToWhere(filter, QueryTranslation.Update);
      if criteria.Failure? {
        return ContractBroken(criteria.error);
      }
      if criteria.value == [] {
        return ContractBroken(EmptyWhere(QueryTranslation.Update));
      }
      if patch == map[] {
        return Affected(0);
      }
      var result := repository.Update(criteria.value, patch, turn);
      if result.Failure? {
        return Translation(result.error);
      }
      return Affected(if result.value.None? then 0 else result.value.value);
    }

    method Remove(filter: Where, turn: Turn) returns (reply: Reply)
      requires Unique(filter)
      modifies repository
      ensures (repository.Contents(), reply)
           == Step(repository.index, old(repository.Contents()), OpRemove(filter, turn))
    {
      var criteria := ToWhere(filter, QueryTranslation.Remove);
      if criteria.Failure? {
        return ContractBroken(criteria.error);
      }
      if criteria.value == [] {
        return ContractBroken(EmptyWhere(QueryTranslation.Remove));
      }
      var result := repository.Delete(criteria.value, turn);
      if result.Failure? {
        return Rethrown(result.error);
      }
      return Affected(if result.value.None? then 0 else result.value.value);
    }
  }
}
