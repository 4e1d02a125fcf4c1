/** Dashboards as JSON trees, and the generator that rewrites their query expressions. */
module Dashboard {
  import opened Results
  import opened Expression

  /** A JSON value; numbers, booleans and null are scalars that the generator never looks into. */
  datatype Json =
    | Text(text: string)
    | Scalar(printed: string)
    | List(items: seq<Json>)
    | Object(members: seq<Member>)

  datatype Member = Member(key: string, value: Json)

  /** `rewriteDashboardValue`; `key` is the member name the value stands directly under, if any. */
  function RewriteValue(value: Json, key: Option<string>, settings: Settings): Json
    decreases value, 0
  {
    match value
    case Text(text) => if key == Some("expr") then Text(RewriteExpression(text, settings)) else value
    case Scalar(_) => value
    case List(items) => List(RewriteItems(items, settings))
    case Object(members) => Object(RewriteMembers(members, settings))
  }

  function RewriteItems(items: seq<Json>, settings: Settings): seq<Json> {
    if items == [] then [] else [RewriteValue(items[0], None, settings)] + RewriteItems(items[1..], settings)
  }

  function RewriteMembers(members: seq<Member>, settings: Settings): seq<Member> {
    if members == [] then []
    else
      var m := members[0];
      [Member(m.key, RewriteValue(m.value, Some(m.key), settings))] + RewriteMembers(members[1..], settings)
  }

  /** Rewriting a dashboard that has been rewritten changes nothing. */
  lemma {:induction false} RewriteTwice(value: Json, key: Option<string>, settings: Settings)
    requires Proper(settings)
    ensures RewriteValue(RewriteValue(value, key, settings), key, settings) == RewriteValue(value, key, settings)
    decreases value, 0
  {
    match value
    case Text(text) => RewriteExpressionTwice(text, settings);
    case Scalar(_) =>
    case List(items) => ItemsTwice(items, settings);
    case Object(members) => MembersTwice(members, settings);
  }

  lemma {:induction false} ItemsTwice(items: seq<Json>, settings: Settings)
    requires Proper(settings)
    ensures RewriteItems(RewriteItems(items, settings), settings) == RewriteItems(items, settings)
    decreases items
  {
    if items != [] {
      RewriteTwice(items[0], None, settings);
      ItemsTwice(items[1..], settings);
      assert RewriteItems(items, settings)[1..] == RewriteItems(items[1..], settings);
    }
  }

  lemma {:induction false} MembersTwice(members: seq<Member>, settings: Settings)
    requires Proper(settings)
    ensures RewriteMembers(RewriteMembers(members, settings), settings) == RewriteMembers(members, settings)
    decreases members
  {
    if members != [] {
      RewriteTwice(members[0].value, Some(members[0].key), settings);
      MembersTwice(members[1..], settings);
      assert RewriteMembers(members, settings)[1..] == RewriteMembers(members[1..], settings);
    }
  }

  // ----- what changes -----

  /** A place in a tree: at each step the position of an item or of a member. */
  type Path = seq<nat>

  /** The value at a place, with the member name it stands directly under. */
  function At(value: Json, key: Option<string>, path: Path): Option<(Json, Option<string>)>
    decreases |path|
  {
    if path == [] then Some((value, key))
    else
      match value
      case List(items) => if path[0] < |items| then At(items[path[0]], None, path[1..]) else None
      case Object(members) =>
        if path[0] < |members| then At(members[path[0]].value, Some(members[path[0]].key), path[1..]) else None
      case _ => None
  }

  lemma {:induction false} RewriteItemsAt(items: seq<Json>, settings: Settings)
    ensures var r := RewriteItems(items, settings);
            |r| == |items| && forall i :: 0 <= i < |items| ==> r[i] == RewriteValue(items[i], None, settings)
  {
    if items != [] {
      RewriteItemsAt(items[1..], settings);
    }
  }

  lemma {:induction false} RewriteMembersAt(members: seq<Member>, settings: Settings)
    ensures var r := RewriteMembers(members, settings);
            && |r| == |members|
            && forall i :: 0 <= i < |members| ==>
                 r[i] == Member(members[i].key, RewriteValue(members[i].value, Some(members[i].key), settings))
  {
    if members != [] {
      RewriteMembersAt(members[1..], settings);
    }
  }

  /** Rewriting keeps every place of the tree and every member name. */
  lemma {:induction false} RewriteAt(value: Json, key: Option<string>, settings: Settings, path: Path)
    ensures var before, after := At(value, key, path), At(RewriteValue(value, key, settings), key, path);
            && (before.None? <==> after.None?)
            && (before.Some? ==>
                after.value == (RewriteValue(before.value.0, before.value.1, settings), before.value.1))
    decreases |path|
  {
    if path != [] {
      match value
      case Text(_) =>
      case Scalar(_) =>
      case List(items) =>
        RewriteItemsAt(items, settings);
        if path[0] < |items| {
          RewriteAt(items[path[0]], None, settings, path[1..]);
        }
      case Object(members) =>
        RewriteMembersAt(members, settings);
        if path[0] < |members| {
          RewriteAt(members[path[0]].value, Some(members[path[0]].key), settings, path[1..]);
        }
    }
  }

  /** Only strings directly under `expr` change: a dashboard and its rewriting hold a text or a scalar at
      the same places under the same names, the same one everywhere else, and the rewritten expression
      there. */
  lemma OnlyExpressionsChange(dashboard: Json, settings: Settings, path: Path)
    ensures var before, after := At(dashboard, None, path), At(RewriteValue(dashboard, None, settings), None, path);
            && (before.None? <==> after.None?)
            && (before.Some? ==>
                  && after.value.1 == before.value.1
                  && (before.value.0.Scalar? || after.value.0.Scalar? ==> after == before)
                  && (before.value.0.Text? <==> after.value.0.Text?)
                  && (before.value.0.Text? ==>
                        after.value.0.text ==
                        if before.value.1 == Some("expr") then RewriteExpression(before.value.0.text, settings)
                        else before.value.0.text))
  {
    RewriteAt(dashboard, None, settings, path);
  }
}
