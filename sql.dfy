/** The part of `sqlx::QueryBuilder<Postgres>` the repositories use: a text
    buffer with positional arguments (`push`, `push_bind`) and the
    comma-separated view of it (`separated`, `Separated::push`,
    `Separated::push_bind_unseparated`). */
module Sql {
  import opened Wrappers
  import opened Foreign

  /** A value bound to a placeholder. Postgres enums travel as the name of their variant. */
  datatype Value =
    | Text(s: string)
    | UuidValue(u: Uuid)
    | JsonValue(j: Json)
    | EnumValue(typeName: string, variant: string)

  /** One `column = $k` item of a SET list, with the value bound to `$k`. */
  datatype Assignment = Assignment(column: string, value: Value)

  /** What `build_query_as` hands to the driver: text and arguments. */
  datatype Statement = Statement(sql: string, binds: seq<Value>)

  predicate IsDigit(c: char)
  {
    '0' <= c <= '9'
  }

  function DigitValue(c: char): (d: nat)
    requires IsDigit(c)
    ensures d < 10
  {
    c as int - '0' as int
  }

  function DigitChar(d: nat): (c: char)
    requires d < 10
    ensures IsDigit(c)
  {
    ('0' as int + d) as char
  }

  /** Decimal rendering of a placeholder index. */
  function Decimal(n: nat): (s: string)
    ensures |s| >= 1
    ensures forall i :: 0 <= i < |s| ==> IsDigit(s[i])
  {
    if n < 10 then [DigitChar(n)] else Decimal(n / 10) + [DigitChar(n % 10)]
  }

  /** Reads a placeholder index back. */
  function ParseDecimal(s: string): nat
    requires forall i :: 0 <= i < |s| ==> IsDigit(s[i])
  {
    if s == [] then 0
    else ParseDecimal(s[..|s| - 1]) * 10 + DigitValue(s[|s| - 1])
  }

  /** Placeholder indices read back as written, so distinct indices give
      distinct placeholders. */
  lemma {:induction false} DecimalRoundTrip(n: nat)
    ensures ParseDecimal(Decimal(n)) == n
  {
    if n >= 10 {
      var s := Decimal(n);
      assert s[..|s| - 1] == Decimal(n / 10);
      DecimalRoundTrip(n / 10);
    }
  }

  /** The Postgres placeholder `$k`. */
  function Placeholder(k: nat): string
  {
    "$" + Decimal(k)
  }

  /** The SET list text for `assigns`, numbered from `$1`: items separated by ","
      with no leading or trailing separator. */
  function SetList(assigns: seq<Assignment>): string
  {
    if assigns == [] then ""
    else SetList(assigns[..|assigns| - 1]) + (if |assigns| > 1 then "," else "")
         + assigns[|assigns| - 1].column + " = " + Placeholder(|assigns|)
  }

  /** The bound values of `assigns`, in order. */
  function Values(assigns: seq<Assignment>): (vs: seq<Value>)
    ensures |vs| == |assigns|
    ensures forall i :: 0 <= i < |assigns| ==> vs[i] == assigns[i].value
  {
    if assigns == [] then [] else Values(assigns[..|assigns| - 1]) + [assigns[|assigns| - 1].value]
  }

  /** The SET list is empty exactly when there is nothing to assign. */
  lemma SetListEmpty(assigns: seq<Assignment>)
    ensures SetList(assigns) == "" <==> assigns == []
  {
  }

  /** Each prefix of the assignments renders to a prefix of the SET list. */
  lemma {:induction false} SetListPrefix(assigns: seq<Assignment>, k: nat)
    requires k <= |assigns|
    ensures SetList(assigns[..k]) <= SetList(assigns)
  {
    if k < |assigns| {
      assert assigns[..|assigns| - 1][..k] == assigns[..k];
      SetListPrefix(assigns[..|assigns| - 1], k);
    } else {
      assert assigns[..k] == assigns;
    }
  }

  /** No leading separator: a non-empty SET list starts with the first
      column, bound to `$1`. */
  lemma SetListStartsWithFirst(assigns: seq<Assignment>)
    requires assigns != []
    ensures assigns[0].column + " = " + Placeholder(1) <= SetList(assigns)
  {
    SetListPrefix(assigns, 1);
    assert assigns[..1][..0] == [];
  }

  /** The position of `c` in `order`: its first occurrence. */
  function IndexOf(order: seq<string>, c: string): (k: nat)
    requires c in order
    ensures k < |order| && order[k] == c
    ensures forall j :: 0 <= j < k ==> order[j] != c
  {
    if order[0] == c then 0 else 1 + IndexOf(order[1..], c)
  }

  /** Every assigned column is one of `order`, each at most once, and they
      come in the order `order` lists them. */
  predicate FollowsOrder(assigns: seq<Assignment>, order: seq<string>)
  {
    && (forall i :: 0 <= i < |assigns| ==> assigns[i].column in order)
    && (forall i, j :: 0 <= i < j < |assigns| ==>
          IndexOf(order, assigns[i].column) < IndexOf(order, assigns[j].column))
  }

  predicate Distinct(order: seq<string>)
  {
    forall i, j :: 0 <= i < j < |order| ==> order[i] != order[j]
  }

  /** A string field bound as text, when present. */
  function TextOf(o: Option<string>): (v: Option<Value>)
    ensures v.Some? <==> o.Some?
    ensures o.Some? ==> v.value == Text(o.value)
  {
    if o.Some? then Some(Text(o.value)) else None
  }

  /** `if let Some(v) = v { <column> = v }`: one assignment or none. */
  function Optional(column: string, v: Option<Value>): seq<Assignment>
  {
    if v.Some? then [Assignment(column, v.value)] else []
  }

  /** The assignments of the present values, `opts[i]` going to column
      `order[i]`, in the order of `order`. */
  function Present(order: seq<string>, opts: seq<Option<Value>>): seq<Assignment>
    requires |order| == |opts|
  {
    if order == [] then [] else Optional(order[0], opts[0]) + Present(order[1..], opts[1..])
  }

  /** `Present` over two columns: the optional assignments one after the other. */
  lemma Present2(c0: string, c1: string, o0: Option<Value>, o1: Option<Value>)
    ensures Present([c0, c1], [o0, o1]) == Optional(c0, o0) + Optional(c1, o1)
  {
    assert [c0, c1][1..] == [c1] && [o0, o1][1..] == [o1];
    assert [c1][1..] == [] && [o1][1..] == [];
    assert Present([c1], [o1]) == Optional(c1, o1) + [];
    assert Optional(c1, o1) + [] == Optional(c1, o1);
  }

  /** `Present` over three columns: the optional assignments one after the other. */
  lemma Present3(c0: string, c1: string, c2: string, o0: Option<Value>, o1: Option<Value>, o2: Option<Value>)
    ensures Present([c0, c1, c2], [o0, o1, o2]) == Optional(c0, o0) + Optional(c1, o1) + Optional(c2, o2)
  {
    assert [c0, c1, c2][1..] == [c1, c2] && [o0, o1, o2][1..] == [o1, o2];
    Present2(c1, c2, o1, o2);
  }

  /** In a list without repetitions, a later element keeps its position
      relative to the tail. */
  lemma IndexOfTail(order: seq<string>, c: string)
    requires order != [] && c in order[1..] && c != order[0]
    ensures IndexOf(order, c) == 1 + IndexOf(order[1..], c)
  {
  }

  lemma DistinctTail(order: seq<string>)
    requires order != [] && Distinct(order)
    ensures Distinct(order[1..])
    ensures order[0] !in order[1..]
  {
    forall i, j | 0 <= i < j < |order[1..]| ensures order[1..][i] != order[1..][j] {
      assert order[1..][i] == order[i + 1] && order[1..][j] == order[j + 1];
    }
    forall k | 0 <= k < |order[1..]| ensures order[1..][k] != order[0] {
      assert order[1..][k] == order[k + 1];
    }
  }

  lemma {:induction false} PresentColumns(order: seq<string>, opts: seq<Option<Value>>)
    requires |order| == |opts|
    ensures forall i :: 0 <= i < |Present(order, opts)| ==> Present(order, opts)[i].column in order
  {
    if order != [] {
      var head := Optional(order[0], opts[0]);
      var tail := Present(order[1..], opts[1..]);
      var all: seq<Assignment> := head + tail;
      PresentColumns(order[1..], opts[1..]);
      forall i | 0 <= i < |all| ensures all[i].column in order {
        if i >= |head| {
          assert all[i] == tail[i - |head|];
          assert tail[i - |head|].column in order[1..];
        }
      }
    }
  }

  lemma {:induction false} PresentOrdered(order: seq<string>, opts: seq<Option<Value>>)
    requires |order| == |opts| && Distinct(order)
    ensures FollowsOrder(Present(order, opts), order)
  {
    PresentColumns(order, opts);
    if order != [] {
      var head := Optional(order[0], opts[0]);
      var tail := Present(order[1..], opts[1..]);
      var all := head + tail;
      DistinctTail(order);
      PresentOrdered(order[1..], opts[1..]);
      forall i | 0 <= i < |tail| ensures IndexOf(order, tail[i].column) == 1 + IndexOf(order[1..], tail[i].column) {
        IndexOfTail(order, tail[i].column);
      }
      forall i, j | 0 <= i < j < |all|
        ensures IndexOf(order, all[i].column) < IndexOf(order, all[j].column)
      {
        assert all[j] == tail[j - |head|];
        if i >= |head| {
          assert all[i] == tail[i - |head|];
        }
      }
    }
  }

  lemma {:induction false} PresentMembers(order: seq<string>, opts: seq<Option<Value>>)
    requires |order| == |opts| && Distinct(order)
    ensures forall i, v :: 0 <= i < |order| ==>
              (Assignment(order[i], v) in Present(order, opts) <==> opts[i] == Some(v))
  {
    if order != [] {
      var head := Optional(order[0], opts[0]);
      var tail := Present(order[1..], opts[1..]);
      DistinctTail(order);
      PresentColumns(order[1..], opts[1..]);
      PresentMembers(order[1..], opts[1..]);
      forall i, v | 0 <= i < |order|
        ensures Assignment(order[i], v) in head + tail <==> opts[i] == Some(v)
      {
        if i == 0 {
          assert Assignment(order[0], v) !in tail;
        } else {
          assert order[i] == order[1..][i - 1] && opts[i] == opts[1..][i - 1];
          assert order[i] != order[0];
        }
      }
    }
  }

  /** `Present` assigns exactly the present values, each to its own column,
      in column order. */
  lemma PresentSpec(order: seq<string>, opts: seq<Option<Value>>)
    requires |order| == |opts| && Distinct(order)
    ensures FollowsOrder(Present(order, opts), order)
    ensures forall i, v :: 0 <= i < |order| ==>
              (Assignment(order[i], v) in Present(order, opts) <==> opts[i] == Some(v))
  {
    PresentOrdered(order, opts);
    PresentMembers(order, opts);
  }

  /** The first two placeholders. */
  lemma FirstPlaceholders()
    ensures Placeholder(1) == "$1" && Placeholder(2) == "$2"
  {
    assert DigitChar(1) == '1' && DigitChar(2) == '2';
  }

  /** A single assignment renders as `<column> = $1`. */
  lemma SingleSetList(a: Assignment)
    ensures SetList([a]) == a.column + " = $1"
    ensures Values([a]) == [a.value]
  {
    assert DigitChar(1) == '1';
    assert Placeholder(1) == "$1";
    assert [a][..0] == [];
  }

  /** `t` is the end of `s`. */
  predicate EndsWith(s: string, t: string)
  {
    |t| <= |s| && s[|s| - |t|..] == t
  }

  /** The statement every `update` builder sends: `prefix`, the SET list,
      `middle`, the placeholder after the SET list's, and `suffix`, with the
      SET values followed by the row id as arguments, so the last
      placeholder is the id's. */
  function UpdateById(prefix: string, assigns: seq<Assignment>, middle: string, id: Value, suffix: string)
    : (st: Statement)
    ensures |st.binds| == |assigns| + 1
    ensures st.binds[..|assigns|] == Values(assigns)
    ensures st.binds[|assigns|] == id
  {
    assert (Values(assigns) + [id])[..|assigns|] == Values(assigns);
    Statement(prefix + SetList(assigns) + middle + Placeholder(|assigns| + 1) + suffix, Values(assigns) + [id])
  }

  /** The text of `UpdateById`: it starts with the prefix and the SET list,
      with nothing between them, and ends with `middle`, the id's
      placeholder and `suffix`. */
  lemma UpdateByIdText(prefix: string, assigns: seq<Assignment>, middle: string, id: Value, suffix: string)
    ensures var st := UpdateById(prefix, assigns, middle, id, suffix);
            && prefix <= st.sql
            && prefix + SetList(assigns) <= st.sql
            && EndsWith(st.sql, middle + Placeholder(|st.binds|) + suffix)
  {
    var head := prefix + SetList(assigns);
    var tail := middle + Placeholder(|assigns| + 1) + suffix;
    assert head + middle + Placeholder(|assigns| + 1) + suffix == head + tail;
    assert (head + tail)[..|head|] == head;
    assert (head + tail)[..|prefix|] == prefix;
    assert (head + tail)[|head|..] == tail;
  }


  /** `UpdateById` spelled out, for the builders. */
  lemma UpdateByIdUnfold(prefix: string, assigns: seq<Assignment>, middle: string, id: Value, suffix: string)
    ensures UpdateById(prefix, assigns, middle, id, suffix)
            == Statement(prefix + SetList(assigns) + middle + Placeholder(|assigns| + 1) + suffix, Values(assigns) + [id])
  {
  }

  /** Text pushed in two pieces is the text pushed at once. */
  lemma PushTwice(a: string, b: string, c: string)
    ensures a + b + c == a + (b + c)
  {
  }

  /** The arguments when the SET list ends with `last`: the other SET
      values, then `last`'s, then the id. */
  lemma UpdateByIdLastBinds(prefix: string, init: seq<Assignment>, last: Assignment, middle: string, id: Value, suffix: string)
    ensures var st := UpdateById(prefix, init + [last], middle, id, suffix);
            && |st.binds| == |init| + 2
            && st.binds[..|init|] == Values(init)
            && st.binds[|init|] == last.value
            && st.binds[|init| + 1] == id
  {
    var st := UpdateById(prefix, init + [last], middle, id, suffix);
    SetListSnoc(init, last);
    assert st.binds[..|init|] == st.binds[..|init| + 1][..|init|];
  }

  /** With nothing to assign, the SET list is empty and the id is `$1`. */
  lemma EmptyUpdateById(prefix: string, middle: string, id: Value, suffix: string)
    ensures UpdateById(prefix, [], middle, id, suffix) == Statement(prefix + middle + "$1" + suffix, [id])
  {
    FirstPlaceholders();
    assert prefix + "" == prefix;
    assert [] + [id] == [id];
  }

  /** With one assignment, it is `$1` and the id is `$2`. */
  lemma SingleUpdateById(prefix: string, a: Assignment, middle: string, id: Value, suffix: string)
    ensures UpdateById(prefix, [a], middle, id, suffix)
            == Statement(prefix + (a.column + " = $1") + middle + "$2" + suffix, [a.value, id])
  {
    SingleSetList(a);
    FirstPlaceholders();
    assert [a.value] + [id] == [a.value, id];
  }

  lemma PrefixAfter(p: string, a: string, b: string)
    requires a <= b
    ensures p + a <= p + b
  {
    assert (p + b)[..|p + a|] == p + b[..|a|];
  }

  lemma PrefixTrans(a: string, b: string, c: string)
    requires a <= b && b <= c
    ensures a <= c
  {
    assert c[..|a|] == c[..|b|][..|a|];
  }

  /** A non-empty SET list starts right after the prefix with its first
      column, bound to `$1`. */
  lemma FirstUpdateById(prefix: string, assigns: seq<Assignment>, middle: string, id: Value, suffix: string)
    requires assigns != []
    ensures prefix + (assigns[0].column + " = $1") <= UpdateById(prefix, assigns, middle, id, suffix).sql
  {
    var first := assigns[0].column + " = $1";
    var list := SetList(assigns);
    SetListStartsWithFirst(assigns);
    FirstPlaceholders();
    PushTwice(assigns[0].column, " = ", "$1");
    assert first <= list;
    PrefixAfter(prefix, first, list);
    UpdateByIdText(prefix, assigns, middle, id, suffix);
    PrefixTrans(prefix + first, prefix + list, UpdateById(prefix, assigns, middle, id, suffix).sql);
  }

  class QueryBuilder {
    var sql: string
    var arguments: seq<Value>

    /** `QueryBuilder::new(init)`. */
    constructor(init: string)
      ensures sql == init && arguments == []
    {
      sql := init;
      arguments := [];
    }

    /** `push`: appends text. */
    method Push(s: string)
      modifies this
      ensures sql == old(sql) + s
      ensures arguments == old(arguments)
    {
      sql := sql + s;
    }

    /** `push_bind`: adds an argument and writes its placeholder `$n`, where
        n is the new number of arguments. */
    method PushBind(v: Value)
      modifies this
      ensures arguments == old(arguments) + [v]
      ensures sql == old(sql) + Placeholder(|arguments|)
    {
      arguments := arguments + [v];
      sql := sql + Placeholder(|arguments|);
    }

    /** `build_query_as`: the statement handed to the driver. */
    function Build(): (st: Statement)
      reads this
      ensures st.sql == sql && st.binds == arguments
    {
      Statement(sql, arguments)
    }
  }

  /** `query_builder.separated(separator)`: puts the separator before every
      pushed item but the first. */
  class Separated {
    const builder: QueryBuilder
    const separator: string
    var pushSeparator: bool

    constructor(b: QueryBuilder, sep: string)
      ensures builder == b && separator == sep && !pushSeparator
    {
      builder := b;
      separator := sep;
      pushSeparator := false;
    }

    /** `Separated::push`. */
    method Push(s: string)
      modifies this, builder
      ensures builder.sql == old(builder.sql) + (if old(pushSeparator) then separator else "") + s
      ensures builder.arguments == old(builder.arguments)
      ensures pushSeparator
    {
      if pushSeparator {
        builder.Push(separator + s);
      } else {
        builder.Push(s);
        pushSeparator := true;
      }
    }

    /** `Separated::push_bind_unseparated`. */
    method PushBindUnseparated(v: Value)
      modifies builder
      ensures builder.arguments == old(builder.arguments) + [v]
      ensures builder.sql == old(builder.sql) + Placeholder(|builder.arguments|)
    {
      builder.PushBind(v);
    }
  }

  /** After `prefix`, the builder holds exactly the SET list of `done`. */
  ghost predicate Emitted(sep: Separated, prefix: string, done: seq<Assignment>)
    reads sep, sep.builder
  {
    && sep.separator == ","
    && sep.builder.sql == prefix + SetList(done)
    && sep.builder.arguments == Values(done)
    && sep.pushSeparator == (done != [])
  }

  /** One `separated.push("<column> = "); separated.push_bind_unseparated(v);`
      pair: extends the SET list by one assignment. */
  method PushAssignment(sep: Separated, a: Assignment, ghost prefix: string, ghost done: seq<Assignment>)
    requires Emitted(sep, prefix, done)
    modifies sep, sep.builder
    ensures Emitted(sep, prefix, done + [a])
  {
    ghost var head := sep.builder.sql + (if done != [] then "," else "");
    sep.Push(a.column + " = ");
    sep.PushBindUnseparated(a.value);
    SetListSnoc(done, a);
    PushTwice(head, a.column, " = ");
    PushTwice(prefix, SetList(done), if done != [] then "," else "");
    PushTwice(prefix, SetList(done) + (if done != [] then "," else ""), a.column);
    PushTwice(prefix, SetList(done) + (if done != [] then "," else "") + a.column, " = ");
    PushTwice(prefix, SetList(done) + (if done != [] then "," else "") + a.column + " = ", Placeholder(|done| + 1));
  }

  /** The SET list after one more assignment. */
  lemma SetListSnoc(done: seq<Assignment>, a: Assignment)
    ensures SetList(done + [a])
            == SetList(done) + (if done != [] then "," else "") + a.column + " = " + Placeholder(|done| + 1)
    ensures Values(done + [a]) == Values(done) + [a.value]
  {
    assert (done + [a])[..|done|] == done;
  }

  /** `if let Some(v) = v { separated.push("<column> = "); separated.push_bind_unseparated(v); }`:
      extends the SET list by the optional assignment. */
  method PushOptional(sep: Separated, column: string, v: Option<Value>, ghost prefix: string, ghost done: seq<Assignment>)
    returns (ghost after: seq<Assignment>)
    requires Emitted(sep, prefix, done)
    modifies sep, sep.builder
    ensures after == done + Optional(column, v)
    ensures Emitted(sep, prefix, after)
  {
    after := done;
    if v.Some? {
      PushAssignment(sep, Assignment(column, v.value), prefix, done);
      after := done + [Assignment(column, v.value)];
    } else {
      assert done + [] == done;
    }
  }
}
