/**
 * The part of zod 3 the validation files use: string, enum, array, object, optional and
 * any schemas, with `.min` checks, `.partial()`, `safeParse`'s list of issues (path and
 * message, in zod's order and with its default messages) and the parsed data, from which
 * object schemas strip unknown keys.
 */
module Zod {
  import opened Wrappers
  import opened Strings
  import opened Json

  /** An object schema's entry. */
  datatype Field = Field(key: string, schema: Schema)

  datatype Schema =
    | SString(min: nat, minMessage: Option<string>)
    | SEnum(options: seq<string>)
    | SArray(item: Schema, minItems: nat, minItemsMessage: Option<string>)
    | SObject(fields: seq<Field>)
    | SOptional(inner: Schema)
    | SAny

  /** An issue: where (keys and array indices, as text) and what. */
  datatype Issue = Issue(path: seq<string>, message: string)

  /** The schema a value must satisfy, stated directly. */
  predicate Accepts(s: Schema, v: Option<Json>)
    decreases s
  {
    match s
    case SAny => true
    case SOptional(inner) => v.None? || Accepts(inner, v)
    case SString(min, _) => v.Some? && v.value.JStr? && |v.value.s| >= min
    case SEnum(options) => v.Some? && v.value.JStr? && v.value.s in options
    case SArray(item, min, _) =>
      && v.Some? && v.value.JArr? && |v.value.items| >= min
      && forall i :: 0 <= i < |v.value.items| ==> Accepts(item, Some(v.value.items[i]))
    case SObject(fields) =>
      && v.Some? && v.value.JObj?
      && forall i :: 0 <= i < |fields| ==> Accepts(fields[i].schema, Get(v.value, fields[i].key))
  }

  /** `util.joinValues`: the options quoted and separated by " | ". */
  function JoinValues(options: seq<string>): string {
    Join(Quoted(options), " | ")
  }

  function Quoted(options: seq<string>): (r: seq<string>)
    ensures |r| == |options|
    decreases |options|
  {
    if options == [] then [] else ["'" + options[0] + "'"] + Quoted(options[1..])
  }

  /** zod's `invalid_type` issue: "Required" for undefined, else what was expected and the
      type received. */
  function TypeIssue(path: seq<string>, expected: string, v: Option<Json>): Issue {
    Issue(path, if v.None? then "Required" else "Expected " + expected + ", received " + TypeName(v))
  }

  /** The issues `safeParse` reports for `v` at `path`. */
  function Check(s: Schema, v: Option<Json>, path: seq<string>): seq<Issue>
    decreases s, 1
  {
    match s
    case SAny => []
    case SOptional(inner) => if v.None? then [] else Check(inner, v, path)
    case SString(min, message) =>
      if v.None? || !v.value.JStr? then [TypeIssue(path, "string", v)]
      else if |v.value.s| < min then
        [Issue(path, message.GetOr("String must contain at least " + NatToString(min) + " character(s)"))]
      else []
    case SEnum(options) =>
      if v.None? || !v.value.JStr? then [TypeIssue(path, JoinValues(options), v)]
      else if v.value.s !in options then
        [Issue(path, "Invalid enum value. Expected " + JoinValues(options) + ", received '" + v.value.s + "'")]
      else []
    case SArray(item, min, message) =>
      if v.None? || !v.value.JArr? then [TypeIssue(path, "array", v)]
      else
        (if |v.value.items| < min
         then [Issue(path, message.GetOr("Array must contain at least " + NatToString(min) + " element(s)"))]
         else [])
        + CheckItems(s, v.value.items, path, 0)
    case SObject(fields) =>
      if v.None? || !v.value.JObj? then [TypeIssue(path, "object", v)]
      else CheckFields(s, v.value, path, 0)
  }

  /** The issues of the elements from index `i` on, each under its index. */
  function CheckItems(s: Schema, items: seq<Json>, path: seq<string>, i: nat): seq<Issue>
    requires s.SArray? && i <= |items|
    decreases s, 0, |items| - i
  {
    if i == |items| then []
    else Check(s.item, Some(items[i]), path + [NatToString(i)]) + CheckItems(s, items, path, i + 1)
  }

  /** The issues of the object's entries from the `i`-th on, in the shape's order. */
  function CheckFields(s: Schema, obj: Json, path: seq<string>, i: nat): seq<Issue>
    requires s.SObject? && i <= |s.fields|
    decreases s, 0, |s.fields| - i
  {
    if i == |s.fields| then []
    else
      var f := s.fields[i];
      assert f in s.fields;
      Check(f.schema, Get(obj, f.key), path + [f.key]) + CheckFields(s, obj, path, i + 1)
  }

  /** `safeParse` succeeds exactly when the schema accepts the value. */
  lemma {:induction false} CheckEmptyIffAccepts(s: Schema, v: Option<Json>, path: seq<string>)
    ensures Check(s, v, path) == [] <==> Accepts(s, v)
    decreases s, 1
  {
    match s
    case SAny =>
    case SOptional(inner) =>
      if v.Some? {
        CheckEmptyIffAccepts(inner, v, path);
      }
    case SString(_, _) =>
    case SEnum(_) =>
    case SArray(item, min, message) =>
      if v.Some? && v.value.JArr? {
        CheckItemsEmpty(s, v.value.items, path, 0);
      }
    case SObject(fields) =>
      if v.Some? && v.value.JObj? {
        CheckFieldsEmpty(s, v.value, path, 0);
      }
  }

  lemma {:induction false} CheckItemsEmpty(s: Schema, items: seq<Json>, path: seq<string>, i: nat)
    requires s.SArray? && i <= |items|
    ensures CheckItems(s, items, path, i) == [] <==> forall j :: i <= j < |items| ==> Accepts(s.item, Some(items[j]))
    decreases s, 0, |items| - i
  {
    if i < |items| {
      CheckEmptyIffAccepts(s.item, Some(items[i]), path + [NatToString(i)]);
      CheckItemsEmpty(s, items, path, i + 1);
    }
  }

  lemma {:induction false} CheckFieldsEmpty(s: Schema, obj: Json, path: seq<string>, i: nat)
    requires s.SObject? && i <= |s.fields|
    ensures CheckFields(s, obj, path, i) == [] <==>
      forall j :: i <= j < |s.fields| ==> Accepts(s.fields[j].schema, Get(obj, s.fields[j].key))
    decreases s, 0, |s.fields| - i
  {
    if i < |s.fields| {
      var f := s.fields[i];
      assert f in s.fields;
      CheckEmptyIffAccepts(f.schema, Get(obj, f.key), path + [f.key]);
      CheckFieldsEmpty(s, obj, path, i + 1);
    }
  }

  /** Every issue is reported under the path of the value checked, or deeper. */
  lemma {:induction false} IssuesUnderPath(s: Schema, v: Option<Json>, path: seq<string>)
    ensures forall k :: 0 <= k < |Check(s, v, path)| ==> path <= Check(s, v, path)[k].path
    decreases s, 1
  {
    match s
    case SAny =>
    case SOptional(inner) =>
      if v.Some? {
        IssuesUnderPath(inner, v, path);
      }
    case SString(_, _) =>
    case SEnum(_) =>
    case SArray(item, min, message) =>
      if v.Some? && v.value.JArr? {
        ItemIssuesUnderPath(s, v.value.items, path, 0);
      }
    case SObject(fields) =>
      if v.Some? && v.value.JObj? {
        FieldIssuesUnderPath(s, v.value, path, 0);
      }
  }

  lemma {:induction false} ItemIssuesUnderPath(s: Schema, items: seq<Json>, path: seq<string>, i: nat)
    requires s.SArray? && i <= |items|
    ensures forall k :: 0 <= k < |CheckItems(s, items, path, i)| ==> path <= CheckItems(s, items, path, i)[k].path
    decreases s, 0, |items| - i
  {
    if i < |items| {
      var p := path + [NatToString(i)];
      IssuesUnderPath(s.item, Some(items[i]), p);
      ItemIssuesUnderPath(s, items, path, i + 1);
      var a: seq<Issue> := Check(s.item, Some(items[i]), p);
      var b: seq<Issue> := CheckItems(s, items, path, i + 1);
      forall k | 0 <= k < |a + b|
        ensures path <= (a + b)[k].path
      {
        if k < |a| {
          assert p <= a[k].path;
        } else {
          assert (a + b)[k] == b[k - |a|];
        }
      }
    }
  }

  lemma {:induction false} FieldIssuesUnderPath(s: Schema, obj: Json, path: seq<string>, i: nat)
    requires s.SObject? && i <= |s.fields|
    ensures forall k :: 0 <= k < |CheckFields(s, obj, path, i)| ==> path <= CheckFields(s, obj, path, i)[k].path
    decreases s, 0, |s.fields| - i
  {
    if i < |s.fields| {
      var f := s.fields[i];
      assert f in s.fields;
      var p := path + [f.key];
      IssuesUnderPath(f.schema, Get(obj, f.key), p);
      FieldIssuesUnderPath(s, obj, path, i + 1);
      var a: seq<Issue> := Check(f.schema, Get(obj, f.key), p);
      var b: seq<Issue> := CheckFields(s, obj, path, i + 1);
      forall k | 0 <= k < |a + b|
        ensures path <= (a + b)[k].path
      {
        if k < |a| {
          assert p <= a[k].path;
        } else {
          assert (a + b)[k] == b[k - |a|];
        }
      }
    }
  }

  /** The parsed data: the value itself, except that arrays are rebuilt from their parsed
      elements and objects keep only the shape's keys that the input has. */
  function Output(s: Schema, v: Option<Json>): Option<Json>
    decreases s, 1
  {
    match s
    case SAny => v
    case SString(_, _) => v
    case SEnum(_) => v
    case SOptional(inner) => if v.None? then None else Output(inner, v)
    case SArray(_, _, _) =>
      if v.Some? && v.value.JArr? then Some(JArr(OutputItems(s, v.value.items, 0))) else v
    case SObject(_) =>
      if v.Some? && v.value.JObj? then Some(JObj(OutputFields(s, v.value.fields, 0))) else v
  }

  function OutputItems(s: Schema, items: seq<Json>, i: nat): seq<Json>
    requires s.SArray? && i <= |items|
    decreases s, 0, |items| - i
  {
    if i == |items| then [] else [Output(s.item, Some(items[i])).GetOr(JNull)] + OutputItems(s, items, i + 1)
  }

  function OutputFields(s: Schema, obj: map<string, Json>, i: nat): map<string, Json>
    requires s.SObject? && i <= |s.fields|
    decreases s, 0, |s.fields| - i
  {
    if i == |s.fields| then map[]
    else
      var f := s.fields[i];
      assert f in s.fields;
      var rest := OutputFields(s, obj, i + 1);
      if f.key in obj then rest[f.key := Output(f.schema, Some(obj[f.key])).GetOr(JNull)] else rest
  }

  /** Parsing a present value gives a present value. */
  lemma {:induction false} OutputPresent(s: Schema, x: Json)
    ensures Output(s, Some(x)).Some?
    decreases s
  {
    if s.SOptional? {
      OutputPresent(s.inner, x);
    }
  }

  /** No two entries of an object schema share a key. */
  predicate DistinctKeys(fields: seq<Field>) {
    forall i, j :: 0 <= i < j < |fields| ==> fields[i].key != fields[j].key
  }

  /** The parsed object has exactly the shape's keys the input has, each holding that
      entry's parsed value. */
  lemma {:induction false} OutputFieldsShape(s: Schema, obj: map<string, Json>, i: nat)
    requires s.SObject? && i <= |s.fields| && DistinctKeys(s.fields)
    ensures var r := OutputFields(s, obj, i);
      && (forall k :: k in r ==> k in obj && exists j :: i <= j < |s.fields| && s.fields[j].key == k)
      && (forall j :: i <= j < |s.fields| && s.fields[j].key in obj ==>
            s.fields[j].key in r && Some(r[s.fields[j].key]) == Output(s.fields[j].schema, Some(obj[s.fields[j].key])))
    decreases |s.fields| - i
  {
    if i < |s.fields| {
      OutputFieldsShape(s, obj, i + 1);
      var f := s.fields[i];
      OutputPresent(f.schema, if f.key in obj then obj[f.key] else JNull);
    }
  }

  /** Every object schema, at any depth, names each key once. */
  predicate WellFormed(s: Schema)
    decreases s
  {
    match s
    case SArray(item, _, _) => WellFormed(item)
    case SOptional(inner) => WellFormed(inner)
    case SObject(fields) => DistinctKeys(fields) && forall f :: f in fields ==> WellFormed(f.schema)
    case _ => true
  }

  /** Parsing nothing gives nothing. */
  lemma OutputNone(s: Schema)
    ensures Output(s, None) == None
  {
  }

  lemma {:induction false} OutputItemsAt(s: Schema, items: seq<Json>, i: nat)
    requires s.SArray? && i <= |items|
    ensures |OutputItems(s, items, i)| == |items| - i
    ensures forall j :: i <= j < |items| ==> Some(OutputItems(s, items, i)[j - i]) == Output(s.item, Some(items[j]))
    decreases |items| - i
  {
    if i < |items| {
      OutputItemsAt(s, items, i + 1);
      OutputPresent(s.item, items[i]);
    }
  }

  /** Parsing an array of strings, enum values or anything gives back the same elements. */
  lemma ScalarItemsUnchanged(s: Schema, items: seq<Json>)
    requires s.SArray? && (s.item.SString? || s.item.SEnum? || s.item.SAny?)
    ensures OutputItems(s, items, 0) == items
  {
    OutputItemsAt(s, items, 0);
    var out := OutputItems(s, items, 0);
    forall j | 0 <= j < |items|
      ensures out[j] == items[j]
    {
      assert Some(out[j - 0]) == Output(s.item, Some(items[j]));
    }
  }

  /** An entry of a parsed object is the entry's own parse of the input's value. */
  lemma ParsedEntry(s: Schema, v: Option<Json>, j: nat)
    requires s.SObject? && DistinctKeys(s.fields) && j < |s.fields| && v.Some? && v.value.JObj?
    ensures Output(s, v).Some? && Output(s, v).value.JObj?
    ensures Get(Output(s, v).value, s.fields[j].key) == Output(s.fields[j].schema, Get(v.value, s.fields[j].key))
  {
    OutputFieldsShape(s, v.value.fields, 0);
    OutputNone(s.fields[j].schema);
  }

  /** What `parse` returns still satisfies the schema. */
  lemma {:induction false} OutputAccepted(s: Schema, v: Option<Json>)
    requires WellFormed(s) && Accepts(s, v)
    ensures Accepts(s, Output(s, v))
    decreases s
  {
    match s
    case SAny =>
    case SString(_, _) =>
    case SEnum(_) =>
    case SOptional(inner) =>
      if v.Some? {
        OutputAccepted(inner, v);
      }
    case SArray(item, min, _) =>
      var items := v.value.items;
      OutputItemsAt(s, items, 0);
      var out := OutputItems(s, items, 0);
      forall j | 0 <= j < |out|
        ensures Accepts(item, Some(out[j]))
      {
        OutputAccepted(item, Some(items[j]));
      }
    case SObject(fields) =>
      var r := Output(s, v).value;
      forall k | 0 <= k < |fields|
        ensures Accepts(fields[k].schema, Get(r, fields[k].key))
      {
        assert fields[k] in fields;
        ParsedEntry(s, v, k);
        OutputAccepted(fields[k].schema, Get(v.value, fields[k].key));
      }
  }

  /** `.partial()`: every entry of an object schema becomes optional. */
  function Partial(s: Schema): (r: Schema)
    requires s.SObject?
    ensures r.SObject? && |r.fields| == |s.fields|
    ensures forall i :: 0 <= i < |r.fields| ==> r.fields[i] == Field(s.fields[i].key, SOptional(s.fields[i].schema))
  {
    SObject(OptionalFields(s.fields))
  }

  function OptionalFields(fields: seq<Field>): (r: seq<Field>)
    ensures |r| == |fields|
    ensures forall i :: 0 <= i < |r| ==> r[i] == Field(fields[i].key, SOptional(fields[i].schema))
    decreases |fields|
  {
    if fields == [] then [] else [Field(fields[0].key, SOptional(fields[0].schema))] + OptionalFields(fields[1..])
  }

  /** A partial schema accepts whatever the full one accepts, and also any object missing
      some (or all) of the entries. */
  lemma PartialWeakens(s: Schema, v: Option<Json>)
    requires s.SObject?
    ensures Accepts(s, v) ==> Accepts(Partial(s), v)
    ensures Accepts(Partial(s), Some(JObj(map[])))
  {
    var p := Partial(s);
    if Accepts(s, v) {
      forall i | 0 <= i < |p.fields|
        ensures Accepts(p.fields[i].schema, Get(v.value, p.fields[i].key))
      {
        assert Accepts(s.fields[i].schema, Get(v.value, s.fields[i].key));
      }
    }
    forall i | 0 <= i < |p.fields|
      ensures Accepts(p.fields[i].schema, Get(JObj(map[]), p.fields[i].key))
    {
      assert Get(JObj(map[]), p.fields[i].key).None?;
    }
  }

  /** The text an issue becomes in a reply: the path joined by "." and the message. */
  function FormatIssue(i: Issue): string {
    Join(i.path, ".") + ": " + i.message
  }

  function FormatIssues(issues: seq<Issue>): (r: seq<string>)
    ensures |r| == |issues|
    ensures forall k :: 0 <= k < |r| ==> r[k] == FormatIssue(issues[k])
    decreases |issues|
  {
    if issues == [] then [] else [FormatIssue(issues[0])] + FormatIssues(issues[1..])
  }
}
