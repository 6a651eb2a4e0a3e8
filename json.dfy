/**
 * Parsed JSON values and the few JavaScript semantics the core applies to them:
 * truthiness, property access and `String(value)`. Parsing itself (`JSON.parse`) is
 * not modelled; callers receive it as a function returning a `ParseResult`.
 */
module Json {
  import opened Wrappers
  import opened Strings

  /** A JSON value as `JSON.parse` produces it. Numbers are restricted to integers. */
  datatype Json =
    | JNull
    | JBool(b: bool)
    | JNum(n: int)
    | JStr(s: string)
    | JArr(items: seq<Json>)
    | JObj(fields: seq<(string, Json)>)

  /** What `JSON.parse(text)` does: return a value or throw a SyntaxError. */
  datatype ParseResult = Parsed(value: Json) | SyntaxError(message: string)

  /** JavaScript truthiness of a parsed value. */
  predicate Truthy(v: Json)
  {
    match v
    case JNull => false
    case JBool(b) => b
    case JNum(n) => n != 0
    case JStr(s) => s != ""
    case _ => true
  }

  /** The result of reading `v[key]`: a value, `undefined`, or a TypeError (reading from `null`). */
  datatype Access = Undefined | Value(v: Json) | Throws

  /** Truthiness of an access; `undefined` is falsy. */
  predicate Present(a: Access)
  {
    a.Value? && Truthy(a.v)
  }

  /**
   * `v[key]` for the property names the core reads (`errors`, `title`, `message`,
   * `error`): none of them is an inherited property of any JavaScript value, so only
   * an object's own field can supply them. `JSON.parse` keeps the last of duplicate keys.
   */
  function Member(v: Json, key: string): (a: Access)
    ensures v.JNull? <==> a.Throws?
    ensures a.Value? ==> v.JObj? && (key, a.v) in v.fields
    ensures v.JObj? && (forall i :: 0 <= i < |v.fields| ==> v.fields[i].0 != key) ==> a.Undefined?
  {
    match v
    case JNull => Throws
    case JObj(fs) => LastField(fs, key)
    case _ => Undefined
  }

  function LastField(fs: seq<(string, Json)>, key: string): (a: Access)
    ensures a.Value? ==> (key, a.v) in fs
    ensures a.Value? <==> exists i :: 0 <= i < |fs| && fs[i].0 == key
    ensures !a.Throws?
  {
    if |fs| == 0 then Undefined
    else if fs[|fs| - 1].0 == key then Value(fs[|fs| - 1].1)
    else LastField(fs[..|fs| - 1], key)
  }

  lemma {:induction false} LastFieldOfAppend(fs: seq<(string, Json)>, key: string, v: Json)
    ensures LastField(fs + [(key, v)], key) == Value(v)
  {
    assert (fs + [(key, v)])[|fs|] == (key, v);
  }

  /**
   * The properties of an object literal built field by field, in order; `None` for a
   * property the code leaves out.
   */
  type FieldEntries = seq<(string, Option<Json>)>

  /** The fields the entries contribute, in order. */
  function Fields(es: FieldEntries): seq<(string, Json)>
  {
    if |es| == 0 then []
    else Fields(es[..|es| - 1]) + (if es[|es| - 1].1.Some? then [(es[|es| - 1].0, es[|es| - 1].1.value)] else [])
  }

  predicate DistinctKeys(es: FieldEntries)
  {
    forall i, j :: 0 <= i < j < |es| ==> es[i].0 != es[j].0
  }

  /** The field names of an object, in order. */
  function Keys(fs: seq<(string, Json)>): seq<string>
  {
    if |fs| == 0 then [] else Keys(fs[..|fs| - 1]) + [fs[|fs| - 1].0]
  }

  /** The names of the entries that are present, in order. */
  function PresentKeys(es: FieldEntries): seq<string>
  {
    if |es| == 0 then []
    else PresentKeys(es[..|es| - 1]) + (if es[|es| - 1].1.Some? then [es[|es| - 1].0] else [])
  }

  lemma {:induction false} KeysOfFields(es: FieldEntries)
    ensures Keys(Fields(es)) == PresentKeys(es)
  {
    if |es| > 0 {
      var init := es[..|es| - 1];
      KeysOfFields(init);
      var fs := Fields(init);
      if es[|es| - 1].1.Some? {
        var f := (es[|es| - 1].0, es[|es| - 1].1.value);
        assert (fs + [f])[..|fs|] == fs;
      } else {
        assert fs + [] == fs;
      }
    }
  }

  /** A key no entry has is absent from the object. */
  lemma {:induction false} FieldsAbsent(es: FieldEntries, k: string)
    requires forall i :: 0 <= i < |es| ==> es[i].0 != k
    ensures LastField(Fields(es), k) == Undefined
  {
    if |es| > 0 {
      var init := es[..|es| - 1];
      FieldsAbsent(init, k);
      var fs := Fields(init);
      if es[|es| - 1].1.Some? {
        var f := (es[|es| - 1].0, es[|es| - 1].1.value);
        assert (fs + [f])[..|fs|] == fs;
      } else {
        assert fs + [] == fs;
      }
    }
  }

  /** The next conditional assignment appends the entry's field, or nothing when it is left out. */
  lemma FieldsNext(es: FieldEntries, i: nat)
    requires i < |es|
    ensures Fields(es[..i + 1]) == Fields(es[..i]) + (if es[i].1.Some? then [(es[i].0, es[i].1.value)] else [])
  {
    assert es[..i + 1][..i] == es[..i];
  }

  /** One `if (...) body.key = value` step of building an object from its entries. */
  method AssignIfPresent(body: seq<(string, Json)>, es: FieldEntries, i: nat) returns (r: seq<(string, Json)>)
    requires i < |es| && body == Fields(es[..i])
    ensures r == Fields(es[..i + 1])
  {
    FieldsNext(es, i);
    r := body;
    if es[i].1.Some? {
      r := r + [(es[i].0, es[i].1.value)];
    }
  }

  /** With distinct keys, reading an entry's key gives its value, or `undefined` when it was left out. */
  lemma {:induction false} FieldsMember(es: FieldEntries, i: nat)
    requires DistinctKeys(es) && i < |es|
    ensures LastField(Fields(es), es[i].0) == if es[i].1.Some? then Value(es[i].1.value) else Undefined
  {
    var n := |es|;
    var init := es[..n - 1];
    var fs := Fields(init);
    var k := es[i].0;
    if es[n - 1].1.Some? {
      var f := (es[n - 1].0, es[n - 1].1.value);
      assert (fs + [f])[..|fs|] == fs;
    } else {
      assert fs + [] == fs;
    }
    if i == n - 1 {
      FieldsAbsent(init, k);
    } else {
      assert init[i] == es[i];
      FieldsMember(init, i);
    }
  }

  /** `String(v)`, the conversion an error constructor applies to a message of any type. */
  function ToJsString(v: Json): string
    decreases v
  {
    match v
    case JNull => "null"
    case JBool(b) => if b then "true" else "false"
    case JNum(n) => IntToString(n)
    case JStr(s) => s
    case JArr(items) => JoinItems(v, items)
    case JObj(_) => "[object Object]"
  }

  /** `Array.prototype.toString`: items joined by `,`, with `null` written as nothing. */
  function JoinItems(whole: Json, items: seq<Json>): string
    requires forall i :: 0 <= i < |items| ==> items[i] < whole
    decreases whole, |items|
  {
    if |items| == 0 then ""
    else
      var first := if items[0].JNull? then "" else ToJsString(items[0]);
      if |items| == 1 then first else first + "," + JoinItems(whole, items[1..])
  }
}
