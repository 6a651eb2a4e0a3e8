/**
 * `URLSearchParams` as the services use it: an ordered list of name/value pairs that
 * `set` and `append` update in place and `toString` serializes as
 * application/x-www-form-urlencoded text.
 */
module Query {
  import opened Wrappers
  import opened Strings
  import Encoding

  type Pairs = seq<(string, string)>

  predicate HasName(ps: Pairs, k: string)
  {
    exists i :: 0 <= i < |ps| && ps[i].0 == k
  }

  /** The pairs whose name is not `k`, in order. */
  function Without(ps: Pairs, k: string): (r: Pairs)
    ensures |r| <= |ps|
    ensures !HasName(r, k)
    ensures !HasName(ps, k) ==> r == ps
  {
    if |ps| == 0 then []
    else if ps[0].0 == k then Without(ps[1..], k)
    else [ps[0]] + Without(ps[1..], k)
  }

  /** Replaces the value of the first pair named `k` and drops every later pair with that name. */
  function ReplaceFirst(ps: Pairs, k: string, v: string): (r: Pairs)
    requires HasName(ps, k)
  {
    if ps[0].0 == k then [(k, v)] + Without(ps[1..], k)
    else [ps[0]] + ReplaceFirst(ps[1..], k, v)
  }

  /** What `params.set(k, v)` leaves: the list after a replacement, or `(k, v)` appended. */
  function SetPairs(ps: Pairs, k: string, v: string): Pairs
  {
    if HasName(ps, k) then ReplaceFirst(ps, k, v) else ps + [(k, v)]
  }

  /** The values of the pairs named `k`, in order (`params.getAll(k)`). */
  function GetAll(ps: Pairs, k: string): (r: seq<string>)
    ensures |r| == 0 <==> !HasName(ps, k)
  {
    if |ps| == 0 then []
    else if ps[0].0 == k then [ps[0].1] + GetAll(ps[1..], k)
    else GetAll(ps[1..], k)
  }

  lemma {:induction false} GetAllWithout(ps: Pairs, k: string, other: string)
    ensures GetAll(Without(ps, k), other) == if other == k then [] else GetAll(ps, other)
  {
    if |ps| > 0 {
      GetAllWithout(ps[1..], k, other);
    }
  }

  lemma {:induction false} GetAllReplaceFirst(ps: Pairs, k: string, v: string, other: string)
    requires HasName(ps, k)
    ensures GetAll(ReplaceFirst(ps, k, v), other) == if other == k then [v] else GetAll(ps, other)
  {
    if ps[0].0 == k {
      GetAllWithout(ps[1..], k, other);
    } else {
      assert HasName(ps[1..], k) by {
        var i :| 0 <= i < |ps| && ps[i].0 == k;
        assert ps[1..][i - 1].0 == k;
      }
      GetAllReplaceFirst(ps[1..], k, v, other);
    }
  }

  lemma {:induction false} GetAllAppend(ps: Pairs, k: string, v: string, other: string)
    ensures GetAll(ps + [(k, v)], other) == GetAll(ps, other) + (if other == k then [v] else [])
  {
    if |ps| == 0 {
      assert ps + [(k, v)] == [(k, v)];
    } else {
      assert (ps + [(k, v)])[1..] == ps[1..] + [(k, v)];
      GetAllAppend(ps[1..], k, v, other);
    }
  }

  lemma {:induction false} GetAllConcat(a: Pairs, b: Pairs, k: string)
    ensures GetAll(a + b, k) == GetAll(a, k) + GetAll(b, k)
    decreases |a|
  {
    if |a| == 0 {
      assert a + b == b;
    } else {
      assert (a + b)[1..] == a[1..] + b;
      GetAllConcat(a[1..], b, k);
    }
  }

  /** After `set(k, v)` the name `k` has exactly the value `v`, and every other name is untouched. */
  lemma SetPairsGetAll(ps: Pairs, k: string, v: string, other: string)
    ensures GetAll(SetPairs(ps, k, v), other) == if other == k then [v] else GetAll(ps, other)
  {
    if HasName(ps, k) {
      GetAllReplaceFirst(ps, k, v, other);
    } else {
      GetAllAppend(ps, k, v, other);
    }
  }

  /** Setting a name that is not yet present appends one pair, as building a fresh query does. */
  lemma SetPairsOfNewName(ps: Pairs, k: string, v: string)
    requires !HasName(ps, k)
    ensures SetPairs(ps, k, v) == ps + [(k, v)]
  {
  }

  lemma {:induction false} HasNameConcat(a: Pairs, b: Pairs, k: string)
    ensures HasName(a + b, k) <==> HasName(a, k) || HasName(b, k)
  {
    if HasName(a + b, k) {
      var i :| 0 <= i < |a + b| && (a + b)[i].0 == k;
      if i >= |a| {
        assert b[i - |a|].0 == k;
      }
    }
    if HasName(a, k) {
      var i :| 0 <= i < |a| && a[i].0 == k;
      assert (a + b)[i].0 == k;
    }
    if HasName(b, k) {
      var i :| 0 <= i < |b| && b[i].0 == k;
      assert (a + b)[|a| + i].0 == k;
    }
  }

  // ---------------------------------------------------------------- optional parameters

  /**
   * The optional parameters of a request, in the order the service sets them: a name and
   * the value as text, `None` when the value is falsy and the parameter is skipped.
   */
  type Entries = seq<(string, Option<string>)>

  /** The pair one `if (value) params.set(name, value)` contributes. */
  function IfGiven(name: string, v: Option<string>): Pairs
  {
    if Given(v) then [(name, v.value)] else []
  }

  /** A number parameter as text (`n.toString()`), `None` when it is absent or zero. */
  function IntText(o: Option<int>): (r: Option<string>)
    ensures Given(r) <==> o.Some? && o.value != 0
    ensures Given(r) ==> r.value == IntToString(o.value)
  {
    if o.Some? && o.value != 0 then Some(IntToString(o.value)) else None
  }

  /** The pairs the entries contribute, in order. */
  function Present(es: Entries): Pairs
  {
    if |es| == 0 then [] else Present(es[..|es| - 1]) + IfGiven(es[|es| - 1].0, es[|es| - 1].1)
  }

  predicate DistinctNames(es: Entries)
  {
    forall i, j :: 0 <= i < j < |es| ==> es[i].0 != es[j].0
  }

  /** Only the entries' own names occur in their pairs. */
  lemma {:induction false} PresentOnlyNames(es: Entries, k: string)
    requires forall i :: 0 <= i < |es| ==> es[i].0 != k
    ensures !HasName(Present(es), k)
  {
    if |es| > 0 {
      PresentOnlyNames(es[..|es| - 1], k);
      HasNameConcat(Present(es[..|es| - 1]), IfGiven(es[|es| - 1].0, es[|es| - 1].1), k);
    }
  }

  /** A name no entry has is absent from the query. */
  lemma PresentAbsent(es: Entries, k: string)
    requires forall i :: 0 <= i < |es| ==> es[i].0 != k
    ensures GetAll(Present(es), k) == []
  {
    PresentOnlyNames(es, k);
  }

  /** With distinct names, each entry's name carries its value when it is truthy and is absent otherwise. */
  lemma {:induction false} PresentGetAll(es: Entries, i: nat)
    requires DistinctNames(es) && i < |es|
    ensures GetAll(Present(es), es[i].0) == if Given(es[i].1) then [es[i].1.value] else []
  {
    var n := |es|;
    var init := es[..n - 1];
    var k := es[i].0;
    GetAllConcat(Present(init), IfGiven(es[n - 1].0, es[n - 1].1), k);
    if i == n - 1 {
      PresentAbsent(init, k);
    } else {
      assert init[i] == es[i];
      PresentGetAll(init, i);
    }
  }

  /** The next `set` of a distinct name appends its pair, or changes nothing when the value is falsy. */
  lemma SetNext(es: Entries, i: nat)
    requires DistinctNames(es) && i < |es|
    ensures !Given(es[i].1) ==> Present(es[..i + 1]) == Present(es[..i])
    ensures Given(es[i].1) ==> SetPairs(Present(es[..i]), es[i].0, es[i].1.value) == Present(es[..i + 1])
  {
    assert es[..i + 1][..i] == es[..i];
    PresentOnlyNames(es[..i], es[i].0);
  }

  /** No pairs at all exactly when every value is falsy. */
  lemma {:induction false} PresentEmpty(es: Entries)
    ensures Present(es) == [] <==> forall i :: 0 <= i < |es| ==> !Given(es[i].1)
  {
    if |es| > 0 {
      var init := es[..|es| - 1];
      PresentEmpty(init);
      assert forall i :: 0 <= i < |init| ==> init[i] == es[i];
    }
  }

  /** The pairs `vs.forEach(v => params.append(name, v))` adds, in order. */
  function Repeated(name: string, vs: seq<string>): (r: Pairs)
    ensures |r| == |vs|
  {
    if |vs| == 0 then [] else Repeated(name, vs[..|vs| - 1]) + [(name, vs[|vs| - 1])]
  }

  /** Repeating a name gives back every value under it, in order, and no other name. */
  lemma {:induction false} GetAllRepeated(name: string, vs: seq<string>, k: string)
    ensures GetAll(Repeated(name, vs), k) == if k == name then vs else []
  {
    if |vs| > 0 {
      var init := vs[..|vs| - 1];
      GetAllRepeated(name, init, k);
      GetAllAppend(Repeated(name, init), name, vs[|vs| - 1], k);
      assert init + [vs[|vs| - 1]] == vs;
    }
  }

  /** One serialized pair, `name=value`. */
  function SerializePair(p: (string, string)): (r: string)
    ensures '=' in r && '&' !in r
  {
    Encoding.FormEncodeHasNoDelimiters(p.0);
    Encoding.FormEncodeHasNoDelimiters(p.1);
    Encoding.FormEncode(p.0) + "=" + Encoding.FormEncode(p.1)
  }

  function SerializeAll(ps: Pairs): seq<string>
    ensures |SerializeAll(ps)| == |ps|
  {
    if |ps| == 0 then [] else [SerializePair(ps[0])] + SerializeAll(ps[1..])
  }

  /** `params.toString()`: the serialized pairs joined by `&`. */
  function Serialize(ps: Pairs): string
  {
    Join(SerializeAll(ps), "&")
  }

  /** The serialization is empty exactly when there are no pairs, which decides the `?` suffix. */
  lemma SerializeEmptyIff(ps: Pairs)
    ensures Serialize(ps) == "" <==> ps == []
  {
    if ps != [] {
      var parts := SerializeAll(ps);
      assert parts[0] == SerializePair(ps[0]);
      assert |parts[0]| > 0;
      if |parts| > 1 {
        assert Serialize(ps) == parts[0] + "&" + Join(parts[1..], "&");
      }
    }
  }

  /** `path` followed by `?` and the serialization, or `path` alone when there is nothing to add. */
  function WithQuery(path: string, ps: Pairs): (r: string)
    ensures ps == [] ==> r == path
    ensures ps != [] ==> r == path + "?" + Serialize(ps)
  {
    SerializeEmptyIff(ps);
    var qs := Serialize(ps);
    if qs != "" then path + "?" + qs else path
  }

  /** A `URLSearchParams` object. */
  class SearchParams {
    var pairs: Pairs

    /** `new URLSearchParams()`. */
    constructor()
      ensures pairs == []
    {
      pairs := [];
    }

    /** `params.set(name, value)`. */
    method Set(name: string, value: string)
      modifies this
      ensures pairs == SetPairs(old(pairs), name, value)
    {
      pairs := SetPairs(pairs, name, value);
    }

    /** `params.append(name, value)`. */
    method Append(name: string, value: string)
      modifies this
      ensures pairs == old(pairs) + [(name, value)]
    {
      pairs := pairs + [(name, value)];
    }

    /** `params.toString()`. */
    function ToString(): string
      reads this
    {
      Serialize(pairs)
    }
  }

  /**
   * One `if (value) queryParams.set(name, value)` step of a builder over distinct names,
   * after pairs `pre` that do not use the name.
   */
  method SetIfGiven(queryParams: SearchParams, pre: Pairs, es: Entries, i: nat)
    requires DistinctNames(es) && i < |es| && !HasName(pre, es[i].0)
    requires queryParams.pairs == pre + Present(es[..i])
    modifies queryParams
    ensures queryParams.pairs == pre + Present(es[..i + 1])
  {
    SetNext(es, i);
    if Given(es[i].1) {
      var k := es[i].0;
      PresentOnlyNames(es[..i], k);
      HasNameConcat(pre, Present(es[..i]), k);
      SetPairsOfNewName(Present(es[..i]), k, es[i].1.value);
      queryParams.Set(k, es[i].1.value);
      assert (pre + Present(es[..i])) + [(k, es[i].1.value)] == pre + (Present(es[..i]) + [(k, es[i].1.value)]);
    }
  }

  /** One `if (value) queryParams.append(name, value)` step of a builder, after pairs `pre`. */
  method AppendIfGiven(queryParams: SearchParams, pre: Pairs, es: Entries, i: nat)
    requires i < |es|
    requires queryParams.pairs == pre + Present(es[..i])
    modifies queryParams
    ensures queryParams.pairs == pre + Present(es[..i + 1])
  {
    assert es[..i + 1][..i] == es[..i];
    if Given(es[i].1) {
      queryParams.Append(es[i].0, es[i].1.value);
    }
  }
}
