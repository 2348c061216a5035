/** Query strings (`ApiClient.get`, api-client.ts:49-58, and `buildQueryString`, lib/index.ts:110-118):
    the entries of a params record whose value is not null or undefined go into a `URLSearchParams`,
    whose text is appended after a '?' only when it is not empty. */
module Query {
  import opened Js
  import Strings

  /** A params record as `Object.entries` lists it: key and value, in order. */
  type Params = seq<(string, Value)>

  /** The pairs of a `URLSearchParams`, in order. */
  type SearchEntries = seq<(string, string)>

  /** An object has each key once. */
  predicate DistinctKeys(params: Params) {
    forall i, j :: 0 <= i < j < |params| ==> params[i].0 != params[j].0
  }

  predicate HasKey(sp: SearchEntries, k: string) {
    exists i :: 0 <= i < |sp| && sp[i].0 == k
  }

  /** `sp` without any entry for `k`: the other entries, in their order. */
  function RemoveKey(sp: SearchEntries, k: string): (r: SearchEntries)
    ensures !HasKey(r, k)
    ensures forall p :: p in r <==> p in sp && p.0 != k
    ensures !HasKey(sp, k) ==> r == sp
  {
    if sp == [] then []
    else if sp[0].0 == k then RemoveKey(sp[1..], k)
    else
      assert !HasKey(sp, k) ==> !HasKey(sp[1..], k) by {
        if HasKey(sp[1..], k) {
          var i :| 0 <= i < |sp[1..]| && sp[1..][i].0 == k;
          assert sp[i + 1].0 == k;
        }
      }
      [sp[0]] + RemoveKey(sp[1..], k)
  }

  /** `searchParams.set(k, v)`: the first entry for `k` takes the value and later ones go; with no
      entry for `k` the pair is appended. Every entry for `k` then carries `v`, and the entries of
      the other keys are kept, in their order. */
  function SetEntry(sp: SearchEntries, k: string, v: string): (r: SearchEntries)
    ensures HasKey(r, k)
    ensures forall p :: p in r && p.0 == k ==> p.1 == v
    ensures RemoveKey(r, k) == RemoveKey(sp, k)
    ensures forall p: (string, string) :: p.0 != k ==> (p in r <==> p in sp)
  {
    if sp == [] then
      var r := [(k, v)];
      assert r[0].0 == k;
      r
    else if sp[0].0 == k then
      var rest := RemoveKey(sp[1..], k);
      var r := [(k, v)] + rest;
      assert r[0].0 == k;
      assert r[1..] == rest;
      r
    else
      var rest := SetEntry(sp[1..], k, v);
      var j :| 0 <= j < |rest| && rest[j].0 == k;
      var r := [sp[0]] + rest;
      assert r[j + 1] == rest[j];
      assert r[1..] == rest;
      r
  }

  lemma {:induction false} SetNewKeyAppends(sp: SearchEntries, k: string, v: string)
    requires !HasKey(sp, k)
    ensures SetEntry(sp, k, v) == sp + [(k, v)]
  {
    if sp != [] {
      assert sp[0].0 != k;
      assert !HasKey(sp[1..], k) by {
        forall i | 0 <= i < |sp[1..]| ensures sp[1..][i].0 != k {
          assert sp[1..][i] == sp[i + 1];
        }
      }
      SetNewKeyAppends(sp[1..], k, v);
      assert [sp[0]] + (sp[1..] + [(k, v)]) == sp + [(k, v)];
    }
  }

  /** The entries that reach the search params: those whose value is not nullish, as `String(value)`. */
  function Kept(params: Params): (r: SearchEntries)
    ensures |r| <= |params|
  {
    if params == [] then []
    else
      var last := params[|params| - 1];
      Kept(params[..|params| - 1]) + (if Nullish(last.1) then [] else [(last.0, Interpolate(last.1))])
  }

  /** An entry is kept exactly when its value is not null or undefined, with its text as value. */
  lemma {:induction false} KeptMembership(params: Params, k: string, s: string)
    ensures (k, s) in Kept(params) <==>
            exists i :: 0 <= i < |params| && params[i].0 == k && !Nullish(params[i].1) && s == Interpolate(params[i].1)
  {
    if params != [] {
      var n := |params| - 1;
      var init := params[..n];
      var last := params[n];
      var lastPart := if Nullish(last.1) then [] else [(last.0, Interpolate(last.1))];
      KeptMembership(init, k, s);
      assert Kept(params) == Kept(init) + lastPart;
      assert (k, s) in Kept(params) <==> (k, s) in Kept(init) || (k, s) in lastPart;
      assert (k, s) in lastPart <==> last.0 == k && !Nullish(last.1) && s == Interpolate(last.1);
      if (exists i :: 0 <= i < |params| && params[i].0 == k && !Nullish(params[i].1) && s == Interpolate(params[i].1)) {
        var i :| 0 <= i < |params| && params[i].0 == k && !Nullish(params[i].1) && s == Interpolate(params[i].1);
        if i < n {
          assert init[i] == params[i];
        }
      }
      if (k, s) in Kept(init) {
        var i :| 0 <= i < |init| && init[i].0 == k && !Nullish(init[i].1) && s == Interpolate(init[i].1);
        assert params[i] == init[i];
      }
    }
  }

  /** Nothing is kept exactly when every value is null or undefined. */
  lemma {:induction false} KeptEmpty(params: Params)
    ensures Kept(params) == [] <==> forall i :: 0 <= i < |params| ==> Nullish(params[i].1)
  {
    if params != [] {
      var init := params[..|params| - 1];
      KeptEmpty(init);
      assert forall i :: 0 <= i < |init| ==> init[i] == params[i];
    }
  }

  lemma KeysOfKept(params: Params, n: nat, k: string)
    requires n <= |params| && HasKey(Kept(params[..n]), k)
    ensures exists j :: 0 <= j < n && params[j].0 == k
  {
    var e :| 0 <= e < |Kept(params[..n])| && Kept(params[..n])[e].0 == k;
    var s := Kept(params[..n])[e].1;
    assert (k, s) in Kept(params[..n]);
    KeptMembership(params[..n], k, s);
    var j :| 0 <= j < |params[..n]| && params[..n][j].0 == k && !Nullish(params[..n][j].1) && s == Interpolate(params[..n][j].1);
    assert params[j] == params[..n][j];
  }

  /** `searchParams.toString()`: "k=v" pairs joined by '&' (percent-encoding is not modelled). */
  function Encode(sp: SearchEntries): (r: string)
    ensures r == "" <==> sp == []
  {
    if sp == [] then ""
    else
      var pair := sp[|sp| - 1].0 + "=" + sp[|sp| - 1].1;
      assert pair[|sp[|sp| - 1].0|] == '=';
      if |sp| == 1 then pair else Encode(sp[..|sp| - 1]) + "&" + pair
  }

  /** What is appended to the path: "" without params, otherwise "?" and the search text when it is
      not empty. */
  function QueryString(params: Option<Params>): (q: string)
    ensures q == "" <==> params.None? || forall i :: 0 <= i < |params.value| ==> Nullish(params.value[i].1)
    ensures q != "" ==> q == "?" + Encode(Kept(params.value))
  {
    if params.None? then ""
    else
      var qs := Encode(Kept(params.value));
      KeptEmpty(params.value);
      if qs != "" then "?" + qs else ""
  }

  /** The loop `for (const [key, value] of Object.entries(params)) if (value != null) sp.set(key, String(value))`. */
  method SearchParams(params: Params) returns (sp: SearchEntries)
    requires DistinctKeys(params)
    ensures sp == Kept(params)
  {
    sp := [];
    for i := 0 to |params|
      invariant sp == Kept(params[..i])
    {
      assert params[..i + 1][..i] == params[..i];
      var key := params[i].0;
      var value := params[i].1;
      if !Nullish(value) {
        if HasKey(sp, key) {
          KeysOfKept(params, i, key);
          assert false;
        }
        SetNewKeyAppends(sp, key, Interpolate(value));
        sp := SetEntry(sp, key, Interpolate(value));
      }
    }
    assert params[..|params|] == params;
  }

  /** `buildQueryString(params)` of lib/index.ts. */
  method BuildQueryString(params: Option<Params>) returns (q: string)
    requires params.Some? ==> DistinctKeys(params.value)
    ensures q == QueryString(params)
  {
    if params.None? {
      return "";
    }
    var sp := SearchParams(params.value);
    var qs := Encode(sp);
    q := if qs != "" then "?" + qs else "";
  }
}
