/**
 * The query of the library list request: `fetchJuegos` appends one
 * (key, value) pair per non-empty filter, in a fixed key order, to a
 * `URLSearchParams`. The model keeps the ordered pairs; percent-encoding
 * them into the URL is not modelled.
 */
module LibraryQuery {
  import opened JsValues
  import opened Seqs

  /** One `params.append(key, value)`. */
  type Param = (string, string)

  /** The filter state of the library screen. */
  datatype Filters = Filters(
    searchTerm: string,
    filterGenero: string,
    filterPlataforma: string,
    filterCompletado: string,
    ordenarPor: string)

  /** The query keys, in the order they are appended. */
  const QueryKeys: seq<string> := ["busqueda", "genero", "plataforma", "completado", "ordenarPor"]

  /** The filter values, position by position with `QueryKeys`. */
  function FilterValues(f: Filters): (vs: seq<string>)
    ensures |vs| == |QueryKeys|
  {
    [f.searchTerm, f.filterGenero, f.filterPlataforma, f.filterCompletado, f.ordenarPor]
  }

  /** The pair `(k, v)` if `v` is non-empty, else nothing: what one guarded append adds. */
  function PairIfSet(k: string, v: string): (r: seq<Param>)
    ensures |r| <= 1
  {
    if v != "" then [(k, v)] else []
  }

  /** Reference definition: the pairs `(keys[i], values[i])` whose value is non-empty, in order. */
  function NonEmptyPairs(keys: seq<string>, values: seq<string>): seq<Param>
    requires |keys| == |values|
  {
    if keys == [] then []
    else PairIfSet(keys[0], values[0]) + NonEmptyPairs(keys[1..], values[1..])
  }

  /** `params.get(k)`: the value of the first pair with key `k`. */
  function GetParam(ps: seq<Param>, k: string): (r: Option<string>)
    ensures r.None? <==> forall j :: 0 <= j < |ps| ==> ps[j].0 != k
    ensures r.Some? ==> exists j :: 0 <= j < |ps| && ps[j] == (k, r.value)
  {
    if ps == [] then None
    else if ps[0].0 == k then Some(ps[0].1)
    else GetParam(ps[1..], k)
  }

  /**
   * The list request's query, built as `fetchJuegos` builds it: one append
   * per truthy filter, in key order.
   */
  method BuildQuery(f: Filters) returns (params: seq<Param>)
    ensures params == NonEmptyPairs(QueryKeys, FilterValues(f))
  {
    params := [];
    if f.searchTerm != "" { params := params + [("busqueda", f.searchTerm)]; }
    assert params == PairIfSet("busqueda", f.searchTerm);
    ghost var p1 := params;
    if f.filterGenero != "" { params := params + [("genero", f.filterGenero)]; }
    assert params == p1 + PairIfSet("genero", f.filterGenero);
    ghost var p2 := params;
    if f.filterPlataforma != "" { params := params + [("plataforma", f.filterPlataforma)]; }
    assert params == p2 + PairIfSet("plataforma", f.filterPlataforma);
    ghost var p3 := params;
    if f.filterCompletado != "" { params := params + [("completado", f.filterCompletado)]; }
    assert params == p3 + PairIfSet("completado", f.filterCompletado);
    ghost var p4 := params;
    if f.ordenarPor != "" { params := params + [("ordenarPor", f.ordenarPor)]; }
    assert params == p4 + PairIfSet("ordenarPor", f.ordenarPor);
    NonEmptyPairsOfFilters(f);
  }

  /** `NonEmptyPairs` unrolled over the five filters. */
  lemma NonEmptyPairsOfFilters(f: Filters)
    ensures NonEmptyPairs(QueryKeys, FilterValues(f)) ==
      PairIfSet("busqueda", f.searchTerm) + PairIfSet("genero", f.filterGenero) +
      PairIfSet("plataforma", f.filterPlataforma) + PairIfSet("completado", f.filterCompletado) +
      PairIfSet("ordenarPor", f.ordenarPor)
  {
    var ks, vs := QueryKeys, FilterValues(f);
    assert ks[1..] == ["genero", "plataforma", "completado", "ordenarPor"];
    assert ks[2..] == ks[1..][1..] == ["plataforma", "completado", "ordenarPor"];
    assert ks[3..] == ks[2..][1..] == ["completado", "ordenarPor"];
    assert ks[4..] == ks[3..][1..] == ["ordenarPor"];
    assert ks[5..] == ks[4..][1..] == [];
    assert vs[1..] == [f.filterGenero, f.filterPlataforma, f.filterCompletado, f.ordenarPor];
    assert vs[2..] == vs[1..][1..];
    assert vs[3..] == vs[2..][1..];
    assert vs[4..] == vs[3..][1..];
    assert vs[5..] == vs[4..][1..] == [];
    assert NonEmptyPairs(ks[5..], vs[5..]) == [];
    assert NonEmptyPairs(ks[4..], vs[4..]) == PairIfSet("ordenarPor", f.ordenarPor);
    assert NonEmptyPairs(ks[3..], vs[3..]) ==
      PairIfSet("completado", f.filterCompletado) + NonEmptyPairs(ks[4..], vs[4..]);
    assert NonEmptyPairs(ks[2..], vs[2..]) ==
      PairIfSet("plataforma", f.filterPlataforma) + NonEmptyPairs(ks[3..], vs[3..]);
    assert NonEmptyPairs(ks[1..], vs[1..]) ==
      PairIfSet("genero", f.filterGenero) + NonEmptyPairs(ks[2..], vs[2..]);
    assert NonEmptyPairs(ks, vs) ==
      PairIfSet("busqueda", f.searchTerm) + NonEmptyPairs(ks[1..], vs[1..]);
  }

  /** Every pair comes from one of the keys, with that key's value, and no empty value is sent. */
  lemma {:induction false} PairsComeFromKeys(keys: seq<string>, values: seq<string>)
    requires |keys| == |values|
    ensures forall p :: p in NonEmptyPairs(keys, values) ==>
      p.0 in keys && p.1 != "" && exists i :: 0 <= i < |keys| && p == (keys[i], values[i])
  {
    if keys != [] {
      PairsComeFromKeys(keys[1..], values[1..]);
      forall p | p in NonEmptyPairs(keys, values)
        ensures p.0 in keys && p.1 != "" && exists i :: 0 <= i < |keys| && p == (keys[i], values[i])
      {
        if p in NonEmptyPairs(keys[1..], values[1..]) {
          var i :| 0 <= i < |keys[1..]| && p == (keys[1..][i], values[1..][i]);
          assert p == (keys[i + 1], values[i + 1]);
        } else {
          assert p == (keys[0], values[0]);
        }
      }
    }
  }

  /**
   * With distinct keys, key `keys[i]` is in the query exactly when its value
   * is non-empty, and then with that value; a key outside `keys` never is.
   */
  lemma {:induction false} GetParamOfNonEmptyPairs(keys: seq<string>, values: seq<string>, k: string)
    requires |keys| == |values| && Distinct(keys)
    ensures k !in keys ==> GetParam(NonEmptyPairs(keys, values), k) == None
    ensures k in keys ==>
      GetParam(NonEmptyPairs(keys, values), k) ==
        (var v := values[IndexOf(keys, k)]; if v != "" then Some(v) else None)
  {
    if keys != [] {
      var rest := NonEmptyPairs(keys[1..], values[1..]);
      DistinctTail(keys);
      GetParamOfNonEmptyPairs(keys[1..], values[1..], k);
      if k == keys[0] {
        if values[0] == "" {
          assert NonEmptyPairs(keys, values) == rest;
        }
      } else {
        if values[0] != "" {
          assert NonEmptyPairs(keys, values) == [(keys[0], values[0])] + rest;
          assert GetParam(NonEmptyPairs(keys, values), k) == GetParam(rest, k);
        } else {
          assert NonEmptyPairs(keys, values) == rest;
        }
        assert k in keys <==> k in keys[1..];
        if k in keys {
          IndexOfTail(keys, k);
        }
      }
    }
  }

  /** The keys of the pairs, in order. */
  function ParamKeys(ps: seq<Param>): (ks: seq<string>)
    ensures |ks| == |ps|
    ensures forall i :: 0 <= i < |ps| ==> ks[i] == ps[i].0
  {
    if ps == [] then [] else [ps[0].0] + ParamKeys(ps[1..])
  }

  /** With distinct keys, the query's keys are the keys list with the unset ones left out. */
  lemma {:induction false} NonEmptyPairsKeysInOrder(keys: seq<string>, values: seq<string>)
    requires |keys| == |values| && Distinct(keys)
    ensures IsSubsequence(ParamKeys(NonEmptyPairs(keys, values)), keys)
  {
    if keys != [] {
      var rest := NonEmptyPairs(keys[1..], values[1..]);
      DistinctTail(keys);
      NonEmptyPairsKeysInOrder(keys[1..], values[1..]);
      if values[0] != "" {
        assert NonEmptyPairs(keys, values) == [(keys[0], values[0])] + rest;
        assert ([(keys[0], values[0])] + rest)[1..] == rest;
      } else {
        assert NonEmptyPairs(keys, values) == rest;
        if rest != [] {
          PairsComeFromKeys(keys[1..], values[1..]);
          assert rest[0] in rest;
        }
      }
    }
  }

  /** The five query keys are distinct. */
  lemma QueryKeysDistinct()
    ensures Distinct(QueryKeys)
  {
  }

  /**
   * The list query holds `key` exactly when its filter is non-empty (then
   * with that value), holds no other key, and lists its keys in the order
   * `busqueda`, `genero`, `plataforma`, `completado`, `ordenarPor`.
   */
  lemma QueryHasExactlyNonEmptyFilters(f: Filters, k: string)
    ensures var ps := NonEmptyPairs(QueryKeys, FilterValues(f));
      && (k !in QueryKeys ==> GetParam(ps, k) == None)
      && (k in QueryKeys ==>
            GetParam(ps, k) ==
              (var v := FilterValues(f)[IndexOf(QueryKeys, k)]; if v != "" then Some(v) else None))
      && IsSubsequence(ParamKeys(ps), QueryKeys)
      && Distinct(ParamKeys(ps))
  {
    QueryKeysDistinct();
    GetParamOfNonEmptyPairs(QueryKeys, FilterValues(f), k);
    NonEmptyPairsKeysInOrder(QueryKeys, FilterValues(f));
    SubsequenceOfDistinct(ParamKeys(NonEmptyPairs(QueryKeys, FilterValues(f))), QueryKeys);
  }

  /** Empty filters leave only the sort key in the query. */
  lemma DefaultQuery()
    ensures NonEmptyPairs(QueryKeys, FilterValues(Filters("", "", "", "", "fechaCreacion")))
      == [("ordenarPor", "fechaCreacion")]
  {
  }
}
