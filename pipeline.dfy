/** The two plugins together: what the lookup returns for a variable, when
    the variables it reads are the ones the collector published. */
module Pipeline {
  import C = MergedHostGroupVars
  import M = MergeVars
  import L = MergeVarsLemmas

  /** Collected values as the lookup sees them: objects it never looks into. */
  function Lift<V>(xs: seq<V>): (r: seq<M.Value<V>>)
    ensures |r| == |xs|
    ensures forall i :: 0 <= i < |xs| ==> r[i] == M.Opaque(xs[i])
  {
    if xs == [] then [] else [M.Opaque(xs[0])] + Lift(xs[1..])
  }

  /** The result dict of `get_vars` as variables: each published aggregation
      becomes a dict from variable name to a list of values. */
  function Exposed<V>(data: map<string, C.Aggregation<V>>): map<string, M.Value<V>> {
    map name | name in data :: M.Dict(map k | k in data[name] :: M.List(Lift(data[name][k])))
  }

  /** A kind's collected values for `term`, as far as the lookup can see them:
      nothing unless the kind was published. */
  function Visible<F, V>(st: C.CollectState<F, V>, kind: C.Kind, term: string): seq<M.Value<V>> {
    if kind in st.published then Lift(C.Values(C.AggOf(st, kind), term)) else []
  }

  /** A kind's part of a lookup over any published data: the values stored
      for `term` under the kind's name, or nothing. */
  lemma KindPartOfExposed<V>(data: map<string, C.Aggregation<V>>, term: string, vartype: string)
    ensures M.KindPart(Exposed(data), term, map[], vartype)
         == M.Success(if M.MergedName(vartype) in data then Lift(C.Values(data[M.MergedName(vartype)], term)) else [])
  {
    var name := M.MergedName(vartype);
    var vars := Exposed(data);
    assert M.Flag<V>(map[], vartype, true);
    if name in data {
      var agg := data[name];
      var entries := map k | k in agg :: M.List(Lift(agg[k]));
      var got := M.Get(entries, term, M.List([]));
      assert M.Get(vars, name, M.Dict(map[])) == M.Dict(entries);
      assert M.KindPart(vars, term, map[], vartype) == M.Iterate(got);
      if term in agg {
        assert got == M.List(Lift(agg[term]));
      } else {
        assert got == M.List([]) && Lift(C.Values(agg, term)) == [];
      }
    } else {
      assert M.Get(vars, name, M.Dict(map[])) == M.Dict(map[]);
    }
  }

  lemma KindPartOfPublished<F, V>(st: C.CollectState<F, V>, kind: C.Kind, term: string)
    ensures M.KindPart(Exposed(C.Publish(st)), term, map[], C.Subdir(kind)) == M.Success(Visible(st, kind, term))
  {
    var data := C.Publish(st);
    KindPartOfExposed(data, term, C.Subdir(kind));
    assert M.MergedName(C.Subdir(kind)) == C.DataKey(kind);
  }

  /** A plain lookup of `term` after a collection run returns every value the
      published host aggregation holds for it, then every value of the
      published group aggregation, in collection order. */
  lemma CollectedThenLookedUp<F, V>(st: C.CollectState<F, V>, term: string)
    ensures M.Merge([M.Str(term)], Exposed(C.Publish(st)), M.Fresh, map[])
         == M.Outcome(Visible(st, C.HostKind, term) + Visible(st, C.GroupKind, term), M.None)
  {
    var vars := Exposed(C.Publish(st));
    var hosts, groups := Visible(st, C.HostKind, term), Visible(st, C.GroupKind, term);
    assert M.KindPart(vars, term, map[], "host_vars") == M.Success(hosts) by {
      KindPartOfPublished(st, C.HostKind, term);
    }
    assert M.KindPart(vars, term, map[], "group_vars") == M.Success(groups) by {
      KindPartOfPublished(st, C.GroupKind, term);
    }
    L.PlainLookup(term, vars);
  }
}
