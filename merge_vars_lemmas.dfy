/** Properties of the lookup, stated over `Merge`, the function that
    `MergeVars.Run` is proved to follow. */
module MergeVarsLemmas {
  import opened MergeVars

  lemma MessagesDiffer()
    ensures ArgumentMessage != InitialMessage
  {
    assert ArgumentMessage[10] != InitialMessage[10];
  }

  /** The kinds loop only ever appends to the list, and only fails with a
      Python exception of its own (never an `AnsibleError`). */
  lemma {:induction false} ExtendKindsAppends<V>(items: seq<Value<V>>, variables: map<string, Value<V>>, term: string,
                                                 kwargs: map<string, Value<V>>, vartypes: seq<string>)
    ensures items <= ExtendKinds(items, variables, term, kwargs, vartypes).items
    ensures ExtendKinds(items, variables, term, kwargs, vartypes).error.Some? ==>
            ExtendKinds(items, variables, term, kwargs, vartypes).error.value == TypeFault
    decreases |vartypes|
  {
    if vartypes != [] {
      var part := KindPart(variables, term, kwargs, vartypes[0]);
      if part.Success? {
        ExtendKindsAppends(items + part.value, variables, term, kwargs, vartypes[1..]);
      } else {
        assert part.error == TypeFault;
      }
    }
  }

  /** The call fails with "merge_var expects one string argument" exactly
      when there is no first term or it is not a string; it then fails before
      `variables` or the keyword arguments are consulted, and the list is left
      untouched. */
  lemma ArgumentCheck<V>(terms: seq<Value<V>>, variables: map<string, Value<V>>, start: Start<V>, kwargs: map<string, Value<V>>,
                         variables': map<string, Value<V>>, kwargs': map<string, Value<V>>)
    ensures Merge(terms, variables, start, kwargs).error == Some(AnsibleError(ArgumentMessage)) <==> !ValidTerms(terms)
    ensures !ValidTerms(terms) ==>
      && Merge(terms, variables, start, kwargs) == Merge(terms, variables', start, kwargs')
      && Merge(terms, variables, start, kwargs).items == StartItems(start)
  {
    MessagesDiffer();
    if ValidTerms(terms) && !start.NotAList? {
      var term := terms[0].s;
      ExtendKindsAppends(StartItems(start) + ExistingPart(variables, term, kwargs), variables, term, kwargs, VarTypes);
    }
  }

  /** Only the first term counts; extra terms are ignored. */
  lemma ExtraTermsIgnored<V>(terms: seq<Value<V>>, variables: map<string, Value<V>>, start: Start<V>, kwargs: map<string, Value<V>>)
    requires |terms| >= 1
    ensures Merge(terms, variables, start, kwargs) == Merge(terms[..1], variables, start, kwargs)
  {
  }

  /** The ordering law: the result is the `initial` items, then the existing
      value (one element, only when asked for and not None), then the host
      list, then the group list, nothing removed, merged or reordered. */
  lemma OrderingLaw<V>(term: string, variables: map<string, Value<V>>, start: Start<V>, kwargs: map<string, Value<V>>)
    requires !start.NotAList?
    requires KindPart(variables, term, kwargs, "host_vars").Success?
    requires KindPart(variables, term, kwargs, "group_vars").Success?
    ensures var out := Merge([Str(term)], variables, start, kwargs);
      var hosts := KindPart(variables, term, kwargs, "host_vars").value;
      var groups := KindPart(variables, term, kwargs, "group_vars").value;
      && out.error == None
      && out.items == StartItems(start) + ExistingPart(variables, term, kwargs) + hosts + groups
      && |out.items| == |StartItems(start)| + |ExistingPart(variables, term, kwargs)| + |hosts| + |groups|
  {
    var items := StartItems(start) + ExistingPart(variables, term, kwargs);
    var hosts := KindPart(variables, term, kwargs, "host_vars").value;
    assert VarTypes[0] == "host_vars" && VarTypes[1..] == ["group_vars"] && VarTypes[1..][1..] == [];
    assert ExtendKinds(items, variables, term, kwargs, VarTypes)
        == ExtendKinds(items + hosts, variables, term, kwargs, ["group_vars"]);
  }

  /** When a kind's part raises, the list keeps what was added before it:
      `initial` and the existing value when the host part raises, and the
      host list as well when only the group part raises. */
  lemma FailureKeepsEarlierParts<V>(term: string, variables: map<string, Value<V>>, start: Start<V>, kwargs: map<string, Value<V>>)
    requires !start.NotAList?
    ensures var out := Merge([Str(term)], variables, start, kwargs);
      var pre := StartItems(start) + ExistingPart(variables, term, kwargs);
      var hosts := KindPart(variables, term, kwargs, "host_vars");
      var groups := KindPart(variables, term, kwargs, "group_vars");
      && (hosts.Failure? ==> out.items == pre && out.error == Some(hosts.error))
      && (hosts.Success? && groups.Failure? ==> out.items == pre + hosts.value && out.error == Some(groups.error))
  {
    var pre := StartItems(start) + ExistingPart(variables, term, kwargs);
    var hosts := KindPart(variables, term, kwargs, "host_vars");
    assert VarTypes[0] == "host_vars" && VarTypes[1..] == ["group_vars"] && VarTypes[1..][1..] == [];
    if hosts.Success? {
      assert ExtendKinds(pre, variables, term, kwargs, VarTypes)
          == ExtendKinds(pre + hosts.value, variables, term, kwargs, ["group_vars"]);
    }
  }

  /** A plain lookup, with no `initial` and no keyword arguments, returns the
      host list followed by the group list. */
  lemma PlainLookup<V>(term: string, variables: map<string, Value<V>>)
    requires KindPart(variables, term, map[], "host_vars").Success?
    requires KindPart(variables, term, map[], "group_vars").Success?
    ensures Merge([Str(term)], variables, Fresh, map[])
         == Outcome(KindPart(variables, term, map[], "host_vars").value + KindPart(variables, term, map[], "group_vars").value, None)
  {
    OrderingLaw(term, variables, Fresh, map[]);
    assert StartItems<V>(Fresh) + ExistingPart(variables, term, map[]) == [];
  }

  /** The existing value adds at most one element: exactly one when
      `include_existing` is true and the variable is set to something other
      than None, and that element is the variable's value itself. */
  lemma ExistingAtMostOne<V>(variables: map<string, Value<V>>, term: string, kwargs: map<string, Value<V>>)
    ensures |ExistingPart(variables, term, kwargs)| <= 1
    ensures |ExistingPart(variables, term, kwargs)| == 1 <==>
      ("include_existing" in kwargs && Truthy(kwargs["include_existing"]) && term in variables && !variables[term].NoneValue?)
    ensures |ExistingPart(variables, term, kwargs)| == 1 ==> term in variables && ExistingPart(variables, term, kwargs) == [variables[term]]
  {
  }

  /** `host_vars` and `group_vars` default to true; a kind switched off, a
      kind never published, or a term missing from it contributes nothing,
      and a published list is contributed element by element. */
  lemma KindPartDefaults<V>(variables: map<string, Value<V>>, term: string, kwargs: map<string, Value<V>>, vartype: string)
    ensures !Flag(kwargs, vartype, true) ==> KindPart(variables, term, kwargs, vartype) == Success([])
    ensures MergedName(vartype) !in variables ==> KindPart(variables, term, kwargs, vartype) == Success([])
    ensures Flag(kwargs, vartype, true) && MergedName(vartype) in variables && variables[MergedName(vartype)].Dict? ==>
      var m := variables[MergedName(vartype)].entries;
      && (term !in m ==> KindPart(variables, term, kwargs, vartype) == Success([]))
      && (term in m && m[term].List? ==> KindPart(variables, term, kwargs, vartype) == Success(m[term].items))
  {
  }

  /** A non-list `initial` fails with "merge_var initial value must be a
      list", except that the `include_existing` append, which comes first,
      already raises when there is an existing value to append. */
  lemma NonListInitialFails<V>(term: string, variables: map<string, Value<V>>, kwargs: map<string, Value<V>>)
    ensures var out := Merge([Str(term)], variables, NotAList, kwargs);
      && out.error.Some?
      && (out.error == Some(AnsibleError(InitialMessage)) <==> |ExistingPart(variables, term, kwargs)| == 0)
  {
  }

  /** `initial: [a]`, `include_existing: true`, existing value `b`, host list
      `[h1, h2]`, group list `[g1]`: the result is `[a, b, h1, h2, g1]`. */
  lemma OrderingExample<V>(a: Value<V>, b: Value<V>, h1: Value<V>, h2: Value<V>, g1: Value<V>)
    requires !b.NoneValue?
    ensures var variables := map[
        "K" := b,
        "_merged_host_vars" := Dict(map["K" := List([h1, h2])]),
        "_merged_group_vars" := Dict(map["K" := List([g1])])];
      var kwargs := map["include_existing" := Bool(true), "host_vars" := Bool(true), "group_vars" := Bool(true)];
      Merge([Str("K")], variables, Given([a]), kwargs) == Outcome([a, b, h1, h2, g1], None)
  {
    var variables := map[
        "K" := b,
        "_merged_host_vars" := Dict(map["K" := List([h1, h2])]),
        "_merged_group_vars" := Dict(map["K" := List([g1])])];
    var kwargs := map["include_existing" := Bool(true), "host_vars" := Bool(true), "group_vars" := Bool(true)];
    assert MergedName("host_vars") == "_merged_host_vars" && MergedName("group_vars") == "_merged_group_vars";
    OrderingLaw("K", variables, Given([a]), kwargs);
  }

  /** No aggregated data, no existing value, no options: the empty list. */
  lemma EmptyExample<V>(term: string)
    ensures Merge<V>([Str(term)], map[], Fresh, map[]) == Outcome([], None)
  {
    OrderingLaw<V>(term, map[], Fresh, map[]);
  }
}
