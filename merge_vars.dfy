/** The merger: the lookup plugin `merge_vars`.  Given one variable name it
    builds a single list: the caller's `initial` list, optionally the
    variable's ordinary value, then every value the collector gathered for it
    from host files, then from group files. */
module MergeVars {

  /** A Python value as this plugin can meet it.  `Opaque` is any other
      object (a loaded variable value the plugin never looks into); like
      most Python objects it counts as true. */
  datatype Value<V> =
    | NoneValue
    | Bool(b: bool)
    | Int(i: int)
    | Str(s: string)
    | List(items: seq<Value<V>>)
    | Dict(entries: map<string, Value<V>>)
    | Opaque(v: V)

  /** Python truthiness. */
  predicate Truthy<V>(x: Value<V>) {
    match x
    case NoneValue => false
    case Bool(b) => b
    case Int(i) => i != 0
    case Str(s) => |s| != 0
    case List(xs) => |xs| != 0
    case Dict(m) => |m| != 0
    case Opaque(_) => true
  }

  /** What makes one lookup call fail: an `AnsibleError` with its message, or
      another Python exception (an `AttributeError` or `TypeError` raised by
      `append`, `get` or `extend` on a value of the wrong shape). */
  datatype LookupError = AnsibleError(msg: string) | TypeFault

  datatype Option<+T> = None | Some(value: T)

  datatype Result<+T, +E> = Success(value: T) | Failure(error: E)

  const ArgumentMessage: string := "merge_var expects one string argument"
  const InitialMessage: string := "merge_var initial value must be a list"

  /** The two aggregated kinds, in the order their values are added. */
  const VarTypes: seq<string> := ["host_vars", "group_vars"]

  /** The variable the collector publishes a kind's aggregation under. */
  function MergedName(vartype: string): string {
    "_merged_" + vartype
  }

  /** A Python list object: the caller's `initial` list is extended in place. */
  class PyList<T> {
    var items: seq<T>

    constructor (xs: seq<T>)
      ensures items == xs
    {
      items := xs;
    }

    /** `list.append` */
    method Append(x: T)
      modifies this
      ensures items == old(items) + [x]
    {
      items := items + [x];
    }

    /** `list.extend` */
    method Extend(xs: seq<T>)
      modifies this
      ensures items == old(items) + xs
    {
      items := items + xs;
    }
  }

  /** A non-list Python value. */
  type NonList<V> = x: Value<V> | !x.List? witness NoneValue

  /** The `initial` keyword argument: absent, a list object, or any other value. */
  datatype InitialArg<V> = NoInitial | InitialList(list: PyList<Value<V>>) | InitialOther(other: NonList<V>)

  /** The same argument as the specification sees it: its contents at the call. */
  datatype Start<V> = Fresh | Given(items: seq<Value<V>>) | NotAList

  function StartOf<V>(initial: InitialArg<V>): Start<V>
    reads if initial.InitialList? then {initial.list} else {}
  {
    match initial
    case NoInitial => Fresh
    case InitialList(l) => Given(l.items)
    case InitialOther(_) => NotAList
  }

  function StartItems<V>(start: Start<V>): seq<Value<V>> {
    if start.Given? then start.items else []
  }

  /** `dict.get(key, default)` */
  function Get<V>(m: map<string, Value<V>>, key: string, default: Value<V>): Value<V> {
    if key in m then m[key] else default
  }

  /** `kwargs.get(name, default)` read as a condition. */
  predicate Flag<V>(kwargs: map<string, Value<V>>, name: string, default: bool) {
    if name in kwargs then Truthy(kwargs[name]) else default
  }

  /** `terms[0]`, when the call has at least one term and it is a string. */
  predicate ValidTerms<V>(terms: seq<Value<V>>) {
    |terms| > 0 && terms[0].Str?
  }

  /** What the `include_existing` step appends: the variable's own value, as
      one element, when asked for and when it is not None. */
  function ExistingPart<V>(variables: map<string, Value<V>>, term: string, kwargs: map<string, Value<V>>): seq<Value<V>> {
    if Flag(kwargs, "include_existing", false) && term in variables && !variables[term].NoneValue?
    then [variables[term]] else []
  }

  /** What `list.extend` adds for an iterable value: a list's elements, a
      string's one-character strings; anything else raises. */
  function Iterate<V>(x: Value<V>): (r: Result<seq<Value<V>>, LookupError>)
    ensures r.Success? <==> x.List? || x.Str?
    ensures r.Failure? ==> r.error == TypeFault
    ensures x.List? ==> r.value == x.items
    ensures x.Str? ==> |r.value| == |x.s|
  {
    match x
    case List(xs) => Success(xs)
    case Str(s) => Success(seq(|s|, i requires 0 <= i < |s| => Str([s[i]])))
    case _ => Failure(TypeFault)
  }

  /** What one kind adds: nothing when its flag is off; otherwise the list
      stored for `term` in the published aggregation (an absent aggregation
      or an absent term gives the empty list). */
  function KindPart<V>(variables: map<string, Value<V>>, term: string, kwargs: map<string, Value<V>>, vartype: string)
    : (r: Result<seq<Value<V>>, LookupError>)
    ensures r.Failure? ==> r.error == TypeFault && Flag(kwargs, vartype, true) && MergedName(vartype) in variables
  {
    if !Flag(kwargs, vartype, true) then Success([])
    else
      match Get(variables, MergedName(vartype), Dict(map[]))
      case Dict(m) => Iterate(Get(m, term, List([])))
      case _ => Failure(TypeFault)
  }

  /** The contents of the result list and the error, if any, after the loop
      over `vartypes` starting from `items`. */
  datatype Outcome<V> = Outcome(items: seq<Value<V>>, error: Option<LookupError>)

  function ExtendKinds<V>(items: seq<Value<V>>, variables: map<string, Value<V>>, term: string,
                          kwargs: map<string, Value<V>>, vartypes: seq<string>): (out: Outcome<V>)
    ensures out.error.None? <==> forall i :: 0 <= i < |vartypes| ==> KindPart(variables, term, kwargs, vartypes[i]).Success?
    decreases |vartypes|
  {
    if vartypes == [] then Outcome(items, None)
    else
      match KindPart(variables, term, kwargs, vartypes[0])
      case Failure(err) => Outcome(items, Some(err))
      case Success(xs) => ExtendKinds(items + xs, variables, term, kwargs, vartypes[1..])
  }

  /** The whole lookup as a function: the final contents of the result list
      (for a list `initial`, that list's contents) and the error raised, if any. */
  function Merge<V>(terms: seq<Value<V>>, variables: map<string, Value<V>>, start: Start<V>, kwargs: map<string, Value<V>>): (out: Outcome<V>)
    ensures out.error.None? <==>
      (&& ValidTerms(terms) && !start.NotAList?
       && KindPart(variables, terms[0].s, kwargs, "host_vars").Success?
       && KindPart(variables, terms[0].s, kwargs, "group_vars").Success?)
  {
    if !ValidTerms(terms) then Outcome(StartItems(start), Some(AnsibleError(ArgumentMessage)))
    else
      var term := terms[0].s;
      var existing := ExistingPart(variables, term, kwargs);
      if start.NotAList? then
        // a non-list has no `append`; without it, the list check raises
        Outcome([], Some(if |existing| != 0 then TypeFault else AnsibleError(InitialMessage)))
      else ExtendKinds(StartItems(start) + existing, variables, term, kwargs, VarTypes)
  }

  /** `LookupModule.run(terms, variables, **kwargs)`; `initial` is split off
      from the other keyword arguments because it may be a list object that
      the call extends and returns. */
  method Run<V>(terms: seq<Value<V>>, variables: map<string, Value<V>>, initial: InitialArg<V>, kwargs: map<string, Value<V>>)
    returns (r: Result<PyList<Value<V>>, LookupError>)
    modifies if initial.InitialList? then {initial.list} else {}
    ensures var out := Merge(terms, variables, old(StartOf(initial)), kwargs);
      && (r.Failure? <==> out.error.Some?)
      && (r.Failure? ==> r.error == out.error.value)
      && (initial.InitialList? ==> initial.list.items == out.items)
      && (initial.InitialList? && r.Success? ==> r.value == initial.list)
      && (initial.NoInitial? && r.Success? ==> fresh(r.value) && r.value.items == out.items)
  {
    if |terms| == 0 || !terms[0].Str? {
      return Failure(AnsibleError(ArgumentMessage));
    }
    var term := terms[0].s;
    var includeExisting := Flag(kwargs, "include_existing", false);
    var ret: PyList<Value<V>>;
    match initial {
      case InitialOther(_) =>
        if includeExisting && term in variables && !variables[term].NoneValue? {
          return Failure(TypeFault);
        }
        return Failure(AnsibleError(InitialMessage));
      case NoInitial =>
        ret := new PyList([]);
      case InitialList(l) =>
        ret := l;
    }
    ghost var start := ret.items;
    if includeExisting {
      if term in variables && !variables[term].NoneValue? {
        ret.Append(variables[term]);
      }
    }
    assert ret.items == start + ExistingPart(variables, term, kwargs);
    var err := ExtendFromAggregations(ret, variables, term, kwargs);
    if err.Some? {
      return Failure(err.value);
    }
    return Success(ret);
  }

  /** `for vartype in ('host_vars', 'group_vars'): ...` extending `ret` in
      place; the error is the exception that ends the loop, if any. */
  method ExtendFromAggregations<V>(ret: PyList<Value<V>>, variables: map<string, Value<V>>, term: string, kwargs: map<string, Value<V>>)
    returns (err: Option<LookupError>)
    modifies ret
    ensures Outcome(ret.items, err) == ExtendKinds(old(ret.items), variables, term, kwargs, VarTypes)
  {
    ghost var goal := ExtendKinds(ret.items, variables, term, kwargs, VarTypes);
    for n := 0 to |VarTypes|
      invariant ExtendKinds(ret.items, variables, term, kwargs, VarTypes[n..]) == goal
    {
      var vartype := VarTypes[n];
      assert VarTypes[n..][0] == vartype && VarTypes[n..][1..] == VarTypes[n + 1..];
      if Flag(kwargs, vartype, true) {
        var mergedVar := Get(variables, MergedName(vartype), Dict(map[]));
        if !mergedVar.Dict? {
          return Some(TypeFault);
        }
        var more := Iterate(Get(mergedVar.entries, term, List([])));
        if more.Failure? {
          return Some(more.error);
        }
        ret.Extend(more.value);
      }
    }
    assert VarTypes[|VarTypes|..] == [];
    return None;
  }
}
