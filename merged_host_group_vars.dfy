/** The collector: the vars plugin `merged_host_group_vars`.  For every host
    or group entity it finds that entity's files under `host_vars/` or
    `group_vars/`, loads them, and appends every value of every key to a
    per-kind, per-key list instead of letting the last file win.  The lists
    are published as `_merged_host_vars` and `_merged_group_vars`.

    The filesystem and Ansible's data loader are collaborators given as
    oracle functions (`Env`); a Python exception raised by one of them is
    the `Raised` outcome. */
module MergedHostGroupVars {

  /** The two kinds of inventory entity the plugin handles. */
  datatype Kind = HostKind | GroupKind

  /** The directory (under the inventory's base directory) holding a kind's files. */
  function Subdir(kind: Kind): string {
    match kind
    case HostKind => "host_vars"
    case GroupKind => "group_vars"
  }

  /** The name under which a kind's aggregation is published. */
  function DataKey(kind: Kind): string {
    "_merged_" + Subdir(kind)
  }

  /** An inventory entity: a host, a group, or any other object (which the
      plugin leaves to the built-in vars plugin). */
  datatype Entity = Host(name: string) | Group(name: string) | Other

  /** The `entities` argument: either a list, or one object standing alone. */
  datatype EntitiesArg = EntityList(items: seq<Entity>) | Single(item: Entity)

  /** A non-list argument is wrapped into a one-element list. */
  function AsList(arg: EntitiesArg): (es: seq<Entity>)
    ensures arg.Single? ==> es == [arg.item]
    ensures arg.EntityList? ==> es == arg.items
  {
    match arg
    case EntityList(items) => items
    case Single(item) => [item]
  }

  /** `os.path.sep` on a POSIX system. */
  const PathSep: char := '/'

  /** Names such as `/path/to/chroot` are never used as a variable-file root. */
  predicate StartsWithSep(name: string) {
    |name| > 0 && name[0] == PathSep
  }

  /** Whether the plugin does anything at all for this entity. */
  predicate Participates(e: Entity) {
    !e.Other? && !StartsWithSep(e.name)
  }

  function KindOf(e: Entity): Kind
    requires !e.Other?
  {
    if e.Host? then HostKind else GroupKind
  }

  /** The outcome of a call that may raise a Python exception. */
  datatype Attempt<+T> = Done(value: T) | Raised

  /** What loading one variable file yields: a mapping from variable names to
      values, or some other object (None, a list, a scalar), of which only its
      Python truthiness matters. */
  datatype FileData<+V> = Mapping(vars: map<string, V>) | NonMapping(truthy: bool)

  /** `if new_data:` */
  predicate Truthy<V>(d: FileData<V>) {
    match d
    case Mapping(m) => |m| != 0
    case NonMapping(t) => t
  }

  /** The collaborators, as oracles.
      - `resolve(basedir, subdir)`: `realpath(join(basedir, subdir))` with its
        byte/text conversions;
      - `pathExists`, `isDir`: `os.path.exists`, `os.path.isdir` (they never raise);
      - `findVarsFiles(dir, name)`: the loader's file discovery for one entity;
      - `load(file)`: `load_from_file`. */
  datatype Env<!F, V> = Env(
    resolve: (string, string) -> Attempt<string>,
    pathExists: string -> bool,
    isDir: string -> bool,
    findVarsFiles: (string, string) -> Attempt<seq<F>>,
    load: F -> Attempt<FileData<V>>)

  /** The discovery cache key: the string `name + "." + opath`, not a pair. */
  function CacheKey(name: string, opath: string): string {
    name + "." + opath
  }

  /** Per-key lists of every value found, in discovery order (one kind's
      `defaultdict(list)`). */
  type Aggregation<V> = map<string, seq<V>>

  /** A key's list, or the empty list a `defaultdict(list)` would create. */
  function Values<V>(a: Aggregation<V>, k: string): seq<V> {
    if k in a then a[k] else []
  }

  /** `for k, v in new_data.items(): agg[k].append(v)` */
  function AppendData<V>(a: Aggregation<V>, m: map<string, V>): (r: Aggregation<V>)
    ensures r.Keys == a.Keys + m.Keys
    ensures forall k :: Values(r, k) == Values(a, k) + (if k in m then [m[k]] else [])
  {
    map k | k in a.Keys + m.Keys :: Values(a, k) + (if k in m then [m[k]] else [])
  }

  /** Whether handling one loaded file raises: the load itself raised, or it
      yielded a truthy object without `.items()`. */
  predicate LoadFails<V>(r: Attempt<FileData<V>>) {
    r.Raised? || (r.value.NonMapping? && r.value.truthy)
  }

  /** The index of the first file whose handling raises, or the number of files. */
  function FirstFailure<F, V>(load: F -> Attempt<FileData<V>>, files: seq<F>): (n: nat)
    ensures n <= |files|
  {
    if files == [] then 0
    else if LoadFails(load(files[0])) then 0
    else 1 + FirstFailure(load, files[1..])
  }

  /** What one loaded file contributes to key `k`: its value, if it defines `k`. */
  function FileContribution<V>(r: Attempt<FileData<V>>, k: string): seq<V> {
    match r
    case Done(Mapping(m)) => if k in m then [m[k]] else []
    case _ => []
  }

  /** Reference definition of what a run of files contributes to key `k`:
      one value per file whose data defines `k`, in file order. */
  function Contributions<F, V>(load: F -> Attempt<FileData<V>>, files: seq<F>, k: string): seq<V> {
    if files == [] then []
    else FileContribution(load(files[0]), k) + Contributions(load, files[1..], k)
  }

  /** Handling one file that does not raise: `if new_data:` append its items. */
  function AfterFile<V>(d: FileData<V>, a: Aggregation<V>): Aggregation<V>
    requires !(d.NonMapping? && d.truthy)
  {
    if !Truthy(d) then a else AppendData(a, d.vars)
  }

  /** Loads the files in order into aggregation `a`.  The flag is false when a
      file raised (the load itself, or `.items()` on truthy data that is not a
      mapping); what was appended before it stays. */
  function LoadFiles<F, V>(load: F -> Attempt<FileData<V>>, files: seq<F>, a: Aggregation<V>): (Aggregation<V>, bool)
    decreases |files|
  {
    if files == [] then (a, true)
    else if LoadFails(load(files[0])) then (a, false)
    else LoadFiles(load, files[1..], AfterFile(load(files[0]).value, a))
  }

  lemma ContributionsOfPrefix<F, V>(load: F -> Attempt<FileData<V>>, files: seq<F>, n: nat, k: string)
    requires 0 < n <= |files|
    ensures Contributions(load, files[..n], k)
         == FileContribution(load(files[0]), k) + Contributions(load, files[1..][..n - 1], k)
  {
    assert files[..n][1..] == files[1..][..n - 1];
  }

  lemma FileValues<V>(d: FileData<V>, a: Aggregation<V>, k: string)
    requires !(d.NonMapping? && d.truthy)
    ensures a.Keys <= AfterFile(d, a).Keys
    ensures k in AfterFile(d, a) <==> k in a || FileContribution(Done(d), k) != []
    ensures Values(AfterFile(d, a), k) == Values(a, k) + FileContribution(Done(d), k)
  {
  }

  /** Loading a run of files succeeds iff no file in it fails. */
  lemma {:induction false} LoadFilesSucceeds<F, V>(load: F -> Attempt<FileData<V>>, files: seq<F>, a: Aggregation<V>)
    ensures LoadFiles(load, files, a).1 <==> FirstFailure(load, files) == |files|
    ensures a.Keys <= LoadFiles(load, files, a).0.Keys
    decreases |files|
  {
    if files != [] && !LoadFails(load(files[0])) {
      FileValues(load(files[0]).value, a, "");
      LoadFilesSucceeds(load, files[1..], AfterFile(load(files[0]).value, a));
    }
  }

  /** What the files before the first failing one contribute to key `k`. */
  function ContributionsBeforeFailure<F, V>(load: F -> Attempt<FileData<V>>, files: seq<F>, k: string): seq<V> {
    if files == [] || LoadFails(load(files[0])) then []
    else FileContribution(load(files[0]), k) + ContributionsBeforeFailure(load, files[1..], k)
  }

  /** ... which are the contributions of the run's prefix up to the first failure. */
  lemma {:induction false} BeforeFailureIsPrefix<F, V>(load: F -> Attempt<FileData<V>>, files: seq<F>, k: string)
    ensures ContributionsBeforeFailure(load, files, k) == Contributions(load, files[..FirstFailure(load, files)], k)
    decreases |files|
  {
    var p := FirstFailure(load, files);
    if files == [] || LoadFails(load(files[0])) {
      assert files[..p] == [];
    } else {
      BeforeFailureIsPrefix(load, files[1..], k);
      ContributionsOfPrefix(load, files, p, k);
    }
  }

  /** Loading a run of files appends, to key `k`, exactly the values that the
      files before the first failing one define for it, in file order. */
  lemma {:induction false} LoadFilesValues<F, V>(load: F -> Attempt<FileData<V>>, files: seq<F>, a: Aggregation<V>, k: string)
    ensures Values(LoadFiles(load, files, a).0, k) == Values(a, k) + ContributionsBeforeFailure(load, files, k)
    decreases |files|
  {
    if files == [] || LoadFails(load(files[0])) {
      assert LoadFiles(load, files, a).0 == a;
    } else {
      var a' := AfterFile(load(files[0]).value, a);
      FileValues(load(files[0]).value, a, k);
      LoadFilesValues(load, files[1..], a', k);
      SeqAssoc(Values(a, k), FileContribution(load(files[0]), k), ContributionsBeforeFailure(load, files[1..], k));
    }
  }

  /** A key is present after loading a run of files exactly when it was
      present before or a file before the first failing one defines it. */
  lemma {:induction false} LoadFilesKeys<F, V>(load: F -> Attempt<FileData<V>>, files: seq<F>, a: Aggregation<V>, k: string)
    ensures k in LoadFiles(load, files, a).0 <==> k in a || ContributionsBeforeFailure(load, files, k) != []
    decreases |files|
  {
    if files == [] || LoadFails(load(files[0])) {
      assert LoadFiles(load, files, a).0 == a;
    } else {
      FileValues(load(files[0]).value, a, k);
      LoadFilesKeys(load, files[1..], AfterFile(load(files[0]).value, a), k);
    }
  }

  lemma SeqAssoc<T>(x: seq<T>, y: seq<T>, z: seq<T>)
    ensures (x + y) + z == x + (y + z)
  {
  }

  /** What loading a run of files does, for every key at once. */
  lemma LoadFilesAppends<F, V>(load: F -> Attempt<FileData<V>>, files: seq<F>, a: Aggregation<V>)
    ensures var p := FirstFailure(load, files);
      && (LoadFiles(load, files, a).1 <==> p == |files|)
      && a.Keys <= LoadFiles(load, files, a).0.Keys
      && (forall k :: k in LoadFiles(load, files, a).0 <==> k in a || Contributions(load, files[..p], k) != [])
      && (forall k :: Values(LoadFiles(load, files, a).0, k) == Values(a, k) + Contributions(load, files[..p], k))
  {
    var p := FirstFailure(load, files);
    var r := LoadFiles(load, files, a).0;
    LoadFilesSucceeds(load, files, a);
    forall k ensures (k in r <==> k in a || Contributions(load, files[..p], k) != [])
                 && Values(r, k) == Values(a, k) + Contributions(load, files[..p], k) {
      LoadFilesKeys(load, files, a, k);
      LoadFilesValues(load, files, a, k);
      BeforeFailureIsPrefix(load, files, k);
    }
  }

  /** The outcome of looking up an entity's files: the list (or the exception
      `find_vars_files` raised), the cache afterwards, and the
      `find_vars_files` calls made, as (directory, entity name). */
  datatype Discovery<F> = Discovery(files: Attempt<seq<F>>, found: map<string, seq<F>>, scans: seq<(string, string)>)

  /** The cache lookup and directory scan for one entity. */
  function Discover<F, V>(env: Env<F, V>, useCache: bool, found: map<string, seq<F>>, name: string, opath: string): (d: Discovery<F>)
    ensures d.scans == [] || d.scans == [(opath, name)]
    ensures d.files.Raised? ==> d.scans != [] && d.found == found
  {
    var key := CacheKey(name, opath);
    if useCache && key in found then Discovery(Done(found[key]), found, [])
    else if env.pathExists(opath) && env.isDir(opath) then
      match env.findVarsFiles(opath, name)
      case Done(fs) => Discovery(Done(fs), found[key := fs], [(opath, name)])
      case Raised => Discovery(Raised, found, [(opath, name)])
    else Discovery(Done([]), found, [])
  }

  /** The cache rules: a hit reuses the cached list without scanning; a miss
      on an existing directory scans it once, yields what the scan returned
      and, when the scan succeeded, caches exactly that list; the cache is
      written only for an existing directory whose scan succeeded, and a
      missing or non-directory path yields no files; no entry is ever
      removed, and with the cache on none is ever replaced. */
  lemma DiscoverCacheRules<F, V>(env: Env<F, V>, useCache: bool, found: map<string, seq<F>>, name: string, opath: string)
    ensures var d := Discover(env, useCache, found, name, opath);
      var key := CacheKey(name, opath);
      && (useCache && key in found ==> d == Discovery(Done(found[key]), found, []))
      && (!(useCache && key in found) && !(env.pathExists(opath) && env.isDir(opath)) ==>
            d.files == Done([]) && d.found == found && d.scans == [])
      && (!(useCache && key in found) && env.pathExists(opath) && env.isDir(opath) ==>
            && d.files == env.findVarsFiles(opath, name)
            && d.scans == [(opath, name)]
            && (d.files.Done? ==> d.found == found[key := d.files.value]))
      && (d.found != found ==>
            env.pathExists(opath) && env.isDir(opath) && env.findVarsFiles(opath, name).Done?
            && d.found == found[key := env.findVarsFiles(opath, name).value])
      && found.Keys <= d.found.Keys
      && (useCache ==> forall k :: k in found ==> d.found[k] == found[k])
  {
  }

  /** Everything one `get_vars` call has built so far: the discovery cache
      (FOUND), the per-kind aggregations, the kinds published into the result,
      and the `find_vars_files` calls made. */
  datatype CollectState<F, V> = CollectState(
    found: map<string, seq<F>>,
    merged: map<Kind, Aggregation<V>>,
    published: set<Kind>,
    scans: seq<(string, string)>)

  /** The state at the start of a call, given the cache left by earlier calls. */
  function Initial<F, V>(found: map<string, seq<F>>): CollectState<F, V> {
    CollectState(found, map[HostKind := map[], GroupKind := map[]], {}, [])
  }

  /** A kind's aggregation (empty when the kind was never touched). */
  function AggOf<F, V>(st: CollectState<F, V>, kind: Kind): Aggregation<V> {
    if kind in st.merged then st.merged[kind] else map[]
  }

  /** One iteration of the `for entity in entities` loop. */
  function Step<F, V>(env: Env<F, V>, basedir: string, useCache: bool, st: CollectState<F, V>, e: Entity): (st': CollectState<F, V>)
    ensures st.published <= st'.published
    ensures st.scans <= st'.scans && |st'.scans| <= |st.scans| + 1
  {
    if !Participates(e) then st
    else
      var kind := KindOf(e);
      match env.resolve(basedir, Subdir(kind))
      case Raised => st
      case Done(opath) =>
        var d := Discover(env, useCache, st.found, e.name, opath);
        var st1 := st.(found := d.found, scans := st.scans + d.scans);
        match d.files
        case Raised => st1
        case Done(fs) =>
          var loaded := LoadFiles(env.load, fs, AggOf(st, kind));
          var st2 := st1.(merged := st1.merged[kind := loaded.0]);
          if loaded.1 && |loaded.0| != 0 then st2.(published := st2.published + {kind}) else st2
  }

  /** The whole loop: the entities in order. */
  function Collect<F, V>(env: Env<F, V>, basedir: string, useCache: bool, st: CollectState<F, V>, es: seq<Entity>): (r: CollectState<F, V>)
    ensures st.published <= r.published
    ensures st.scans <= r.scans && |r.scans| <= |st.scans| + |es|
    decreases |es|
  {
    if es == [] then st else Collect(env, basedir, useCache, Step(env, basedir, useCache, st, es[0]), es[1..])
  }

  lemma DataKeysDistinct()
    ensures DataKey(HostKind) != DataKey(GroupKind)
  {
    assert DataKey(HostKind)[8] != DataKey(GroupKind)[8];
  }

  /** The result dict: only `_merged_host_vars` and `_merged_group_vars`, each
      present exactly when its kind was published, holding that kind's
      aggregation as it stands at the end. */
  function Publish<F, V>(st: CollectState<F, V>): (data: map<string, Aggregation<V>>)
    ensures data.Keys <= {DataKey(HostKind), DataKey(GroupKind)}
    ensures forall kind :: DataKey(kind) in data <==> kind in st.published
    ensures forall kind :: kind in st.published ==> data[DataKey(kind)] == AggOf(st, kind)
  {
    DataKeysDistinct();
    map key | key in PublishedKeys(st.published) :: if key == DataKey(HostKind) then AggOf(st, HostKind) else AggOf(st, GroupKind)
  }

  function PublishedKeys(published: set<Kind>): (keys: set<string>)
    ensures forall kind :: DataKey(kind) in keys <==> kind in published
    ensures keys <= {DataKey(HostKind), DataKey(GroupKind)}
  {
    DataKeysDistinct();
    set kind | kind in published :: DataKey(kind)
  }

  /** `FOUND` is a module global; one `VarsModule` object stands for the loaded
      plugin module, its `found` field for that global. */
  class VarsModule<F> {
    var found: map<string, seq<F>>

    /** Importing the module: `FOUND = {}`. */
    constructor ()
      ensures found == map[]
    {
      found := map[];
    }

    /** `get_vars(loader, path, entities, cache)`; `basedir` is the inventory
        directory the framework sets up.  Besides the result dict it returns
        the `find_vars_files` calls it made, as (directory, entity name). */
    method GetVars<V>(env: Env<F, V>, basedir: string, entities: EntitiesArg, useCache: bool)
      returns (data: map<string, Aggregation<V>>, scans: seq<(string, string)>)
      modifies this
      ensures var r := Collect(env, basedir, useCache, Initial(old(found)), AsList(entities));
        found == r.found && scans == r.scans && data == Publish(r)
    {
      var es := AsList(entities);
      var merged: map<Kind, Aggregation<V>> := map[HostKind := map[], GroupKind := map[]];
      var published: set<Kind> := {};
      scans := [];
      var i := 0;
      while i < |es|
        invariant 0 <= i <= |es|
        invariant Collect(env, basedir, useCache, CollectState(found, merged, published, scans), es[i..])
               == Collect(env, basedir, useCache, Initial(old(found)), es)
      {
        assert es[i..][0] == es[i] && es[i..][1..] == es[i + 1..];
        merged, published, scans := HandleEntity(env, basedir, useCache, es[i], merged, published, scans);
        i := i + 1;
      }
      assert es[i..] == [];
      data := Publish(CollectState(found, merged, published, scans));
    }

    /** The body of `for entity in entities`: `continue` is an early return. */
    method HandleEntity<V>(env: Env<F, V>, basedir: string, useCache: bool, entity: Entity,
                           merged: map<Kind, Aggregation<V>>, published: set<Kind>, scans: seq<(string, string)>)
      returns (merged': map<Kind, Aggregation<V>>, published': set<Kind>, scans': seq<(string, string)>)
      modifies this
      ensures CollectState(found, merged', published', scans')
           == Step(env, basedir, useCache, CollectState(old(found), merged, published, scans), entity)
    {
      merged', published', scans' := merged, published, scans;
      if entity.Other? {
        return;
      }
      var kind := KindOf(entity);
      if StartsWithSep(entity.name) {
        return;
      }
      // try:
      var resolved := env.resolve(basedir, Subdir(kind));
      if resolved.Raised? {
        return;
      }
      var listed, called := FindFiles(env, useCache, entity.name, resolved.value);
      scans' := scans + called;
      if listed.Raised? {
        return;
      }
      var agg, failed := LoadInto(env.load, listed.value, if kind in merged then merged[kind] else map[]);
      merged' := merged[kind := agg];
      if failed {
        return;
      }
      if |merged'[kind]| != 0 {
        published' := published + {kind};
      }
    }

    /** The cache lookup, and on a miss the directory scan, for one entity;
        `called` lists the `find_vars_files` calls made. */
    method FindFiles<V>(env: Env<F, V>, useCache: bool, name: string, opath: string)
      returns (files: Attempt<seq<F>>, called: seq<(string, string)>)
      modifies this
      ensures Discovery(files, found, called) == Discover(env, useCache, old(found), name, opath)
    {
      var key := CacheKey(name, opath);
      called := [];
      if useCache && key in found {
        files := Done(found[key]);
      } else if env.pathExists(opath) {
        if env.isDir(opath) {
          called := [(opath, name)];
          files := env.findVarsFiles(opath, name);
          if files.Done? {
            found := found[key := files.value];
          }
        } else {
          files := Done([]);
        }
      } else {
        files := Done([]);
      }
    }
  }

  /** `for found in found_files: ...` — appends each file's values to the
      kind's aggregation; `failed` reports the exception that ends the loop
      early, after which the earlier appends remain. */
  method LoadInto<F, V>(load: F -> Attempt<FileData<V>>, files: seq<F>, agg: Aggregation<V>)
    returns (agg': Aggregation<V>, failed: bool)
    ensures (agg', !failed) == LoadFiles(load, files, agg)
  {
    agg' := agg;
    failed := false;
    var j := 0;
    while j < |files|
      invariant 0 <= j <= |files|
      invariant LoadFiles(load, files[j..], agg') == LoadFiles(load, files, agg)
    {
      assert files[j..][0] == files[j] && files[j..][1..] == files[j + 1..];
      var newData := load(files[j]);
      if newData.Raised? {
        failed := true;
        return;
      }
      if Truthy(newData.value) {
        if newData.value.NonMapping? {
          // `.items()` on an object that has none
          failed := true;
          return;
        }
        agg' := AppendItems(agg', newData.value.vars);
      }
      j := j + 1;
    }
    assert files[j..] == [];
  }

  /** Two aggregations with the same keys and the same lists are equal. */
  lemma AggregationsEqual<V>(r: Aggregation<V>, s: Aggregation<V>)
    requires r.Keys == s.Keys
    requires forall k :: Values(r, k) == Values(s, k)
    ensures r == s
  {
    forall k | k in r ensures r[k] == s[k] {
      assert Values(r, k) == Values(s, k);
    }
  }

  /** `for k, v in new_data.items(): _merged_vars[subdir][k].append(v)` */
  method AppendItems<V>(a: Aggregation<V>, m: map<string, V>) returns (r: Aggregation<V>)
    ensures r == AppendData(a, m)
  {
    r := a;
    var todo := m.Keys;
    while todo != {}
      invariant todo <= m.Keys
      invariant PartlyAppended(a, m, todo, r)
      decreases todo
    {
      var k :| k in todo;
      AppendOneKey(a, m, todo, r, k);
      r := r[k := Values(r, k) + [m[k]]];
      todo := todo - {k};
    }
    AggregationsEqual(r, AppendData(a, m));
  }

  /** `r` is `a` with the items of `m` outside `todo` appended. */
  ghost predicate PartlyAppended<V>(a: Aggregation<V>, m: map<string, V>, todo: set<string>, r: Aggregation<V>) {
    && r.Keys == a.Keys + (m.Keys - todo)
    && forall k :: Values(r, k) == Values(a, k) + (if k in m && k !in todo then [m[k]] else [])
  }

  lemma AppendOneKey<V>(a: Aggregation<V>, m: map<string, V>, todo: set<string>, r: Aggregation<V>, k: string)
    requires k in todo && todo <= m.Keys && PartlyAppended(a, m, todo, r)
    ensures PartlyAppended(a, m, todo - {k}, r[k := Values(r, k) + [m[k]]])
  {
    var r' := r[k := Values(r, k) + [m[k]]];
    forall k' ensures Values(r', k') == Values(a, k') + (if k' in m && k' !in todo - {k} then [m[k']] else []) {
      if k' == k {
        assert Values(r, k) == Values(a, k);
      } else {
        assert Values(r', k') == Values(r, k');
      }
    }
  }
}
