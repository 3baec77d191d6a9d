# merged host/group vars — a Dafny model

This project models the two cooperating plugins of an Ansible extension.
Together they replace Ansible's "last file wins" handling of host and group
variables with "collect every value, in order".

- **The collector** is the vars plugin `merged_host_group_vars`
  (`VarsModule.get_vars`). It walks the inventory entities. For every host
  or group it finds the entity's variable files through the module-global
  discovery cache `FOUND`. It loads each file and appends every `(name,
  value)` pair to a per-kind, per-name list. Exceptions are swallowed entity
  by entity. It publishes the host and group aggregations as
  `_merged_host_vars` and `_merged_group_vars`.
- **The merger** is the lookup plugin `merge_vars` (`LookupModule.run`). For
  one variable name it builds a single list in a fixed order:
  - the caller's `initial` list;
  - the variable's own value, when asked for;
  - the host values;
  - the group values.

  It extends a caller-supplied `initial` list in place.

Files:

- `merged_host_group_vars.dfy` (module `MergedHostGroupVars`) covers the collector.
  - The pure specification is `Step` (one loop iteration) and `Collect` (the loop as a left fold).
  - The class `VarsModule`'s field `found` is the `FOUND` global.
  - Its method `GetVars` is the imperative loop. It is proved to leave `found`, and to return the result dict, exactly as `Collect` and `Publish` say.
  - `HandleEntity` is the loop body and `FindFiles` the cache lookup. `LoadInto` and `AppendItems` are the inner loops over files and over a file's items.
- `merged_host_group_vars_lemmas.dfy` (module `MergedHostGroupVarsLemmas`) holds the properties of `Collect`:
  - skipping;
  - cache rules;
  - exact per-key contributions;
  - separation of kinds;
  - publication;
  - the second cached call.
- `merge_vars.dfy` (module `MergeVars`) covers the merger.
  - The class `PyList` is a Python list object.
  - `Merge` is the specification of the lookup.
  - The method `Run` is the imperative body, proved to follow `Merge`. That includes the error it raises and the identity of the list it returns. `ExtendFromAggregations` is its loop over the two kinds.
- `merge_vars_lemmas.dfy` (module `MergeVarsLemmas`) holds the properties of `Merge`:
  - argument errors;
  - the ordering and length law;
  - defaults;
  - the non-list `initial` case;
  - worked examples.
- `pipeline.dfy` (module `Pipeline`) proves what a plain lookup returns when its variables are the collector's published result.

The filesystem and the loader are oracles, bundled in the `Env` datatype:
- `resolve` is `realpath(join(basedir, subdir))`;
- `pathExists` and `isDir`;
- `findVarsFiles`;
- `load` is `load_from_file`.

Any of them that can raise returns an `Attempt`, whose `Raised` case is a swallowed exception. Variable values are an opaque type parameter.

## Model

| member | source | states |
|---|---|---|
| MergedHostGroupVars.AsList | vars_plugins/merged_host_group_vars.py:36-37 | A single non-list `entities` argument is handled as the one-element list holding it; a list is used as it is. |
| MergedHostGroupVars.AppendData | vars_plugins/merged_host_group_vars.py:89-90 | Appending a file's mapping adds its names to the aggregation's keys and extends each name's list by exactly that file's value, leaving other names' lists as they were. |
| MergedHostGroupVars.LoadFilesSucceeds | vars_plugins/merged_host_group_vars.py:81-96 | Loading an entity's files finishes without exception iff no file raises (a raising load, or truthy data without `.items()`); no aggregation key is ever lost. |
| MergedHostGroupVars.FileValues | vars_plugins/merged_host_group_vars.py:88-90 | Handling one file that does not raise keeps every name and extends a name's list by that file's value exactly when the file's data is a non-empty mapping defining it. |
| MergedHostGroupVars.LoadFilesValues | vars_plugins/merged_host_group_vars.py:81-96 | For a name, the list grows by exactly one value per file, up to the first raising file, whose data defines that name, in file order; empty or None data adds nothing, and values appended before an exception stay. |
| MergedHostGroupVars.BeforeFailureIsPrefix | vars_plugins/merged_host_group_vars.py:81-96 | What the files before the first raising one contribute equals the reference `Contributions` of the file-list prefix that ends at that file. |
| MergedHostGroupVars.LoadFilesKeys | vars_plugins/merged_host_group_vars.py:81-96 | A name is a key of the aggregation after loading iff it was one before or some file before the first raising one defines it: a file list that contributes nothing creates no key. |
| MergedHostGroupVars.LoadFilesAppends | vars_plugins/merged_host_group_vars.py:81-96 | For all names at once: the load finishes iff no file raises, a name is present afterwards iff it was before or the files up to the first raising one define it, and each name's list grows by exactly those files' values for it. |
| MergedHostGroupVars.LoadFiles | vars_plugins/merged_host_group_vars.py:81-96 | Definition of the loop over `found_files`: each file's data, when truthy, is appended item by item, and the first raising file ends the entity; its properties are the `LoadFiles…` lemmas above. |
| MergedHostGroupVars.CacheKey | vars_plugins/merged_host_group_vars.py:70 | Definition of the cache key as the string `name + "." + opath`; `CacheKeyCollides` shows it is not injective. |
| MergedHostGroupVars.Discover | vars_plugins/merged_host_group_vars.py:66-79 | Looking up one entity's files makes at most one `find_vars_files` call, for the entity's own directory and name, and a scan that raises caches nothing; the full cache rules are `DiscoverCacheRules`. |
| MergedHostGroupVars.DiscoverCacheRules | vars_plugins/merged_host_group_vars.py:70-79 | With `cache` on and the key cached, the cached list is reused and `find_vars_files` is not called. On a miss with an existing directory, `find_vars_files(opath, name)` is called once, its result is the entity's files, and when it returns that exact list is stored under the key. Otherwise `FOUND` changes only for an existing directory whose scan returned, and only at that key. A missing or non-directory path yields no files and leaves `FOUND` alone. No entry is removed, and with `cache` on none is replaced. |
| MergedHostGroupVars.Step | vars_plugins/merged_host_group_vars.py:49-104 | One loop iteration never unpublishes a kind and makes at most one `find_vars_files` call, appended to the calls made so far. |
| MergedHostGroupVars.Collect | vars_plugins/merged_host_group_vars.py:49-105 | The whole loop never unpublishes a kind and makes at most one `find_vars_files` call per entity, in entity order. |
| MergedHostGroupVars.DataKeysDistinct | vars_plugins/merged_host_group_vars.py:103 | `_merged_host_vars` and `_merged_group_vars` are different result keys. |
| MergedHostGroupVars.Publish | vars_plugins/merged_host_group_vars.py:98-105 | The result dict holds no keys but `_merged_host_vars` and `_merged_group_vars`. Each is present iff its kind was published, and holds that kind's aggregation as it stands at the end of the call, since what is published is a reference. |
| MergedHostGroupVars.VarsModule.constructor | vars_plugins/merged_host_group_vars.py:29 | Loading the module starts with an empty `FOUND`. |
| MergedHostGroupVars.VarsModule.GetVars | vars_plugins/merged_host_group_vars.py:33-105 | The imperative loop leaves `FOUND` as `Collect` does, starting from the previous `FOUND` and fresh aggregations. It returns `Publish` of `Collect`'s final state, and makes exactly `Collect`'s `find_vars_files` calls. |
| MergedHostGroupVars.VarsModule.HandleEntity | vars_plugins/merged_host_group_vars.py:49-104 | One pass of the loop body, with each `continue` an early return, leaves `FOUND`, the aggregations, the published kinds and the scans exactly as `Step` does. |
| MergedHostGroupVars.VarsModule.FindFiles | vars_plugins/merged_host_group_vars.py:66-79 | The cache lookup and scan return the files, update `FOUND` and make the `find_vars_files` calls exactly as `Discover`, whose rules `DiscoverCacheRules` states. |
| MergedHostGroupVars.LoadInto | vars_plugins/merged_host_group_vars.py:81-96 | The loop over `found_files` computes `LoadFiles`: the aggregation after the appends, and whether an exception ended it early. |
| MergedHostGroupVars.AppendItems | vars_plugins/merged_host_group_vars.py:89-90 | The loop over a file's items computes `AppendData`, whatever order the items come in. |
| MergedHostGroupVarsLemmas.StepAggregation | vars_plugins/merged_host_group_vars.py:81-96 | Once an entity's files are known, each name's list of the entity's kind grows by exactly those files' contributions up to the first raising file. A name is a key afterwards iff it was before or one of those files defines it. |
| MergedHostGroupVarsLemmas.StepPublication | vars_plugins/merged_host_group_vars.py:81-104 | Once an entity's files are known, the other kind's aggregation and publication are untouched, and the entity's kind is published iff it already was or the entity finished without exception with a non-empty aggregation. |
| MergedHostGroupVarsLemmas.StepLoads | vars_plugins/merged_host_group_vars.py:81-104 | An entity whose files are known stores the result of loading them as its kind's aggregation and publishes the kind iff loading finished and left it non-empty. |
| MergedHostGroupVarsLemmas.StepRaisedEarly | vars_plugins/merged_host_group_vars.py:65-96 | An entity whose directory resolution or file scan raises changes no aggregation, publishes nothing and writes nothing to `FOUND`. |
| MergedHostGroupVarsLemmas.CollectIgnoresSkipped | vars_plugins/merged_host_group_vars.py:49-63 | Entities that are neither Host nor Group, and entities whose name starts with the path separator, can be dropped without changing anything: no contribution, no exception, no `FOUND` access. |
| MergedHostGroupVarsLemmas.CollectConcat | vars_plugins/merged_host_group_vars.py:49-96 | The loop is a left fold: running `xs + ys` is running `ys` after `xs`, so whatever one entity does, including raising, the later entities are still processed. |
| MergedHostGroupVarsLemmas.CollectKeepsCache | vars_plugins/merged_host_group_vars.py:70-79 | Over a whole call no `FOUND` entry is removed, and with `cache` on none is replaced. |
| MergedHostGroupVarsLemmas.CollectKindsSeparate | vars_plugins/merged_host_group_vars.py:47-90 | Entities of one kind never change the other kind's aggregation or its publication, so host and group values are never mixed. |
| MergedHostGroupVarsLemmas.CollectOnlyAppends | vars_plugins/merged_host_group_vars.py:81-96 | Over a whole call every name's list only grows at its end, and no name disappears: nothing is rolled back or reordered. |
| MergedHostGroupVarsLemmas.StepOnlyAppends | vars_plugins/merged_host_group_vars.py:81-96 | One entity only appends to each name's list of either kind and removes no name. |
| MergedHostGroupVarsLemmas.CollectKeepsPublishedNonEmpty | vars_plugins/merged_host_group_vars.py:98-104 | A published aggregation is never empty. |
| MergedHostGroupVarsLemmas.CollectSettles | vars_plugins/merged_host_group_vars.py:70-79 | After a cached call, `FOUND` holds an entry for every entity of the call whose directory exists and could be scanned. |
| MergedHostGroupVarsLemmas.SettledCollectKeepsCache | vars_plugins/merged_host_group_vars.py:70-79 | A cached call over entities that `FOUND` already answers for does not change `FOUND`. |
| MergedHostGroupVarsLemmas.CachedCallTwiceSameCache | vars_plugins/merged_host_group_vars.py:70-79 | Repeating a cached call for the same entities, with the filesystem unchanged, leaves `FOUND` exactly as the first call left it. |
| MergedHostGroupVarsLemmas.LookupDir | vars_plugins/merged_host_group_vars.py:49-69 | An entity has a directory to look in only when it takes part in the loop, and that directory is the resolved one for its kind. |
| MergedHostGroupVarsLemmas.KeyStaysOut | vars_plugins/merged_host_group_vars.py:70-79 | A cache key that is absent stays absent for a whole cached call when every entity using it lists the same directory for the same name and that listing does not succeed. |
| MergedHostGroupVarsLemmas.SameFiles | vars_plugins/merged_host_group_vars.py:66-79 | Under injective keys, an entity finds the same files in a second cached call (whose `FOUND` is the one the first call ended with) as in the first, and the second call does not change `FOUND` for it. |
| MergedHostGroupVarsLemmas.StepAlike | vars_plugins/merged_host_group_vars.py:49-104 | Two states with the same aggregations and publications that find the same files for an entity stay in agreement after it. |
| MergedHostGroupVarsLemmas.StepSameData | vars_plugins/merged_host_group_vars.py:49-104 | Under injective keys, one entity changes the aggregations and publications alike in the first and in the second cached call, and leaves the second call's `FOUND` unchanged. |
| MergedHostGroupVarsLemmas.SameDataLockstep | vars_plugins/merged_host_group_vars.py:49-104 | Under injective keys, the first and second cached calls, run side by side over the same entities, end with the same aggregations and publications. |
| MergedHostGroupVarsLemmas.CachedCallTwiceSameData | vars_plugins/merged_host_group_vars.py:33-105 | When no two looked-up entities share a cache key unless they share name and directory, repeating a cached call for the same entities, with the filesystem unchanged, returns the same result dict as the first call. |
| MergedHostGroupVarsLemmas.CacheKeyCollides | vars_plugins/merged_host_group_vars.py:70 | The cache key is the string `name + "." + opath`, not a pair, so two different (name, directory) pairs can share one key. |
| MergeVars.PyList.constructor | lookup_plugins/merge_vars.py:31 | A new list holds exactly the given items. |
| MergeVars.PyList.Append | lookup_plugins/merge_vars.py:35 | `append` adds one element at the end of the same list object. |
| MergeVars.PyList.Extend | lookup_plugins/merge_vars.py:46 | `extend` adds the elements at the end of the same list object. |
| MergeVars.ExistingPart | lookup_plugins/merge_vars.py:32-35 | Definition of what the `include_existing` step appends; its properties are `ExistingAtMostOne`. |
| MergeVars.Iterate | lookup_plugins/merge_vars.py:46 | `list.extend` succeeds on a list, adding its elements, and on a string, adding as many elements as it has characters; anything else raises. |
| MergeVars.KindPart | lookup_plugins/merge_vars.py:43-46 | A kind's part can fail only with a Python exception, and only when its flag is on and `_merged_<kind>` is set: an absent aggregation reads as an empty dict. |
| MergeVars.ExtendKinds | lookup_plugins/merge_vars.py:42-46 | The loop over the kinds finishes without exception iff every kind's part succeeds. |
| MergeVars.Merge | lookup_plugins/merge_vars.py:23-47 | The lookup succeeds iff its first term is a string, `initial` is absent or a list, and both kinds' parts succeed. |
| MergeVars.Run | lookup_plugins/merge_vars.py:23-47 | The lookup fails exactly when `Merge` says, with `Merge`'s error. A caller's `initial` list ends up holding `Merge`'s items and is the very object returned. Without `initial`, a fresh list holding `Merge`'s items is returned. |
| MergeVars.ExtendFromAggregations | lookup_plugins/merge_vars.py:42-46 | The loop over `host_vars` and `group_vars` extends the list in place to `ExtendKinds`' items and reports its error. |
| MergeVarsLemmas.ExtendKindsAppends | lookup_plugins/merge_vars.py:42-46 | The loop over `host_vars` and `group_vars` only appends to the list, and can fail only with a Python exception, never an `AnsibleError`. |
| MergeVarsLemmas.ArgumentCheck | lookup_plugins/merge_vars.py:24-29 | The call fails with "merge_var expects one string argument" iff `terms` is empty or `terms[0]` is not a string. It then fails the same way whatever `variables` and `kwargs` hold, and leaves the list untouched. |
| MergeVarsLemmas.ExtraTermsIgnored | lookup_plugins/merge_vars.py:25 | Terms after the first have no effect. |
| MergeVarsLemmas.OrderingLaw | lookup_plugins/merge_vars.py:31-47 | The result is `initial`, then the existing value, then the host list, then the group list. Its length is the sum of their lengths: nothing is deduplicated or reordered. |
| MergeVarsLemmas.FailureKeepsEarlierParts | lookup_plugins/merge_vars.py:31-46 | When a kind's part raises, the caller's list keeps exactly what came before it: `initial` and the existing value if the host part raises, plus the host list if only the group part raises; the error is that part's exception. |
| MergeVarsLemmas.PlainLookup | lookup_plugins/merge_vars.py:31-47 | A lookup with no `initial` and no options returns the host list followed by the group list. |
| MergeVarsLemmas.ExistingAtMostOne | lookup_plugins/merge_vars.py:32-35 | The existing value adds at most one element. It adds exactly one iff `include_existing` is truthy and the variable is set to something other than None, and that element is the variable's value itself, appended whole. |
| MergeVarsLemmas.KindPartDefaults | lookup_plugins/merge_vars.py:42-46 | `host_vars` and `group_vars` default to true. A kind switched off, an absent `_merged_<kind>`, or a term absent from it contributes nothing; a list stored there is contributed element by element. |
| MergeVarsLemmas.NonListInitialFails | lookup_plugins/merge_vars.py:31-38 | A non-list `initial` always fails. The error is "merge_var initial value must be a list" iff the `include_existing` step had nothing to append; otherwise that earlier `append` has already raised. |
| MergeVarsLemmas.OrderingExample | lookup_plugins/merge_vars.py:31-47 | `initial: [a]`, an existing value `b`, host list `[h1, h2]` and group list `[g1]` give `[a, b, h1, h2, g1]`. |
| MergeVarsLemmas.EmptyExample | lookup_plugins/merge_vars.py:31-47 | With no aggregated data, no existing value and no options, the result is the empty list. |
| Pipeline.KindPartOfExposed | lookup_plugins/merge_vars.py:44-46 | Reading a kind from the collector's result gives the values stored for the term under `_merged_<kind>`, or nothing when the kind or the term is absent. |
| Pipeline.KindPartOfPublished | vars_plugins/merged_host_group_vars.py:98-104 | A lookup reading the collector's result sees, for each kind, exactly that kind's final aggregation when it was published and nothing otherwise. |
| Pipeline.CollectedThenLookedUp | lookup_plugins/merge_vars.py:42-47 | A plain lookup over the collector's result returns every collected host value for the term, then every collected group value, in collection order. A kind that was never published contributes nothing. |

## Left out

- The Ansible plugin plumbing is not modelled: `BaseVarsPlugin`/`LookupBase`, the `super().get_vars` call that sets the base directory (passed here as `basedir`), and the `_display.debug` logging.
- Path semantics are not modelled. `to_bytes`/`to_text`, `os.path.join`/`realpath`, `os.path.exists` and `os.path.isdir` are the oracles `resolve`, `pathExists` and `isDir`; they are deterministic, and only `resolve` may raise.
- `os.path.sep` is fixed to `/`, the POSIX separator.
- `find_vars_files` and `load_from_file` are oracles: YAML parsing, vault handling and the loader's own cache are outside the model. A loaded file is a mapping from string names, or another object of which only its truthiness matters.
- Python exception types are not distinguished. In the collector every exception is `Raised` and swallowed. In the merger an `AttributeError` or `TypeError` is `TypeFault`; this includes the non-list `initial` with `include_existing` case, whose real error is an `AttributeError`.
- `FOUND` is a field of one single-threaded object; thread safety and its lifetime across processes are not modelled.
- Collected values are an opaque type parameter and are never inspected. In the merger such a value is `Opaque` and counts as truthy; objects with their own `__bool__` or `__len__` are not modelled.
- MergeVars.Iterate: `list.extend` on a dict, tuple, set or other iterable stored under a term is modelled as `TypeFault` instead of adding its keys or elements, because dict key order is not part of the model.
- MergeVars.KindPart: a `_merged_<kind>` variable that is not a dict but has its own `.get` is modelled as `TypeFault`.
- An `initial` object that is not a list but has an `append` method is not modelled. Such a value always fails the list check; the model only distinguishes a missing `append` when there is something to append.
- MergedHostGroupVars.VarsModule.GetVars: the result dict is built from the final aggregations of the published kinds rather than shared by reference. Aliasing is therefore not modelled, although the contents equal what the shared dict holds when the call returns.
- MergedHostGroupVarsLemmas.CachedCallTwiceSameData: the same result dict on a second cached call is proved only when cache keys are injective over the call's entities. The key is a string, not a pair (`CacheKeyCollides`). With a collision, an entity with no directory can come before a colliding entity whose directory is scanned and cached; on the second call the first entity then finds those files. `FOUND` itself is the same after a second cached call whatever the keys (`CachedCallTwiceSameCache`).
