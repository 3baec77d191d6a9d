/** Properties of the collector's `get_vars` loop, stated over the
    specification `Collect` that `VarsModule.GetVars` is proved to follow. */
module MergedHostGroupVarsLemmas {
  import opened MergedHostGroupVars

  /** One entity's effect on its kind's aggregation: the list of every key
      grows by exactly the values of its files up to the first one that
      raises, in file order, and a key is present afterwards exactly when it
      was before or one of those files defines it. */
  lemma StepAggregation<F, V>(env: Env<F, V>, basedir: string, useCache: bool, st: CollectState<F, V>,
                              e: Entity, opath: string, fs: seq<F>)
    requires Participates(e)
    requires env.resolve(basedir, Subdir(KindOf(e))) == Done(opath)
    requires Discover(env, useCache, st.found, e.name, opath).files == Done(fs)
    ensures var st' := Step(env, basedir, useCache, st, e);
      var kind := KindOf(e);
      var p := FirstFailure(env.load, fs);
      && (forall k :: Values(AggOf(st', kind), k) == Values(AggOf(st, kind), k) + Contributions(env.load, fs[..p], k))
      && AggOf(st, kind).Keys <= AggOf(st', kind).Keys
      && (forall k :: k in AggOf(st', kind) <==> k in AggOf(st, kind) || Contributions(env.load, fs[..p], k) != [])
  {
    StepLoads(env, basedir, useCache, st, e, opath, fs);
    LoadFilesAppends(env.load, fs, AggOf(st, KindOf(e)));
  }

  /** One entity's effect on publication: the other kind is untouched; the
      entity's kind is published iff it was already, or the entity finished
      without exception while its kind's aggregation was non-empty. */
  lemma StepPublication<F, V>(env: Env<F, V>, basedir: string, useCache: bool, st: CollectState<F, V>,
                              e: Entity, opath: string, fs: seq<F>)
    requires Participates(e)
    requires env.resolve(basedir, Subdir(KindOf(e))) == Done(opath)
    requires Discover(env, useCache, st.found, e.name, opath).files == Done(fs)
    ensures var st' := Step(env, basedir, useCache, st, e);
      var kind := KindOf(e);
      && (forall other :: other != kind ==> AggOf(st', other) == AggOf(st, other))
      && (kind in st'.published <==> kind in st.published || (FirstFailure(env.load, fs) == |fs| && |AggOf(st', kind)| != 0))
      && (forall other :: other != kind ==> (other in st'.published <==> other in st.published))
  {
    StepLoads(env, basedir, useCache, st, e, opath, fs);
    LoadFilesSucceeds(env.load, fs, AggOf(st, KindOf(e)));
  }

  /** An entity whose files are known stores the result of loading them into
      its kind's aggregation, and publishes the kind when loading finished
      and left the aggregation non-empty. */
  lemma StepLoads<F, V>(env: Env<F, V>, basedir: string, useCache: bool, st: CollectState<F, V>,
                        e: Entity, opath: string, fs: seq<F>)
    requires Participates(e)
    requires env.resolve(basedir, Subdir(KindOf(e))) == Done(opath)
    requires Discover(env, useCache, st.found, e.name, opath).files == Done(fs)
    ensures var st' := Step(env, basedir, useCache, st, e);
      var loaded := LoadFiles(env.load, fs, AggOf(st, KindOf(e)));
      && st'.merged == st.merged[KindOf(e) := loaded.0]
      && st'.published == if loaded.1 && |loaded.0| != 0 then st.published + {KindOf(e)} else st.published
  {
  }

  /** An entity that raises before its files are known (while resolving its
      directory or listing it) changes no aggregation and publishes nothing. */
  lemma StepRaisedEarly<F, V>(env: Env<F, V>, basedir: string, useCache: bool, st: CollectState<F, V>, e: Entity)
    requires Participates(e)
    requires env.resolve(basedir, Subdir(KindOf(e))).Raised?
          || Discover(env, useCache, st.found, e.name, env.resolve(basedir, Subdir(KindOf(e))).value).files.Raised?
    ensures var st' := Step(env, basedir, useCache, st, e);
      st'.merged == st.merged && st'.published == st.published && st'.found == st.found
  {
  }

  /** The entities the loop actually processes. */
  function Participating(es: seq<Entity>): (r: seq<Entity>)
    ensures |r| <= |es|
    ensures forall e :: e in r ==> e in es && Participates(e)
  {
    if es == [] then []
    else (if Participates(es[0]) then [es[0]] else []) + Participating(es[1..])
  }

  /** Entities that are neither hosts nor groups, and entities whose name
      starts with the path separator, contribute nothing, raise nothing and
      never touch the cache: dropping them changes nothing. */
  lemma {:induction false} CollectIgnoresSkipped<F, V>(env: Env<F, V>, basedir: string, useCache: bool,
                                                       st: CollectState<F, V>, es: seq<Entity>)
    ensures Collect(env, basedir, useCache, st, es) == Collect(env, basedir, useCache, st, Participating(es))
    decreases |es|
  {
    if es != [] {
      var st' := Step(env, basedir, useCache, st, es[0]);
      var rest := Participating(es[1..]);
      CollectIgnoresSkipped(env, basedir, useCache, st', es[1..]);
      assert Collect(env, basedir, useCache, st, es) == Collect(env, basedir, useCache, st', rest);
      if Participates(es[0]) {
        assert Participating(es) == [es[0]] + rest;
        assert ([es[0]] + rest)[0] == es[0] && ([es[0]] + rest)[1..] == rest;
      } else {
        assert st' == st && Participating(es) == rest;
      }
    }
  }

  /** The loop is a left fold: running two lists of entities one after the
      other is running their concatenation, so what one entity does (including
      raising) never stops the entities after it from being processed. */
  lemma {:induction false} CollectConcat<F, V>(env: Env<F, V>, basedir: string, useCache: bool,
                                               st: CollectState<F, V>, xs: seq<Entity>, ys: seq<Entity>)
    ensures Collect(env, basedir, useCache, st, xs + ys)
         == Collect(env, basedir, useCache, Collect(env, basedir, useCache, st, xs), ys)
    decreases |xs|
  {
    if xs != [] {
      var st' := Step(env, basedir, useCache, st, xs[0]);
      assert (xs + ys)[0] == xs[0] && (xs + ys)[1..] == xs[1..] + ys;
      assert Collect(env, basedir, useCache, st, xs + ys) == Collect(env, basedir, useCache, st', xs[1..] + ys);
      assert Collect(env, basedir, useCache, st, xs) == Collect(env, basedir, useCache, st', xs[1..]);
      CollectConcat(env, basedir, useCache, st', xs[1..], ys);
    } else {
      assert xs + ys == ys;
    }
  }

  /** No cache entry is ever removed; with the cache on, none is ever replaced. */
  lemma {:induction false} CollectKeepsCache<F, V>(env: Env<F, V>, basedir: string, useCache: bool,
                                                   st: CollectState<F, V>, es: seq<Entity>)
    ensures st.found.Keys <= Collect(env, basedir, useCache, st, es).found.Keys
    ensures useCache ==> forall key :: key in st.found ==> Collect(env, basedir, useCache, st, es).found[key] == st.found[key]
    decreases |es|
  {
    if es != [] {
      var st' := Step(env, basedir, useCache, st, es[0]);
      CollectKeepsCache(env, basedir, useCache, st', es[1..]);
      if Participates(es[0]) && env.resolve(basedir, Subdir(KindOf(es[0]))).Done? {
        DiscoverCacheRules(env, useCache, st.found, es[0].name, env.resolve(basedir, Subdir(KindOf(es[0]))).value);
      }
    }
  }

  /** Host and group values are never mixed: entities of one kind leave the
      other kind's aggregation and publication as they were. */
  lemma {:induction false} CollectKindsSeparate<F, V>(env: Env<F, V>, basedir: string, useCache: bool,
                                                      st: CollectState<F, V>, es: seq<Entity>, kind: Kind)
    requires forall e :: e in es && Participates(e) ==> KindOf(e) != kind
    ensures AggOf(Collect(env, basedir, useCache, st, es), kind) == AggOf(st, kind)
    ensures kind in Collect(env, basedir, useCache, st, es).published <==> kind in st.published
    decreases |es|
  {
    if es != [] {
      var e := es[0];
      var st' := Step(env, basedir, useCache, st, e);
      if Participates(e) {
        var r := env.resolve(basedir, Subdir(KindOf(e)));
        if r.Done? {
          var d := Discover(env, useCache, st.found, e.name, r.value);
          if d.files.Done? {
            StepPublication(env, basedir, useCache, st, e, r.value, d.files.value);
          }
        }
      }
      assert AggOf(st', kind) == AggOf(st, kind) && (kind in st'.published <==> kind in st.published);
      CollectKindsSeparate(env, basedir, useCache, st', es[1..], kind);
    }
  }

  /** Values are only ever appended: every list of the aggregation at the
      start is a prefix of the same list at the end, and no key disappears. */
  lemma {:induction false} CollectOnlyAppends<F, V>(env: Env<F, V>, basedir: string, useCache: bool,
                                                    st: CollectState<F, V>, es: seq<Entity>, kind: Kind, k: string)
    ensures var a := AggOf(st, kind); var a' := AggOf(Collect(env, basedir, useCache, st, es), kind);
      && a.Keys <= a'.Keys
      && Values(a, k) <= Values(a', k)
    decreases |es|
  {
    if es != [] {
      var st' := Step(env, basedir, useCache, st, es[0]);
      StepOnlyAppends(env, basedir, useCache, st, es[0], kind, k);
      CollectOnlyAppends(env, basedir, useCache, st', es[1..], kind, k);
    }
  }

  lemma StepOnlyAppends<F, V>(env: Env<F, V>, basedir: string, useCache: bool,
                              st: CollectState<F, V>, e: Entity, kind: Kind, k: string)
    ensures var a := AggOf(st, kind); var a' := AggOf(Step(env, basedir, useCache, st, e), kind);
      && a.Keys <= a'.Keys
      && Values(a, k) <= Values(a', k)
  {
    if Participates(e) {
      var r := env.resolve(basedir, Subdir(KindOf(e)));
      if r.Done? {
        var d := Discover(env, useCache, st.found, e.name, r.value);
        if d.files.Done? {
          StepAggregation(env, basedir, useCache, st, e, r.value, d.files.value);
        }
      }
    }
  }

  /** Every published kind has a non-empty aggregation. */
  ghost predicate PublishedNonEmpty<F, V>(st: CollectState<F, V>) {
    forall kind :: kind in st.published ==> |AggOf(st, kind)| != 0
  }

  /** ... and the loop keeps it that way. */
  lemma {:induction false} CollectKeepsPublishedNonEmpty<F, V>(env: Env<F, V>, basedir: string, useCache: bool,
                                                              st: CollectState<F, V>, es: seq<Entity>)
    requires PublishedNonEmpty(st)
    ensures PublishedNonEmpty(Collect(env, basedir, useCache, st, es))
    decreases |es|
  {
    if es != [] {
      var st' := Step(env, basedir, useCache, st, es[0]);
      forall kind | kind in st'.published ensures |AggOf(st', kind)| != 0 {
        CollectOnlyAppends(env, basedir, useCache, st, [es[0]], kind, "");
        assert Collect(env, basedir, useCache, st, [es[0]]) == st';
        if kind in st.published {
          assert AggOf(st, kind).Keys <= AggOf(st', kind).Keys;
        } else {
          var e := es[0];
          var r := env.resolve(basedir, Subdir(KindOf(e)));
          var d := Discover(env, useCache, st.found, e.name, r.value);
          StepPublication(env, basedir, useCache, st, e, r.value, d.files.value);
        }
      }
      CollectKeepsPublishedNonEmpty(env, basedir, useCache, st', es[1..]);
    }
  }

  /** The cache already answers for this entity: it is skipped, its directory
      cannot be resolved, its key is cached, or scanning it would not write
      the cache. */
  ghost predicate Settled<F, V>(env: Env<F, V>, basedir: string, found: map<string, seq<F>>, e: Entity) {
    Participates(e) && env.resolve(basedir, Subdir(KindOf(e))).Done? ==>
      var opath := env.resolve(basedir, Subdir(KindOf(e))).value;
      CacheKey(e.name, opath) in found
      || !(env.pathExists(opath) && env.isDir(opath) && env.findVarsFiles(opath, e.name).Done?)
  }

  /** After a cached run, the cache answers for every entity of that run. */
  lemma {:induction false} CollectSettles<F, V>(env: Env<F, V>, basedir: string, st: CollectState<F, V>, es: seq<Entity>)
    ensures forall e :: e in es ==> Settled(env, basedir, Collect(env, basedir, true, st, es).found, e)
    decreases |es|
  {
    if es != [] {
      var e := es[0];
      var st' := Step(env, basedir, true, st, e);
      var final := Collect(env, basedir, true, st, es);
      assert final == Collect(env, basedir, true, st', es[1..]);
      CollectSettles(env, basedir, st', es[1..]);
      CollectKeepsCache(env, basedir, true, st', es[1..]);
      if Participates(e) && env.resolve(basedir, Subdir(KindOf(e))).Done? {
        var opath := env.resolve(basedir, Subdir(KindOf(e))).value;
        DiscoverCacheRules(env, true, st.found, e.name, opath);
        assert Settled(env, basedir, st'.found, e);
      }
      assert Settled(env, basedir, final.found, e);
    }
  }

  /** A cached run over entities the cache already answers for leaves the
      cache as it is. */
  lemma {:induction false} SettledCollectKeepsCache<F, V>(env: Env<F, V>, basedir: string, st: CollectState<F, V>, es: seq<Entity>)
    requires forall e :: e in es ==> Settled(env, basedir, st.found, e)
    ensures Collect(env, basedir, true, st, es).found == st.found
    decreases |es|
  {
    if es != [] {
      var e := es[0];
      var st' := Step(env, basedir, true, st, e);
      assert e in es && Settled(env, basedir, st.found, e);
      if Participates(e) && env.resolve(basedir, Subdir(KindOf(e))).Done? {
        DiscoverCacheRules(env, true, st.found, e.name, env.resolve(basedir, Subdir(KindOf(e))).value);
      }
      assert st'.found == st.found;
      SettledCollectKeepsCache(env, basedir, st', es[1..]);
    }
  }

  /** With the cache on, calling `get_vars` a second time for the same
      entities (the filesystem unchanged) leaves the discovery cache exactly
      as the first call left it. */
  lemma CachedCallTwiceSameCache<F, V>(env: Env<F, V>, basedir: string, found: map<string, seq<F>>, es: seq<Entity>)
    ensures var f1 := Collect(env, basedir, true, Initial<F, V>(found), es).found;
      Collect(env, basedir, true, Initial<F, V>(f1), es).found == f1
  {
    var f1 := Collect(env, basedir, true, Initial<F, V>(found), es).found;
    CollectSettles(env, basedir, Initial<F, V>(found), es);
    SettledCollectKeepsCache(env, basedir, Initial<F, V>(f1), es);
  }

  /** The directory an entity's files are looked up in; `Raised` when the
      entity is skipped or resolving its directory raises. */
  function LookupDir<F, V>(env: Env<F, V>, basedir: string, e: Entity): (r: Attempt<string>)
    ensures r.Done? ==> Participates(e) && r == env.resolve(basedir, Subdir(KindOf(e)))
  {
    if Participates(e) then env.resolve(basedir, Subdir(KindOf(e))) else Raised
  }

  /** Entities that are looked up share a cache key only when they share both
      the name and the directory. */
  ghost predicate KeysInjective<F, V>(env: Env<F, V>, basedir: string, es: seq<Entity>) {
    forall e1, e2 | e1 in es && e2 in es && LookupDir(env, basedir, e1).Done? && LookupDir(env, basedir, e2).Done?
        && CacheKey(e1.name, LookupDir(env, basedir, e1).value) == CacheKey(e2.name, LookupDir(env, basedir, e2).value)
      :: e1.name == e2.name && LookupDir(env, basedir, e1).value == LookupDir(env, basedir, e2).value
  }

  /** A key that is not cached stays uncached when every entity that would use
      it lists the same directory for the same name, and that listing does
      not succeed. */
  lemma {:induction false} KeyStaysOut<F, V>(env: Env<F, V>, basedir: string, st: CollectState<F, V>, es: seq<Entity>,
                                             name: string, opath: string)
    requires CacheKey(name, opath) !in st.found
    requires !(env.pathExists(opath) && env.isDir(opath) && env.findVarsFiles(opath, name).Done?)
    requires forall e | e in es && LookupDir(env, basedir, e).Done? && CacheKey(e.name, LookupDir(env, basedir, e).value) == CacheKey(name, opath)
      :: e.name == name && LookupDir(env, basedir, e).value == opath
    ensures CacheKey(name, opath) !in Collect(env, basedir, true, st, es).found
    decreases |es|
  {
    if es != [] {
      var e := es[0];
      var st' := Step(env, basedir, true, st, e);
      if LookupDir(env, basedir, e).Done? {
        assert e in es;
        DiscoverCacheRules(env, true, st.found, e.name, LookupDir(env, basedir, e).value);
      }
      assert CacheKey(name, opath) !in st'.found;
      KeyStaysOut(env, basedir, st', es[1..], name, opath);
    }
  }

  /** One entity as the first cached call sees it (state `s1`) and as the
      second sees it (state `s2`, holding the cache the first call ends
      with): both find the same files, so both change the aggregations alike,
      and the second leaves its cache as it is. */
  lemma StepSameData<F, V>(env: Env<F, V>, basedir: string, s1: CollectState<F, V>, s2: CollectState<F, V>,
                           e: Entity, rest: seq<Entity>)
    requires KeysInjective(env, basedir, [e] + rest)
    requires s1.merged == s2.merged && s1.published == s2.published
    requires s2.found == Collect(env, basedir, true, Step(env, basedir, true, s1, e), rest).found
    ensures Step(env, basedir, true, s2, e).merged == Step(env, basedir, true, s1, e).merged
    ensures Step(env, basedir, true, s2, e).published == Step(env, basedir, true, s1, e).published
    ensures Step(env, basedir, true, s2, e).found == s2.found
  {
    if LookupDir(env, basedir, e).Done? {
      SameFiles(env, basedir, s1, s2.found, e, rest);
      StepAlike(env, basedir, s1, s2, e);
    }
  }

  /** The aggregation half of `StepSameData`: states that agree on the
      aggregations and find the same files for an entity stay in agreement. */
  lemma StepAlike<F, V>(env: Env<F, V>, basedir: string, s1: CollectState<F, V>, s2: CollectState<F, V>, e: Entity)
    requires s1.merged == s2.merged && s1.published == s2.published
    requires LookupDir(env, basedir, e).Done?
    requires var opath := LookupDir(env, basedir, e).value;
      && Discover(env, true, s2.found, e.name, opath).files == Discover(env, true, s1.found, e.name, opath).files
      && Discover(env, true, s2.found, e.name, opath).found == s2.found
    ensures Step(env, basedir, true, s2, e).merged == Step(env, basedir, true, s1, e).merged
    ensures Step(env, basedir, true, s2, e).published == Step(env, basedir, true, s1, e).published
    ensures Step(env, basedir, true, s2, e).found == s2.found
  {
  }

  /** The discovery half of `StepSameData`. */
  lemma SameFiles<F, V>(env: Env<F, V>, basedir: string, s1: CollectState<F, V>, f1: map<string, seq<F>>,
                        e: Entity, rest: seq<Entity>)
    requires KeysInjective(env, basedir, [e] + rest)
    requires LookupDir(env, basedir, e).Done?
    requires f1 == Collect(env, basedir, true, Step(env, basedir, true, s1, e), rest).found
    ensures var opath := LookupDir(env, basedir, e).value;
      && Discover(env, true, f1, e.name, opath).files == Discover(env, true, s1.found, e.name, opath).files
      && Discover(env, true, f1, e.name, opath).found == f1
  {
    var s1' := Step(env, basedir, true, s1, e);
    var opath := LookupDir(env, basedir, e).value;
    var key := CacheKey(e.name, opath);
    CollectKeepsCache(env, basedir, true, s1', rest);
    DiscoverCacheRules(env, true, s1.found, e.name, opath);
    assert s1'.found == Discover(env, true, s1.found, e.name, opath).found;
    if key !in s1.found && !(env.pathExists(opath) && env.isDir(opath) && env.findVarsFiles(opath, e.name).Done?) {
      forall e' | e' in rest && LookupDir(env, basedir, e').Done? && CacheKey(e'.name, LookupDir(env, basedir, e').value) == key
        ensures e'.name == e.name && LookupDir(env, basedir, e').value == opath
      {
        assert e' in [e] + rest && e in [e] + rest;
      }
      KeyStaysOut(env, basedir, s1', rest, e.name, opath);
    }
  }

  /** The two cached calls run side by side over the same entities. */
  lemma {:induction false} SameDataLockstep<F, V>(env: Env<F, V>, basedir: string, s1: CollectState<F, V>, s2: CollectState<F, V>,
                                                  es: seq<Entity>)
    requires KeysInjective(env, basedir, es)
    requires s1.merged == s2.merged && s1.published == s2.published
    requires s2.found == Collect(env, basedir, true, s1, es).found
    ensures Collect(env, basedir, true, s2, es).merged == Collect(env, basedir, true, s1, es).merged
    ensures Collect(env, basedir, true, s2, es).published == Collect(env, basedir, true, s1, es).published
    decreases |es|
  {
    if es != [] {
      assert es == [es[0]] + es[1..];
      StepSameData(env, basedir, s1, s2, es[0], es[1..]);
      assert forall e :: e in es[1..] ==> e in es;
      SameDataLockstep(env, basedir, Step(env, basedir, true, s1, es[0]), Step(env, basedir, true, s2, es[0]), es[1..]);
    }
  }

  /** With the cache on, and no two looked-up entities sharing a cache key
      (`CacheKeyCollides` shows how they can), calling `get_vars` a second
      time for the same entities (the filesystem unchanged) returns the same
      data as the first call. */
  lemma CachedCallTwiceSameData<F, V>(env: Env<F, V>, basedir: string, found: map<string, seq<F>>, es: seq<Entity>)
    requires KeysInjective(env, basedir, es)
    ensures var r1 := Collect(env, basedir, true, Initial<F, V>(found), es);
      Publish(Collect(env, basedir, true, Initial<F, V>(r1.found), es)) == Publish(r1)
  {
    var r1 := Collect(env, basedir, true, Initial<F, V>(found), es);
    var r2 := Collect(env, basedir, true, Initial<F, V>(r1.found), es);
    SameDataLockstep(env, basedir, Initial<F, V>(found), Initial<F, V>(r1.found), es);
    assert forall kind :: AggOf(r2, kind) == AggOf(r1, kind);
  }

  /** The cache key is a string, so two different (name, directory) pairs can
      share one: a host `a./x` under `/y` and a host `a` under `/x./y`. */
  lemma CacheKeyCollides()
    ensures "a./x" != "a"
    ensures CacheKey("a./x", "/y/host_vars") == CacheKey("a", "/x./y/host_vars")
  {
  }
}
