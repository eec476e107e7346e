/** The SQL text cache of RaveRepository as values: what one lookup
    (readSqlFromFile) and one preload (preloadSqlQueries) do to the map from
    path to text, given the resource store. The class in Repository runs
    these steps on its sqlCache field. */
module SqlCache {
  import opened Errors

  /** What the class loader's resource lookup and readAllBytes produce for a
      path: the decoded text, no such resource, or an I/O fault. */
  datatype Fetch = Found(text: string) | Missing | ReadFault

  /** The packaged resources, as a function of the path. */
  type ResourceStore = string -> Fetch

  /** Reading a path straight from the store, with no cache: the function
      computeIfAbsent runs on a miss. */
  function DirectRead(store: ResourceStore, path: string): (r: Result<string>)
    ensures r.Ok? <==> store(path).Found?
    ensures r.Ok? ==> r.value == store(path).text
    ensures r.Err? ==> r.error == (if store(path).Missing? then SqlFileNotFound(path) else SqlFileReadError(path))
  {
    match store(path)
    case Found(t) => Ok(t)
    case Missing => Err(SqlFileNotFound(path))
    case ReadFault => Err(SqlFileReadError(path))
  }

  /** The outcome of one lookup: the text or failure, the cache afterwards,
      and whether the store was consulted. */
  datatype LoadStep = LoadStep(result: Result<string>, cache: map<string, string>, fetched: bool)

  /** sqlCache.computeIfAbsent(path, read): a cached path is answered from
      the map; otherwise the store is read, and only a successful read is
      stored (a throwing mapping function leaves the key absent). */
  function Load(cache: map<string, string>, store: ResourceStore, path: string): (r: LoadStep)
    ensures r.fetched <==> path !in cache
    ensures r.result.Ok? ==> path in r.cache && r.cache[path] == r.result.value
    ensures r.cache == cache || (path !in cache && r.result.Ok? && r.cache == cache[path := r.result.value])
  {
    if path in cache then LoadStep(Ok(cache[path]), cache, false)
    else
      match DirectRead(store, path)
      case Ok(t) => LoadStep(Ok(t), cache[path := t], true)
      case Err(e) => LoadStep(Err(e), cache, true)
  }

  /** Every cached text is the text the store holds for its path. */
  ghost predicate Coherent(cache: map<string, string>, store: ResourceStore) {
    forall p :: p in cache ==> store(p) == Found(cache[p])
  }

  /** A cache hit returns the cached text, leaves the cache as it is and does
      not consult the store. */
  lemma LoadHit(cache: map<string, string>, store: ResourceStore, path: string)
    requires path in cache
    ensures Load(cache, store, path) == LoadStep(Ok(cache[path]), cache, false)
  {
  }

  /** A miss consults the store. A successful read stores the text under
      exactly that path; a missing resource or a read fault fails with its
      own error and stores nothing. */
  lemma LoadMiss(cache: map<string, string>, store: ResourceStore, path: string)
    requires path !in cache
    ensures Load(cache, store, path).fetched
    ensures store(path).Found? ==>
              Load(cache, store, path) == LoadStep(Ok(store(path).text), cache[path := store(path).text], true)
    ensures store(path).Missing? ==>
              Load(cache, store, path) == LoadStep(Err(SqlFileNotFound(path)), cache, true)
    ensures store(path).ReadFault? ==>
              Load(cache, store, path) == LoadStep(Err(SqlFileReadError(path)), cache, true)
  {
  }

  /** No lookup touches any path but its own. */
  lemma LoadTouchesOnlyItsPath(cache: map<string, string>, store: ResourceStore, path: string, q: string)
    requires q != path
    ensures q in Load(cache, store, path).cache <==> q in cache
    ensures q in cache ==> Load(cache, store, path).cache[q] == cache[q]
  {
  }

  /** Memoisation is transparent: over a coherent cache a lookup answers
      exactly what reading the store directly would, and keeps the cache
      coherent. */
  lemma LoadTransparent(cache: map<string, string>, store: ResourceStore, path: string)
    requires Coherent(cache, store)
    ensures Load(cache, store, path).result == DirectRead(store, path)
    ensures Coherent(Load(cache, store, path).cache, store)
  {
    var after := Load(cache, store, path).cache;
    forall p | p in after
      ensures store(p) == Found(after[p])
    {
    }
  }

  /** Loading the same path twice: after a success the second lookup is a
      hit with the same text and the store is not read again. */
  lemma LoadTwice(cache: map<string, string>, store: ResourceStore, path: string)
    requires Load(cache, store, path).result.Ok?
    ensures var first := Load(cache, store, path);
            Load(first.cache, store, path) == LoadStep(first.result, first.cache, false)
  {
  }

  /** After the cache is cleared every lookup reads the store again. */
  lemma LoadAfterClear(store: ResourceStore, path: string)
    ensures Load(map[], store, path).fetched
    ensures Load(map[], store, path).result == DirectRead(store, path)
  {
  }

  /** The outcome of a preload: the failure that stopped it, if any, the
      cache afterwards, and the paths read from the store, in order. */
  datatype PreloadStep = PreloadStep(failure: Option<Error>, cache: map<string, string>, fetched: seq<string>)

  /** preloadSqlQueries: the paths are looked up in list order; the first
      failure stops the walk and is wrapped with its path. The store is read
      at most once per path, and only for listed paths that were not cached. */
  function Preload(cache: map<string, string>, store: ResourceStore, paths: seq<string>): (r: PreloadStep)
    ensures |r.fetched| <= |paths|
    ensures forall i, j :: 0 <= i < j < |r.fetched| ==> r.fetched[i] != r.fetched[j]
    ensures forall q :: q in r.fetched ==> q in paths && q !in cache
    ensures r.failure.Some? ==> r.failure.value.PreloadFailed? && r.fetched != []
    decreases |paths|
  {
    if paths == [] then PreloadStep(None, cache, [])
    else
      var step := Load(cache, store, paths[0]);
      var here := if step.fetched then [paths[0]] else [];
      match step.result
      case Err(e) => PreloadStep(Some(PreloadFailed(paths[0], e)), step.cache, here)
      case Ok(_) =>
        var rest := Preload(step.cache, store, paths[1..]);
        PreloadStep(rest.failure, rest.cache, here + rest.fetched)
  }

  /** A preload walk that has already read `done` and reached index i: the
      outcome of the whole walk is that of the rest of the list. */
  ghost predicate PreloadRemaining(whole: PreloadStep, done: seq<string>, cache: map<string, string>,
                                   store: ResourceStore, paths: seq<string>, i: nat)
    requires i <= |paths|
  {
    var rest := Preload(cache, store, paths[i..]);
    whole == PreloadStep(rest.failure, rest.cache, done + rest.fetched)
  }

  /** One step of a preload walk: the lookup of paths[i] either stops the
      walk with its wrapped failure, or the walk goes on at i + 1. */
  lemma PreloadAdvance(whole: PreloadStep, done: seq<string>, cache: map<string, string>,
                       store: ResourceStore, paths: seq<string>, i: nat)
    requires i < |paths|
    requires PreloadRemaining(whole, done, cache, store, paths, i)
    ensures var step := Load(cache, store, paths[i]);
            var here := if step.fetched then [paths[i]] else [];
            if step.result.Err? then
              whole == PreloadStep(Some(PreloadFailed(paths[i], step.result.error)), step.cache, done + here) &&
              here == [paths[i]] && whole.fetched[..|whole.fetched| - 1] == done
            else
              PreloadRemaining(whole, done + here, step.cache, store, paths, i + 1)
  {
    var step := Load(cache, store, paths[i]);
    var here := if step.fetched then [paths[i]] else [];
    assert paths[i..][0] == paths[i] && paths[i..][1..] == paths[i + 1..];
    if step.result.Err? {
      assert (done + here)[..|done + here| - 1] == done;
    } else {
      var rest := Preload(step.cache, store, paths[i + 1..]);
      assert Preload(cache, store, paths[i..]) == PreloadStep(rest.failure, rest.cache, here + rest.fetched);
      assert done + (here + rest.fetched) == (done + here) + rest.fetched;
    }
  }

  /** A path a lookup would answer: already cached, or present in the store. */
  ghost predicate Loadable(cache: map<string, string>, store: ResourceStore, path: string) {
    path in cache || store(path).Found?
  }

  /** paths[i] is the first path of the list that cannot be loaded. */
  ghost predicate FirstUnloadable(cache: map<string, string>, store: ResourceStore, paths: seq<string>, i: int) {
    0 <= i < |paths| && !Loadable(cache, store, paths[i]) &&
    forall j :: 0 <= j < i ==> Loadable(cache, store, paths[j])
  }

  /** A lookup does not change which paths are loadable. */
  lemma LoadKeepsLoadable(cache: map<string, string>, store: ResourceStore, path: string)
    ensures forall q :: Loadable(Load(cache, store, path).cache, store, q) <==> Loadable(cache, store, q)
  {
  }

  /** A preload only adds entries, only for paths of the list, and never
      changes an entry that was there. */
  lemma {:induction false} PreloadCacheGrows(cache: map<string, string>, store: ResourceStore, paths: seq<string>)
    ensures forall p :: p in cache ==> p in Preload(cache, store, paths).cache &&
                                       Preload(cache, store, paths).cache[p] == cache[p]
    ensures forall p :: p in Preload(cache, store, paths).cache ==> p in cache || p in paths
    decreases |paths|
  {
    if paths != [] {
      var step := Load(cache, store, paths[0]);
      PreloadCacheGrows(step.cache, store, paths[1..]);
    }
  }

  /** Preloading keeps the cache coherent with the store. */
  lemma {:induction false} PreloadCoherent(cache: map<string, string>, store: ResourceStore, paths: seq<string>)
    requires Coherent(cache, store)
    ensures Coherent(Preload(cache, store, paths).cache, store)
    decreases |paths|
  {
    if paths != [] {
      LoadTransparent(cache, store, paths[0]);
      PreloadCoherent(Load(cache, store, paths[0]).cache, store, paths[1..]);
    }
  }

  /** Preloading succeeds exactly when every path is loadable, and then
      every path is cached; a failure means some path cannot be loaded. */
  lemma {:induction false} PreloadFailsFast(cache: map<string, string>, store: ResourceStore, paths: seq<string>)
    ensures var r := Preload(cache, store, paths);
            (r.failure.None? <==> forall i :: 0 <= i < |paths| ==> Loadable(cache, store, paths[i])) &&
            (r.failure.None? ==> forall i :: 0 <= i < |paths| ==> paths[i] in r.cache) &&
            (r.failure.Some? ==> exists i :: FirstUnloadable(cache, store, paths, i))
    decreases |paths|
  {
    if paths != [] {
      var r := Preload(cache, store, paths);
      var p := paths[0];
      var step := Load(cache, store, p);
      var tail := paths[1..];
      LoadKeepsLoadable(cache, store, p);
      if Loadable(cache, store, p) {
        assert forall i :: 1 <= i < |paths| ==> paths[i] == tail[i - 1];
        PreloadFailsFast(step.cache, store, tail);
        PreloadCacheGrows(step.cache, store, tail);
        assert r == PreloadStep(r.failure, Preload(step.cache, store, tail).cache, r.fetched);
        if r.failure.Some? {
          var i :| FirstUnloadable(step.cache, store, tail, i);
          assert FirstUnloadable(cache, store, paths, i + 1);
        }
      } else {
        assert FirstUnloadable(cache, store, paths, 0);
      }
    }
  }

  /** Preloading is ordered and stops at the first path that cannot be
      loaded: it reports that path, wrapping the path's own load failure, and
      every path before it stays cached. */
  lemma {:induction false} PreloadFirstFailure(cache: map<string, string>, store: ResourceStore, paths: seq<string>, i: nat)
    requires FirstUnloadable(cache, store, paths, i)
    ensures var r := Preload(cache, store, paths);
            r.failure == Some(PreloadFailed(paths[i], DirectRead(store, paths[i]).error)) &&
            forall j :: 0 <= j < i ==> paths[j] in r.cache
    decreases i
  {
    var p := paths[0];
    var step := Load(cache, store, p);
    if i > 0 {
      var tail := paths[1..];
      assert Loadable(cache, store, p);
      LoadKeepsLoadable(cache, store, p);
      assert forall j :: 1 <= j < |paths| ==> paths[j] == tail[j - 1];
      assert FirstUnloadable(step.cache, store, tail, i - 1);
      PreloadFirstFailure(step.cache, store, tail, i - 1);
      PreloadCacheGrows(step.cache, store, tail);
    }
  }

  /** A preload goes no further than the first path that cannot be loaded:
      nothing after it is read from the store or added to the cache. */
  lemma {:induction false} PreloadStopsAtFirstFailure(cache: map<string, string>, store: ResourceStore, paths: seq<string>, i: nat)
    requires FirstUnloadable(cache, store, paths, i)
    ensures forall p :: p in Preload(cache, store, paths).cache ==> p in cache || p in paths[..i]
    ensures forall q :: q in Preload(cache, store, paths).fetched ==> q in paths[..i + 1]
    decreases i
  {
    var p := paths[0];
    var step := Load(cache, store, p);
    var here := if step.fetched then [p] else [];
    if i == 0 {
      assert Preload(cache, store, paths) == PreloadStep(Some(PreloadFailed(p, step.result.error)), cache, [p]);
      assert paths[..1] == [p];
    } else {
      var tail := paths[1..];
      assert Loadable(cache, store, p);
      LoadKeepsLoadable(cache, store, p);
      assert forall j :: 1 <= j < |paths| ==> paths[j] == tail[j - 1];
      assert FirstUnloadable(step.cache, store, tail, i - 1);
      PreloadStopsAtFirstFailure(step.cache, store, tail, i - 1);
      var rest := Preload(step.cache, store, tail);
      assert Preload(cache, store, paths) == PreloadStep(rest.failure, rest.cache, here + rest.fetched);
      assert paths[..i] == [p] + tail[..i - 1];
      assert paths[..i + 1] == [p] + tail[..i];
    }
  }
}
