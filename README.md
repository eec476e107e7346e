# RaveSQL repository core, in Dafny

RaveSQL's `RaveRepository` is a data-access façade over Spring's
`NamedParameterJdbcTemplate`. Every call goes through the same steps:

1. Find the SQL path. Implicit calls read it from the `@SqlPath`
   annotation of the calling method. Raw calls are given the path.
2. Load the SQL text through a cache (`sqlCache`). The cache fills itself
   on demand from the packaged resources.
3. Bind the parameters into one named-parameter source. The parameters
   may be null, a parameter source, a `Map`, an `Object[]` of
   alternating keys and values, or any other object, which is flattened
   as a bean.
4. Pass the SQL text and the parameters to the executor.

The repository can also preload a list of paths and clear the cache.

The model has five modules:

- `Errors` models the exceptions as data. `Error` has one constructor per
  failure. `Message` gives the exception texts.
- `ParameterBinder` models `buildSqlParameterSource`.
  - `Bind` is the binder as a value. `PairsMap` is what the stride-2 loop
    builds.
  - `BuildSqlParameterSource` is the imperative version, with the loop.
    It is proved equal to `Bind`.
  - `BatchParams` is the parameter building of the batch variants.
- `CallerResolver` models `getSqlPathFromCaller` as a first-match search
  over the call stack, innermost frame first.
  - `CallerPath` is the lookup as written.
  - `AnnotatedCallerPath` is the lookup the code evidently intends (see
    Findings). The public calls use the lookup as written.
- `SqlCache` is the cache as values.
  - `Load` models `computeIfAbsent` with the reading function.
  - `DirectRead` is an uncached read, the reference `Load` is compared to.
  - `Preload` models the walk of `preloadSqlQueries`.
- `Repository` holds the class `RaveRepository`.
  - Its field `sqlCache` is a `map<string, string>`.
  - It keeps two ghost logs: every store read, and the successful reads
    since the last clear.
  - `store` (the resources) is a constant field of function type.
    `jdbcTemplate` (the executor) is a constant field holding an
    `Executor` record of four functions, one per template operation.
  - Its methods model `readSqlFromFile`, `clearSqlCache`,
    `preloadSqlQueries`, the three private `...Internal` helpers and the
    public call families.
  - The invariant `Valid()` has two parts. Every cached text is what the
    store holds for its path. Each cached path was read successfully
    exactly once since the last clear.

Each public family has three overloads, for key/values, one object and no
parameters. Each family is one method whose `Arg` argument is what the
chosen overload passes on:

- `ArrayArg(keyValues)` for the varargs overload.
- `ObjectArg(params)` for the object overload.
- `NullArg` for the overload without parameters.

`BindDispatchOrder` shows that `NullArg` and an empty key/value array
bind the same empty source.

Where the repository's documentation and its code differ, the model
follows the code:

- Resolution searches the whole call stack, not only the nearest frame.
- Executor faults are passed through. They are not wrapped in a
  repository exception.
- The batch variants never go through the binder. A `Map` element is
  flattened as a bean.
- A key/value array gives exactly half as many entries as it has
  elements iff its keys are pairwise distinct, so repeated keys give
  fewer (`PairsSize`).

## Model

| member | source | states |
|---|---|---|
| `Errors.Message` | src/main/java/com/ravesql/RaveRepository.java:438-540 | The exception texts of :438, :472, :476, :478, :515 and :540. A message about a SQL file or a preload ends with that path. |
| `Errors.MessageTellsLoadFailures` | src/main/java/com/ravesql/RaveRepository.java:471-478 | The message of a missing resource never equals that of a read fault, whatever the paths, and neither equals a preload failure's message. |
| `ParameterBinder.PairsMap` | src/main/java/com/ravesql/RaveRepository.java:539-545 | The entries the stride-2 loop builds, or its failure. A failure is NullParameterName or KeyNotString, at an even index whose element is null, or neither null nor a String, respectively. |
| `ParameterBinder.Bind` | src/main/java/com/ravesql/RaveRepository.java:529-548 | A key/value array binds iff its length is even and every key is a String. An odd length fails with KeyValuesNotInPairs. A successful array binding gives a map source whose names are exactly the array's keys. Null, a parameter source, a Map and a bean never fail. |
| `ParameterBinder.BindDispatchOrder` | src/main/java/com/ravesql/RaveRepository.java:529-548 | Null gives an empty map source. A parameter source is returned unchanged, even when it is also a Map. A Map is copied entry for entry. Any other object is flattened as a bean. An empty array binds the same as null. |
| `ParameterBinder.BuildSqlParameterSource` | src/main/java/com/ravesql/RaveRepository.java:529-548 | The imperative binder, whose stride-2 loop fills the map, returns exactly `Bind(args)`. |
| `ParameterBinder.PairsMapStep` | src/main/java/com/ravesql/RaveRepository.java:542-544 | After a successfully bound prefix, a String key and its value add exactly that one entry. |
| `ParameterBinder.PairsOkIff` | src/main/java/com/ravesql/RaveRepository.java:542-544 | Pair binding succeeds iff every even-index element is a String. |
| `ParameterBinder.PairsFirstBadKey` | src/main/java/com/ravesql/RaveRepository.java:542-543 | Pair binding fails at the first key that is not a String. A null key gives NullParameterName and any other key KeyNotString, each with that index. |
| `ParameterBinder.PairsKeys` | src/main/java/com/ravesql/RaveRepository.java:542-544 | A name is bound iff it appears as a key at an even index. |
| `ParameterBinder.PairsLastWins` | src/main/java/com/ravesql/RaveRepository.java:542-544 | A name takes the value that follows its last occurrence as a key, so a later duplicate overwrites an earlier one. |
| `ParameterBinder.PairsSizeIfDistinct` | src/main/java/com/ravesql/RaveRepository.java:536-545 | There are at most half as many names as elements, and exactly half when the keys are pairwise distinct. |
| `ParameterBinder.PairsSizeOnlyIfDistinct` | src/main/java/com/ravesql/RaveRepository.java:536-545 | Exactly half as many names as elements implies pairwise distinct keys, so a repeated key gives strictly fewer names. |
| `ParameterBinder.PairsSize` | src/main/java/com/ravesql/RaveRepository.java:536-545 | There are at most half as many names as elements, and exactly half iff the keys are pairwise distinct. |
| `ParameterBinder.KeyIsBound` | src/main/java/com/ravesql/RaveRepository.java:542-544 | Every key of a successfully bound array is a String and a bound name. |
| `ParameterBinder.BatchParams` | src/main/java/com/ravesql/RaveRepository.java:399-401 | One source per list element, in list order: the bean source of element i sits at position i, so the lengths are equal. |
| `ParameterBinder.BatchIgnoresMapShape` | src/main/java/com/ravesql/RaveRepository.java:416-420 | A Map element of a batch is bean-flattened, while the same object passed to a single call binds its map entries. |
| `ParameterBinder.BatchParamsAppend` | src/main/java/com/ravesql/RaveRepository.java:418-420 | Building the sources of a concatenated list concatenates the sources of the parts, so order is preserved. |
| `CallerResolver.CallerPath` | src/main/java/com/ravesql/RaveRepository.java:492-516 | The lookup as written. A failure is always NoSqlPathAnnotation. A success is the annotation found on some frame by the zero-argument lookup of that frame's name. |
| `CallerResolver.CallerPathFirstMatch` | src/main/java/com/ravesql/RaveRepository.java:492-516 | As written, resolution succeeds iff the zero-argument lookup of some frame finds an annotated method. It then returns the annotation of the innermost such frame. Otherwise it fails with "No @SqlPath annotation found on calling method." |
| `CallerResolver.CallerPathSkips` | src/main/java/com/ravesql/RaveRepository.java:495-503 | Frames whose lookup finds no method, or an unannotated one, are skipped. They are not errors. |
| `CallerResolver.AnnotatedCallerPath` | src/main/java/com/ravesql/annotation/SqlPath.java:16-28 | The intended lookup. It fails only with NoSqlPathAnnotation. A success is the annotation value of some running method on the stack. |
| `CallerResolver.AnnotatedCallerPathFirstMatch` | src/main/java/com/ravesql/RaveRepository.java:483-491 | The intended lookup succeeds iff some running method on the stack is annotated. It returns the annotation of the innermost one. |
| `CallerResolver.LookupsAgreeOnZeroArgCallers` | src/main/java/com/ravesql/RaveRepository.java:498 | Both lookups give the same result when every frame either runs a zero-argument method or involves no annotation. The repository's tests are such a case. |
| `CallerResolver.ParameterisedCallerMissed` | src/main/java/com/ravesql/RaveRepository.java:498 | Take an annotated `findById(int)` that calls `queryForObject`. The as-written lookup fails with NoSqlPathAnnotation, while the intended lookup returns the method's path. |
| `CallerResolver.OverloadTakesNamesakePath` | src/main/java/com/ravesql/RaveRepository.java:498 | Take an unannotated `findAll(int)` whose zero-argument namesake is annotated "sql/a.sql", called from a method annotated "sql/b.sql". The as-written lookup returns "sql/a.sql", while the intended lookup returns "sql/b.sql". |
| `SqlCache.DirectRead` | src/main/java/com/ravesql/RaveRepository.java:470-479 | The read succeeds iff the store holds the resource, and then returns its text. A missing resource fails with SqlFileNotFound, and a read fault with SqlFileReadError, each for the path. |
| `SqlCache.Load` | src/main/java/com/ravesql/RaveRepository.java:469-480 | The store is consulted iff the path is not cached. A success leaves the path cached with the returned text. The cache is either unchanged or gains exactly the newly read entry. |
| `SqlCache.LoadHit` | src/main/java/com/ravesql/RaveRepository.java:469 | A cached path returns its cached text, leaves the cache unchanged and does not consult the store. |
| `SqlCache.LoadMiss` | src/main/java/com/ravesql/RaveRepository.java:469-480 | An uncached path consults the store. Found text is stored under exactly that path. A missing resource fails with "SQL file not found" and a read fault with "Error reading SQL file". Both failures leave the cache unchanged. |
| `SqlCache.LoadTouchesOnlyItsPath` | src/main/java/com/ravesql/RaveRepository.java:469 | A lookup neither adds, removes nor changes the entry of any other path. |
| `SqlCache.LoadTransparent` | src/main/java/com/ravesql/RaveRepository.java:467-481 | Over a cache coherent with the store, a lookup returns exactly what an uncached read returns, and the cache stays coherent. |
| `SqlCache.LoadTwice` | src/main/java/com/ravesql/RaveRepository.java:467-481 | After a successful load, loading the same path again returns the same text from the cache without reading the store. |
| `SqlCache.LoadAfterClear` | src/main/java/com/ravesql/RaveRepository.java:449-451 | On the cleared, empty cache, every lookup reads the store and returns what the store holds. |
| `SqlCache.Preload` | src/main/java/com/ravesql/RaveRepository.java:434-440 | The walk reads the store at most once per path: no path is read twice, and only listed paths that were not cached are read. A failure is a PreloadFailed wrapping, and comes after at least one store read. |
| `SqlCache.PreloadCacheGrows` | src/main/java/com/ravesql/RaveRepository.java:433-441 | A preload never removes or changes an existing entry. It adds entries only for paths of the list. |
| `SqlCache.PreloadCoherent` | src/main/java/com/ravesql/RaveRepository.java:433-441 | A preload keeps the cache coherent with the store. |
| `SqlCache.PreloadFailsFast` | src/main/java/com/ravesql/RaveRepository.java:433-441 | A preload succeeds iff every path can be loaded, and then caches them all. A failure means some path cannot be loaded. |
| `SqlCache.PreloadFirstFailure` | src/main/java/com/ravesql/RaveRepository.java:433-441 | At the first path that cannot be loaded, the error wraps that path and its own load failure. Every path before it stays cached. |
| `SqlCache.PreloadStopsAtFirstFailure` | src/main/java/com/ravesql/RaveRepository.java:433-441 | A preload goes no further than the first path that cannot be loaded. Every new cache entry is for a path before it, and only it and earlier paths are read from the store. |
| `Repository.Prepare` | src/main/java/com/ravesql/RaveRepository.java:104-105 | Resolution, then loading. A resolution failure is returned before the cache is consulted, with nothing read. A loaded text is cached under its path. A failed load leaves the cache unchanged. At most the resolved path, when uncached, is read from the store. |
| `Repository.ImplicitIsResolveThenRaw` | src/main/java/com/ravesql/RaveRepository.java:103-106 | An implicit call prepares exactly as a raw call on the path of the innermost frame whose by-name lookup finds an @SqlPath annotation. |
| `Repository.ImplicitWithoutAnnotation` | src/main/java/com/ravesql/RaveRepository.java:492-516 | When no frame's lookup finds an annotation, an implicit call fails with NoSqlPathAnnotation. The cache is unchanged and nothing is read. |
| `Repository.PipelineOrder` | src/main/java/com/ravesql/RaveRepository.java:103-106 | For the outcome the query, single-row and update calls state, the stages run resolve, load, bind. A failed resolution or load is the outcome whatever the arguments are, so a malformed key/value array is not reported and the executor is not reached, and the cache is unchanged. Otherwise the path is cached with its text even when binding fails, and the outcome is the binding failure or the executor's answer on that text. |
| `Repository.RaveRepository.constructor` | src/main/java/com/ravesql/RaveRepository.java:86-88 | The cache and both logs start empty, and the invariant holds. |
| `Repository.RaveRepository.ReadSqlFromFile` | src/main/java/com/ravesql/RaveRepository.java:467-481 | The new cache and the result are those of `Load` on the old cache. The result equals an uncached read. The store is read, and logged, only on a miss. A successful miss is logged as loaded since the clear. The invariant is kept. |
| `Repository.RaveRepository.ClearSqlCache` | src/main/java/com/ravesql/RaveRepository.java:449-451 | The cache is empty afterwards and the loaded-since-clear log is reset. No store read happens. |
| `Repository.RaveRepository.PreloadSqlQueries` | src/main/java/com/ravesql/RaveRepository.java:433-441 | The loop's failure, new cache and store reads are exactly those of `Preload` on the old cache. Every path read is logged as loaded since the clear, except the failing one. |
| `Repository.RaveRepository.QueryInternal` | src/main/java/com/ravesql/RaveRepository.java:564-568 | Returns the binding failure, or the executor's query result for the bound source. |
| `Repository.RaveRepository.QueryForObjectInternal` | src/main/java/com/ravesql/RaveRepository.java:582-586 | Returns the binding failure, or the executor's single-row result for the bound source. |
| `Repository.RaveRepository.UpdateInternal` | src/main/java/com/ravesql/RaveRepository.java:599-602 | Returns the binding failure, or the executor's update count for the bound source. |
| `Repository.RaveRepository.Query` | src/main/java/com/ravesql/RaveRepository.java:103-142 | Resolves the path as `getSqlPathFromCaller` does (`CallerPath`), then loads it through the cache, then binds and queries. The first failure is returned, and the cache and store reads are those of the two first stages. The successfully loaded path, if it was uncached, is logged as loaded since the clear. |
| `Repository.RaveRepository.RawQuery` | src/main/java/com/ravesql/RaveRepository.java:157-194 | Loads the given path through the cache, then binds and queries. A load failure stops the call. The cache, store reads and loaded log are those of `ReadSqlFromFile`. |
| `Repository.RaveRepository.QueryForObject` | src/main/java/com/ravesql/RaveRepository.java:208-245 | Resolves the path as `getSqlPathFromCaller` does (`CallerPath`), then loads, then binds and queries for one object, in that order. The first failure is returned. The successfully loaded path, if it was uncached, is logged as loaded since the clear. |
| `Repository.RaveRepository.RawQueryForObject` | src/main/java/com/ravesql/RaveRepository.java:259-295 | Loads the given path, then binds and queries for one object. The cache, store reads and loaded log are those of `ReadSqlFromFile`. |
| `Repository.RaveRepository.Update` | src/main/java/com/ravesql/RaveRepository.java:307-340 | Resolves the path as `getSqlPathFromCaller` does (`CallerPath`), then loads, then binds and updates, in that order. The first failure is returned. The successfully loaded path, if it was uncached, is logged as loaded since the clear. |
| `Repository.RaveRepository.RawUpdate` | src/main/java/com/ravesql/RaveRepository.java:352-384 | Loads the given path, then binds and updates. The cache, store reads and loaded log are those of `ReadSqlFromFile`. |
| `Repository.RaveRepository.BatchUpdate` | src/main/java/com/ravesql/RaveRepository.java:396-403 | Resolves the path as `getSqlPathFromCaller` does (`CallerPath`), then loads, then hands the executor one bean source per element, in order. The first failure is returned. The successfully loaded path, if it was uncached, is logged as loaded since the clear. |
| `Repository.RaveRepository.RawBatchUpdate` | src/main/java/com/ravesql/RaveRepository.java:416-422 | Loads the given path, then hands the executor one bean source per element, in order. The cache, store reads and loaded log are those of `ReadSqlFromFile`. |

## Left out

- Database execution. `jdbcTemplate` is modelled as four pure functions of the SQL text and the parameter source, and their results and faults are passed through. The database state, and how it changes between calls, is not modelled.
- The 0-row and many-row failures of `queryForObject` are Spring's behaviour and are not claimed.
- Row mapping. `BeanPropertyRowMapper` does reflective, case-insensitive mapping with type conversion inside Spring. A mapped row is an opaque `Entity`, and the target class is only a name passed to the executor.
- Bean flattening. `BeanPropertySqlParameterSource` enumerates properties by reflection. An object carries an explicit list of its readable properties instead.
- Stack walking and reflection. The call stack is an input, a sequence of frames. Each frame records its running method, and the method that `getDeclaredMethod(name)` would find.
- The "Unable to retrieve SQL path from caller method." failure is not modelled. Its second lookup repeats the one the filter has just made, so it cannot fail.
- Resource I/O. The class loader stream, `readAllBytes` and UTF-8 decoding are folded into the store function. The store yields the decoded text, a missing resource, or a read fault.
- Concurrency. `ConcurrentHashMap` is modelled as a sequential map, so races between lookups and clearing are not modelled.
- Java overload selection. The model takes the argument the chosen overload passes on. A call such as `update("id")`, which Java sends to the one-object overload, is not modelled as such.
- Nulls outside the binder. The model has no null SQL path, no null batch element and no null key inside a `Map` argument, and does none of the type registration Spring does for `SqlParameterValue` values.
- A null key in a key/value array fails in Spring's `addValue`, a library method, not in the repository. It is modelled as the failure NullParameterName.
- The messages of the ClassCastException and of executor faults belong to the JVM and to Spring. The texts given by `Message` for these are placeholders.
- `Repository.RaveRepository.BatchUpdate`: does not promise one update count per element, because the count array comes from the executor. Only the parameter array is proved to have one source per element, in order.
- `Repository.RaveRepository.RawBatchUpdate`: the same as `BatchUpdate`. The count array is the executor's.
- The resource store is one fixed function for the repository's lifetime. `Repository.RaveRepository.ReadSqlFromFile` (its result equals `DirectRead`), the `Coherent` part of `Valid()`, `SqlCache.LoadTransparent` and `SqlCache.PreloadCoherent` hold only under that assumption. In the program a cached text is never revalidated: a resource that changed after it was cached is still answered with the stale text until `clearSqlCache`. A transient read fault is modelled as a fault that every read of that path sees.

## Findings

| source | as written | input that shows it | evidently intended | confidence | as-written member | corrected member |
|---|---|---|---|---|---|---|
| src/main/java/com/ravesql/RaveRepository.java:498 | `getDeclaredMethod(frame.getMethodName())` finds only the zero-argument method with the frame's name. An annotated method that takes parameters is therefore never found, and an unannotated overload picks up its zero-argument namesake's path. | An `@SqlPath("sql/select_by_id.sql")` method `findById(int id)` that calls `queryForObject(...)`: the call fails with "No @SqlPath annotation found on calling method." (`CallerResolver.ParameterisedCallerMissed`). An unannotated `findAll(int)` runs its annotated namesake `findAll()`'s SQL (`CallerResolver.OverloadTakesNamesakePath`). | The annotation of the running method is read, whatever its parameters. The lookups agree whenever annotated callers take no parameters (`CallerResolver.LookupsAgreeOnZeroArgCallers`). | high; not executed | `CallerResolver.CallerPath` | `CallerResolver.AnnotatedCallerPath` |
