/** RaveRepository: the façade that resolves the SQL path, loads the SQL text
    through its cache, binds the parameters and hands both to the database
    executor. */
module Repository {
  import opened Errors
  import opened ParameterBinder
  import opened CallerResolver
  import opened SqlCache

  /** The class a caller asks rows to be mapped into. */
  type TypeName = string

  /** A result row after mapping, as the properties of the target object. */
  datatype Entity = Entity(properties: seq<Property>)

  /** The four operations of the JDBC template the repository calls. Their
      results, faults included, are passed through unchanged. */
  datatype Executor = Executor(
    query: (string, ParamSource, TypeName) -> Result<seq<Entity>>,
    queryForObject: (string, ParamSource, TypeName) -> Result<Entity>,
    update: (string, ParamSource) -> Result<int>,
    batchUpdate: (string, seq<ParamSource>) -> Result<seq<int>>)

  /** The first two stages of every call: the SQL text or the failure that
      stopped the call, the cache afterwards, and the paths read from the
      store. */
  datatype Prepared = Prepared(sql: Result<string>, cache: map<string, string>, fetched: seq<string>)

  /** Loading the SQL of a resolved path; a failed resolution stops the call
      before the cache is consulted. An implicit call passes the path resolved
      from its call stack, a raw call passes Ok(sqlPath). */
  function Prepare(cache: map<string, string>, store: ResourceStore, sqlPath: Result<string>): (r: Prepared)
    ensures sqlPath.Err? ==> r.sql == Err(sqlPath.error) && r.cache == cache && r.fetched == []
    ensures r.sql.Ok? ==> sqlPath.Ok? && sqlPath.value in r.cache && r.cache[sqlPath.value] == r.sql.value
    ensures r.sql.Err? ==> r.cache == cache
    ensures |r.fetched| <= 1 && (r.fetched != [] ==> sqlPath.Ok? && r.fetched == [sqlPath.value] && sqlPath.value !in cache)
  {
    match sqlPath
    case Err(e) => Prepared(Err(e), cache, [])
    case Ok(p) =>
      var step := Load(cache, store, p);
      Prepared(step.result, step.cache, if step.fetched then [p] else [])
  }

  /** queryInternal: bind, then query. */
  function RunQuery(exec: Executor, sql: string, target: TypeName, args: Arg): (r: Result<seq<Entity>>) {
    var src :- Bind(args);
    exec.query(sql, src, target)
  }

  /** queryForObjectInternal: bind, then query for one row. */
  function RunQueryForObject(exec: Executor, sql: string, target: TypeName, args: Arg): (r: Result<Entity>) {
    var src :- Bind(args);
    exec.queryForObject(sql, src, target)
  }

  /** updateInternal: bind, then update. */
  function RunUpdate(exec: Executor, sql: string, args: Arg): (r: Result<int>) {
    var src :- Bind(args);
    exec.update(sql, src)
  }

  /** The body of the batch variants: one bean source per element. */
  function RunBatch(exec: Executor, sql: string, objs: seq<Obj>): (r: Result<seq<int>>) {
    exec.batchUpdate(sql, BatchParams(objs))
  }

  /** An implicit call prepares exactly as a raw call on the path of the
      innermost frame whose lookup finds an @SqlPath annotation. */
  lemma ImplicitIsResolveThenRaw(cache: map<string, string>, store: ResourceStore, frames: seq<Frame>, i: nat)
    requires i < |frames| && Annotated(frames[i])
    requires forall j :: 0 <= j < i ==> !Annotated(frames[j])
    ensures Prepare(cache, store, CallerPath(frames)) == Prepare(cache, store, Ok(PathOf(frames[i])))
  {
    CallerPathFirstMatch(frames);
  }

  /** When no frame's lookup finds an annotation, an implicit call fails with
      NoSqlPathAnnotation before the cache or the store is consulted. */
  lemma ImplicitWithoutAnnotation(cache: map<string, string>, store: ResourceStore, frames: seq<Frame>)
    requires forall j :: 0 <= j < |frames| ==> !Annotated(frames[j])
    ensures Prepare(cache, store, CallerPath(frames)) == Prepared(Err(NoSqlPathAnnotation), cache, [])
  {
    CallerPathFirstMatch(frames);
  }

  /** The stages run in order resolve, load, bind, as the public calls'
      ensures state their outcome. A failed resolution or load is the outcome
      whatever the arguments are, so a malformed key/value array is not
      reported and the executor is not reached, and the cache is unchanged.
      Otherwise the text is cached, even when binding then fails, and the
      outcome is the binder's failure or the executor's answer on that text. */
  lemma PipelineOrder(exec: Executor, cache: map<string, string>, store: ResourceStore,
                      sqlPath: Result<string>, target: TypeName, args: Arg)
    ensures var pre := Prepare(cache, store, sqlPath);
            var rows := if pre.sql.Err? then Err(pre.sql.error) else RunQuery(exec, pre.sql.value, target, args);
            var row := if pre.sql.Err? then Err(pre.sql.error) else RunQueryForObject(exec, pre.sql.value, target, args);
            var count := if pre.sql.Err? then Err(pre.sql.error) else RunUpdate(exec, pre.sql.value, args);
            var early := if sqlPath.Err? then Some(sqlPath.error)
                         else if !Loadable(cache, store, sqlPath.value) then Some(DirectRead(store, sqlPath.value).error)
                         else None;
            (early.Some? ==>
               rows == Err(early.value) && row == Err(early.value) && count == Err(early.value) &&
               pre.cache == cache) &&
            (early.None? ==>
               var text := if sqlPath.value in cache then cache[sqlPath.value] else store(sqlPath.value).text;
               pre.cache == cache[sqlPath.value := text] &&
               rows == (if Bind(args).Err? then Err(Bind(args).error) else exec.query(text, Bind(args).value, target)) &&
               row == (if Bind(args).Err? then Err(Bind(args).error) else exec.queryForObject(text, Bind(args).value, target)) &&
               count == (if Bind(args).Err? then Err(Bind(args).error) else exec.update(text, Bind(args).value)))
  {
  }

  /** Appending to a log in two steps is appending the concatenation. */
  lemma AppendAssoc(a: seq<string>, b: seq<string>, c: seq<string>)
    ensures a + (b + c) == (a + b) + c
  {
  }

  class RaveRepository {
    /** The cached SQL text of each path loaded since the last clear. */
    var sqlCache: map<string, string>
    /** Every path read from the resource store, in order. */
    ghost var storeReads: seq<string>
    /** The paths successfully read since the last clear, in order. */
    ghost var loadedSinceClear: seq<string>
    /** The packaged SQL resources. */
    const store: ResourceStore
    /** The database executor. */
    const jdbcTemplate: Executor

    /** Every cached text is what the store holds, and each path has been read
        successfully at most once since the last clear: exactly the cached
        ones. */
    ghost predicate Valid()
      reads this
    {
      && Coherent(sqlCache, store)
      && (forall p :: p in sqlCache <==> p in loadedSinceClear)
      && (forall i, j :: 0 <= i < j < |loadedSinceClear| ==> loadedSinceClear[i] != loadedSinceClear[j])
    }

    constructor (store: ResourceStore, jdbcTemplate: Executor)
      ensures Valid()
      ensures sqlCache == map[] && storeReads == [] && loadedSinceClear == []
      ensures this.store == store && this.jdbcTemplate == jdbcTemplate
    {
      this.store := store;
      this.jdbcTemplate := jdbcTemplate;
      sqlCache := map[];
      storeReads := [];
      loadedSinceClear := [];
    }

    /** readSqlFromFile: a memoised lookup of the SQL text of a path. */
    method ReadSqlFromFile(sqlPath: string) returns (r: Result<string>)
      requires Valid()
      modifies this
      ensures Valid()
      ensures var step := Load(old(sqlCache), store, sqlPath);
              r == step.result && sqlCache == step.cache
      ensures r == DirectRead(store, sqlPath)
      ensures storeReads == old(storeReads) + (if sqlPath in old(sqlCache) then [] else [sqlPath])
      ensures loadedSinceClear ==
                old(loadedSinceClear) + (if sqlPath !in old(sqlCache) && r.Ok? then [sqlPath] else [])
    {
      LoadTransparent(sqlCache, store, sqlPath);
      if sqlPath in sqlCache {
        return Ok(sqlCache[sqlPath]);
      }
      storeReads := storeReads + [sqlPath];
      match store(sqlPath) {
        case Found(text) =>
          sqlCache := sqlCache[sqlPath := text];
          loadedSinceClear := loadedSinceClear + [sqlPath];
          r := Ok(text);
        case Missing =>
          r := Err(SqlFileNotFound(sqlPath));
        case ReadFault =>
          r := Err(SqlFileReadError(sqlPath));
      }
    }

    /** clearSqlCache: drops every entry; the next lookup of any path reads
        the store again. */
    method ClearSqlCache()
      requires Valid()
      modifies this
      ensures Valid()
      ensures sqlCache == map[] && loadedSinceClear == []
      ensures storeReads == old(storeReads)
    {
      sqlCache := map[];
      loadedSinceClear := [];
    }

    /** preloadSqlQueries: loads the paths in list order and stops at the
        first failure, which it reports wrapped with the failing path. */
    method PreloadSqlQueries(sqlPaths: seq<string>) returns (failure: Option<Error>)
      requires Valid()
      modifies this
      ensures Valid()
      ensures var step := Preload(old(sqlCache), store, sqlPaths);
              failure == step.failure && sqlCache == step.cache &&
              storeReads == old(storeReads) + step.fetched &&
              loadedSinceClear == old(loadedSinceClear) +
                (if failure.None? then step.fetched else step.fetched[..|step.fetched| - 1])
    {
      ghost var whole := Preload(sqlCache, store, sqlPaths);
      ghost var done: seq<string> := [];
      assert sqlPaths[0..] == sqlPaths && [] + whole.fetched == whole.fetched;
      var i := 0;
      while i < |sqlPaths|
        invariant 0 <= i <= |sqlPaths| && Valid()
        invariant storeReads == old(storeReads) + done
        invariant loadedSinceClear == old(loadedSinceClear) + done
        invariant PreloadRemaining(whole, done, sqlCache, store, sqlPaths, i)
      {
        var sqlPath := sqlPaths[i];
        PreloadAdvance(whole, done, sqlCache, store, sqlPaths, i);
        ghost var here := if sqlPath in sqlCache then [] else [sqlPath];
        ghost var before := storeReads;
        ghost var loadedBefore := loadedSinceClear;
        var r := ReadSqlFromFile(sqlPath);
        assert storeReads == before + here;
        AppendAssoc(old(storeReads), done, here);
        if r.Err? {
          assert loadedSinceClear == loadedBefore;
          done := done + here;
          return Some(PreloadFailed(sqlPath, r.error));
        }
        assert loadedSinceClear == loadedBefore + here;
        AppendAssoc(old(loadedSinceClear), done, here);
        done := done + here;
        i := i + 1;
      }
      assert sqlPaths[i..] == [] && done + [] == done;
      return None;
    }

    /** queryInternal. */
    method QueryInternal(sql: string, target: TypeName, args: Arg) returns (r: Result<seq<Entity>>)
      ensures r == RunQuery(jdbcTemplate, sql, target, args)
    {
      var paramSource :- BuildSqlParameterSource(args);
      r := jdbcTemplate.query(sql, paramSource, target);
    }

    /** queryForObjectInternal. */
    method QueryForObjectInternal(sql: string, target: TypeName, args: Arg) returns (r: Result<Entity>)
      ensures r == RunQueryForObject(jdbcTemplate, sql, target, args)
    {
      var paramSource :- BuildSqlParameterSource(args);
      r := jdbcTemplate.queryForObject(sql, paramSource, target);
    }

    /** updateInternal. */
    method UpdateInternal(sql: string, args: Arg) returns (r: Result<int>)
      ensures r == RunUpdate(jdbcTemplate, sql, args)
    {
      var paramSource :- BuildSqlParameterSource(args);
      r := jdbcTemplate.update(sql, paramSource);
    }

    /** query(type, ...): the path comes from the @SqlPath annotation found
        on the call stack, looked up as getSqlPathFromCaller does (CallerPath).
        The argument is the key/value array, the
        parameter object, or null for the overload without parameters. */
    method Query(frames: seq<Frame>, target: TypeName, args: Arg) returns (r: Result<seq<Entity>>)
      requires Valid()
      modifies this
      ensures Valid()
      ensures var pre := Prepare(old(sqlCache), store, CallerPath(frames));
              sqlCache == pre.cache && storeReads == old(storeReads) + pre.fetched &&
              loadedSinceClear == old(loadedSinceClear) + (if pre.sql.Ok? then pre.fetched else []) &&
              r == (if pre.sql.Err? then Err(pre.sql.error) else RunQuery(jdbcTemplate, pre.sql.value, target, args))
    {
      var sqlPath :- CallerPath(frames);
      var sql :- ReadSqlFromFile(sqlPath);
      r := QueryInternal(sql, target, args);
    }

    /** rawQuery(sqlPath, type, ...). */
    method RawQuery(sqlPath: string, target: TypeName, args: Arg) returns (r: Result<seq<Entity>>)
      requires Valid()
      modifies this
      ensures Valid()
      ensures var pre := Prepare(old(sqlCache), store, Ok(sqlPath));
              sqlCache == pre.cache && storeReads == old(storeReads) + pre.fetched &&
              loadedSinceClear == old(loadedSinceClear) + (if pre.sql.Ok? then pre.fetched else []) &&
              r == (if pre.sql.Err? then Err(pre.sql.error) else RunQuery(jdbcTemplate, pre.sql.value, target, args))
    {
      var sql :- ReadSqlFromFile(sqlPath);
      r := QueryInternal(sql, target, args);
    }

    /** queryForObject(type, ...). */
    method QueryForObject(frames: seq<Frame>, target: TypeName, args: Arg) returns (r: Result<Entity>)
      requires Valid()
      modifies this
      ensures Valid()
      ensures var pre := Prepare(old(sqlCache), store, CallerPath(frames));
              sqlCache == pre.cache && storeReads == old(storeReads) + pre.fetched &&
              loadedSinceClear == old(loadedSinceClear) + (if pre.sql.Ok? then pre.fetched else []) &&
              r == (if pre.sql.Err? then Err(pre.sql.error) else RunQueryForObject(jdbcTemplate, pre.sql.value, target, args))
    {
      var sqlPath :- CallerPath(frames);
      var sql :- ReadSqlFromFile(sqlPath);
      r := QueryForObjectInternal(sql, target, args);
    }

    /** rawQueryForObject(sqlPath, type, ...). */
    method RawQueryForObject(sqlPath: string, target: TypeName, args: Arg) returns (r: Result<Entity>)
      requires Valid()
      modifies this
      ensures Valid()
      ensures var pre := Prepare(old(sqlCache), store, Ok(sqlPath));
              sqlCache == pre.cache && storeReads == old(storeReads) + pre.fetched &&
              loadedSinceClear == old(loadedSinceClear) + (if pre.sql.Ok? then pre.fetched else []) &&
              r == (if pre.sql.Err? then Err(pre.sql.error) else RunQueryForObject(jdbcTemplate, pre.sql.value, target, args))
    {
      var sql :- ReadSqlFromFile(sqlPath);
      r := QueryForObjectInternal(sql, target, args);
    }

    /** update(...). */
    method Update(frames: seq<Frame>, args: Arg) returns (r: Result<int>)
      requires Valid()
      modifies this
      ensures Valid()
      ensures var pre := Prepare(old(sqlCache), store, CallerPath(frames));
              sqlCache == pre.cache && storeReads == old(storeReads) + pre.fetched &&
              loadedSinceClear == old(loadedSinceClear) + (if pre.sql.Ok? then pre.fetched else []) &&
              r == (if pre.sql.Err? then Err(pre.sql.error) else RunUpdate(jdbcTemplate, pre.sql.value, args))
    {
      var sqlPath :- CallerPath(frames);
      var sql :- ReadSqlFromFile(sqlPath);
      r := UpdateInternal(sql, args);
    }

    /** rawUpdate(sqlPath, ...). */
    method RawUpdate(sqlPath: string, args: Arg) returns (r: Result<int>)
      requires Valid()
      modifies this
      ensures Valid()
      ensures var pre := Prepare(old(sqlCache), store, Ok(sqlPath));
              sqlCache == pre.cache && storeReads == old(storeReads) + pre.fetched &&
              loadedSinceClear == old(loadedSinceClear) + (if pre.sql.Ok? then pre.fetched else []) &&
              r == (if pre.sql.Err? then Err(pre.sql.error) else RunUpdate(jdbcTemplate, pre.sql.value, args))
    {
      var sql :- ReadSqlFromFile(sqlPath);
      r := UpdateInternal(sql, args);
    }

    /** batchUpdate(paramObjects). */
    method BatchUpdate(frames: seq<Frame>, paramObjects: seq<Obj>) returns (r: Result<seq<int>>)
      requires Valid()
      modifies this
      ensures Valid()
      ensures var pre := Prepare(old(sqlCache), store, CallerPath(frames));
              sqlCache == pre.cache && storeReads == old(storeReads) + pre.fetched &&
              loadedSinceClear == old(loadedSinceClear) + (if pre.sql.Ok? then pre.fetched else []) &&
              r == (if pre.sql.Err? then Err(pre.sql.error) else RunBatch(jdbcTemplate, pre.sql.value, paramObjects))
    {
      var sqlPath :- CallerPath(frames);
      var sql :- ReadSqlFromFile(sqlPath);
      var batchParams := BatchParams(paramObjects);
      r := jdbcTemplate.batchUpdate(sql, batchParams);
    }

    /** rawBatchUpdate(sqlPath, paramObjects). */
    method RawBatchUpdate(sqlPath: string, paramObjects: seq<Obj>) returns (r: Result<seq<int>>)
      requires Valid()
      modifies this
      ensures Valid()
      ensures var pre := Prepare(old(sqlCache), store, Ok(sqlPath));
              sqlCache == pre.cache && storeReads == old(storeReads) + pre.fetched &&
              loadedSinceClear == old(loadedSinceClear) + (if pre.sql.Ok? then pre.fetched else []) &&
              r == (if pre.sql.Err? then Err(pre.sql.error) else RunBatch(jdbcTemplate, pre.sql.value, paramObjects))
    {
      var sql :- ReadSqlFromFile(sqlPath);
      var batchParams := BatchParams(paramObjects);
      r := jdbcTemplate.batchUpdate(sql, batchParams);
    }
  }
}
