/** getSqlPathFromCaller: the SQL path of an implicit call is read from
    the @SqlPath annotation of a method on the call stack. */
module CallerResolver {
  import opened Errors

  /** A declared method: how many parameters it takes and the value of its
      @SqlPath annotation, when it has one. */
  datatype MethodDecl = MethodDecl(parameterCount: nat, sqlPath: Option<string>)

  /** One stack frame: the declaring class, the name of the running method,
      the running method itself, and what getDeclaredMethod(name) finds in
      the class: the declared method of that name taking no arguments, if
      any. */
  datatype Frame = Frame(declaringClass: string, methodName: string, running: MethodDecl, zeroArgMethod: Option<MethodDecl>)

  /** What a frame of an ordinary method satisfies: the lookup finds only a
      zero-argument method, and it finds the running method when that takes
      none. A constructor or static initialiser frame (<init>, <clinit>) need
      not satisfy it: it takes no arguments, yet the lookup finds nothing. */
  ghost predicate Consistent(f: Frame) {
    && (f.zeroArgMethod.Some? ==> f.zeroArgMethod.value.parameterCount == 0)
    && (f.running.parameterCount == 0 ==> f.zeroArgMethod == Some(f.running))
  }

  /** The stream filter as written: the by-name, no-argument lookup succeeds
      and the method it finds carries the annotation. */
  predicate Annotated(f: Frame) {
    f.zeroArgMethod.Some? && f.zeroArgMethod.value.sqlPath.Some?
  }

  /** The annotation value of an annotated frame. */
  function PathOf(f: Frame): (path: string)
    requires Annotated(f)
  {
    f.zeroArgMethod.value.sqlPath.value
  }

  /** getSqlPathFromCaller as written: filter(...).findFirst().map(...)
      .orElseThrow(...) over the frames, innermost first. */
  function CallerPath(frames: seq<Frame>): (r: Result<string>)
    ensures r.Err? ==> r.error == NoSqlPathAnnotation
    ensures r.Ok? ==> exists i :: 0 <= i < |frames| && Annotated(frames[i]) && PathOf(frames[i]) == r.value
    decreases |frames|
  {
    if frames == [] then Err(NoSqlPathAnnotation)
    else if Annotated(frames[0]) then Ok(PathOf(frames[0]))
    else CallerPath(frames[1..])
  }

  /** As written, resolution succeeds exactly when the zero-argument lookup
      of some frame finds an annotated method, and then yields the
      annotation of the innermost such frame; otherwise it fails with
      NoSqlPathAnnotation. */
  lemma {:induction false} CallerPathFirstMatch(frames: seq<Frame>)
    ensures CallerPath(frames).Ok? <==> exists i :: 0 <= i < |frames| && Annotated(frames[i])
    ensures CallerPath(frames).Err? ==> CallerPath(frames).error == NoSqlPathAnnotation
    ensures forall i :: 0 <= i < |frames| && Annotated(frames[i]) &&
                        (forall j :: 0 <= j < i ==> !Annotated(frames[j])) ==>
              CallerPath(frames) == Ok(PathOf(frames[i]))
    decreases |frames|
  {
    if frames != [] {
      var tail := frames[1..];
      CallerPathFirstMatch(tail);
      assert forall i :: 1 <= i < |frames| ==> tail[i - 1] == frames[i];
      if !Annotated(frames[0]) {
        assert CallerPath(frames) == CallerPath(tail);
        forall i | 0 <= i < |frames| && Annotated(frames[i])
          ensures 0 <= i - 1 < |tail| && Annotated(tail[i - 1])
        {
        }
        forall i | 0 <= i < |frames| && Annotated(frames[i]) &&
                   (forall j :: 0 <= j < i ==> !Annotated(frames[j]))
          ensures CallerPath(frames) == Ok(PathOf(frames[i]))
        {
          assert forall j :: 0 <= j < i - 1 ==> tail[j] == frames[j + 1];
          assert tail[i - 1] == frames[i];
        }
      }
    }
  }

  /** Frames whose lookup finds no annotated method (the repository's own
      frames, or a method with no zero-argument namesake) are skipped, not
      treated as errors. */
  lemma {:induction false} CallerPathSkips(skipped: seq<Frame>, rest: seq<Frame>)
    requires forall j :: 0 <= j < |skipped| ==> !Annotated(skipped[j])
    ensures CallerPath(skipped + rest) == CallerPath(rest)
    decreases |skipped|
  {
    if skipped != [] {
      assert (skipped + rest)[0] == skipped[0];
      assert (skipped + rest)[1..] == skipped[1..] + rest;
      CallerPathSkips(skipped[1..], rest);
    } else {
      assert skipped + rest == rest;
    }
  }

  /** The running method of the frame carries the annotation. */
  predicate RunningAnnotated(f: Frame) {
    f.running.sqlPath.Some?
  }

  /** The lookup the repository evidently intends: the annotation of the
      running method itself, whatever parameters it takes. */
  function AnnotatedCallerPath(frames: seq<Frame>): (r: Result<string>)
    ensures r.Err? ==> r.error == NoSqlPathAnnotation
    ensures r.Ok? ==> exists i :: 0 <= i < |frames| && RunningAnnotated(frames[i]) && frames[i].running.sqlPath.value == r.value
    decreases |frames|
  {
    if frames == [] then Err(NoSqlPathAnnotation)
    else if RunningAnnotated(frames[0]) then Ok(frames[0].running.sqlPath.value)
    else AnnotatedCallerPath(frames[1..])
  }

  /** The intended lookup succeeds exactly when some running method on the
      stack is annotated, and yields the annotation of the innermost one. */
  lemma {:induction false} AnnotatedCallerPathFirstMatch(frames: seq<Frame>)
    ensures AnnotatedCallerPath(frames).Ok? <==> exists i :: 0 <= i < |frames| && RunningAnnotated(frames[i])
    ensures AnnotatedCallerPath(frames).Err? ==> AnnotatedCallerPath(frames).error == NoSqlPathAnnotation
    ensures forall i :: 0 <= i < |frames| && RunningAnnotated(frames[i]) &&
                        (forall j :: 0 <= j < i ==> !RunningAnnotated(frames[j])) ==>
              AnnotatedCallerPath(frames) == Ok(frames[i].running.sqlPath.value)
    decreases |frames|
  {
    if frames != [] {
      var tail := frames[1..];
      AnnotatedCallerPathFirstMatch(tail);
      assert forall i :: 1 <= i < |frames| ==> tail[i - 1] == frames[i];
      if !RunningAnnotated(frames[0]) {
        assert AnnotatedCallerPath(frames) == AnnotatedCallerPath(tail);
        forall i | 0 <= i < |frames| && RunningAnnotated(frames[i])
          ensures 0 <= i - 1 < |tail| && RunningAnnotated(tail[i - 1])
        {
        }
        forall i | 0 <= i < |frames| && RunningAnnotated(frames[i]) &&
                   (forall j :: 0 <= j < i ==> !RunningAnnotated(frames[j]))
          ensures AnnotatedCallerPath(frames) == Ok(frames[i].running.sqlPath.value)
        {
          assert forall j :: 0 <= j < i - 1 ==> tail[j] == frames[j + 1];
          assert tail[i - 1] == frames[i];
        }
      }
    }
  }

  /** The two lookups agree on every stack whose frames either run a
      zero-argument method or involve no annotation at all: such as the
      repository's tests, whose annotated methods take no parameters. */
  lemma {:induction false} LookupsAgreeOnZeroArgCallers(frames: seq<Frame>)
    requires forall j :: 0 <= j < |frames| ==> Consistent(frames[j])
    requires forall j :: 0 <= j < |frames| ==>
               frames[j].running.parameterCount == 0 ||
               (!Annotated(frames[j]) && !RunningAnnotated(frames[j]))
    ensures CallerPath(frames) == AnnotatedCallerPath(frames)
    decreases |frames|
  {
    if frames != [] {
      LookupsAgreeOnZeroArgCallers(frames[1..]);
    }
  }

  /** The defect: an annotated method that takes a parameter, called from
      the repository's queryForObject, is not found, because the lookup asks
      for a findById() with no parameters; the intended lookup finds it. */
  lemma ParameterisedCallerMissed()
    ensures var frames := [
              Frame("com.ravesql.RaveRepository", "getSqlPathFromCaller", MethodDecl(0, None), Some(MethodDecl(0, None))),
              Frame("com.ravesql.RaveRepository", "queryForObject", MethodDecl(2, None), None),
              Frame("UserDao", "findById", MethodDecl(1, Some("sql/select_by_id.sql")), None)];
            && (forall j :: 0 <= j < |frames| ==> Consistent(frames[j]))
            && CallerPath(frames) == Err(NoSqlPathAnnotation)
            && AnnotatedCallerPath(frames) == Ok("sql/select_by_id.sql")
  {
  }

  /** The other face of the defect: an unannotated findAll(int), whose
      zero-argument namesake findAll() is annotated, called from a method
      annotated with another path. The as-written lookup takes the
      namesake's path; the intended lookup takes the caller's. */
  lemma OverloadTakesNamesakePath()
    ensures var frames := [
              Frame("com.ravesql.RaveRepository", "query", MethodDecl(2, None), None),
              Frame("UserDao", "findAll", MethodDecl(1, None), Some(MethodDecl(0, Some("sql/a.sql")))),
              Frame("UserService", "listUsers", MethodDecl(0, Some("sql/b.sql")), Some(MethodDecl(0, Some("sql/b.sql"))))];
            && (forall j :: 0 <= j < |frames| ==> Consistent(frames[j]))
            && CallerPath(frames) == Ok("sql/a.sql")
            && AnnotatedCallerPath(frames) == Ok("sql/b.sql")
  {
  }
}
