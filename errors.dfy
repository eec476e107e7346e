/** Failure values shared by every component of the repository: the
    exceptions RaveRepository throws, as data, and the Option and Result
    wrappers that carry them. */
module Errors {

  datatype Option<+T> = None | Some(value: T)

  /** One constructor per distinct failure the repository can surface. */
  datatype Error =
    /** SqlRepositoryException "SQL file not found: <path>" (no resource, or FileNotFoundException). */
    | SqlFileNotFound(path: string)
    /** SqlRepositoryException "Error reading SQL file: <path>" (any other IOException). */
    | SqlFileReadError(path: string)
    /** SqlRepositoryException "Failed to preload SQL for path: <path>", wrapping the load failure. */
    | PreloadFailed(path: string, cause: Error)
    /** SqlRepositoryException "No @SqlPath annotation found on calling method." */
    | NoSqlPathAnnotation
    /** IllegalArgumentException "Key-values must be in pairs." */
    | KeyValuesNotInPairs
    /** ClassCastException: the key at this index of a key/value array is not a String. */
    | KeyNotString(index: nat)
    /** IllegalArgumentException from the parameter source: the key at this index is null. */
    | NullParameterName(index: nat)
    /** Whatever the database executor throws; passed through unwrapped. */
    | ExecutorFault(code: nat)

  datatype Result<+T> = Ok(value: T) | Err(error: Error) {

    predicate IsFailure() {
      Err?
    }

    function PropagateFailure<U>(): Result<U>
      requires Err?
    {
      Err(error)
    }

    function Extract(): T
      requires Ok?
    {
      value
    }
  }

  /** The failures whose message names a SQL path. */
  predicate NamesPath(e: Error) {
    e.SqlFileNotFound? || e.SqlFileReadError? || e.PreloadFailed?
  }

  /** The exception message of each failure, as the repository words it. A
      message about a SQL file or a preload ends with that path. */
  function Message(e: Error): (m: string)
    ensures NamesPath(e) ==> |e.path| <= |m| && m[|m| - |e.path|..] == e.path
  {
    match e
    case SqlFileNotFound(p) => "SQL file not found: " + p
    case SqlFileReadError(p) => "Error reading SQL file: " + p
    case PreloadFailed(p, _) => "Failed to preload SQL for path: " + p
    case NoSqlPathAnnotation => "No @SqlPath annotation found on calling method."
    case KeyValuesNotInPairs => "Key-values must be in pairs."
    case KeyNotString(_) => "key of a key/value pair is not a String"
    case NullParameterName(_) => "Parameter name must not be null"
    case ExecutorFault(_) => "executor fault"
  }

  /** The message tells a missing resource from a read fault, whatever the
      two paths are, and neither reads like the preload wrapper. */
  lemma MessageTellsLoadFailures(p: string, q: string)
    ensures Message(SqlFileNotFound(p)) != Message(SqlFileReadError(q))
    ensures forall c :: Message(PreloadFailed(p, c)) != Message(SqlFileNotFound(q))
    ensures forall c :: Message(PreloadFailed(p, c)) != Message(SqlFileReadError(q))
  {
    assert Message(SqlFileNotFound(p))[0] == 'S';
    assert Message(SqlFileReadError(q))[0] == 'E';
    forall c
      ensures Message(PreloadFailed(p, c))[0] == 'F'
    {
    }
  }
}
