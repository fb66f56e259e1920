/** Shared value types: optional columns, and the error returns of the services. */
module Prelude {

  datatype Option<+T> = None | Some(value: T) {
    function GetOr(default: T): T {
      if Some? then value else default
    }
  }

  datatype Error =
    | NotFound            // domerr.ErrNotFound and its wrappers
    | DuplicateKey        // PostgreSQL unique violation
    | ForeignKey          // PostgreSQL foreign key violation
    | FailedPrecondition  // domerr.ErrFailedPrecondition
    | RefreshFailed       // middleware.ErrRefreshFailed
    | StoreFailed         // any other error of the session store

  datatype Result<+T> = Ok(value: T) | Err(error: Error) {
    predicate IsFailure() {
      Err?
    }

    function PropagateFailure<U>(): Result<U>
      requires Err?
    {
      Err(error)
    }

    function Extract(): T
      requires Ok?
    {
      value
    }
  }

  /** A generated value: some text that is not among these. */
  lemma FreshText(texts: set<string>) returns (text: string)
    ensures text !in texts && text != ""
  {
    var n := Longest(texts);
    text := seq(n + 1, _ => 'x');
    assert |text| == n + 1;
  }

  lemma Longest(texts: set<string>) returns (n: nat)
    ensures forall text | text in texts :: |text| <= n
  {
    if texts == {} {
      n := 0;
    } else {
      var text :| text in texts;
      n := Longest(texts - {text});
      n := if |text| > n then |text| else n;
    }
  }
}
