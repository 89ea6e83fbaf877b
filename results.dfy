/** Optional values and the outcome of a step that can raise. */
module Results {

  /** A value that may be absent (Python's None). */
  datatype Option<+T> = None | Some(value: T)

  /** The ways a handler ends in a server error: an uncaught exception
      (on malformed upstream data, a failed request or a rejected in-process
      sub-call), or a return value Flask cannot turn into a response. */
  datatype Fault =
    | CriticsScoreWithoutTitle   // rating_info['title'] raises KeyError
    | CriticsScoreNotObject      // rating_info['title'] on a non-dict raises TypeError
    | ReviewPageUnreachable      // requests.get of the review page raises (connection error, timeout)
    | TupleHasNoStatus           // score() called in process returned a (response, status) tuple,
                                 // and reading status_code off a tuple raises AttributeError
    | ScoreReplyNotJson          // the /score server answered with its HTML error page, so .json() raises
    | NoTomatometerInScoreReply  // ratings.get('Tomatometer') is None, so .get raises AttributeError
    | MissingReleaseDate         // movie.get('release_date') is None, so .split raises AttributeError
    | SearchRequestFailed        // the search handler answers with an exception as its status

  /** The result of a step that either yields a value or raises. */
  datatype Outcome<+T> = Ok(value: T) | Fail(fault: Fault)

  /** Python's truthiness of an optional request argument: present and non-empty. */
  predicate Given(arg: Option<string>)
  {
    arg.Some? && arg.value != ""
  }

  function Min(a: int, b: int): int
  {
    if a <= b then a else b
  }
}
