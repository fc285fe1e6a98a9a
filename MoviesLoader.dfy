/** The catalog loader: one fetch outcome in, exactly one classified
    result out. The network fetch and the JSON decoder are parameters:
    `fetched` is what the network client handed back and `decode` stands
    for `JSONDecoder().decode(MostPopularMovies.self, from:)` with a
    failed decode as `None`. */
module MoviesLoader {
  import opened Types

  /** The loader's own errors. */
  datatype MoviesLoaderError = DecodeError | LoadError(message: string)

  /** The error handed to the loader's completion handler: either the
      transport error passed through as it came, or a loader error. */
  datatype LoadFailure<+E> = Transport(cause: E) | Classified(reason: MoviesLoaderError)

  const DecodeErrorText: string := "Decode Error"
  const LoadErrorPrefix: string := "Load Error: "

  /** `MoviesLoaderError.errorDescription`. */
  function ErrorDescription(e: MoviesLoaderError): (d: string)
    ensures e.DecodeError? ==> d == DecodeErrorText
    ensures e.LoadError? ==> |d| == |LoadErrorPrefix| + |e.message|
                             && d[..|LoadErrorPrefix|] == LoadErrorPrefix
                             && d[|LoadErrorPrefix|..] == e.message
  {
    match e
    case DecodeError => DecodeErrorText
    case LoadError(message) => LoadErrorPrefix + message
  }

  /** Two different loader errors are never described by the same text,
      so the description identifies the error and its message. */
  lemma {:induction false} DescriptionIdentifiesError(e1: MoviesLoaderError, e2: MoviesLoaderError)
    requires ErrorDescription(e1) == ErrorDescription(e2)
    ensures e1 == e2
  {
    // The first character already tells "Decode Error" from "Load Error: ...".
    assert ErrorDescription(e1)[0] == ErrorDescription(e2)[0];
    if e1.LoadError? && e2.LoadError? {
      assert e1.message == ErrorDescription(e1)[|LoadErrorPrefix|..] == e2.message;
    }
  }

  /** The four mutually exclusive situations the loader tells apart. */
  predicate IsTransportFailure<E>(fetched: Result<seq<byte>, E>) {
    fetched.Failure?
  }

  predicate IsUndecodable<E>(fetched: Result<seq<byte>, E>, decode: seq<byte> -> Option<MostPopularMovies>) {
    fetched.Success? && decode(fetched.value).None?
  }

  predicate IsRejected<E>(fetched: Result<seq<byte>, E>, decode: seq<byte> -> Option<MostPopularMovies>) {
    fetched.Success? && decode(fetched.value).Some? && decode(fetched.value).value.errorMessage != ""
  }

  predicate IsAccepted<E>(fetched: Result<seq<byte>, E>, decode: seq<byte> -> Option<MostPopularMovies>) {
    fetched.Success? && decode(fetched.value).Some? && decode(fetched.value).value.errorMessage == ""
  }

  /** `loadMovies(handler:)`: the value passed to the handler for one
      fetch outcome. */
  function LoadMovies<E>(fetched: Result<seq<byte>, E>, decode: seq<byte> -> Option<MostPopularMovies>)
    : (r: Result<MostPopularMovies, LoadFailure<E>>)
    ensures IsTransportFailure(fetched) <==> r.Failure? && r.error.Transport?
    ensures IsTransportFailure(fetched) ==> r == Failure(Transport(fetched.error))
    ensures IsUndecodable(fetched, decode) <==> r == Failure(Classified(DecodeError))
    ensures IsRejected(fetched, decode) <==> r.Failure? && r.error.Classified? && r.error.reason.LoadError?
    ensures IsRejected(fetched, decode) ==>
              r.error.reason.message == decode(fetched.value).value.errorMessage && r.error.reason.message != ""
    ensures IsAccepted(fetched, decode) <==> r.Success?
    ensures IsAccepted(fetched, decode) ==> r.value == decode(fetched.value).value && r.value.errorMessage == ""
  {
    match fetched
    case Failure(error) => Failure(Transport(error))
    case Success(data) =>
      match decode(data)
      case None => Failure(Classified(DecodeError))
      case Some(decoded) =>
        if decoded.errorMessage == "" then Success(decoded)
        else Failure(Classified(LoadError(decoded.errorMessage)))
  }

  /** Every fetch outcome falls into exactly one of the four situations,
      so the handler is called on exactly one branch. */
  lemma ExactlyOneBranch<E>(fetched: Result<seq<byte>, E>, decode: seq<byte> -> Option<MostPopularMovies>)
    ensures (if IsTransportFailure(fetched) then 1 else 0)
          + (if IsUndecodable(fetched, decode) then 1 else 0)
          + (if IsRejected(fetched, decode) then 1 else 0)
          + (if IsAccepted(fetched, decode) then 1 else 0) == 1
  {
  }

  /** Success is reported only for a catalog whose error message is empty;
      such a catalog is never turned into an error. */
  lemma SuccessIffEmptyErrorMessage<E>(fetched: Result<seq<byte>, E>, decode: seq<byte> -> Option<MostPopularMovies>,
                                       data: seq<byte>, catalog: MostPopularMovies)
    requires fetched == Success(data) && decode(data) == Some(catalog)
    ensures LoadMovies(fetched, decode) == Success(catalog) <==> catalog.errorMessage == ""
  {
  }

  /** A rejected catalog yields the same error whatever movies it lists. */
  lemma RejectionIgnoresItems<E>(data1: seq<byte>, data2: seq<byte>, decode: seq<byte> -> Option<MostPopularMovies>,
                                  message: string, items1: seq<Movie>, items2: seq<Movie>)
    requires message != ""
    requires decode(data1) == Some(MostPopularMovies(message, items1))
    requires decode(data2) == Some(MostPopularMovies(message, items2))
    ensures LoadMovies<E>(Success(data1), decode) == LoadMovies<E>(Success(data2), decode)
                                                 == Failure(Classified(LoadError(message)))
  {
  }
}
