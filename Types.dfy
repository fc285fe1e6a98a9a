/** Values shared by the catalog loader and the question factory:
    the optional and result wrappers, raw bytes, and the decoded catalog. */
module Types {

  /** An optional value, standing for Swift's `T?`. */
  datatype Option<+T> = None | Some(value: T) {
    /** The `?? default` operator. */
    function GetOr(default: T): T {
      match this
      case Some(v) => v
      case None => default
    }
  }

  /** Swift's `Result<Success, Failure>`. */
  datatype Result<+T, +E> = Success(value: T) | Failure(error: E)

  /** One byte of a network payload or of an image. */
  newtype byte = x: int | 0 <= x < 256

  /** A movie of the ranked list, as decoded from the catalog payload.
      `rank` is kept as the text the service sends. */
  datatype Movie = Movie(id: string, rank: string, title: string, imageURL: string)

  /** The decoded catalog: the service's error message (empty when the
      request was accepted) and the ranked movies in payload order. */
  datatype MostPopularMovies = MostPopularMovies(errorMessage: string, items: seq<Movie>)
}
