# MovieQuiz question pipeline in Dafny

This project models the two pieces of decision logic that drive the
MovieQuiz question pipeline and proves properties about them.

- **The catalog loader** (`MoviesLoader.loadMovies(handler:)`). It takes one
  network fetch outcome and hands exactly one classified result to its
  handler:
  - a transport error is passed through as it came;
  - a payload that does not decode becomes `decodeError`;
  - a decoded catalog with a non-empty `errorMessage` becomes
    `loadError(message:)`;
  - anything else is success carrying the decoded catalog.

  The loader's error descriptions are modelled too.
- **The question factory** (`QuestionFactory`). It holds the catalog
  (`movies`) and the movie behind the latest question (`currentMovie`).
  - `loadData` replaces the catalog on success. On failure it leaves the
    catalog alone and reports the umbrella `loadingError`.
  - `requestNextQuestion` picks a movie with a bounds-safe lookup and
    records it as `currentMovie`. It then either gives up silently, when
    the poster fetch fails, or builds a true/false question: "is the rating
    more (less) than the threshold?".
  - `provideTrailerLink` returns `""` when nothing is selected and no value
    when the trailer lookup fails.
  - `getMovie` returns the selected movie.

Randomness and I/O are parameters, so every contract is deterministic:

- `Draws` holds the result of `(0..<count).randomElement()`, the threshold
  drawn from `6...8` and the direction ("больше" or "меньше").
- The catalog load outcome and the poster fetch outcome are plain inputs.
- Rank parsing (`Float(movie.rank)`) is a parser function
  `string -> Option<real>`. A rank that does not parse counts as 0.
- The trailer lookup is a function `string -> Option<string>`. `None` means
  the lookup threw.

Files:

- `Types.dfy`: `Option`, `Result`, bytes, `Movie` and the decoded catalog
  `MostPopularMovies`.
- `MoviesLoader.dfy`: the loader's classification as a total function, and
  its lemmas.
- `QuestionFactory.dfy`: the answer rule and the prompt text. The pure step
  functions `LoadStep` and `RequestStep` give the factory's state
  transitions. The class `QuestionFactory` has the fields `movies` and
  `currentMovie`, and its methods are proved against those step functions.
- `FactoryTrace.dfy`: runs of several `loadData` and `requestNextQuestion`
  calls in a row, with induction lemmas about what every run preserves.

## Model

| member | source | states |
|---|---|---|
| `MoviesLoader.ErrorDescription` | MovieQuiz/Servises/MoviesLoader.swift:15-21 | `decodeError` is described as "Decode Error". `loadError(message)` is described as "Load Error: " followed by exactly that message, which can be read back from the text. |
| `MoviesLoader.DescriptionIdentifiesError` | MovieQuiz/Servises/MoviesLoader.swift:17-20 | Two loader errors with the same description are the same error with the same message. |
| `MoviesLoader.LoadMovies` | MovieQuiz/Servises/MoviesLoader.swift:40-56 | Each of the four input situations is matched one-for-one to its result. A transport failure gives `Transport` carrying the same error. An undecodable payload gives exactly `decodeError`. A decoded catalog with a non-empty message gives `loadError` carrying that message. Success happens exactly when decoding worked and the message is empty, and it carries the decoded catalog. |
| `MoviesLoader.ExactlyOneBranch` | MovieQuiz/Servises/MoviesLoader.swift:41-56 | Every fetch outcome is in exactly one of the four situations: transport failure, undecodable, rejected, accepted. So the handler is called on exactly one branch. |
| `MoviesLoader.SuccessIffEmptyErrorMessage` | MovieQuiz/Servises/MoviesLoader.swift:50-53 | For a decoded catalog, the handler gets success with that catalog exactly when its error message is empty. |
| `MoviesLoader.RejectionIgnoresItems` | MovieQuiz/Servises/MoviesLoader.swift:50-53 | Two catalogs with the same non-empty error message give the same `loadError(message)`, whatever movies they list. |
| `Factory.FactoryErrorDescription` | MovieQuiz/Servises/QuestionFactory.swift:21-29 | `loadingError` is described by the fixed text "Fail to loading data". |
| `Factory.AnswerAtThresholdIsFalse` | MovieQuiz/Servises/QuestionFactory.swift:66-68 | Both comparisons are strict: a rating equal to the threshold gives the answer false in both directions. |
| `Factory.DirectionsDisagreeOffThreshold` | MovieQuiz/Servises/QuestionFactory.swift:66-68 | The "more" and "less" answers differ exactly when the rating is not equal to the threshold. |
| `Factory.UnparsableRankAnswers` | MovieQuiz/Servises/QuestionFactory.swift:62-68 | A rank that does not parse gives rating 0. Then, for any threshold in 6..8, the "more" question is false and the "less" question is true. |
| `Factory.Rating` | MovieQuiz/Servises/QuestionFactory.swift:62 | The rating is the parsed rank when the rank parses, and 0 when it does not (`Float(movie.rank) ?? 0`). |
| `Factory.CorrectAnswer` | MovieQuiz/Servises/QuestionFactory.swift:66-68 | The answer rule: strict `rating > t` for "больше" (More) and strict `rating < t` for "меньше" (Less). |
| `Factory.Word` | MovieQuiz/Servises/QuestionFactory.swift:64 | Both direction words are six characters long, and the word is "больше" exactly for More. |
| `Factory.PromptText` | MovieQuiz/Servises/QuestionFactory.swift:63-65 | The prompt "Рейтинг этого фильма <word> чем <threshold>?" can be parsed back to exactly the direction and threshold it was built from. |
| `Factory.MakeQuestion` | MovieQuiz/Servises/QuestionFactory.swift:62-73 | The question carries the fetched image unchanged. Its answer follows the comparison rule for the movie's rating, threshold and direction. Its text parses back to that direction and threshold. |
| `Factory.SafeGet` | MovieQuiz/Servises/QuestionFactory.swift:51 | The safe subscript finds a movie exactly when the index is in range, and that movie is the element at the index. |
| `Factory.LoadStep` | MovieQuiz/Servises/QuestionFactory.swift:37-42 | On success, `movies` becomes exactly the loaded items, in order, and the notice is `didLoadDataFromServer`. On failure, `movies` is unchanged and the only notice is `didFailToLoadData(loadingError)`. `currentMovie` is never touched. |
| `Factory.RequestStep` | MovieQuiz/Servises/QuestionFactory.swift:46-79 | `movies` is never changed. With an empty catalog nothing changes and no question is delivered. With a valid draw on a non-empty catalog, `currentMovie` becomes `movies[index]`. A question is delivered exactly when the lookup succeeds and the poster fetch succeeds. The question is built from the selected movie's rating. |
| `Factory.ImageFailureKeepsSelection` | MovieQuiz/Servises/QuestionFactory.swift:51-60 | When the poster fetch fails, no question is delivered, but `currentMovie` has already been overwritten with the selected movie. |
| `Factory.QuestionFactory.constructor` | MovieQuiz/Servises/QuestionFactory.swift:12-18 | A new factory has an empty catalog and no selected movie. |
| `Factory.QuestionFactory.LoadData` | MovieQuiz/Servises/QuestionFactory.swift:33-44 | The new fields and the notice are those of `LoadStep` applied to the old fields. On success, `movies` is the loaded items. On failure, `movies` is the old catalog and the error is `loadingError`. `currentMovie` is unchanged. |
| `Factory.QuestionFactory.RequestNextQuestion` | MovieQuiz/Servises/QuestionFactory.swift:46-79 | The new fields and the delivered question are those of `RequestStep`. `movies` is unchanged. An empty catalog selects nothing and delivers nothing. Otherwise the drawn index is in range and `currentMovie == movies[index]`. A question is delivered exactly when the catalog is non-empty and the image was fetched. |
| `Factory.QuestionFactory.ProvideTrailerLink` | MovieQuiz/Servises/QuestionFactory.swift:82-91 | With no selection the result is `""`. The result is absent exactly when a movie is selected and its trailer lookup failed. With a selection the result is the lookup's answer for that movie's id. |
| `Factory.QuestionFactory.GetMovie` | MovieQuiz/Servises/QuestionFactory.swift:93-95 | Returns the selected movie (a read-only accessor). |
| `Factory.EmptyLinkLooksLikeNoSelection` | MovieQuiz/Servises/QuestionFactory.swift:82-91 | If the lookup answers the selected movie with an empty link, the result is `""`, the same as for a factory with no selection: in that case the caller cannot tell the two situations apart. |
| `Factory.TrailerSentinelsDistinct` | MovieQuiz/Servises/QuestionFactory.swift:82-91 | Suppose the lookup never yields an empty link. Then `""` means exactly "nothing selected" and the absent result means exactly "lookup failed", so the two sentinels cannot be confused. |
| `FactoryTrace.MoviesAreLastLoad` | MovieQuiz/Servises/QuestionFactory.swift:37-42 | After any run of loads and requests, `movies` equals the catalog of the last successful load, or the starting catalog if no load succeeded. Failed loads and requests never change it. |
| `FactoryTrace.NothingBeforeFirstLoad` | MovieQuiz/Servises/QuestionFactory.swift:49-51 | Start from an empty catalog and let no load succeed. Then the factory stays exactly as it was and delivers no question. |
| `FactoryTrace.Provenance` | MovieQuiz/Servises/QuestionFactory.swift:37-52 | After any run, every movie in the catalog was there at the start or came from one of the run's successful loads. The selected movie is the one selected at the start, or a movie from the starting catalog, or one from a successful load. |
| `FactoryTrace.SelectionComesFromLoad` | MovieQuiz/Servises/QuestionFactory.swift:37-52 | From a fresh factory, the movie `getMovie()` returns after any run was delivered by a successful load of that run. |

## Left out

- The network client (`NetworkClient.fetch`) and the blocking poster fetch `Data(contentsOf:)` are I/O. They appear as their outcomes: a `Result` of bytes for the catalog fetch, and an `Option` of bytes for the poster.
- `JSONDecoder` and the wire schema are replaced by a decoder function `seq<byte> -> Option<MostPopularMovies>`. `Movie` keeps `id` and `rank`, which the factory reads, plus `title` and `imageURL` from the payload, which the model does not use. The resized-image URL is not derived.
- The factory calls an awaited `loadMovies()` and `loadMoviesTrailerLink(id:)`. Neither is defined in `MoviesLoader.swift`, which has only the callback form. So the factory receives the load outcome and the trailer lookup as abstract inputs and is not linked to `LoadMovies`.
- `Task`, `DispatchQueue.global`/`main` and the `[weak self]` guards are concurrency and object lifetime. Each operation is one sequential step. Overlapping requests, where `currentMovie` is last-write-wins, are not modelled.
- The delegate is weak and optional. The model returns the notification that a present delegate would receive.
- `randomElement()` is replaced by caller-supplied draws. Their ranges are preconditions: the index is absent exactly for an empty catalog and otherwise in range, and the threshold is in 6..8. Uniformity of the draws cannot be stated.
- `Float(movie.rank)` parsing and `Float` arithmetic are replaced by a parser to `real`. Comparisons are exact on reals, so rounding, NaN and infinity are not modelled.
- The hard-coded catalog URL and its `preconditionFailure`, the `print` logging, and the commented-out mock questions are not modelled.
- `Factory.PromptText` writes the threshold as one decimal digit. This covers every threshold the factory can draw (6..8), not arbitrary integers.
- `Factory.LoadStep`: every failed load is reported as the umbrella `loadingError`, as at QuestionFactory.swift:41. The cause (transport, decode or rejected) is not passed on.
