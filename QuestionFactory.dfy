/** The question factory: it holds the catalog (`movies`) and the movie
    behind the latest question (`currentMovie`), replaces the catalog on a
    successful load, and builds a true/false question about a randomly
    chosen movie's rating.

    Everything random or external is a parameter: the drawn index, the
    threshold and the comparison direction (`Draws`), the outcome of the
    catalog load, the outcome of the poster fetch, the rank parser and the
    trailer lookup. The pure step functions `LoadStep` and `RequestStep`
    specify the two state-changing methods of the class `QuestionFactory`. */
module Factory {
  import opened Types

  /** The factory's one error, reported for every failed load. */
  datatype QuestionFactoryError = LoadingError

  /** `QuestionFactoryError.errorDescription`. */
  function FactoryErrorDescription(e: QuestionFactoryError): (d: string)
    ensures d == "Fail to loading data"
  {
    match e
    case LoadingError => "Fail to loading data"
  }

  /** What `loadData` tells its delegate. */
  datatype LoadNotice = DidLoadDataFromServer | DidFailToLoadData(error: QuestionFactoryError)

  /** The question handed to the delegate. */
  datatype QuizQuestion = QuizQuestion(image: seq<byte>, text: string, correctAnswer: bool)

  // ---------------------------------------------------------------------
  // The answer rule and the prompt text

  /** The comparison the question asks about, drawn from "больше" (more)
      and "меньше" (less). */
  datatype Direction = More | Less

  /** The word the prompt uses for a direction. */
  function Word(dir: Direction): (w: string)
    ensures |w| == 6
    ensures w == "больше" <==> dir == More
  {
    match dir
    case More => "больше"
    case Less => "меньше"
  }

  /** The rating of a movie: its rank parsed as a number, or 0 when the
      rank does not parse. */
  function Rating(parseRank: string -> Option<real>, rank: string): (rating: real)
    ensures parseRank(rank).None? ==> rating == 0.0
    ensures parseRank(rank).Some? ==> rating == parseRank(rank).value
  {
    parseRank(rank).GetOr(0.0)
  }

  /** The correct answer: "is the rating more (less) than the threshold?",
      with strict comparisons in both directions. */
  function CorrectAnswer(rating: real, threshold: int, dir: Direction): (answer: bool)
    ensures dir == More ==> (answer <==> rating > threshold as real)
    ensures dir == Less ==> (answer <==> rating < threshold as real)
  {
    if dir == More then rating > threshold as real else rating < threshold as real
  }

  /** A rating equal to the threshold makes the answer false in both directions. */
  lemma AnswerAtThresholdIsFalse(threshold: int, dir: Direction)
    ensures !CorrectAnswer(threshold as real, threshold, dir)
  {
  }

  /** Away from the threshold the two directions give opposite answers. */
  lemma DirectionsDisagreeOffThreshold(rating: real, threshold: int)
    ensures rating != threshold as real <==> CorrectAnswer(rating, threshold, More) != CorrectAnswer(rating, threshold, Less)
  {
  }

  /** A rank that does not parse counts as 0, below every threshold in
      6..8: a "more" question is false and a "less" question is true. */
  lemma UnparsableRankAnswers(parseRank: string -> Option<real>, rank: string, threshold: int)
    requires parseRank(rank).None?
    requires 6 <= threshold <= 8
    ensures !CorrectAnswer(Rating(parseRank, rank), threshold, More)
    ensures CorrectAnswer(Rating(parseRank, rank), threshold, Less)
  {
  }

  const PromptStart: string := "Рейтинг этого фильма "
  const PromptMiddle: string := " чем "
  const PromptEnd: string := "?"

  /** The decimal text of a one-digit number. */
  function DigitText(n: int): string
    requires 0 <= n <= 9
  {
    [('0' as int + n) as char]
  }

  /** Reads the direction and the threshold back out of a prompt. */
  function ParsePrompt(text: string): Option<(Direction, int)> {
    var w := |Word(More)|;
    var a := |PromptStart|;
    var b := a + w;
    var c := b + |PromptMiddle|;
    if |text| == c + 2 && text[..a] == PromptStart && text[b..c] == PromptMiddle
       && text[c + 1..] == PromptEnd && '0' <= text[c] <= '9'
    then
      var t := text[c] as int - '0' as int;
      if text[a..b] == Word(More) then Some((More, t))
      else if text[a..b] == Word(Less) then Some((Less, t))
      else None
    else None
  }

  /** "Рейтинг этого фильма <word> чем <threshold>?": the prompt names its
      direction and threshold unambiguously, since they can be read back. */
  function PromptText(dir: Direction, threshold: int): (text: string)
    requires 0 <= threshold <= 9
    ensures ParsePrompt(text) == Some((dir, threshold))
  {
    var text := PromptStart + Word(dir) + PromptMiddle + DigitText(threshold) + PromptEnd;
    var a := |PromptStart|;
    var b := a + |Word(More)|;
    var c := b + |PromptMiddle|;
    assert text[..a] == PromptStart;
    assert text[a..b] == Word(dir);
    assert text[b..c] == PromptMiddle;
    assert text[c] == DigitText(threshold)[0];
    assert text[c + 1..] == PromptEnd;
    text
  }

  /** `QuizQuestion(image:text:correctAnswer:)` as built for a movie. */
  function MakeQuestion(image: seq<byte>, rating: real, threshold: int, dir: Direction): (q: QuizQuestion)
    requires 0 <= threshold <= 9
    ensures q.image == image
    ensures q.correctAnswer == CorrectAnswer(rating, threshold, dir)
    ensures ParsePrompt(q.text) == Some((dir, threshold))
  {
    QuizQuestion(image, PromptText(dir, threshold), CorrectAnswer(rating, threshold, dir))
  }

  // ---------------------------------------------------------------------
  // The factory's state and its two steps

  /** The fields of the factory. */
  datatype FactoryState = FactoryState(movies: seq<Movie>, currentMovie: Option<Movie>)

  /** A fresh factory: no catalog, nothing selected. */
  const Initial: FactoryState := FactoryState([], None)

  /** The random choices of one `requestNextQuestion`: the result of
      `(0..<movies.count).randomElement()`, the threshold from 6...8 and the
      direction. */
  datatype Draws = Draws(index: Option<nat>, threshold: int, direction: Direction)

  /** What `randomElement()` can return for the range `0..<count`: nothing
      exactly when the range is empty, otherwise an index inside it. */
  predicate ValidIndexDraw(count: nat, index: Option<nat>) {
    (index.Some? <==> count > 0) && (index.Some? ==> index.value < count)
  }

  predicate ValidThreshold(threshold: int) {
    6 <= threshold <= 8
  }

  /** The `[safe:]` subscript: `None` for an index out of range. */
  function SafeGet(movies: seq<Movie>, index: int): (r: Option<Movie>)
    ensures r.Some? <==> 0 <= index < |movies|
    ensures r.Some? ==> r.value == movies[index]
  {
    if 0 <= index < |movies| then Some(movies[index]) else None
  }

  /** `loadData` on the outcome of the catalog load: the new state and the
      delegate notice. */
  function LoadStep<E>(s: FactoryState, outcome: Result<MostPopularMovies, E>): (r: (FactoryState, LoadNotice))
    ensures r.0.currentMovie == s.currentMovie
    ensures outcome.Success? <==> r.1 == DidLoadDataFromServer
    ensures outcome.Success? ==> r.0.movies == outcome.value.items
    ensures outcome.Failure? ==> r.0.movies == s.movies && r.1 == DidFailToLoadData(LoadingError)
  {
    match outcome
    case Success(catalog) => (s.(movies := catalog.items), DidLoadDataFromServer)
    case Failure(_) => (s, DidFailToLoadData(LoadingError))
  }

  /** `requestNextQuestion`: the new state and the question delivered to the
      delegate, if any. `image` is the poster fetch (`None` when it throws). */
  function RequestStep(s: FactoryState, draws: Draws, image: Option<seq<byte>>, parseRank: string -> Option<real>)
    : (r: (FactoryState, Option<QuizQuestion>))
    requires ValidThreshold(draws.threshold)
    ensures r.0.movies == s.movies
    ensures s.movies == [] ==> r == (s, None)
    ensures ValidIndexDraw(|s.movies|, draws.index) && s.movies != [] ==>
              r.0.currentMovie == Some(s.movies[draws.index.value])
    ensures r.0.currentMovie == s.currentMovie || (r.0.currentMovie.Some? && r.0.currentMovie.value in s.movies)
    ensures r.1.Some? <==> SafeGet(s.movies, draws.index.GetOr(0)).Some? && image.Some?
    ensures r.1.Some? ==>
              && r.0.currentMovie.Some?
              && r.1.value == MakeQuestion(image.value, Rating(parseRank, r.0.currentMovie.value.rank),
                                           draws.threshold, draws.direction)
  {
    match SafeGet(s.movies, draws.index.GetOr(0))
    case None => (s, None)
    case Some(movie) =>
      var s' := s.(currentMovie := Some(movie));
      match image
      case None => (s', None)
      case Some(imageData) =>
        (s', Some(MakeQuestion(imageData, Rating(parseRank, movie.rank), draws.threshold, draws.direction)))
  }

  /** A failed poster fetch delivers nothing, yet the selected movie has
      already replaced `currentMovie`. */
  lemma ImageFailureKeepsSelection(s: FactoryState, draws: Draws, parseRank: string -> Option<real>)
    requires ValidThreshold(draws.threshold)
    requires ValidIndexDraw(|s.movies|, draws.index) && s.movies != []
    ensures RequestStep(s, draws, None, parseRank) == (s.(currentMovie := Some(s.movies[draws.index.value])), None)
  {
  }

  // ---------------------------------------------------------------------
  // The class

  class QuestionFactory {
    var movies: seq<Movie>
    var currentMovie: Option<Movie>

    /** The fields as a value. */
    function State(): FactoryState
      reads this
    {
      FactoryState(movies, currentMovie)
    }

    constructor ()
      ensures State() == Initial
    {
      movies := [];
      currentMovie := None;
    }

    /** `loadData()`, given what the awaited catalog load produced. */
    method LoadData<E>(outcome: Result<MostPopularMovies, E>) returns (notice: LoadNotice)
      modifies this
      ensures (State(), notice) == LoadStep(old(State()), outcome)
      ensures outcome.Success? ==> movies == outcome.value.items && notice == DidLoadDataFromServer
      ensures outcome.Failure? ==> movies == old(movies) && notice == DidFailToLoadData(LoadingError)
      ensures currentMovie == old(currentMovie)
    {
      if outcome.Success? {
        movies := outcome.value.items;
        notice := DidLoadDataFromServer;
      } else {
        notice := DidFailToLoadData(LoadingError);
      }
    }

    /** `requestNextQuestion()`, given its random draws, the outcome of the
        poster fetch and the rank parser. */
    method RequestNextQuestion(draws: Draws, image: Option<seq<byte>>, parseRank: string -> Option<real>)
      returns (question: Option<QuizQuestion>)
      requires ValidIndexDraw(|movies|, draws.index)
      requires ValidThreshold(draws.threshold)
      modifies this
      ensures (State(), question) == RequestStep(old(State()), draws, image, parseRank)
      ensures movies == old(movies)
      ensures old(movies) == [] ==> currentMovie == old(currentMovie) && question.None?
      ensures old(movies) != [] ==> draws.index.value < |movies| && currentMovie == Some(movies[draws.index.value])
      ensures question.Some? <==> old(movies) != [] && image.Some?
    {
      var index := if draws.index.Some? then draws.index.value else 0;
      var found := SafeGet(movies, index);
      if found.None? {
        return None;
      }
      var movie := found.value;
      currentMovie := Some(movie);
      var imageData: seq<byte> := [];
      if image.None? {
        return None;
      }
      imageData := image.value;
      var rating := Rating(parseRank, movie.rank);
      question := Some(MakeQuestion(imageData, rating, draws.threshold, draws.direction));
    }

    /** `provideTrailerLink()`: `""` when no movie is selected, `None` when
        the lookup of the selected movie's trailer fails (`loadTrailerLink`
        returns `None` for a thrown error), otherwise the link. */
    function ProvideTrailerLink(loadTrailerLink: string -> Option<string>): (link: Option<string>)
      reads this
      ensures currentMovie.None? ==> link == Some("")
      ensures link.None? <==> currentMovie.Some? && loadTrailerLink(currentMovie.value.id).None?
      ensures currentMovie.Some? ==> link == loadTrailerLink(currentMovie.value.id)
    {
      match currentMovie
      case None => Some("")
      case Some(movie) => loadTrailerLink(movie.id)
    }

    /** `getMovie()`: the movie behind the latest question. */
    function GetMovie(): (m: Option<Movie>)
      reads this
      ensures m == currentMovie
    {
      currentMovie
    }
  }

  /** A lookup that answers the selected movie with an empty link gives the
      same result as having no selection at all: the two cases cannot be
      told apart by the caller. */
  lemma EmptyLinkLooksLikeNoSelection(f: QuestionFactory, loadTrailerLink: string -> Option<string>)
    requires f.currentMovie.Some? && loadTrailerLink(f.currentMovie.value.id) == Some("")
    ensures f.ProvideTrailerLink(loadTrailerLink) == Some("")
    ensures forall g: QuestionFactory :: g.currentMovie.None? ==>
              g.ProvideTrailerLink(loadTrailerLink) == f.ProvideTrailerLink(loadTrailerLink)
  {
  }

  /** When the lookup never yields an empty link, the empty-string result
      means exactly "nothing selected" and the absent result means exactly
      "the lookup failed": the two sentinels cannot be confused. */
  lemma TrailerSentinelsDistinct(f: QuestionFactory, loadTrailerLink: string -> Option<string>)
    requires forall id :: loadTrailerLink(id) != Some("")
    ensures f.ProvideTrailerLink(loadTrailerLink) == Some("") <==> f.currentMovie.None?
    ensures f.ProvideTrailerLink(loadTrailerLink).None? <==>
              f.currentMovie.Some? && loadTrailerLink(f.currentMovie.value.id).None?
  {
  }
}
