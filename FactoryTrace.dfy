/** Runs of the question factory: a sequence of `loadData` and
    `requestNextQuestion` calls, each completed before the next starts,
    applied with the step functions that specify the class's methods.
    The lemmas here say what holds after any such run. */
module FactoryTrace {
  import opened Types
  import opened Factory

  /** One call on the factory, with everything it receives from outside. */
  datatype Event<+E> =
    | Load(outcome: Result<MostPopularMovies, E>)
    | Request(draws: Draws, image: Option<seq<byte>>)

  /** A request's threshold was drawn from 6...8. */
  predicate Drawable<E>(e: Event<E>) {
    e.Request? ==> ValidThreshold(e.draws.threshold)
  }

  predicate WellFormed<E>(evs: seq<Event<E>>) {
    forall i :: 0 <= i < |evs| ==> Drawable(evs[i])
  }

  /** One call: the new state and the question it delivers, if any. */
  function Step<E>(s: FactoryState, e: Event<E>, parseRank: string -> Option<real>): (FactoryState, Option<QuizQuestion>)
    requires Drawable(e)
  {
    match e
    case Load(outcome) => (LoadStep(s, outcome).0, None)
    case Request(draws, image) => RequestStep(s, draws, image, parseRank)
  }

  function AsSeq<T>(o: Option<T>): seq<T> {
    match o
    case None => []
    case Some(x) => [x]
  }

  /** The final state of a run and the questions delivered, in order. */
  function Run<E>(s: FactoryState, evs: seq<Event<E>>, parseRank: string -> Option<real>): (FactoryState, seq<QuizQuestion>)
    requires WellFormed(evs)
    decreases |evs|
  {
    if evs == [] then (s, [])
    else
      var first := Step(s, evs[0], parseRank);
      var rest := Run(first.0, evs[1..], parseRank);
      (rest.0, AsSeq(first.1) + rest.1)
  }

  predicate SuccessfulLoad<E>(e: Event<E>) {
    e.Load? && e.outcome.Success?
  }

  /** The catalog of the last successful load of a run, read from its end;
      `before` when no load succeeded. */
  function LastLoaded<E>(before: seq<Movie>, evs: seq<Event<E>>): seq<Movie>
    decreases |evs|
  {
    if evs == [] then before
    else
      var e := evs[|evs| - 1];
      if SuccessfulLoad(e) then e.outcome.value.items
      else LastLoaded(before, evs[..|evs| - 1])
  }

  /** Running one more call after a run continues from the run's state. */
  lemma {:induction false} RunSnoc<E>(s: FactoryState, evs: seq<Event<E>>, e: Event<E>, parseRank: string -> Option<real>)
    requires WellFormed(evs) && Drawable(e)
    ensures WellFormed(evs + [e])
    ensures var before := Run(s, evs, parseRank);
            var last := Step(before.0, e, parseRank);
            Run(s, evs + [e], parseRank) == (last.0, before.1 + AsSeq(last.1))
    decreases |evs|
  {
    var xs := evs + [e];
    assert forall i :: 0 <= i < |evs| ==> xs[i] == evs[i];
    assert xs[|evs|] == e;
    if evs == [] {
      var last := Step(s, e, parseRank);
      assert xs[1..] == [];
      assert Run(s, xs, parseRank) == (last.0, AsSeq(last.1) + []);
      assert AsSeq(last.1) + [] == [] + AsSeq(last.1);
    } else {
      var first := Step(s, evs[0], parseRank);
      assert xs[1..] == evs[1..] + [e];
      RunSnoc(first.0, evs[1..], e, parseRank);
      var mid := Run(first.0, evs[1..], parseRank);
      var last := Step(mid.0, e, parseRank);
      assert Run(s, evs, parseRank) == (mid.0, AsSeq(first.1) + mid.1);
      assert Run(s, xs, parseRank) == (last.0, AsSeq(first.1) + (mid.1 + AsSeq(last.1)));
      assert AsSeq(first.1) + (mid.1 + AsSeq(last.1)) == (AsSeq(first.1) + mid.1) + AsSeq(last.1);
    }
  }

  /** After any run the catalog is exactly the one from the last successful
      load: a failed load never disturbs it and a request never touches it. */
  lemma {:induction false} MoviesAreLastLoad<E>(s: FactoryState, evs: seq<Event<E>>, parseRank: string -> Option<real>)
    requires WellFormed(evs)
    ensures Run(s, evs, parseRank).0.movies == LastLoaded(s.movies, evs)
    decreases |evs|
  {
    if evs != [] {
      var init, e := evs[..|evs| - 1], evs[|evs| - 1];
      assert evs == init + [e];
      RunSnoc(s, init, e, parseRank);
      MoviesAreLastLoad(s, init, parseRank);
    }
  }

  /** Until some load succeeds, a factory with an empty catalog stays exactly
      as it was and delivers no question. */
  lemma {:induction false} NothingBeforeFirstLoad<E>(s: FactoryState, evs: seq<Event<E>>, parseRank: string -> Option<real>)
    requires WellFormed(evs)
    requires s.movies == []
    requires forall i :: 0 <= i < |evs| ==> !SuccessfulLoad(evs[i])
    ensures Run(s, evs, parseRank) == (s, [])
    decreases |evs|
  {
    if evs != [] {
      assert Step(s, evs[0], parseRank) == (s, None);
      NothingBeforeFirstLoad(s, evs[1..], parseRank);
      assert AsSeq<QuizQuestion>(None) + [] == [];
    }
  }

  /** Some successful load of the run listed movie `m`. */
  ghost predicate Supplied<E>(m: Movie, evs: seq<Event<E>>) {
    exists i :: 0 <= i < |evs| && Supplies(evs[i], m)
  }

  predicate Supplies<E>(e: Event<E>, m: Movie) {
    SuccessfulLoad(e) && m in e.outcome.value.items
  }

  /** Every movie in the catalog after a run, and the selected movie unless
      it is the one selected before, was in the catalog at the start or came
      from one of the run's successful loads. */
  lemma {:induction false} Provenance<E>(s: FactoryState, evs: seq<Event<E>>, parseRank: string -> Option<real>)
    requires WellFormed(evs)
    ensures forall m :: m in Run(s, evs, parseRank).0.movies ==> m in s.movies || Supplied(m, evs)
    ensures var c := Run(s, evs, parseRank).0.currentMovie;
            c == s.currentMovie || (c.Some? && (c.value in s.movies || Supplied(c.value, evs)))
    decreases |evs|
  {
    if evs != [] {
      var s1 := Step(s, evs[0], parseRank).0;
      var rest := evs[1..];
      Provenance(s1, rest, parseRank);
      assert Run(s, evs, parseRank).0 == Run(s1, rest, parseRank).0;
      forall m | Supplied(m, rest) ensures Supplied(m, evs) {
        var i :| 0 <= i < |rest| && Supplies(rest[i], m);
        assert Supplies(evs[i + 1], m);
      }
      forall m | m in s1.movies ensures m in s.movies || Supplied(m, evs) {
        if m !in s.movies {
          assert Supplies(evs[0], m);
        }
      }
    }
  }

  /** Starting from a fresh factory, the movie `getMovie()` returns after any
      run is one that a successful load of that run delivered. */
  lemma SelectionComesFromLoad<E>(evs: seq<Event<E>>, parseRank: string -> Option<real>)
    requires WellFormed(evs)
    ensures var c := Run(Initial, evs, parseRank).0.currentMovie;
            c.Some? ==> Supplied(c.value, evs)
  {
    Provenance(Initial, evs, parseRank);
  }
}
