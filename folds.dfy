/**
 * The `for rows.Next()` loops of the movie read paths, written as loops,
 * each proved to compute the reference definition of the Aggregator module.
 *
 * The single-movie loops keep one list and one "seen" set per related kind
 * (the Go code keeps a map from id to element, whose values are never read,
 * so only its key set is modelled). The listing loops keep the movies in
 * first-seen order together with `index`, the map from movie id to the
 * position of its aggregate: the Go map holds pointers into the same slice,
 * so updating "through the map" is updating the slice at that position.
 */
module Folds {
  import opened Wrappers
  import opened Models
  import opened Seqs
  import opened Rows
  import opened Aggregator

  /** The inner `for ... range ... { if existing.Id == id { exists = true; break } }` scan. */
  method Contains<A>(xs: seq<A>, key: A -> int, k: int) returns (found: bool)
    ensures found <==> k in Keys(xs, key)
  {
    found := false;
    var i := 0;
    while i < |xs|
      invariant 0 <= i <= |xs|
      invariant k !in Keys(xs[..i], key)
    {
      KeysSnoc(xs[..i], xs[i], key);
      assert xs[..i + 1] == xs[..i] + [xs[i]];
      if key(xs[i]) == k {
        found := true;
        break;
      }
      i := i + 1;
    }
    if found {
      KeysAt(xs, key, k);
    } else {
      assert xs[..i] == xs;
    }
  }

  /** One "add unless its id was seen" step, with the seen set kept beside the list. */
  method AddUnseen<A>(xs: seq<A>, seen: set<int>, x: A, key: A -> int) returns (xs': seq<A>, seen': set<int>)
    requires seen == Keys(xs, key)
    ensures xs' == AddNew(xs, x, key)
    ensures seen' == Keys(xs', key) && seen' == seen + {key(x)}
  {
    xs', seen' := xs, seen;
    if key(x) !in seen {
      seen' := seen + {key(x)};
      xs' := xs + [x];
      KeysSnoc(xs, x, key);
    }
  }

  /**
   * The category, genre and age steps of a single-movie loop iteration, each
   * list kept with the key set of the Go map beside it.
   */
  method CollectRelated<X>(genres: seq<Genre>, genresSeen: set<int>,
                           categories: seq<Category>, categoriesSeen: set<int>,
                           ages: seq<Age>, agesSeen: set<int>, row: Row<X>, ghost rows: seq<Row<X>>)
    returns (genres': seq<Genre>, genresSeen': set<int>,
             categories': seq<Category>, categoriesSeen': set<int>,
             ages': seq<Age>, agesSeen': set<int>)
    requires genres == Dedup(Map(rows, GenreOf), GenreKey) && genresSeen == Keys(genres, GenreKey)
    requires categories == Dedup(Map(rows, CategoryOf), CategoryKey) && categoriesSeen == Keys(categories, CategoryKey)
    requires ages == Dedup(Map(rows, AgeOf), AgeKey) && agesSeen == Keys(ages, AgeKey)
    ensures genres' == Dedup(Map(rows + [row], GenreOf), GenreKey) && genresSeen' == Keys(genres', GenreKey)
    ensures categories' == Dedup(Map(rows + [row], CategoryOf), CategoryKey) && categoriesSeen' == Keys(categories', CategoryKey)
    ensures ages' == Dedup(Map(rows + [row], AgeOf), AgeKey) && agesSeen' == Keys(ages', AgeKey)
  {
    GatherSnoc(row.info, rows, row);
    categories', categoriesSeen' := AddUnseen(categories, categoriesSeen, row.category, CategoryKey);
    genres', genresSeen' := AddUnseen(genres, genresSeen, row.genre, GenreKey);
    ages', agesSeen' := AddUnseen(ages, agesSeen, row.age, AgeKey);
  }

  /** The loop state of the admin single-movie read after the rows `rows`. */
  ghost predicate CollectedWithSeries(rows: seq<SeriesRow>, movie: Option<MovieInfo>,
                                      genres: seq<Genre>, genresSeen: set<int>,
                                      categories: seq<Category>, categoriesSeen: set<int>,
                                      ages: seq<Age>, agesSeen: set<int>,
                                      series: seq<AllSeries>, seriesSeen: set<int>) {
    && movie == (if rows == [] then None else Some(rows[0].info))
    && genres == Dedup(Map(rows, GenreOf), GenreKey) && genresSeen == Keys(genres, GenreKey)
    && categories == Dedup(Map(rows, CategoryOf), CategoryKey) && categoriesSeen == Keys(categories, CategoryKey)
    && ages == Dedup(Map(rows, AgeOf), AgeKey) && agesSeen == Keys(ages, AgeKey)
    && series == SeriesOfRows(rows) && seriesSeen == Keys(series, AllSeriesKey)
  }

  /** One iteration of the admin single-movie loop on a scanned row. */
  method AbsorbWithSeries(movie: Option<MovieInfo>,
                          genres: seq<Genre>, genresSeen: set<int>,
                          categories: seq<Category>, categoriesSeen: set<int>,
                          ages: seq<Age>, agesSeen: set<int>,
                          series: seq<AllSeries>, seriesSeen: set<int>,
                          row: SeriesRow, ghost rows: seq<SeriesRow>)
    returns (movie': Option<MovieInfo>,
             genres': seq<Genre>, genresSeen': set<int>,
             categories': seq<Category>, categoriesSeen': set<int>,
             ages': seq<Age>, agesSeen': set<int>,
             series': seq<AllSeries>, seriesSeen': set<int>)
    requires CollectedWithSeries(rows, movie, genres, genresSeen, categories, categoriesSeen,
                                 ages, agesSeen, series, seriesSeen)
    ensures CollectedWithSeries(rows + [row], movie', genres', genresSeen', categories', categoriesSeen',
                                ages', agesSeen', series', seriesSeen')
  {
    movie' := movie;
    if movie'.None? {
      movie' := Some(row.info);
    }
    genres', genresSeen', categories', categoriesSeen', ages', agesSeen' :=
      CollectRelated(genres, genresSeen, categories, categoriesSeen, ages, agesSeen, row, rows);
    SeriesOfRowsSnoc(rows, row);
    series', seriesSeen' := series, seriesSeen;
    if row.extra.id.Some? {
      series', seriesSeen' := AddUnseen(series, seriesSeen, row.extra, AllSeriesKey);
    }
  }

  /**
   * The admin single-movie read (moviesAdminRepository.go FindById): the
   * first row fixes the scalar columns; categories, genres, ages and non-nil
   * series are collected first-seen by id; zero rows end in a nil dereference.
   */
  method FoldOneWithSeries(c: Cursor<SeriesRow>) returns (r: Result<Movie, Error>)
    ensures r == FindOneWithSeries(c)
  {
    if c.QueryFailed? {
      return Failure(c.err);
    }
    var scans := c.scans;
    var movie: Option<MovieInfo> := None;
    var genres: seq<Genre>, categories: seq<Category>, ages: seq<Age>, series: seq<AllSeries> := [], [], [], [];
    var genresSeen: set<int>, categoriesSeen: set<int>, agesSeen: set<int>, seriesSeen: set<int> := {}, {}, {}, {};
    ghost var rows: seq<SeriesRow> := [];
    var i := 0;
    while i < |scans|
      invariant 0 <= i <= |scans|
      invariant Decode(scans[..i]) == Success(rows)
      invariant CollectedWithSeries(rows, movie, genres, genresSeen, categories, categoriesSeen,
                                    ages, agesSeen, series, seriesSeen)
    {
      var s := scans[i];
      if s.ScanFailed? {
        DecodeStops(scans, i, rows);
        return Failure(s.err);
      }
      DecodeNext(scans, i, rows);
      movie, genres, genresSeen, categories, categoriesSeen, ages, agesSeen, series, seriesSeen :=
        AbsorbWithSeries(movie, genres, genresSeen, categories, categoriesSeen, ages, agesSeen,
                         series, seriesSeen, s.row, rows);
      rows := rows + [s.row];
      i := i + 1;
    }
    assert scans[..i] == scans;
    if c.rowsErr.Some? {
      return Failure(c.rowsErr.value);
    }
    if movie.None? {
      return Failure(NilDereference);
    }
    return Success(Movie(movie.value, genres, categories, ages, series, []));
  }

  /** The loop state of the plain single-movie read after the rows `rows`. */
  ghost predicate Collected(rows: seq<PlainRow>, movie: Option<MovieInfo>,
                            genres: seq<Genre>, genresSeen: set<int>,
                            categories: seq<Category>, categoriesSeen: set<int>,
                            ages: seq<Age>, agesSeen: set<int>) {
    && movie == (if rows == [] then None else Some(rows[0].info))
    && genres == Dedup(Map(rows, GenreOf), GenreKey) && genresSeen == Keys(genres, GenreKey)
    && categories == Dedup(Map(rows, CategoryOf), CategoryKey) && categoriesSeen == Keys(categories, CategoryKey)
    && ages == Dedup(Map(rows, AgeOf), AgeKey) && agesSeen == Keys(ages, AgeKey)
  }

  /** One iteration of the plain single-movie loop on a scanned row. */
  method Absorb(movie: Option<MovieInfo>,
                genres: seq<Genre>, genresSeen: set<int>,
                categories: seq<Category>, categoriesSeen: set<int>,
                ages: seq<Age>, agesSeen: set<int>,
                row: PlainRow, ghost rows: seq<PlainRow>)
    returns (movie': Option<MovieInfo>,
             genres': seq<Genre>, genresSeen': set<int>,
             categories': seq<Category>, categoriesSeen': set<int>,
             ages': seq<Age>, agesSeen': set<int>)
    requires Collected(rows, movie, genres, genresSeen, categories, categoriesSeen, ages, agesSeen)
    ensures Collected(rows + [row], movie', genres', genresSeen', categories', categoriesSeen', ages', agesSeen')
  {
    movie' := movie;
    if movie'.None? {
      movie' := Some(row.info);
    }
    genres', genresSeen', categories', categoriesSeen', ages', agesSeen' :=
      CollectRelated(genres, genresSeen, categories, categoriesSeen, ages, agesSeen, row, rows);
  }

  /**
   * The plain single-movie read (moviesRepository.go FindById): the same
   * loop without series.
   */
  method FoldOne(c: Cursor<PlainRow>) returns (r: Result<Movie, Error>)
    ensures r == FindOne(c)
  {
    if c.QueryFailed? {
      return Failure(c.err);
    }
    var scans := c.scans;
    var movie: Option<MovieInfo> := None;
    var genres: seq<Genre>, categories: seq<Category>, ages: seq<Age> := [], [], [];
    var genresSeen: set<int>, categoriesSeen: set<int>, agesSeen: set<int> := {}, {}, {};
    ghost var rows: seq<PlainRow> := [];
    var i := 0;
    while i < |scans|
      invariant 0 <= i <= |scans|
      invariant Decode(scans[..i]) == Success(rows)
      invariant Collected(rows, movie, genres, genresSeen, categories, categoriesSeen, ages, agesSeen)
    {
      var s := scans[i];
      if s.ScanFailed? {
        DecodeStops(scans, i, rows);
        return Failure(s.err);
      }
      DecodeNext(scans, i, rows);
      movie, genres, genresSeen, categories, categoriesSeen, ages, agesSeen :=
        Absorb(movie, genres, genresSeen, categories, categoriesSeen, ages, agesSeen, s.row, rows);
      rows := rows + [s.row];
      i := i + 1;
    }
    assert scans[..i] == scans;
    if c.rowsErr.Some? {
      return Failure(c.rowsErr.value);
    }
    if movie.None? {
      return Failure(NilDereference);
    }
    return Success(Movie(movie.value, genres, categories, ages, [], []));
  }

  /** `index` maps each movie id of `movies` to its position, and nothing else. */
  ghost predicate Indexed(movies: seq<Movie>, index: map<int, nat>) {
    && (forall k :: k in index ==> index[k] < |movies| && movies[index[k]].info.id == k)
    && (forall j :: 0 <= j < |movies| ==> movies[j].info.id in index && index[movies[j].info.id] == j)
  }

  /** The related lists of one movie aggregate, grown by one row's genre, category and age. */
  method AddRelatedLinear<X>(m: Movie, row: Row<X>) returns (m': Movie)
    ensures m' == AddRelated(m, row)
  {
    m' := m;
    var genreExists := Contains(m'.genres, GenreKey, row.genre.id);
    if !genreExists {
      m' := m'.(genres := m'.genres + [row.genre]);
    }
    var categoryExists := Contains(m'.categories, CategoryKey, row.category.id);
    if !categoryExists {
      m' := m'.(categories := m'.categories + [row.category]);
    }
    var ageExists := Contains(m'.ages, AgeKey, row.age.id);
    if !ageExists {
      m' := m'.(ages := m'.ages + [row.age]);
    }
  }

  /**
   * One iteration of the admin listing loop on a scanned row: register the
   * movie when its id is new, extend its related lists, attach the row's
   * series when its id was never seen in the whole result.
   */
  method AbsorbListingRow(movies: seq<Movie>, index: map<int, nat>, seriesSeen: set<int>, row: SeriesRow)
    returns (movies': seq<Movie>, index': map<int, nat>, seriesSeen': set<int>)
    requires Indexed(movies, index)
    ensures movies' == StepWithSeries(movies, row.info.id !in index, row, seriesSeen)
    ensures Indexed(movies', index') && index'.Keys == index.Keys + {row.info.id}
    ensures seriesSeen' == if HasSeries(row) then seriesSeen + {SeriesKey(row)} else seriesSeen
  {
    var id := row.info.id;
    var grown, grownIndex := movies, index;
    if id !in index {
      grownIndex := index[id := |movies|];
      grown := movies + [NewMovie(row.info)];
    }
    var p := grownIndex[id];
    var m := AddRelatedLinear(grown[p], row);
    seriesSeen' := seriesSeen;
    if row.extra.id.Some? {
      var key := row.extra.id.value;
      if key !in seriesSeen {
        seriesSeen' := seriesSeen + {key};
        m := m.(allSeries := m.allSeries + [row.extra]);
      }
    }
    assert m == AbsorbSeries(grown[p], row, seriesSeen);
    movies', index' := grown[p := m], grownIndex;
    forall j | 0 <= j < |grown| && j != p
      ensures grown[j].info.id != id
    {
      assert grownIndex[grown[j].info.id] == j;
    }
  }

  /** One iteration of the plain listing loop on a scanned row. */
  method AbsorbListingRoleRow(movies: seq<Movie>, index: map<int, nat>, row: RoleRow)
    returns (movies': seq<Movie>, index': map<int, nat>)
    requires Indexed(movies, index)
    ensures movies' == StepWithRoles(movies, row.info.id !in index, row)
    ensures Indexed(movies', index') && index'.Keys == index.Keys + {row.info.id}
  {
    var id := row.info.id;
    var grown, grownIndex := movies, index;
    if id !in index {
      grownIndex := index[id := |movies|];
      grown := movies + [NewMovie(row.info)];
    }
    var p := grownIndex[id];
    var m := AddRelatedLinear(grown[p], row);
    var roleExists := Contains(m.roles, RoleKey, row.extra.id);
    if !roleExists {
      m := m.(roles := m.roles + [row.extra]);
    }
    assert m == AbsorbRole(grown[p], row);
    movies', index' := grown[p := m], grownIndex;
    forall j | 0 <= j < |grown| && j != p
      ensures grown[j].info.id != id
    {
      assert grownIndex[grown[j].info.id] == j;
    }
  }

  /**
   * The admin listing and the selected list (moviesAdminRepository.go
   * FindAll, selectedRepository.go GetMoviesFromSelectedlist): one aggregate
   * per movie id in first-seen order, related lists de-duplicated per movie
   * by linear scan, series de-duplicated across the whole result.
   */
  method FoldAllWithSeries(c: Cursor<SeriesRow>) returns (r: Result<seq<Movie>, Error>)
    ensures r == FindAllWithSeries(c)
  {
    if c.QueryFailed? {
      return Failure(c.err);
    }
    var scans := c.scans;
    var movies: seq<Movie> := [];
    var index: map<int, nat> := map[];
    var seriesSeen: set<int> := {};
    ghost var rows: seq<SeriesRow> := [];
    var i := 0;
    while i < |scans|
      invariant 0 <= i <= |scans|
      invariant Decode(scans[..i]) == Success(rows)
      invariant movies == AggregateWithSeries(rows)
      invariant Indexed(movies, index) && index.Keys == Keys(rows, MovieId)
      invariant seriesSeen == SeenSeries(rows)
    {
      var s := scans[i];
      if s.ScanFailed? {
        DecodeStops(scans, i, rows);
        return Failure(s.err);
      }
      DecodeNext(scans, i, rows);
      AggregateWithSeriesSnoc(rows, s.row);
      SeenSeriesSnoc(rows, s.row);
      KeysSnoc(rows, s.row, MovieId);
      movies, index, seriesSeen := AbsorbListingRow(movies, index, seriesSeen, s.row);
      rows := rows + [s.row];
      i := i + 1;
    }
    assert scans[..i] == scans;
    if c.rowsErr.Some? {
      return Failure(c.rowsErr.value);
    }
    return Success(movies);
  }

  /**
   * The plain listing (moviesRepository.go FindAll): as above, with roles
   * de-duplicated per movie in place of series.
   */
  method FoldAllWithRoles(c: Cursor<RoleRow>) returns (r: Result<seq<Movie>, Error>)
    ensures r == FindAllWithRoles(c)
  {
    if c.QueryFailed? {
      return Failure(c.err);
    }
    var scans := c.scans;
    var movies: seq<Movie> := [];
    var index: map<int, nat> := map[];
    ghost var rows: seq<RoleRow> := [];
    var i := 0;
    while i < |scans|
      invariant 0 <= i <= |scans|
      invariant Decode(scans[..i]) == Success(rows)
      invariant movies == AggregateWithRoles(rows)
      invariant Indexed(movies, index) && index.Keys == Keys(rows, MovieId)
    {
      var s := scans[i];
      if s.ScanFailed? {
        DecodeStops(scans, i, rows);
        return Failure(s.err);
      }
      DecodeNext(scans, i, rows);
      AggregateWithRolesSnoc(rows, s.row);
      KeysSnoc(rows, s.row, MovieId);
      movies, index := AbsorbListingRoleRow(movies, index, s.row);
      rows := rows + [s.row];
      i := i + 1;
    }
    assert scans[..i] == scans;
    if c.rowsErr.Some? {
      return Failure(c.rowsErr.value);
    }
    return Success(movies);
  }
}
