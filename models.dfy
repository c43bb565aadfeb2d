/**
 * The catalogue's records (models/movie.go, models/allseries.go) and the
 * related entities as the join queries scan them.
 */
module Models {
  import opened Wrappers

  /** A genre as the richer queries scan it: g.id, g.title, g.poster_url. */
  datatype Genre = Genre(id: int, title: string, posterUrl: string)

  /** A category: c.id, c.title, c.poster_url. */
  datatype Category = Category(id: int, title: string, posterUrl: string)

  /** An age rating: a.id, a.age, a.poster_url. */
  datatype Age = Age(id: int, age: string, posterUrl: string)

  /** A role row of the plain movie listing: r.id, r.names_of_hero, r.names_of_actors. */
  datatype Role = Role(id: int, names: string, actors: string)

  /**
   * A series. Every column is nullable because the series is reached through
   * a left join; `id == None` means the movie has no series on that row.
   */
  datatype AllSeries = AllSeries(
    id: Option<int>,
    series: Option<int>,
    title: Option<string>,
    description: Option<string>,
    releaseYear: Option<int>,
    director: Option<string>,
    rating: Option<int>,
    trailerUrl: Option<string>)

  /** The scalar columns of a movie (one row of the `movies` table). */
  datatype MovieInfo = MovieInfo(
    id: int,
    title: string,
    description: string,
    releaseYear: int,
    director: string,
    rating: int,
    isWatched: bool,
    trailerUrl: string,
    posterUrl: string)

  /** A movie aggregate: its scalar columns and the related lists the folds fill in. */
  datatype Movie = Movie(
    info: MovieInfo,
    genres: seq<Genre>,
    categories: seq<Category>,
    ages: seq<Age>,
    allSeries: seq<AllSeries>,
    roles: seq<Role>)

  /** The listing filters; every field is the raw query-string text. */
  datatype MovieFilters = MovieFilters(searchTerm: string, genreId: string, isWatched: string, sort: string)

  /** The error a database call, a scan or a lookup reports. */
  datatype Error =
    | DbError(message: string)
    | NilDereference   // the single-movie folds read through a nil pointer when no row came back
    | NoRows           // a single-row query found no row (pgx.ErrNoRows)
    | NotFound(message: string)   // an in-memory lookup missed

  /** A movie with the given columns and every related list empty (nil in Go). */
  function NewMovie(info: MovieInfo): Movie {
    Movie(info, [], [], [], [], [])
  }

  // Identity keys used for de-duplication.
  function GenreKey(g: Genre): int { g.id }
  function CategoryKey(c: Category): int { c.id }
  function AgeKey(a: Age): int { a.id }
  function RoleKey(r: Role): int { r.id }
  function MovieKey(m: Movie): int { m.info.id }
  /** A series key; only consulted on series whose id is not nil. */
  function AllSeriesKey(s: AllSeries): int { s.id.GetOr(0) }
}
