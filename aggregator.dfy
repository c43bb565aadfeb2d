/**
 * The row aggregator: what the `for rows.Next()` loops of the movie read
 * paths build out of flat join rows.
 *
 * The functions below are reference definitions stated without the loops'
 * bookkeeping (no maps, no positions): a movie's related lists are the
 * first-seen de-duplication of the values its rows carry. The loop methods
 * in this module are proved to compute exactly these values, and the
 * properties the read paths promise are proved as lemmas about them.
 */
module Aggregator {
  import opened Wrappers
  import opened Models
  import opened Seqs
  import opened Rows

  // ---------------------------------------------------------------------
  // Reference definitions
  // ---------------------------------------------------------------------

  /** A movie with the given columns whose genres, categories and ages are those of `rows`, first-seen by id. */
  function Gather<X>(info: MovieInfo, rows: seq<Row<X>>): Movie {
    Movie(info,
      Dedup(Map(rows, GenreOf), GenreKey),
      Dedup(Map(rows, CategoryOf), CategoryKey),
      Dedup(Map(rows, AgeOf), AgeKey),
      [], [])
  }

  /** The non-nil series of `rows`, first-seen by series id (one movie's rows). */
  function SeriesOfRows(rows: seq<SeriesRow>): seq<AllSeries> {
    Dedup(Map(Filter(rows, HasSeries), SeriesOf), AllSeriesKey)
  }

  /** The single-movie fold with a series column: scalars of the first row. */
  function CollapseWithSeries(rows: seq<SeriesRow>): Movie
    requires |rows| > 0
  {
    Gather(rows[0].info, rows).(allSeries := SeriesOfRows(rows))
  }

  /** The single-movie fold without extra columns. */
  function Collapse(rows: seq<PlainRow>): Movie
    requires |rows| > 0
  {
    Gather(rows[0].info, rows)
  }

  /**
   * For every non-nil series id, the first row (over ALL movies) that
   * carries it: the series de-duplication of the listings is global.
   */
  function SeriesHeads(rows: seq<SeriesRow>): seq<SeriesRow> {
    Dedup(Filter(rows, HasSeries), SeriesKey)
  }

  /** The non-nil series ids seen in `rows` (the keys of `allseriesMap`). */
  function SeenSeries(rows: seq<SeriesRow>): set<int> {
    Keys(Filter(rows, HasSeries), SeriesKey)
  }

  /**
   * The aggregate of the movie whose first row is `h`: its own rows give the
   * genres, categories and ages; a series is attached when this movie's row
   * is the first row of that series id anywhere in the result.
   */
  function MovieWithSeries(rows: seq<SeriesRow>, heads: seq<SeriesRow>, h: SeriesRow): Movie {
    Gather(h.info, Select(rows, MovieId, h.info.id))
      .(allSeries := Map(Select(heads, MovieId, h.info.id), SeriesOf))
  }

  /** The listing fold with a series column: one aggregate per movie id, in first-seen order. */
  function AggregateWithSeries(rows: seq<SeriesRow>): seq<Movie> {
    var firsts := Dedup(rows, MovieId);
    var heads := SeriesHeads(rows);
    seq(|firsts|, i requires 0 <= i < |firsts| => MovieWithSeries(rows, heads, firsts[i]))
  }

  /** The aggregate of the movie whose first row is `h`, with its roles first-seen by id. */
  function MovieWithRoles(rows: seq<RoleRow>, h: RoleRow): Movie {
    var own := Select(rows, MovieId, h.info.id);
    Gather(h.info, own).(roles := Dedup(Map(own, RoleOf), RoleKey))
  }

  /** The listing fold with a role column. */
  function AggregateWithRoles(rows: seq<RoleRow>): seq<Movie> {
    var firsts := Dedup(rows, MovieId);
    seq(|firsts|, i requires 0 <= i < |firsts| => MovieWithRoles(rows, firsts[i]))
  }

  /** What a single-movie read with a series column returns for a cursor. */
  function FindOneWithSeries(c: Cursor<SeriesRow>): Result<Movie, Error> {
    match Fetched(c)
    case Failure(e) => Failure(e)
    case Success(rows) => if rows == [] then Failure(NilDereference) else Success(CollapseWithSeries(rows))
  }

  /** What the plain single-movie read returns for a cursor. */
  function FindOne(c: Cursor<PlainRow>): Result<Movie, Error> {
    match Fetched(c)
    case Failure(e) => Failure(e)
    case Success(rows) => if rows == [] then Failure(NilDereference) else Success(Collapse(rows))
  }

  /** What a listing with a series column returns for a cursor. */
  function FindAllWithSeries(c: Cursor<SeriesRow>): Result<seq<Movie>, Error> {
    match Fetched(c)
    case Failure(e) => Failure(e)
    case Success(rows) => Success(AggregateWithSeries(rows))
  }

  /** What the plain listing returns for a cursor. */
  function FindAllWithRoles(c: Cursor<RoleRow>): Result<seq<Movie>, Error> {
    match Fetched(c)
    case Failure(e) => Failure(e)
    case Success(rows) => Success(AggregateWithRoles(rows))
  }

  // ---------------------------------------------------------------------
  // One row at a time
  // ---------------------------------------------------------------------

  /** One loop iteration on a movie: add the row's genre, category and age unless their ids are present. */
  function AddRelated<X>(m: Movie, r: Row<X>): Movie {
    m.(genres := AddNew(m.genres, r.genre, GenreKey),
       categories := AddNew(m.categories, r.category, CategoryKey),
       ages := AddNew(m.ages, r.age, AgeKey))
  }

  lemma GatherSnoc<X>(info: MovieInfo, rows: seq<Row<X>>, r: Row<X>)
    ensures Gather(info, rows + [r]) == AddRelated(Gather(info, rows), r)
  {
    MapSnoc(rows, r, GenreOf);
    MapSnoc(rows, r, CategoryOf);
    MapSnoc(rows, r, AgeOf);
    DedupSnoc(Map(rows, GenreOf), r.genre, GenreKey);
    DedupSnoc(Map(rows, CategoryOf), r.category, CategoryKey);
    DedupSnoc(Map(rows, AgeOf), r.age, AgeKey);
  }

  lemma SeriesHeadsSnoc(rows: seq<SeriesRow>, r: SeriesRow)
    ensures SeriesHeads(rows + [r]) ==
      if HasSeries(r) && SeriesKey(r) !in SeenSeries(rows) then SeriesHeads(rows) + [r] else SeriesHeads(rows)
  {
    FilterSnoc(rows, r, HasSeries);
    if HasSeries(r) {
      DedupSnoc(Filter(rows, HasSeries), r, SeriesKey);
      DedupKeys(Filter(rows, HasSeries), SeriesKey);
    }
  }

  lemma SeenSeriesSnoc(rows: seq<SeriesRow>, r: SeriesRow)
    ensures SeenSeries(rows + [r]) == if HasSeries(r) then SeenSeries(rows) + {SeriesKey(r)} else SeenSeries(rows)
  {
    FilterSnoc(rows, r, HasSeries);
    if HasSeries(r) {
      KeysSnoc(Filter(rows, HasSeries), r, SeriesKey);
    }
  }

  lemma SeriesOfRowsSnoc(rows: seq<SeriesRow>, r: SeriesRow)
    ensures SeriesOfRows(rows + [r]) ==
      if HasSeries(r) then AddNew(SeriesOfRows(rows), r.extra, AllSeriesKey) else SeriesOfRows(rows)
  {
    FilterSnoc(rows, r, HasSeries);
    if HasSeries(r) {
      MapSnoc(Filter(rows, HasSeries), r, SeriesOf);
      DedupSnoc(Map(Filter(rows, HasSeries), SeriesOf), r.extra, AllSeriesKey);
    }
  }

  /** One listing iteration on the movie a row belongs to, `seen` being the series ids met so far. */
  function AbsorbSeries(m: Movie, r: SeriesRow, seen: set<int>): Movie {
    AddRelated(m, r).(allSeries :=
      if HasSeries(r) && SeriesKey(r) !in seen then m.allSeries + [r.extra] else m.allSeries)
  }

  /** One listing iteration on the movie a row belongs to (role column). */
  function AbsorbRole(m: Movie, r: RoleRow): Movie {
    AddRelated(m, r).(roles := AddNew(m.roles, r.extra, RoleKey))
  }

  /** A movie's aggregate changes only when the new row is its own, and then by one iteration. */
  lemma MovieWithSeriesSnoc(rows: seq<SeriesRow>, r: SeriesRow, h: SeriesRow)
    ensures MovieWithSeries(rows + [r], SeriesHeads(rows + [r]), h) ==
      if h.info.id == r.info.id
      then AbsorbSeries(MovieWithSeries(rows, SeriesHeads(rows), h), r, SeenSeries(rows))
      else MovieWithSeries(rows, SeriesHeads(rows), h)
  {
    var k := h.info.id;
    var heads := SeriesHeads(rows);
    SeriesHeadsSnoc(rows, r);
    SelectSnoc(rows, r, MovieId, k);
    SelectSnoc(heads, r, MovieId, k);
    MapSnoc(Select(heads, MovieId, k), r, SeriesOf);
    GatherSnoc(h.info, Select(rows, MovieId, k), r);
  }

  lemma MovieWithRolesSnoc(rows: seq<RoleRow>, r: RoleRow, h: RoleRow)
    ensures MovieWithRoles(rows + [r], h) ==
      if h.info.id == r.info.id then AbsorbRole(MovieWithRoles(rows, h), r) else MovieWithRoles(rows, h)
  {
    var k := h.info.id;
    SelectSnoc(rows, r, MovieId, k);
    var own := Select(rows, MovieId, k);
    MapSnoc(own, r, RoleOf);
    DedupSnoc(Map(own, RoleOf), r.extra, RoleKey);
    GatherSnoc(h.info, own, r);
  }

  /** A movie id no row carries yields an aggregate with nothing attached. */
  lemma MovieWithSeriesAbsent(rows: seq<SeriesRow>, h: SeriesRow)
    requires h.info.id !in Keys(rows, MovieId)
    ensures MovieWithSeries(rows, SeriesHeads(rows), h) == NewMovie(h.info)
  {
    var k := h.info.id;
    SelectAbsent(rows, MovieId, k);
    FilterKeys(rows, HasSeries, MovieId);
    DedupOtherKeys(Filter(rows, HasSeries), SeriesKey, MovieId);
    SelectAbsent(SeriesHeads(rows), MovieId, k);
  }

  lemma MovieWithRolesAbsent(rows: seq<RoleRow>, h: RoleRow)
    requires h.info.id !in Keys(rows, MovieId)
    ensures MovieWithRoles(rows, h) == NewMovie(h.info)
  {
    SelectAbsent(rows, MovieId, h.info.id);
  }

  /**
   * One listing iteration on the whole list: append a fresh aggregate when
   * the movie is new, then apply `step` to the aggregate with the row's id.
   */
  function StepWithSeries(movies: seq<Movie>, isNew: bool, r: SeriesRow, seen: set<int>): seq<Movie> {
    var grown := if isNew then movies + [NewMovie(r.info)] else movies;
    seq(|grown|, j requires 0 <= j < |grown| =>
      if grown[j].info.id == r.info.id then AbsorbSeries(grown[j], r, seen) else grown[j])
  }

  function StepWithRoles(movies: seq<Movie>, isNew: bool, r: RoleRow): seq<Movie> {
    var grown := if isNew then movies + [NewMovie(r.info)] else movies;
    seq(|grown|, j requires 0 <= j < |grown| =>
      if grown[j].info.id == r.info.id then AbsorbRole(grown[j], r) else grown[j])
  }

  lemma AggregateWithSeriesSnoc(rows: seq<SeriesRow>, r: SeriesRow)
    ensures AggregateWithSeries(rows + [r]) ==
      StepWithSeries(AggregateWithSeries(rows), r.info.id !in Keys(rows, MovieId), r, SeenSeries(rows))
  {
    var isNew := r.info.id !in Keys(rows, MovieId);
    var a := AggregateWithSeries(rows + [r]);
    var b := StepWithSeries(AggregateWithSeries(rows), isNew, r, SeenSeries(rows));
    DedupSnoc(rows, r, MovieId);
    DedupKeys(rows, MovieId);
    assert |a| == |b|;
    forall j | 0 <= j < |a| ensures a[j] == b[j] {
      AggregateWithSeriesSnocAt(rows, r, j);
    }
  }

  lemma AggregateWithSeriesSnocAt(rows: seq<SeriesRow>, r: SeriesRow, j: nat)
    requires j < |Dedup(rows + [r], MovieId)|
    ensures |StepWithSeries(AggregateWithSeries(rows), r.info.id !in Keys(rows, MovieId), r, SeenSeries(rows))| ==
      |Dedup(rows + [r], MovieId)|
    ensures AggregateWithSeries(rows + [r])[j] ==
      StepWithSeries(AggregateWithSeries(rows), r.info.id !in Keys(rows, MovieId), r, SeenSeries(rows))[j]
  {
    var firsts := Dedup(rows, MovieId);
    var isNew := r.info.id !in Keys(rows, MovieId);
    DedupSnoc(rows, r, MovieId);
    DedupKeys(rows, MovieId);
    var firsts' := Dedup(rows + [r], MovieId);
    assert firsts' == if isNew then firsts + [r] else firsts;
    var old_ := AggregateWithSeries(rows);
    var grown := if isNew then old_ + [NewMovie(r.info)] else old_;
    if j == |firsts| {
      MovieWithSeriesAbsent(rows, r);
    }
    assert grown[j] == MovieWithSeries(rows, SeriesHeads(rows), firsts'[j]);
    MovieWithSeriesSnoc(rows, r, firsts'[j]);
  }

  lemma AggregateWithRolesSnoc(rows: seq<RoleRow>, r: RoleRow)
    ensures AggregateWithRoles(rows + [r]) ==
      StepWithRoles(AggregateWithRoles(rows), r.info.id !in Keys(rows, MovieId), r)
  {
    var isNew := r.info.id !in Keys(rows, MovieId);
    var a := AggregateWithRoles(rows + [r]);
    var b := StepWithRoles(AggregateWithRoles(rows), isNew, r);
    DedupSnoc(rows, r, MovieId);
    DedupKeys(rows, MovieId);
    assert |a| == |b|;
    forall j | 0 <= j < |a| ensures a[j] == b[j] {
      AggregateWithRolesSnocAt(rows, r, j);
    }
  }

  lemma AggregateWithRolesSnocAt(rows: seq<RoleRow>, r: RoleRow, j: nat)
    requires j < |Dedup(rows + [r], MovieId)|
    ensures |StepWithRoles(AggregateWithRoles(rows), r.info.id !in Keys(rows, MovieId), r)| == |Dedup(rows + [r], MovieId)|
    ensures AggregateWithRoles(rows + [r])[j] ==
      StepWithRoles(AggregateWithRoles(rows), r.info.id !in Keys(rows, MovieId), r)[j]
  {
    var firsts := Dedup(rows, MovieId);
    var isNew := r.info.id !in Keys(rows, MovieId);
    DedupSnoc(rows, r, MovieId);
    DedupKeys(rows, MovieId);
    var firsts' := Dedup(rows + [r], MovieId);
    assert firsts' == if isNew then firsts + [r] else firsts;
    var old_ := AggregateWithRoles(rows);
    var grown := if isNew then old_ + [NewMovie(r.info)] else old_;
    if j == |firsts| {
      MovieWithRolesAbsent(rows, r);
    }
    assert grown[j] == MovieWithRoles(rows, firsts'[j]);
    MovieWithRolesSnoc(rows, r, firsts'[j]);
  }
}
