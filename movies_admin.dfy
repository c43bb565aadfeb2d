/**
 * The admin movie repository (repositories/moviesAdminRepository.go): the
 * listing query builder, the reads (driven through the Folds module) and the
 * writes, each a sequence of database calls inside one transaction.
 */
module MoviesAdmin {
  import opened Wrappers
  import opened Models
  import opened Seqs
  import opened Rows
  import opened Aggregator
  import opened Folds
  import opened Store

  // ---------------------------------------------------------------------
  // The listing query
  // ---------------------------------------------------------------------

  /** The listing's join query before any filter; it has no WHERE clause. */
  const FindAllBase: string :=
    " \n"
    + "    SELECT \n"
    + "        m.id,\n"
    + "        m.title,\n"
    + "        m.description,\n"
    + "        m.release_year,\n"
    + "        m.director,\n"
    + "        m.rating,\n"
    + "        m.is_watched,\n"
    + "        m.trailer_url,\n"
    + "        m.poster_url,\n"
    + "        g.id,\n"
    + "        g.title,\n"
    + "        g.poster_url,\n"
    + "        c.id,\n"
    + "        c.title,\n"
    + "        c.poster_url,\n"
    + "        a.id,\n"
    + "        a.age,\n"
    + "        a.poster_url,\n"
    + "        e.id, \n"
    + "        e.series, \n"
    + "        e.title,            \n"
    + "        e.description,\n"
    + "        e.release_year,\n"
    + "        e.director,      \n"
    + "        e.rating,         \n"
    + "        e.trailer_url\n"
    + "    FROM movies m\n"
    + "    JOIN movies_genres mg ON mg.movie_id = m.id\n"
    + "    JOIN genres g ON mg.genre_id = g.id\n"
    + "    JOIN movies_categories mc ON mc.movie_id = m.id\n"
    + "    JOIN categories c ON mc.categorie_id = c.id\n"
    + "    JOIN movies_ages ma ON ma.movie_id = m.id\n"
    + "    JOIN ages a ON ma.age_id = a.id\n"
    + "    left JOIN movies_allseries me ON me.movie_id = m.id\n"
    + "    left JOIN allseries e ON me.allserie_id = e.id\n"
    + "    "

  const SearchClause: string := " and m.title ilike @s"
  const GenreClause: string := " and g.id = @genreId"
  const WatchedClause: string := " and m.is_watched = @isWatched"
  const OrderPrefix: string := " order by m."

  /** A named argument value: text, or the parsed watched flag. */
  datatype Param = Text(text: string) | Flag(flag: bool)

  /** A statement as handed to the driver: its text and its named arguments. */
  datatype Statement = Statement(sql: string, args: map<string, Param>)

  /** Go's strconv.ParseBool: the accepted spellings of true and false; anything else is an error (None). */
  function ParseBool(s: string): Option<bool> {
    if s in {"1", "t", "T", "TRUE", "true", "True"} then Some(true)
    else if s in {"0", "f", "F", "FALSE", "false", "False"} then Some(false)
    else None
  }

  /** Every double quote written twice (the escaping inside a quoted SQL identifier). */
  function Doubled(s: string): string {
    if s == [] then [] else (if s[0] == '"' then "\"\"" else [s[0]]) + Doubled(s[1..])
  }

  /** pgx's Identifier.Sanitize for a one-part identifier: quoted, inner quotes doubled. */
  function Sanitize(s: string): string {
    "\"" + Doubled(s) + "\""
  }

  /** Reads a doubled body back; a lone quote (one that would end the identifier) is rejected. */
  function Undoubled(d: string): Option<string> {
    if d == [] then Some([])
    else if d[0] == '"' then
      if |d| >= 2 && d[1] == '"' then
        match Undoubled(d[2..]) case Some(r) => Some(['"'] + r) case None => None
      else None
    else
      match Undoubled(d[1..]) case Some(r) => Some([d[0]] + r) case None => None
  }

  /** Reads a quoted identifier back to the name it denotes. */
  function Unquote(q: string): Option<string> {
    if |q| >= 2 && q[0] == '"' && q[|q| - 1] == '"' then Undoubled(q[1..|q| - 1]) else None
  }

  lemma {:induction false} UndoubledDoubled(s: string)
    ensures Undoubled(Doubled(s)) == Some(s)
  {
    if s != [] {
      UndoubledDoubled(s[1..]);
      var d := Doubled(s);
      if s[0] == '"' {
        assert d[2..] == Doubled(s[1..]);
        assert d[0] == '"' && d[1] == '"';
        assert s == ['"'] + s[1..];
      } else {
        assert d[1..] == Doubled(s[1..]);
        assert s == [s[0]] + s[1..];
      }
    }
  }

  lemma {:induction false} DoubledUndoubled(d: string)
    requires Undoubled(d).Some?
    ensures Doubled(Undoubled(d).value) == d
  {
    if d != [] {
      if d[0] == '"' {
        DoubledUndoubled(d[2..]);
        assert d == "\"\"" + d[2..];
      } else {
        DoubledUndoubled(d[1..]);
        assert d == [d[0]] + d[1..];
      }
    }
  }

  /** The sanitized text reads back as exactly the name given. */
  lemma UnquoteSanitize(s: string)
    ensures Unquote(Sanitize(s)) == Some(s)
  {
    var t := Sanitize(s);
    assert t[1..|t| - 1] == Doubled(s);
    UndoubledDoubled(s);
  }

  /** Any text that reads back as a name is the sanitized form of that name. */
  lemma SanitizeUnquote(q: string)
    requires Unquote(q).Some?
    ensures Sanitize(Unquote(q).value) == q
  {
    var mid := q[1..|q| - 1];
    var v := Undoubled(mid).value;
    assert Unquote(q).value == v;
    DoubledUndoubled(mid);
    assert Sanitize(v) == ['"'] + mid + ['"'];
    assert q == [q[0]] + mid + [q[|q| - 1]];
  }

  function SearchPart(f: MovieFilters): string { if f.searchTerm != "" then SearchClause else "" }
  function GenrePart(f: MovieFilters): string { if f.genreId != "" then GenreClause else "" }
  function WatchedPart(f: MovieFilters): string { if f.isWatched != "" then WatchedClause else "" }
  function SortPart(f: MovieFilters): string { if f.sort != "" then OrderPrefix + Sanitize(f.sort) else "" }

  /**
   * A base text followed by the clauses of the non-empty filters; FindAll
   * uses it with FindAllBase.
   */
  function FilterSql(base: string, f: MovieFilters): string {
    base + SearchPart(f) + GenrePart(f) + WatchedPart(f) + SortPart(f)
  }

  /** The named arguments built beside the text. */
  function FilterParams(f: MovieFilters): (params: map<string, Param>)
    ensures params.Keys <= {"s", "genreId", "isWatched"}
    ensures "s" in params <==> f.searchTerm != ""
    ensures "s" in params ==> params["s"] == Text("%" + f.searchTerm + "%")
    ensures "genreId" in params <==> f.genreId != ""
    ensures "genreId" in params ==> params["genreId"] == Text(f.genreId)
    ensures "isWatched" in params <==> f.isWatched != ""
    ensures "isWatched" in params ==> params["isWatched"] == Flag(ParseBool(f.isWatched) == Some(true))
  {
    var s: map<string, Param> := if f.searchTerm != "" then map["s" := Text("%" + f.searchTerm + "%")] else map[];
    var g := if f.genreId != "" then s["genreId" := Text(f.genreId)] else s;
    if f.isWatched != "" then g["isWatched" := Flag(ParseBool(f.isWatched).GetOr(false))] else g
  }

  /**
   * Clauses are appended in the fixed order search, genre, watched, sort:
   * each stage of the text is a prefix of the next, and a stage adds text
   * exactly when its filter is non-empty; the sort column comes last,
   * quoted so that it reads back as the name given.
   */
  lemma FiltersAppendInOrder(base: string, f: MovieFilters)
    ensures var s1 := base + SearchPart(f);
            var s2 := s1 + GenrePart(f);
            var s3 := s2 + WatchedPart(f);
      && FilterSql(base, f) == s3 + SortPart(f)
      && base <= s1 <= s2 <= s3 <= FilterSql(base, f)
      && (s1 == base <==> f.searchTerm == "")
      && (s2 == s1 <==> f.genreId == "")
      && (s3 == s2 <==> f.isWatched == "")
      && (FilterSql(base, f) == s3 <==> f.sort == "")
      && (f.sort != "" ==> SortPart(f) == OrderPrefix + Sanitize(f.sort) && Unquote(Sanitize(f.sort)) == Some(f.sort))
  {
    AppendChain(base, SearchPart(f), GenrePart(f), WatchedPart(f), SortPart(f));
    UnquoteSanitize(f.sort);
  }

  lemma AppendChain(a: string, b: string, c: string, d: string, e: string)
    ensures a <= a + b <= a + b + c <= a + b + c + d <= a + b + c + d + e
    ensures (a + b == a <==> b == "") && (a + b + c == a + b <==> c == "")
    ensures (a + b + c + d == a + b + c <==> d == "") && (a + b + c + d + e == a + b + c + d <==> e == "")
  {
    AppendGrows(a, b);
    AppendGrows(a + b, c);
    AppendGrows(a + b + c, d);
    AppendGrows(a + b + c + d, e);
  }

  lemma AppendGrows(a: string, b: string)
    ensures a <= a + b
    ensures a + b == a <==> b == ""
  {
    assert |a + b| == |a| + |b|;
  }

  /** The statement FindAll hands to the driver: the built text, with no arguments. */
  function SentStatement(base: string, f: MovieFilters): Statement {
    Statement(FilterSql(base, f), map[])
  }

  /**
   * As written, a search for "matrix" sends a text ending in the `@s`
   * placeholder while the statement carries no argument named `s` (the
   * builder computed "%matrix%" for it and dropped it).
   */
  lemma SearchSentUnbound(base: string)
    ensures var f := MovieFilters("matrix", "", "", "");
      && SentStatement(base, f).sql == base + " and m.title ilike @s"
      && "s" !in SentStatement(base, f).args
      && FilterParams(f)["s"] == Text("%matrix%")
  {
  }

  /** The statement with the arguments the builder prepared. */
  function BoundStatement(base: string, f: MovieFilters): Statement {
    Statement(FilterSql(base, f), FilterParams(f))
  }

  /**
   * Corrected: the text is the one sent, and every clause in it has its
   * argument, with the value the builder computed.
   */
  lemma BoundStatementBinds(base: string, f: MovieFilters)
    ensures BoundStatement(base, f).sql == SentStatement(base, f).sql
    ensures SearchPart(f) != "" ==> BoundStatement(base, f).args["s"] == Text("%" + f.searchTerm + "%")
    ensures GenrePart(f) != "" ==> BoundStatement(base, f).args["genreId"] == Text(f.genreId)
    ensures WatchedPart(f) != "" ==> BoundStatement(base, f).args["isWatched"] == Flag(ParseBool(f.isWatched) == Some(true))
  {
  }

  /**
   * The text-building part of FindAll: starting from the base text, the text
   * and the argument map are extended clause by clause.
   */
  method BuildQuery(base: string, filters: MovieFilters) returns (sql: string, params: map<string, Param>)
    ensures sql == FilterSql(base, filters) && params == FilterParams(filters)
  {
    sql := base;
    params := map[];
    if filters.searchTerm != "" {
      sql := sql + SearchClause;
      params := params["s" := Text("%" + filters.searchTerm + "%")];
    }
    assert sql == base + SearchPart(filters);
    if filters.genreId != "" {
      sql := sql + GenreClause;
      params := params["genreId" := Text(filters.genreId)];
    }
    assert sql == base + SearchPart(filters) + GenrePart(filters);
    if filters.isWatched != "" {
      var isWatched := ParseBool(filters.isWatched).GetOr(false);
      sql := sql + WatchedClause;
      params := params["isWatched" := Flag(isWatched)];
    }
    assert sql == base + SearchPart(filters) + GenrePart(filters) + WatchedPart(filters);
    if filters.sort != "" {
      sql := sql + (OrderPrefix + Sanitize(filters.sort));
    }
  }

  // ---------------------------------------------------------------------
  // Writes, as reference definitions
  // ---------------------------------------------------------------------

  /** The movies row an admin create inserts; rating and is_watched take the column defaults. */
  function Inserted(info: MovieInfo, id: int): MovieInfo {
    MovieInfo(id, info.title, info.description, info.releaseYear, info.director, 0, false, info.trailerUrl, info.posterUrl)
  }

  /** The movies row after an admin update: six columns replaced, id, rating and is_watched kept. */
  function Updated(row: MovieInfo, info: MovieInfo): MovieInfo {
    row.(title := info.title, description := info.description, releaseYear := info.releaseYear,
         director := info.director, trailerUrl := info.trailerUrl, posterUrl := info.posterUrl)
  }

  /** Number of the commit call of Create: begin, insert, genres, categories, ages, ages again. */
  function CreateCommitStep(m: Movie): nat {
    2 + |m.genres| + |m.categories| + 2 * |m.ages|
  }

  /** The store after a committed Create of `m`, which gets the next id. */
  function Created(t: Tables, m: Movie): Tables {
    var id := t.nextId;
    var ages := Pairs(id, Map(m.ages, AgeKey));
    t.(movies := t.movies[id := Inserted(m.info, id)], nextId := id + 1,
       genres := t.genres + Pairs(id, Map(m.genres, GenreKey)),
       categories := t.categories + Pairs(id, Map(m.categories, CategoryKey)),
       ages := t.ages + ages + ages)
  }

  /**
   * The store, returned id and returned error of Create. Once the insert has
   * drawn its id from the sequence, a rollback still leaves the sequence
   * advanced.
   */
  function CreateOutcome(t: Tables, m: Movie, fault: Option<Fault>): (Tables, int, Option<Error>) {
    var commit := CreateCommitStep(m);
    if FaultIn(fault, 0, 2) then
      (t, 0, Some(fault.value.err))
    else if FaultIn(fault, 2, commit - 1) then
      (t.(nextId := t.nextId + 1), 0, if fault.value.step == commit then None else Some(fault.value.err))
    else
      (Created(t, m), t.nextId, None)
  }

  /** Number of the commit call of Update: begin, update, three deletes, then the inserts. */
  function UpdateCommitStep(m: Movie): nat {
    5 + |m.genres| + |m.categories| + |m.ages|
  }

  /** The store after a committed Update of movie `id` to `m`. */
  function Replaced(t: Tables, id: int, m: Movie): Tables {
    t.(movies := if id in t.movies then t.movies[id := Updated(t.movies[id], m.info)] else t.movies,
       genres := RemoveLinks(t.genres, id) + Pairs(id, Map(m.genres, GenreKey)),
       categories := RemoveLinks(t.categories, id) + Pairs(id, Map(m.categories, CategoryKey)),
       ages := RemoveLinks(t.ages, id) + Pairs(id, Map(m.ages, AgeKey)))
  }

  /** The store and returned error of Update. */
  function UpdateOutcome(t: Tables, id: int, m: Movie, fault: Option<Fault>): (Tables, Option<Error>) {
    if FaultIn(fault, 0, UpdateCommitStep(m) + 1) then (t, Some(fault.value.err))
    else (Replaced(t, id, m), None)
  }

  /** The store after a committed Delete of movie `id`. */
  function Removed(t: Tables, id: int): Tables {
    t.(movies := t.movies - {id},
       genres := RemoveLinks(t.genres, id),
       categories := RemoveLinks(t.categories, id),
       ages := RemoveLinks(t.ages, id),
       series := RemoveLinks(t.series, id))
  }

  /** The store and returned error of Delete: begin, select title, five deletes, commit. */
  function DeleteOutcome(t: Tables, id: int, fault: Option<Fault>): (Tables, Option<Error>) {
    if FaultIn(fault, 0, 2) then (t, Some(fault.value.err))
    else if id !in t.movies then (t, Some(NoRows))
    else if FaultIn(fault, 2, 6) then (t, Some(fault.value.err))
    else (Removed(t, id), None)
  }

  /** The store and returned error of SetWatched: one update outside any transaction. */
  function SetWatchedOutcome(t: Tables, id: int, isWatched: bool, fault: Option<Fault>): (Tables, Option<Error>) {
    if FailsAt(fault, 0) then (t, Some(fault.value.err))
    else if id in t.movies then (t.(movies := t.movies[id := t.movies[id].(isWatched := isWatched)]), None)
    else (t, None)
  }

  // ---------------------------------------------------------------------
  // What the writes promise
  // ---------------------------------------------------------------------

  /**
   * Create either commits, storing the movie under the next value of the id
   * sequence with rating 0 and is_watched false and returning that id, or
   * returns id 0 with the error, except that a failed commit returns no
   * error. A failure changes no table; only a failure after the insert
   * leaves the id sequence one further on. While every stored id lies below
   * the sequence, the new id is not one of them.
   */
  lemma CreateResult(t: Tables, m: Movie, fault: Option<Fault>)
    ensures var (t', id, err) := CreateOutcome(t, m, fault);
      && (FaultIn(fault, 0, CreateCommitStep(m) + 1) ==>
            && t' == (if fault.value.step < 2 then t else t.(nextId := t.nextId + 1))
            && id == 0 && (err.None? <==> fault.value.step == CreateCommitStep(m)))
      && (!FaultIn(fault, 0, CreateCommitStep(m) + 1) ==>
            && id == t.nextId && err.None? && t'.nextId == id + 1
            && (IdsBelow(t) ==> id !in t.movies)
            && t'.movies.Keys == t.movies.Keys + {id}
            && t'.movies[id] == m.info.(id := id, rating := 0, isWatched := false)
            && (forall j :: j in t.movies && j != id ==> t'.movies[j] == t.movies[j])
            && t'.series == t.series && t'.selected == t.selected)
  {
  }

  /**
   * Every write keeps the stored movie ids below the id sequence, so no
   * later Create is handed the id of a stored movie.
   */
  lemma WritesKeepIdsBelow(t: Tables, m: Movie, id: int, isWatched: bool, fault: Option<Fault>)
    requires IdsBelow(t)
    ensures IdsBelow(CreateOutcome(t, m, fault).0)
    ensures IdsBelow(UpdateOutcome(t, id, m, fault).0)
    ensures IdsBelow(DeleteOutcome(t, id, fault).0)
    ensures IdsBelow(SetWatchedOutcome(t, id, isWatched, fault).0)
  {
  }

  /**
   * A committed Create links the new movie to its genres and categories once
   * each and to its ages twice, and no other movie's links change.
   */
  lemma CreateLinks(t: Tables, m: Movie, k: int)
    ensures var t' := Created(t, m);
      var id := t.nextId;
      && LinksOf(t'.genres, k) == LinksOf(t.genres, k) + (if k == id then Pairs(id, Map(m.genres, GenreKey)) else [])
      && LinksOf(t'.categories, k) == LinksOf(t.categories, k) + (if k == id then Pairs(id, Map(m.categories, CategoryKey)) else [])
      && LinksOf(t'.ages, k) == (if k == id then LinksOf(t.ages, k) + Pairs(id, Map(m.ages, AgeKey)) + Pairs(id, Map(m.ages, AgeKey)) else LinksOf(t.ages, k))
  {
    var id := t.nextId;
    var ages := Pairs(id, Map(m.ages, AgeKey));
    LinksOfInsert(t.genres, id, Map(m.genres, GenreKey), k);
    LinksOfInsert(t.categories, id, Map(m.categories, CategoryKey), k);
    LinksOfInsert(t.ages, id, Map(m.ages, AgeKey), k);
    LinksOfInsert(t.ages + ages, id, Map(m.ages, AgeKey), k);
  }

  /**
   * Update either fails, changing nothing, or commits: the movie's six
   * editable columns take the new values while id, rating and is_watched
   * stay, no other movie changes, and series links and the selected list are
   * untouched. A missing id commits too, changing only link tables.
   */
  lemma UpdateResult(t: Tables, id: int, m: Movie, fault: Option<Fault>)
    ensures var (t', err) := UpdateOutcome(t, id, m, fault);
      && (err.Some? <==> FaultIn(fault, 0, UpdateCommitStep(m) + 1))
      && (err.Some? ==> t' == t)
      && (err.None? ==>
            && t'.series == t.series && t'.selected == t.selected && t'.nextId == t.nextId
            && t'.movies.Keys == t.movies.Keys
            && (id in t.movies ==>
                  t'.movies[id] == m.info.(id := t.movies[id].id, rating := t.movies[id].rating, isWatched := t.movies[id].isWatched))
            && (forall j :: j in t.movies && j != id ==> t'.movies[j] == t.movies[j]))
  {
  }

  /**
   * A committed Update makes the new lists the movie's whole genre, category
   * and age links and leaves every other movie's links as they were.
   */
  lemma UpdateReplacesLinks(t: Tables, id: int, m: Movie, k: int)
    ensures var t' := Replaced(t, id, m);
      && LinksOf(t'.genres, k) == (if k == id then Pairs(id, Map(m.genres, GenreKey)) else LinksOf(t.genres, k))
      && LinksOf(t'.categories, k) == (if k == id then Pairs(id, Map(m.categories, CategoryKey)) else LinksOf(t.categories, k))
      && LinksOf(t'.ages, k) == (if k == id then Pairs(id, Map(m.ages, AgeKey)) else LinksOf(t.ages, k))
  {
    LinksOfReplace(t.genres, id, Map(m.genres, GenreKey), k);
    LinksOfReplace(t.categories, id, Map(m.categories, CategoryKey), k);
    LinksOfReplace(t.ages, id, Map(m.ages, AgeKey), k);
  }

  /**
   * Delete of a stored movie commits unless a call fails; a missing movie
   * gives ErrNoRows; every failure changes nothing. A committed Delete
   * removes the movie and no other, and leaves the selected list alone.
   */
  lemma DeleteResult(t: Tables, id: int, fault: Option<Fault>)
    ensures var (t', err) := DeleteOutcome(t, id, fault);
      && (err.Some? ==> t' == t)
      && (!FaultIn(fault, 0, 2) && id !in t.movies ==> err == Some(NoRows))
      && (err.None? <==> id in t.movies && !FaultIn(fault, 0, 8))
      && (err.None? ==>
            && t'.movies.Keys == t.movies.Keys - {id}
            && (forall j :: j in t'.movies ==> t'.movies[j] == t.movies[j])
            && t'.selected == t.selected)
  {
  }

  /** A committed Delete removes every genre, category, age and series link of the movie and no other link. */
  lemma DeleteRemovesLinks(t: Tables, id: int, k: int)
    ensures var t' := Removed(t, id);
      && LinksOf(t'.genres, k) == (if k == id then [] else LinksOf(t.genres, k))
      && LinksOf(t'.categories, k) == (if k == id then [] else LinksOf(t.categories, k))
      && LinksOf(t'.ages, k) == (if k == id then [] else LinksOf(t.ages, k))
      && LinksOf(t'.series, k) == (if k == id then [] else LinksOf(t.series, k))
  {
    LinksOfRemove(t.genres, id, k);
    LinksOfRemove(t.categories, id, k);
    LinksOfRemove(t.ages, id, k);
    LinksOfRemove(t.series, id, k);
  }

  /** SetWatched changes only the flag of a stored movie, and nothing when it fails or the id is missing. */
  lemma SetWatchedResult(t: Tables, id: int, isWatched: bool, fault: Option<Fault>)
    ensures var (t', err) := SetWatchedOutcome(t, id, isWatched, fault);
      && (err.Some? <==> FailsAt(fault, 0))
      && t'.movies.Keys == t.movies.Keys
      && (forall j :: j in t.movies && (j != id || err.Some?) ==> t'.movies[j] == t.movies[j])
      && (err.None? && id in t.movies ==> t'.movies[id] == t.movies[id].(isWatched := isWatched))
      && t' == t.(movies := t'.movies)
  {
  }

  // ---------------------------------------------------------------------
  // The repository
  // ---------------------------------------------------------------------

  class MoviesAdminRepository {
    const db: Database

    constructor(db: Database)
      ensures this.db == db
    {
      this.db := db;
    }

    /**
     * FindById: the cursor is what the driver returned for the single-movie
     * join query of `id`.
     */
    method FindById(c: Cursor<SeriesRow>) returns (r: Result<Movie, Error>)
      ensures r == FindOneWithSeries(c)
    {
      r := FoldOneWithSeries(c);
    }

    /**
     * FindAll: builds the statement from the filters and folds the cursor the
     * driver returned for it. The statement goes out without its arguments.
     */
    method FindAll(filters: MovieFilters, c: Cursor<SeriesRow>) returns (sent: Statement, r: Result<seq<Movie>, Error>)
      ensures sent == SentStatement(FindAllBase, filters)
      ensures r == FindAllWithSeries(c)
    {
      var sql, params := BuildQuery(FindAllBase, filters);
      sent := Statement(sql, map[]);
      r := FoldAllWithSeries(c);
    }

    method Create(movie: Movie, fault: Option<Fault>) returns (id: int, err: Option<Error>)
      modifies db
      ensures (db.State(), id, err) == CreateOutcome(old(db.State()), movie, fault)
    {
      if FailsAt(fault, 0) {                                   // Begin
        return 0, Some(fault.value.err);
      }
      if FailsAt(fault, 1) {                                   // insert ... returning id
        return 0, Some(fault.value.err);
      }
      var newId := db.NextVal();
      var tx := db.State();
      tx := tx.(movies := tx.movies[newId := Inserted(movie.info, newId)]);
      var calls: nat := 2;
      var genres, categories, ages, ages2: seq<Link>;
      genres, calls, err := ExecInserts(tx.genres, newId, Map(movie.genres, GenreKey), fault, calls);
      if err.Some? {
        return 0, err;
      }
      categories, calls, err := ExecInserts(tx.categories, newId, Map(movie.categories, CategoryKey), fault, calls);
      if err.Some? {
        return 0, err;
      }
      ages, calls, err := ExecInserts(tx.ages, newId, Map(movie.ages, AgeKey), fault, calls);
      if err.Some? {
        return 0, err;
      }
      ages2, calls, err := ExecInserts(ages, newId, Map(movie.ages, AgeKey), fault, calls);
      if err.Some? {
        return 0, err;
      }
      if FailsAt(fault, calls) {                               // Commit
        return 0, None;
      }
      db.Commit(tx.(genres := genres, categories := categories, ages := ages2));
      return newId, None;
    }

    method Update(id: int, movie: Movie, fault: Option<Fault>) returns (err: Option<Error>)
      modifies db
      ensures (db.State(), err) == UpdateOutcome(old(db.State()), id, movie, fault)
    {
      if FailsAt(fault, 0) {                                   // Begin
        return Some(fault.value.err);
      }
      var tx := db.State();
      if FailsAt(fault, 1) {                                   // update movies
        return Some(fault.value.err);
      }
      if id in tx.movies {
        tx := tx.(movies := tx.movies[id := Updated(tx.movies[id], movie.info)]);
      }
      if FailsAt(fault, 2) {
        return Some(fault.value.err);
      }
      tx := tx.(genres := RemoveLinks(tx.genres, id));
      if FailsAt(fault, 3) {
        return Some(fault.value.err);
      }
      tx := tx.(categories := RemoveLinks(tx.categories, id));
      if FailsAt(fault, 4) {
        return Some(fault.value.err);
      }
      tx := tx.(ages := RemoveLinks(tx.ages, id));
      var calls: nat := 5;
      var genres, categories, ages: seq<Link>;
      genres, calls, err := ExecInserts(tx.genres, id, Map(movie.genres, GenreKey), fault, calls);
      if err.Some? {
        return;
      }
      categories, calls, err := ExecInserts(tx.categories, id, Map(movie.categories, CategoryKey), fault, calls);
      if err.Some? {
        return;
      }
      ages, calls, err := ExecInserts(tx.ages, id, Map(movie.ages, AgeKey), fault, calls);
      if err.Some? {
        return;
      }
      if FailsAt(fault, calls) {                               // Commit
        return Some(fault.value.err);
      }
      db.Commit(tx.(genres := genres, categories := categories, ages := ages));
    }

    method Delete(id: int, fault: Option<Fault>) returns (err: Option<Error>)
      modifies db
      ensures (db.State(), err) == DeleteOutcome(old(db.State()), id, fault)
    {
      if FailsAt(fault, 0) {                                   // Begin
        return Some(fault.value.err);
      }
      var tx := db.State();
      if FailsAt(fault, 1) {                                   // select title, outside the transaction
        return Some(fault.value.err);
      }
      if id !in db.movies {
        return Some(NoRows);
      }
      if FailsAt(fault, 2) {
        return Some(fault.value.err);
      }
      tx := tx.(genres := RemoveLinks(tx.genres, id));
      if FailsAt(fault, 3) {
        return Some(fault.value.err);
      }
      tx := tx.(categories := RemoveLinks(tx.categories, id));
      if FailsAt(fault, 4) {
        return Some(fault.value.err);
      }
      tx := tx.(ages := RemoveLinks(tx.ages, id));
      if FailsAt(fault, 5) {
        return Some(fault.value.err);
      }
      tx := tx.(series := RemoveLinks(tx.series, id));
      if FailsAt(fault, 6) {
        return Some(fault.value.err);
      }
      tx := tx.(movies := tx.movies - {id});
      if FailsAt(fault, 7) {                                   // Commit
        return Some(fault.value.err);
      }
      db.Commit(tx);
      return None;
    }

    method SetWatched(id: int, isWatched: bool, fault: Option<Fault>) returns (err: Option<Error>)
      modifies db
      ensures (db.State(), err) == SetWatchedOutcome(old(db.State()), id, isWatched, fault)
    {
      if FailsAt(fault, 0) {
        return Some(fault.value.err);
      }
      if id in db.movies {
        db.movies := db.movies[id := db.movies[id].(isWatched := isWatched)];
      }
      return None;
    }
  }
}
