/**
 * The viewer-side movie repository (repositories/moviesRepository.go): the
 * single-movie and listing reads, and the writes. Unlike the admin
 * repository it writes no poster and no ages, Create swallows some errors,
 * and Update inserts the new genre links outside its transaction.
 */
module Movies {
  import opened Wrappers
  import opened Models
  import opened Seqs
  import opened Rows
  import opened Aggregator
  import opened Folds
  import opened Store

  /** The movies row Create inserts: no poster, and rating and is_watched take the column defaults. */
  function NewRow(info: MovieInfo, id: int): MovieInfo {
    MovieInfo(id, info.title, info.description, info.releaseYear, info.director, 0, false, info.trailerUrl, "")
  }

  /** The movies row after Update: five columns replaced; id, rating, is_watched and poster kept. */
  function Edited(row: MovieInfo, info: MovieInfo): MovieInfo {
    row.(title := info.title, description := info.description, releaseYear := info.releaseYear,
         director := info.director, trailerUrl := info.trailerUrl)
  }

  // ---------------------------------------------------------------------
  // Create: begin, insert returning id, genre links, category links, commit
  // ---------------------------------------------------------------------

  function CreateCommitStep(m: Movie): nat {
    2 + |m.genres| + |m.categories|
  }

  /** The store after a committed Create of `m`, which gets the next id. */
  function Created(t: Tables, m: Movie): Tables {
    var id := t.nextId;
    t.(movies := t.movies[id := NewRow(m.info, id)], nextId := id + 1,
       genres := t.genres + Pairs(id, Map(m.genres, GenreKey)),
       categories := t.categories + Pairs(id, Map(m.categories, CategoryKey)))
  }

  /**
   * The store, returned id and returned error of Create. A failed begin,
   * insert or commit is reported as id 0 with no error; only a failed link
   * insert returns its error. Once the insert has drawn its id from the
   * sequence, a rollback still leaves the sequence advanced.
   */
  function CreateOutcome(t: Tables, m: Movie, fault: Option<Fault>): (Tables, int, Option<Error>) {
    if FaultIn(fault, 0, 2) then
      (t, 0, None)
    else if FaultIn(fault, 2, |m.genres| + |m.categories| + 1) then
      (t.(nextId := t.nextId + 1), 0, if FaultIn(fault, 2, |m.genres| + |m.categories|) then Some(fault.value.err) else None)
    else
      (Created(t, m), t.nextId, None)
  }

  /**
   * Create either commits, storing the movie under the next id with an
   * empty poster, rating 0 and is_watched false, or returns id 0; then an
   * error comes back exactly when a link insert failed. A failure changes no
   * table; only a failure after the insert leaves the id sequence one
   * further on. While every stored id lies below the sequence, the new id is
   * not one of them.
   */
  lemma CreateResult(t: Tables, m: Movie, fault: Option<Fault>)
    ensures var (t', id, err) := CreateOutcome(t, m, fault);
      && (FaultIn(fault, 0, CreateCommitStep(m) + 1) ==>
            && t' == (if fault.value.step < 2 then t else t.(nextId := t.nextId + 1))
            && id == 0 && (err.Some? <==> 2 <= fault.value.step < CreateCommitStep(m)))
      && (!FaultIn(fault, 0, CreateCommitStep(m) + 1) ==>
            && id == t.nextId && err.None? && t'.nextId == id + 1
            && (IdsBelow(t) ==> id !in t.movies)
            && t'.movies.Keys == t.movies.Keys + {id}
            && t'.movies[id] == m.info.(id := id, rating := 0, isWatched := false, posterUrl := "")
            && (forall j :: j in t.movies && j != id ==> t'.movies[j] == t.movies[j])
            && t'.ages == t.ages && t'.series == t.series && t'.selected == t.selected)
  {
  }

  /**
   * Every write keeps the stored movie ids below the id sequence, so no
   * later Create is handed the id of a stored movie.
   */
  lemma WritesKeepIdsBelow(t: Tables, m: Movie, id: int, fault: Option<Fault>)
    requires IdsBelow(t)
    ensures IdsBelow(CreateOutcome(t, m, fault).0)
    ensures IdsBelow(UpdateOutcome(t, id, m, fault).0)
    ensures IdsBelow(AtomicUpdateOutcome(t, id, m, fault).0)
    ensures IdsBelow(DeleteOutcome(t, id, fault).0)
  {
  }

  /** A committed Create links the new movie to its genres and categories, once each, and no other movie changes links. */
  lemma CreateLinks(t: Tables, m: Movie, k: int)
    ensures var t' := Created(t, m);
      var id := t.nextId;
      && LinksOf(t'.genres, k) == LinksOf(t.genres, k) + (if k == id then Pairs(id, Map(m.genres, GenreKey)) else [])
      && LinksOf(t'.categories, k) == LinksOf(t.categories, k) + (if k == id then Pairs(id, Map(m.categories, CategoryKey)) else [])
  {
    LinksOfInsert(t.genres, t.nextId, Map(m.genres, GenreKey), k);
    LinksOfInsert(t.categories, t.nextId, Map(m.categories, CategoryKey), k);
  }

  // ---------------------------------------------------------------------
  // Update: begin, update, delete genre links (all in the transaction),
  // then genre inserts straight through the pool, then commit
  // ---------------------------------------------------------------------

  function UpdateCommitStep(m: Movie): nat {
    3 + |m.genres|
  }

  /**
   * The store and returned error of Update as written. The genre inserts
   * are committed one by one as they run, so they survive whatever happens
   * to the transaction; the transaction's delete removes only the rows that
   * were there before.
   */
  function UpdateOutcome(t: Tables, id: int, m: Movie, fault: Option<Fault>): (Tables, Option<Error>) {
    var ids := Map(m.genres, GenreKey);
    if FaultIn(fault, 0, 3) then (t, Some(fault.value.err))
    else if FaultIn(fault, 3, |ids|) then
      (t.(genres := t.genres + Pairs(id, ids[..Completed(fault, 3, |ids|)])), Some(fault.value.err))
    else if FailsAt(fault, UpdateCommitStep(m)) then
      (t.(genres := t.genres + Pairs(id, ids)), Some(fault.value.err))
    else
      (t.(movies := if id in t.movies then t.movies[id := Edited(t.movies[id], m.info)] else t.movies,
          genres := RemoveLinks(t.genres, id) + Pairs(id, ids)),
       None)
  }

  /**
   * A committed Update makes the new genres the movie's whole genre links,
   * edits its five columns, and leaves every other movie, every other
   * movie's genre links and all other tables as they were.
   */
  lemma UpdateCommitted(t: Tables, id: int, m: Movie, fault: Option<Fault>, k: int)
    requires !FaultIn(fault, 0, UpdateCommitStep(m) + 1)
    ensures var (t', err) := UpdateOutcome(t, id, m, fault);
      && err.None?
      && LinksOf(t'.genres, k) == (if k == id then Pairs(id, Map(m.genres, GenreKey)) else LinksOf(t.genres, k))
      && t'.movies.Keys == t.movies.Keys
      && (id in t.movies ==>
            t'.movies[id] == m.info.(id := t.movies[id].id, rating := t.movies[id].rating, isWatched := t.movies[id].isWatched,
                                     posterUrl := t.movies[id].posterUrl))
      && (forall j :: j in t.movies && j != id ==> t'.movies[j] == t.movies[j])
      && t' == t.(movies := t'.movies, genres := t'.genres)
  {
    LinksOfReplace(t.genres, id, Map(m.genres, GenreKey), k);
  }

  /**
   * A failed Update reports the error and leaves the movie row as it was,
   * but every genre insert that ran before the failure stays: the movie
   * keeps its old genre links and gains the inserted ones.
   */
  lemma UpdateFailureKeepsInserts(t: Tables, id: int, m: Movie, fault: Option<Fault>, k: int)
    requires FaultIn(fault, 0, UpdateCommitStep(m) + 1)
    ensures var (t', err) := UpdateOutcome(t, id, m, fault);
      var kept := Completed(fault, 3, |m.genres|);
      && err == Some(fault.value.err)
      && t' == t.(genres := t'.genres)
      && (fault.value.step < 3 ==> t' == t)
      && (fault.value.step >= 3 ==>
            LinksOf(t'.genres, k) == LinksOf(t.genres, k) + (if k == id then Pairs(id, Map(m.genres, GenreKey)[..kept]) else []))
  {
    var ids := Map(m.genres, GenreKey);
    LinksOfInsert(t.genres, id, ids[..Completed(fault, 3, |ids|)], k);
    assert ids[..|ids|] == ids;
  }

  /**
   * The inconsistency made concrete: movie 1 linked to genre 1 is updated
   * to genre 2 and the commit fails. The error comes back and the title is
   * unchanged, yet the movie is now linked to both genres.
   */
  lemma UpdateCommitFailureLeavesBothGenres(info: MovieInfo, err: Error)
    ensures var t := Tables(map[1 := info], 2, [Link(1, 1)], [], [], [], []);
      var m := NewMovie(info.(title := "new")).(genres := [Genre(2, "", "")]);
      var (t', e) := UpdateOutcome(t, 1, m, Some(Fault(4, err)));
      && e == Some(err)
      && t'.movies[1] == info
      && LinksOf(t'.genres, 1) == [Link(1, 1), Link(1, 2)]
  {
    var m := NewMovie(info.(title := "new")).(genres := [Genre(2, "", "")]);
    assert Map(m.genres, GenreKey) == [2];
    assert Pairs(1, [2]) == [Link(1, 2)];
    var g := [Link(1, 1)] + [Link(1, 2)];
    assert g[..1] == [Link(1, 1)];
    SelectSnoc([Link(1, 1)], Link(1, 2), LinkMovie, 1);
    SelectSnoc([], Link(1, 1), LinkMovie, 1);
    assert [Link(1, 1)] == [] + [Link(1, 1)];
  }

  /**
   * Corrected: the genre inserts run inside the transaction, so Update
   * either commits everything or changes nothing.
   */
  function AtomicUpdateOutcome(t: Tables, id: int, m: Movie, fault: Option<Fault>): (Tables, Option<Error>) {
    if FaultIn(fault, 0, UpdateCommitStep(m) + 1) then (t, Some(fault.value.err))
    else UpdateOutcome(t, id, m, None)
  }

  /** The corrected Update is all-or-nothing and agrees with the written one whenever nothing fails. */
  lemma AtomicUpdateAllOrNothing(t: Tables, id: int, m: Movie, fault: Option<Fault>, k: int)
    ensures var (t', err) := AtomicUpdateOutcome(t, id, m, fault);
      && (err.Some? ==> t' == t)
      && (err.None? ==>
            && (t', err) == UpdateOutcome(t, id, m, fault)
            && LinksOf(t'.genres, k) == (if k == id then Pairs(id, Map(m.genres, GenreKey)) else LinksOf(t.genres, k)))
  {
    if !FaultIn(fault, 0, UpdateCommitStep(m) + 1) {
      UpdateCommitted(t, id, m, fault, k);
      UpdateCommitted(t, id, m, None, k);
    }
  }

  // ---------------------------------------------------------------------
  // Delete: begin, delete genre links, delete the movie, commit
  // ---------------------------------------------------------------------

  function DeleteOutcome(t: Tables, id: int, fault: Option<Fault>): (Tables, Option<Error>) {
    if FaultIn(fault, 0, 4) then (t, Some(fault.value.err))
    else (t.(movies := t.movies - {id}, genres := RemoveLinks(t.genres, id)), None)
  }

  /**
   * A committed Delete removes the movie and its genre links and nothing
   * else: its category, age and series links and its selected rows are left
   * behind. A failed one changes nothing.
   */
  lemma DeleteResult(t: Tables, id: int, fault: Option<Fault>, k: int)
    ensures var (t', err) := DeleteOutcome(t, id, fault);
      && (err.Some? <==> FaultIn(fault, 0, 4))
      && (err.Some? ==> t' == t)
      && (err.None? ==>
            && t'.movies.Keys == t.movies.Keys - {id}
            && (forall j :: j in t'.movies ==> t'.movies[j] == t.movies[j])
            && LinksOf(t'.genres, k) == (if k == id then [] else LinksOf(t.genres, k))
            && t'.categories == t.categories && t'.ages == t.ages && t'.series == t.series
            && t'.selected == t.selected)
  {
    LinksOfRemove(t.genres, id, k);
  }

  // ---------------------------------------------------------------------
  // The repository
  // ---------------------------------------------------------------------

  class MoviesRepository {
    const db: Database

    constructor(db: Database)
      ensures this.db == db
    {
      this.db := db;
    }

    /** FindById: the cursor is what the driver returned for the join query of one id. */
    method FindById(c: Cursor<PlainRow>) returns (r: Result<Movie, Error>)
      ensures r == FindOne(c)
    {
      r := FoldOne(c);
    }

    /** FindAll: the cursor is what the driver returned for the listing join with roles. */
    method FindAll(c: Cursor<RoleRow>) returns (r: Result<seq<Movie>, Error>)
      ensures r == FindAllWithRoles(c)
    {
      r := FoldAllWithRoles(c);
    }

    method Create(movie: Movie, fault: Option<Fault>) returns (id: int, err: Option<Error>)
      modifies db
      ensures (db.State(), id, err) == CreateOutcome(old(db.State()), movie, fault)
    {
      if FailsAt(fault, 0) {                                   // Begin
        return 0, None;
      }
      if FailsAt(fault, 1) {                                   // insert ... returning id, and its scan
        return 0, None;
      }
      var newId := db.NextVal();
      var tx := db.State();
      tx := tx.(movies := tx.movies[newId := NewRow(movie.info, newId)]);
      var genres, categories: seq<Link>;
      var calls: nat;
      genres, calls, err := ExecInserts(tx.genres, newId, Map(movie.genres, GenreKey), fault, 2);
      if err.Some? {
        return 0, err;
      }
      categories, calls, err := ExecInserts(tx.categories, newId, Map(movie.categories, CategoryKey), fault, calls);
      if err.Some? {
        return 0, err;
      }
      if FailsAt(fault, calls) {                               // Commit
        return 0, None;
      }
      db.Commit(tx.(genres := genres, categories := categories));
      return newId, None;
    }

    method Update(id: int, movie: Movie, fault: Option<Fault>) returns (err: Option<Error>)
      modifies db
      ensures (db.State(), err) == UpdateOutcome(old(db.State()), id, movie, fault)
    {
      if FailsAt(fault, 0) {                                   // Begin
        return Some(fault.value.err);
      }
      var before := db.State();
      var tx := before;
      if FailsAt(fault, 1) {                                   // update movies
        return Some(fault.value.err);
      }
      if id in tx.movies {
        tx := tx.(movies := tx.movies[id := Edited(tx.movies[id], movie.info)]);
      }
      if FailsAt(fault, 2) {                                   // delete genre links
        return Some(fault.value.err);
      }
      tx := tx.(genres := RemoveLinks(tx.genres, id));
      // Each insert goes through the pool, not the transaction, and is committed at once.
      var genres: seq<Link>;
      var calls: nat;
      genres, calls, err := ExecInserts(db.movieGenres, id, Map(movie.genres, GenreKey), fault, 3);
      db.movieGenres := genres;
      if err.Some? {
        return;
      }
      if FailsAt(fault, calls) {                               // Commit
        return Some(fault.value.err);
      }
      // The transaction's delete applies to the rows it saw; rows inserted since stay.
      db.Commit(tx.(genres := tx.genres + db.movieGenres[|before.genres|..]));
    }

    /**
     * Update corrected: the genre inserts go through the transaction, so
     * nothing is written unless the commit succeeds.
     */
    method AtomicUpdate(id: int, movie: Movie, fault: Option<Fault>) returns (err: Option<Error>)
      modifies db
      ensures (db.State(), err) == AtomicUpdateOutcome(old(db.State()), id, movie, fault)
    {
      if FailsAt(fault, 0) {                                   // Begin
        return Some(fault.value.err);
      }
      var tx := db.State();
      if FailsAt(fault, 1) {                                   // update movies
        return Some(fault.value.err);
      }
      if id in tx.movies {
        tx := tx.(movies := tx.movies[id := Edited(tx.movies[id], movie.info)]);
      }
      if FailsAt(fault, 2) {                                   // delete genre links
        return Some(fault.value.err);
      }
      tx := tx.(genres := RemoveLinks(tx.genres, id));
      var genres: seq<Link>;
      var calls: nat;
      genres, calls, err := ExecInserts(tx.genres, id, Map(movie.genres, GenreKey), fault, 3);
      if err.Some? {
        return;
      }
      if FailsAt(fault, calls) {                               // Commit
        return Some(fault.value.err);
      }
      db.Commit(tx.(genres := genres));
    }

    method Delete(id: int, fault: Option<Fault>) returns (err: Option<Error>)
      modifies db
      ensures (db.State(), err) == DeleteOutcome(old(db.State()), id, fault)
    {
      if FailsAt(fault, 0) {                                   // Begin
        return Some(fault.value.err);
      }
      var tx := db.State();
      if FailsAt(fault, 1) {
        return Some(fault.value.err);
      }
      tx := tx.(genres := RemoveLinks(tx.genres, id));
      if FailsAt(fault, 2) {
        return Some(fault.value.err);
      }
      tx := tx.(movies := tx.movies - {id});
      if FailsAt(fault, 3) {                                   // Commit
        return Some(fault.value.err);
      }
      db.Commit(tx);
      return None;
    }
  }
}
