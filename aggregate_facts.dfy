/**
 * What the movie read paths promise about the aggregates they build, proved
 * about the reference definitions of the Aggregator module (and so, through
 * the Folds module, about the loops).
 */
module AggregateFacts {
  import opened Wrappers
  import opened Models
  import opened Seqs
  import opened Rows
  import opened Aggregator

  // ---------------------------------------------------------------------
  // Single-movie reads
  // ---------------------------------------------------------------------

  /** Every element of the non-nil series of `rows` has a series id, and comes from a row that has one. */
  lemma SeriesOfRowsNonNil(rows: seq<SeriesRow>, s: AllSeries)
    requires s in SeriesOfRows(rows)
    ensures s.id.Some?
    ensures exists r :: r in rows && HasSeries(r) && r.extra == s
  {
    var f := Filter(rows, HasSeries);
    DedupIn(Map(f, SeriesOf), AllSeriesKey, s);
    var i :| 0 <= i < |Map(f, SeriesOf)| && Map(f, SeriesOf)[i] == s;
    assert f[i] in f;
  }

  /**
   * The admin single-movie read: the scalar columns are those of the first
   * row; genres, categories and ages list each id of the rows once, as its
   * first occurrence, in first-seen order; series likewise over the rows
   * whose series id is not NULL, and none of them has a NULL id.
   */
  lemma CollapseWithSeriesFacts(rows: seq<SeriesRow>)
    requires |rows| > 0
    ensures CollapseWithSeries(rows).info == rows[0].info
    ensures FirstSeen(CollapseWithSeries(rows).genres, Map(rows, GenreOf), GenreKey)
    ensures FirstSeen(CollapseWithSeries(rows).categories, Map(rows, CategoryOf), CategoryKey)
    ensures FirstSeen(CollapseWithSeries(rows).ages, Map(rows, AgeOf), AgeKey)
    ensures FirstSeen(CollapseWithSeries(rows).allSeries, Map(Filter(rows, HasSeries), SeriesOf), AllSeriesKey)
    ensures forall s :: s in CollapseWithSeries(rows).allSeries ==> s.id.Some?
    ensures CollapseWithSeries(rows).roles == []
  {
    DedupFirstSeen(Map(rows, GenreOf), GenreKey);
    DedupFirstSeen(Map(rows, CategoryOf), CategoryKey);
    DedupFirstSeen(Map(rows, AgeOf), AgeKey);
    DedupFirstSeen(Map(Filter(rows, HasSeries), SeriesOf), AllSeriesKey);
    forall s | s in CollapseWithSeries(rows).allSeries ensures s.id.Some? {
      SeriesOfRowsNonNil(rows, s);
    }
  }

  /** The plain single-movie read: as above, with no series and no roles. */
  lemma CollapseFacts(rows: seq<PlainRow>)
    requires |rows| > 0
    ensures Collapse(rows).info == rows[0].info
    ensures FirstSeen(Collapse(rows).genres, Map(rows, GenreOf), GenreKey)
    ensures FirstSeen(Collapse(rows).categories, Map(rows, CategoryOf), CategoryKey)
    ensures FirstSeen(Collapse(rows).ages, Map(rows, AgeOf), AgeKey)
    ensures Collapse(rows).allSeries == [] && Collapse(rows).roles == []
  {
    DedupFirstSeen(Map(rows, GenreOf), GenreKey);
    DedupFirstSeen(Map(rows, CategoryOf), CategoryKey);
    DedupFirstSeen(Map(rows, AgeOf), AgeKey);
  }

  /**
   * A single-movie read fails exactly when the rows could not be fetched or
   * there were none; the error of a failed scan wins over the cursor's own.
   */
  lemma FindOneWithSeriesOutcome(c: Cursor<SeriesRow>)
    ensures FindOneWithSeries(c).Success? <==> Fetched(c).Success? && Fetched(c).value != []
    ensures Fetched(c) == Success([]) ==> FindOneWithSeries(c) == Failure(NilDereference)
    ensures forall i :: c.Cursor? && 0 <= i < |c.scans| && c.scans[i].ScanFailed? &&
                        (forall j :: 0 <= j < i ==> c.scans[j].Scanned?) ==>
                        FindOneWithSeries(c) == Failure(c.scans[i].err)
  {
    if c.Cursor? {
      forall i | 0 <= i < |c.scans| && c.scans[i].ScanFailed? && (forall j :: 0 <= j < i ==> c.scans[j].Scanned?)
        ensures FindOneWithSeries(c) == Failure(c.scans[i].err)
      {
        DecodeFirstFailure(c.scans, i);
      }
    }
  }

  // ---------------------------------------------------------------------
  // Listings
  // ---------------------------------------------------------------------

  /** The movie ids of a listing: each id of the rows once, with the scalar columns of its first row, in first-seen order. */
  ghost predicate ListsMovies<X>(movies: seq<Movie>, rows: seq<Row<X>>) {
    && UniqueKeys(movies, MovieKey)
    && Keys(movies, MovieKey) == Keys(rows, MovieId)
    && (forall i :: 0 <= i < |movies| ==>
          movies[i].info.id in Keys(rows, MovieId) &&
          movies[i].info == rows[FirstIndex(rows, MovieId, movies[i].info.id)].info)
    && (forall i, j :: 0 <= i < j < |movies| ==>
          movies[i].info.id in Keys(rows, MovieId) && movies[j].info.id in Keys(rows, MovieId) &&
          FirstIndex(rows, MovieId, movies[i].info.id) < FirstIndex(rows, MovieId, movies[j].info.id))
  }

  /** A listing over the first rows of each movie id lists the movies as ListsMovies says. */
  lemma ListsFirsts<X>(movies: seq<Movie>, rows: seq<Row<X>>)
    requires |movies| == |Dedup(rows, MovieId)|
    requires forall i :: 0 <= i < |movies| ==> movies[i].info == Dedup(rows, MovieId)[i].info
    ensures ListsMovies(movies, rows)
  {
    var firsts := Dedup(rows, MovieId);
    DedupFirstSeen(rows, MovieId);
    KeysPointwise(movies, MovieKey, firsts, MovieId);
  }

  lemma AggregateWithSeriesMovies(rows: seq<SeriesRow>)
    ensures ListsMovies(AggregateWithSeries(rows), rows)
  {
    ListsFirsts(AggregateWithSeries(rows), rows);
  }

  lemma AggregateWithRolesMovies(rows: seq<RoleRow>)
    ensures ListsMovies(AggregateWithRoles(rows), rows)
  {
    ListsFirsts(AggregateWithRoles(rows), rows);
  }

  /**
   * Each movie of the admin listing lists the genres, categories and ages
   * of its own rows, each id once, first-seen; its series carry distinct
   * ids.
   */
  lemma AggregateWithSeriesRelated(rows: seq<SeriesRow>, i: nat)
    requires i < |AggregateWithSeries(rows)|
    ensures var m := AggregateWithSeries(rows)[i]; var own := Select(rows, MovieId, m.info.id);
      && FirstSeen(m.genres, Map(own, GenreOf), GenreKey)
      && FirstSeen(m.categories, Map(own, CategoryOf), CategoryKey)
      && FirstSeen(m.ages, Map(own, AgeOf), AgeKey)
      && UniqueKeys(m.allSeries, AllSeriesKey)
      && m.roles == []
  {
    var m := AggregateWithSeries(rows)[i];
    var k := m.info.id;
    var own := Select(rows, MovieId, k);
    DedupFirstSeen(Map(own, GenreOf), GenreKey);
    DedupFirstSeen(Map(own, CategoryOf), CategoryKey);
    DedupFirstSeen(Map(own, AgeOf), AgeKey);
    var heads := SeriesHeads(rows);
    DedupUnique(Filter(rows, HasSeries), SeriesKey);
    SelectUnique(heads, MovieId, k, SeriesKey);
    var mine := Select(heads, MovieId, k);
    KeysPointwise(mine, SeriesKey, Map(mine, SeriesOf), AllSeriesKey);
  }

  /** Each movie of the plain listing: as above for genres, categories and ages, and the same for its roles. */
  lemma AggregateWithRolesRelated(rows: seq<RoleRow>, i: nat)
    requires i < |AggregateWithRoles(rows)|
    ensures var m := AggregateWithRoles(rows)[i]; var own := Select(rows, MovieId, m.info.id);
      && FirstSeen(m.genres, Map(own, GenreOf), GenreKey)
      && FirstSeen(m.categories, Map(own, CategoryOf), CategoryKey)
      && FirstSeen(m.ages, Map(own, AgeOf), AgeKey)
      && FirstSeen(m.roles, Map(own, RoleOf), RoleKey)
      && m.allSeries == []
  {
    var m := AggregateWithRoles(rows)[i];
    var own := Select(rows, MovieId, m.info.id);
    DedupFirstSeen(Map(own, GenreOf), GenreKey);
    DedupFirstSeen(Map(own, CategoryOf), CategoryKey);
    DedupFirstSeen(Map(own, AgeOf), AgeKey);
    DedupFirstSeen(Map(own, RoleOf), RoleKey);
  }

  /** The first row, over the whole result, whose series id is `q`. */
  function SeriesHead(rows: seq<SeriesRow>, q: int): (h: SeriesRow)
    requires q in SeenSeries(rows)
    ensures h in rows && HasSeries(h) && SeriesKey(h) == q
  {
    var f := Filter(rows, HasSeries);
    var h := f[FirstIndex(f, SeriesKey, q)];
    assert h in f;
    h
  }

  /**
   * A series in the admin listing never has a NULL id, and is the series of
   * the first row (over the whole result) carrying its id, a row of the
   * movie it is listed under.
   */
  lemma AggregateSeriesSound(rows: seq<SeriesRow>, i: nat, s: AllSeries)
    requires i < |AggregateWithSeries(rows)| && s in AggregateWithSeries(rows)[i].allSeries
    ensures s.id.Some? && AllSeriesKey(s) in SeenSeries(rows)
    ensures SeriesHead(rows, AllSeriesKey(s)).extra == s
    ensures MovieId(SeriesHead(rows, AllSeriesKey(s))) == AggregateWithSeries(rows)[i].info.id
  {
    var k := AggregateWithSeries(rows)[i].info.id;
    var f := Filter(rows, HasSeries);
    var heads := SeriesHeads(rows);
    var mine := Select(heads, MovieId, k);
    var t :| 0 <= t < |mine| && Map(mine, SeriesOf)[t] == s;
    var h := mine[t];
    assert h in heads;
    var u :| 0 <= u < |heads| && heads[u] == h;
    DedupAt(f, SeriesKey, u);
    assert h in f;
    KeysAt(f, SeriesKey, SeriesKey(h));
  }

  /**
   * Every series id seen in the rows is listed, under the movie of the
   * first row carrying it, as that row's series.
   */
  lemma AggregateSeriesComplete(rows: seq<SeriesRow>, q: int)
    requires q in SeenSeries(rows)
    ensures exists i ::
      && 0 <= i < |AggregateWithSeries(rows)|
      && AggregateWithSeries(rows)[i].info.id == MovieId(SeriesHead(rows, q))
      && SeriesHead(rows, q).extra in AggregateWithSeries(rows)[i].allSeries
  {
    var h := SeriesHead(rows, q);
    SeriesHeadListed(rows, q);
    var i := MovieListed(rows, q);
    HeadSeriesAttached(rows, h);
    AggregateSeriesAt(rows, i);
  }

  /** The first row carrying a series id is one of the series heads. */
  lemma SeriesHeadListed(rows: seq<SeriesRow>, q: int)
    requires q in SeenSeries(rows)
    ensures SeriesHead(rows, q) in SeriesHeads(rows)
  {
    var f := Filter(rows, HasSeries);
    var heads := SeriesHeads(rows);
    DedupKeys(f, SeriesKey);
    KeysAt(heads, SeriesKey, q);
    var t :| 0 <= t < |heads| && SeriesKey(heads[t]) == q;
    DedupAt(f, SeriesKey, t);
    assert heads[t] == SeriesHead(rows, q);
  }

  /** The movie of a series head has an aggregate in the listing. */
  lemma MovieListed(rows: seq<SeriesRow>, q: int) returns (i: nat)
    requires q in SeenSeries(rows)
    ensures i < |AggregateWithSeries(rows)| && AggregateWithSeries(rows)[i].info.id == MovieId(SeriesHead(rows, q))
  {
    var h := SeriesHead(rows, q);
    var movies := AggregateWithSeries(rows);
    var u :| 0 <= u < |rows| && rows[u] == h;
    KeysAt(rows, MovieId, MovieId(h));
    AggregateWithSeriesMovies(rows);
    KeysAt(movies, MovieKey, MovieId(h));
    i :| 0 <= i < |movies| && MovieKey(movies[i]) == MovieId(h);
  }

  /** A series head's series is among those attached to its own movie. */
  lemma HeadSeriesAttached(rows: seq<SeriesRow>, h: SeriesRow)
    requires h in SeriesHeads(rows)
    ensures h.extra in Map(Select(SeriesHeads(rows), MovieId, MovieId(h)), SeriesOf)
  {
    var mine := Select(SeriesHeads(rows), MovieId, MovieId(h));
    assert h in mine;
    var v :| 0 <= v < |mine| && mine[v] == h;
    assert Map(mine, SeriesOf)[v] == h.extra;
  }

  /** The series attached to the `i`-th aggregate are those of the heads of its movie id. */
  lemma AggregateSeriesAt(rows: seq<SeriesRow>, i: nat)
    requires i < |AggregateWithSeries(rows)|
    ensures AggregateWithSeries(rows)[i].allSeries ==
      Map(Select(SeriesHeads(rows), MovieId, AggregateWithSeries(rows)[i].info.id), SeriesOf)
  {
  }

  /**
   * A movie's series come in the order their ids first appear among the
   * rows that carry a series, over the whole result (each is appended the
   * first time its id is met).
   */
  lemma AggregateSeriesOrdered(rows: seq<SeriesRow>, i: nat, p: nat, q: nat)
    requires i < |AggregateWithSeries(rows)| && p < q < |AggregateWithSeries(rows)[i].allSeries|
    ensures var s := AggregateWithSeries(rows)[i].allSeries; var f := Filter(rows, HasSeries);
      && AllSeriesKey(s[p]) in Keys(f, SeriesKey) && AllSeriesKey(s[q]) in Keys(f, SeriesKey)
      && FirstIndex(f, SeriesKey, AllSeriesKey(s[p])) < FirstIndex(f, SeriesKey, AllSeriesKey(s[q]))
  {
    var k := AggregateWithSeries(rows)[i].info.id;
    var f := Filter(rows, HasSeries);
    var heads := SeriesHeads(rows);
    var mine := Select(heads, MovieId, k);
    SelectOrdered(heads, MovieId, k, p, q);
    var a, b :| 0 <= a < b < |heads| && heads[a] == mine[p] && heads[b] == mine[q];
    DedupOrdered(f, SeriesKey, a, b);
  }

  /** No series id of the admin listing is attached to two movies (series are de-duplicated across the whole result). */
  lemma AggregateSeriesOnce(rows: seq<SeriesRow>, i: nat, j: nat, s: AllSeries, t: AllSeries)
    requires i < |AggregateWithSeries(rows)| && j < |AggregateWithSeries(rows)|
    requires s in AggregateWithSeries(rows)[i].allSeries && t in AggregateWithSeries(rows)[j].allSeries
    requires s.id == t.id
    ensures i == j && s == t
  {
    AggregateSeriesSound(rows, i, s);
    AggregateSeriesSound(rows, j, t);
    AggregateWithSeriesMovies(rows);
  }
}
