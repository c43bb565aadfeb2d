/**
 * The selected (favourites) list (repositories/selectedRepository.go): the
 * listing of selected movies, and adding and removing a movie.
 */
module Selected {
  import opened Wrappers
  import opened Models
  import opened Seqs
  import opened Rows
  import opened Aggregator
  import opened Folds
  import opened Store

  function SelectionMovie(s: Selection): int { s.movieId }

  /** The rows of the selected list that name movie `id`, in list order. */
  function EntriesOf(list: seq<Selection>, id: int): seq<Selection> {
    Select(list, SelectionMovie, id)
  }

  /** `DELETE FROM selected WHERE movie_id = id`. */
  function Without(list: seq<Selection>, id: int): seq<Selection> {
    if list == [] then []
    else if list[|list| - 1].movieId == id then Without(list[..|list| - 1], id)
    else Without(list[..|list| - 1], id) + [list[|list| - 1]]
  }

  /** The store and returned error of AddToSelectedMovie; `now` is what the clock read. */
  function AddOutcome(t: Tables, movieId: int, now: int, fault: Option<Fault>): (Tables, Option<Error>) {
    if FailsAt(fault, 0) then (t, Some(fault.value.err))
    else (t.(selected := t.selected + [Selection(movieId, now)]), None)
  }

  /** The store and returned error of RemoveFromSelectedlist; id 0 issues no call at all. */
  function RemoveOutcome(t: Tables, movieId: int, fault: Option<Fault>): (Tables, Option<Error>) {
    if movieId == 0 then (t, None)
    else if FailsAt(fault, 0) then (t, Some(fault.value.err))
    else (t.(selected := Without(t.selected, movieId)), None)
  }

  /**
   * Removing a movie empties its entries and leaves every other movie's
   * entries, in order, as they were.
   */
  lemma {:induction false} EntriesOfWithout(list: seq<Selection>, id: int, k: int)
    ensures EntriesOf(Without(list, id), k) == if k == id then [] else EntriesOf(list, k)
  {
    if list != [] {
      var p := list[..|list| - 1];
      var x := list[|list| - 1];
      assert list == p + [x];
      EntriesOfWithout(p, id, k);
      SelectSnoc(p, x, SelectionMovie, k);
      if x.movieId != id {
        SelectSnoc(Without(p, id), x, SelectionMovie, k);
      }
    }
  }

  /** Removing twice is removing once. */
  lemma {:induction false} WithoutIdempotent(list: seq<Selection>, id: int)
    ensures Without(Without(list, id), id) == Without(list, id)
  {
    if list != [] {
      var p := list[..|list| - 1];
      var x := list[|list| - 1];
      WithoutIdempotent(p, id);
      if x.movieId != id {
        var w := Without(p, id) + [x];
        assert w[..|w| - 1] == Without(p, id);
      }
    }
  }

  /**
   * Adding a movie appends one entry for it at the end of the list; the
   * entries of other movies do not change. A failed add changes nothing.
   */
  lemma AddAppends(t: Tables, movieId: int, now: int, fault: Option<Fault>, k: int)
    ensures var (t', err) := AddOutcome(t, movieId, now, fault);
      && (err.Some? <==> FailsAt(fault, 0))
      && (err.Some? ==> t' == t)
      && (err.None? ==>
            EntriesOf(t'.selected, k) == EntriesOf(t.selected, k) + (if k == movieId then [Selection(movieId, now)] else []))
      && t' == t.(selected := t'.selected)
  {
    SelectSnoc(t.selected, Selection(movieId, now), SelectionMovie, k);
  }

  /**
   * Removing a movie takes every one of its entries off the list, however
   * often it was added, and keeps the other entries; a failed remove, or
   * one for id 0, changes nothing.
   */
  lemma RemoveDrops(t: Tables, movieId: int, fault: Option<Fault>, k: int)
    ensures var (t', err) := RemoveOutcome(t, movieId, fault);
      && (err.Some? <==> movieId != 0 && FailsAt(fault, 0))
      && (err.Some? || movieId == 0 ==> t' == t)
      && (err.None? && movieId != 0 ==>
            EntriesOf(t'.selected, k) == (if k == movieId then [] else EntriesOf(t.selected, k)))
      && t' == t.(selected := t'.selected)
  {
    EntriesOfWithout(t.selected, movieId, k);
  }

  /** Removing a movie just added leaves the list as removing it without the add would. */
  lemma {:induction false} AddThenRemove(t: Tables, movieId: int, now: int)
    requires movieId != 0
    ensures RemoveOutcome(AddOutcome(t, movieId, now, None).0, movieId, None) == RemoveOutcome(t, movieId, None)
  {
    var list := t.selected + [Selection(movieId, now)];
    assert list[..|list| - 1] == t.selected;
  }

  class SelectedlistRepository {
    const db: Database

    constructor(db: Database)
      ensures this.db == db
    {
      this.db := db;
    }

    /** The cursor is what the driver returned for the selected-list join, ordered by time added. */
    method GetMoviesFromSelectedlist(c: Cursor<SeriesRow>) returns (r: Result<seq<Movie>, Error>)
      ensures r == FindAllWithSeries(c)
    {
      r := FoldAllWithSeries(c);
    }

    method AddToSelectedMovie(movieId: int, now: int, fault: Option<Fault>) returns (err: Option<Error>)
      modifies db
      ensures (db.State(), err) == AddOutcome(old(db.State()), movieId, now, fault)
    {
      if FailsAt(fault, 0) {
        return Some(fault.value.err);
      }
      db.selected := db.selected + [Selection(movieId, now)];
      return None;
    }

    method RemoveFromSelectedlist(movieId: int, fault: Option<Fault>) returns (err: Option<Error>)
      modifies db
      ensures (db.State(), err) == RemoveOutcome(old(db.State()), movieId, fault)
    {
      if movieId != 0 {
        if FailsAt(fault, 0) {
          return Some(fault.value.err);
        }
        db.selected := Without(db.selected, movieId);
      }
      return None;
    }
  }
}
