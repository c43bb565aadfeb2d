/**
 * The database the write paths change, as an in-memory store: the `movies`
 * table, the four association tables, and the `selected` table.
 *
 * Association tables are sequences of rows in insertion order (no unique
 * constraint is assumed, so a row can occur twice). A database call that
 * fails is described by a `Fault`: which call of the operation fails, counted
 * from 0 in the order the operation issues them, and with what error.
 */
module Store {
  import opened Wrappers
  import opened Models
  import opened Seqs

  /** One row of movies_genres, movies_categories, movies_ages or movies_allseries. */
  datatype Link = Link(movieId: int, otherId: int)

  /** One row of `selected`; the time stamp is whatever the caller's clock read. */
  datatype Selection = Selection(movieId: int, addedAt: int)

  /** The call that fails (0 = the first call of the operation) and the error it reports. */
  datatype Fault = Fault(step: nat, err: Error)

  /** The whole store as one value. `nextId` is the next value of the movies id sequence. */
  datatype Tables = Tables(
    movies: map<int, MovieInfo>,
    nextId: int,
    genres: seq<Link>,
    categories: seq<Link>,
    ages: seq<Link>,
    series: seq<Link>,
    selected: seq<Selection>)

  /** Every stored movie id lies below the next value of the id sequence. */
  predicate IdsBelow(t: Tables) {
    forall k :: k in t.movies ==> k < t.nextId
  }

  /** Call number `step` fails. */
  predicate FailsAt(fault: Option<Fault>, step: nat) {
    fault.Some? && fault.value.step == step
  }

  /** One of the `n` calls numbered from `from` fails. */
  predicate FaultIn(fault: Option<Fault>, from: nat, n: nat) {
    fault.Some? && from <= fault.value.step < from + n
  }

  /** How many of the `n` calls numbered from `from` succeed before the failing one. */
  function Completed(fault: Option<Fault>, from: nat, n: nat): (k: nat)
    ensures k <= n
    ensures k < n <==> FaultIn(fault, from, n)
  {
    if FaultIn(fault, from, n) then fault.value.step - from else n
  }

  /** The rows (id, o) for each o of `others`, in order. */
  function Pairs(id: int, others: seq<int>): (links: seq<Link>)
    ensures |links| == |others|
    ensures forall i :: 0 <= i < |others| ==> links[i] == Link(id, others[i])
  {
    seq(|others|, i requires 0 <= i < |others| => Link(id, others[i]))
  }

  function LinkMovie(l: Link): int { l.movieId }

  /** The rows of a table that belong to movie `id`, in table order: the movie's view of the table. */
  function LinksOf(t: seq<Link>, id: int): seq<Link> {
    Select(t, LinkMovie, id)
  }

  /** `DELETE FROM <table> WHERE movie_id = id`. */
  function RemoveLinks(t: seq<Link>, id: int): seq<Link> {
    if t == [] then []
    else if t[|t| - 1].movieId == id then RemoveLinks(t[..|t| - 1], id)
    else RemoveLinks(t[..|t| - 1], id) + [t[|t| - 1]]
  }

  lemma {:induction false} LinksOfAppend(a: seq<Link>, b: seq<Link>, k: int)
    ensures LinksOf(a + b, k) == LinksOf(a, k) + LinksOf(b, k)
  {
    if b != [] {
      var p := b[..|b| - 1];
      var x := b[|b| - 1];
      assert a + b == (a + p) + [x];
      assert b == p + [x];
      LinksOfAppend(a, p, k);
      SelectSnoc(a + p, x, LinkMovie, k);
      SelectSnoc(p, x, LinkMovie, k);
    } else {
      assert a + b == a;
    }
  }

  /** The inserted rows belong to `id` alone. */
  lemma {:induction false} LinksOfPairs(id: int, others: seq<int>, k: int)
    ensures LinksOf(Pairs(id, others), k) == if k == id then Pairs(id, others) else []
  {
    if others != [] {
      var p := others[..|others| - 1];
      var o := others[|others| - 1];
      assert Pairs(id, others) == Pairs(id, p) + [Link(id, o)];
      LinksOfPairs(id, p, k);
      SelectSnoc(Pairs(id, p), Link(id, o), LinkMovie, k);
    }
  }

  /** Deleting a movie's rows empties its view of the table and leaves every other movie's view as it was. */
  lemma {:induction false} LinksOfRemove(t: seq<Link>, id: int, k: int)
    ensures LinksOf(RemoveLinks(t, id), k) == if k == id then [] else LinksOf(t, k)
  {
    if t != [] {
      var p := t[..|t| - 1];
      var x := t[|t| - 1];
      assert t == p + [x];
      LinksOfRemove(p, id, k);
      SelectSnoc(p, x, LinkMovie, k);
      if x.movieId != id {
        SelectSnoc(RemoveLinks(p, id), x, LinkMovie, k);
      }
    }
  }

  /**
   * Deleting a movie's rows and inserting new ones makes the new rows the
   * movie's whole view of the table, and leaves other movies' views alone.
   */
  lemma LinksOfReplace(t: seq<Link>, id: int, others: seq<int>, k: int)
    ensures LinksOf(RemoveLinks(t, id) + Pairs(id, others), k) ==
      if k == id then Pairs(id, others) else LinksOf(t, k)
  {
    LinksOfAppend(RemoveLinks(t, id), Pairs(id, others), k);
    LinksOfRemove(t, id, k);
    LinksOfPairs(id, others, k);
  }

  /** Appending rows for `id` extends its view of the table by those rows and changes no other view. */
  lemma LinksOfInsert(t: seq<Link>, id: int, others: seq<int>, k: int)
    ensures LinksOf(t + Pairs(id, others), k) == LinksOf(t, k) + (if k == id then Pairs(id, others) else [])
  {
    LinksOfAppend(t, Pairs(id, others), k);
    LinksOfPairs(id, others, k);
  }

  /**
   * A loop of `insert into <table>(movie_id, other_id) values(id, o)` calls,
   * numbered from `calls`, that stops at the first failing call: the rows
   * inserted before it stay in `table'`, and the call count and the error
   * say where the loop stopped.
   */
  method ExecInserts(table: seq<Link>, id: int, others: seq<int>, fault: Option<Fault>, calls: nat)
    returns (table': seq<Link>, calls': nat, err: Option<Error>)
    ensures table' == table + Pairs(id, others[..Completed(fault, calls, |others|)])
    ensures calls' == calls + Completed(fault, calls, |others|)
    ensures err == if FaultIn(fault, calls, |others|) then Some(fault.value.err) else None
    ensures err.None? ==> table' == table + Pairs(id, others) && calls' == calls + |others|
  {
    table', calls', err := table, calls, None;
    var i := 0;
    while i < |others|
      invariant 0 <= i <= |others|
      invariant calls' == calls + i
      invariant table' == table + Pairs(id, others[..i])
      invariant !FaultIn(fault, calls, i)
    {
      if FailsAt(fault, calls') {
        err := Some(fault.value.err);
        return;
      }
      assert Pairs(id, others[..i + 1]) == Pairs(id, others[..i]) + [Link(id, others[i])];
      table' := table' + [Link(id, others[i])];
      calls' := calls' + 1;
      i := i + 1;
    }
    assert others[..i] == others;
  }

  /** The database the repositories share; each field is one table (or the id sequence). */
  class Database {
    var movies: map<int, MovieInfo>
    var nextId: int
    var movieGenres: seq<Link>
    var movieCategories: seq<Link>
    var movieAges: seq<Link>
    var movieSeries: seq<Link>
    var selected: seq<Selection>

    /** The current contents of every table. */
    function State(): Tables
      reads this
    {
      Tables(movies, nextId, movieGenres, movieCategories, movieAges, movieSeries, selected)
    }

    constructor(t: Tables)
      ensures State() == t
    {
      movies, nextId := t.movies, t.nextId;
      movieGenres, movieCategories, movieAges, movieSeries := t.genres, t.categories, t.ages, t.series;
      selected := t.selected;
    }

    /**
     * `nextval` on the movies id sequence: the value is handed out at once,
     * outside any transaction, and is not given back if the transaction
     * later rolls back.
     */
    method NextVal() returns (id: int)
      modifies this
      ensures id == old(nextId)
      ensures State() == old(State()).(nextId := old(nextId) + 1)
    {
      id := nextId;
      nextId := nextId + 1;
    }

    /** A successful commit: the transaction's working copy becomes the database. */
    method Commit(t: Tables)
      modifies this
      ensures State() == t
    {
      movies, nextId := t.movies, t.nextId;
      movieGenres, movieCategories, movieAges, movieSeries := t.genres, t.categories, t.ages, t.series;
      selected := t.selected;
    }
  }
}
