/**
 * The in-memory genre store (repositories/genresRepository.go): a map from
 * id to genre, seeded with three genres, with lookup, listing and
 * create/update/delete. Go visits a map in an unspecified order; the
 * listings here pick the next key arbitrarily and report, as a ghost
 * output, the order they used.
 */
module Genres {
  import opened Wrappers
  import opened Models

  const NotFoundMessage: string := "genre not found"

  /** Go's zero value of models.Genre. */
  const ZeroGenre: Genre := Genre(0, "", "")

  /** The three genres the store starts with. */
  function InitialGenres(): map<int, Genre> {
    map[1 := Genre(1, "Драма", ""), 2 := Genre(2, "Комедия", ""), 3 := Genre(3, "Ужасы", "")]
  }

  /** `order` lists every key of `keys` exactly once. */
  ghost predicate Enumerates(order: seq<int>, keys: set<int>) {
    && (forall i, j :: 0 <= i < j < |order| ==> order[i] != order[j])
    && (forall i :: 0 <= i < |order| ==> order[i] in keys)
    && (forall k :: k in keys ==> k in order)
  }

  /** The genres stored at the keys of `order`, in that order. */
  function Lookup(db: map<int, Genre>, order: seq<int>): (gs: seq<Genre>)
    requires forall i :: 0 <= i < |order| ==> order[i] in db
    ensures |gs| == |order|
  {
    seq(|order|, i requires 0 <= i < |order| => db[order[i]])
  }

  /** `n` copies of `g`. */
  function Copies(g: Genre, n: nat): seq<Genre> {
    if n == 0 then [] else Copies(g, n - 1) + [g]
  }

  /** Each genre of `vals`, repeated once for every occurrence of its id in `ids`. */
  function ByIds(vals: seq<Genre>, ids: seq<int>): seq<Genre> {
    if vals == [] then []
    else
      var v := vals[|vals| - 1];
      ByIds(vals[..|vals| - 1], ids) + Copies(v, multiset(ids)[v.id])
  }

  lemma {:induction false} CopiesCount(g: Genre, n: nat, x: Genre)
    ensures multiset(Copies(g, n))[x] == if x == g then n else 0
  {
    if n > 0 {
      CopiesCount(g, n - 1, x);
    }
  }

  /** One more stored genre at the end adds its copies at the end. */
  lemma ByIdsAppend(p: seq<Genre>, v: Genre, ids: seq<int>)
    ensures ByIds(p + [v], ids) == ByIds(p, ids) + Copies(v, multiset(ids)[v.id])
  {
    var vals := p + [v];
    assert vals[..|vals| - 1] == p;
  }

  /** Appending one stored genre adds its copies, and only to its own count. */
  lemma ByIdsSnoc(p: seq<Genre>, v: Genre, ids: seq<int>, g: Genre)
    ensures multiset(ByIds(p + [v], ids))[g] ==
      multiset(ByIds(p, ids))[g] + (if v == g then multiset(ids)[v.id] else 0)
  {
    ByIdsAppend(p, v, ids);
    CopiesCount(v, multiset(ids)[v.id], g);
  }

  lemma CountStep(x: nat, y: nat, a: nat, c: nat, hit: bool)
    requires y == a * c
    requires x == y + (if hit then c else 0)
    ensures x == (a + (if hit then 1 else 0)) * c
  {
    if hit {
      assert (a + 1) * c == a * c + c;
    }
  }

  /**
   * FindAllByIds keeps exactly the genres whose id is asked for: a genre
   * stored once comes out once per occurrence of its id in `ids`.
   */
  lemma {:induction false} ByIdsCount(vals: seq<Genre>, ids: seq<int>, g: Genre)
    ensures multiset(ByIds(vals, ids))[g] == multiset(vals)[g] * multiset(ids)[g.id]
  {
    if vals != [] {
      var p := vals[..|vals| - 1];
      var v := vals[|vals| - 1];
      assert vals == p + [v];
      ByIdsCount(p, ids, g);
      ByIdsSnoc(p, v, ids, g);
      assert multiset(vals)[g] == multiset(p)[g] + (if v == g then 1 else 0);
      CountStep(multiset(ByIds(vals, ids))[g], multiset(ByIds(p, ids))[g], multiset(p)[g], multiset(ids)[g.id], v == g);
    }
  }

  /** Only asked-for stored genres come out, and each of them does. */
  lemma ByIdsMembers(vals: seq<Genre>, ids: seq<int>, g: Genre)
    ensures g in ByIds(vals, ids) <==> g in vals && g.id in ids
  {
    ByIdsCount(vals, ids, g);
    assert g in ByIds(vals, ids) <==> multiset(ByIds(vals, ids))[g] > 0;
    assert g in vals <==> multiset(vals)[g] > 0;
    assert g.id in ids <==> multiset(ids)[g.id] > 0;
  }

  /** A non-empty set has a member (the step before each arbitrary pick of a key). */
  lemma NonEmptyHasMember(s: set<int>)
    requires s != {}
    ensures exists x :: x in s
  {
    if forall x :: x !in s {
      assert false;
    }
  }

  /** Visiting one more unvisited key keeps the visit order an enumeration of the visited keys. */
  lemma EnumeratesStep(order: seq<int>, keys: set<int>, rest: set<int>, k: int)
    requires rest <= keys && k in rest
    requires Enumerates(order, keys - rest) && |order| == |keys - rest|
    ensures Enumerates(order + [k], keys - (rest - {k}))
    ensures |order + [k]| == |keys - (rest - {k})|
  {
    assert k !in order;
    assert keys - (rest - {k}) == (keys - rest) + {k};
  }

  lemma LookupSnoc(db: map<int, Genre>, order: seq<int>, k: int)
    requires forall i :: 0 <= i < |order| ==> order[i] in db
    requires k in db
    ensures Lookup(db, order + [k]) == Lookup(db, order) + [db[k]]
  {
  }

  /** Looking up an enumeration of the keys yields exactly the stored genres. */
  lemma LookupValues(db: map<int, Genre>, order: seq<int>)
    requires Enumerates(order, db.Keys)
    ensures forall g :: g in Lookup(db, order) <==> exists k :: k in db && db[k] == g
  {
    var vals := Lookup(db, order);
    forall g | exists k :: k in db && db[k] == g ensures g in vals {
      var k :| k in db && db[k] == g;
      assert k in db.Keys && k in order;
      var i :| 0 <= i < |order| && order[i] == k;
      assert vals[i] == g;
    }
    forall g | g in vals ensures exists k :: k in db && db[k] == g {
      var i :| 0 <= i < |vals| && vals[i] == g;
      assert order[i] in db && db[order[i]] == g;
    }
  }

  /** The store after Create as written, and the id it returns: the next id is the store's size plus one. */
  function Inserted(db: map<int, Genre>, genre: Genre): (map<int, Genre>, int) {
    var id := |db| + 1;
    (db[id := genre.(id := id)], id)
  }

  /**
   * As written, Create after a Delete can reuse a live id: delete genre 2
   * from the initial store and create a genre; it gets id 3 and replaces
   * "Ужасы", so the store does not grow.
   */
  lemma CreateOverwritesAfterDelete(genre: Genre)
    ensures var db := InitialGenres() - {2};
      var (db', id) := Inserted(db, genre);
      && id == 3 && 3 in db && db[3].title == "Ужасы"
      && db'[3] == genre.(id := 3)
      && db'.Keys == db.Keys
  {
    var db := InitialGenres() - {2};
    assert db.Keys == {1, 3};
  }

  class GenresRepository {
    var db: map<int, Genre>

    constructor()
      ensures db == InitialGenres()
    {
      db := InitialGenres();
    }

    /** The stored genre, or the zero genre and a not-found error. */
    function FindById(id: int): (r: (Genre, Option<Error>))
      reads this
      ensures r.1.None? <==> id in db
      ensures id in db ==> r.0 == db[id] && r.0 in db.Values
      ensures id !in db ==> r == (ZeroGenre, Some(NotFound(NotFoundMessage)))
    {
      if id in db then (db[id], None) else (ZeroGenre, Some(NotFound(NotFoundMessage)))
    }

    /** Every stored genre once, in the order the keys were visited. */
    method FindAll() returns (genres: seq<Genre>, ghost order: seq<int>)
      ensures Enumerates(order, db.Keys)
      ensures |genres| == |db| == |order|
      ensures forall i :: 0 <= i < |order| ==> genres[i] == db[order[i]]
      ensures forall g :: g in genres <==> exists k :: k in db && db[k] == g
    {
      genres, order := [], [];
      var rest := db.Keys;
      while rest != {}
        invariant rest <= db.Keys
        invariant Enumerates(order, db.Keys - rest)
        invariant |order| == |db.Keys - rest| && |genres| == |order|
        invariant forall i :: 0 <= i < |order| ==> genres[i] == db[order[i]]
        decreases |rest|
      {
        NonEmptyHasMember(rest);
        var k :| k in rest;
        EnumeratesStep(order, db.Keys, rest, k);
        genres := genres + [db[k]];
        order := order + [k];
        rest := rest - {k};
      }
      assert db.Keys - rest == db.Keys;
      assert genres == Lookup(db, order);
      LookupValues(db, order);
    }

    /** The genres whose id is in `ids`, one copy per occurrence, in the order the keys were visited. */
    method FindAllByIds(ids: seq<int>) returns (genres: seq<Genre>, ghost order: seq<int>)
      ensures Enumerates(order, db.Keys)
      ensures genres == ByIds(Lookup(db, order), ids)
      ensures forall g :: g in genres <==> (exists k :: k in db && db[k] == g) && g.id in ids
    {
      genres, order := [], [];
      var rest := db.Keys;
      while rest != {}
        invariant rest <= db.Keys
        invariant Enumerates(order, db.Keys - rest) && |order| == |db.Keys - rest|
        invariant genres == ByIds(Lookup(db, order), ids)
        decreases |rest|
      {
        NonEmptyHasMember(rest);
        var k :| k in rest;
        var v := db[k];
        genres := AppendMatches(genres, v, ids);
        EnumeratesStep(order, db.Keys, rest, k);
        LookupSnoc(db, order, k);
        ByIdsAppend(Lookup(db, order), v, ids);
        order := order + [k];
        rest := rest - {k};
      }
      assert db.Keys - rest == db.Keys;
      LookupValues(db, order);
      forall g ensures g in genres <==> (exists k :: k in db && db[k] == g) && g.id in ids {
        ByIdsMembers(Lookup(db, order), ids, g);
      }
    }

    /** Create as written: the id is the store's size plus one, whatever is stored there. */
    method Create(genre: Genre) returns (id: int)
      modifies this
      ensures (db, id) == Inserted(old(db), genre)
    {
      id := |db| + 1;
      var g := genre.(id := id);
      db := db[id := g];
    }

    /** Corrected Create: the id is one past the largest stored id, so no stored genre is replaced. */
    method CreateFresh(genre: Genre) returns (id: int)
      modifies this
      ensures id >= 1 && id !in old(db)
      ensures db == old(db)[id := genre.(id := id)]
      ensures |db| == |old(db)| + 1
    {
      id := 1;
      var rest := db.Keys;
      while rest != {}
        invariant rest <= db.Keys
        invariant id >= 1 && db == old(db)
        invariant forall k :: k in db.Keys && k !in rest ==> k < id
        decreases |rest|
      {
        NonEmptyHasMember(rest);
        var k :| k in rest;
        if k >= id {
          id := k + 1;
        }
        rest := rest - {k};
      }
      db := db[id := genre.(id := id)];
    }

    /** Only the title changes; a missing id gets the zero genre carrying the new title. */
    method Update(id: int, genre: Genre)
      modifies this
      ensures id in db && db[id].title == genre.title
      ensures old(id in db) ==> db[id] == old(db[id]).(title := genre.title)
      ensures old(id !in db) ==> db[id] == ZeroGenre.(title := genre.title)
      ensures forall k :: k in old(db) && k != id ==> k in db && db[k] == old(db[k])
      ensures db.Keys == old(db.Keys) + {id}
    {
      var original := if id in db then db[id] else ZeroGenre;
      original := original.(title := genre.title);
      db := db[id := original];
    }

    /** The key is gone and every other entry stays; deleting a missing key changes nothing. */
    method Delete(id: int)
      modifies this
      ensures db == old(db) - {id}
      ensures id !in db && forall k :: k in old(db) && k != id ==> k in db && db[k] == old(db[k])
    {
      db := db - {id};
    }
  }

  /** The inner loop of FindAllByIds: `v` once for each id of `ids` equal to its own. */
  method AppendMatches(genres: seq<Genre>, v: Genre, ids: seq<int>) returns (genres': seq<Genre>)
    ensures genres' == genres + Copies(v, multiset(ids)[v.id])
  {
    genres' := genres;
    var j := 0;
    while j < |ids|
      invariant 0 <= j <= |ids|
      invariant genres' == genres + Copies(v, multiset(ids[..j])[v.id])
    {
      assert ids[..j + 1] == ids[..j] + [ids[j]];
      if v.id == ids[j] {
        genres' := genres' + [v];
      }
      j := j + 1;
    }
    assert ids[..j] == ids;
  }
}
