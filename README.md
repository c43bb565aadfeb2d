# Ozinshe movie catalogue repositories, modelled in Dafny

This project models the repository layer of the Ozinshe movie catalogue backend. That layer consists of four repositories:

- **Admin movie repository** (`repositories/moviesAdminRepository.go`). It reads one movie or a filtered listing, creates, updates and deletes movies inside a transaction, and sets the watched flag.
- **Viewer movie repository** (`repositories/moviesRepository.go`). It offers the same reads without series and with roles, plus its own create, update and delete.
- **Selected list** (`repositories/selectedRepository.go`). It lists the favourite movies, and adds and removes a movie.
- **In-memory genre store** (`repositories/genresRepository.go`).

How the model is laid out:

- **Read paths.** Each read path is an imperative loop over the rows the driver returns (module `Folds`). Each loop is proved equal to a reference definition (module `Aggregator`):
  - a movie's genres, categories, ages, roles and series are the first-seen de-duplication, by id, of the values its join rows carry;
  - a listing holds one aggregate per movie id, in first-seen order.

  The properties these paths promise are proved about the reference definitions (module `AggregateFacts`). The driver's answer is an input (`Rows.Cursor`): a failed query, or a sequence of scans that each succeed or fail, followed by the cursor's own error.
- **Write paths.** These are methods on a `Store.Database` object whose fields are the tables. A transaction works on a copy of the tables and publishes it with `Commit`.
  - Which database call fails, and with what error, is a parameter (`Store.Fault`). Calls are numbered from 0 in the order the operation issues them.
  - Each write method is proved to produce the store and result that an `…Outcome` function describes.
  - What the write promises is proved about that function: all-or-nothing behaviour, which rows change, which movie's links change, and the returned id and error.
- **Genre store.** This is a class over a `map`. Go's unspecified map iteration order is modelled as an arbitrary choice of the next key, and the listings return the visit order as a ghost output.

## Model

| member | source | states |
|---|---|---|
| Rows.DecodeSuccess | repositories/moviesAdminRepository.go:87-124 | the scan loop yields rows exactly when every scan succeeded, and then one row per scan, in order |
| Rows.DecodeFirstFailure | repositories/moviesAdminRepository.go:94-124 | a failed scan loop returns the error of the first failed scan |
| Rows.DecodeFailureSticks | repositories/moviesAdminRepository.go:121-124 | once a scan has failed, later scans cannot change the outcome (the loop returns at once) |
| Folds.Contains | repositories/moviesAdminRepository.go:305-315 | the linear "already present?" scan finds an element exactly when its id is among the list's ids |
| Folds.CollectRelated | repositories/moviesRepository.go:98-111 | the category, genre and age steps of one single-movie iteration keep each list equal to the first-seen de-duplication of the rows so far, with the seen set equal to its ids |
| Folds.AbsorbWithSeries | repositories/moviesAdminRepository.go:126-150 | one admin single-movie iteration keeps the movie as the first row's columns, the related lists first-seen by id, and the series list the first-seen non-nil series |
| Folds.Absorb | repositories/moviesRepository.go:94-111 | one viewer single-movie iteration keeps the movie as the first row's columns and the related lists first-seen by id |
| Folds.AddUnseen | repositories/moviesAdminRepository.go:130-133 | the map-guarded append adds the element exactly when its id was unseen, and the seen set stays the set of ids in the list |
| Folds.AddRelatedLinear | repositories/moviesAdminRepository.go:305-339 | one row adds its genre, category and age to the movie unless their ids are already there |
| Folds.AbsorbListingRow | repositories/moviesAdminRepository.go:299-346 | one listing iteration appends a new aggregate for an unseen movie id, applies the row to the aggregate with that id only, keeps the id index exact, and records the row's non-nil series id |
| Folds.AbsorbListingRoleRow | repositories/moviesRepository.go:214-264 | the same for the viewer listing, with the role de-duplicated in place of the series |
| Folds.FoldOneWithSeries | repositories/moviesAdminRepository.go:67-183 | the admin single-movie loop returns exactly the reference single-movie aggregate of its cursor, or its error |
| Folds.FoldOne | repositories/moviesRepository.go:50-139 | the viewer single-movie loop returns exactly the reference aggregate (no series, no roles), or its error |
| Folds.FoldAllWithSeries | repositories/moviesAdminRepository.go:249-360 | the admin listing loop returns exactly the reference listing of its cursor, or its error |
| Folds.FoldAllWithRoles | repositories/moviesRepository.go:176-277 | the viewer listing loop returns exactly the reference listing with roles, or its error |
| AggregateFacts.CollapseWithSeriesFacts | repositories/moviesAdminRepository.go:119-183 | the movie's columns are those of the first row; its genres, categories and ages hold each id of its rows once, as first seen, in first-seen order; its series are likewise the non-nil series of the rows, none with a nil id |
| AggregateFacts.CollapseFacts | repositories/moviesRepository.go:68-139 | the same for the viewer single-movie read, with no series and no roles |
| AggregateFacts.FindOneWithSeriesOutcome | repositories/moviesAdminRepository.go:67-183 | a single-movie read succeeds exactly when the rows were fetched and there was at least one; zero rows give the nil-dereference error; the first failed scan's error wins |
| AggregateFacts.AggregateWithSeriesMovies | repositories/moviesAdminRepository.go:299-303 | the admin listing has each movie id of the rows exactly once, with the columns of its first row, ordered by first appearance |
| AggregateFacts.AggregateWithRolesMovies | repositories/moviesRepository.go:214-218 | the same for the viewer listing |
| AggregateFacts.AggregateWithSeriesRelated | repositories/moviesAdminRepository.go:305-346 | each listed movie holds the genres, categories and ages of its own rows, each id once, first-seen; its series ids are distinct (their order is in AggregateSeriesOrdered) |
| AggregateFacts.AggregateWithRolesRelated | repositories/moviesRepository.go:220-264 | each listed movie holds the genres, categories, ages and roles of its own rows, each id once, first-seen |
| AggregateFacts.SeriesOfRowsNonNil | repositories/moviesAdminRepository.go:145-150 | every series of a single movie has an id and comes from one of its rows |
| AggregateFacts.AggregateSeriesSound | repositories/moviesAdminRepository.go:341-346 | a listed series never has a nil id, and is the series of the first row of the whole result carrying that id, a row of the movie it is listed under |
| AggregateFacts.AggregateSeriesComplete | repositories/moviesAdminRepository.go:341-346 | every series id seen in the rows is listed under the movie of the first row carrying it |
| AggregateFacts.AggregateSeriesOrdered | repositories/moviesAdminRepository.go:341-346 | a movie's series are in the order their ids first appear among the rows that carry a series, over the whole result |
| Seqs.SelectOrdered | repositories/moviesAdminRepository.go:341-346 | selecting the entries of one key keeps their relative order |
| AggregateFacts.AggregateSeriesOnce | repositories/selectedRepository.go:155-160 | no series id is listed twice, not even under two different movies (series are de-duplicated across the whole result) |
| Store.ExecInserts | repositories/moviesAdminRepository.go:408-414 | a loop of link inserts stops at the first failing call; the rows before it stay, and the call count and error say where it stopped; with no failure every row is inserted |
| Store.LinksOfInsert | repositories/moviesAdminRepository.go:408-430 | inserting links for a movie extends that movie's links by exactly those rows and changes no other movie's links |
| Store.LinksOfRemove | repositories/moviesAdminRepository.go:559-585 | deleting a movie's links empties its links and leaves every other movie's links, in order |
| Store.LinksOfReplace | repositories/moviesAdminRepository.go:491-531 | delete-then-insert makes the new rows the movie's whole links and leaves other movies alone |
| Store.Database.Commit | repositories/moviesAdminRepository.go:533-537 | a commit publishes the transaction's working copy |
| Store.Database.NextVal | repositories/moviesAdminRepository.go:391-395 | the insert's default id draws the next sequence value at once, outside the transaction, and nothing else changes |
| MoviesAdmin.FilterParams | repositories/moviesAdminRepository.go:226-242 | a named argument exists exactly for each non-empty filter: `s` is the search term wrapped in `%`, `genreId` is the text given, and `isWatched` is the parsed flag (false when unparsable) |
| MoviesAdmin.FiltersAppendInOrder | repositories/moviesAdminRepository.go:226-246 | the clauses are appended in the order search, genre, watched, sort; each stage extends the previous one and adds text exactly when its filter is non-empty; the sort column comes last, quoted so that it reads back as the name given |
| MoviesAdmin.UndoubledDoubled | repositories/moviesAdminRepository.go:244-245 | doubling the quotes of a name can be undone exactly |
| MoviesAdmin.DoubledUndoubled | repositories/moviesAdminRepository.go:244-245 | every well-formed doubled body is the doubling of what it reads back to |
| MoviesAdmin.UnquoteSanitize | repositories/moviesAdminRepository.go:244-245 | a sanitized identifier reads back as exactly the name given, so the sort text cannot escape the quotes |
| MoviesAdmin.SanitizeUnquote | repositories/moviesAdminRepository.go:244-245 | every quoted identifier that reads back as a name is that name's sanitized form |
| MoviesAdmin.BuildQuery | repositories/moviesAdminRepository.go:226-246 | the step-by-step builder produces exactly the reference text and argument map |
| MoviesAdmin.SearchSentUnbound | repositories/moviesAdminRepository.go:228-249 | as written, a search sends a text ending in `@s` while the statement carries no argument `s`, although "%matrix%" was computed for it |
| MoviesAdmin.BoundStatementBinds | repositories/moviesAdminRepository.go:226-249 | corrected: the same text goes out, and every clause in it has its argument with the computed value |
| MoviesAdmin.WritesKeepIdsBelow | repositories/moviesAdminRepository.go:374-615 | Create, Update, Delete and SetWatched keep every stored id below the id sequence |
| MoviesAdmin.CreateResult | repositories/moviesAdminRepository.go:374-449 | Create either commits or changes no table. A commit stores exactly the given movie, with the next sequence value as its id, rating 0 and not watched. It touches no other movie and returns the id, which is not a stored id while all stored ids lie below the sequence. A failure returns id 0 and the error, except that a failed commit returns no error; a failure after the insert leaves the sequence advanced |
| MoviesAdmin.CreateLinks | repositories/moviesAdminRepository.go:408-438 | a committed Create links the new movie to its genres and categories once each and to its ages twice; no other movie's links change |
| MoviesAdmin.UpdateResult | repositories/moviesAdminRepository.go:451-540 | Update fails exactly when one of its calls fails, and then changes nothing. A commit stores the row built from the new values, keeping only the old id, rating and watched flag. It leaves other movies, series links and the selected list alone |
| MoviesAdmin.UpdateReplacesLinks | repositories/moviesAdminRepository.go:491-531 | a committed Update makes the new genres, categories and ages the movie's whole links and leaves other movies' links alone |
| MoviesAdmin.DeleteResult | repositories/moviesAdminRepository.go:542-604 | a missing movie gives ErrNoRows. Delete succeeds exactly when the movie exists and no call fails. A success removes that movie and no other and leaves the selected list; every failure changes nothing |
| MoviesAdmin.DeleteRemovesLinks | repositories/moviesAdminRepository.go:559-585 | a committed Delete removes every genre, category, age and series link of the movie and no other link |
| MoviesAdmin.SetWatchedResult | repositories/moviesAdminRepository.go:606-615 | SetWatched changes only the flag of the stored movie. Every other table is unchanged, and nothing changes on failure or for a missing id; the error comes back exactly when the call fails |
| MoviesAdmin.MoviesAdminRepository.constructor | repositories/moviesAdminRepository.go:19-21 | the repository works on the given database |
| MoviesAdmin.MoviesAdminRepository.FindById | repositories/moviesAdminRepository.go:23-184 | returns the reference single-movie aggregate with series of the driver's rows, or the error |
| MoviesAdmin.MoviesAdminRepository.FindAll | repositories/moviesAdminRepository.go:186-361 | sends the statement built from the filters (as written, without arguments) and returns the reference listing with series, or the error |
| MoviesAdmin.MoviesAdminRepository.Create | repositories/moviesAdminRepository.go:374-449 | leaves the database, id and error that CreateOutcome describes |
| MoviesAdmin.MoviesAdminRepository.Update | repositories/moviesAdminRepository.go:451-540 | leaves the database and error that UpdateOutcome describes |
| MoviesAdmin.MoviesAdminRepository.Delete | repositories/moviesAdminRepository.go:542-604 | leaves the database and error that DeleteOutcome describes |
| MoviesAdmin.MoviesAdminRepository.SetWatched | repositories/moviesAdminRepository.go:606-615 | leaves the database and error that SetWatchedOutcome describes |
| Movies.CreateResult | repositories/moviesRepository.go:280-324 | Create either commits or changes no table. A commit stores exactly the given movie, with the next id, an empty poster, rating 0 and not watched, and returns the id, which is not a stored id while all stored ids lie below the sequence. A failure returns id 0, and an error comes back exactly when a link insert failed; a failure after the insert leaves the sequence advanced |
| Movies.CreateLinks | repositories/moviesRepository.go:304-316 | a committed Create links the new movie to its genres and categories once each and changes no other movie's links |
| Movies.UpdateCommitted | repositories/moviesRepository.go:326-371 | a committed Update makes the new genres the movie's whole genre links. It stores the row built from the new values, keeping the old id, rating, watched flag and poster. Only the movies and genre links change |
| Movies.UpdateFailureKeepsInserts | repositories/moviesRepository.go:350-368 | a failed Update returns the error and changes only the genre links: every genre insert that ran before the failure stays, added to the old links |
| Movies.UpdateCommitFailureLeavesBothGenres | repositories/moviesRepository.go:354-368 | as written: moving movie 1 from genre 1 to genre 2 with a failing commit returns the error but links the movie to both genres |
| Movies.WritesKeepIdsBelow | repositories/moviesRepository.go:280-371 | Create, Update (as written and corrected) and Delete keep every stored id below the id sequence |
| Movies.AtomicUpdateAllOrNothing | repositories/moviesRepository.go:326-371 | corrected (inserts inside the transaction, as MoviesRepository.AtomicUpdate performs them): Update changes nothing on any failure, and on success agrees with the written one and replaces the movie's genre links |
| Movies.DeleteResult | repositories/moviesRepository.go:373-395 | Delete succeeds exactly when no call fails. A success removes the movie and its genre links only, leaving its category, age and series links and its selected rows behind. A failure changes nothing |
| Movies.MoviesRepository.constructor | repositories/moviesRepository.go:17-19 | the repository works on the given database |
| Movies.MoviesRepository.FindById | repositories/moviesRepository.go:21-140 | returns the reference single-movie aggregate of the driver's rows, or the error |
| Movies.MoviesRepository.FindAll | repositories/moviesRepository.go:142-278 | returns the reference listing with roles, or the error |
| Movies.MoviesRepository.Create | repositories/moviesRepository.go:280-324 | leaves the database, id and error that CreateOutcome describes |
| Movies.MoviesRepository.Update | repositories/moviesRepository.go:326-371 | leaves the database and error that UpdateOutcome describes, including the genre inserts committed outside the transaction |
| Movies.MoviesRepository.AtomicUpdate | repositories/moviesRepository.go:326-371 | corrected Update, with the genre inserts run through the transaction: leaves the database and error that AtomicUpdateOutcome describes |
| Movies.MoviesRepository.Delete | repositories/moviesRepository.go:373-395 | leaves the database and error that DeleteOutcome describes |
| Selected.EntriesOfWithout | repositories/selectedRepository.go:187-197 | removing a movie empties its entries and keeps every other movie's entries, in order |
| Selected.WithoutIdempotent | repositories/selectedRepository.go:189 | removing twice is removing once |
| Selected.AddAppends | repositories/selectedRepository.go:177-185 | adding appends one entry for the movie at the end, stamped with the time read, and changes no other movie's entries or any other table; a failed add changes nothing and returns the error |
| Selected.RemoveDrops | repositories/selectedRepository.go:187-197 | removing drops every entry of the movie, however often it was added, and keeps the rest. No other table changes; id 0 or a failure changes nothing, and only a failure returns an error |
| Selected.AddThenRemove | repositories/selectedRepository.go:177-197 | removing a movie just added gives the same list as removing it without the add |
| Selected.SelectedlistRepository.constructor | repositories/selectedRepository.go:16-18 | the repository works on the given database |
| Selected.SelectedlistRepository.GetMoviesFromSelectedlist | repositories/selectedRepository.go:20-175 | returns the reference listing with series of the selected-list rows, or the error |
| Selected.SelectedlistRepository.AddToSelectedMovie | repositories/selectedRepository.go:177-185 | leaves the database and error that AddOutcome describes |
| Selected.SelectedlistRepository.RemoveFromSelectedlist | repositories/selectedRepository.go:187-197 | leaves the database and error that RemoveOutcome describes |
| Genres.CopiesCount | repositories/genresRepository.go:53-57 | the inner loop's copies of a genre are exactly that genre, the given number of times |
| Genres.ByIdsCount | repositories/genresRepository.go:50-61 | FindAllByIds returns each stored genre once per occurrence of its id in the requested ids |
| Genres.ByIdsMembers | repositories/genresRepository.go:50-61 | a genre is returned exactly when it is stored and its id is requested |
| Genres.LookupValues | repositories/genresRepository.go:43-45 | visiting every key once yields exactly the genres stored under some key |
| Genres.AppendMatches | repositories/genresRepository.go:53-57 | the inner loop appends the genre once for each requested id equal to its own |
| Genres.CreateOverwritesAfterDelete | repositories/genresRepository.go:63-70 | as written: after deleting genre 2 from the initial store, Create assigns id 3 and replaces the stored genre 3, so the store does not grow |
| Genres.GenresRepository.constructor | repositories/genresRepository.go:13-30 | the store starts with the three genres 1, 2 and 3 |
| Genres.GenresRepository.FindById | repositories/genresRepository.go:32-39 | a stored id returns its genre and no error; a missing id returns the zero genre and the not-found error |
| Genres.GenresRepository.FindAll | repositories/genresRepository.go:41-48 | returns one genre per stored key, in the order the keys were visited: exactly the stored genres |
| Genres.GenresRepository.FindAllByIds | repositories/genresRepository.go:50-61 | returns, for the keys in visit order, each genre once per occurrence of its id in the requested ids; a genre comes out exactly when it is stored and its id is requested |
| Genres.GenresRepository.Create | repositories/genresRepository.go:63-70 | as written: the id is the store's size plus one, and whatever is stored there is overwritten |
| Genres.GenresRepository.CreateFresh | repositories/genresRepository.go:63-70 | corrected: the id is one past the largest stored id, so it is new, no genre is replaced and the store grows by one |
| Genres.GenresRepository.Update | repositories/genresRepository.go:72-77 | only the title changes; a missing id becomes the zero genre with the new title; no other entry changes |
| Genres.GenresRepository.Delete | repositories/genresRepository.go:79-81 | the key is gone and every other entry stays; deleting a missing key changes nothing |

## Left out

- SQL semantics are not modelled. The joins, `ilike`, and the meaning of the statement text are outside the model. The read paths take the driver's rows as input (`Rows.Cursor`), and the listing query is modelled as text and arguments only. The listing's base text ends with the last left join (`allseries`), so each appended " and …" clause extends that join's ON condition. Such a clause would narrow only which series are joined, not which movies are listed. As written the statement also names `@s`, `@genreId` and `@isWatched` without binding them. The model keeps the text and arguments as written and does not judge what the database would make of them.
- Database constraints and column defaults are not modelled:
  - No foreign-key or unique constraint is modelled, so a link row can occur twice. This also means the viewer Update's inserts through the pool never block on the rows its transaction deleted.
  - A new movie's rating, watched flag and (viewer repository) poster are assumed to take the defaults 0, false and "".
- The id sequence, like a PostgreSQL sequence, is not rolled back: a Create that fails after its insert leaves `nextId` advanced, so ids can have gaps. A failure of the insert call itself is modelled as not drawing a value, because the model cannot tell whether the database evaluated the default before the call failed.
- MoviesAdmin.Sanitize: pgx's Identifier.Sanitize also strips NUL characters. The model does not, so the round-trip lemmas hold for names without NUL.
- Inputs from outside become parameters:
  - the clock (`time.Now()` in AddToSelectedMovie) is the `now` parameter;
  - which database call fails, and with what error, is the `fault` parameter.
- Logging (the zap logger and its messages) is left out; it does not affect results.
- Concurrency is left out: other sessions and connection-pool behaviour.
- Resource leaks are left out:
  - transactions that are neither committed nor rolled back on some error paths (they change nothing in the model);
  - `defer rows.Close()`.
- The zero-rows case of the single-movie reads is modelled as an error. Go dereferences a nil pointer and panics; the model returns `NilDereference` instead.
- Columns a read path does not scan are modelled as given. For example, the viewer listing's poster is whatever the row carries.
- MoviesAdmin.MoviesAdminRepository.Delete: the title lookup runs on the pool outside the transaction. The model treats it as one read of the same store, and its failure as ErrNoRows or the call's error.
- Go's map iteration order in the genre store is unspecified. It is modelled as an arbitrary choice of the next key, so the listings are proved for every visit order, not for Go's.
- The viewer movie record: `models.Movie` has no roles field, yet the viewer listing appends roles. The model gives `Movie` a `roles` list and the role record the columns that listing scans.
- The genre, category and age records are not part of this model's source files. Their fields are taken from the columns the queries scan.

## Findings

| source | as written | input that shows it | evidently intended | confidence | as-written member | corrected member |
|---|---|---|---|---|---|---|
| repositories/moviesAdminRepository.go:249 | `r.db.Query(c, sql)` passes no arguments, although the builder filled `params` for `@s`, `@genreId` and `@isWatched` | filters with search term "matrix": the text ends in `@s` and the statement has no `s` argument | `r.db.Query(c, sql, params)` | not executed | MoviesAdmin.SearchSentUnbound | MoviesAdmin.BoundStatementBinds |
| repositories/moviesRepository.go:359 | the genre inserts of Update go through `r.db`, outside the transaction | movie 1 linked to genre 1 is updated to genre 2 and the commit fails: the error comes back, yet the movie is linked to genres 1 and 2 | `tx.Exec`, so that Update is all-or-nothing | not executed | Movies.UpdateCommitFailureLeavesBothGenres | Movies.AtomicUpdateAllOrNothing |
| repositories/genresRepository.go:64 | the new id is `len(r.db) + 1` | delete genre 2 from the initial store, then create a genre: it gets id 3 and replaces "Ужасы" | an id not yet in use | not executed | Genres.CreateOverwritesAfterDelete | Genres.GenresRepository.CreateFresh |
