/**
 * The flat rows a movie join query returns, and the stream of scans a
 * `rows.Next()` / `rows.Scan` loop goes through.
 */
module Rows {
  import opened Wrappers
  import opened Models

  /**
   * One join row: a movie's scalar columns, one genre, one category, one age
   * rating, and one column group that depends on the query (`X`).
   */
  datatype Row<X> = Row(info: MovieInfo, genre: Genre, category: Category, age: Age, extra: X)

  /** Rows of the admin and selected-list queries: the extra columns are a left-joined series. */
  type SeriesRow = Row<AllSeries>

  /** Rows of the plain listing: the extra columns are a role. */
  type RoleRow = Row<Role>

  /** Rows of the plain single-movie query: no extra columns. */
  type PlainRow = Row<()>

  /** One step of the row loop: the scan either decoded a row or failed. */
  datatype Scan<R> = Scanned(row: R) | ScanFailed(err: Error)

  /**
   * What a query hands back: either the query itself failed, or a cursor
   * with its scans and the error `rows.Err()` reports after the last one.
   */
  datatype Cursor<R> = QueryFailed(err: Error) | Cursor(scans: seq<Scan<R>>, rowsErr: Option<Error>)

  // Column projections.
  function MovieId<X>(r: Row<X>): int { r.info.id }
  function GenreOf<X>(r: Row<X>): Genre { r.genre }
  function CategoryOf<X>(r: Row<X>): Category { r.category }
  function AgeOf<X>(r: Row<X>): Age { r.age }
  function SeriesOf(r: SeriesRow): AllSeries { r.extra }
  function RoleOf(r: RoleRow): Role { r.extra }

  /** The left join found a series for this row (its id is not NULL). */
  function HasSeries(r: SeriesRow): bool { r.extra.id.Some? }

  /** The series id of a row; only consulted on rows for which HasSeries holds. */
  function SeriesKey(r: SeriesRow): int { r.extra.id.GetOr(0) }

  /**
   * The rows of the loop up to the first failed scan: the decoded rows when
   * every scan succeeded, else the first scan error.
   */
  function Decode<R>(scans: seq<Scan<R>>): Result<seq<R>, Error>
  {
    if scans == [] then Success([])
    else
      match Decode(scans[..|scans| - 1])
      case Failure(e) => Failure(e)
      case Success(rows) =>
        match scans[|scans| - 1]
        case Scanned(r) => Success(rows + [r])
        case ScanFailed(e) => Failure(e)
  }

  lemma DecodeSnoc<R>(scans: seq<Scan<R>>, s: Scan<R>)
    ensures Decode(scans + [s]) ==
      match Decode(scans)
      case Failure(e) => Failure(e)
      case Success(rows) => (match s case Scanned(r) => Success(rows + [r]) case ScanFailed(e) => Failure(e))
  {
    assert (scans + [s])[..|scans|] == scans;
  }

  /** Once a scan has failed, later scans do not change the outcome. */
  lemma {:induction false} DecodeFailureSticks<R>(scans: seq<Scan<R>>, i: nat)
    requires i <= |scans|
    requires Decode(scans[..i]).Failure?
    ensures Decode(scans) == Decode(scans[..i])
    decreases |scans| - i
  {
    if i < |scans| {
      assert scans[..i + 1] == scans[..i] + [scans[i]];
      DecodeSnoc(scans[..i], scans[i]);
      DecodeFailureSticks(scans, i + 1);
    } else {
      assert scans[..i] == scans;
    }
  }

  /**
   * Decoding succeeds exactly when every scan did, and then yields the
   * scanned rows one for one.
   */
  lemma {:induction false} DecodeSuccess<R>(scans: seq<Scan<R>>)
    ensures Decode(scans).Success? <==> forall i :: 0 <= i < |scans| ==> scans[i].Scanned?
    ensures Decode(scans).Success? ==>
      |Decode(scans).value| == |scans| &&
      forall i :: 0 <= i < |scans| ==> Decode(scans).value[i] == scans[i].row
  {
    if scans != [] {
      var p := scans[..|scans| - 1];
      DecodeSuccess(p);
      assert forall i :: 0 <= i < |p| ==> p[i] == scans[i];
    }
  }

  /** A failed decode reports the error of the first failed scan, and every scan before it succeeded. */
  lemma {:induction false} DecodeFirstFailure<R>(scans: seq<Scan<R>>, i: nat)
    requires i < |scans| && scans[i].ScanFailed?
    requires forall j :: 0 <= j < i ==> scans[j].Scanned?
    ensures Decode(scans) == Failure(scans[i].err)
  {
    var prefix := scans[..i];
    DecodeSuccess(prefix);
    assert scans[..i + 1] == prefix + [scans[i]];
    DecodeSnoc(prefix, scans[i]);
    DecodeFailureSticks(scans, i + 1);
  }

  /** One more successful scan extends the decoded prefix by its row. */
  lemma DecodeNext<R>(scans: seq<Scan<R>>, i: nat, rows: seq<R>)
    requires i < |scans| && scans[i].Scanned?
    requires Decode(scans[..i]) == Success(rows)
    ensures Decode(scans[..i + 1]) == Success(rows + [scans[i].row])
  {
    assert scans[..i + 1] == scans[..i] + [scans[i]];
    DecodeSnoc(scans[..i], scans[i]);
  }

  /** A failed scan after a successful prefix decides the outcome of the whole stream. */
  lemma DecodeStops<R>(scans: seq<Scan<R>>, i: nat, rows: seq<R>)
    requires i < |scans| && scans[i].ScanFailed?
    requires Decode(scans[..i]) == Success(rows)
    ensures Decode(scans) == Failure(scans[i].err)
  {
    assert scans[..i + 1] == scans[..i] + [scans[i]];
    DecodeSnoc(scans[..i], scans[i]);
    DecodeFailureSticks(scans, i + 1);
  }

  /**
   * The rows a read path works on, or the error it returns: a failed query,
   * then the first failed scan, then the cursor's own error. Failures never
   * carry partial rows.
   */
  function Fetched<R>(c: Cursor<R>): Result<seq<R>, Error> {
    match c
    case QueryFailed(e) => Failure(e)
    case Cursor(scans, rowsErr) =>
      match Decode(scans)
      case Failure(e) => Failure(e)
      case Success(rows) => if rowsErr.Some? then Failure(rowsErr.value) else Success(rows)
  }
}
