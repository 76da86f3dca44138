/**
 * What a handler sees of the relational store: an error from a statement, and
 * the rows a query yields one by one, each of which may fail to scan.
 */
module Store {
  import opened Wrappers

  /** sql.ErrNoRows, or any other driver error with its text. */
  datatype StoreError = ErrNoRows | Failed(text: string) {
    function Text(): string {
      match this
      case ErrNoRows => "sql: no rows in result set"
      case Failed(t) => t
    }
  }

  /** One step of `rows.Next()` / `rows.Scan(...)`: a decoded row or the scan error's text. */
  datatype Scanned<T> = Row(value: T) | ScanError(text: string)

  /** Row k is the first one that failed to scan. */
  predicate FirstScanError<T>(rows: seq<Scanned<T>>, k: int) {
    0 <= k < |rows| && rows[k].ScanError? && forall j :: 0 <= j < k ==> rows[j].Row?
  }

  /**
   * The outcome of scanning every row in order: all decoded values, or the
   * error of the first row that failed.
   */
  function ScanAll<T>(rows: seq<Scanned<T>>): (r: Result<seq<T>, string>)
    ensures r.Success? <==> forall i :: 0 <= i < |rows| ==> rows[i].Row?
    ensures r.Success? ==> |r.value| == |rows| && forall i :: 0 <= i < |rows| ==> r.value[i] == rows[i].value
    ensures r.Failure? ==> exists k :: FirstScanError(rows, k) && r.error == rows[k].text
  {
    if rows == [] then Success([])
    else match rows[0]
      case ScanError(t) => assert FirstScanError(rows, 0); Failure(t)
      case Row(v) =>
        match ScanAll(rows[1..])
        case Success(vs) => Success([v] + vs)
        case Failure(t) =>
          var k :| FirstScanError(rows[1..], k) && t == rows[1..][k].text;
          assert FirstScanError(rows, k + 1);
          Failure(t)
  }

  /** The `for rows.Next() { ...; xs = append(xs, x) }` loop: stops at the first scan error. */
  method CollectRows<T>(rows: seq<Scanned<T>>) returns (r: Result<seq<T>, string>)
    ensures r == ScanAll(rows)
  {
    var acc: seq<T> := [];
    var i := 0;
    while i < |rows|
      invariant 0 <= i <= |rows|
      invariant forall j :: 0 <= j < i ==> rows[j].Row?
      invariant acc == ScanAll(rows[..i]).value
    {
      assert rows[..i + 1] == rows[..i] + [rows[i]];
      match rows[i]
      case ScanError(t) =>
        assert FirstScanError(rows, i);
        return Failure(t);
      case Row(v) =>
        acc := acc + [v];
        i := i + 1;
    }
    assert rows[..i] == rows;
    return Success(acc);
  }
}
