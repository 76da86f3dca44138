/**
 * Spenders: the handlers for creating, listing and fetching spenders, the
 * income/expense summary of a spender, and the paginated listing of a
 * spender's transactions.
 */
module Spenders {
  import opened Wrappers
  import opened Errs
  import opened Web
  import opened Store
  import opened Utils
  import opened Transactions

  datatype Spender = Spender(id: int, name: string, email: string)

  /** The spender a lookup answers when the store yields no row: Go's zero value. */
  const NoSpender := Spender(0, "", "")

  datatype Summary = Summary(totalIncome: real, totalExpenses: real, currentBalance: real)

  /** `{"summary": ...}` */
  datatype SummaryEnvelope = SummaryEnvelope(summary: Summary)

  datatype TransactionResponse = TransactionResponse(
    transactions: seq<Transaction>,
    summary: Summary,
    pagination: Pagination)

  /** One group of the summary query: the sum of the amounts of one transaction type. */
  datatype SumRow = SumRow(total: real, transactionType: string)

  datatype FeatureFlag = FeatureFlag(enableCreateSpender: bool)

  /** The statements a handler sends to the store, with their positional arguments. */
  datatype Query =
    | InsertSpender(name: string, email: string)
    | SelectSpenders
    | SelectSpender(id: string)
    | SumByType(uintId: nat)
    | SelectTransactions(spenderId: Int64, limit: Int64, offset: Int64)
    | CountTransactions(spenderId: Int64)

  /** The store: what each statement yields for its arguments. */
  datatype Db = Db(
    insertSpender: (string, string) -> Result<int, StoreError>,
    selectSpenders: Result<seq<Scanned<Spender>>, StoreError>,
    selectSpender: string -> Result<seq<Scanned<Spender>>, StoreError>,
    sumByType: nat -> Result<seq<Scanned<SumRow>>, StoreError>,
    selectTransactions: (Int64, Int64, Int64) -> Result<seq<Scanned<Transaction>>, StoreError>,
    countTransactions: Int64 -> Result<nat, StoreError>)

  datatype Handler = Handler(flag: FeatureFlag, db: Db)

  const CreateDisabled := "create new spender feature is disabled"
  const SpenderNotFound := "spender not found"

  // ---------------------------------------------------------------------------
  // Summary of a spender's transactions

  /** The amount a row adds to income: its total when its type is exactly "income". */
  function IncomePart(r: SumRow): real {
    if r.transactionType == "income" then r.total else 0.0
  }

  /** The amount a row adds to expense: its total for every other type. */
  function ExpensePart(r: SumRow): real {
    if r.transactionType == "income" then 0.0 else r.total
  }

  function Income(rows: seq<SumRow>): real {
    if rows == [] then 0.0 else IncomePart(rows[0]) + Income(rows[1..])
  }

  function Expense(rows: seq<SumRow>): real {
    if rows == [] then 0.0 else ExpensePart(rows[0]) + Expense(rows[1..])
  }

  /** The sum of every row's total, whatever its type. */
  function Total(rows: seq<SumRow>): real {
    if rows == [] then 0.0 else rows[0].total + Total(rows[1..])
  }

  function SummaryOf(rows: seq<SumRow>): Summary {
    Summary(Income(rows), Expense(rows), Income(rows) - Expense(rows))
  }

  /** The rows of type exactly "income", in order. */
  function IncomeRows(rows: seq<SumRow>): (r: seq<SumRow>)
    ensures forall i :: 0 <= i < |r| ==> r[i].transactionType == "income"
  {
    if rows == [] then []
    else if rows[0].transactionType == "income" then [rows[0]] + IncomeRows(rows[1..])
    else IncomeRows(rows[1..])
  }

  /** The rows of every other type, in order. */
  function OtherRows(rows: seq<SumRow>): (r: seq<SumRow>)
    ensures forall i :: 0 <= i < |r| ==> r[i].transactionType != "income"
  {
    if rows == [] then []
    else if rows[0].transactionType == "income" then OtherRows(rows[1..])
    else [rows[0]] + OtherRows(rows[1..])
  }

  /**
   * Income is the plain sum of the income rows' totals, expense that of all other rows,
   * and together the two groups are exactly the rows.
   */
  lemma {:induction false} SumsByGroup(rows: seq<SumRow>)
    ensures Income(rows) == Total(IncomeRows(rows))
    ensures Expense(rows) == Total(OtherRows(rows))
    ensures multiset(IncomeRows(rows)) + multiset(OtherRows(rows)) == multiset(rows)
  {
    if rows != [] {
      var x, tail := rows[0], rows[1..];
      SumsByGroup(tail);
      assert multiset(rows) == multiset{x} + multiset(tail) by {
        assert rows == [x] + tail;
      }
      if x.transactionType == "income" {
        assert IncomeRows(rows) == [x] + IncomeRows(tail);
        assert OtherRows(rows) == OtherRows(tail);
      } else {
        assert IncomeRows(rows) == IncomeRows(tail);
        assert OtherRows(rows) == [x] + OtherRows(tail);
      }
    }
  }

  /** Income and expense are sums over the rows: they split over concatenation. */
  lemma {:induction false} SumsAppend(a: seq<SumRow>, b: seq<SumRow>)
    ensures Income(a + b) == Income(a) + Income(b)
    ensures Expense(a + b) == Expense(a) + Expense(b)
  {
    if a == [] {
      assert a + b == b;
    } else {
      assert (a + b)[0] == a[0] && (a + b)[1..] == a[1..] + b;
      SumsAppend(a[1..], b);
    }
  }

  /** Each row lands in exactly one of the two totals. */
  lemma {:induction false} IncomePlusExpense(rows: seq<SumRow>)
    ensures Income(rows) + Expense(rows) == Total(rows)
  {
    if rows != [] {
      IncomePlusExpense(rows[1..]);
    }
  }

  /** A row whose type is exactly "income" adds to income; any other type adds to expense. */
  lemma SummaryAppendRow(rows: seq<SumRow>, r: SumRow)
    ensures r.transactionType == "income" ==>
      SummaryOf(rows + [r]).totalIncome == SummaryOf(rows).totalIncome + r.total
      && SummaryOf(rows + [r]).totalExpenses == SummaryOf(rows).totalExpenses
    ensures r.transactionType != "income" ==>
      SummaryOf(rows + [r]).totalIncome == SummaryOf(rows).totalIncome
      && SummaryOf(rows + [r]).totalExpenses == SummaryOf(rows).totalExpenses + r.total
  {
    SumsAppend(rows, [r]);
    assert Income([r]) == IncomePart(r) && Expense([r]) == ExpensePart(r);
  }

  /** Taking row k out of the rows takes its part out of each total. */
  lemma SumsRemove(b: seq<SumRow>, k: int)
    requires 0 <= k < |b|
    ensures Income(b) == IncomePart(b[k]) + Income(b[..k] + b[k + 1..])
    ensures Expense(b) == ExpensePart(b[k]) + Expense(b[..k] + b[k + 1..])
  {
    var pre, post := b[..k], b[k + 1..];
    assert b == pre + ([b[k]] + post);
    SumsAppend(pre, [b[k]] + post);
    SumsAppend([b[k]], post);
    SumsAppend(pre, post);
  }

  lemma MultisetRemove<T>(s: seq<T>, k: int)
    requires 0 <= k < |s|
    ensures multiset(s[..k] + s[k + 1..]) == multiset(s) - multiset{s[k]}
  {
    assert s == s[..k] + [s[k]] + s[k + 1..];
  }

  /**
   * The store's group rows come in no fixed order; with exact amounts the summary
   * does not depend on it (float64 addition, which the source uses, is not associative).
   */
  lemma {:induction false} SummaryPermutation(a: seq<SumRow>, b: seq<SumRow>)
    requires multiset(a) == multiset(b)
    ensures SummaryOf(a) == SummaryOf(b)
  {
    SumsPermutation(a, b);
  }

  lemma {:induction false} SumsPermutation(a: seq<SumRow>, b: seq<SumRow>)
    requires multiset(a) == multiset(b)
    ensures Income(a) == Income(b) && Expense(a) == Expense(b)
    decreases |a|
  {
    if a != [] {
      var x, tail := a[0], a[1..];
      assert x in b by { assert x in multiset(a); }
      var k :| 0 <= k < |b| && b[k] == x;
      var rest := PermutationStep(a, b, k);
      SumsPermutation(tail, rest);
      SumsRemove(b, k);
    } else {
      assert |multiset(b)| == 0;
    }
  }

  /** Removing the first row of a and a matching row of b leaves two permutations of each other. */
  lemma PermutationStep(a: seq<SumRow>, b: seq<SumRow>, k: int) returns (rest: seq<SumRow>)
    requires multiset(a) == multiset(b) && a != [] && 0 <= k < |b| && b[k] == a[0]
    ensures rest == b[..k] + b[k + 1..]
    ensures multiset(a[1..]) == multiset(rest)
  {
    rest := b[..k] + b[k + 1..];
    MultisetRemove(b, k);
    assert a == [a[0]] + a[1..];
    assert multiset(a) == multiset{a[0]} + multiset(a[1..]);
  }

  /** The summary of no rows, of the summary test's rows, and of a row of an unexpected type. */
  lemma SummaryExamples()
    ensures SummaryOf([]) == Summary(0.0, 0.0, 0.0)
    ensures SummaryOf([SumRow(2000.0, "income"), SumRow(1000.0, "expense")]) == Summary(2000.0, 1000.0, 1000.0)
    ensures SummaryOf([SumRow(100.0, "income"), SumRow(40.0, "expense"), SumRow(10.0, "expense")])
      == Summary(100.0, 50.0, 50.0)
    ensures SummaryOf([SumRow(5.0, "refund")]) == Summary(0.0, 5.0, -5.0)
  {
  }

  /** What the summary step yields for the summary query's answer. */
  function SummaryFromQuery(q: Result<seq<Scanned<SumRow>>, StoreError>): Result<Summary, string> {
    match q
    case Failure(e) => Failure(e.Text())
    case Success(rows) =>
      match ScanAll(rows)
      case Failure(t) => Failure(t)
      case Success(vals) => Success(SummaryOf(vals))
  }

  /** Sums the grouped rows into income and expense, row by row. */
  method GetSummaryBySpenderID(db: Db, id: nat) returns (res: Result<Summary, string>, issued: seq<Query>)
    ensures issued == [SumByType(id)]
    ensures res == SummaryFromQuery(db.sumByType(id))
  {
    issued := [SumByType(id)];
    var q := db.sumByType(id);
    if q.Failure? {
      return Failure(q.error.Text()), issued;
    }
    var rows := q.value;
    var totalIncome, totalExpense := 0.0, 0.0;
    ghost var seen: seq<SumRow> := [];
    var i := 0;
    while i < |rows|
      invariant 0 <= i <= |rows|
      invariant forall j :: 0 <= j < i ==> rows[j].Row?
      invariant seen == ScanAll(rows[..i]).value
      invariant totalIncome == Income(seen) && totalExpense == Expense(seen)
    {
      assert rows[..i + 1] == rows[..i] + [rows[i]];
      match rows[i]
      case ScanError(t) =>
        assert FirstScanError(rows, i);
        return Failure(t), issued;
      case Row(r) =>
        SummaryAppendRow(seen, r);
        if r.transactionType == "income" {
          totalIncome := totalIncome + r.total;
        } else {
          totalExpense := totalExpense + r.total;
        }
        seen := seen + [r];
        i := i + 1;
    }
    assert rows[..i] == rows;
    return Success(Summary(totalIncome, totalExpense, totalIncome - totalExpense)), issued;
  }

  // ---------------------------------------------------------------------------
  // Pages

  /** The number of pages of perPage rows that hold totalRows rows: the ceiling of the quotient. */
  function TotalPages(totalRows: nat, perPage: int): (r: nat)
    requires perPage > 0
    ensures r * perPage >= totalRows
    ensures r > 0 ==> (r - 1) * perPage < totalRows
  {
    var q := totalRows / perPage;
    if totalRows % perPage == 0 then q else q + 1
  }

  /** The listing test's page (page 1 of 5 rows, 2 rows in all) and a few more. */
  lemma PaginationExamples()
    ensures Offset(1, 5) == 0 && Offset(3, 10) == 20
    ensures TotalPages(2, 5) == 1
    ensures TotalPages(0, 10) == 0
    ensures TotalPages(21, 10) == 3
  {
  }

  // ---------------------------------------------------------------------------
  // Handlers

  /** POST /spenders. */
  method Create(h: Handler, bind: Result<Spender, string>) returns (resp: Response<Spender>, issued: seq<Query>)
    ensures !h.flag.enableCreateSpender ==> resp == Response(StatusForbidden, Text(CreateDisabled)) && issued == []
    ensures h.flag.enableCreateSpender && bind.Failure? ==>
      resp == Response(StatusBadRequest, Text(bind.error)) && issued == []
    ensures h.flag.enableCreateSpender && bind.Success? ==>
      var sp := bind.value;
      && issued == [InsertSpender(sp.name, sp.email)]
      && resp == match h.db.insertSpender(sp.name, sp.email)
        case Failure(e) => Response(StatusInternalServerError, Text(e.Text()))
        case Success(id) => Response(StatusCreated, Json(Spender(id, sp.name, sp.email)))
  {
    issued := [];
    if !h.flag.enableCreateSpender {
      return Response(StatusForbidden, Text(CreateDisabled)), issued;
    }
    if bind.Failure? {
      return Response(StatusBadRequest, Text(bind.error)), issued;
    }
    var sp := bind.value;
    issued := issued + [InsertSpender(sp.name, sp.email)];
    var inserted := h.db.insertSpender(sp.name, sp.email);
    if inserted.Failure? {
      return Response(StatusInternalServerError, Text(inserted.error.Text())), issued;
    }
    sp := sp.(id := inserted.value);
    return Response(StatusCreated, Json(sp)), issued;
  }

  /** GET /spenders. */
  method GetAll(h: Handler) returns (resp: Response<seq<Spender>>, issued: seq<Query>)
    ensures issued == [SelectSpenders]
    ensures h.db.selectSpenders.Failure? ==>
      resp == Response(StatusInternalServerError, Text(h.db.selectSpenders.error.Text()))
    ensures h.db.selectSpenders.Success? ==>
      var rows := h.db.selectSpenders.value;
      && ((exists k :: FirstScanError(rows, k) && resp == Response(StatusInternalServerError, Text(rows[k].text)))
          || ((forall i :: 0 <= i < |rows| ==> rows[i].Row?) && resp.status == StatusOK && resp.body.Json?
              && |resp.body.value| == |rows|
              && forall i :: 0 <= i < |rows| ==> resp.body.value[i] == rows[i].value))
  {
    issued := [SelectSpenders];
    var q := h.db.selectSpenders;
    if q.Failure? {
      return Response(StatusInternalServerError, Text(q.error.Text())), issued;
    }
    var sps := CollectRows(q.value);
    if sps.Failure? {
      return Response(StatusInternalServerError, Text(sps.error)), issued;
    }
    return Response(StatusOK, Json(sps.value)), issued;
  }

  /**
   * GET /spenders/:id. The store's "no rows" error is 404; any other error 500.
   * Every returned row overwrites the previous one, so the last row is answered,
   * and the zero-valued spender when there is none.
   */
  method GetByID(h: Handler, id: string) returns (resp: Response<Spender>, issued: seq<Query>)
    ensures issued == [SelectSpender(id)]
    ensures h.db.selectSpender(id) == Failure(ErrNoRows) ==> resp == Response(StatusNotFound, Text(SpenderNotFound))
    ensures h.db.selectSpender(id).Failure? && h.db.selectSpender(id).error.Failed? ==>
      resp == Response(StatusInternalServerError, Text(h.db.selectSpender(id).error.text))
    ensures h.db.selectSpender(id).Success? ==>
      var rows := h.db.selectSpender(id).value;
      match ScanAll(rows)
      case Failure(t) => resp == Response(StatusInternalServerError, Text(t))
      case Success(sps) => resp == Response(StatusOK, Json(if sps == [] then NoSpender else sps[|sps| - 1]))
  {
    issued := [SelectSpender(id)];
    var q := h.db.selectSpender(id);
    if q.Failure? {
      if q.error == ErrNoRows {
        return Response(StatusNotFound, Text(SpenderNotFound)), issued;
      }
      return Response(StatusInternalServerError, Text(q.error.Text())), issued;
    }
    var rows := q.value;
    var sp := NoSpender;
    var i := 0;
    while i < |rows|
      invariant 0 <= i <= |rows|
      invariant forall j :: 0 <= j < i ==> rows[j].Row?
      invariant sp == if i == 0 then NoSpender else rows[i - 1].value
    {
      match rows[i]
      case ScanError(t) =>
        assert FirstScanError(rows, i);
        return Response(StatusInternalServerError, Text(t)), issued;
      case Row(s) =>
        sp := s;
        i := i + 1;
    }
    return Response(StatusOK, Json(sp)), issued;
  }

  /** GET /spenders/:id/transactions/summary. */
  method GetTransactionsSummary(h: Handler, idParam: Atoi)
    returns (resp: Response<SummaryEnvelope>, issued: seq<Query>)
    ensures idParam.NotNum? ==> resp == ErrorBody(StatusBadRequest, Other(idParam.text)) && issued == []
    ensures idParam.Num? ==>
      && issued == [SumByType(ToUint(idParam.n))]
      && resp == match SummaryFromQuery(h.db.sumByType(ToUint(idParam.n)))
        case Failure(t) => ErrorBody(StatusInternalServerError, Other(t))
        case Success(s) => Response(StatusOK, Json(SummaryEnvelope(s)))
  {
    if idParam.NotNum? {
      var er := ParseError(Other(idParam.text));
      return Response(StatusBadRequest, Problem(er)), [];
    }
    var summary;
    summary, issued := GetSummaryBySpenderID(h.db, ToUint(idParam.n));
    if summary.Failure? {
      var er := ParseError(Other(summary.error));
      return Response(StatusInternalServerError, Problem(er)), issued;
    }
    return Response(StatusOK, Json(SummaryEnvelope(summary.value))), issued;
  }

  /** A query parameter: absent (empty) gives the default, otherwise what strconv.Atoi made of it. */
  function QueryInt(q: Option<Atoi>, default: Int64): Result<Int64, string> {
    match q
    case None => Success(default)
    case Some(Num(n)) => Success(n)
    case Some(NotNum(t)) => Failure(t)
  }

  /** The row offset of a page: (page - 1) * perPage in Go's wrapping 64-bit arithmetic. */
  function Offset(page: Int64, perPage: Int64): (r: Int64)
    ensures MinInt64 <= (page as int - 1) * perPage as int <= MaxInt64 ==> r as int == (page as int - 1) * perPage as int
  {
    WrapInt64((page as int - 1) * perPage as int)
  }

  /**
   * GET /spenders/:id/transactions?page=&per_page=. The parameters are parsed in the
   * order page, per_page, id; then the page of transactions, the summary and the row
   * count are fetched in that order, and the first failure ends the request.
   */
  method GetTransactionBySpenderID(h: Handler, pageQuery: Option<Atoi>, perPageQuery: Option<Atoi>, idParam: Atoi)
    returns (resp: Response<TransactionResponse>, issued: seq<Query>)
    ensures QueryInt(pageQuery, 1).Failure? ==>
      resp == ErrorBody(StatusBadRequest, Other(QueryInt(pageQuery, 1).error)) && issued == []
    ensures QueryInt(pageQuery, 1).Success? && QueryInt(perPageQuery, 10).Failure? ==>
      resp == ErrorBody(StatusBadRequest, Other(QueryInt(perPageQuery, 10).error)) && issued == []
    ensures QueryInt(pageQuery, 1).Success? && QueryInt(perPageQuery, 10).Success? && idParam.NotNum? ==>
      resp == ErrorBody(StatusBadRequest, Other(idParam.text)) && issued == []
    ensures QueryInt(pageQuery, 1).Success? && QueryInt(perPageQuery, 10).Success? && idParam.Num? ==>
      var page, perPage, id := QueryInt(pageQuery, 1).value, QueryInt(perPageQuery, 10).value, idParam.n;
      var listQuery := SelectTransactions(id, perPage, Offset(page, perPage));
      var list := h.db.selectTransactions(id, perPage, Offset(page, perPage));
      match list
      case Failure(e) =>
        resp == Response(StatusInternalServerError, Text(e.Text())) && issued == [listQuery]
      case Success(rows) =>
        match ScanAll(rows)
        case Failure(t) =>
          resp == ErrorBody(StatusInternalServerError, Other(t)) && issued == [listQuery]
        case Success(txs) =>
          match SummaryFromQuery(h.db.sumByType(ToUint(id)))
          case Failure(t) =>
            resp == ErrorBody(StatusInternalServerError, Other(t)) && issued == [listQuery, SumByType(ToUint(id))]
          case Success(summary) =>
            && issued == [listQuery, SumByType(ToUint(id)), CountTransactions(id)]
            && match h.db.countTransactions(id)
              case Failure(e) => resp == ErrorBody(StatusInternalServerError, Other(e.Text()))
              case Success(count) =>
                && resp.status == StatusOK && resp.body.Json?
                && resp.body.value.transactions == txs
                && resp.body.value.summary == summary
                && resp.body.value.pagination.currentPage == ToUint(page)
                && resp.body.value.pagination.perPage == ToUint(perPage)
                && (perPage > 0 ==> resp.body.value.pagination.totalPages == TotalPages(count, perPage as int))
  {
    issued := [];
    var page: Int64, perPage: Int64 := 1, 10;
    if pageQuery.Some? {
      if pageQuery.value.NotNum? {
        var er := ParseError(Other(pageQuery.value.text));
        return Response(StatusBadRequest, Problem(er)), issued;
      }
      page := pageQuery.value.n;
    }
    if perPageQuery.Some? {
      if perPageQuery.value.NotNum? {
        var er := ParseError(Other(perPageQuery.value.text));
        return Response(StatusBadRequest, Problem(er)), issued;
      }
      perPage := perPageQuery.value.n;
    }
    if idParam.NotNum? {
      var er := ParseError(Other(idParam.text));
      return Response(StatusBadRequest, Problem(er)), issued;
    }
    var id := idParam.n;

    var offset := WrapInt64((page as int - 1) * perPage as int);
    issued := issued + [SelectTransactions(id, perPage, offset)];
    var list := h.db.selectTransactions(id, perPage, offset);
    if list.Failure? {
      return Response(StatusInternalServerError, Text(list.error.Text())), issued;
    }
    var transactions := CollectRows(list.value);
    if transactions.Failure? {
      var er := ParseError(Other(transactions.error));
      return Response(StatusInternalServerError, Problem(er)), issued;
    }

    var summary, summaryIssued := GetSummaryBySpenderID(h.db, ToUint(id));
    issued := issued + summaryIssued;
    if summary.Failure? {
      var er := ParseError(Other(summary.error));
      return Response(StatusInternalServerError, Problem(er)), issued;
    }

    issued := issued + [CountTransactions(id)];
    var count := h.db.countTransactions(id);
    if count.Failure? {
      var er := ParseError(Other(count.error.Text()));
      return Response(StatusInternalServerError, Problem(er)), issued;
    }

    // Go divides as float64 and takes the ceiling; for per_page <= 0 the page count is left at 0.
    var totalPages := if perPage > 0 then TotalPages(count.value, perPage as int) else 0;
    var pagination := Pagination(ToUint(page), totalPages, ToUint(perPage));
    return Response(StatusOK, Json(TransactionResponse(transactions.value, summary.value, pagination))), issued;
  }
}
