/**
 * Transactions: the record, the validity rule its struct tags declare, the
 * validator's report against those tags, and the Update handler.
 */
module Transactions {
  import opened Wrappers
  import opened Errs
  import opened Web
  import opened Store

  /** A transaction as bound from a request body and as returned by the store. */
  datatype Transaction = Transaction(
    date: string,
    amount: real,
    category: string,
    transactionType: string,
    note: string,
    imageUrl: string)

  /**
   * The rule the struct tags declare: date, category and type are required,
   * the amount is positive, and the type is income or expense.
   */
  predicate Valid(tx: Transaction) {
    && tx.date != ""
    && tx.amount > 0.0
    && tx.category != ""
    && (tx.transactionType == "income" || tx.transactionType == "expense")
  }

  /** The failures the validator reports for one field: its first failing tag, if any. */
  function DateErrors(tx: Transaction): seq<FieldError> {
    if tx.date == "" then [FieldError("required", "Date", "")] else []
  }

  /** `required` on a float64 field rejects its zero value; `gt=0` then rejects the rest of the non-positive ones. */
  function AmountErrors(tx: Transaction): seq<FieldError> {
    if tx.amount == 0.0 then [FieldError("required", "Amount", "")]
    else if !(tx.amount > 0.0) then [FieldError("gt", "Amount", "0")]
    else []
  }

  function CategoryErrors(tx: Transaction): seq<FieldError> {
    if tx.category == "" then [FieldError("required", "Category", "")] else []
  }

  function TypeErrors(tx: Transaction): seq<FieldError> {
    if tx.transactionType == "" then [FieldError("required", "TransactionType", "")]
    else if tx.transactionType != "income" && tx.transactionType != "expense" then
      [FieldError("oneof", "TransactionType", "income expense")]
    else []
  }

  /** The validator's report on a transaction, field by field in declaration order. */
  function FieldErrors(tx: Transaction): seq<FieldError> {
    DateErrors(tx) + AmountErrors(tx) + CategoryErrors(tx) + TypeErrors(tx)
  }

  /** The validator reports nothing exactly when the transaction is valid. */
  lemma FieldErrorsEmptyIffValid(tx: Transaction)
    ensures FieldErrors(tx) == [] <==> Valid(tx)
  {
    if FieldErrors(tx) == [] {
      assert |DateErrors(tx)| == 0 && |AmountErrors(tx)| == 0;
      assert |CategoryErrors(tx)| == 0 && |TypeErrors(tx)| == 0;
    }
  }

  /** Every reported failure carries a tag the formatter has a template for, and at most one per field. */
  lemma FieldErrorsKnownTags(tx: Transaction)
    ensures |FieldErrors(tx)| <= 4
    ensures forall i :: 0 <= i < |FieldErrors(tx)| ==> FieldErrors(tx)[i].tag in KnownTags
  {
  }

  /** The note and the image URL play no part in validity. */
  lemma ValidIgnoresNoteAndImage(tx: Transaction, note: string, imageUrl: string)
    ensures Valid(tx.(note := note, imageUrl := imageUrl)) == Valid(tx)
    ensures FieldErrors(tx.(note := note, imageUrl := imageUrl)) == FieldErrors(tx)
  {
  }

  /** A zero amount fails `required` before `gt` is tried, so the message is that of `required`. */
  lemma ZeroAmountMessage(tx: Transaction)
    requires tx.date != "" && tx.category != "" && tx.transactionType in {"income", "expense"} && tx.amount == 0.0
    ensures Messages(Validation(FieldErrors(tx))) == ["field " + "Amount" + " is required"]
  {
    assert FieldErrors(tx) == [FieldError("required", "Amount", "")];
    RequiredTemplate("Amount");
  }

  /** A negative amount passes `required` and fails `gt=0`. */
  lemma NegativeAmountMessage(tx: Transaction)
    requires tx.date != "" && tx.category != "" && tx.transactionType in {"income", "expense"} && tx.amount < 0.0
    ensures Messages(Validation(FieldErrors(tx))) == ["the value of " + "Amount" + " must be greater than " + "0"]
  {
    assert FieldErrors(tx) == [FieldError("gt", "Amount", "0")];
    GtTemplate("Amount", "0");
  }

  /** The update statement with its positional arguments: the six columns, then the id. */
  datatype TxQuery = UpdateTransaction(
    date: string,
    amount: real,
    category: string,
    transactionType: string,
    note: string,
    imageUrl: string,
    id: Int64)

  /** The store: the row that `UPDATE ... RETURNING` yields for a statement, or its error. */
  datatype TxStore = TxStore(queryRow: TxQuery -> Result<Transaction, StoreError>)

  function UpdateQuery(tx: Transaction, id: Int64): TxQuery {
    UpdateTransaction(tx.date, tx.amount, tx.category, tx.transactionType, tx.note, tx.imageUrl, id)
  }

  /**
   * PUT /transactions/:id. The id is parsed, then the body bound, then validated,
   * then the store updated; each step that fails ends the request with its status.
   * `issued` lists the statements sent to the store.
   */
  method Update(db: TxStore, idParam: Atoi, bind: Result<Transaction, string>)
    returns (resp: Response<Transaction>, issued: seq<TxQuery>)
    ensures idParam.NotNum? ==> resp == ErrorBody(StatusBadRequest, Other(idParam.text)) && issued == []
    ensures idParam.Num? && bind.Failure? ==>
      resp == ErrorBody(StatusBadRequest, Other(bind.error)) && issued == []
    ensures idParam.Num? && bind.Success? && !Valid(bind.value) ==>
      && resp == ErrorBody(StatusBadRequest, Validation(FieldErrors(bind.value)))
      && FieldErrors(bind.value) != []
      && issued == []
    ensures idParam.Num? && bind.Success? && Valid(bind.value) ==>
      var q := UpdateQuery(bind.value, idParam.n);
      && issued == [q]
      && resp == match db.queryRow(q)
        case Failure(e) => ErrorBody(StatusInternalServerError, Other(e.Text()))
        case Success(row) => Response(StatusOK, Json(row))
    ensures resp.status == StatusOK ==> idParam.Num? && bind.Success? && Valid(bind.value)
    ensures resp.status in {StatusOK, StatusBadRequest, StatusInternalServerError}
  {
    issued := [];
    if idParam.NotNum? {
      var er := ParseError(Other(idParam.text));
      return Response(StatusBadRequest, Problem(er)), issued;
    }
    var id := idParam.n;

    if bind.Failure? {
      var er := ParseError(Other(bind.error));
      return Response(StatusBadRequest, Problem(er)), issued;
    }
    var tx := bind.value;

    var fes := FieldErrors(tx);
    FieldErrorsEmptyIffValid(tx);
    if fes != [] {
      var er := ParseError(Validation(fes));
      return Response(StatusBadRequest, Problem(er)), issued;
    }

    var q := UpdateQuery(tx, id);
    issued := issued + [q];
    var scanned := db.queryRow(q);
    if scanned.Failure? {
      var er := ParseError(Other(scanned.error.Text()));
      return Response(StatusInternalServerError, Problem(er)), issued;
    }
    var updatedTx := scanned.value;
    return Response(StatusOK, Json(updatedTx)), issued;
  }
}
