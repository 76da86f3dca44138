# Spender and transaction API — a verified model of its core

This project models, in Dafny, the logic inside the HTTP handlers of a small
spender/transaction service:

- the **validation-message formatter** (`Errs`, with Go's `fmt.Sprintf` for `%s`
  verbs in `Fmt`). It maps a validator failure (tag, field, parameter) to its sentence
  and turns an error into the `{"messages": [...]}` body;
- the **transaction update rules** (`Transactions`): the validity rules declared by
  the struct tags of `Transaction`, the validator's failures for a body, and the
  `Update` handler's order of checks;
- the **spender handlers** (`Spenders`):
  - `Create`, `GetAll` and `GetByID`;
  - the income/expense summary fold and `GetTransactionsSummary`;
  - the paginated transaction listing `GetTransactionBySpenderID`, with page
    defaults, offset and page count.

The pieces the handlers share are:

- `Web`: status codes, response shape, `strconv.Atoi` results, Go's `uint(x)` and
  64-bit wrapping;
- `Store`: store errors and rows that may fail to scan;
- `Utils`: the `Pagination` record.

The store is a value of type `Db` (`TxStore` for the update handler). It holds one total function per SQL statement,
from the statement's positional arguments to what the driver answers, so every
possible store behaviour is covered. Each handler returns the response and the list
of statements it sent (`issued`). That makes "no statement is sent on a 400" and
"later steps are not reached after a failure" part of the contracts.

Parsed inputs stand in for the framework:

- `Atoi` is `Num(n)` or `NotNum(errorText)`;
- an absent query parameter is `None`;
- a request-body bind is a `Result`.

Amounts are `real`, not floating point.

## Model

| member | source | states |
|---|---|---|
| Fmt.Sprintf | api/errs/errs.go:31-41 | Go's `fmt.Sprintf` for `%s` verbs: each verb takes the next argument, a verb with none left prints `%!s(MISSING)`, other text is copied; what it yields for the templates is stated by Fmt.SprintfOne and Fmt.SprintfTwo |
| Fmt.SprintfOne | api/errs/errs.go:31 | a template with one `%s` between two literal parts, given one argument, yields the parts with the argument in between |
| Fmt.SprintfTwo | api/errs/errs.go:33-41 | a template `p%sq%s`, given two arguments, substitutes them in order |
| Errs.RequiredTemplate | api/errs/errs.go:19 | the `required` template applied to a field is "field F is required" |
| Errs.OneOfTemplate | api/errs/errs.go:20 | the `oneof` template substitutes the field, then the parameter |
| Errs.GtTemplate | api/errs/errs.go:21 | the `gt` template substitutes the field, then the parameter |
| Errs.GteTemplate | api/errs/errs.go:22 | the `gte` template substitutes the field, then the parameter |
| Errs.LteTemplate | api/errs/errs.go:23 | the `lte` template substitutes the field, then the parameter |
| Errs.LteFieldTemplate | api/errs/errs.go:24 | the `ltefield` template substitutes the field, then the other field's name |
| Errs.GetErrMsg | api/errs/errs.go:28-45 | a tag outside the six known ones yields "unknown error"; the sentence of each known tag is stated by Errs.GetErrMsgTemplates |
| Errs.GetErrMsgTemplates | api/errs/errs.go:28-45 | each of the six known tags yields exactly its sentence with field and parameter substituted; every other tag yields "unknown error" |
| Errs.RequiredIgnoresParam | api/errs/errs.go:30-31 | the `required` message depends on the field only, never on the parameter |
| Errs.FieldMessages | api/errs/errs.go:52-54 | one message per field error, message i being that of field error i |
| Errs.Messages | api/errs/errs.go:47-60 | a validation error gives as many messages as failures, in order; any other error gives exactly its own text |
| Errs.ParseError | api/errs/errs.go:47-60 | the append loop builds exactly those messages: per-index messages for a validation error, `[text]` otherwise |
| Errs.RequiredExample | api/errs/errs_test.go:73 | required/Name gives "field Name is required" |
| Errs.UnknownExample | api/errs/errs_test.go:79 | a tag with no template gives "unknown error" |
| Errs.ValidationMessagesExample | api/errs/errs_test.go:90-112 | failures required/Name and gte/Age/21 give their two messages in that order |
| Errs.OtherMessagesExample | api/errs/errs_test.go:114-121 | the internal database error gives the single message "internal database error" |
| Web.ToUint | api/spender/spender.go:148 | `uint(id)` is below 2^64, congruent to id modulo 2^64, and equal to id when id is not negative |
| Web.WrapInt64 | api/spender/spender.go:241 | the int64 result of an arithmetic step is congruent to the exact value modulo 2^64 and equals it when it fits |
| Store.ScanAll | api/spender/spender.go:92-101 | scanning succeeds exactly when every row scans, and then yields every row's value in order; otherwise it yields the error of the first row that failed |
| Store.CollectRows | api/spender/spender.go:93-101 | the row loop that appends values and stops at the first scan error computes ScanAll |
| Transactions.Valid | api/transaction/transaction.go:14-17 | the rule the struct tags declare: date, category and type non-empty, amount > 0, type income or expense; tied to the validator's report by Transactions.FieldErrorsEmptyIffValid |
| Transactions.FieldErrors | api/transaction/transaction.go:14-17 | the validator's report: per field in declaration order, its first failing tag; characterised by Transactions.FieldErrorsEmptyIffValid, Transactions.FieldErrorsKnownTags and the amount-message lemmas |
| Transactions.UpdateQuery | api/transaction/transaction.go:60-61 | the update statement's arguments: date, amount, category, type, note, image URL, then the id; the order every Transactions.Update contract clause refers to |
| Transactions.FieldErrorsEmptyIffValid | api/transaction/transaction.go:13-20 | the validator reports no failure exactly when date, category and type are non-empty, amount > 0 and type is income or expense |
| Transactions.FieldErrorsKnownTags | api/transaction/transaction.go:14-17 | at most one failure per validated field (four in all), each with a tag the formatter has a template for |
| Transactions.ValidIgnoresNoteAndImage | api/transaction/transaction.go:18-19 | note and image URL change neither validity nor the reported failures |
| Transactions.ZeroAmountMessage | api/transaction/transaction.go:15 | a zero amount fails `required` before `gt` is tried: the only message is "field Amount is required" |
| Transactions.NegativeAmountMessage | api/transaction/transaction.go:15 | a negative amount fails `gt=0`: the only message is "the value of Amount must be greater than 0" |
| Transactions.Update | api/transaction/transaction.go:36-71 | a bad id gives 400 before anything else, then a bad body gives 400, then an invalid body gives 400 with the formatter's messages; none of these sends a statement. Only a valid body sends the update, with the six columns then the id; a store error gives 500; success gives 200 with the row the store returned. 200 implies a valid body |
| Spenders.IncomeRows | api/spender/spender.go:174-175 | every row selected as income has type exactly "income" |
| Spenders.OtherRows | api/spender/spender.go:176-177 | every row selected as expense has a type other than "income" |
| Spenders.SumsByGroup | api/spender/spender.go:166-185 | income is the sum of the income rows' totals and expense the sum of all other rows' totals; the two groups together are exactly the rows |
| Spenders.SummaryOf | api/spender/spender.go:181-185 | the summary of decoded rows: income, expense, and balance = income − expense; characterised by Spenders.SumsByGroup, Spenders.SummaryAppendRow and Spenders.SummaryPermutation |
| Spenders.SumsAppend | api/spender/spender.go:167-179 | income and expense split over concatenation of the rows |
| Spenders.IncomePlusExpense | api/spender/spender.go:174-178 | every row counts in exactly one of the two totals: income + expense is the sum of all totals |
| Spenders.SummaryAppendRow | api/spender/spender.go:174-178 | a row of type exactly "income" adds its total to income only; any other row adds it to expense only |
| Spenders.SumsRemove | api/spender/spender.go:174-178 | taking one row out of the rows takes its part out of the total it belongs to |
| Spenders.SummaryPermutation | api/spender/spender.go:160-185 | with exact amounts, the summary does not depend on the order in which the store returns the group rows (float64 sums, as Go adds them, can) |
| Spenders.SumsPermutation | api/spender/spender.go:160-185 | income and expense are equal for any two row lists that are permutations of each other |
| Spenders.SummaryExamples | api/spender/spender_test.go:165-175 | no rows give (0, 0, 0); 2000 income and 1000 expense give (2000, 1000, 1000); an unexpected type counts as expense |
| Spenders.SummaryFromQuery | api/spender/spender.go:159-186 | what the summary step yields for the store's answer: the store error's text, the first scan error, or SummaryOf the rows; the loop that computes it is Spenders.GetSummaryBySpenderID |
| Spenders.GetSummaryBySpenderID | api/spender/spender.go:159-186 | sends the summary statement with the id; a store error or the first scan error is returned; otherwise the loop's two accumulators give income, expense and balance = income − expense of the rows read |
| Spenders.QueryInt | api/spender/spender.go:212-232 | a query parameter: absent gives the default (1 for page, 10 for per_page), a number gives itself, a malformed one gives its parse error; its use is stated by Spenders.GetTransactionBySpenderID |
| Spenders.TotalPages | api/spender/spender.go:274 | the page count is the ceiling of rows / per_page: enough pages for all rows, and the last page is not empty |
| Spenders.Offset | api/spender/spender.go:241 | the offset is (page − 1) × per_page whenever that fits in 64 bits |
| Spenders.PaginationExamples | api/spender/spender_test.go:258-289 | page 1 of 5 rows has offset 0 and 2 rows of 5 per page make 1 page; further offsets and page counts |
| Spenders.Create | api/spender/spender.go:55-79 | the disabled flag gives 403 before binding or any statement; a bind failure gives 400 with its text; otherwise the insert is sent with name and email, a store error gives 500, and success gives 201 with the bound name and email and the store-assigned id |
| Spenders.GetAll | api/spender/spender.go:81-104 | a store error gives 500 with its text; a scan error gives 500 with the first failing row's error; otherwise 200 with every row's spender in order |
| Spenders.GetByID | api/spender/spender.go:106-131 | the no-rows error gives 404 "spender not found"; any other store error gives 500 with its text; a scan error gives 500; otherwise 200 with the last row, or the zero spender when there is none |
| Spenders.GetTransactionsSummary | api/spender/spender.go:138-157 | a bad id gives 400 and sends nothing; otherwise the summary statement is sent with `uint(id)`; a failure gives 500 with its text; success gives 200 with `{"summary": ...}` |
| Spenders.GetTransactionBySpenderID | api/spender/spender.go:208-285 | absent page and per_page default to 1 and 10; a malformed page, then per_page, then id gives 400 and sends nothing. Then the listing is sent with (id, per_page, offset), then the summary with `uint(id)`, then the count; the first failure gives 500 and nothing after it is sent. A listing store error is answered as a bare string, the others through the formatter. Success gives 200 with the rows, the summary and a pagination that echoes `uint(page)`, `uint(per_page)` and the page count |

## Left out

- HTTP plumbing is not modelled: echo's routing, request binding, `c.Param` / `c.QueryParam`, `strconv.Atoi` itself and JSON serialisation. Parsed results are inputs. In particular Go's nil slice (`GetAll` with no rows) serialises as `null`, which the model does not distinguish from an empty list.
- Logging (`mlog`, `zap`), context handling and feature-flag loading are left out; the flag is an input.
- SQL text, `database/sql` and `rows.Next` are not modelled. Each statement is a total function of its arguments in `Db`, and the rows are an input sequence.
- The listing's rows are treated as already decoded `Transaction` values. The listing statement selects 7 columns but the scan reads 8, into `ID` and `SpenderID` fields that `transaction.Transaction` does not declare. Column shape is not modelled.
- The listing statement's `LIMIT` is the store's promise: the model passes per_page as the limit argument, and the number of rows returned is whatever the store yields.
- Float64 is not modelled: amounts are exact reals, and the page count is integer ceiling division rather than `math.Ceil` over float64 division.
- Spenders.GetTransactionBySpenderID: for per_page ≤ 0 the page count is left unspecified. There Go computes `math.Ceil(float64(totalRows) / float64(perPage))` and converts it to `uint` (api/spender/spender.go:274, 281). For per_page = 0 the quotient is NaN or +Inf, and for a ceiling of −1 or less the value is out of `uint`'s range; Go does not define either conversion. In the rest of the range (per_page < 0 and fewer than |per_page| rows) the ceiling is 0 or −0, and Go does yield 0 pages; the model does not promise that case either. page ≤ 0 is modelled: it wraps through `uint(page)` and the offset goes negative.
- Validator internals are not modelled: `required` on a float64 is modelled as "not zero" and on a string as "not empty"; the first failing tag per field is reported, fields in declaration order; `errors.As` unwrapping of wrapped validation errors is left out.
- Fmt.SprintfTwo: only the `%s` verb and missing arguments (`%!s(MISSING)`) are modelled; surplus arguments (`%!(EXTRA ...)`) and other verbs are not, since the templates never use them.
- The long literal examples of the formatter's test table (oneof, gt, gte, lte, ltefield rows) are covered by Errs.GetErrMsgTemplates for all fields and parameters, not as separate literal lemmas.
- `GetSpenderByID` (api/spender/spender.go:188-206) is left out: it is `GetByID` without the 404 branch.
- The integration test, `api/utils/test_utils.go` and `api/models/models.go` are not part of this model.

Notes on what the code does where its tags or tests suggest otherwise:

- A transaction amount of 0 fails the `required` tag before `gt=0` is evaluated, so its message is "field Amount is required", not the `gt=0` sentence "the value of Amount must be greater than 0".
- The update test cases in api/transaction/transcation_test.go (lines 15-38, 40-64 and 66-86) set no `id` path parameter and register no validator, yet expect 200 and 500. The code answers 400 there, because `strconv.Atoi("")` fails at api/transaction/transaction.go:41-45. The model follows the code: Transactions.Update gives 400 for a malformed id before anything else.
- `GetByID` answers 404 "spender not found" (api/spender/spender.go:113-115) only when the query itself reports the no-rows error. `QueryContext` does not report that error for an empty result, so a spender id with no row answers 200 with the zero-valued spender.
