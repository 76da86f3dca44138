/**
 * The validation-message formatter: turns a field-validation failure into a
 * fixed English sentence and an error into the `{"messages": [...]}` body.
 */
module Errs {
  import opened Fmt

  /** One failed rule of the validator: the rule's tag, the field's name, the rule's parameter. */
  datatype FieldError = FieldError(tag: string, field: string, param: string)

  /** An error as the formatter sees it: the validator's list of failures, or any other error with its text. */
  datatype Error = Validation(fieldErrors: seq<FieldError>) | Other(text: string)

  /** The response body built from an error. */
  datatype ErrorResponse = ErrorResponse(messages: seq<string>)

  const ErrInternalDatabaseError := "internal database error"

  // The templates are Go format strings, each written as the concatenation of the
  // text between its "%s" verbs and the verbs themselves; the long middle text of
  // LteField is written in two pieces, which keeps each literal short for the solver.
  const Required := "field " + "%s" + " is required"
  const OneOf    := "the value of " + "%s" + " must be one of " + "%s"
  const Gt       := "the value of " + "%s" + " must be greater than " + "%s"
  const Gte      := "the value of " + "%s" + " must be greater than or equal " + "%s"
  const Lte      := "the value of " + "%s" + " must be less than or equal " + "%s"
  const LteField := "the value of " + "%s" + " value must be lower " + "than or equal value of field " + "%s"
  const Unknown  := "unknown error"

  /** The tags that have a template of their own. */
  const KnownTags: set<string> := {"required", "oneof", "gt", "gte", "lte", "ltefield"}

  /** The sentence for one field error; a tag without a template of its own gives "unknown error". */
  function GetErrMsg(fe: FieldError): (r: string)
    ensures fe.tag !in KnownTags ==> r == Unknown
  {
    match fe.tag
    case "required" => Sprintf(Required, [fe.field])
    case "oneof" => Sprintf(OneOf, [fe.field, fe.param])
    case "gt" => Sprintf(Gt, [fe.field, fe.param])
    case "gte" => Sprintf(Gte, [fe.field, fe.param])
    case "lte" => Sprintf(Lte, [fe.field, fe.param])
    case "ltefield" => Sprintf(LteField, [fe.field, fe.param])
    case _ => Unknown
  }

  /** The message of every field error, in the order the validator reported them. */
  function FieldMessages(fes: seq<FieldError>): (r: seq<string>)
    ensures |r| == |fes|
    ensures forall i :: 0 <= i < |fes| ==> r[i] == GetErrMsg(fes[i])
  {
    if fes == [] then [] else FieldMessages(fes[..|fes| - 1]) + [GetErrMsg(fes[|fes| - 1])]
  }

  /** The messages ParseError produces for an error. */
  function Messages(err: Error): (r: seq<string>)
    ensures err.Validation? ==> |r| == |err.fieldErrors|
    ensures err.Validation? ==> forall i :: 0 <= i < |r| ==> r[i] == GetErrMsg(err.fieldErrors[i])
    ensures err.Other? ==> r == [err.text]
  {
    match err
    case Validation(fes) => FieldMessages(fes)
    case Other(text) => [text]
  }

  /** Builds the message list by appending one message per field error. */
  method ParseError(err: Error) returns (resp: ErrorResponse)
    ensures err.Validation? ==> |resp.messages| == |err.fieldErrors|
    ensures err.Validation? ==>
      forall i :: 0 <= i < |resp.messages| ==> resp.messages[i] == GetErrMsg(err.fieldErrors[i])
    ensures err.Other? ==> resp.messages == [err.text]
    ensures resp == ErrorResponse(Messages(err))
  {
    var messages: seq<string> := [];
    if err.Validation? {
      var ve := err.fieldErrors;
      for i := 0 to |ve|
        invariant messages == FieldMessages(ve[..i])
      {
        assert ve[..i + 1][..i] == ve[..i];
        messages := messages + [GetErrMsg(ve[i])];
      }
      assert ve[..|ve|] == ve;
      return ErrorResponse(messages);
    }
    messages := messages + [err.text];
    return ErrorResponse(messages);
  }

  /**
   * Every known tag yields its template with the field (and, except for
   * `required`, the parameter) substituted; any other tag yields "unknown error".
   */
  lemma GetErrMsgTemplates(fe: FieldError)
    ensures fe.tag == "required" ==> GetErrMsg(fe) == "field " + fe.field + " is required"
    ensures fe.tag == "oneof" ==>
      GetErrMsg(fe) == "the value of " + fe.field + " must be one of " + fe.param
    ensures fe.tag == "gt" ==>
      GetErrMsg(fe) == "the value of " + fe.field + " must be greater than " + fe.param
    ensures fe.tag == "gte" ==>
      GetErrMsg(fe) == "the value of " + fe.field + " must be greater than or equal " + fe.param
    ensures fe.tag == "lte" ==>
      GetErrMsg(fe) == "the value of " + fe.field + " must be less than or equal " + fe.param
    ensures fe.tag == "ltefield" ==>
      GetErrMsg(fe) == "the value of " + fe.field
        + " value must be lower " + "than or equal value of field " + fe.param
    ensures fe.tag !in KnownTags ==> GetErrMsg(fe) == Unknown
  {
    if fe.tag == "required" {
      RequiredTemplate(fe.field);
    } else if fe.tag == "oneof" {
      OneOfTemplate(fe.field, fe.param);
    } else if fe.tag == "gt" {
      GtTemplate(fe.field, fe.param);
    } else if fe.tag == "gte" {
      GteTemplate(fe.field, fe.param);
    } else if fe.tag == "lte" {
      LteTemplate(fe.field, fe.param);
    } else if fe.tag == "ltefield" {
      LteFieldTemplate(fe.field, fe.param);
    }
  }

  lemma RequiredTemplate(f: string)
    ensures Sprintf(Required, [f]) == "field " + f + " is required"
  {
    SprintfOne("field ", " is required", f);
  }

  lemma OneOfTemplate(f: string, p: string)
    ensures Sprintf(OneOf, [f, p]) == "the value of " + f + " must be one of " + p
  {
    SprintfTwo("the value of ", " must be one of ", f, p);
  }

  lemma GtTemplate(f: string, p: string)
    ensures Sprintf(Gt, [f, p]) == "the value of " + f + " must be greater than " + p
  {
    SprintfTwo("the value of ", " must be greater than ", f, p);
  }

  lemma GteTemplate(f: string, p: string)
    ensures Sprintf(Gte, [f, p]) == "the value of " + f + " must be greater than or equal " + p
  {
    SprintfTwo("the value of ", " must be greater than or equal ", f, p);
  }

  lemma LteTemplate(f: string, p: string)
    ensures Sprintf(Lte, [f, p]) == "the value of " + f + " must be less than or equal " + p
  {
    SprintfTwo("the value of ", " must be less than or equal ", f, p);
  }

  lemma LteFieldTemplate(f: string, p: string)
    ensures Sprintf(LteField, [f, p])
      == "the value of " + f + " value must be lower " + "than or equal value of field " + p
  {
    var q1, q2 := " value must be lower ", "than or equal value of field ";
    LiteralConcat(q1, q2);
    assert LteField == "the value of " + "%s" + (q1 + q2) + "%s";
    SprintfTwo("the value of ", q1 + q2, f, p);
  }

  /** The `required` message names the field only: the parameter plays no part. */
  lemma RequiredIgnoresParam(field: string, p1: string, p2: string)
    ensures GetErrMsg(FieldError("required", field, p1)) == GetErrMsg(FieldError("required", field, p2))
    ensures GetErrMsg(FieldError("required", field, p1)) == "field " + field + " is required"
  {
    GetErrMsgTemplates(FieldError("required", field, p1));
  }

  /** The `required` row of the formatter's example table. */
  lemma RequiredExample()
    ensures GetErrMsg(FieldError("required", "Name", "")) == "field Name is required"
  {
    RequiredTemplate("Name");
  }

  /** The row of the example table with a tag that has no template. */
  lemma UnknownExample()
    ensures GetErrMsg(FieldError("unknown", "Field", "Param")) == "unknown error"
  {
  }

  /** A validation error with two failures gives their two messages in order. */
  lemma ValidationMessagesExample()
    ensures Messages(Validation([FieldError("required", "Name", ""), FieldError("gte", "Age", "21")]))
      == ["field Name is required", "the value of " + "Age" + " must be greater than or equal " + "21"]
  {
    var fes := [FieldError("required", "Name", ""), FieldError("gte", "Age", "21")];
    assert |Messages(Validation(fes))| == 2;
    RequiredExample();
    GteTemplate("Age", "21");
  }

  /** Any other error gives its own text as the single message. */
  lemma OtherMessagesExample()
    ensures Messages(Other(ErrInternalDatabaseError)) == ["internal database error"]
  {
  }
}
