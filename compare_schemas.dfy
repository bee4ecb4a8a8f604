/** The request and response schemas of the comparison API: the text-field
    validator of a comparison request, the size rule of a batch request and
    the bound on the reported execution time. Validation runs the field's
    constraints (`min_length`, `ge`, the batch bounds) before the
    `field_validator`, as pydantic does for an after-validator. */
module CompareSchemas {
  import opened PyValues

  /** Why a field was rejected. */
  datatype FieldError =
    | StringTooShort                 // min_length=1
    | Rejected(message: string)      // a ValueError raised by a validator
    | LessThanZero                   // ge=0

  const BlankMessage: string := "Campo não pode ser vazio"

  /** One of `input`, `response_a`, `response_b`: at least one character,
      then `validate_non_empty_strings`, which rejects a blank value and
      stores the stripped one. */
  function ValidateText(v: string): (r: Result<string, FieldError>)
    ensures r.Ok? <==> !AllSpace(v)
    ensures r.Ok? ==> r.value == Strip(v) && r.value != ""
    ensures v == "" ==> r == Err(StringTooShort)
    ensures v != "" && AllSpace(v) ==> r == Err(Rejected(BlankMessage))
  {
    StripEmptyIffAllSpace(v);
    if |v| < 1 then Err(StringTooShort)
    else if Strip(v) == "" then Err(Rejected(BlankMessage))
    else Ok(Strip(v))
  }

  /** A stored value has no surrounding whitespace and validates to itself:
      validating twice is validating once. */
  lemma ValidatedTextIsStable(v: string)
    requires ValidateText(v).Ok?
    ensures var w := ValidateText(v).value;
            && !IsSpace(w[0]) && !IsSpace(w[|w| - 1])
            && ValidateText(w) == Ok(w)
  {
    var w := Strip(v);
    StripHasNoOuterSpace(v);
    StripIdempotent(v);
    StripEmptyIffAllSpace(w);
  }

  /** A comparison request after validation. */
  datatype CompareRequest = CompareRequest(
    input: string, responseA: string, responseB: string,
    modelAName: Option<string>, modelBName: Option<string>, judgeModel: Option<string>)

  /** The fields that fail, in declaration order, each with its error. */
  function RequestErrors(input: string, a: string, b: string): seq<(string, FieldError)> {
    FailingFields(ValidateText(input), ValidateText(a), ValidateText(b))
  }

  /** The error list of three field outcomes, in declaration order. */
  function FailingFields(vi: Result<string, FieldError>, va: Result<string, FieldError>,
                         vb: Result<string, FieldError>): seq<(string, FieldError)> {
    (if vi.Err? then [("input", vi.error)] else [])
    + (if va.Err? then [("response_a", va.error)] else [])
    + (if vb.Err? then [("response_b", vb.error)] else [])
  }

  /** `CompareRequest(**data)`: every failing text field is reported; with
      none the request holds the stripped texts. */
  function ValidateCompareRequest(input: string, a: string, b: string, modelA: Option<string>,
                                  modelB: Option<string>, judge: Option<string>)
    : (r: Result<CompareRequest, seq<(string, FieldError)>>)
    ensures r.Ok? <==> !AllSpace(input) && !AllSpace(a) && !AllSpace(b)
    ensures r.Ok? ==> r.value == CompareRequest(Strip(input), Strip(a), Strip(b), modelA, modelB, judge)
  {
    var errors := RequestErrors(input, a, b);
    if errors == [] then Ok(CompareRequest(Strip(input), Strip(a), Strip(b), modelA, modelB, judge))
    else Err(errors)
  }

  /** The position of a text field in the declaration of CompareRequest. */
  function FieldRank(name: string): nat {
    if name == "input" then 0 else if name == "response_a" then 1 else 2
  }

  /** The field `name` is reported, with the error of its outcome `v`,
      exactly when `v` failed. */
  predicate Reports(errors: seq<(string, FieldError)>, name: string, v: Result<string, FieldError>) {
    if v.Err? then exists k | 0 <= k < |errors| :: errors[k] == (name, v.error)
    else forall k | 0 <= k < |errors| :: errors[k].0 != name
  }

  /** The error list names exactly the failing fields, each once and with
      its own error, in declaration order (input, response_a, response_b);
      it is empty exactly when every field passes. */
  lemma RequestErrorsNameFailingFields(input: string, a: string, b: string)
    ensures var errors := RequestErrors(input, a, b);
            && (forall k | 0 <= k < |errors| :: errors[k].0 in {"input", "response_a", "response_b"})
            && (forall j, k | 0 <= j < k < |errors| :: FieldRank(errors[j].0) < FieldRank(errors[k].0))
            && Reports(errors, "input", ValidateText(input))
            && Reports(errors, "response_a", ValidateText(a))
            && Reports(errors, "response_b", ValidateText(b))
            && (errors == [] <==> !AllSpace(input) && !AllSpace(a) && !AllSpace(b))
  {
    FailingFieldsOrder(ValidateText(input), ValidateText(a), ValidateText(b));
  }

  lemma FailingFieldsOrder(vi: Result<string, FieldError>, va: Result<string, FieldError>,
                           vb: Result<string, FieldError>)
    ensures var errors := FailingFields(vi, va, vb);
            && (forall k | 0 <= k < |errors| :: errors[k].0 in {"input", "response_a", "response_b"})
            && (forall j, k | 0 <= j < k < |errors| :: FieldRank(errors[j].0) < FieldRank(errors[k].0))
            && Reports(errors, "input", vi)
            && Reports(errors, "response_a", va)
            && Reports(errors, "response_b", vb)
            && (errors == [] <==> vi.Ok? && va.Ok? && vb.Ok?)
  {
    var errors := FailingFields(vi, va, vb);
    var ei := if vi.Err? then [("input", vi.error)] else [];
    var ea := if va.Err? then [("response_a", va.error)] else [];
    var eb := if vb.Err? then [("response_b", vb.error)] else [];
    assert errors == ei + ea + eb;
    if vi.Err? {
      assert errors[0] == ("input", vi.error);
    }
    if va.Err? {
      assert errors[|ei|] == ("response_a", va.error);
    }
    if vb.Err? {
      assert errors[|ei| + |ea|] == ("response_b", vb.error);
    }
  }

  // ---------------------------------------------------------------------
  // The batch request

  /** Why a batch was rejected. */
  datatype BatchError =
    | TooShort         // min_items=2
    | TooLong          // max_items=5
    | SingleComparison(message: string)

  const SingleMessage: string := "Para uma única comparação, use o endpoint /api/v1/compare/ (sem /batch)"

  /** `BatchCompareRequest` as written: the size bounds are checked first, so
      `validate_comparisons` only ever sees two to five items. */
  function ValidateBatchAsWritten(n: nat): (r: Result<nat, BatchError>)
  {
    if n < 2 then Err(TooShort)
    else if n > 5 then Err(TooLong)
    else if n == 1 then Err(SingleComparison(SingleMessage))
    else Ok(n)
  }

  /** The message meant for a one-item batch is never produced: one item is
      rejected by the lower bound instead. */
  lemma SingleMessageUnreachable(n: nat)
    ensures ValidateBatchAsWritten(n) != Err(SingleComparison(SingleMessage))
    ensures ValidateBatchAsWritten(1) == Err(TooShort)
  {
  }

  /** The batch rule with the single-item message in front of the lower
      bound, so that a caller sending one comparison is sent to the
      single-comparison endpoint. */
  function ValidateBatch(n: nat): (r: Result<nat, BatchError>)
    ensures r.Ok? <==> 2 <= n <= 5
    ensures n == 1 <==> r == Err(SingleComparison(SingleMessage))
    ensures n == 0 ==> r == Err(TooShort)
    ensures n > 5 ==> r == Err(TooLong)
  {
    if n == 1 then Err(SingleComparison(SingleMessage))
    else if n < 2 then Err(TooShort)
    else if n > 5 then Err(TooLong)
    else Ok(n)
  }

  /** Both accept the same batches, and differ only on a single item. */
  lemma BatchRulesAgreeExceptSingle(n: nat)
    ensures ValidateBatch(n).Ok? <==> ValidateBatchAsWritten(n).Ok?
    ensures n != 1 ==> ValidateBatch(n) == ValidateBatchAsWritten(n)
  {
  }

  // ---------------------------------------------------------------------
  // The response

  /** `execution_time` of a ComparisonResponse (ge=0). */
  function ValidateExecutionTime(t: real): (r: Result<real, FieldError>)
    ensures r.Ok? <==> t >= 0.0
    ensures r.Ok? ==> r.value == t
  {
    if t < 0.0 then Err(LessThanZero) else Ok(t)
  }
}
