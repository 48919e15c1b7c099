/** The API's validation helpers (core/internal/infrastructure/validation/
    validator.go): the message for each failed rule and the field-to-message
    map of a validation error. */
module Validation {
  import opened Wrappers
  import opened FieldErrors

  /** The human-readable message for a failed rule, by its tag. */
  function FormatValidationError(e: FieldError): string {
    match e.Tag
    case "required" => "This field is required"
    case "min" => "Value is too short or too small"
    case "max" => "Value is too long or too large"
    case "gt" => "Value must be greater than " + e.Param
    case "gte" => "Value must be greater than or equal to " + e.Param
    case "lt" => "Value must be less than " + e.Param
    case "lte" => "Value must be less than or equal to " + e.Param
    case "email" => "Invalid email format"
    case "url" => "Invalid URL format"
    case "uuid" => "Invalid UUID format"
    case _ => ErrorText(e)
  }

  /** The tags whose message is fixed, with that message. */
  const FixedMessages: map<string, string> := map[
    "required" := "This field is required",
    "min" := "Value is too short or too small",
    "max" := "Value is too long or too large",
    "email" := "Invalid email format",
    "url" := "Invalid URL format",
    "uuid" := "Invalid UUID format"]

  /** The comparison tags, with the text that precedes the parameter. */
  const ComparisonPrefixes: map<string, string> := map[
    "gt" := "Value must be greater than ",
    "gte" := "Value must be greater than or equal to ",
    "lt" := "Value must be less than ",
    "lte" := "Value must be less than or equal to "]

  /** Every message is one of three kinds: a fixed text for the six fixed
      tags, whatever the parameter; a prefix followed by the parameter
      verbatim for the four comparisons; the library's own text otherwise. */
  lemma FormatValidationErrorKinds(e: FieldError)
    ensures e.Tag in FixedMessages ==> FormatValidationError(e) == FixedMessages[e.Tag]
    ensures e.Tag in ComparisonPrefixes ==>
              && FormatValidationError(e) == ComparisonPrefixes[e.Tag] + e.Param
              && var m := FormatValidationError(e); m[|m| - |e.Param|..] == e.Param
    ensures e.Tag !in FixedMessages && e.Tag !in ComparisonPrefixes ==> FormatValidationError(e) == ErrorText(e)
  {
  }

  /** `ValidationErrors`: for a validation-error list, the map from each
      failing field to its message (built by a loop, the last error for a
      field winning); for any other error, nil. */
  method ValidationErrors(err: Error) returns (details: Option<map<string, string>>)
    ensures details == if err.ValidationErrorList? then Some(Details(err.errs, FormatValidationError)) else None
  {
    if !err.ValidationErrorList? {
      return None;
    }
    var errs := err.errs;
    var m: map<string, string> := map[];
    for i := 0 to |errs|
      invariant m == Details(errs[..i], FormatValidationError)
    {
      assert errs[..i + 1][..i] == errs[..i];
      m := m[errs[i].Field := FormatValidationError(errs[i])];
    }
    assert errs[..|errs|] == errs;
    details := Some(m);
  }
}
