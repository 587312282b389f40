/** Input validation: each validator returns no error or a ValidationError
    naming the field and the rule that failed. */
module Validation {
  import opened Json
  import opened Text
  import opened Errors

  const MustBePositive := "must be greater than 0"
  const IsRequired := "is required and cannot be empty"
  const MustBeHttp := "must start with http:// or https://"

  /** ValidationError.Error. */
  function ValidationErrorText(field: string, message: string): (s: string)
    ensures HasPrefix(s, "validation error: ")
    ensures |field| + |message| + 21 == |s|
    ensures s[18..18 + |field|] == field && s[|s| - |message|..] == message
  {
    var s := "validation error: " + field + " - " + message;
    assert s[..18] == "validation error: ";
    s
  }

  function ValidateID(id: int64, fieldName: string): (r: Option<Error>)
    ensures r.Some? <==> id <= 0
    ensures r.Some? ==> r.value == Validation(fieldName, MustBePositive)
  {
    if id <= 0 then Some(Validation(fieldName, MustBePositive)) else None
  }

  function ValidateRequired(value: string, fieldName: string): (r: Option<Error>)
    ensures r.Some? ==> r.value == Validation(fieldName, IsRequired)
  {
    if TrimSpace(value) == "" then Some(Validation(fieldName, IsRequired)) else None
  }

  /** A value is refused exactly when it is empty or only white space. */
  lemma RequiredRefusesBlank(value: string, fieldName: string)
    ensures ValidateRequired(value, fieldName).Some? <==> AllSpace(value)
  {
    TrimSpaceEmptyIff(value);
  }

  function ValidateURL(url: string, fieldName: string): (r: Option<Error>)
    ensures ValidateRequired(url, fieldName).Some? ==> r == ValidateRequired(url, fieldName)
    ensures r.Some? ==> r.value.Validation? && r.value.field == fieldName
  {
    var required := ValidateRequired(url, fieldName);
    if required.Some? then required
    else if !HasPrefix(url, "http://") && !HasPrefix(url, "https://") then Some(Validation(fieldName, MustBeHttp))
    else None
  }

  /** A URL passes exactly when it starts with one of the two schemes; the
      blank check never decides alone, since a blank string has neither. */
  lemma URLAcceptsExactlyHttp(url: string, fieldName: string)
    ensures ValidateURL(url, fieldName).None? <==> HasPrefix(url, "http://") || HasPrefix(url, "https://")
    ensures ValidateURL(url, fieldName).Some? && !AllSpace(url) ==>
      ValidateURL(url, fieldName) == Some(Validation(fieldName, MustBeHttp))
  {
    RequiredRefusesBlank(url, fieldName);
    if HasPrefix(url, "http://") || HasPrefix(url, "https://") {
      assert url[0] == 'h';
      assert !AllSpace(url) by {
        assert !IsSpace('h');
      }
    }
  }

  function ValidateToken(token: string): (r: Option<Error>)
    ensures r.Some? <==> AllSpace(token)
    ensures r.Some? ==> r.value == Validation("token", IsRequired)
  {
    RequiredRefusesBlank(token, "token");
    ValidateRequired(token, "token")
  }

  function ValidateHost(host: string): (r: Option<Error>)
    ensures r.None? <==> HasPrefix(host, "http://") || HasPrefix(host, "https://")
    ensures r.Some? ==> r.value.Validation? && r.value.field == "host"
  {
    URLAcceptsExactlyHttp(host, "host");
    ValidateURL(host, "host")
  }

  predicate IsValidationError(err: Option<Error>)
  {
    err.Some? && err.value.Validation?
  }

  /** Every failure of the validators is recognised as a validation error, and
      none of them is an API error. */
  lemma ValidatorsFailWithValidationErrors(id: int64, value: string, url: string, fieldName: string)
    ensures ValidateID(id, fieldName).Some? ==> IsValidationError(ValidateID(id, fieldName)) && !IsNotFoundError(ValidateID(id, fieldName))
    ensures ValidateRequired(value, fieldName).Some? ==> IsValidationError(ValidateRequired(value, fieldName))
    ensures ValidateURL(url, fieldName).Some? ==> IsValidationError(ValidateURL(url, fieldName))
  {
  }
}
