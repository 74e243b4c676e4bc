/**
 * The address check run before a feed is added: a schema built afresh on
 * every call from the current list of addresses, with three rules tried in
 * order (required, then URL format, then not one of the existing addresses).
 * The first rule that fails decides the error.
 */
module Validation {
  import opened Common

  /** The three rules of the schema, named after the message key each fails with. */
  datatype ValidationError = Required | InvalidUrl | DuplicateUrl

  /** The message key a failed rule reports (the error's `message`). */
  function Message(e: ValidationError): (key: string)
    ensures |key| > 7 && key[..7] == "errors."
    ensures key != "errors.parsingError" && key != "errors.networkError"
  {
    match e
    case Required => "errors.required"
    case InvalidUrl => "errors.invalidUrl"
    case DuplicateUrl => "errors.duplicateUrl"
  }

  /** Distinct rules report distinct keys, so the key identifies the rule. */
  lemma MessageInjective(e: ValidationError, e': ValidationError)
    requires Message(e) == Message(e')
    ensures e == e'
  {
  }

  /**
   * `validate(url, existingUrls)`. `isUrl` stands for the schema library's URL
   * test, which the model does not interpret. On success the input comes back
   * unchanged.
   */
  function Validate(url: string, existingUrls: seq<string>, isUrl: string -> bool)
    : (r: Result<string, ValidationError>)
    ensures r == Err(Required) <==> url == ""
    ensures r == Err(InvalidUrl) <==> url != "" && !isUrl(url)
    ensures r == Err(DuplicateUrl) <==> url != "" && isUrl(url) && url in existingUrls
    ensures r.Ok? <==> url != "" && isUrl(url) && url !in existingUrls
    ensures r.Ok? ==> r.value == url
  {
    if url == "" then Err(Required)
    else if !isUrl(url) then Err(InvalidUrl)
    else if url in existingUrls then Err(DuplicateUrl)
    else Ok(url)
  }

  /**
   * Because the schema is rebuilt on each call, growing the list of existing
   * addresses can only turn a success for that very address into a duplicate
   * error; every other verdict stays as it was.
   */
  lemma {:induction false} ValidateAgainstLongerList(
    url: string, existing: seq<string>, added: seq<string>, isUrl: string -> bool)
    ensures var before := Validate(url, existing, isUrl);
            var after := Validate(url, added + existing, isUrl);
            after == before || (before == Ok(url) && after == Err(DuplicateUrl) && url in added)
  {
  }

  /** An address accepted once is refused as a duplicate once it is on the list. */
  lemma {:induction false} AcceptedThenDuplicate(url: string, existing: seq<string>, isUrl: string -> bool)
    requires Validate(url, existing, isUrl).Ok?
    ensures Validate(url, [url] + existing, isUrl) == Err(DuplicateUrl)
  {
  }
}
