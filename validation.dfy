/**
  API-key validation of the back end (backend/app/services/validation_service.py).

  The service sends one test message to the model with the user's key and turns
  what happens into a result record. The model call itself is not modelled: its
  outcome is a parameter, either the reply dictionary's "response" text (absent
  when the reply is empty or has no such key) or the text of the exception it
  raised.
 */
module Validation {
  import opened Wrappers
  import opened Text

  /** What the call to the model did. */
  datatype LlmOutcome = Returned(response: Option<string>) | Raised(error: string)

  /** The `error_type` values of a failed validation, in the order they are tested. */
  datatype ErrorKind = Authentication | ModelAccess | Quota | Unknown

  function KindName(kind: ErrorKind): string {
    match kind
    case Authentication => "authentication"
    case ModelAccess => "model_access"
    case Quota => "quota"
    case Unknown => "unknown"
  }

  /** The dictionary the service returns; keys it leaves out are `None`. */
  datatype ValidationResult = ValidationResult(
    valid: bool,
    message: string,
    modelTested: Option<string>,
    testResponse: Option<string>,
    errorType: Option<string>)

  const DefaultModel := "deepseek-r1-distill-llama-70b"
  const PreviewLength := 100
  const ValidMessage := "API key is valid and model is accessible"
  const NoResponseMessage := "API key validation failed: No response received"
  const AuthenticationMessage := "Invalid API key. Please check your GROQ API key and try again."
  const QuotaMessage := "API key has reached its usage limit or quota."

  /** The keywords of each branch, tested on the lower-cased exception text. */
  const AuthKeywords: seq<string> := ["authentication", "unauthorized", "invalid", "api_key"]
  const ModelKeywords: seq<string> := ["model", "not found"]
  const QuotaKeywords: seq<string> := ["quota", "limit", "rate"]

  predicate MentionsAny(text: string, words: seq<string>) {
    exists w :: w in words && Contains(text, w)
  }

  /** The `test_response` of a valid key: at most 100 characters of the reply, marked with "..." when cut. */
  function Preview(text: string): (r: string)
    ensures |text| <= PreviewLength ==> r == text
    ensures |text| > PreviewLength ==> |r| == PreviewLength + 3 && r == text[..PreviewLength] + "..."
  {
    if |text| > PreviewLength then text[..PreviewLength] + "..." else text
  }

  /** The if/elif chain over the lower-cased exception text. */
  function Classify(error: string): ErrorKind {
    var msg := Lower(error);
    if Contains(msg, "authentication") || Contains(msg, "unauthorized") || Contains(msg, "invalid") || Contains(msg, "api_key") then
      Authentication
    else if Contains(msg, "model") || Contains(msg, "not found") then
      ModelAccess
    else if Contains(msg, "quota") || Contains(msg, "limit") || Contains(msg, "rate") then
      Quota
    else
      Unknown
  }

  function FailureMessage(kind: ErrorKind, modelName: string, error: string): string {
    match kind
    case Authentication => AuthenticationMessage
    case ModelAccess => "Model '" + modelName + "' is not accessible with this API key."
    case Quota => QuotaMessage
    case Unknown => "API validation failed: " + error
  }

  /**
    `validate_groq_api_key`. The key is accepted exactly when the model returned a
    reply whose text is not blank; every exception becomes a failed result.
   */
  function ValidateGroqApiKey(apiKey: string, modelName: string, outcome: LlmOutcome): (r: ValidationResult)
    ensures r.valid <==> outcome.Returned? && outcome.response.Some? && !PyBlank(outcome.response.value)
    ensures r.valid ==> r.message == ValidMessage && r.modelTested == Some(modelName)
                        && r.testResponse == Some(Preview(outcome.response.value)) && r.errorType == None
    ensures outcome.Returned? && !r.valid ==> r.message == NoResponseMessage && r.modelTested == Some(modelName)
                                              && r.testResponse == None && r.errorType == None
    ensures outcome.Raised? ==> !r.valid && r.modelTested == None && r.testResponse == None
                                && r.errorType == Some(KindName(Classify(outcome.error)))
    ensures outcome.Raised? && Classify(outcome.error) == Authentication ==> r.message == AuthenticationMessage
    ensures outcome.Raised? && Classify(outcome.error) == ModelAccess ==>
              r.message == "Model '" + modelName + "' is not accessible with this API key."
    ensures outcome.Raised? && Classify(outcome.error) == Quota ==> r.message == QuotaMessage
    ensures outcome.Raised? && Classify(outcome.error) == Unknown ==> r.message == "API validation failed: " + outcome.error
  {
    match outcome
    case Returned(response) =>
      if response.Some? && !PyBlank(response.value) then
        ValidationResult(true, ValidMessage, Some(modelName), Some(Preview(response.value)), None)
      else
        ValidationResult(false, NoResponseMessage, Some(modelName), None, None)
    case Raised(error) =>
      var kind := Classify(error);
      ValidationResult(false, FailureMessage(kind, modelName, error), None, None, Some(KindName(kind)))
  }

  /** The three keyword groups, tested in order, decide the kind. */
  lemma ClassifyByKeywordGroups(error: string)
    ensures Classify(error) == Authentication <==> MentionsAny(Lower(error), AuthKeywords)
    ensures Classify(error) == ModelAccess
        <==> !MentionsAny(Lower(error), AuthKeywords) && MentionsAny(Lower(error), ModelKeywords)
    ensures Classify(error) == Quota
        <==> !MentionsAny(Lower(error), AuthKeywords) && !MentionsAny(Lower(error), ModelKeywords)
             && MentionsAny(Lower(error), QuotaKeywords)
    ensures Classify(error) == Unknown
        <==> !MentionsAny(Lower(error), AuthKeywords) && !MentionsAny(Lower(error), ModelKeywords)
             && !MentionsAny(Lower(error), QuotaKeywords)
  {
  }

  /** Classification ignores case: an upper-case message classifies as its lower-case form. */
  lemma {:induction false} ClassifyIgnoresCase(error: string)
    ensures Classify(error) == Classify(Lower(error))
  {
    LowerIdempotent(error);
  }

  /** A word that lower-cases to an authentication keyword, in any case, anywhere, makes the kind authentication, whatever else the message says. */
  lemma {:induction false} AuthenticationWins(error: string, word: string)
    requires Lower(word) in AuthKeywords && Contains(error, word)
    ensures Classify(error) == Authentication
  {
    LowerKeepsContains(error, word);
    ClassifyByKeywordGroups(error);
  }

  /** Without an authentication keyword, a model keyword in any case wins over the quota keywords. */
  lemma {:induction false} ModelAccessBeatsQuota(error: string, word: string)
    requires !MentionsAny(Lower(error), AuthKeywords)
    requires Lower(word) in ModelKeywords && Contains(error, word)
    ensures Classify(error) == ModelAccess
  {
    LowerKeepsContains(error, word);
    ClassifyByKeywordGroups(error);
  }

  /** An "unknown" failure mentions none of the keywords and passes the exception text on unchanged. */
  lemma {:induction false} UnknownCarriesError(apiKey: string, modelName: string, error: string)
    requires Classify(error) == Unknown
    ensures forall w :: w in AuthKeywords + ModelKeywords + QuotaKeywords ==> !Contains(Lower(error), w)
    ensures ValidateGroqApiKey(apiKey, modelName, Raised(error))
         == ValidationResult(false, "API validation failed: " + error, None, None, Some("unknown"))
  {
    ClassifyByKeywordGroups(error);
  }
}
