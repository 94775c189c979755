/**
 * The outcome of one card-number validation: an immutable record of a success
 * flag, a display message and a result code, compared by value.
 */
module ValidationResults {

  /**
   * The closed set of result codes. The Java enum declares the first three;
   * NumberEmpty is the code the validator returns for an absent or blank number.
   */
  datatype Code = Valid | InvalidFormat | NumberFailedValidation | NumberEmpty

  const ValidMessage: string := "Valid"
  const InvalidCardNumberMustBeNumeric: string := "Invalid: card number must be numeric"
  const InvalidCardNumberFailed: string := "Invalid: card number failed validation"
  const InvalidCardNumberEmpty: string := "Invalid: card number cannot be null, empty or blank"

  datatype ValidationResult = ValidationResult(validationSucceeded: bool, message: string, resultCode: Code)

  /** The one fixed message that goes with each code. */
  function MessageFor(code: Code): string
  {
    match code
    case Valid => ValidMessage
    case InvalidFormat => InvalidCardNumberMustBeNumeric
    case NumberFailedValidation => InvalidCardNumberFailed
    case NumberEmpty => InvalidCardNumberEmpty
  }

  /** A result whose flag, message and code agree with one another. */
  predicate Consistent(r: ValidationResult)
  {
    && (r.validationSucceeded <==> r.resultCode == Valid)
    && r.message == MessageFor(r.resultCode)
  }

  /** The result the validator builds for a code. */
  function ResultFor(code: Code): (r: ValidationResult)
    ensures Consistent(r) && r.resultCode == code
    ensures r.validationSucceeded <==> code == Valid
  {
    ValidationResult(code == Valid, MessageFor(code), code)
  }

  /** A consistent result is fully determined by its code. */
  lemma ConsistentIsDeterminedByCode(r: ValidationResult)
    requires Consistent(r)
    ensures r == ResultFor(r.resultCode)
  {
  }

  /** No two codes share a message. */
  lemma MessagesDistinct(a: Code, b: Code)
    requires a != b
    ensures MessageFor(a) != MessageFor(b)
  {
  }

  /** Among consistent results, the message alone identifies the outcome. */
  lemma MessageIdentifiesOutcome(r1: ValidationResult, r2: ValidationResult)
    requires Consistent(r1) && Consistent(r2)
    requires r1.message == r2.message
    ensures r1 == r2
  {
    if r1.resultCode != r2.resultCode {
      MessagesDistinct(r1.resultCode, r2.resultCode);
    }
  }
}
