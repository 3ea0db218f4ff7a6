/** Classification of a response: the status check, then the schema check.
    A status is in the Successful class when its first digit is 2 (section
    15.3 of RFC 9110) and in the Redirection class when it is 3 (section
    15.4); Net::HTTP picks the response class from that digit. */
module Verdicts {
  import opened Options
  import opened Catalog
  import Statistics

  predicate IsSuccess(code: string)
  {
    |code| > 0 && code[0] == '2'
  }

  predicate IsRedirection(code: string)
  {
    |code| > 0 && code[0] == '3'
  }

  /** The status check: the code equals the expected one, when one was given,
      or is in the Successful class whatever was expected. */
  predicate StatusAccepted(code: string, expected: Option<string>)
  {
    (expected.Some? && code == expected.value) || IsSuccess(code)
  }

  /** What the status check decides before any schema validation. */
  datatype Verdict = Pass | Fail | NeedsValidation(schemaFile: string)

  function Classify(code: string, expected: Option<string>, xml: Option<XmlResult>): (v: Verdict)
    ensures v.Fail? <==> !StatusAccepted(code, expected)
    ensures v.Pass? <==> StatusAccepted(code, expected) && xml.None?
    ensures v.NeedsValidation? ==> xml.Some? && v.schemaFile == SchemaFile(xml.value)
  {
    if !StatusAccepted(code, expected) then Fail
    else if xml.None? then Pass
    else NeedsValidation(SchemaFile(xml.value))
  }

  /** The outcome for a response that arrived: `Passed` or `Failed`, asking
      the validator about the body only when the status check passed. */
  function Judge(r: Response, expected: Option<string>, xml: Option<XmlResult>,
                 validate: (string, string) -> bool): (o: Statistics.Outcome)
    ensures o.Passed? || o.Failed?
    ensures o.Passed? <==>
      StatusAccepted(r.code, expected) && (xml.None? || validate(r.body, SchemaFile(xml.value)))
  {
    match Classify(r.code, expected, xml)
    case Pass => Statistics.Passed
    case Fail => Statistics.Failed
    case NeedsValidation(schemaFile) =>
      if validate(r.body, schemaFile) then Statistics.Passed else Statistics.Failed
  }

  /** A 2xx response passes the status check even when a different code was
      expected; the expectation only adds one more accepted code. */
  lemma SuccessOverridesExpected(code: string, expected: Option<string>)
    requires IsSuccess(code)
    ensures StatusAccepted(code, expected)
    ensures Classify(code, expected, None) == Pass
  {
  }

  /** Outside the Successful class only the expected code passes. */
  lemma OnlyExpectedOutsideSuccess(code: string, expected: Option<string>)
    requires !IsSuccess(code)
    ensures StatusAccepted(code, expected) <==> expected == Some(code)
  {
  }
}
