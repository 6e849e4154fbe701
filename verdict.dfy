/**
 * The verdict table that closes a scenario once the form has been submitted:
 * from what was expected and what the screen shows, pass or fail and a message.
 */
module Verdict {
  import opened Wrappers
  import opened Strings

  /** A scenario's result: `(success, message)`. */
  datatype Outcome = Outcome(success: bool, message: string)

  /** How an f-string renders a value that is a string or None. */
  function Show(m: Option<string>): string
  {
    match m
    case Some(s) => s
    case None => "None"
  }

  /** The description phrase that marks the single-word-name scenario. */
  const OneWordMarker: string := "name with only one word"

  /** The exception text Python gives for calling `.lower()` on None. */
  const NoneLowerError: string := "'NoneType' object has no attribute 'lower'"

  /** The single-word-name rule applies: a name error was seen in the scenario it is meant for. */
  predicate NameRuleApplies(nameError: bool, description: string)
  {
    nameError && Contains(Lower(description), OneWordMarker)
  }

  /**
   * The decision after submission. `expectedError` is the scenario's optional
   * `error_message`; `errorMsg` the error text seen (None for a snackbar without text).
   * A None `errorMsg` checked against an expected message raises inside the
   * verdict, and the submission step's handler turns that into a failure.
   */
  function FinalVerdict(shouldSubmit: bool, onLoginPage: bool, errorFound: bool, stillOnForm: bool,
                        nameError: bool, description: string,
                        expectedError: Option<string>, errorMsg: Option<string>): (r: Outcome)
    // submission expected: pass exactly when the login page was reached
    ensures shouldSubmit ==> (r.success <==> onLoginPage)
    // ... and a failure names an error in preference to the form still being shown
    ensures shouldSubmit && !onLoginPage ==>
      (errorFound ==> r.message == "Expected to submit but got error message: " + Show(errorMsg))
      && (!errorFound && stillOnForm ==> r.message == "Expected to submit but still on form page")
      && (!errorFound && !stillOnForm ==> r.message == "Could not determine if submission was successful")
    // submission not expected: the single-word-name rule overrides every other signal
    ensures !shouldSubmit && NameRuleApplies(nameError, description) ==> r.success
    // otherwise pass exactly when the login page was not reached and either an
    // error was seen (and could be compared) or the form is still shown
    ensures !shouldSubmit && !NameRuleApplies(nameError, description) ==>
      (r.success <==> !onLoginPage
                      && (errorFound || stillOnForm)
                      && !(errorFound && expectedError.Some? && errorMsg.None?))
  {
    if shouldSubmit then
      if onLoginPage then
        Outcome(true, "Successfully submitted form and redirected to login screen as expected")
      else if errorFound then
        Outcome(false, "Expected to submit but got error message: " + Show(errorMsg))
      else if stillOnForm then
        Outcome(false, "Expected to submit but still on form page")
      else
        Outcome(false, "Could not determine if submission was successful")
    else if NameRuleApplies(nameError, description) then
      Outcome(true, "Form was correctly blocked with name validation error: " + Show(errorMsg))
    else if onLoginPage then
      Outcome(false, "Form submitted successfully but should have been blocked")
    else if errorFound then
      match expectedError
      case Some(expected) =>
        (match errorMsg
         case None =>
           Outcome(false, "Test failed during submission verification: " + NoneLowerError)
         case Some(msg) =>
           if Contains(Lower(msg), Lower(expected)) then
             Outcome(true, "Form was correctly blocked with expected error: " + msg)
           else
             Outcome(true, "Form was blocked but with different error: " + msg))
      case None =>
        Outcome(true, "Form was correctly blocked with error: " + Show(errorMsg))
    else if stillOnForm then
      Outcome(true, "Form correctly did not submit (still on form page)")
    else
      Outcome(false, "Could not determine if submission was blocked")
  }

  /**
   * When submission is not expected and an error text was seen, the expected
   * `error_message` only chooses the wording: whether it is given, and whether
   * it matches, never changes the pass/fail decision.
   */
  lemma ExpectedErrorOnlyChangesMessage(onLoginPage: bool, stillOnForm: bool, nameError: bool,
                                        description: string, e1: Option<string>, e2: Option<string>,
                                        msg: string)
    ensures FinalVerdict(false, onLoginPage, true, stillOnForm, nameError, description, e1, Some(msg)).success
         == FinalVerdict(false, onLoginPage, true, stillOnForm, nameError, description, e2, Some(msg)).success
  {
  }

  /**
   * The expected error is matched as a case-insensitive substring of the error
   * seen: a match gives the "expected error" message and a mismatch the
   * "different error" one, both passing; lower-casing both sides changes nothing.
   */
  lemma ExpectedErrorMatchIgnoresCase(stillOnForm: bool, description: string, expected: string, msg: string)
    ensures Contains(Lower(msg), Lower(expected)) ==>
      FinalVerdict(false, false, true, stillOnForm, false, description, Some(expected), Some(msg))
      == Outcome(true, "Form was correctly blocked with expected error: " + msg)
    ensures !Contains(Lower(msg), Lower(expected)) ==>
      FinalVerdict(false, false, true, stillOnForm, false, description, Some(expected), Some(msg))
      == Outcome(true, "Form was blocked but with different error: " + msg)
    ensures Contains(Lower(msg), Lower(expected)) ==>
      FinalVerdict(false, false, true, stillOnForm, false, description, Some(Lower(expected)), Some(Lower(msg)))
      == Outcome(true, "Form was correctly blocked with expected error: " + Lower(msg))
  {
    LowerIdempotent(msg);
    LowerIdempotent(expected);
  }

  /** An empty expected error message matches every error text, as `"" in s` always holds. */
  lemma EmptyExpectedErrorAlwaysMatches(stillOnForm: bool, description: string, msg: string)
    ensures FinalVerdict(false, false, true, stillOnForm, false, description, Some(""), Some(msg))
         == Outcome(true, "Form was correctly blocked with expected error: " + msg)
  {
    EmptyIsContained(Lower(msg));
  }
}
