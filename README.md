# Survey-form scenario runner, modelled in Dafny

This project models the data-driven test runner of the survey app's UI tests
(`appium_tests/test_runner.py`). The runner loads test cases. Each test case
holds scenarios. For each scenario it resets the app, logs in, fills the survey
form field by field, and submits it. It decides pass or fail from what the
screen shows. It then writes one result record per scenario and prints a
pass/fail summary.

The model lifts out the runner's decisions. Every interaction with the device
is an abstract observation:

- an element is found, missing, or its lookup raises;
- a text attribute is a string, `None`, or raises;
- a swipe succeeds or raises;
- the app reset and the login succeed or fail.

A scenario's observations form one `Device` value. The model keeps these
decisions:

- **Error detection.** `is_error_displayed` takes the first TextView whose
  lower-cased text contains "error", "invalid", "please" or "required". Failing
  that, it takes the snackbar's text.
- **Early exits while filling the form.** An error after the name step stops
  the scenario only when the name is empty. Any error after the birth date
  stops it. An error after the city step stops it only when the city is empty.
  A missing city field passes only for an empty name that should be blocked.
- **The verdict table after submission**, including the single-word-name rule.
- **One record per scenario**, with short-circuits for a failed reset or
  login.
- **Test-case selection** by a comma-separated id list, and the summary counts.

Modules:

- `Strings` (strings.dfy): Python's `lower`, `in`, `split(',')` and `split()`.
- `Screen` (screen.dfy): `is_error_displayed` and the name-and-surname probe.
- `Verdict` (verdict.dfy): the verdict table.
- `Scenario` (scenario.dfy): `run_test_scenario`.
- `Runner` (runner.dfy): `run_test_case` and `main`.

The runner's loops are methods. Each method is proved equal to a
specification function. The properties are then proved about those functions.

## Model

| member | source | states |
|---|---|---|
| `Strings.Lower` | appium_tests/test_runner.py:92 | `s.lower()` keeps the length and lower-cases each character on its own |
| `Strings.Contains` | appium_tests/test_runner.py:92 | `needle in hay` holds exactly when `needle` occurs at some position of `hay` |
| `Strings.EmptyIsContained` | appium_tests/test_runner.py:425 | `"" in s` holds for every string `s` |
| `Strings.Split` | appium_tests/test_runner.py:535 | `s.split(',')` has one piece more than `s` has commas |
| `Strings.JoinSplit` | appium_tests/test_runner.py:535 | joining the pieces of `s.split(',')` with commas gives `s` back |
| `Strings.SplitJoin` | appium_tests/test_runner.py:535 | splitting a comma-join of comma-free ids gives those ids back, so `split(',')` loses no id |
| `Strings.SplitPiecesHaveNoSeparator` | appium_tests/test_runner.py:535 | no piece of `s.split(',')` contains a comma |
| `Strings.Words` | appium_tests/test_runner.py:376 | a name starting with a non-whitespace character has a first word starting with it, and `name.split()` has at most half as many words as characters, rounded up |
| `Strings.OneWordIffOneRun` | appium_tests/test_runner.py:376 | `len(name.split()) == 1` holds exactly when the name's non-whitespace characters form one unbroken run, and that run is the word |
| `Strings.WordsPartitionNonSpace` | appium_tests/test_runner.py:376 | the words of `name.split()` are non-empty and whitespace-free, and together they are exactly the name's non-whitespace characters in order |
| `Strings.WordsEmptyIffBlank` | appium_tests/test_runner.py:376 | `name.split()` is empty exactly when the name has no non-whitespace character |
| `Strings.LowerIdempotent` | appium_tests/test_runner.py:92 | lower-casing twice is lower-casing once |
| `Screen.IsErrorText` | appium_tests/test_runner.py:92 | a text counts as an error message only if it is at least as long as the shortest keyword, "error" |
| `Screen.ScanTexts` | appium_tests/test_runner.py:89-94 | the scan over the TextViews is decided by the first element that raises or whose truthy text matches; it reports that text, aborts on the exception, and misses only when no element is decisive |
| `Screen.ScanScreen` | appium_tests/test_runner.py:90-94 | the element loop returns exactly what `ScanTexts` specifies |
| `Screen.ErrorShown` | appium_tests/test_runner.py:86-106 | `is_error_displayed` reports no error only as `(False, "")`; a reported error needs a readable TextView listing, and its message is None only for a snackbar without text |
| `Screen.IsErrorDisplayed` | appium_tests/test_runner.py:86-106 | the loop version of `is_error_displayed` returns the same pair as the specification `ErrorShown` |
| `Screen.FirstErrorTextReported` | appium_tests/test_runner.py:89-94 | suppose element k is the first text, in element order, that holds an error keyword, and no element before it raises; then `(True, text_k)` is returned, whatever follows and whatever the snackbar shows |
| `Screen.NoErrorTextNoSnackbar` | appium_tests/test_runner.py:89-103 | with no error text, no exception and no snackbar, the result is `(False, "")` |
| `Screen.FoundErrorHasSource` | appium_tests/test_runner.py:89-101 | a reported error is either the first decisive TextView, whose text holds a keyword and is the message, or, when no TextView is decisive, a readable snackbar whose own text (or None) is the message |
| `Screen.SnackbarFallback` | appium_tests/test_runner.py:96-101 | with every TextView readable and none holding an error message, a snackbar's text `t` gives `(True, t)`, and a snackbar without text gives `(True, None)` |
| `Screen.ErrorTextIgnoresCase` | appium_tests/test_runner.py:92 | whether a text is an error message does not depend on letter case |
| `Verdict.FinalVerdict` | appium_tests/test_runner.py:404-436 | if submission is expected: pass iff on the login page; a failure's message names an error first, then "still on form", then "could not determine". If not expected: the single-word-name rule wins over everything. Otherwise: pass iff not on the login page and (an error was found or the form is still shown), except that a `None` error text checked against an expected message fails |
| `Verdict.ExpectedErrorOnlyChangesMessage` | appium_tests/test_runner.py:424-432 | whether `error_message` is given, and whether it matches, never changes the pass/fail result of a found error |
| `Verdict.ExpectedErrorMatchIgnoresCase` | appium_tests/test_runner.py:424-431 | when the expected error is a case-insensitive substring of the error seen, the scenario passes with "Form was correctly blocked with expected error"; when it is not, it passes with "Form was blocked but with different error"; lower-casing both sides keeps a match |
| `Verdict.EmptyExpectedErrorAlwaysMatches` | appium_tests/test_runner.py:424-428 | an empty `error_message` matches every error text |
| `Scenario.Blocked` | appium_tests/test_runner.py:140-145 | an early validation stop passes exactly when submission was not expected |
| `Scenario.EnterName` | appium_tests/test_runner.py:123-136 | the scenario goes on past the name field exactly when it was found and filled; otherwise it fails |
| `Scenario.CheckAfterName` | appium_tests/test_runner.py:139-145 | the check after the name stops the scenario exactly when an error is shown and the name is empty; the stop passes iff `should_submit` is false |
| `Scenario.EnterBirthDate` | appium_tests/test_runner.py:148-187 | the scenario goes on past the birth date exactly when day, month and year were all filled; otherwise it fails |
| `Scenario.CheckAfterBirthDate` | appium_tests/test_runner.py:190-196 | the check after the birth date stops the scenario exactly when an error is shown; the stop passes iff `should_submit` is false |
| `Scenario.SelectEducation` | appium_tests/test_runner.py:199-218 | the scenario goes on past education exactly when none is given or it was selected; otherwise it fails |
| `Scenario.EnterCity` | appium_tests/test_runner.py:221-254 | the scenario goes on past the city exactly when the field was filled; otherwise it stops, passing iff the name is empty and `should_submit` is false |
| `Scenario.CheckAfterCity` | appium_tests/test_runner.py:257-263 | the check after the city stops the scenario exactly when an error is shown and the city is empty; the stop passes iff `should_submit` is false |
| `Scenario.SelectGender` | appium_tests/test_runner.py:266-278 | the scenario goes on past gender exactly when none is given or it was selected; otherwise it fails |
| `Scenario.ScrollDown` | appium_tests/test_runner.py:281-287 | the scenario goes on exactly when the swipe does not raise; otherwise it fails |
| `Scenario.FillAiModelsFrom` | appium_tests/test_runner.py:290-326 | the AI-model loop goes on exactly when every remaining model's checkbox and defect input were entered; otherwise it fails |
| `Scenario.EnterUseCase` | appium_tests/test_runner.py:329-347 | the scenario goes on to submission exactly when the use-case field was filled; otherwise it fails |
| `Scenario.Submit` | appium_tests/test_runner.py:350-440 | a failing swipe fails the submission; otherwise, when submission is expected, it passes exactly when the login page is shown |
| `Scenario.ScenarioOutcome` | appium_tests/test_runner.py:119-440 | a scenario expected to submit passes only when every step went through, the final swipe succeeded and the login page was reached |
| `Scenario.RunScenario` | appium_tests/test_runner.py:108-218 | the imperative `run_test_scenario` returns exactly `ScenarioOutcome`: the first step that stops the scenario, else the submission verdict |
| `Scenario.RunFromCity` | appium_tests/test_runner.py:220-347 | the city-to-last-field part of the method returns exactly `FromCity` |
| `Scenario.SubmitForm` | appium_tests/test_runner.py:349-440 | the submission part, with its mutable `error_found`/`error_msg`/`name_error` flags, returns exactly `Submit` |
| `Scenario.ErrorAfterEmptyNameEndsScenario` | appium_tests/test_runner.py:139-145 | with an empty name, an error after the name step ends the scenario with the blocked verdict: a pass iff `should_submit` is false |
| `Scenario.ErrorAfterNameIgnoredWhenNamed` | appium_tests/test_runner.py:140 | with a non-empty name, the scenario runs as if there were no error check after the name |
| `Scenario.ErrorAfterBirthDateEndsScenario` | appium_tests/test_runner.py:190-196 | any error after the birth date ends the scenario with the blocked verdict, whatever the inputs |
| `Scenario.ErrorAfterEmptyCityEndsScenario` | appium_tests/test_runner.py:257-263 | with an empty city, an error after the city step ends the scenario with the blocked verdict |
| `Scenario.ErrorAfterCityIgnoredWhenCityGiven` | appium_tests/test_runner.py:258 | with a non-empty city, the scenario runs as if there were no error check after the city |
| `Scenario.CityFieldUnavailable` | appium_tests/test_runner.py:243-254 | a missing or failing city field ends the scenario; it passes iff the name is empty and `should_submit` is false |
| `Scenario.NameErrorNeedsSingleWord` | appium_tests/test_runner.py:375-386 | a name error can only be reported for a non-empty name that splits into exactly one word; that word holds every non-whitespace character of the name, which form one unbroken run |
| `Scenario.SubmissionUsesVerdict` | appium_tests/test_runner.py:371-436 | a scenario that reaches submission ends with the verdict table. The error seen after submitting feeds it, and a name error overrides both flags |
| `Scenario.SingleWordNameRuleFirst` | appium_tests/test_runner.py:419-420 | if submission is not expected, a name error in a "name with only one word" scenario passes, whatever else the screen shows |
| `Runner.CaseResults` | appium_tests/test_runner.py:470-520 | one record per scenario, in order, each with the case id, scenario id and description. A failed reset gives "Failed to reset app". A failed login gives "Failed to login". Otherwise the record holds the scenario's outcome |
| `Runner.RunTestCase` | appium_tests/test_runner.py:459-520 | the appending loop with `continue` short-circuits builds exactly `CaseResults` |
| `Runner.KeepIds` | appium_tests/test_runner.py:536 | a test case is kept exactly when it is in the list and its id is among the filter ids; no case is added |
| `Runner.KeepIdsAppend` | appium_tests/test_runner.py:536 | the selection preserves order: selecting from `a + b` is selecting from `a`, then from `b` |
| `Runner.KeepIdsIdempotent` | appium_tests/test_runner.py:536 | selecting again with the same ids changes nothing |
| `Runner.SelectTestCases` | appium_tests/test_runner.py:534-536 | with no filter or an empty one, every case runs; otherwise the cases whose id is in the comma-split filter run |
| `Runner.FilterById` | appium_tests/test_runner.py:534-536 | for comma-free ids joined by commas, a case is selected exactly when its id is one of them |
| `Runner.AllResults` | appium_tests/test_runner.py:544-549 | every record gathered belongs to one of the test cases run |
| `Runner.AllResultsCount` | appium_tests/test_runner.py:544-549 | the records of all cases number exactly the scenarios of all cases |
| `Runner.RunAllCases` | appium_tests/test_runner.py:544-549 | the loop that extends `all_results` case by case builds exactly `AllResults` |
| `Runner.Passed` | appium_tests/test_runner.py:557 | the passed count is at most the total; it equals the total exactly when every record passed, and is zero exactly when none did |
| `Runner.PassedCountsSuccesses` | appium_tests/test_runner.py:557 | the summed count equals the number of records whose `success` is true |
| `Runner.PassedAppend` | appium_tests/test_runner.py:557 | the passed count of two batches of records is the sum of their counts |
| `Runner.Summarize` | appium_tests/test_runner.py:555-564 | there is a summary only when there is at least one record. Total is the record count, passed is the number of successes, and failed is total minus passed |
| `Runner.SessionFailureCountsAsFailed` | appium_tests/test_runner.py:472-494 | a scenario whose reset or login failed is never counted as passed |
| `Runner.RunSuite` | appium_tests/test_runner.py:531-564 | `main` runs the selected cases, yields one record per scenario of them, and summarises those records |

## Left out

- Driver plumbing is not modelled. This covers session creation, XPath element lookup, clicks, typing, swipes, sleeps, screenshots, `reset_app` and `login_with_email`. Their outcomes are inputs: `Device`, `Screen`, `Listing`, `Attr` and `Session`.
- The submit button's click is not modelled. Its outcome only sets `submit_button_exists`, which the verdict never reads.
- The AI-model loop's `count` is not modelled. It only picks the XPath of the next defect input, and that lookup is an abstract observation.
- `Scenario.Fits` is a modelling requirement, not one of the source's. The device must carry one observation per AI model of the scenario.
- Printing is not modelled: the console output and colours.
- File and CLI I/O is not modelled: JSON loading and saving, `argparse` and `sys.exit`.
- Timestamps are wall-clock values, so records carry none. The success-rate percentage is a floating-point division, so the summary carries only the counts.
- Scenario data is assumed well-formed, so a missing JSON key is not modelled. In the source it fails the step that reads it, with that step's message: for example a missing `name` gives "Failed to enter name: 'name'". A missing `should_submit` or `description` fails in the submission handler. Only a missing `inputs`, or an `expected_result` read after an early error, reaches the general handler.
- The handler around `main`'s loop is not modelled: nothing modelled raises there.
- `expected_result["error_message"]` is modelled as an optional string. Non-string JSON values are not modelled.
- Lower-casing covers ASCII letters only. Python's `str.lower` maps every Unicode letter.
- Whitespace for `str.split()` covers ASCII whitespace, U+001C to U+001F, U+0085 and U+00A0. Other Unicode spaces are not included.
- The other scripts are not part of this model: `survey_flow_test.py`, the `login_*` scripts, the JavaScript tests and `functions/index.js`. They are linear UI scripts or an e-mail trigger with no decision logic beyond the runner's.
- `run_test_scenario` is modelled as three methods: `RunScenario`, `RunFromCity` and `SubmitForm`. The source has one function; splitting it keeps each proof small.
