/**
 * The code tab of the unified settings dialog: an editor buffer over the
 * saved post-processing code, with a dirty flag, an error line and the
 * result of the last test run.
 */
module SettingsDialog {
  import opened Wrappers
  import opened Pairs

  const DEFAULT_CODE: string :=
@"// Post-processing function
// Receives: { word, translation }
// Returns: { word, translation }
// Note: tshet-uinh library is pre-loaded and available as TshetUinh

function process({ word, translation }) {
  // Example: Convert to uppercase
  // return { word: word.toUpperCase(), translation: translation.toUpperCase() };
  
  // Example: Add prefix
  // return { word: ""→ "" + word, translation: ""← "" + translation };
  
  // Example: Use tshet-uinh library
  // const 音韻地位 = TshetUinh.音韻地位.from描述('羣開三A支平');
  // return { word: 音韻地位.描述, translation: translation };
  
  // Default: no transformation
  return { word, translation };
}"

  /** The pair a test run feeds to the code. */
  const SAMPLE: Flashcard := Flashcard("hello", "你好")

  /** What a successful test shows: the sample input and the value the code returned. */
  datatype TestResult = TestResult(input: Flashcard, output: JsValue)

  /** The error line and test result after a test run. */
  datatype Feedback = Feedback(error: Option<string>, testResult: Option<TestResult>)

  /** `handleTest` without its state: `outcome` is what loading the helper
      library and running the editor's code on `SAMPLE` gave, `stringify`
      the message of the `TypeError` that `JSON.stringify` throws for a value
      it cannot serialise (a cycle, a BigInt), or `None` when it serialises,
      and `testErrorMessage` the localised text for a result of the wrong
      shape. Exactly one of the error and the test result is set: the result
      when the code returned a serialisable value passing the shape check,
      the error otherwise. */
  function TestFeedback(outcome: Outcome, stringify: JsValue -> Option<string>, testErrorMessage: string)
    : (r: Feedback)
    ensures r.error.Some? != r.testResult.Some?
    ensures r.testResult.Some? <==>
      outcome.Returned? && CheckShape(outcome.value).Some? && stringify(outcome.value).None?
    ensures r.testResult.Some? ==> r.testResult.value == TestResult(SAMPLE, outcome.value)
    ensures outcome.Threw? ==> r.error == Some(ErrorText(outcome.thrown, "Invalid code"))
    ensures outcome.Returned? && CheckShape(outcome.value).None? ==> r.error == Some(testErrorMessage)
    ensures outcome.Returned? && CheckShape(outcome.value).Some? && stringify(outcome.value).Some? ==>
      r.error == stringify(outcome.value)
  {
    match outcome
    case Threw(t) => Feedback(Some(ErrorText(t, "Invalid code")), None)
    case Returned(v) =>
      if CheckShape(v).None? then
        Feedback(Some(testErrorMessage), None)
      else if stringify(v).Some? then
        Feedback(stringify(v), None)
      else
        Feedback(None, Some(TestResult(SAMPLE, v)))
  }

  class Dialog {
    /** The saved code (the `code` prop the parent passes in and `setCode` updates). */
    var code: string
    var editorValue: string
    var hasUnsavedChanges: bool
    var error: Option<string>
    var testResult: Option<TestResult>

    /** The dirty flag says exactly whether the buffer differs from the saved
        code, and an error and a test result are never shown together. */
    ghost predicate Valid()
      reads this
    {
      hasUnsavedChanges == (editorValue != code)
      && (error.None? || testResult.None?)
    }

    /** Mounting: the buffer starts as the saved code, clean. */
    constructor (code: string)
      ensures Valid()
      ensures this.code == code && editorValue == code && !hasUnsavedChanges
      ensures error == None && testResult == None
    {
      this.code := code;
      editorValue := code;
      hasUnsavedChanges := false;
      error := None;
      testResult := None;
    }

    /** `handleEditorChange`: the editor reports `undefined` (`None`) or the new text. */
    method HandleEditorChange(value: Option<string>)
      requires Valid()
      modifies this
      ensures Valid()
      ensures code == old(code) && testResult == old(testResult)
      ensures value.None? ==> unchanged(this)
      ensures value.Some? ==> editorValue == value.value && error == None
      ensures value.Some? ==> hasUnsavedChanges == (value.value != code)
    {
      if value.Some? {
        editorValue := value.value;
        hasUnsavedChanges := value.value != code;
        error := None;
      }
    }

    /** `handleSave`: the buffer becomes the saved code. */
    method HandleSave()
      requires Valid()
      modifies this
      ensures Valid()
      ensures code == old(editorValue) && editorValue == old(editorValue) && !hasUnsavedChanges
      ensures error == old(error) && testResult == old(testResult)
    {
      code := editorValue;
      hasUnsavedChanges := false;
    }

    /** `handleReset`: the buffer goes back to the default code, which may or
        may not differ from the saved code; the error and test result clear. */
    method HandleReset()
      requires Valid()
      modifies this
      ensures Valid()
      ensures code == old(code) && editorValue == DEFAULT_CODE
      ensures hasUnsavedChanges == (DEFAULT_CODE != code)
      ensures error == None && testResult == None
    {
      editorValue := DEFAULT_CODE;
      hasUnsavedChanges := editorValue != code;
      error := None;
      testResult := None;
    }

    /** `handleTest`, with `run(code, input)` the result of running `code` on
        `input`: the test runs the unsaved buffer, not the saved code. */
    method HandleTest(run: (string, Flashcard) -> Outcome, stringify: JsValue -> Option<string>,
                      testErrorMessage: string)
      requires Valid()
      modifies this
      ensures Valid()
      ensures code == old(code) && editorValue == old(editorValue)
      ensures hasUnsavedChanges == old(hasUnsavedChanges)
      ensures Feedback(error, testResult) == TestFeedback(run(editorValue, SAMPLE), stringify, testErrorMessage)
    {
      var feedback := TestFeedback(run(editorValue, SAMPLE), stringify, testErrorMessage);
      error := feedback.error;
      testResult := feedback.testResult;
    }

    /** The Save button is enabled exactly when the buffer differs from the saved code. */
    function SaveEnabled(): (r: bool)
      reads this
      requires Valid()
      ensures r <==> editorValue != code
    {
      hasUnsavedChanges
    }
  }
}
