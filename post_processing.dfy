/**
 * The post-processing side panel: a text area over the page's
 * post-processing code and one error line.
 */
module PostProcessing {
  import opened Wrappers
  import opened Pairs
  import Home

  const DEFAULT_CODE: string :=
@"// Post-processing function
// Receives: { word, translation }
// Returns: { word, translation }

function process({ word, translation }) {
  // Example: Convert to uppercase
  // return { word: word.toUpperCase(), translation: translation.toUpperCase() };
  
  // Example: Add prefix
  // return { word: ""→ "" + word, translation: ""← "" + translation };
  
  // Default: no transformation
  return { word, translation };
}"

  const SHAPE_ERROR: string := "Function must return { word: string, translation: string }"

  /** The pair the test feeds to the code. */
  const TEST_INPUT: Flashcard := Flashcard("hello", "你好")

  /** The error line after `handleTest`, with `outcome` the result of running
      the code on `TEST_INPUT` and `stringify` the message of the `TypeError`
      that the success alert's `JSON.stringify` throws for a value it cannot
      serialise, or `None`: cleared when the result passes the shape check and
      serialises, the fixed shape message when it does not pass, the
      serialiser's message when it cannot be shown, and the exception's
      message (or "Invalid code") when the code threw. */
  function TestError(outcome: Outcome, stringify: JsValue -> Option<string>): (r: Option<string>)
    ensures r.None? <==>
      outcome.Returned? && CheckShape(outcome.value).Some? && stringify(outcome.value).None?
    ensures outcome.Returned? && CheckShape(outcome.value).None? ==> r == Some(SHAPE_ERROR)
    ensures outcome.Returned? && CheckShape(outcome.value).Some? && stringify(outcome.value).Some? ==>
      r == stringify(outcome.value)
    ensures outcome.Threw? ==> r == Some(ErrorText(outcome.thrown, "Invalid code"))
  {
    match outcome
    case Threw(t) => Some(ErrorText(t, "Invalid code"))
    case Returned(v) =>
      if CheckShape(v).None? then Some(SHAPE_ERROR) else stringify(v)
  }

  /** The panel holds no code of its own: it shows and writes the page's
      `postProcessingCode` (the `code` and `setCode` props), so an edit or a
      reset here changes the code the page runs on every card. */
  class Panel {
    const page: Home.HomePage
    var error: Option<string>

    constructor (page: Home.HomePage)
      ensures this.page == page && error == None
    {
      this.page := page;
      error := None;
    }

    /** The text area's `onChange`: the page's code becomes the new text and
        the error clears; nothing else on the page changes. */
    method Edit(text: string)
      modifies this`error, page`postProcessingCode
      ensures page.postProcessingCode == text && error == None
    {
      page.postProcessingCode := text;
      error := None;
    }

    /** `handleReset`: the page's code goes back to the default. */
    method HandleReset()
      modifies this`error, page`postProcessingCode
      ensures page.postProcessingCode == DEFAULT_CODE && error == None
    {
      page.postProcessingCode := DEFAULT_CODE;
      error := None;
    }

    /** `handleTest`, with `run(code, input)` the result of running `code` on
        `input`: it tests the page's current code, sets the error line and
        never touches the code. */
    method HandleTest(run: (string, Flashcard) -> Outcome, stringify: JsValue -> Option<string>)
      modifies this`error
      ensures error == TestError(run(page.postProcessingCode, TEST_INPUT), stringify)
    {
      var outcome := run(page.postProcessingCode, TEST_INPUT);
      match outcome {
        case Threw(t) =>
          error := Some(ErrorText(t, "Invalid code"));
        case Returned(v) =>
          if CheckShape(v).None? {
            error := Some(SHAPE_ERROR);
          } else {
            error := stringify(v);
          }
      }
    }
  }
}
