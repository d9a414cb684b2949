# Flashcard player: verified model of its sequential core

A Dafny model of the logic inside a browser flashcard player. The player
loads a tab-separated word list and shows one card after another. Before a
card is shown, a user-written post-processing function may transform it.
Three parts of the client carry real logic, and each is modelled here:

- **The home page** (`client/src/pages/Home.tsx`). It parses the vocabulary
  text into flashcards; the load succeeds as a whole or fails as a whole.
  It picks the card on screen (bounds check, optional swap, a shape-checked
  post-processing result with a fallback). It advances the index with
  wrap-around, and its keyboard shortcuts open and close the two side
  panels. The parser is pure (modules `Strings`, `Vocabulary`); the state
  changes are methods of class `Home.HomePage`.
- **The unified settings dialog** (`client/src/components/UnifiedSettingsDialog.tsx`).
  An editor buffer over the saved code, with a dirty flag, an error line and
  a test result. Class `SettingsDialog.Dialog` keeps the invariant "dirty
  exactly when the buffer differs from the saved code" and the invariant
  "never an error and a test result at once".
- **The post-processing panel** (`client/src/components/PostProcessingPanel.tsx`).
  An error line over the page's post-processing code: class
  `PostProcessing.Panel` writes the code field of the `Home.HomePage` it
  belongs to, so its edits change the code the page runs.

Running user code (`eval`) cannot be modelled. Its effect is a `Pairs.Outcome`:
either it threw (an `Error` with a message, or some other value), or it
returned a `Pairs.JsValue`. A `JsValue` keeps only what the shape check
`v && typeof v.word === "string" && typeof v.translation === "string"` can
observe. The network read is an input too: a `Vocabulary.FetchResponse`,
which is a rejected fetch or a response with its `ok` flag and body.

Three details of the parser and the card selection are worth stating outright:

- A line is split on every tab. The first two fields are translation and
  word, and any further fields are ignored; there is no "exactly two fields" rule.
- A line is rejected when its raw translation or raw word is empty or
  missing. A field of spaces passes that test and is trimmed to `""`.
- There are no `wordHtml`/`translationHtml` variants and no per-field
  merge. The post-processing result replaces the whole pair when it passes
  the shape check; otherwise the (swapped) pair is shown.

## Model

| member | source | states |
|---|---|---|
| `Strings.TrimStartSpec` | client/src/pages/Home.tsx:74 | trimming the start leaves a suffix of the input that does not start with whitespace, and everything cut off is whitespace |
| `Strings.TrimEndSpec` | client/src/pages/Home.tsx:74 | trimming the end leaves a prefix of the input that does not end with whitespace, and everything cut off is whitespace |
| `Strings.TrimIsSlice` | client/src/pages/Home.tsx:74 | `trim` returns a slice `s[i..j]` with only whitespace outside it and no whitespace at either end of it |
| `Strings.TrimEmptyIff` | client/src/pages/Home.tsx:67 | `line.trim()` is empty exactly when the line is all whitespace |
| `Strings.TrimUntouched` | client/src/pages/Home.tsx:74 | a string with no whitespace at its ends is unchanged by `trim` |
| `Strings.Trim` | client/src/pages/Home.tsx:74 | `String.prototype.trim`, as used on each field and (for blank lines) at line 67; its meaning is proved in `TrimIsSlice`, `TrimEmptyIff` and `TrimUntouched` |
| `Strings.Split` | client/src/pages/Home.tsx:67 | `split` with one separator gives at least one piece, and no piece contains the separator |
| `Strings.JoinSplit` | client/src/pages/Home.tsx:67 | joining the pieces of a split gives the input back |
| `Strings.SplitJoin` | client/src/pages/Home.tsx:70 | separator-free pieces, once joined, split back into exactly those pieces |
| `Strings.SplitAppend` | client/src/pages/Home.tsx:67 | splitting `x<sep>y` gives the pieces of `x` followed by the pieces of `y` |
| `Strings.SplitFirst` | client/src/pages/Home.tsx:67 | a string splits at its first separator into the piece before it and the split of the rest |
| `Strings.SplitNoSeparator` | client/src/pages/Home.tsx:70 | a string without the separator splits into itself alone |
| `Pairs.CheckShape` | client/src/pages/Home.tsx:106-110 | a returned value passes exactly when it is an object whose `word` and `translation` are strings, and the pair is read from those two strings |
| `Pairs.Swap` | client/src/pages/Home.tsx:98-100 | the word/translation exchange applied when the swap setting is on; its meaning is proved in `SwapInvolution` |
| `Pairs.FalsyFails` | client/src/pages/Home.tsx:107 | a falsy value never passes the shape check |
| `Pairs.AsObjectPasses` | client/src/pages/Home.tsx:27-36 | returning `{ word, translation }` unchanged, as the default code does, passes and yields the same pair |
| `Pairs.SwapInvolution` | client/src/pages/Home.tsx:98-100 | swap exchanges the two fields, and swapping twice is the identity |
| `Vocabulary.KeepNonBlank` | client/src/pages/Home.tsx:67 | the filter never yields more lines than it was given |
| `Vocabulary.KeepNonBlankExact` | client/src/pages/Home.tsx:67 | every kept line is non-blank and every non-blank line is kept |
| `Vocabulary.KeepNonBlankAppend` | client/src/pages/Home.tsx:67 | the filter preserves file order: it distributes over concatenation |
| `Vocabulary.KeepNonBlankSingle` | client/src/pages/Home.tsx:67 | a line is dropped exactly when it is all whitespace |
| `Vocabulary.ParseLine` | client/src/pages/Home.tsx:70-74 | the only way a line fails is the format error; the mapping of fields is proved in `ParseLineFields`, `WhitespaceFieldBecomesEmpty`, `NoTabRejected` and `EmptyFieldRejected` |
| `Vocabulary.ParseLines` | client/src/pages/Home.tsx:69-75 | all lines parse or the whole map fails with the format error; on success there is one pair per line, in order |
| `Vocabulary.ParseVocabulary` | client/src/pages/Home.tsx:67-79 | the whole parse fails only with the format error or "no pairs", and a success is never empty; its full meaning is proved in `ParseVocabularyCorrect` |
| `Vocabulary.ParseVocabularyCorrect` | client/src/pages/Home.tsx:67-79 | success gives one pair per non-blank line, in file order, each the parse of its line; failure happens exactly when there is no non-blank line or some non-blank line is malformed |
| `Vocabulary.Load` | client/src/pages/Home.tsx:57-79 | an empty URL fails with the missing-URL error; otherwise a rejected fetch fails with its own error, a response that is not ok fails with "Failed to fetch vocabulary", and an ok response gives exactly the parse of its body; a successful load is never empty |
| `Vocabulary.Message` | client/src/pages/Home.tsx:58-87 | the notification text for each load error; `MessagesDistinct` proves that every error other than a rejected fetch has its own text |
| `Vocabulary.MessagesDistinct` | client/src/pages/Home.tsx:58-87 | two different load errors, neither of them a rejected fetch, are reported with different texts |
| `Vocabulary.EmptyUrlIgnoresResponse` | client/src/pages/Home.tsx:57-60 | with an empty URL the result does not depend on what the network would answer |
| `Vocabulary.ParseLineFields` | client/src/pages/Home.tsx:70-74 | `translation<TAB>word[<TAB>...]` with non-empty fields gives `{ word: trim(word), translation: trim(translation) }`; fields after the second are ignored |
| `Vocabulary.WhitespaceFieldBecomesEmpty` | client/src/pages/Home.tsx:71-74 | a translation made only of spaces passes the emptiness test and becomes `""` |
| `Vocabulary.NoTabRejected` | client/src/pages/Home.tsx:70-73 | a line without a tab is rejected |
| `Vocabulary.EmptyFieldRejected` | client/src/pages/Home.tsx:70-73 | an empty translation or an empty word is rejected, whatever follows |
| `Vocabulary.OneBadLineFailsAll` | client/src/pages/Home.tsx:67-73 | one malformed non-blank line anywhere in the text (the first line, the last line with or without a trailing newline, or any between) fails the whole load |
| `Vocabulary.BlankTextHasNoPairs` | client/src/pages/Home.tsx:77-79 | an empty or all-whitespace text fails with "no valid pairs" |
| `Vocabulary.TwoLineFile` | client/src/pages/Home.tsx:67-75 | a two-line `translation<TAB>word` file with a trailing newline gives its two pairs in file order |
| `Home.SelectCard` | client/src/pages/Home.tsx:92-118 | no card exactly when the list is empty or the index is past it; otherwise the post-processed pair if it passes the check, else the (swapped) pair, also when the code threw |
| `Home.SelectIdentity` | client/src/pages/Home.tsx:98-111 | with the identity post-processing the card is the loaded pair, with its fields exchanged when swap is on |
| `Home.SelectFallback` | client/src/pages/Home.tsx:103-117 | code that throws or returns a falsy value leaves the (swapped) pair on screen |
| `Home.Advance` | client/src/pages/Home.tsx:121-129 | from a valid index the next index is `(index + 1) mod count`, and it always stays below `count` |
| `Home.AdvanceFirstPass` | client/src/pages/Home.tsx:121-124 | during the first pass the index after `k` completions is `k` |
| `Home.AdvancePeriodic` | client/src/pages/Home.tsx:121-129 | `count` more completions lead back to the same index |
| `Home.AdvanceTimesIsModulo` | client/src/pages/Home.tsx:121-129 | after `q` full passes and `m` more completions the index is `m`: the index is the number of completions modulo the number of cards |
| `Home.BackToStart` | client/src/pages/Home.tsx:121-129 | starting from the first card, the index is back at 0 after exactly `count` completions and not before |
| `Home.KeyDown` | client/src/pages/Home.tsx:133-142 | Escape closes both panels; with both closed, `s` opens exactly the settings panel and `e` exactly the post-processing panel; `s`/`e` open a panel only when none is open; an open panel is never joined by another; other keys change nothing |
| `Home.KeysNeverOpenBoth` | client/src/pages/Home.tsx:133-146 | from panels not both open, no sequence of key presses opens both |
| `Home.HomePage.constructor` | client/src/pages/Home.tsx:40-53 | initial settings, no cards, index 0, not playing, both panels closed |
| `Home.HomePage.LoadVocabulary` | client/src/pages/Home.tsx:56-89 | on success the cards are replaced, the index is 0, playback runs and settings close; on every failure the cards, index, playing flag and settings flag are unchanged |
| `Home.HomePage.HandleComplete` | client/src/pages/Home.tsx:121-129 | the index advances by one modulo the number of cards and stays valid |
| `Home.HomePage.HandleKeyDown` | client/src/pages/Home.tsx:133-142 | the panel flags change as `KeyDown` says and the page invariant is kept |
| `Home.HomePage.CurrentFlashcard` | client/src/pages/Home.tsx:92-93 | no card exactly when the list is empty or the index is past it |
| `SettingsDialog.TestFeedback` | client/src/components/UnifiedSettingsDialog.tsx:92-120 | exactly one of error and test result is set: the test result when the code returned a value that passes the check and serialises; otherwise the localised shape error, the serialiser's message, or the exception's message ("Invalid code" for a non-`Error`) |
| `SettingsDialog.Dialog.constructor` | client/src/components/UnifiedSettingsDialog.tsx:71-77 | the buffer starts as the saved code, clean, with no error and no test result |
| `SettingsDialog.Dialog.HandleEditorChange` | client/src/components/UnifiedSettingsDialog.tsx:79-85 | `undefined` changes nothing; new text becomes the buffer, dirty exactly when it differs from the saved code, error cleared |
| `SettingsDialog.Dialog.HandleSave` | client/src/components/UnifiedSettingsDialog.tsx:87-90 | the saved code becomes the buffer, and the buffer is clean |
| `SettingsDialog.Dialog.HandleReset` | client/src/components/UnifiedSettingsDialog.tsx:122-127 | the buffer becomes the default code, dirty exactly when that differs from the saved code; error and test result cleared |
| `SettingsDialog.Dialog.HandleTest` | client/src/components/UnifiedSettingsDialog.tsx:92-120 | error and test result become `TestFeedback`'s for a run of the unsaved buffer on the sample pair; the buffer, saved code and dirty flag are untouched; the invariant holds |
| `SettingsDialog.Dialog.SaveEnabled` | client/src/components/UnifiedSettingsDialog.tsx:265-270 | Save is enabled exactly when the buffer differs from the saved code |
| `PostProcessing.TestError` | client/src/components/PostProcessingPanel.tsx:46-62 | cleared exactly when the result passes the check and serialises for the success alert; the fixed shape message for a failing result; the serialiser's message when the alert cannot show it; the exception's message or "Invalid code" when the code threw |
| `PostProcessing.Panel.constructor` | client/src/components/PostProcessingPanel.tsx:36-42 | the panel is bound to the page whose code it shows, and starts with no error |
| `PostProcessing.Panel.Edit` | client/src/components/PostProcessingPanel.tsx:100-103 | the page's post-processing code becomes the new text and the error clears; nothing else on the page changes |
| `PostProcessing.Panel.HandleReset` | client/src/components/PostProcessingPanel.tsx:64-67 | the page's post-processing code becomes the panel's default code and the error clears |
| `PostProcessing.Panel.HandleTest` | client/src/components/PostProcessingPanel.tsx:46-62 | the error becomes `TestError`'s for a run of the page's current code on the test pair, and the code is never modified |

## Left out

- The network read (`fetch`, `response.text()`) is an input value. A rejected `response.text()` is not modelled.
- Running user code (`eval`, `func.call({ TshetUinh }, …)`) is an abstract `Outcome`, and so is the dynamic import of the `tshet-uinh` library before a dialog test. The helper library itself is not part of this model.
- `Pairs.JsValue` models numbers as reals, because only their truthiness matters. BigInt, symbols and property getters with side effects are not modelled.
- `Strings.IsWhitespace` is the ASCII whitespace plus no-break space, byte-order mark and line/paragraph separators. It is not the full Unicode space set that JavaScript's `trim` removes.
- Notifications (toasts, `alert`, `console.error`) are not modelled. `LoadVocabulary` returns the outcome instead, and `Vocabulary.Message` gives the notification text.
- `JSON.stringify`'s text is not modelled. A dialog `TestResult` holds the sample pair and the returned value instead of their JSON text. Whether it throws is modelled: `SettingsDialog.TestFeedback` and `PostProcessing.TestError` take the serialiser as a parameter that gives the thrown message for a value it cannot serialise.
- `Home.SelectCard`: the source returns the post-processed object itself, extra properties included. The model keeps only its `word` and `translation`, which are all the page renders.
- The card's phase timers (`FlashcardDisplay.tsx`) are not modelled. `HandleComplete` is the callback they fire; the display times and their `parseFloat` parsing are not part of this model.
- The settings panel's setters (URL, display times, swap flag) are plain assignments and are not separate methods. The post-processing code has no setter in the settings panel: its only writer is the post-processing panel, modelled by `PostProcessing.Panel.Edit` and `HandleReset` on the page's own field. The page's two buttons open a panel unconditionally and are not modelled. Only the keyboard handler promises to keep a single panel open.
- Rendering, routing, the language switcher and the translation tables are not modelled. The localised shape-error text is a parameter of `SettingsDialog.TestFeedback`.
- `SettingsDialog.Dialog`: the saved code (the `code` prop) is a field of the dialog. The component that renders the dialog and owns that state is not part of this model, so a change to the code made outside the dialog is not covered; the buffer is not re-synchronised with such a change.
- React's asynchronous state updates are not modelled, and neither is the interleaving of an awaited load or test with other events. Each handler's updates are applied at once.
