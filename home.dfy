/**
 * The home page's playback state: which card is shown, how it is derived
 * from the loaded pair (swap, then the user's post-processing), how the
 * index advances when a card completes, and the keyboard shortcuts that
 * open and close the two side panels.
 */
module Home {
  import opened Wrappers
  import opened Pairs
  import opened Vocabulary

  /** The pair after the optional swap. */
  function Oriented(p: Flashcard, swap: bool): Flashcard {
    if swap then Swap(p) else p
  }

  /** `getCurrentFlashcard`: no card when the index is past the list;
      otherwise the (swapped) pair, replaced by what the post-processing
      returned when that passes the shape check. `process` is the user's code
      as run by `eval` on the pair. */
  function SelectCard(cards: seq<Flashcard>, index: nat, swap: bool, process: Flashcard -> Outcome): (r: Option<Flashcard>)
    ensures r == None <==> |cards| == 0 || index >= |cards|
    ensures r.Some? ==> (
      var pair := Oriented(cards[index], swap);
      match process(pair)
      case Threw(_) => r.value == pair
      case Returned(v) => r.value == (if CheckShape(v).Some? then CheckShape(v).value else pair))
  {
    if |cards| == 0 || index >= |cards| then None
    else
      var pair := Oriented(cards[index], swap);
      match process(pair)
      case Returned(v) =>
        (match CheckShape(v)
         case Some(processed) => Some(processed)
         case None => Some(pair))
      case Threw(_) => Some(pair)
  }

  /** With the default post-processing (return the pair as it came) the card
      is the loaded pair, with its fields exchanged when swap is on. */
  lemma SelectIdentity(cards: seq<Flashcard>, index: nat, swap: bool, process: Flashcard -> Outcome)
    requires index < |cards|
    requires forall p :: process(p) == Returned(AsObject(p))
    ensures SelectCard(cards, index, swap, process) == Some(Oriented(cards[index], swap))
    ensures swap ==>
      SelectCard(cards, index, swap, process) == Some(Flashcard(cards[index].translation, cards[index].word))
  {
    AsObjectPasses(Oriented(cards[index], swap));
  }

  /** Code that throws, or that returns something failing the check, leaves
      the (swapped) pair as it was. */
  lemma SelectFallback(cards: seq<Flashcard>, index: nat, swap: bool, process: Flashcard -> Outcome)
    requires index < |cards|
    requires process(Oriented(cards[index], swap)).Threw?
      || !Truthy(process(Oriented(cards[index], swap)).value)
    ensures SelectCard(cards, index, swap, process) == Some(Oriented(cards[index], swap))
  {
  }

  /** `handleComplete`: the next index, or 0 after the last card. */
  function Advance(index: nat, count: nat): (r: nat)
    ensures index < count ==> r == (index + 1) % count
    ensures r < count || count == 0
  {
    if index < count - 1 then index + 1 else 0
  }

  /** The index after `k` completions starting from the first card. */
  function AdvanceTimes(count: nat, k: nat): nat {
    if k == 0 then 0 else Advance(AdvanceTimes(count, k - 1), count)
  }

  /** During the first pass through the list the index after `k` completions is `k`. */
  lemma {:induction false} AdvanceFirstPass(count: nat, k: nat)
    requires k < count
    ensures AdvanceTimes(count, k) == k
  {
    if k > 0 {
      AdvanceFirstPass(count, k - 1);
    }
  }

  /** Completions are periodic: `count` more of them lead back to the same index. */
  lemma {:induction false} AdvancePeriodic(count: nat, k: nat)
    requires count > 0
    ensures AdvanceTimes(count, k + count) == AdvanceTimes(count, k)
  {
    if k == 0 {
      AdvanceFirstPass(count, count - 1);
    } else {
      AdvancePeriodic(count, k - 1);
      assert k + count - 1 == (k - 1) + count;
    }
  }

  /** After `q` full passes and `m` more completions the index is `m`: the
      index is the number of completions modulo the number of cards. */
  lemma {:induction false} AdvanceTimesIsModulo(count: nat, q: nat, m: nat)
    requires m < count
    ensures AdvanceTimes(count, q * count + m) == m
    decreases q
  {
    if q == 0 {
      AdvanceFirstPass(count, m);
    } else {
      var k := (q - 1) * count + m;
      AdvanceTimesIsModulo(count, q - 1, m);
      AdvancePeriodic(count, k);
      MulSucc(q, count);
    }
  }

  /** Starting from the first card, the index is back at 0 after exactly
      `count` completions and not before. */
  lemma BackToStart(count: nat)
    requires count > 0
    ensures AdvanceTimes(count, count) == 0
    ensures forall k :: 0 < k < count ==> AdvanceTimes(count, k) != 0
  {
    AdvancePeriodic(count, 0);
    forall k | 0 < k < count
      ensures AdvanceTimes(count, k) != 0
    {
      AdvanceFirstPass(count, k);
    }
  }

  lemma MulSucc(q: nat, count: nat)
    requires q > 0
    ensures q * count == (q - 1) * count + count
  {
  }

  /** Which side panels are open. */
  datatype Panels = Panels(settingsOpen: bool, postProcessingOpen: bool)

  /** The keydown handler: Escape closes both panels; `s` and `e` open the
      settings or the post-processing panel, but only when neither is open;
      every other key changes nothing. */
  function KeyDown(key: string, panels: Panels): (r: Panels)
    ensures key == "Escape" ==> r == Panels(false, false)
    ensures key != "Escape" && key != "s" && key != "e" ==> r == panels
    ensures panels.settingsOpen || panels.postProcessingOpen ==>
      r.settingsOpen == (panels.settingsOpen && key != "Escape")
      && r.postProcessingOpen == (panels.postProcessingOpen && key != "Escape")
    ensures !(r.settingsOpen && r.postProcessingOpen) || r == panels
    ensures !panels.settingsOpen && !panels.postProcessingOpen ==>
      (key == "s" ==> r == Panels(true, false)) && (key == "e" ==> r == Panels(false, true))
  {
    if key == "Escape" then Panels(false, false)
    else if key == "s" && !panels.settingsOpen && !panels.postProcessingOpen then Panels(true, false)
    else if key == "e" && !panels.settingsOpen && !panels.postProcessingOpen then Panels(false, true)
    else panels
  }

  /** Starting from panels that are not both open, no sequence of keys opens both. */
  lemma {:induction false} KeysNeverOpenBoth(keys: seq<string>, panels: Panels)
    requires !(panels.settingsOpen && panels.postProcessingOpen)
    ensures !(PressAll(keys, panels).settingsOpen && PressAll(keys, panels).postProcessingOpen)
    decreases |keys|
  {
    if keys != [] {
      KeysNeverOpenBoth(keys[1..], KeyDown(keys[0], panels));
    }
  }

  /** The panels after the keys are pressed in order. */
  function PressAll(keys: seq<string>, panels: Panels): Panels
    decreases |keys|
  {
    if keys == [] then panels else PressAll(keys[1..], KeyDown(keys[0], panels))
  }

  const DEFAULT_VOCABULARY_URL: string :=
    "https://files.manuscdn.com/user_upload_by_module/session_file/310519663323892428/HBgHuOeOJYodGIQm.txt"

  const DEFAULT_POST_PROCESSING: string :=
@"// Post-processing function
// Receives: { word, translation }
// Returns: { word, translation }

function process({ word, translation }) {
  // Example: Convert to uppercase
  // return { word: word.toUpperCase(), translation: translation.toUpperCase() };
  
  // Example: Add prefix
  // return { word: ""→ "" + word, translation: ""← "" + translation };
  
  // Default: no transformation
  return { word, translation };
}"

  /** The page's state. */
  class HomePage {
    var vocabularyUrl: string
    var swapWordTranslation: bool
    var postProcessingCode: string
    var flashcards: seq<Flashcard>
    var currentIndex: nat
    var isPlaying: bool
    var settingsOpen: bool
    var postProcessingOpen: bool

    /** The index points at a card whenever there are cards, and playback
        only runs over a non-empty list. */
    ghost predicate Valid()
      reads this
    {
      (if flashcards == [] then currentIndex == 0 else currentIndex < |flashcards|)
      && (isPlaying ==> flashcards != [])
    }

    constructor ()
      ensures Valid()
      ensures vocabularyUrl == DEFAULT_VOCABULARY_URL && !swapWordTranslation
      ensures postProcessingCode == DEFAULT_POST_PROCESSING
      ensures flashcards == [] && currentIndex == 0 && !isPlaying
      ensures !settingsOpen && !postProcessingOpen
    {
      vocabularyUrl := DEFAULT_VOCABULARY_URL;
      swapWordTranslation := false;
      postProcessingCode := DEFAULT_POST_PROCESSING;
      flashcards := [];
      currentIndex := 0;
      isPlaying := false;
      settingsOpen := false;
      postProcessingOpen := false;
    }

    /** `loadVocabulary`, with `response` what fetching the URL produced.
        On success the new cards replace the old, playback restarts at the
        first card and the settings panel closes; on any failure (empty URL,
        failed fetch, a bad line, no pairs) nothing changes. */
    method LoadVocabulary(response: FetchResponse) returns (result: Result<nat, LoadError>)
      requires Valid()
      modifies this
      ensures Valid()
      ensures vocabularyUrl == old(vocabularyUrl) && swapWordTranslation == old(swapWordTranslation)
      ensures postProcessingCode == old(postProcessingCode) && postProcessingOpen == old(postProcessingOpen)
      ensures match Load(old(vocabularyUrl), response)
        case Success(pairs) =>
          result == Success(|pairs|) && flashcards == pairs && currentIndex == 0
          && isPlaying && !settingsOpen
        case Failure(e) =>
          result == Failure(e) && flashcards == old(flashcards) && currentIndex == old(currentIndex)
          && isPlaying == old(isPlaying) && settingsOpen == old(settingsOpen)
    {
      var loaded := Load(vocabularyUrl, response);
      match loaded {
        case Failure(e) =>
          result := Failure(e);
        case Success(pairs) =>
          flashcards := pairs;
          currentIndex := 0;
          isPlaying := true;
          settingsOpen := false;
          result := Success(|pairs|);
      }
    }

    /** `handleComplete`, fired when a card's display time is over. */
    method HandleComplete()
      requires Valid()
      modifies this`currentIndex
      ensures Valid()
      ensures currentIndex == Advance(old(currentIndex), |flashcards|)
      ensures flashcards != [] ==> currentIndex == (old(currentIndex) + 1) % |flashcards|
    {
      if currentIndex < |flashcards| - 1 {
        currentIndex := currentIndex + 1;
      } else {
        currentIndex := 0;
      }
    }

    /** The window keydown listener. */
    method HandleKeyDown(key: string)
      requires Valid()
      modifies this`settingsOpen, this`postProcessingOpen
      ensures Valid()
      ensures Panels(settingsOpen, postProcessingOpen)
        == KeyDown(key, Panels(old(settingsOpen), old(postProcessingOpen)))
    {
      if key == "Escape" {
        settingsOpen := false;
        postProcessingOpen := false;
      } else if key == "s" && !settingsOpen && !postProcessingOpen {
        settingsOpen := true;
      } else if key == "e" && !settingsOpen && !postProcessingOpen {
        postProcessingOpen := true;
      }
    }

    /** The card on screen, with `process` the evaluation of the current
        post-processing code. */
    function CurrentFlashcard(process: (string, Flashcard) -> Outcome): (r: Option<Flashcard>)
      reads this
      ensures r == None <==> |flashcards| == 0 || currentIndex >= |flashcards|
    {
      var code := postProcessingCode;
      SelectCard(flashcards, currentIndex, swapWordTranslation, p => process(code, p))
    }
  }
}
