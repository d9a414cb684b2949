/**
 * The flashcard pair and the one check that all three components apply to
 * whatever the user's post-processing code returns: the value must be truthy
 * and its `word` and `translation` properties must both be strings.
 *
 * Running the user's code (`eval`) is not modelled. Its effect is an
 * `Outcome`: it threw, or it returned a JavaScript value, of which only what
 * the check can observe is kept.
 */
module Pairs {
  import opened Wrappers

  /** `FlashcardPair`: one vocabulary entry as shown on a card. */
  datatype Flashcard = Flashcard(word: string, translation: string)

  /** What `typeof v.word` (or `typeof v.translation`) can tell apart. */
  datatype Property = Missing | Str(text: string) | NonString

  /** A JavaScript value as far as the shape check can observe it. Numbers are
      reals (only their truthiness matters); an `Object` stands for any object,
      function or array, described by its two properties. */
  datatype JsValue =
    | Undefined
    | Null
    | Boolean(b: bool)
    | Number(x: real)
    | NaN
    | Text(s: string)
    | Object(wordProp: Property, translationProp: Property)

  /** What was thrown: an `Error` instance carries a message; any other thrown value does not. */
  datatype Thrown = ErrorInstance(message: string) | OtherThrown

  /** The outcome of running the user's code on one pair. */
  datatype Outcome = Threw(thrown: Thrown) | Returned(value: JsValue)

  /** JavaScript truthiness (`!v` is false). */
  predicate Truthy(v: JsValue) {
    match v
    case Undefined => false
    case Null => false
    case Boolean(b) => b
    case Number(x) => x != 0.0
    case NaN => false
    case Text(s) => s != ""
    case Object(_, _) => true
  }

  /** `v.word`; primitives have no such property. */
  function WordOf(v: JsValue): Property {
    if v.Object? then v.wordProp else Missing
  }

  /** `v.translation`; primitives have no such property. */
  function TranslationOf(v: JsValue): Property {
    if v.Object? then v.translationProp else Missing
  }

  /** `v && typeof v.word === "string" && typeof v.translation === "string"`:
      the pair the value stands for when it passes, `None` when it does not.
      Only an object whose two properties are strings passes, and the pair is
      read off those two strings. */
  function CheckShape(v: JsValue): (r: Option<Flashcard>)
    ensures r.Some? <==> v.Object? && v.wordProp.Str? && v.translationProp.Str?
    ensures r.Some? ==> v == Object(Str(r.value.word), Str(r.value.translation))
  {
    if Truthy(v) && WordOf(v).Str? && TranslationOf(v).Str? then
      Some(Flashcard(WordOf(v).text, TranslationOf(v).text))
    else
      None
  }

  /** A falsy value never passes the check. */
  lemma FalsyFails(v: JsValue)
    requires !Truthy(v)
    ensures CheckShape(v) == None
  {
  }

  /** The object literal `{ word, translation }` returned for a pair. */
  function AsObject(p: Flashcard): JsValue {
    Object(Str(p.word), Str(p.translation))
  }

  /** Returning the pair unchanged (the default post-processing) passes the
      check and gives back the same pair. */
  lemma AsObjectPasses(p: Flashcard)
    ensures CheckShape(AsObject(p)) == Some(p)
  {
  }

  /** `e instanceof Error ? e.message : fallback`. */
  function ErrorText(t: Thrown, fallback: string): string {
    match t
    case ErrorInstance(m) => m
    case OtherThrown => fallback
  }

  /** `{ word: pair.translation, translation: pair.word }`. */
  function Swap(p: Flashcard): Flashcard {
    Flashcard(p.translation, p.word)
  }

  /** Swapping exchanges the two fields, and swapping twice gives back the pair. */
  lemma SwapInvolution(p: Flashcard)
    ensures Swap(p).word == p.translation && Swap(p).translation == p.word
    ensures Swap(Swap(p)) == p
  {
  }
}
