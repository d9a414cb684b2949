/**
 * The vocabulary loader of the home page: a text of `translation<TAB>word`
 * lines becomes an ordered list of flashcards, or the load fails as a whole.
 * The network read is an input: the `FetchResponse` the URL produced.
 */
module Vocabulary {
  import opened Wrappers
  import opened Strings
  import opened Pairs

  /** What `fetch(url)` produced: a rejected promise, or a response with its
      `ok` flag and its body text. */
  datatype FetchResponse = NetworkFailure(thrown: Thrown) | Response(ok: bool, body: string)

  /** Why a load fails. */
  datatype LoadError =
    | MissingUrl                      // empty URL: reported before any fetch
    | FetchFailed                     // `!response.ok`
    | NetworkError(thrown: Thrown)    // `fetch` itself rejected
    | InvalidFormat                   // a line lacks its translation or its word
    | NoPairs                         // no non-blank line at all

  /** The message the error notification shows. */
  function Message(e: LoadError): string {
    match e
    case MissingUrl => "Please provide a vocabulary URL"
    case FetchFailed => "Failed to fetch vocabulary"
    case NetworkError(t) => ErrorText(t, "Failed to load vocabulary")
    case InvalidFormat => "Invalid format: each line must be 'translation\\tword'"
    case NoPairs => "No valid flashcard pairs found"
  }

  /** Apart from a rejected fetch, whose text is whatever the thrown value
      carries, every load error is reported with its own text. */
  lemma MessagesDistinct(a: LoadError, b: LoadError)
    requires !a.NetworkError? && !b.NetworkError? && a != b
    ensures Message(a) != Message(b)
  {
  }

  predicate NonBlank(line: string) {
    Trim(line) != ""
  }

  /** `lines.filter((line) => line.trim())`. */
  function KeepNonBlank(lines: seq<string>): (r: seq<string>)
    ensures |r| <= |lines|
  {
    if lines == [] then []
    else if NonBlank(lines[0]) then [lines[0]] + KeepNonBlank(lines[1..])
    else KeepNonBlank(lines[1..])
  }

  /** Every line the filter keeps is not blank, and every non-blank line is kept. */
  lemma {:induction false} KeepNonBlankExact(lines: seq<string>)
    ensures forall i :: 0 <= i < |KeepNonBlank(lines)| ==> NonBlank(KeepNonBlank(lines)[i])
    ensures forall line :: line in lines && NonBlank(line) ==> line in KeepNonBlank(lines)
  {
    if lines != [] {
      KeepNonBlankExact(lines[1..]);
      assert forall line :: line in lines ==> line == lines[0] || line in lines[1..];
    }
  }

  /** The filter keeps file order: filtering a concatenation filters each part. */
  lemma {:induction false} KeepNonBlankAppend(a: seq<string>, b: seq<string>)
    ensures KeepNonBlank(a + b) == KeepNonBlank(a) + KeepNonBlank(b)
  {
    if a == [] {
      assert a + b == b;
    } else {
      var ab := a + b;
      assert ab[0] == a[0] && ab[1..] == a[1..] + b;
      KeepNonBlankAppend(a[1..], b);
      if NonBlank(a[0]) {
        calc {
          KeepNonBlank(ab);
          [a[0]] + KeepNonBlank(a[1..] + b);
          [a[0]] + (KeepNonBlank(a[1..]) + KeepNonBlank(b));
        }
      }
    }
  }

  /** A single line survives the filter exactly when it is not blank, and a
      blank line is exactly one made of whitespace only. */
  lemma KeepNonBlankSingle(line: string)
    ensures KeepNonBlank([line]) == (if AllWhitespace(line) then [] else [line])
  {
    TrimEmptyIff(line);
  }

  /** The lines of the text that hold something other than whitespace, in file order. */
  function NonBlankLines(text: string): seq<string> {
    KeepNonBlank(Split(text, '\n'))
  }

  /** One line: `const [translation, word] = line.split("\t")`; both raw
      fields must be non-empty strings, and the pair holds them trimmed. */
  function ParseLine(line: string): (r: Result<Flashcard, LoadError>)
    ensures r.Failure? ==> r.error == InvalidFormat
  {
    var fields := Split(line, '\t');
    if fields[0] == "" || |fields| < 2 || fields[1] == "" then Failure(InvalidFormat)
    else Success(Flashcard(Trim(fields[1]), Trim(fields[0])))
  }

  /** `lines.map(...)` where any line may throw: all lines parse or the whole
      map fails; on success there is one pair per line, in the same order. */
  function ParseLines(lines: seq<string>): (r: Result<seq<Flashcard>, LoadError>)
    ensures r.Success? <==> forall i :: 0 <= i < |lines| ==> ParseLine(lines[i]).Success?
    ensures r.Failure? ==> r.error == InvalidFormat
    ensures r.Success? ==> |r.value| == |lines|
    ensures r.Success? ==> forall i :: 0 <= i < |lines| ==> r.value[i] == ParseLine(lines[i]).value
  {
    if lines == [] then Success([])
    else
      match ParseLine(lines[0])
      case Failure(e) => Failure(e)
      case Success(p) =>
        match ParseLines(lines[1..])
        case Failure(e) => Failure(e)
        case Success(ps) => Success([p] + ps)
  }

  /** The parsing part of `loadVocabulary`: every non-blank line must parse,
      and at least one pair must result. */
  function ParseVocabulary(text: string): (r: Result<seq<Flashcard>, LoadError>)
    ensures r.Failure? ==> r.error == InvalidFormat || r.error == NoPairs
    ensures r.Success? ==> |r.value| > 0
  {
    match ParseLines(NonBlankLines(text))
    case Failure(e) => Failure(e)
    case Success(pairs) => if |pairs| == 0 then Failure(NoPairs) else Success(pairs)
  }

  /** A load succeeds with one pair per non-blank line, in file order, each
      the parse of its line; it fails exactly when there is no non-blank line
      or some non-blank line is malformed. */
  lemma ParseVocabularyCorrect(text: string)
    ensures ParseVocabulary(text).Success? ==>
      |ParseVocabulary(text).value| == |NonBlankLines(text)| > 0
    ensures ParseVocabulary(text).Success? ==> forall i :: 0 <= i < |NonBlankLines(text)| ==>
      ParseLine(NonBlankLines(text)[i]).Success?
      && ParseVocabulary(text).value[i] == ParseLine(NonBlankLines(text)[i]).value
    ensures ParseVocabulary(text).Failure? <==> (NonBlankLines(text) == []
      || exists i :: 0 <= i < |NonBlankLines(text)| && ParseLine(NonBlankLines(text)[i]).Failure?)
  {
  }

  /** `loadVocabulary` without its state changes: the pairs to install, or why not. */
  function Load(url: string, response: FetchResponse): (r: Result<seq<Flashcard>, LoadError>)
    ensures url == "" ==> r == Failure(MissingUrl)
    ensures url != "" && response.NetworkFailure? ==> r == Failure(NetworkError(response.thrown))
    ensures url != "" && response.Response? && !response.ok ==> r == Failure(FetchFailed)
    ensures url != "" && response.Response? && response.ok ==> r == ParseVocabulary(response.body)
    ensures r.Success? ==> response.Response? && response.ok && r == ParseVocabulary(response.body)
    ensures r.Success? ==> |r.value| > 0
  {
    if url == "" then Failure(MissingUrl)
    else
      match response
      case NetworkFailure(t) => Failure(NetworkError(t))
      case Response(ok, body) => if !ok then Failure(FetchFailed) else ParseVocabulary(body)
  }

  /** An empty URL fails the same way whatever the network would have answered:
      the response is never looked at. */
  lemma EmptyUrlIgnoresResponse(a: FetchResponse, b: FetchResponse)
    ensures Load("", a) == Load("", b) == Failure(MissingUrl)
  {
  }

  /** Field mapping: a line `translation<TAB>word` with both fields non-empty
      gives `{ word: trim(word), translation: trim(translation) }`, and
      anything after a second tab is ignored. */
  lemma {:induction false} ParseLineFields(translation: string, word: string, rest: seq<string>)
    requires '\t' !in translation && '\t' !in word
    requires forall i :: 0 <= i < |rest| ==> '\t' !in rest[i]
    requires translation != "" && word != ""
    ensures ParseLine(Join([translation, word] + rest, '\t'))
      == Success(Flashcard(Trim(word), Trim(translation)))
  {
    var parts := [translation, word] + rest;
    SplitJoin(parts, '\t');
  }

  /** The emptiness test is on the raw fields: a field of spaces passes it and
      becomes the empty string once trimmed. */
  lemma {:induction false} WhitespaceFieldBecomesEmpty(translation: string, word: string)
    requires '\t' !in translation && '\t' !in word
    requires translation != "" && word != ""
    requires AllWhitespace(translation)
    ensures ParseLine(translation + "\t" + word) == Success(Flashcard(Trim(word), ""))
  {
    ParseLineFields(translation, word, []);
    TrimEmptyIff(translation);
  }

  /** A line with no tab is rejected. */
  lemma NoTabRejected(line: string)
    requires '\t' !in line
    ensures ParseLine(line) == Failure(InvalidFormat)
  {
    SplitNoSeparator(line, '\t');
  }

  /** A line whose field before, or whose field after, the first tab is empty
      is rejected, whatever follows. */
  lemma {:induction false} EmptyFieldRejected(translation: string, word: string, rest: seq<string>)
    requires '\t' !in translation && '\t' !in word
    requires forall i :: 0 <= i < |rest| ==> '\t' !in rest[i]
    requires translation == "" || word == ""
    ensures ParseLine(Join([translation, word] + rest, '\t')) == Failure(InvalidFormat)
  {
    SplitJoin([translation, word] + rest, '\t');
  }

  /** All or nothing: one bad non-blank line anywhere in the text (first,
      last or in between) fails the whole load, whatever the other lines hold. */
  lemma {:induction false} OneBadLineFailsAll(text: string, line: string)
    requires line in Split(text, '\n')
    requires NonBlank(line) && ParseLine(line).Failure?
    ensures ParseVocabulary(text) == Failure(InvalidFormat)
  {
    var lines := NonBlankLines(text);
    KeepNonBlankExact(Split(text, '\n'));
    assert line in lines;
    var i :| 0 <= i < |lines| && lines[i] == line;
    assert !ParseLine(lines[i]).Success?;
  }

  /** A text made of whitespace only (the empty text included) loads nothing. */
  lemma {:induction false} BlankTextHasNoPairs(text: string)
    requires AllWhitespace(text)
    ensures ParseVocabulary(text) == Failure(NoPairs)
  {
    var lines := Split(text, '\n');
    JoinSplit(text, '\n');
    AllBlank(lines, text);
  }

  lemma {:induction false} AllBlank(lines: seq<string>, text: string)
    requires |lines| >= 1 && Join(lines, '\n') == text && AllWhitespace(text)
    ensures KeepNonBlank(lines) == []
    decreases |lines|
  {
    TrimEmptyIff(lines[0]);
    if |lines| > 1 {
      assert text == lines[0] + "\n" + Join(lines[1..], '\n');
      assert Join(lines[1..], '\n') == text[|lines[0]| + 1..];
      AllBlank(lines[1..], text[|lines[0]| + 1..]);
    } else {
      assert text == lines[0];
    }
    assert lines[0] == text[..|lines[0]|];
  }

  /** A field free of tabs and newlines with no whitespace at either end. */
  predicate PlainField(f: string) {
    f != "" && '\t' !in f && '\n' !in f && !IsWhitespace(f[0]) && !IsWhitespace(f[|f| - 1])
  }

  /** The non-blank lines of `l1<LF>l2<LF>`: the two lines, the empty
      string after the final newline dropped. */
  lemma {:induction false} TwoNonBlankLines(l1: string, l2: string)
    requires '\n' !in l1 && '\n' !in l2
    requires l1 != "" && !IsWhitespace(l1[0]) && l2 != "" && !IsWhitespace(l2[0])
    ensures NonBlankLines(l1 + "\n" + l2 + "\n") == [l1, l2]
  {
    var text := l1 + "\n" + l2 + "\n";
    assert text == l1 + "\n" + (l2 + "\n" + "");
    SplitFirst(l1, '\n', l2 + "\n" + "");
    SplitFirst(l2, '\n', "");
    assert Split(text, '\n') == [l1, l2, ""];
    assert NonBlank(l1) && NonBlank(l2) by {
      TrimEmptyIff(l1);
      TrimEmptyIff(l2);
    }
    assert [l1, l2, ""][1..] == [l2, ""];
    assert [l2, ""][1..] == [""];
    assert KeepNonBlank([""]) == [];
    assert KeepNonBlank([l2, ""]) == [l2] + KeepNonBlank([""]);
    assert KeepNonBlank([l1, l2, ""]) == [l1] + KeepNonBlank([l2, ""]);
  }

  /** A line of two plain fields parses to its fields unchanged, the second as the word. */
  lemma {:induction false} PlainLine(t: string, w: string)
    requires PlainField(t) && PlainField(w)
    ensures '\n' !in t + "\t" + w
    ensures ParseLine(t + "\t" + w) == Success(Flashcard(w, t))
  {
    assert [t, w] + [] == [t, w] && [t, w][1..] == [w];
    assert Join([w], '\t') == w;
    assert t + "\t" + w == Join([t, w], '\t');
    ParseLineFields(t, w, []);
    TrimUntouched(t);
    TrimUntouched(w);
  }

  /** A two-line file `t1<TAB>w1<LF>t2<TAB>w2<LF>` whose fields are free of
      tabs, newlines and surrounding whitespace: two pairs, in file order,
      with the second field of each line as the word. */
  lemma {:induction false} TwoLineFile(t1: string, w1: string, t2: string, w2: string)
    requires PlainField(t1) && PlainField(w1) && PlainField(t2) && PlainField(w2)
    ensures ParseVocabulary(t1 + "\t" + w1 + "\n" + t2 + "\t" + w2 + "\n")
      == Success([Flashcard(w1, t1), Flashcard(w2, t2)])
  {
    var l1, l2 := t1 + "\t" + w1, t2 + "\t" + w2;
    PlainLine(t1, w1);
    PlainLine(t2, w2);
    TwoNonBlankLines(l1, l2);
    TwoLines(t1 + "\t" + w1 + "\n" + t2 + "\t" + w2 + "\n", l1, l2, Flashcard(w1, t1), Flashcard(w2, t2));
  }

  lemma TwoLines(text: string, l1: string, l2: string, p1: Flashcard, p2: Flashcard)
    requires text == l1 + "\n" + l2 + "\n"
    requires NonBlankLines(l1 + "\n" + l2 + "\n") == [l1, l2]
    requires ParseLine(l1) == Success(p1) && ParseLine(l2) == Success(p2)
    ensures ParseVocabulary(text) == Success([p1, p2])
  {
    var r := ParseLines([l1, l2]);
    assert r.Success? && |r.value| == 2;
    assert r.value == [p1, p2];
  }
}
