/** What `renderResults` shows for a dictionary entry, reduced to what can be
    stated without a DOM: the lines it lists and, for each, what its speak
    button says (or that the button is hidden). */
module Render {
  import opened Wrappers
  import opened JsString

  /** The interface language, `currentLang`. */
  datatype Lang = Ar | En {
    /** The language tag the client stores and sends. */
    function Tag(): (t: string)
      ensures |t| == 2 && '_' !in t
    {
      match this
      case Ar => "ar"
      case En => "en"
    }
  }

  /** The structured reply the client parses and caches. */
  datatype DictionaryEntry = DictionaryEntry(
    word: string, meaning: string, explanation: string, examples: seq<string>)

  /** A speak button: the text and language it passes to `speakText` when
      clicked, or hidden (`display: none`). */
  datatype SpeakButton = Speak(text: string, lang: Lang) | Hidden

  datatype ExampleRow = ExampleRow(line: string, button: SpeakButton)

  datatype Page = Page(
    word: string, meaning: string, explanation: string,
    rows: seq<ExampleRow>, wordButton: SpeakButton)

  /** In Arabic, the spoken part of an example is what precedes its first
      parenthesis, trimmed: `example.split('(')[0].trim()`. */
  function ArabicSpeakText(example: string): (t: string)
    ensures '(' !in t
    ensures t == [] || (!IsSpace(t[0]) && !IsSpace(t[|t| - 1]))
  {
    Trim(BeforeFirst(example, '('))
  }

  /** For an example written `w (translation)`, with `w` free of parentheses and
      of surrounding white space, the Arabic speak text is exactly `w`. */
  lemma ArabicSpeakTextOfGloss(w: string, gap: string, rest: string)
    requires '(' !in w
    requires w == [] || (!IsSpace(w[0]) && !IsSpace(w[|w| - 1]))
    requires AllSpace(gap)
    ensures ArabicSpeakText(w + gap + "(" + rest) == w
  {
    var e := w + gap + "(" + rest;
    var p := w + gap;
    assert e == p + ("(" + rest);
    assert BeforeFirst(e, '(') == p by {
      BeforeFirstOfConcat(p, "(" + rest, '(');
    }
    if w == [] {
      assert p == gap;
      assert Trim(p) == [];
    } else {
      assert p[0] == w[0];
      assert SkipSpace(p, 0) == 0;
      SkipSpaceBackOver(p, |w|);
    }
  }

  lemma {:induction false} BeforeFirstOfConcat(p: string, q: string, sep: char)
    requires sep !in p && q != [] && q[0] == sep
    ensures BeforeFirst(p + q, sep) == p
    decreases |p|
  {
    if p == [] {
      assert p + q == q;
    } else {
      assert (p + q)[0] == p[0] && p[0] in p;
      assert (p + q)[1..] == p[1..] + q;
      BeforeFirstOfConcat(p[1..], q, sep);
      assert p == [p[0]] + p[1..];
    }
  }

  /** Dropping trailing white space from `p` stops at `n` when all after `n`
      is white space and the character before `n` is not. */
  lemma {:induction false} SkipSpaceBackOver(p: string, n: nat)
    requires 0 < n <= |p| && !IsSpace(p[n - 1])
    requires forall k :: n <= k < |p| ==> IsSpace(p[k])
    ensures SkipSpaceBack(p, 0, |p|) == n
  {
    SkipSpaceBackFrom(p, n, |p|);
  }

  lemma {:induction false} SkipSpaceBackFrom(p: string, n: nat, j: nat)
    requires 0 < n <= j <= |p| && !IsSpace(p[n - 1])
    requires forall k :: n <= k < j ==> IsSpace(p[k])
    ensures SkipSpaceBack(p, 0, j) == n
    decreases j
  {
    if j > n {
      SkipSpaceBackFrom(p, n, j - 1);
    }
  }

  /** In English, the spoken part is the text inside the first parenthesised
      group; None means the button is hidden. */
  function EnglishSpeakText(example: string): (t: Option<string>)
    ensures t.None? <==> NoGroupIn(example, 0, |example|)
    ensures t.Some? ==> t.value != [] && ')' !in t.value
  {
    var t := FirstGroup(example);
    if t.Some? then FirstGroupShape(example); t else t
  }

  /** The speak button of one example line. Arabic lines always get a button;
      English lines get one exactly when the example has a parenthesised group,
      speaking that group's text in English. */
  function ExampleButton(example: string, lang: Lang): (b: SpeakButton)
    ensures lang == Ar ==> b == Speak(ArabicSpeakText(example), Ar)
    ensures lang == En ==> (b.Hidden? <==> NoGroupIn(example, 0, |example|))
    ensures lang == En && b.Speak? ==> b.lang == En && Some(b.text) == FirstGroup(example)
  {
    match lang
    case Ar => Speak(ArabicSpeakText(example), Ar)
    case En =>
      match EnglishSpeakText(example)
      case Some(t) => Speak(t, En)
      case None => Hidden
  }

  /** `renderResults(data)`: the word, meaning and explanation as given; one row
      per example, in order, showing `- example` with that example's button;
      the word's own button always speaks the word in Arabic. */
  function RenderResults(entry: DictionaryEntry, lang: Lang): (p: Page)
    ensures p.word == entry.word && p.meaning == entry.meaning && p.explanation == entry.explanation
    ensures |p.rows| == |entry.examples|
    ensures forall i :: 0 <= i < |p.rows| ==>
      p.rows[i] == ExampleRow("- " + entry.examples[i], ExampleButton(entry.examples[i], lang))
    ensures p.wordButton == Speak(entry.word, Ar)
  {
    Page(entry.word, entry.meaning, entry.explanation,
         seq(|entry.examples|, i requires 0 <= i < |entry.examples| =>
           ExampleRow("- " + entry.examples[i], ExampleButton(entry.examples[i], lang))),
         Speak(entry.word, Ar))
  }
}
