/**
 * The rename-suggestion listener: a language model streams a numbered list
 * of better names in chunks, and the listener turns the growing text into
 * candidates of the completion popup while the stream is still running.
 */
module RenameLookup {
  import opened Text

  /** The lambda of lines 87-89: drop a leading ordinal marker, trim, then drop one pair of backticks. */
  function CleanPiece(p: string): string {
    RemoveSurrounding(Trim(StripOrdinal(p)), '`')
  }

  /** Cleaning only removes characters. */
  lemma CleanPieceKeepsChars(p: string)
    ensures forall c :: c in CleanPiece(p) ==> c in p
  {
    var a := StripOrdinal(p);
    StripOrdinalSuffix(p);
    var i, j := TrimCore(a);
    var b := Trim(a);
    var r := RemoveSurrounding(b, '`');
    assert forall c :: c in a ==> c in p;
    assert forall c :: c in b ==> c in a;
    assert forall c :: c in r ==> c in b;
  }

  /** A word that carries no marker, no surrounding whitespace and no backticks is its own cleaning. */
  lemma CleanPlainWord(w: string)
    requires w != [] && !IsDigit(w[0]) && w[0] != '`'
    requires !IsWhitespace(w[0]) && !IsWhitespace(w[|w| - 1])
    ensures CleanPiece(w) == w
  {
  }

  /** A numbered name loses its marker and the space after it. */
  lemma CleanNumbered(a: string)
    requires a == "1. Foo"
    ensures CleanPiece(a) == "Foo"
  {
    assert a == "1" + "." + " Foo";
    StripOrdinalRemovesMarker("1", " Foo");
    TrimOneSpace(" Foo");
  }

  lemma TrimOneSpace(t: string)
    requires t == " Foo"
    ensures Trim(t) == "Foo"
  {
    assert IsWhitespace(t[0]) && t[1..] == "Foo";
    assert TrimStart(t) == TrimStart("Foo") == "Foo";
    assert TrimEnd("Foo") == "Foo";
  }

  /** A name in backticks loses them. */
  lemma CleanQuoted(b: string)
    requires b == "`bar`"
    ensures CleanPiece(b) == "bar"
  {
    DigitRunSpec(b);
    var i, j := TrimCore(b);
    assert i == 0 && j == |b|;
    assert b == ['`'] + "bar" + ['`'];
    RemoveSurroundingUnwraps("bar", '`');
  }

  /** A blank piece becomes empty. */
  lemma CleanBlank(c: string)
    requires c == "   "
    ensures CleanPiece(c) == ""
  {
    DigitRunSpec(c);
    BlankIffTrimsToEmpty(c);
  }

  /** Only the first marker goes. */
  lemma StripOneMarker(d: string)
    requires d == "1.2.x"
    ensures StripOrdinal(d) == "2.x"
  {
    assert d == "1" + "." + "2.x";
    StripOrdinalRemovesMarker("1", "2.x");
  }

  /** `parseSuggestion` (line 86): every newline-separated piece, cleaned, in order. */
  function ParseSuggestion(s: string): (r: seq<string>)
    ensures |r| == |Split(s, '\n')|
  {
    CleanAll(Split(s, '\n'))
  }

  /** The `map` at line 86. */
  function CleanAll(pieces: seq<string>): (r: seq<string>)
    ensures |r| == |pieces|
    decreases |pieces|
  {
    if pieces == [] then [] else [CleanPiece(pieces[0])] + CleanAll(pieces[1..])
  }

  /** Piece `i` of the result is piece `i` of the input, cleaned: order and count are kept. */
  lemma {:induction false} CleanAllAt(pieces: seq<string>, i: nat)
    requires i < |pieces|
    ensures CleanAll(pieces)[i] == CleanPiece(pieces[i])
    decreases |pieces|
  {
    if i > 0 {
      CleanAllAt(pieces[1..], i - 1);
    }
  }

  /** `parseSuggestion` returns, in order, the cleaning of every newline-separated piece. */
  lemma ParseSuggestionPieces(s: string)
    ensures |ParseSuggestion(s)| == Count(s, '\n') + 1
    ensures forall i :: 0 <= i < |ParseSuggestion(s)| ==> ParseSuggestion(s)[i] == CleanPiece(Split(s, '\n')[i])
  {
    SplitCount(s, '\n');
    forall i | 0 <= i < |ParseSuggestion(s)| ensures ParseSuggestion(s)[i] == CleanPiece(Split(s, '\n')[i]) {
      CleanAllAt(Split(s, '\n'), i);
    }
  }

  /** `parseSuggestion` returns one name per line, none with a newline left in it. */
  lemma ParseSuggestionLines(s: string)
    ensures |ParseSuggestion(s)| == Count(s, '\n') + 1
    ensures forall i :: 0 <= i < |ParseSuggestion(s)| ==> '\n' !in ParseSuggestion(s)[i]
  {
    SplitCount(s, '\n');
    SplitPiecesFree(s, '\n');
    CleanAllNewlineFree(Split(s, '\n'));
  }

  lemma CleanAllNewlineFree(pieces: seq<string>)
    requires forall i :: 0 <= i < |pieces| ==> '\n' !in pieces[i]
    ensures forall i :: 0 <= i < |pieces| ==> '\n' !in CleanAll(pieces)[i]
  {
    forall i | 0 <= i < |pieces| ensures '\n' !in CleanAll(pieces)[i] {
      CleanAllAt(pieces, i);
      CleanPieceKeepsChars(pieces[i]);
    }
  }

  /** The filter in `addItems` (line 78): the non-blank names, in their order. */
  function NonBlank(names: seq<string>): (r: seq<string>)
    ensures |r| <= |names|
    decreases |names|
  {
    if names == [] then []
    else (if IsBlank(names[0]) then [] else [names[0]]) + NonBlank(names[1..])
  }

  /** The filter keeps exactly the non-blank names: nothing blank, nothing invented, nothing non-blank lost. */
  lemma {:induction false} NonBlankKeepsExactlyNonBlank(names: seq<string>)
    ensures forall x :: x in NonBlank(names) <==> x in names && !IsBlank(x)
    decreases |names|
  {
    if names != [] {
      NonBlankKeepsExactlyNonBlank(names[1..]);
      assert forall x :: x in names <==> x == names[0] || x in names[1..];
    }
  }

  lemma {:induction false} NonBlankSnoc(names: seq<string>, x: string)
    ensures NonBlank(names + [x]) == NonBlank(names) + (if IsBlank(x) then [] else [x])
    decreases |names|
  {
    if names == [] {
      assert names + [x] == [x];
    } else {
      assert (names + [x])[1..] == names[1..] + [x];
      NonBlankSnoc(names[1..], x);
      AppendAssoc(if IsBlank(names[0]) then [] else [names[0]], NonBlank(names[1..]), if IsBlank(x) then [] else [x]);
    }
  }

  /** A non-blank last name is also the last name the filter keeps. */
  lemma NonBlankEndsWithLast(names: seq<string>)
    requires names != []
    ensures !IsBlank(names[|names| - 1]) ==>
      NonBlank(names) != [] && NonBlank(names)[|NonBlank(names)| - 1] == names[|names| - 1]
  {
    NonBlankSnoc(names[..|names| - 1], names[|names| - 1]);
    assert names[..|names| - 1] + [names[|names| - 1]] == names;
  }

  /** The listener's progress between two chunks: the `result` buffer and the candidates added so far. */
  datatype Progress = Progress(buffer: string, added: seq<string>)

  /**
   * One chunk arriving (lines 57-66). Without a newline in the buffer nothing
   * is added. With one, the buffer is parsed, the buffer becomes the CLEANED
   * last piece, and every non-blank piece is added, the last one included,
   * because the result of `dropLast(1)` at line 64 is discarded.
   */
  function Step(buffer: string, chunk: string): Progress {
    var acc := buffer + chunk;
    if '\n' !in acc then Progress(acc, [])
    else
      var names := ParseSuggestion(acc);
      Progress(names[|names| - 1], NonBlank(names))
  }

  /** What one chunk does: the buffer never keeps a newline, and a non-blank buffer left by a newline was also added. */
  lemma StepSpec(buffer: string, chunk: string)
    ensures '\n' !in Step(buffer, chunk).buffer
    ensures '\n' !in buffer + chunk ==> Step(buffer, chunk) == Progress(buffer + chunk, [])
    ensures '\n' in buffer + chunk ==>
      var pieces := Split(buffer + chunk, '\n');
      Step(buffer, chunk).buffer == CleanPiece(pieces[|pieces| - 1])
    ensures '\n' in buffer + chunk && !IsBlank(Step(buffer, chunk).buffer) ==>
      var added := Step(buffer, chunk).added;
      added != [] && added[|added| - 1] == Step(buffer, chunk).buffer
  {
    var acc := buffer + chunk;
    if '\n' in acc {
      var names := ParseSuggestion(acc);
      assert Step(buffer, chunk) == Progress(names[|names| - 1], NonBlank(names));
      ParseSuggestionLines(acc);
      assert '\n' !in names[|names| - 1];
      CleanAllAt(Split(acc, '\n'), |names| - 1);
      NonBlankEndsWithLast(names);
    }
  }

  /** The progress after the chunks seen so far, in arrival order. */
  function Feed(chunks: seq<string>): Progress
    decreases |chunks|
  {
    if chunks == [] then Progress("", [])
    else
      var before := Feed(chunks[..|chunks| - 1]);
      var r := Step(before.buffer, chunks[|chunks| - 1]);
      Progress(r.buffer, before.added + r.added)
  }

  lemma FeedBufferSingleLine(chunks: seq<string>)
    ensures '\n' !in Feed(chunks).buffer
  {
    if chunks != [] {
      var before := Feed(chunks[..|chunks| - 1]);
      StepSpec(before.buffer, chunks[|chunks| - 1]);
    }
  }

  lemma FeedSnoc(chunks: seq<string>, i: nat)
    requires i < |chunks|
    ensures var before := Feed(chunks[..i]);
      var step := Step(before.buffer, chunks[i]);
      Feed(chunks[..i + 1]) == Progress(step.buffer, before.added + step.added)
  {
    assert chunks[..i + 1][..i] == chunks[..i];
  }

  /** Everything the listener adds for a stream: the chunk loop, then the flush at lines 70-71. */
  function StreamCandidates(chunks: seq<string>): seq<string> {
    var p := Feed(chunks);
    var names := ParseSuggestion(p.buffer);
    p.added + [names[|names| - 1]]
  }

  /** The flush adds exactly one candidate, the cleaned remaining buffer, blank or not. */
  lemma FlushAddsCleanedBuffer(chunks: seq<string>)
    ensures StreamCandidates(chunks) == Feed(chunks).added + [CleanPiece(Feed(chunks).buffer)]
  {
    FeedBufferSingleLine(chunks);
    SplitFree(Feed(chunks).buffer, '\n');
  }

  /** Without a newline, the chunks only accumulate in the buffer. */
  lemma {:induction false} FeedWithoutNewline(chunks: seq<string>)
    requires '\n' !in Concat(chunks)
    ensures Feed(chunks) == Progress(Concat(chunks), [])
    decreases |chunks|
  {
    if chunks != [] {
      var init := chunks[..|chunks| - 1];
      FeedWithoutNewline(init);
      StepSpec(Concat(init), chunks[|chunks| - 1]);
    }
  }

  /** A stream without any newline yields exactly one candidate: the whole text, cleaned. */
  lemma SingleLineStream(chunks: seq<string>)
    requires '\n' !in Concat(chunks)
    ensures StreamCandidates(chunks) == [CleanPiece(Concat(chunks))]
  {
    FeedWithoutNewline(chunks);
    FlushAddsCleanedBuffer(chunks);
  }

  /** Candidates are only appended: what was added after a prefix of the stream stays, in place, at the front. */
  lemma {:induction false} FeedOnlyAppends(chunks: seq<string>, n: nat)
    requires n <= |chunks|
    ensures var early := Feed(chunks[..n]).added;
      |early| <= |Feed(chunks).added| && Feed(chunks).added[..|early|] == early
    decreases |chunks| - n
  {
    if n < |chunks| {
      var init := chunks[..|chunks| - 1];
      assert init[..n] == chunks[..n];
      FeedOnlyAppends(init, n);
      var early := Feed(chunks[..n]).added;
      var mid := Feed(init).added;
      assert Feed(chunks).added == mid + Step(Feed(init).buffer, chunks[|chunks| - 1]).added;
      assert (mid + Step(Feed(init).buffer, chunks[|chunks| - 1]).added)[..|early|] == mid[..|early|];
    } else {
      assert chunks[..n] == chunks;
    }
  }

  /** Parsing text whose lines are plain words gives those words. */
  lemma ParsePlainLines(s: string, words: seq<string>)
    requires Split(s, '\n') == words
    requires forall i :: 0 <= i < |words| ==> words[i] == CleanPiece(words[i])
    ensures ParseSuggestion(s) == words
  {
    var r := ParseSuggestion(s);
    forall i | 0 <= i < |r| ensures r[i] == words[i] {
      CleanAllAt(words, i);
    }
  }

  lemma ParseFirstChunk(s: string)
    requires s == "foo\nba"
    ensures ParseSuggestion(s) == ["foo", "ba"]
  {
    SplitFreeThenSep("foo", "ba", '\n');
    SplitFree("ba", '\n');
    assert s == "foo" + ['\n'] + "ba";
    CleanPlainWord("foo");
    CleanPlainWord("ba");
    ParsePlainLines(s, ["foo", "ba"]);
  }

  lemma FirstChunkOfExample(chunk: string)
    requires chunk == "foo\nba"
    ensures Step("", chunk) == Progress("ba", ["foo", "ba"])
  {
    assert "" + chunk == chunk;
    assert chunk[3] == '\n';
    ParseFirstChunk(chunk);
    KeepsPlainWords(["foo", "ba"]);
  }

  /** The filter keeps a list of names that all start with a visible character. */
  lemma KeepsPlainWords(names: seq<string>)
    requires forall i :: 0 <= i < |names| ==> names[i] != [] && !IsWhitespace(names[i][0])
    ensures NonBlank(names) == names
    decreases |names|
  {
    if names != [] {
      KeepsPlainWords(names[1..]);
      assert !IsBlank(names[0]);
      assert [names[0]] + names[1..] == names;
    }
  }

  /**
   * As written, a fragment that no newline has ended yet is added as a
   * candidate: "ba" below is added when the chunk arrives and once more by
   * the flush.
   */
  lemma TrailingFragmentAdded(c: seq<string>)
    requires c == ["foo\nba"]
    ensures StreamCandidates(c) == ["foo", "ba", "ba"]
  {
    FeedOfExample(c);
    FlushAddsCleanedBuffer(c);
    CleanPlainWord("ba");
    assert StreamCandidates(c) == ["foo", "ba"] + ["ba"];
  }

  /** As written, mid-stream the listener adds more candidates than the stream has lines. */
  lemma MoreCandidatesThanLines(c: seq<string>)
    requires c == ["foo\nba"]
    ensures |Feed(c).added| > Count(Concat(c), '\n')
  {
    FeedOfExample(c);
    assert Concat(c) == c[0] by { assert c[..0] == []; }
    OneLineBreak(c[0]);
  }

  lemma OneLineBreak(s: string)
    requires s == "foo\nba"
    ensures Count(s, '\n') == 1
  {
    CountAppend("foo", "\nba", '\n');
    assert s == "foo" + "\nba";
  }

  lemma FeedOfExample(c: seq<string>)
    requires c == ["foo\nba"]
    ensures Feed(c) == Progress("ba", ["foo", "ba"])
  {
    FeedSnoc(c, 0);
    assert c[..0] == [] && c[..1] == c;
    FirstChunkOfExample(c[0]);
    assert [] + ["foo", "ba"] == ["foo", "ba"];
  }

  /** A name that survives cleaning as it is and holds no newline. */
  predicate PlainWord(w: string) {
    w != [] && !IsDigit(w[0]) && w[0] != '`' && !IsWhitespace(w[0]) && !IsWhitespace(w[|w| - 1]) && '\n' !in w
  }

  /**
   * The buffer keeps the CLEANED last piece, so where the chunks break
   * changes the names: a space the first chunk ends with is trimmed away
   * before the next chunk arrives, while the same text in one chunk keeps
   * it. With `a`, `w1`, `w2` = `"x"`, `"foo"`, `"bar"`: `["x\nfoo ", "bar"]`
   * leaves `"foobar"`, `["x\nfoo bar"]` leaves `"foo bar"`.
   */
  lemma ChunkBoundaryChangesNames(a: string, w1: string, w2: string)
    requires '\n' !in a && PlainWord(w1) && PlainWord(w2)
    ensures var split := [a + "\n" + w1 + " ", w2];
      var whole := [a + "\n" + w1 + " " + w2];
      Concat(split) == Concat(whole) &&
      Feed(split).buffer == w1 + w2 && Feed(whole).buffer == w1 + " " + w2 &&
      w1 + w2 != w1 + " " + w2
  {
    FeedTwo(a + "\n" + w1 + " ", w2);
    FeedOne(a + "\n" + w1 + " " + w2);
    SplitBuffer(a, w1, w2);
    WholeBuffer(a, w1, w2);
    assert |w1 + w2| != |w1 + " " + w2|;
  }

  /** Split after the space, the buffer loses the space. */
  lemma SplitBuffer(a: string, w1: string, w2: string)
    requires '\n' !in a && PlainWord(w1) && PlainWord(w2)
    ensures Feed([a + "\n" + w1 + " ", w2]).buffer == w1 + w2
  {
    FeedTwo(a + "\n" + w1 + " ", w2);
    AppendAssoc(a + "\n", w1, " ");
    LastPieceAfterBreak(a, w1 + " ");
    CleanTrailingSpace(w1);
    assert '\n' !in w1 + w2;
    StepSpec(w1, w2);
  }

  /** In one chunk, the buffer keeps the space. */
  lemma WholeBuffer(a: string, w1: string, w2: string)
    requires '\n' !in a && PlainWord(w1) && PlainWord(w2)
    ensures Feed([a + "\n" + w1 + " " + w2]).buffer == w1 + " " + w2
  {
    var t := w1 + " " + w2;
    FeedOne(a + "\n" + w1 + " " + w2);
    AppendAssoc(a + "\n", w1, " ");
    AppendAssoc(a + "\n", w1 + " ", w2);
    assert '\n' !in t;
    LastPieceAfterBreak(a, t);
    assert t[0] == w1[0] && t[|t| - 1] == w2[|w2| - 1];
    CleanPlainWord(t);
  }

  /** One chunk: the text is the chunk, the buffer what one step leaves. */
  lemma FeedOne(c: string)
    ensures Concat([c]) == c && Feed([c]).buffer == Step("", c).buffer
  {
    FeedSnoc([c], 0);
    assert [c][..0] == [] && [c][..1] == [c];
  }

  /** Two chunks: the text is their concatenation, the buffer what two steps leave. */
  lemma FeedTwo(c1: string, c2: string)
    ensures Concat([c1, c2]) == c1 + c2
    ensures Feed([c1, c2]).buffer == Step(Step("", c1).buffer, c2).buffer
  {
    var cs := [c1, c2];
    assert cs[..1] == [c1] && cs[..2] == cs;
    FeedOne(c1);
    FeedSnoc(cs, 1);
  }

  /** A chunk with one newline, on an empty buffer, leaves the cleaned text after the newline. */
  lemma LastPieceAfterBreak(a: string, t: string)
    requires '\n' !in a && '\n' !in t
    ensures Step("", a + "\n" + t).buffer == CleanPiece(t)
  {
    var chunk := a + "\n" + t;
    assert "" + chunk == chunk;
    SplitFreeThenSep(a, t, '\n');
    SplitFree(t, '\n');
    StepSpec("", chunk);
  }

  /** A trailing space goes when the piece is cleaned. */
  lemma CleanTrailingSpace(w: string)
    requires PlainWord(w)
    ensures CleanPiece(w + " ") == w
  {
    var p := w + " ";
    assert p[0] == w[0];
    assert DigitRun(p) == 0;
    assert TrimStart(p) == p;
    assert p[..|p| - 1] == w;
    assert TrimEnd(p) == TrimEnd(w);
    CleanPlainWord(w);
  }

  /** One chunk as the code evidently intends: only pieces a newline has ended are added. */
  function IntendedStep(buffer: string, chunk: string): (r: Progress)
    ensures '\n' !in r.buffer
    ensures '\n' !in buffer ==> |r.added| <= Count(chunk, '\n')
  {
    var acc := buffer + chunk;
    if '\n' !in acc then Progress(acc, [])
    else
      var names := ParseSuggestion(acc);
      ParseSuggestionLines(acc);
      CountAppend(buffer, chunk, '\n');
      CountZeroIffAbsent(buffer, '\n');
      Progress(names[|names| - 1], NonBlank(names[..|names| - 1]))
  }

  function IntendedFeed(chunks: seq<string>): (r: Progress)
    ensures '\n' !in r.buffer
    decreases |chunks|
  {
    if chunks == [] then Progress("", [])
    else
      var before := IntendedFeed(chunks[..|chunks| - 1]);
      var r := IntendedStep(before.buffer, chunks[|chunks| - 1]);
      Progress(r.buffer, before.added + r.added)
  }

  /** Intended behaviour: mid-stream, every added candidate is paid for by a distinct newline of the stream. */
  lemma {:induction false} IntendedAddsAtMostOnePerLine(chunks: seq<string>)
    ensures |IntendedFeed(chunks).added| <= Count(Concat(chunks), '\n')
    decreases |chunks|
  {
    if chunks != [] {
      var init := chunks[..|chunks| - 1];
      IntendedAddsAtMostOnePerLine(init);
      CountAppend(Concat(init), chunks[|chunks| - 1], '\n');
    }
  }

  /** The completion popup's item list as the listener sees it. */
  class Lookup {
    var items: seq<string>

    constructor ()
      ensures items == []
    {
      items := [];
    }

    /** `addItem` (lines 92-94). */
    method AddItem(name: string)
      modifies this
      ensures items == old(items) + [name]
    {
      items := items + [name];
    }

    /** `addItems` (lines 76-84): adds the non-blank names in order and returns the last name. */
    method AddItems(names: seq<string>) returns (last: string)
      requires |names| > 0
      modifies this
      ensures items == old(items) + NonBlank(names)
      ensures last == names[|names| - 1]
    {
      var i := 0;
      while i < |names|
        invariant 0 <= i <= |names|
        invariant items == old(items) + NonBlank(names[..i])
      {
        NonBlankSnoc(names[..i], names[i]);
        assert names[..i + 1] == names[..i] + [names[i]];
        if !IsBlank(names[i]) {
          AddItem(names[i]);
        }
        i := i + 1;
      }
      assert names[..i] == names;
      last := names[|names| - 1];
    }
  }

  /** The body of the `collect` lambda (lines 57-66): one chunk arrives. */
  method OnChunk(lookup: Lookup, result: string, chunk: string) returns (next: string)
    modifies lookup
    ensures next == Step(result, chunk).buffer
    ensures lookup.items == old(lookup.items) + Step(result, chunk).added
  {
    next := result + chunk;
    if '\n' in next {
      var suggestionNames := ParseSuggestion(next);
      next := suggestionNames[|suggestionNames| - 1];
      // line 64 discards the shortened list, so every name is handed on
      var _ := lookup.AddItems(suggestionNames);
    }
  }

  /** The collect loop and the final flush of `activeLookupChanged` (lines 55-71). */
  method CollectSuggestions(lookup: Lookup, chunks: seq<string>)
    modifies lookup
    ensures lookup.items == old(lookup.items) + StreamCandidates(chunks)
  {
    var result := "";
    var i := 0;
    while i < |chunks|
      invariant 0 <= i <= |chunks|
      invariant result == Feed(chunks[..i]).buffer
      invariant lookup.items == old(lookup.items) + Feed(chunks[..i]).added
    {
      FeedSnoc(chunks, i);
      AppendAssoc(old(lookup.items), Feed(chunks[..i]).added, Step(result, chunks[i]).added);
      result := OnChunk(lookup, result, chunks[i]);
      i := i + 1;
    }
    assert chunks[..i] == chunks;
    var suggestionNames := ParseSuggestion(result);
    AppendAssoc(old(lookup.items), Feed(chunks).added, [suggestionNames[|suggestionNames| - 1]]);
    lookup.AddItem(suggestionNames[|suggestionNames| - 1]);
  }
}
