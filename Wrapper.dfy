/**
 * The greedy line wrapper (`wrap_text`). The caption is split into words and
 * the words are packed onto lines, a further word joining the open line while
 * the line with it measures at most the maximum width. The width of a string
 * under the main font (the right edge of `draw.textbbox((0, 0), s, font)`)
 * is the parameter `width`, about which nothing is assumed.
 */
module LineWrapper {
  import opened PyText

  /** Greedy fill: when the open line holds `words[..j]`, the index just past
      the last word it ends up holding. */
  function FillEnd(width: string -> int, words: seq<string>, j: nat, maxWidth: int): (k: nat)
    requires 1 <= j <= |words|
    ensures j <= k <= |words|
    decreases |words| - j
  {
    if j < |words| && width(JoinSpaces(words[..j]) + " " + words[j]) <= maxWidth
    then FillEnd(width, words, j + 1, maxWidth)
    else j
  }

  /** Reference definition of the wrap on words: the words each line holds. */
  function Groups(width: string -> int, words: seq<string>, maxWidth: int): seq<seq<string>>
    decreases |words|
  {
    if words == [] then []
    else
      var k := FillEnd(width, words, 1, maxWidth);
      [words[..k]] + Groups(width, words[k..], maxWidth)
  }

  /** Each group of words written as one line. */
  function Lines(gs: seq<seq<string>>): seq<string> {
    seq(|gs|, i requires 0 <= i < |gs| => JoinSpaces(gs[i]))
  }

  /** The words of each line. */
  function LineWords(lines: seq<string>): seq<seq<string>> {
    seq(|lines|, i requires 0 <= i < |lines| => Words(lines[i]))
  }

  /** The lines `wrap_text(draw, text, font, max_width)` returns. */
  function Wrap(width: string -> int, text: string, maxWidth: int): seq<string> {
    Lines(Groups(width, Words(text), maxWidth))
  }

  /** `wrap_text`: pop the first word to open a line, then pop further words
      onto it while the line with the next word fits. */
  method WrapText(width: string -> int, text: string, maxWidth: int) returns (lines: seq<string>)
    ensures lines == Wrap(width, text, maxWidth)
  {
    lines := [];
    var words := Words(text);
    ghost var all := words;
    while words != []
      invariant lines + Lines(Groups(width, words, maxWidth)) == Lines(Groups(width, all, maxWidth))
      decreases |words|
    {
      ghost var w0 := words;
      var line;
      line, words := FillLine(width, words, maxWidth);
      LinesOfGroups(width, w0, maxWidth);
      lines := lines + [line];
    }
  }

  /** The inner loop of `wrap_text` (lines 54-56): pop the first word, then
      pop further words onto the line while the line with the next word
      fits. The line holds the words up to the greedy fill end. */
  method FillLine(width: string -> int, words: seq<string>, maxWidth: int)
    returns (line: string, rest: seq<string>)
    requires words != []
    ensures var k := FillEnd(width, words, 1, maxWidth);
      line == JoinSpaces(words[..k]) && rest == words[k..]
  {
    line := words[0];
    rest := words[1..];
    ghost var j := 1;
    assert words[..1] == [line];
    while rest != [] && width(line + " " + rest[0]) <= maxWidth
      invariant 1 <= j <= |words| && rest == words[j..] && line == JoinSpaces(words[..j])
      invariant FillEnd(width, words, j, maxWidth) == FillEnd(width, words, 1, maxWidth)
      decreases |rest|
    {
      assert words[..j + 1][..j] == words[..j];
      line := line + " " + rest[0];
      rest := rest[1..];
      j := j + 1;
    }
  }

  /** The first line of the reference wrap of `words` holds the words up to
      the greedy fill end, and the other lines wrap the remaining words. */
  lemma LinesOfGroups(width: string -> int, words: seq<string>, maxWidth: int)
    requires words != []
    ensures var k := FillEnd(width, words, 1, maxWidth);
      Lines(Groups(width, words, maxWidth))
      == [JoinSpaces(words[..k])] + Lines(Groups(width, words[k..], maxWidth))
  {
    var k := FillEnd(width, words, 1, maxWidth);
    var rest := Groups(width, words[k..], maxWidth);
    assert Groups(width, words, maxWidth) == [words[..k]] + rest;
    LinesCons(words[..k], rest);
  }

  lemma LinesCons(g: seq<string>, gs: seq<seq<string>>)
    ensures Lines([g] + gs) == [JoinSpaces(g)] + Lines(gs)
  {
    var a, b := Lines([g] + gs), [JoinSpaces(g)] + Lines(gs);
    forall i | 0 <= i < |a| ensures a[i] == b[i] {
      if i > 0 { assert ([g] + gs)[i] == gs[i - 1]; }
    }
  }

  /** Every step of the fill checked the line with the new word against the
      limit, so a line that took at least one further word fits. */
  lemma {:induction false} FillEndFits(width: string -> int, words: seq<string>, j: nat, maxWidth: int)
    requires 1 <= j <= |words|
    ensures FillEnd(width, words, j, maxWidth) > j ==>
      width(JoinSpaces(words[..FillEnd(width, words, j, maxWidth)])) <= maxWidth
    decreases |words| - j
  {
    if j < |words| && width(JoinSpaces(words[..j]) + " " + words[j]) <= maxWidth {
      assert words[..j + 1][..j] == words[..j];
      FillEndFits(width, words, j + 1, maxWidth);
    }
  }

  /** The fill stops only at the end of the words or where the next word
      would make the line too wide. */
  lemma {:induction false} FillEndGreedy(width: string -> int, words: seq<string>, j: nat, maxWidth: int)
    requires 1 <= j <= |words|
    ensures var k := FillEnd(width, words, j, maxWidth);
      k < |words| ==> width(JoinSpaces(words[..k]) + " " + words[k]) > maxWidth
    decreases |words| - j
  {
    if j < |words| && width(JoinSpaces(words[..j]) + " " + words[j]) <= maxWidth {
      FillEndGreedy(width, words, j + 1, maxWidth);
    }
  }

  /** The reference groups give back the words, in order; none is empty;
      there are no more groups than words. */
  lemma {:induction false} GroupsPartition(width: string -> int, words: seq<string>, maxWidth: int)
    ensures var gs := Groups(width, words, maxWidth);
      && Flatten(gs) == words
      && |gs| <= |words|
      && (forall i :: 0 <= i < |gs| ==> gs[i] != [])
    decreases |words|
  {
    if words != [] {
      var k := FillEnd(width, words, 1, maxWidth);
      var rest := Groups(width, words[k..], maxWidth);
      var gs := [words[..k]] + rest;
      GroupsPartition(width, words[k..], maxWidth);
      assert words[..k] + words[k..] == words;
      assert gs[1..] == rest;
      forall i | 0 <= i < |gs| ensures gs[i] != [] {
        if i > 0 { assert gs[i] == rest[i - 1]; }
      }
    }
  }

  /** A reference group of two or more words fits the limit. */
  lemma {:induction false} GroupsFit(width: string -> int, words: seq<string>, maxWidth: int)
    ensures forall g :: g in Groups(width, words, maxWidth) && |g| >= 2 ==> width(JoinSpaces(g)) <= maxWidth
    decreases |words|
  {
    if words != [] {
      var k := FillEnd(width, words, 1, maxWidth);
      var rest := Groups(width, words[k..], maxWidth);
      var gs := [words[..k]] + rest;
      assert Groups(width, words, maxWidth) == gs;
      GroupsFit(width, words[k..], maxWidth);
      FillEndFits(width, words, 1, maxWidth);
      assert |words[..k]| == k;
    }
  }

  /** Each reference group is closed only because the first word of the next
      one would not fit on it. */
  lemma {:induction false} GroupsClosed(width: string -> int, words: seq<string>, maxWidth: int)
    ensures var gs := Groups(width, words, maxWidth);
      forall i :: 0 <= i < |gs| - 1 ==> ClosedBeforeNext(width, gs, i, maxWidth)
    decreases |words|
  {
    if words != [] {
      var k := FillEnd(width, words, 1, maxWidth);
      var rest := Groups(width, words[k..], maxWidth);
      var gs := [words[..k]] + rest;
      GroupsClosed(width, words[k..], maxWidth);
      GroupsPartition(width, words[k..], maxWidth);
      FillEndGreedy(width, words, 1, maxWidth);
      forall i | 0 <= i < |gs| - 1 ensures ClosedBeforeNext(width, gs, i, maxWidth) {
        assert gs[i + 1] == rest[i];
        if i > 0 {
          assert gs[i] == rest[i - 1];
          assert ClosedBeforeNext(width, rest, i - 1, maxWidth);
        } else {
          assert rest[0][0] == words[k] by {
            assert Flatten(rest) == rest[0] + Flatten(rest[1..]);
            assert words[k..][0] == words[k];
          }
        }
      }
    }
  }

  /** Line `i` is followed by another whose first word would not fit on it. */
  predicate ClosedBeforeNext(width: string -> int, gs: seq<seq<string>>, i: int, maxWidth: int)
    requires 0 <= i < |gs| - 1
  {
    gs[i + 1] != [] &&
    width(JoinSpaces(gs[i]) + " " + gs[i + 1][0]) > maxWidth
  }

  /** Writing each group as a line and joining the lines with single spaces
      is the same as joining all the words with single spaces. */
  lemma {:induction false} JoinLines(gs: seq<seq<string>>)
    requires forall i :: 0 <= i < |gs| ==> gs[i] != []
    ensures JoinSpaces(Lines(gs)) == JoinSpaces(Flatten(gs))
    decreases |gs|
  {
    if gs != [] {
      var rest := gs[1..];
      assert Lines(gs) == [JoinSpaces(gs[0])] + Lines(rest);
      if rest == [] {
        assert Flatten(gs) == gs[0];
      } else {
        JoinLines(rest);
        JoinAppend([JoinSpaces(gs[0])], Lines(rest));
        assert Flatten(rest) == rest[0] + Flatten(rest[1..]);
        JoinAppend(gs[0], Flatten(rest));
      }
    }
  }

  /** A line made of words splits back into exactly those words. */
  lemma LineWordsOfLines(gs: seq<seq<string>>)
    requires forall i, k :: 0 <= i < |gs| && 0 <= k < |gs[i]| ==> IsWord(gs[i][k])
    ensures LineWords(Lines(gs)) == gs
  {
    forall i | 0 <= i < |gs| ensures Words(JoinSpaces(gs[i])) == gs[i] {
      WordsOfJoin(gs[i]);
    }
  }

  /** The groups of the reference wrap of `text`, with what is known of them. */
  lemma WrapGroups(width: string -> int, text: string, maxWidth: int)
    ensures var gs := Groups(width, Words(text), maxWidth);
      && LineWords(Wrap(width, text, maxWidth)) == gs
      && Flatten(gs) == Words(text)
      && (forall i :: 0 <= i < |gs| ==> gs[i] != [])
  {
    var words := Words(text);
    var gs := Groups(width, words, maxWidth);
    GroupsPartition(width, words, maxWidth);
    forall i, k | 0 <= i < |gs| && 0 <= k < |gs[i]| ensures IsWord(gs[i][k]) {
      FlattenMember(gs, i, k);
    }
    LineWordsOfLines(gs);
  }

  /** An element of one of the lists is an element of their concatenation. */
  lemma {:induction false} FlattenMember(gs: seq<seq<string>>, i: int, k: int)
    requires 0 <= i < |gs| && 0 <= k < |gs[i]|
    ensures gs[i][k] in Flatten(gs)
    decreases i
  {
    if i > 0 {
      FlattenMember(gs[1..], i - 1, k);
    }
  }

  /** Nothing is lost and no word is split: the words of the lines, in order,
      are the words of the caption, every line holds at least one word, and
      joining the lines with single spaces gives the caption's words joined
      with single spaces. */
  lemma WrapKeepsWords(width: string -> int, text: string, maxWidth: int)
    ensures var lines := Wrap(width, text, maxWidth);
      && Flatten(LineWords(lines)) == Words(text)
      && (forall i :: 0 <= i < |lines| ==> Words(lines[i]) != [])
      && JoinSpaces(lines) == JoinSpaces(Words(text))
  {
    var gs := Groups(width, Words(text), maxWidth);
    WrapGroups(width, text, maxWidth);
    var lines := Wrap(width, text, maxWidth);
    forall i | 0 <= i < |lines| ensures Words(lines[i]) != [] {
      assert Words(lines[i]) == LineWords(lines)[i];
    }
    JoinLines(gs);
  }

  /** The wrap is empty exactly when the caption has no words (is all
      whitespace), and it never has more lines than the caption has words. */
  lemma WrapSize(width: string -> int, text: string, maxWidth: int)
    ensures |Wrap(width, text, maxWidth)| <= |Words(text)|
    ensures Wrap(width, text, maxWidth) == [] <==> Words(text) == []
    ensures Wrap(width, text, maxWidth) == [] <==> AllSpace(text)
  {
    GroupsPartition(width, Words(text), maxWidth);
    WordsEmpty(text);
  }

  /** Width bound: a line wider than the limit holds a single word. */
  lemma WrapWidthBound(width: string -> int, text: string, maxWidth: int)
    ensures var lines := Wrap(width, text, maxWidth);
      forall i :: 0 <= i < |lines| && width(lines[i]) > maxWidth ==> |Words(lines[i])| == 1
  {
    var gs := Groups(width, Words(text), maxWidth);
    GroupsFit(width, Words(text), maxWidth);
    WrapGroups(width, text, maxWidth);
    var lines := Wrap(width, text, maxWidth);
    forall i | 0 <= i < |lines| && width(lines[i]) > maxWidth ensures |Words(lines[i])| == 1 {
      assert Words(lines[i]) == LineWords(lines)[i] == gs[i];
    }
  }

  /** Greedy maximality: the first word of every following line would have
      made the line before it too wide. */
  lemma WrapGreedy(width: string -> int, text: string, maxWidth: int)
    ensures var lines := Wrap(width, text, maxWidth);
      forall i :: 0 <= i < |lines| - 1 ==> NextWordOverflows(width, lines, i, maxWidth)
  {
    var gs := Groups(width, Words(text), maxWidth);
    GroupsClosed(width, Words(text), maxWidth);
    WrapGroups(width, text, maxWidth);
    var lines := Wrap(width, text, maxWidth);
    forall i | 0 <= i < |lines| - 1 ensures NextWordOverflows(width, lines, i, maxWidth) {
      assert ClosedBeforeNext(width, gs, i, maxWidth);
      assert Words(lines[i + 1]) == LineWords(lines)[i + 1] == gs[i + 1];
    }
  }

  /** The line after line `i` is non-empty and its first word does not fit
      on line `i`. */
  predicate NextWordOverflows(width: string -> int, lines: seq<string>, i: int, maxWidth: int)
    requires 0 <= i < |lines| - 1
  {
    Words(lines[i + 1]) != [] && width(lines[i] + " " + Words(lines[i + 1])[0]) > maxWidth
  }

  /** A caption without whitespace becomes exactly one line, however wide. */
  lemma WrapSingleWord(width: string -> int, text: string, maxWidth: int)
    requires IsWord(text)
    ensures Wrap(width, text, maxWidth) == [text]
  {
    WordsOfJoin([text]);
    assert Words(text) == [text];
    assert FillEnd(width, [text], 1, maxWidth) == 1;
    assert [text][1..] == [] && [text][..1] == [text];
    assert Groups(width, [text], maxWidth) == [[text]];
    assert Lines([[text]]) == [JoinSpaces([text])];
  }

  /** Wrapping is idempotent: re-wrapping the space-joined lines at the same
      width gives the same lines. */
  lemma WrapIdempotent(width: string -> int, text: string, maxWidth: int)
    ensures var lines := Wrap(width, text, maxWidth);
      Wrap(width, JoinSpaces(lines), maxWidth) == lines
  {
    var lines := Wrap(width, text, maxWidth);
    WrapKeepsWords(width, text, maxWidth);
    WordsIdempotent(text);
    assert JoinSpaces(lines) == JoinSpaces(Words(text));
    assert Words(JoinSpaces(lines)) == Words(text);
    assert Wrap(width, JoinSpaces(lines), maxWidth) == Lines(Groups(width, Words(text), maxWidth));
  }
}
