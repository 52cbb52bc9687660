/**
 Line breaking on the digest card (agents/digest_card.py). A layout is the list of word
 positions where lines start and end; the greedy layout is faithful and, for a width that
 grows with the words, uses the fewest lines.
 */
module DigestWrap {
  import opened Common

  type Width = string -> real
  const MARK := " \U{2026}"

  // ----- words of a text -----

  /** What a text is split at, beyond ASCII too. */
  predicate IsSpace(c: char) {
    '\t' <= c <= '\r' || '\U{001C}' <= c <= ' ' || '\U{2000}' <= c <= '\U{200A}'
    || c in {'\U{0085}', '\U{00A0}', '\U{1680}', '\U{2028}', '\U{2029}', '\U{202F}', '\U{205F}', '\U{3000}'}
  }

  lemma SpacesAre(c: char)
    ensures IsSpace(c) <==>
      c in {'\t', '\n', '\U{000B}', '\U{000C}', '\r', '\U{001C}', '\U{001D}', '\U{001E}', '\U{001F}', ' ', '\U{0085}',
            '\U{00A0}', '\U{1680}', '\U{2000}', '\U{2001}', '\U{2002}', '\U{2003}', '\U{2004}', '\U{2005}', '\U{2006}',
            '\U{2007}', '\U{2008}', '\U{2009}', '\U{200A}', '\U{2028}', '\U{2029}', '\U{202F}', '\U{205F}', '\U{3000}'}
  {
    if IsSpace(c) {
      var n := c as int;
      assert 9 <= n <= 13 || 28 <= n <= 32 || 0x2000 <= n <= 0x200A || n in {0x85, 0xA0, 0x1680, 0x2028, 0x2029, 0x202F, 0x205F, 0x3000};
    }
  }

  function WordEnd(text: string, i: nat): (j: nat)
    requires i <= |text|
    ensures i <= j <= |text|
    ensures j < |text| ==> IsSpace(text[j])
    decreases |text| - i
  {
    if i < |text| && !IsSpace(text[i]) then WordEnd(text, i + 1) else i
  }

  function Split(text: string): (words: seq<string>)
    ensures forall w :: w in words ==> w != ""
    decreases |text|
  {
    if text == "" then []
    else if IsSpace(text[0]) then Split(text[1..])
    else
      var k := WordEnd(text, 1);
      [text[..k]] + Split(text[k..])
  }

  function Join(words: seq<string>): string {
    if words == [] then ""
    else if |words| == 1 then words[0]
    else words[0] + " " + Join(words[1..])
  }

  lemma {:induction false} JoinAppend(a: seq<string>, b: seq<string>)
    requires a != [] && b != []
    ensures Join(a + b) == Join(a) + " " + Join(b)
  {
    if |a| == 1 {
      assert (a + b)[1..] == b;
    } else {
      assert (a + b)[1..] == a[1..] + b;
      JoinAppend(a[1..], b);
      assert a[0] + " " + (Join(a[1..]) + " " + Join(b)) == (a[0] + " " + Join(a[1..])) + " " + Join(b);
    }
  }

  /** Splitting drops whitespace only, so the words joined by single spaces are no longer than the text. */
  lemma {:induction false} JoinSplitLength(text: string)
    ensures |Join(Split(text))| <= |text|
    decreases |text|
  {
    if text != "" {
      if IsSpace(text[0]) {
        JoinSplitLength(text[1..]);
      } else {
        var k := WordEnd(text, 1);
        var rest := text[k..];
        if rest == "" {
          assert Split(text) == [text[..k]];
        } else {
          JoinSplitLength(rest[1..]);
          assert Split(rest) == Split(rest[1..]);
          if Split(rest) == [] {
            assert Split(text) == [text[..k]];
          } else {
            assert Split(text)[1..] == Split(rest);
          }
        }
      }
    }
  }

  // ----- layouts -----

  predicate Fits(words: seq<string>, width: Width, max: real, i: nat, j: nat)
    requires i <= j <= |words|
  {
    width(Join(words[i..j])) <= max
  }

  /** Line j of a layout holds the words from cuts[j] up to cuts[j + 1]. */
  ghost predicate Layout(words: seq<string>, cuts: seq<nat>) {
    && cuts != [] && cuts[0] == 0 && cuts[|cuts| - 1] <= |words|
    && (forall i, j :: 0 <= i < j < |cuts| ==> cuts[i] < cuts[j])
  }

  ghost predicate Whole(words: seq<string>, cuts: seq<nat>) {
    Layout(words, cuts) && cuts[|cuts| - 1] == |words|
  }

  /** Each line fits or is one word, and no line has room for the word after it. */
  ghost predicate Greedy(words: seq<string>, width: Width, max: real, cuts: seq<nat>) {
    && Layout(words, cuts)
    && (forall j :: 0 < j < |cuts| ==>
          cuts[j] == cuts[j - 1] + 1 || Fits(words, width, max, cuts[j - 1], cuts[j]))
    && (forall j :: 0 < j < |cuts| ==>
          cuts[j] < |words| ==> !Fits(words, width, max, cuts[j - 1], cuts[j] + 1))
  }

  ghost function LinesOf(words: seq<string>, cuts: seq<nat>): seq<string>
    requires Layout(words, cuts)
  {
    seq(|cuts| - 1, j requires 0 <= j < |cuts| - 1 => Join(words[cuts[j]..cuts[j + 1]]))
  }

  lemma LinesAppend(words: seq<string>, cuts: seq<nat>, next: nat)
    requires Layout(words, cuts) && cuts[|cuts| - 1] < next <= |words|
    ensures Layout(words, cuts + [next])
    ensures LinesOf(words, cuts + [next]) == LinesOf(words, cuts) + [Join(words[cuts[|cuts| - 1]..next])]
  {
    var more := cuts + [next];
    assert forall j :: 0 <= j < |cuts| ==> more[j] == cuts[j];
  }

  lemma JoinOneLineMore(words: seq<string>, lines: seq<string>, at: nat, next: nat)
    requires 0 < at < next <= |words| && lines != [] && Join(lines) == Join(words[..at])
    ensures Join(lines + [Join(words[at..next])]) == Join(words[..next])
  {
    JoinAppend(lines, [Join(words[at..next])]);
    JoinAppend(words[..at], words[at..next]);
    assert words[..at] + words[at..next] == words[..next];
  }

  lemma {:induction false} JoinLines(words: seq<string>, cuts: seq<nat>)
    requires Layout(words, cuts)
    ensures Join(LinesOf(words, cuts)) == Join(words[..cuts[|cuts| - 1]])
    decreases |cuts|
  {
    if |cuts| > 1 {
      var init, next := cuts[..|cuts| - 1], cuts[|cuts| - 1];
      var at := init[|init| - 1];
      assert cuts == init + [next];
      LinesAppend(words, init, next);
      if |init| == 1 {
        assert LinesOf(words, cuts) == [Join(words[0..next])];
        assert words[0..next] == words[..next];
      } else {
        hide Join;
        JoinLines(words, init);
        JoinOneLineMore(words, LinesOf(words, init), at, next);
      }
    }
  }

  /** A word run inside a fitting run fits. */
  ghost predicate WidthGrows(words: seq<string>, width: Width, max: real) {
    forall i, i', j', j :: 0 <= i <= i' < j' <= j <= |words| && Fits(words, width, max, i, j)
      ==> Fits(words, width, max, i', j')
  }

  ghost predicate AllFit(words: seq<string>, width: Width, max: real, cuts: seq<nat>)
    requires Layout(words, cuts)
  {
    forall j :: 0 < j < |cuts| ==> Fits(words, width, max, cuts[j - 1], cuts[j])
  }

  /** Line for line, the greedy layout is never behind a fitting one. */
  lemma {:induction false} GreedyStaysAhead(words: seq<string>, width: Width, max: real, greedy: seq<nat>, other: seq<nat>, j: nat)
    requires Greedy(words, width, max, greedy) && Layout(words, other) && AllFit(words, width, max, other)
    requires WidthGrows(words, width, max) && j < |greedy| && j < |other|
    ensures other[j] <= greedy[j]
  {
    if j > 0 {
      GreedyStaysAhead(words, width, max, greedy, other, j - 1);
      assert Fits(words, width, max, other[j - 1], other[j]);
    }
  }

  /** No other split of the same words into fitting lines has fewer lines. */
  lemma GreedyIsOptimal(words: seq<string>, width: Width, max: real, greedy: seq<nat>, other: seq<nat>)
    requires Greedy(words, width, max, greedy) && Whole(words, greedy)
    requires Whole(words, other) && AllFit(words, width, max, other)
    requires WidthGrows(words, width, max)
    ensures |greedy| <= |other|
  {
    if |other| < |greedy| {
      GreedyStaysAhead(words, width, max, greedy, other, |other| - 1);
    }
  }

  // ----- the mark for a shortened line -----

  function LastSpace(s: string, k: nat): (r: Option<nat>)
    requires k <= |s|
    ensures r.Some? ==> r.value < k
  {
    if k == 0 then None
    else if s[k - 1] == ' ' then Some(k - 1)
    else LastSpace(s, k - 1)
  }

  /** One step back: the last word goes, or the last character of the last word left. */
  function CutBack(s: string): (r: string)
    requires s != ""
    ensures |r| < |s| && r <= s
  {
    var at := LastSpace(s, |s|);
    if at.Some? then s[..at.value] else s[..|s| - 1]
  }

  /** The last word goes with the space before it; without a space the last character goes. */
  lemma CutBackMeans(s: string)
    requires s != ""
    ensures ' ' in s ==> exists word :: s == CutBack(s) + " " + word && ' ' !in word
    ensures ' ' !in s ==> s == CutBack(s) + [s[|s| - 1]]
  {
    LastSpaceMeans(s, |s|);
    var at := LastSpace(s, |s|);
    if ' ' in s {
      var k :| 0 <= k < |s| && s[k] == ' ';
      var word := s[at.value + 1..];
      assert s == CutBack(s) + " " + word;
      assert ' ' !in word;
    }
  }

  lemma {:induction false} LastSpaceMeans(s: string, k: nat)
    requires k <= |s|
    ensures LastSpace(s, k).Some? ==> s[LastSpace(s, k).value] == ' '
    ensures forall j :: 0 <= j < k && (LastSpace(s, k).Some? ==> LastSpace(s, k).value < j) ==> s[j] != ' '
  {
    if k > 0 && s[k - 1] != ' ' {
      LastSpaceMeans(s, k - 1);
    }
  }

  /** The line after n steps back. */
  function Steps(s: string, n: nat): string {
    if n == 0 || s == "" then s else Steps(CutBack(s), n - 1)
  }

  /** A line is cut back by as few steps as leave room for the mark. */
  lemma {:induction false} ShortenMeans(s: string, width: Width, max: real) returns (n: nat)
    ensures Shorten(s, width, max) == Steps(s, n)
    ensures Steps(s, n) == "" || width(Steps(s, n) + MARK) <= max
    ensures forall k :: 0 <= k < n ==> Steps(s, k) != "" && width(Steps(s, k) + MARK) > max
    decreases |s|
  {
    n := 0;
    if s != "" && width(s + MARK) > max {
      var m := ShortenMeans(CutBack(s), width, max);
      n := m + 1;
      forall k | 0 <= k < n ensures Steps(s, k) != "" && width(Steps(s, k) + MARK) > max {
        if k > 0 {
          assert Steps(s, k) == Steps(CutBack(s), k - 1);
        }
      }
    }
  }

  /** The longest of the steps back that leaves room for the mark, or nothing. */
  function Shorten(s: string, width: Width, max: real): (r: string)
    ensures r <= s && (r == "" || width(r + MARK) <= max)
    ensures s != "" && width(s + MARK) <= max ==> r == s
    decreases |s|
  {
    if s == "" || width(s + MARK) <= max then s else Shorten(CutBack(s), width, max)
  }

  /** The breaking loop as it stands before word i: finished lines, and the words since the last cut on the open one. */
  ghost predicate Packing(words: seq<string>, width: Width, max: real, maxLines: nat, cuts: seq<nat>, i: nat) {
    && Greedy(words, width, max, cuts) && i <= |words|
    && var at := cuts[|cuts| - 1];
       && at <= i && (at == i <==> i == 0)
       && (at + 1 < i ==> Fits(words, width, max, at, i))
       && (|cuts| - 1 < maxLines || maxLines == 0)
  }

  lemma CutKeepsGreedy(words: seq<string>, width: Width, max: real, cuts: seq<nat>, i: nat)
    requires Greedy(words, width, max, cuts) && cuts[|cuts| - 1] < i <= |words|
    requires cuts[|cuts| - 1] + 1 < i ==> Fits(words, width, max, cuts[|cuts| - 1], i)
    requires i < |words| ==> !Fits(words, width, max, cuts[|cuts| - 1], i + 1)
    ensures Greedy(words, width, max, cuts + [i])
  {
    hide Fits, LinesOf;
    LinesAppend(words, cuts, i);
    var more := cuts + [i];
    forall j | 0 < j < |more|
      ensures more[j] == more[j - 1] + 1 || Fits(words, width, max, more[j - 1], more[j])
      ensures more[j] < |words| ==> !Fits(words, width, max, more[j - 1], more[j] + 1)
    {
      if j < |cuts| {
        assert more[j] == cuts[j] && more[j - 1] == cuts[j - 1];
      }
    }
  }

  lemma CutKeepsPacking(words: seq<string>, width: Width, max: real, maxLines: nat, cuts: seq<nat>, i: nat)
    requires Packing(words, width, max, maxLines, cuts, i) && 0 < i
    requires i < |words| ==> !Fits(words, width, max, cuts[|cuts| - 1], i + 1)
    ensures Layout(words, cuts) && Greedy(words, width, max, cuts + [i])
    ensures i < |words| && |cuts| != maxLines ==> Packing(words, width, max, maxLines, cuts + [i], i + 1)
    ensures LinesOf(words, cuts + [i]) == LinesOf(words, cuts) + [Join(words[cuts[|cuts| - 1]..i])]
  {
    hide Fits, LinesOf;
    LinesAppend(words, cuts, i);
    CutKeepsGreedy(words, width, max, cuts, i);
  }

  lemma ExtendKeepsPacking(words: seq<string>, width: Width, max: real, maxLines: nat, cuts: seq<nat>, i: nat)
    requires Packing(words, width, max, maxLines, cuts, i) && i < |words|
    requires i == 0 || Fits(words, width, max, cuts[|cuts| - 1], i + 1)
    ensures Packing(words, width, max, maxLines, cuts, i + 1)
  {
  }

  lemma PackingFacts(words: seq<string>, width: Width, max: real, maxLines: nat, cuts: seq<nat>, i: nat)
    requires Packing(words, width, max, maxLines, cuts, i)
    ensures Greedy(words, width, max, cuts) && Layout(words, cuts) && cuts[|cuts| - 1] <= i <= |words|
    ensures |LinesOf(words, cuts)| == |cuts| - 1 && (|cuts| - 1 < maxLines || maxLines == 0)
    ensures cuts[|cuts| - 1] == i <==> i == 0
  {
  }

  /** The first n words fit together, and so does every shorter start of them. */
  ghost predicate StartsFit(words: seq<string>, width: Width, max: real, n: nat)
    requires n <= |words|
  {
    forall k :: 0 < k <= n ==> Fits(words, width, max, 0, k)
  }

  /** A greedy layout within the limit of lines that leaves words out only when the limit is reached. */
  ghost predicate Packed(words: seq<string>, width: Width, max: real, maxLines: nat, cuts: seq<nat>) {
    && Layout(words, cuts) && Greedy(words, width, max, cuts)
    && (maxLines > 0 ==> |cuts| - 1 <= maxLines && (cuts[|cuts| - 1] < |words| ==> |cuts| - 1 == maxLines))
    && (maxLines == 0 && words != [] ==>
        && cuts[|cuts| - 1] < |words|
        && (|cuts| == 1 <==> !Fits(words, width, max, 0, 1) || StartsFit(words, width, max, |words|)))
  }

  /** The lines of words without the shortening. */
  method Pack(words: seq<string>, width: Width, max: real, maxLines: nat) returns (lines: seq<string>)
    requires forall w :: w in words ==> w != ""
    ensures exists cuts :: Packed(words, width, max, maxLines, cuts) && lines == LinesOf(words, cuts)
  {
    hide Fits, Join, Packing, LinesOf;
    ghost var cuts: seq<nat> := [0];
    lines := [];
    var cur := "";
    NothingPacked(words, width, max, maxLines);
    var i := 0;
    while i < |words|
      invariant 0 <= i <= |words|
      invariant Packing(words, width, max, maxLines, cuts, i) && Layout(words, cuts) && lines == LinesOf(words, cuts)
      invariant maxLines == 0 && i > 0 ==> Fits(words, width, max, 0, 1)
      invariant maxLines == 0 ==> (|cuts| == 1 <==> StartsFit(words, width, max, i))
      invariant cuts[|cuts| - 1] <= i && cur == Join(words[cuts[|cuts| - 1]..i]) && (cur == "" <==> i == 0)
    {
      var w := words[i];
      assert w in words;
      var trial := if cur == "" then w else cur + " " + w;
      ghost var at := cuts[|cuts| - 1];
      NextTrial(words, at, i, cur);
      FitsIs(words, width, max, at, i + 1);
      PackingFacts(words, width, max, maxLines, cuts, i);
      if width(trial) <= max {
        ExtendKeepsPacking(words, width, max, maxLines, cuts, i);
        cur := trial;
      } else {
        if cur != "" {
          CutKeepsPacking(words, width, max, maxLines, cuts, i);
          lines := lines + [cur];
          cuts := cuts + [i];
        } else {
          ExtendKeepsPacking(words, width, max, maxLines, cuts, i);
        }
        cur := w;
        OneWord(words, i);
        if |lines| == maxLines {
          assert Packed(words, width, max, maxLines, cuts);
          return;
        }
      }
      i := i + 1;
    }
    PackingFacts(words, width, max, maxLines, cuts, i);
    if cur != "" && |lines| < maxLines {
      CutKeepsPacking(words, width, max, maxLines, cuts, i);
      lines := lines + [cur];
      cuts := cuts + [i];
    }
    assert Packed(words, width, max, maxLines, cuts);
  }

  lemma NothingPacked(words: seq<string>, width: Width, max: real, maxLines: nat)
    ensures Packing(words, width, max, maxLines, [0], 0)
    ensures Layout(words, [0]) && LinesOf(words, [0]) == [] && Join(words[0..0]) == ""
  {
  }

  lemma FitsIs(words: seq<string>, width: Width, max: real, i: nat, j: nat)
    requires i <= j <= |words|
    ensures Fits(words, width, max, i, j) <==> width(Join(words[i..j])) <= max
  {
  }

  lemma OneWord(words: seq<string>, i: nat)
    requires i < |words|
    ensures Join(words[i..i + 1]) == words[i]
  {
  }

  lemma NextTrial(words: seq<string>, at: nat, i: nat, cur: string)
    requires at <= i < |words| && cur == Join(words[at..i]) && (forall w :: w in words ==> w != "")
    ensures Join(words[at..i + 1]) == (if cur == "" then words[i] else cur + " " + words[i]) != ""
    ensures cur == "" <==> at == i
  {
    assert words[at..i + 1] == words[at..i] + [words[i]];
    assert words[i] in words;
    if at < i {
      JoinAppend(words[at..i], [words[i]]);
      assert words[at..i][0] == words[at] && words[at] in words;
    } else {
      assert words[at..i] == [];
      OneWord(words, i);
    }
  }

  /** What comes back for a layout; None stands for the IndexError of `lines[-1]` on an empty list. */
  ghost predicate Returned(text: string, width: Width, max: real, maxLines: nat, cuts: seq<nat>, result: Option<seq<string>>) {
    var words := Split(text);
    && Packed(words, width, max, maxLines, cuts)
    && (result.None? <==> maxLines == 0 && words != [] && |cuts| == 1)
    && (result.Some? ==> result.value == Marked(LinesOf(words, cuts), text, width, max, maxLines))
  }

  /**
   With a limit of no lines the method fails on the empty list exactly if the first word does
   not fit or all words fit on one line; otherwise lines come back over the limit.
   */
  method Wrap(text: string, width: Width, max: real, maxLines: nat) returns (result: Option<seq<string>>)
    ensures var words := Split(text);
            result.None? <==> maxLines == 0 && words != []
                              && (!Fits(words, width, max, 0, 1) || StartsFit(words, width, max, |words|))
    ensures exists cuts :: Returned(text, width, max, maxLines, cuts, result)
    ensures maxLines > 0 ==> result.Some? && |result.value| <= maxLines
    ensures maxLines == 0 && result.Some? && Split(text) != [] ==> |result.value| > maxLines
  {
    hide Greedy, LinesOf;
    var words := Split(text);
    var lines := Pack(words, width, max, maxLines);
    ghost var cuts :| Packed(words, width, max, maxLines, cuts) && lines == LinesOf(words, cuts);
    LineCount(words, width, max, cuts);
    if |lines| == maxLines && words != [] {
      if lines == [] {
        assert Returned(text, width, max, maxLines, cuts, None);
        return None;
      }
      var last := lines[|lines| - 1];
      while last != "" && width(last + MARK) > max
        invariant Shorten(last, width, max) == Shorten(lines[|lines| - 1], width, max)
        decreases |last|
      {
        last := CutBack(last);
      }
      if |Join(lines)| < |text| {
        lines := lines[|lines| - 1 := last + MARK];
      }
    }
    result := Some(lines);
    assert Returned(text, width, max, maxLines, cuts, result);
  }

  lemma LineCount(words: seq<string>, width: Width, max: real, cuts: seq<nat>)
    requires Greedy(words, width, max, cuts)
    ensures Layout(words, cuts) && |LinesOf(words, cuts)| == |cuts| - 1
  {
  }

  /** The last line of a full card is shortened and marked when the lines hold less than the text. */
  function Marked(lines: seq<string>, text: string, width: Width, max: real, maxLines: nat): seq<string> {
    if lines != [] && |lines| == maxLines && |Join(lines)| < |text|
    then lines[|lines| - 1 := Shorten(lines[|lines| - 1], width, max) + MARK]
    else lines
  }

  /**
   When the mark appears on a full card: exactly if words were cut, or the text is longer than
   its words joined by single spaces. The second case marks a line although no word is missing.
   */
  lemma MarkMeaning(text: string, width: Width, max: real, maxLines: nat, cuts: seq<nat>)
    requires Layout(Split(text), cuts) && |cuts| - 1 == maxLines > 0
    ensures var words := Split(text);
            |Join(LinesOf(words, cuts))| < |text| <==>
            cuts[|cuts| - 1] < |words| || |Join(words)| < |text|
  {
    var words, n := Split(text), cuts[|cuts| - 1];
    JoinLines(words, cuts);
    JoinSplitLength(text);
    if n < |words| {
      JoinAppend(words[..n], words[n..]);
      assert words[..n] + words[n..] == words;
    } else {
      assert words[..n] == words;
    }
  }

  /** A trailing space alone marks a text that fits as a whole. */
  lemma TrailingSpaceIsMarked(width: Width, max: real)
    requires width("a" + MARK) <= max
    ensures Split("a ") == ["a"]
    ensures Marked(["a"], "a ", width, max, 1) == ["a" + MARK]
  {
    var text := "a ";
    assert text[1..] == " " && WordEnd(text, 1) == 1;
    assert text[..1] == "a" && " "[1..] == "";
    assert Split(" ") == [];
  }
}
