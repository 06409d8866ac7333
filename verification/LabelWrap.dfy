/** Greedy wrapping of wedge labels (visual/web/frontend/app.js). */
module LabelWrap {
  import opened Wrappers

  const FONT_SIZE := 10.5
  const MAX_LINES := 4
  const MIN_WIDTH := 6.0
  const MIN_RING_WIDTH := 12.0

  // ----------------------------------------------------------------- words of a label

  /** The characters JavaScript's `\s` matches. */
  predicate IsSpace(c: char) {
    c in " \t\n\r\U{000B}\U{000C}\U{00A0}\U{1680}\U{2028}\U{2029}\U{202F}\U{205F}\U{3000}\U{FEFF}"
    || '\U{2000}' <= c <= '\U{200A}'
  }

  /** The length of the leading run without white space. */
  function WordLength(s: string): (n: nat)
    ensures n <= |s|
    ensures forall k | 0 <= k < n :: !IsSpace(s[k])
    ensures n < |s| ==> IsSpace(s[n])
  {
    if s == [] || IsSpace(s[0]) then 0 else 1 + WordLength(s[1..])
  }

  /** The maximal runs without white space, in order: split, then drop the empty parts. */
  function Words(text: string): (ws: seq<string>)
    ensures forall w <- ws :: w != [] && forall c <- w :: !IsSpace(c)
    decreases |text|
  {
    if text == [] then []
    else if IsSpace(text[0]) then Words(text[1..])
    else
      var n := WordLength(text);
      [text[..n]] + Words(text[n..])
  }

  function Join(ws: seq<string>): string {
    if ws == [] then []
    else if |ws| == 1 then ws[0]
    else Join(ws[..|ws| - 1]) + " " + ws[|ws| - 1]
  }

  // ---------------------------------------------------------------------- wraps

  type Measure = (string, real) -> real

  /** The width of the words `i..j` set on one line. */
  function Width(m: Measure, size: real, ws: seq<string>, i: nat, j: nat): real
    requires i <= j <= |ws|
  {
    m(Join(ws[i..j]), size)
  }

  /** Taking words off either end of a run never widens it. */
  ghost predicate Monotone(m: Measure, size: real, ws: seq<string>) {
    forall a: nat, b: nat, c: nat, d: nat | a <= b < c <= d <= |ws| ::
      Width(m, size, ws, b, c) <= Width(m, size, ws, a, d)
  }

  /** Where each line of a wrap starts, and where the last one ends. */
  ghost predicate IsWrap(ws: seq<string>, cuts: seq<nat>) {
    Rising(ws, cuts) && |cuts| >= 1 && cuts[0] == 0 && cuts[|cuts| - 1] == |ws|
  }

  ghost predicate Rising(ws: seq<string>, cuts: seq<nat>) {
    && (forall j, k | 0 <= j < k < |cuts| :: cuts[j] < cuts[k])
    && (forall k | 0 <= k < |cuts| :: cuts[k] <= |ws|)
  }

  /** Every line of the wrap fits. */
  ghost predicate Fitting(m: Measure, size: real, max: real, ws: seq<string>, cuts: seq<nat>) {
    && Rising(ws, cuts)
    && (forall j, k | 0 <= j < k < |cuts| && k == j + 1 :: Width(m, size, ws, cuts[j], cuts[k]) <= max)
  }

  function LineCount(cuts: seq<nat>): int {
    |cuts| - 1
  }

  /** The lines of text a wrap describes. */
  ghost predicate Shows(ws: seq<string>, cuts: seq<nat>, lines: seq<string>) {
    && Rising(ws, cuts)
    && |lines| == LineCount(cuts)
    && (forall j, k | 0 <= j < k < |cuts| && k == j + 1 :: lines[j] == Join(ws[cuts[j]..cuts[k]]))
  }

  ghost predicate FitsIn(m: Measure, size: real, max: real, ws: seq<string>, cuts: seq<nat>) {
    IsWrap(ws, cuts) && Fitting(m, size, max, ws, cuts)
  }

  // ------------------------------------------------------------- greedy stays ahead

  ghost predicate NeedsMoreThan(m: Measure, size: real, max: real, ws: seq<string>, n: int) {
    forall cuts :: FitsIn(m, size, max, ws, cuts) ==> LineCount(cuts) > n
  }

  /** No fitting wrap gets further with its first `k` lines than `cuts` does. */
  ghost predicate Ahead(m: Measure, size: real, max: real, ws: seq<string>, cuts: seq<nat>) {
    forall other: seq<nat>, k: nat |
      FitsIn(m, size, max, ws, other) && k < |other| && k < |cuts| :: other[k] <= cuts[k]
  }

  /** Closing a line where the next word no longer fits keeps the greedy wrap ahead. */
  lemma ClosedLineStaysAhead(m: Measure, size: real, max: real, ws: seq<string>, cuts: seq<nat>, i: nat)
    requires Monotone(m, size, ws) && Ahead(m, size, max, ws, cuts)
    requires |cuts| > 0 && cuts[|cuts| - 1] < i < |ws|
    requires Width(m, size, ws, cuts[|cuts| - 1], i + 1) > max
    ensures Ahead(m, size, max, ws, cuts + [i])
  {
    var next := cuts + [i];
    forall other: seq<nat>, k: nat | FitsIn(m, size, max, ws, other) && k < |other| && k < |next|
      ensures other[k] <= next[k]
    {
      if k == |cuts| {
        assert other[k - 1] <= cuts[k - 1];
        assert other[k - 1 + 1] == other[k];
        assert Width(m, size, ws, other[k - 1], other[k]) <= max;
      }
    }
  }

  /** Some line of every wrap holds word `i`. */
  lemma LineOfWord(ws: seq<string>, cuts: seq<nat>, i: nat) returns (k: nat)
    requires IsWrap(ws, cuts) && i < |ws|
    ensures k < LineCount(cuts) && cuts[k] <= i < cuts[k + 1]
  {
    k := 0;
    while cuts[k + 1] <= i
      invariant k < LineCount(cuts) && cuts[k] <= i
      decreases |cuts| - k
    {
      k := k + 1;
    }
  }

  lemma WideWordFitsNowhere(m: Measure, size: real, max: real, ws: seq<string>, i: nat, n: int)
    requires Monotone(m, size, ws) && i < |ws| && Width(m, size, ws, i, i + 1) > max
    ensures NeedsMoreThan(m, size, max, ws, n)
  {
    forall cuts ensures !FitsIn(m, size, max, ws, cuts) {
      if IsWrap(ws, cuts) {
        var k := LineOfWord(ws, cuts, i);
        assert Width(m, size, ws, cuts[k], cuts[k + 1]) > max;
      }
    }
  }

  /** While words are left, a wrap needs more lines than the greedy one has used. */
  lemma MoreLinesNeeded(m: Measure, size: real, max: real, ws: seq<string>, cuts: seq<nat>)
    requires Ahead(m, size, max, ws, cuts) && |cuts| > 0 && cuts[|cuts| - 1] < |ws|
    requires Rising(ws, cuts)
    ensures NeedsMoreThan(m, size, max, ws, LineCount(cuts))
  {
    forall other | FitsIn(m, size, max, ws, other) ensures LineCount(other) > LineCount(cuts) {
      assert forall k | 0 <= k < |other| && k < |cuts| :: other[k] < |ws|;
    }
  }

  lemma JoinNext(ws: seq<string>, start: nat, i: nat)
    requires start <= i < |ws|
    ensures Join(ws[start..i + 1]) == if start == i then ws[i] else Join(ws[start..i]) + " " + ws[i]
  {
    var line := ws[start..i + 1];
    assert line[..|line| - 1] == ws[start..i];
  }

  /** The closed lines `done` and the open line `current` hold the first `i` words. */
  ghost predicate Packed(m: Measure, size: real, max: real, ws: seq<string>,
                         cuts: seq<nat>, done: seq<string>, current: string, i: nat)
  {
    && i <= |ws| && |cuts| > 0 && cuts[0] == 0 && cuts[|cuts| - 1] <= i
    && (i > 0 ==> cuts[|cuts| - 1] < i)
    && Fitting(m, size, max, ws, cuts) && Shows(ws, cuts, done) && Ahead(m, size, max, ws, cuts)
    && current == Join(ws[cuts[|cuts| - 1]..i])
    && (current == [] <==> i == 0)
    && (i > 0 ==> Width(m, size, ws, cuts[|cuts| - 1], i) <= max)
  }

  lemma WordJoins(m: Measure, size: real, max: real, ws: seq<string>,
                  cuts: seq<nat>, done: seq<string>, current: string, i: nat)
    requires Packed(m, size, max, ws, cuts, done, current, i) && i < |ws| && ws[i] != []
    ensures var trial := if current != [] then current + " " + ws[i] else ws[i];
      && m(trial, size) == Width(m, size, ws, cuts[|cuts| - 1], i + 1)
      && (m(trial, size) <= max ==> Packed(m, size, max, ws, cuts, done, trial, i + 1))
  {
    JoinNext(ws, cuts[|cuts| - 1], i);
  }

  lemma FitExtends(m: Measure, size: real, max: real, ws: seq<string>, cuts: seq<nat>, i: nat)
    requires Fitting(m, size, max, ws, cuts) && |cuts| > 0 && cuts[|cuts| - 1] < i <= |ws|
    requires Width(m, size, ws, cuts[|cuts| - 1], i) <= max
    ensures Fitting(m, size, max, ws, cuts + [i])
  {
  }

  lemma ShowExtends(ws: seq<string>, cuts: seq<nat>, done: seq<string>, i: nat)
    requires Shows(ws, cuts, done) && |cuts| > 0 && cuts[|cuts| - 1] < i <= |ws|
    ensures Shows(ws, cuts + [i], done + [Join(ws[cuts[|cuts| - 1]..i])])
  {
  }

  lemma LineCloses(m: Measure, size: real, max: real, ws: seq<string>,
                   cuts: seq<nat>, done: seq<string>, current: string, i: nat)
    requires Monotone(m, size, ws)
    requires Packed(m, size, max, ws, cuts, done, current, i) && 0 < i < |ws| && ws[i] != []
    requires Width(m, size, ws, cuts[|cuts| - 1], i + 1) > max
    ensures Rising(ws, cuts + [i]) && Ahead(m, size, max, ws, cuts + [i])
    ensures m(ws[i], size) == Width(m, size, ws, i, i + 1)
    ensures m(ws[i], size) <= max ==>
              Packed(m, size, max, ws, cuts + [i], done + [current], ws[i], i + 1)
  {
    ClosedLineStaysAhead(m, size, max, ws, cuts, i);
    FitExtends(m, size, max, ws, cuts, i);
    ShowExtends(ws, cuts, done, i);
    JoinNext(ws, i, i);
  }

  lemma LastLineCloses(m: Measure, size: real, max: real, ws: seq<string>,
                       cuts: seq<nat>, done: seq<string>, current: string)
    requires Packed(m, size, max, ws, cuts, done, current, |ws|) && ws != []
    ensures FitsIn(m, size, max, ws, cuts + [|ws|]) && Shows(ws, cuts + [|ws|], done + [current])
    ensures NeedsMoreThan(m, size, max, ws, |done|)
  {
    FitExtends(m, size, max, ws, cuts, |ws|);
    ShowExtends(ws, cuts, done, |ws|);
    MoreLinesNeeded(m, size, max, ws, cuts);
  }

  /** One turn of the loop: word `i` goes on the open line, or closes it and opens the next. */
  method PlaceWord(words: seq<string>, maxWidth: real, fontSize: real, maxLines: int, measure: Measure,
                   i: nat, done: seq<string>, current: string, ghost cuts: seq<nat>)
    returns (ok: bool, done': seq<string>, current': string, ghost cuts': seq<nat>)
    requires Monotone(measure, fontSize, words) && i < |words| && words[i] != []
    requires |done| < maxLines && Packed(measure, fontSize, maxWidth, words, cuts, done, current, i)
    ensures ok ==> |done'| < maxLines
                   && Packed(measure, fontSize, maxWidth, words, cuts', done', current', i + 1)
    ensures !ok ==> NeedsMoreThan(measure, fontSize, maxWidth, words, maxLines)
  {
    done', current', cuts' := done, current, cuts;
    var word := words[i];
    var trial := if current != [] then current + " " + word else word;
    WordJoins(measure, fontSize, maxWidth, words, cuts, done, current, i);
    if measure(trial, fontSize) <= maxWidth {
      current' := trial;
      return true, done', current', cuts';
    }
    if current == [] {
      assert cuts[|cuts| - 1] == i == 0;
      WideWordFitsNowhere(measure, fontSize, maxWidth, words, i, maxLines);
      return false, done', current', cuts';
    }
    LineCloses(measure, fontSize, maxWidth, words, cuts, done, current, i);
    done', cuts' := done + [current], cuts + [i];
    if |done'| >= maxLines {
      MoreLinesNeeded(measure, fontSize, maxWidth, words, cuts');
      return false, done', current', cuts';
    }
    current' := word;
    if measure(current', fontSize) > maxWidth {
      WideWordFitsNowhere(measure, fontSize, maxWidth, words, i, maxLines);
      return false, done', current', cuts';
    }
    ok := true;
  }

  /**
   The loop of `wrapLabel`: for any width measure monotone on contiguous runs of the
   words, nothing is returned exactly when no fitting wrap has at most `maxLines` lines;
   otherwise `cuts` is a fitting wrap of all the words, shown by `lines`, and no fitting
   wrap has fewer.
   */
  method WrapWords(words: seq<string>, maxWidth: real, fontSize: real, maxLines: int, measure: Measure)
    returns (lines: Option<seq<string>>, ghost cuts: seq<nat>)
    requires forall w <- words :: w != []
    requires Monotone(measure, fontSize, words)
    ensures lines.None? ==>
              words == [] || maxLines < 1 || NeedsMoreThan(measure, fontSize, maxWidth, words, maxLines)
    ensures lines.Some? ==>
              && words != [] && 1 <= |lines.value| <= maxLines
              && FitsIn(measure, fontSize, maxWidth, words, cuts) && Shows(words, cuts, lines.value)
              && NeedsMoreThan(measure, fontSize, maxWidth, words, |lines.value| - 1)
  {
    cuts := [0];
    if |words| == 0 || maxLines < 1 {
      return None, cuts;
    }
    var done: seq<string> := [];
    var current: string := [];
    for i := 0 to |words|
      invariant |done| < maxLines
      invariant Packed(measure, fontSize, maxWidth, words, cuts, done, current, i)
    {
      assert words[i] in words;
      var ok;
      ok, done, current, cuts :=
        PlaceWord(words, maxWidth, fontSize, maxLines, measure, i, done, current, cuts);
      if !ok {
        return None, cuts;
      }
    }
    LastLineCloses(measure, fontSize, maxWidth, words, cuts, done, current);
    return Some(done + [current]), cuts + [|words|];
  }

  /** The lines are a wrap of all the label's words, each line fits, and no fitting wrap has fewer. */
  ghost predicate BestWrap(m: Measure, size: real, max: real, ws: seq<string>, lines: seq<string>) {
    && (exists cuts :: FitsIn(m, size, max, ws, cuts) && Shows(ws, cuts, lines))
    && NeedsMoreThan(m, size, max, ws, |lines| - 1)
  }

  /** A wrap of the words into at most `n` fitting lines exists. */
  ghost predicate Wrappable(m: Measure, size: real, max: real, ws: seq<string>, n: int) {
    ws != [] && exists cuts :: FitsIn(m, size, max, ws, cuts) && LineCount(cuts) <= n
  }

  /** `wrapLabel`: greedy wrapping finds a best wrap exactly when one is possible. */
  method WrapLabel(text: string, maxWidth: real, fontSize: real, maxLines: int, measure: Measure)
    returns (lines: Option<seq<string>>)
    requires Monotone(measure, fontSize, Words(text))
    ensures lines.Some? <==> Wrappable(measure, fontSize, maxWidth, Words(text), maxLines)
    ensures lines.Some? ==>
              1 <= |lines.value| <= maxLines
              && BestWrap(measure, fontSize, maxWidth, Words(text), lines.value)
  {
    ghost var cuts;
    lines, cuts := WrapWords(Words(text), maxWidth, fontSize, maxLines, measure);
  }

  /**
   `fitWedgeLabelRestricted`: the label set on the fewest lines that fit, among at most
   `MAX_LINES` and as many as the ring has room for.
   */
  method FitWedgeLabelRestricted(text: string, maxWidth: real, ringWidth: real, measure: Measure)
    returns (lines: Option<seq<string>>)
    requires Monotone(measure, FONT_SIZE, Words(text))
    ensures lines.Some? ==>
              && maxWidth >= 6.0 && ringWidth >= 12.0
              && 1 <= |lines.value| <= 4 && 10.5 * |lines.value| as real <= ringWidth
              && BestWrap(measure, 10.5, maxWidth, Words(text), lines.value)
    ensures lines.None? ==>
              || maxWidth < 6.0 || ringWidth < 12.0
              || forall n | 1 <= n <= 4 && 10.5 * n as real <= ringWidth ::
                   !Wrappable(measure, 10.5, maxWidth, Words(text), n)
  {
    if maxWidth < MIN_WIDTH || ringWidth < MIN_RING_WIDTH {
      return None;
    }
    for n := 1 to MAX_LINES + 1
      invariant forall k | 1 <= k < n && FONT_SIZE * k as real <= ringWidth ::
                  !Wrappable(measure, FONT_SIZE, maxWidth, Words(text), k)
    {
      if FONT_SIZE * n as real > ringWidth {
        continue;
      }
      lines := WrapLabel(text, maxWidth, FONT_SIZE, n, measure);
      if lines.Some? {
        return;
      }
    }
    return None;
  }

  // ------------------------------------------------------------ the words of a label

  function Strip(text: string): (r: string) {
    if text == [] then [] else if IsSpace(text[0]) then Strip(text[1..]) else [text[0]] + Strip(text[1..])
  }

  function Concat(ws: seq<string>): string {
    if ws == [] then [] else ws[0] + Concat(ws[1..])
  }

  lemma {:induction false} StripRun(text: string, n: nat)
    requires n <= |text| && forall k | 0 <= k < n :: !IsSpace(text[k])
    ensures Strip(text) == text[..n] + Strip(text[n..])
  {
    if n > 0 {
      StripRun(text[1..], n - 1);
      var word, rest := text[1..n], Strip(text[n..]);
      assert text[1..][..n - 1] == word && text[1..][n - 1..] == text[n..];
      assert Strip(text) == [text[0]] + (word + rest);
      assert [text[0]] + (word + rest) == ([text[0]] + word) + rest && [text[0]] + word == text[..n];
    } else {
      assert text[0..] == text;
    }
  }

  /** Splitting into words loses nothing but the white space. */
  lemma {:induction false} WordsKeepLetters(text: string)
    ensures Concat(Words(text)) == Strip(text)
    decreases |text|
  {
    if text != [] {
      if IsSpace(text[0]) {
        WordsKeepLetters(text[1..]);
      } else {
        var n := WordLength(text);
        StripRun(text, n);
        WordsKeepLetters(text[n..]);
        assert ([text[..n]] + Words(text[n..]))[1..] == Words(text[n..]);
      }
    }
  }

  // ----------------------------------------------------------------- lines as text

  lemma {:induction false} LengthOfWord(word: string, rest: string)
    requires forall c <- word :: !IsSpace(c)
    requires rest == [] || IsSpace(rest[0])
    ensures WordLength(word + rest) == |word|
  {
    if word != [] {
      assert (word + rest)[0] == word[0] && (word + rest)[1..] == word[1..] + rest;
      LengthOfWord(word[1..], rest);
    } else {
      assert word + rest == rest;
    }
  }

  lemma {:induction false} WordThenRest(word: string, rest: string)
    requires word != [] && forall c <- word :: !IsSpace(c)
    requires rest == [] || IsSpace(rest[0])
    ensures Words(word + rest) == [word] + Words(rest)
  {
    LengthOfWord(word, rest);
    assert (word + rest)[..|word|] == word && (word + rest)[|word|..] == rest;
    assert !IsSpace((word + rest)[0]);
  }

  /** Splitting passes a space: what comes before and after it is split on its own. */
  lemma {:induction false} WordsOfSpace(text: string, word: string)
    requires word != [] && forall c <- word :: !IsSpace(c)
    ensures Words(text + " " + word) == Words(text) + [word]
    decreases |text|
  {
    var whole := text + " " + word;
    if text == [] {
      assert whole == " " + word && whole[1..] == word && word + [] == word;
      WordThenRest(word, []);
      assert Words([]) == [] && [word] + [] == [word] && [] + [word] == [word];
    } else if IsSpace(text[0]) {
      assert whole[1..] == text[1..] + " " + word;
      WordsOfSpace(text[1..], word);
    } else {
      var n := WordLength(text);
      var first, rest := text[..n], text[n..];
      assert whole == first + (rest + " " + word);
      assert (rest + " " + word)[0] == if rest == [] then ' ' else rest[0];
      WordThenRest(first, rest + " " + word);
      WordsOfSpace(rest, word);
      assert [first] + (Words(rest) + [word]) == ([first] + Words(rest)) + [word];
    }
  }

  /** A line set from words splits into exactly these words again. */
  lemma {:induction false} WordsOfJoin(ws: seq<string>)
    requires forall w <- ws :: w != [] && forall c <- w :: !IsSpace(c)
    ensures Words(Join(ws)) == ws
  {
    if |ws| == 1 {
      assert ws[0] in ws && ws[0] + [] == ws[0];
      WordThenRest(ws[0], []);
      assert Words([]) == [] && [ws[0]] + [] == ws;
    } else if |ws| > 1 {
      var before, last := ws[..|ws| - 1], ws[|ws| - 1];
      assert last in ws && forall w <- before :: w in ws;
      WordsOfJoin(before);
      WordsOfSpace(Join(before), last);
      assert before + [last] == ws;
    }
  }

  /** White space by code point: the ASCII controls and the space, the no-break space, the space marks and
      separators of Unicode, and the byte order mark. */
  lemma {:induction false} SpacesByCodePoint(c: char)
    ensures IsSpace(c) <==>
              var n := c as int;
              9 <= n <= 13 || 8192 <= n <= 8202 || n in {32, 160, 5760, 8232, 8233, 8239, 8287, 12288, 65279}
  {
  }
}
