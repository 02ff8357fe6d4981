/**
 * The status text of the Raspberry Pi start-up screen
 * (src/raspi/startup_status.py, show_status): the message is split into
 * words and wrapped greedily into lines of at most 28 characters, of which
 * the first four are drawn 16 pixels apart from a start height that depends
 * on whether a progress bar is shown.
 */
module StartupStatus {
  import opened Values
  import Text

  const MaxChars := 28
  const MaxLines := 4
  const LineHeight := 16

  /** No character of w is white space. */
  predicate NoSpace(w: string) {
    forall i :: 0 <= i < |w| ==> !Text.IsPySpace(w[i])
  }

  /** The leading run of non-space characters. */
  function TakeWord(t: string): (w: string)
    ensures w <= t && NoSpace(w)
    ensures |w| < |t| ==> Text.IsPySpace(t[|w|])
  {
    if t == [] || Text.IsPySpace(t[0]) then [] else [t[0]] + TakeWord(t[1..])
  }

  /** No character of s is anything but white space. */
  predicate Blank(s: string) {
    forall i :: 0 <= i < |s| ==> Text.IsPySpace(s[i])
  }

  /**
   * Python's message.split(): the maximal runs of non-space characters, in
   * order. WordsOfBlank, WordsOfWord and WordsSplitAtSpace pin them down.
   */
  function Words(s: string): (r: seq<string>)
    ensures forall i :: 0 <= i < |r| ==> r[i] != [] && NoSpace(r[i])
    decreases |s|
  {
    var t := Text.TrimStart(s, Text.IsPySpace);
    if t == [] then []
    else
      var w := TakeWord(t);
      assert w != [] && w[0] == t[0];
      var rest := Words(t[|w|..]);
      assert forall i :: 0 < i < |rest| + 1 ==> ([w] + rest)[i] == rest[i - 1];
      [w] + rest
  }

  /** A message has no words exactly when it is white space only. */
  lemma WordsOfBlank(s: string)
    ensures Words(s) == [] <==> Blank(s)
  {
    var t := Text.TrimStart(s, Text.IsPySpace);
    if t != [] {
      assert !Text.IsPySpace(s[|s| - |t|]);
    }
  }

  /** A run of non-space characters is one word. */
  lemma WordsOfWord(w: string)
    requires w != [] && NoSpace(w)
    ensures Words(w) == [w]
  {
    assert Text.TrimStart(w, Text.IsPySpace) == w;
    TakeWordWhole(w);
  }

  /** Splitting at any white-space character: the words before it, then the words after it. */
  lemma {:induction false} WordsSplitAtSpace(a: string, c: char, b: string)
    requires Text.IsPySpace(c)
    ensures Words(a + [c] + b) == Words(a) + Words(b)
    decreases |a|
  {
    var ta := Text.TrimStart(a, Text.IsPySpace);
    if ta == [] {
      SplitAfterBlank(a, c, b);
    } else {
      var w := TakeWord(ta);
      assert |ta[|w|..]| < |a|;
      WordsSplitAtSpace(ta[|w|..], c, b);
      SplitAfterWord(a, c, b, ta, w);
    }
  }

  /** When a has no word, a + [c] + b has the words of b. */
  lemma SplitAfterBlank(a: string, c: char, b: string)
    requires Text.IsPySpace(c) && Text.TrimStart(a, Text.IsPySpace) == []
    ensures Words(a) == [] && Words(a + [c] + b) == Words(b)
  {
    assert Blank(a + [c]);
    TrimStartBlank(a + [c], b);
    WordsSameTrim(a + [c] + b, b);
    WordsUnfold(a);
  }

  /** When a has a word, the words of a + [c] + b are those of a and then those of b, given that this holds for the rest of a after its first word. */
  lemma SplitAfterWord(a: string, c: char, b: string, ta: string, w: string)
    requires Text.IsPySpace(c) && ta == Text.TrimStart(a, Text.IsPySpace) && ta != [] && w == TakeWord(ta)
    requires Words(ta[|w|..] + [c] + b) == Words(ta[|w|..]) + Words(b)
    ensures Words(a + [c] + b) == Words(a) + Words(b)
  {
    WordsAfterTrim(a, ta, w, ta[|w|..]);
    SplitAfterWordTail(a, c, b, ta, w);
    ConsAppend(w, Words(ta[|w|..]), Words(b));
  }

  /** Putting x in front of a concatenation, or in front of its first part. */
  lemma ConsAppend<T>(x: T, u: seq<T>, v: seq<T>)
    ensures [x] + (u + v) == ([x] + u) + v
  {
  }

  /** The second half of SplitAfterWord, with the trimmed text and its word named. */
  lemma SplitAfterWordTail(a: string, c: char, b: string, ta: string, w: string)
    requires Text.IsPySpace(c) && ta == Text.TrimStart(a, Text.IsPySpace) && ta != [] && w == TakeWord(ta)
    ensures Words(a + [c] + b) == [w] + Words(ta[|w|..] + [c] + b)
  {
    TrimStartNotBlank(a, c, b);
    TakeWordBeforeSpace(ta, c, b);
    DropWordBeforeSpace(ta, c, b, w);
    WordsAfterTrim(a + [c] + b, ta + [c] + b, w, ta[|w|..] + [c] + b);
  }

  /** Dropping the first word of ta + [c] + b leaves the rest of ta, c and b. */
  lemma DropWordBeforeSpace(ta: string, c: char, b: string, w: string)
    requires w == TakeWord(ta)
    ensures (ta + [c] + b)[|w|..] == ta[|w|..] + [c] + b
  {
  }

  /** Once trimmed, a text's first word and the words of what follows it. */
  lemma WordsAfterTrim(s: string, t: string, w: string, rest: string)
    requires t == Text.TrimStart(s, Text.IsPySpace) && t != [] && w == TakeWord(t) && rest == t[|w|..]
    ensures Words(s) == [w] + Words(rest)
  {
    WordsUnfold(s);
  }

  /** One unfolding of Words. */
  lemma WordsUnfold(s: string)
    ensures var t := Text.TrimStart(s, Text.IsPySpace);
      Words(s) == if t == [] then [] else [TakeWord(t)] + Words(t[|TakeWord(t)|..])
  {
  }

  /** Words sees a text only after its leading white space. */
  lemma WordsSameTrim(x: string, y: string)
    requires Text.TrimStart(x, Text.IsPySpace) == Text.TrimStart(y, Text.IsPySpace)
    ensures Words(x) == Words(y)
  {
    WordsUnfold(x);
    WordsUnfold(y);
  }

  /** A text without white space is one run. */
  lemma {:induction false} TakeWordWhole(w: string)
    requires NoSpace(w)
    ensures TakeWord(w) == w
    decreases |w|
  {
    if w != [] {
      TakeWordWhole(w[1..]);
    }
  }

  /** Leading white space is skipped whatever follows it. */
  lemma {:induction false} TrimStartBlank(x: string, y: string)
    requires Blank(x)
    ensures Text.TrimStart(x + y, Text.IsPySpace) == Text.TrimStart(y, Text.IsPySpace)
    decreases |x|
  {
    if x != [] {
      assert (x + y)[1..] == x[1..] + y;
      TrimStartBlank(x[1..], y);
    } else {
      assert x + y == y;
    }
  }

  /** Trimming a text that is not blank never reaches what follows it. */
  lemma {:induction false} TrimStartNotBlank(x: string, c: char, y: string)
    requires Text.TrimStart(x, Text.IsPySpace) != []
    ensures Text.TrimStart(x + [c] + y, Text.IsPySpace) == Text.TrimStart(x, Text.IsPySpace) + [c] + y
    decreases |x|
  {
    assert x != [];
    if Text.IsPySpace(x[0]) {
      assert (x + [c] + y)[1..] == x[1..] + [c] + y;
      TrimStartNotBlank(x[1..], c, y);
    }
  }

  /** A run ends at the first white space character. */
  lemma {:induction false} TakeWordBeforeSpace(x: string, c: char, y: string)
    requires Text.IsPySpace(c)
    ensures TakeWord(x + [c] + y) == TakeWord(x)
    decreases |x|
  {
    if x != [] && !Text.IsPySpace(x[0]) {
      assert (x + [c] + y)[1..] == x[1..] + [c] + y;
      TakeWordBeforeSpace(x[1..], c, y);
    }
  }

  /** The lines built so far with the line being filled, if any. */
  function Pending(lines: seq<string>, current: string): seq<string> {
    if current == "" then lines else lines + [current]
  }

  /** Joining with one more part adds a space and that part. */
  lemma JoinSnoc(parts: seq<string>, p: string)
    ensures Text.Join(parts + [p], " ") == if parts == [] then p else Text.Join(parts, " ") + " " + p
  {
    if parts == [] {
      assert parts + [p] == [p];
    } else {
      Text.JoinAppend(parts, p, " ");
    }
  }

  /** A line's first word: the text before its first space. */
  function FirstWord(line: string): string {
    Text.FirstSegment(line, ' ')
  }

  /** One iteration of the loop for the next word: extend the current line, or start a new one. */
  function Step(lines: seq<string>, current: string, word: string): (seq<string>, string) {
    var testLine := current + (if current != "" then " " else "") + word;
    if |testLine| <= MaxChars then (lines, testLine)
    else if current != "" then (lines + [current], word)
    else (lines, word)
  }

  /** The words so far are exactly the finished lines and the current one, joined. */
  lemma StepJoin(lines: seq<string>, current: string, done: seq<string>, word: string)
    requires current == "" ==> lines == [] && done == []
    requires current != "" ==> done != []
    requires Text.Join(Pending(lines, current), " ") == Text.Join(done, " ")
    ensures var (l, c) := Step(lines, current, word);
      c != "" ==> Text.Join(Pending(l, c), " ") == Text.Join(done + [word], " ")
  {
    JoinSnoc(done, word);
    var testLine := current + (if current != "" then " " else "") + word;
    if current != "" {
      JoinSnoc(lines, current);
      if |testLine| <= MaxChars {
        JoinSnoc(lines, testLine);
      } else {
        JoinSnoc(lines + [current], word);
      }
    } else {
      assert testLine == word;
      if word != "" {
        assert Pending(lines, word) == [word];
      }
    }
  }

  /** No finished line is empty, and any line holding a space fits. */
  ghost predicate Shaped(lines: seq<string>, current: string) {
    (forall k :: 0 <= k < |lines| ==> lines[k] != [])
    && (forall k :: 0 <= k < |lines| && ' ' in lines[k] ==> |lines[k]| <= MaxChars)
    && (' ' in current ==> |current| <= MaxChars)
  }

  lemma StepShaped(lines: seq<string>, current: string, word: string)
    requires Shaped(lines, current) && word != [] && ' ' !in word
    ensures var (l, c) := Step(lines, current, word); Shaped(l, c) && c != ""
  {
  }

  /** Consecutive lines: the first word of the second would not have fitted after the first. */
  ghost predicate Full(lines: seq<string>) {
    forall k :: 0 <= k < |lines| - 1 ==> |lines[k]| + 1 + |FirstWord(lines[k + 1])| > MaxChars
  }

  /** Each finished line is full, the last one with respect to the line being filled. */
  ghost predicate Greedy(lines: seq<string>, current: string) {
    Full(lines) && (lines != [] ==> |lines[|lines| - 1]| + 1 + |FirstWord(current)| > MaxChars)
  }

  lemma StepGreedy(lines: seq<string>, current: string, word: string)
    requires Greedy(lines, current) && word != [] && ' ' !in word
    ensures var (l, c) := Step(lines, current, word); Greedy(l, c)
  {
    var testLine := current + (if current != "" then " " else "") + word;
    assert FirstWord(word) == word;
    if |testLine| <= MaxChars {
      if current != "" {
        Text.FirstSegmentBeforeSep(current, ' ', word);
        assert testLine == current + [' '] + word;
      }
    } else if current != "" {
      var l := lines + [current];
      forall k | 0 <= k < |l| - 1
        ensures |l[k]| + 1 + |FirstWord(l[k + 1])| > MaxChars
      {
        if k < |lines| - 1 {
          assert l[k] == lines[k] && l[k + 1] == lines[k + 1];
        } else {
          assert l[k] == lines[|lines| - 1] && l[k + 1] == current;
        }
      }
    }
  }

  /** Every word longer than a line so far is a finished line or the current one. */
  ghost predicate LongWordsAlone(words: seq<string>, i: int, lines: seq<string>, current: string)
    requires 0 <= i <= |words|
  {
    forall j :: 0 <= j < i && |words[j]| > MaxChars ==> words[j] in lines || words[j] == current
  }

  lemma StepLongWords(words: seq<string>, i: nat, lines: seq<string>, current: string)
    requires i < |words| && LongWordsAlone(words, i, lines, current)
    ensures var (l, c) := Step(lines, current, words[i]); LongWordsAlone(words, i + 1, l, c)
  {
  }

  /** What the invariants say about the lines once the current one is appended. */
  lemma Finish(words: seq<string>, lines: seq<string>, current: string)
    requires Shaped(lines, current) && Greedy(lines, current) && LongWordsAlone(words, |words|, lines, current)
    ensures var p := Pending(lines, current);
      (forall k :: 0 <= k < |p| ==> p[k] != [])
      && (forall k :: 0 <= k < |p| && ' ' in p[k] ==> |p[k]| <= MaxChars)
      && (forall j :: 0 <= j < |words| && |words[j]| > MaxChars ==> words[j] in p)
      && Full(p)
  {
    if current != "" {
      var p := lines + [current];
      forall k | 0 <= k < |p| - 1
        ensures |p[k]| + 1 + |FirstWord(p[k + 1])| > MaxChars
      {
        if k < |lines| - 1 {
          assert p[k] == lines[k] && p[k + 1] == lines[k + 1];
        } else {
          assert p[k] == lines[|lines| - 1] && p[k + 1] == current;
        }
      }
    }
  }

  /**
   * The wrapping loop. No word is lost or reordered, no line is empty, a line
   * of several words fits in 28 characters, a longer word gets a line of its
   * own, and each line is as full as it can be: the next line's first word
   * would not have fitted after it.
   */
  method WrapMessage(message: string) returns (lines: seq<string>)
    ensures Text.Join(lines, " ") == Text.Join(Words(message), " ")
    ensures forall k :: 0 <= k < |lines| ==> lines[k] != []
    ensures forall k :: 0 <= k < |lines| && ' ' in lines[k] ==> |lines[k]| <= MaxChars
    ensures forall j :: 0 <= j < |Words(message)| && |Words(message)[j]| > MaxChars ==> Words(message)[j] in lines
    ensures forall k :: 0 <= k < |lines| - 1 ==> |lines[k]| + 1 + |FirstWord(lines[k + 1])| > MaxChars
    ensures (forall i :: 0 <= i < |message| ==> Text.IsPySpace(message[i])) ==> lines == []
  {
    var words := Words(message);
    WordsOfBlank(message);
    lines := WrapWords(words);
  }

  /** What holds after the first i words have been placed. */
  ghost predicate Placed(words: seq<string>, i: int, lines: seq<string>, current: string)
    requires 0 <= i <= |words|
  {
    (current == "" <==> i == 0)
    && (i == 0 ==> lines == [])
    && Text.Join(Pending(lines, current), " ") == Text.Join(words[..i], " ")
    && Shaped(lines, current)
    && LongWordsAlone(words, i, lines, current)
    && Greedy(lines, current)
  }

  /** Placing the next word keeps Placed. */
  lemma StepPlaced(words: seq<string>, i: nat, lines: seq<string>, current: string)
    requires i < |words| && words[i] != [] && NoSpace(words[i])
    requires Placed(words, i, lines, current)
    ensures var (l, c) := Step(lines, current, words[i]); Placed(words, i + 1, l, c)
  {
    var word := words[i];
    assert ' ' !in word by {
      assert Text.IsPySpace(' ');
    }
    var (l, c) := Step(lines, current, word);
    StepShaped(lines, current, word);
    assert c != "";
    StepJoin(lines, current, words[..i], word);
    assert words[..i + 1] == words[..i] + [word];
    assert Text.Join(Pending(l, c), " ") == Text.Join(words[..i + 1], " ");
    StepGreedy(lines, current, word);
    StepLongWords(words, i, lines, current);
    assert i + 1 != 0 && (current == "" ==> l == []);
  }

  /** The body of the loop for one word. */
  method PlaceWord(lines: seq<string>, current: string, word: string) returns (l: seq<string>, c: string)
    ensures (l, c) == Step(lines, current, word)
  {
    l, c := lines, current;
    var testLine := current + (if current != "" then " " else "") + word;
    if |testLine| <= MaxChars {
      c := testLine;
    } else {
      if current != "" {
        l := lines + [current];
      }
      c := word;
    }
  }

  /** The loop over the words of the message. */
  method WrapWords(words: seq<string>) returns (lines: seq<string>)
    requires forall i :: 0 <= i < |words| ==> words[i] != [] && NoSpace(words[i])
    ensures Text.Join(lines, " ") == Text.Join(words, " ")
    ensures forall k :: 0 <= k < |lines| ==> lines[k] != []
    ensures forall k :: 0 <= k < |lines| && ' ' in lines[k] ==> |lines[k]| <= MaxChars
    ensures forall j :: 0 <= j < |words| && |words[j]| > MaxChars ==> words[j] in lines
    ensures forall k :: 0 <= k < |lines| - 1 ==> |lines[k]| + 1 + |FirstWord(lines[k + 1])| > MaxChars
    ensures words == [] ==> lines == []
  {
    lines := [];
    var current := "";
    var i := 0;
    while i < |words|
      invariant 0 <= i <= |words|
      invariant Placed(words, i, lines, current)
    {
      StepPlaced(words, i, lines, current);
      lines, current := PlaceWord(lines, current, words[i]);
      i := i + 1;
    }
    WrapDone(words, lines, current);
    ghost var pending := Pending(lines, current);
    if current != "" {
      lines := lines + [current];
    }
    assert lines == pending;
  }

  /** Once every word is placed, the finished lines and the pending one have all the properties of the wrap. */
  lemma WrapDone(words: seq<string>, lines: seq<string>, current: string)
    requires Placed(words, |words|, lines, current)
    ensures var p := Pending(lines, current);
      Text.Join(p, " ") == Text.Join(words, " ")
      && (forall k :: 0 <= k < |p| ==> p[k] != [])
      && (forall k :: 0 <= k < |p| && ' ' in p[k] ==> |p[k]| <= MaxChars)
      && (forall j :: 0 <= j < |words| && |words[j]| > MaxChars ==> words[j] in p)
      && (forall k :: 0 <= k < |p| - 1 ==> |p[k]| + 1 + |FirstWord(p[k + 1])| > MaxChars)
      && (words == [] ==> p == [])
  {
    assert words[..|words|] == words;
    Finish(words, lines, current);
  }

  /** y_pos: below the progress bar when both step and total are given, otherwise higher up. */
  function YPos(step: Value, total: Value): (y: int)
    ensures y == 40 || y == 25
    ensures y == 40 <==> Truthy(step) && Truthy(total)
  {
    if Truthy(step) && Truthy(total) then 40 else 25
  }

  /** The lines drawn: at most the first four, each 16 pixels below the previous one. */
  function Drawn(lines: seq<string>, yPos: int): (r: seq<(int, string)>)
    ensures |r| == if |lines| < MaxLines then |lines| else MaxLines
    ensures forall i :: 0 <= i < |r| ==> r[i] == (yPos + i * LineHeight, lines[i])
  {
    var shown := if |lines| < MaxLines then lines else lines[..MaxLines];
    seq(|shown|, i requires 0 <= i < |shown| => (yPos + i * LineHeight, shown[i]))
  }
}
