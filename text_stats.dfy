/**
 * The statistics line under the editor (TextEditor.jsx): the character count
 * `value.length`, the word count `value.trim() ? value.trim().split(/\s+/).length : 0`,
 * and the length bucket shown both as a label and as a coloured dot.
 */
module TextStats {
  import opened AsciiText

  // ---------------------------------------------------------------- word count

  /**
   * `s.split(/\s+/)`: the pieces between maximal whitespace runs. As in JavaScript, a
   * leading or trailing run yields an empty first or last piece.
   */
  function SplitOnSpaceRuns(s: string): (pieces: seq<string>)
    ensures |pieces| >= 1
    decreases |s|
  {
    var rest := DropWord(s);
    if rest == [] then [s] else [TakeWord(s)] + SplitOnSpaceRuns(TrimStart(rest))
  }

  function WordCount(value: string): (n: nat)
    ensures n == 0 <==> AllSpace(value)
  {
    var t := Trim(value);
    if t != [] then |SplitOnSpaceRuns(t)| else 0
  }

  /**
   * Reference count of words: scanning left to right, a word starts at every
   * non-whitespace character that follows whitespace or the start of the text.
   * `afterSpace` says whether the character before `s` was whitespace (or absent).
   */
  function WordStarts(s: string, afterSpace: bool): nat
    decreases |s|
  {
    if s == [] then 0
    else (if afterSpace && !IsSpace(s[0]) then 1 else 0) + WordStarts(s[1..], IsSpace(s[0]))
  }

  function CountWords(s: string): nat {
    WordStarts(s, true)
  }

  lemma {:induction false} WordStartsConcat(a: string, b: string, afterSpace: bool)
    ensures WordStarts(a + b, afterSpace)
         == WordStarts(a, afterSpace) + WordStarts(b, if a == [] then afterSpace else IsSpace(a[|a| - 1]))
    decreases |a|
  {
    if a == [] {
      assert a + b == b;
    } else {
      assert (a + b)[0] == a[0];
      assert (a + b)[1..] == a[1..] + b;
      WordStartsConcat(a[1..], b, IsSpace(a[0]));
    }
  }

  lemma {:induction false} WordStartsInSpace(s: string, afterSpace: bool)
    requires AllSpace(s)
    ensures WordStarts(s, afterSpace) == 0
    decreases |s|
  {
    if s != [] {
      WordStartsInSpace(s[1..], IsSpace(s[0]));
    }
  }

  lemma {:induction false} WordStartsInWord(s: string, afterSpace: bool)
    requires NoSpace(s)
    ensures WordStarts(s, afterSpace) == if s != [] && afterSpace then 1 else 0
    decreases |s|
  {
    if s != [] {
      WordStartsInWord(s[1..], IsSpace(s[0]));
    }
  }

  /**
   * The cut `split(/\s+/)` makes in a text without surrounding whitespace that still
   * has a whitespace character: a word, a non-empty whitespace run, and a rest that
   * again has no surrounding whitespace.
   */
  lemma SplitStep(s: string)
    requires s != [] && !IsSpace(s[0]) && !IsSpace(s[|s| - 1])
    requires DropWord(s) != []
    ensures var w, gap, rest := TakeWord(s), LeadingSpace(DropWord(s)), TrimStart(DropWord(s));
      && s == w + (gap + rest)
      && w != [] && NoSpace(w) && gap != [] && AllSpace(gap)
      && rest != [] && !IsSpace(rest[0]) && !IsSpace(rest[|rest| - 1])
      && SplitOnSpaceRuns(s) == [w] + SplitOnSpaceRuns(rest)
  {
    var d := DropWord(s);
    WordParts(s);
    TrimStartParts(d);
    var w, gap, rest := TakeWord(s), LeadingSpace(d), TrimStart(d);
    assert gap != [];
    assert s[|s| - 1] == d[|d| - 1];
    TrimStartKeepsLast(d);
  }

  /** On a text without surrounding whitespace, `split(/\s+/)` yields one piece per word. */
  lemma {:induction false} SplitCountsWords(s: string)
    requires s != [] && !IsSpace(s[0]) && !IsSpace(s[|s| - 1])
    ensures |SplitOnSpaceRuns(s)| == CountWords(s)
    decreases |s|
  {
    WordParts(s);
    if DropWord(s) == [] {
      assert s == TakeWord(s);
      WordStartsInWord(s, true);
    } else {
      SplitStep(s);
      var w, gap, rest := TakeWord(s), LeadingSpace(DropWord(s)), TrimStart(DropWord(s));
      SplitCountsWords(rest);
      WordStartsConcat(w, gap + rest, true);
      WordStartsInWord(w, true);
      WordStartsConcat(gap, rest, false);
      WordStartsInSpace(gap, false);
    }
  }

  /** A word: a non-empty run of non-whitespace characters. */
  predicate IsWord(w: string) {
    w != [] && NoSpace(w)
  }

  /** Every piece of such a split is a word. */
  lemma {:induction false} SplitPiecesAreWords(s: string)
    requires s != [] && !IsSpace(s[0]) && !IsSpace(s[|s| - 1])
    ensures forall p | p in SplitOnSpaceRuns(s) :: IsWord(p)
    decreases |s|
  {
    WordParts(s);
    if DropWord(s) == [] {
      assert s == TakeWord(s);
      assert SplitOnSpaceRuns(s) == [s];
    } else {
      SplitStep(s);
      var rest := TrimStart(DropWord(s));
      SplitPiecesAreWords(rest);
    }
  }

  /** Whitespace around a text adds no words. */
  lemma SurroundingSpaceAddsNoWords(pre: string, t: string, post: string)
    requires AllSpace(pre) && AllSpace(post)
    ensures WordStarts(pre + t + post, true) == WordStarts(t, true)
  {
    WordStartsConcat(pre + t, post, true);
    WordStartsInSpace(post, if pre + t == [] then true else IsSpace((pre + t)[|pre + t| - 1]));
    WordStartsConcat(pre, t, true);
    WordStartsInSpace(pre, true);
  }

  /** The displayed word count is the number of words of the value, trimmed or not. */
  lemma WordCountCountsWords(value: string)
    ensures WordCount(value) == CountWords(value)
  {
    var pre, post := TrimParts(value);
    var t := Trim(value);
    SurroundingSpaceAddsNoWords(pre, t, post);
    if t == [] {
      assert CountWords(t) == 0;
    } else {
      SplitCountsWords(t);
    }
  }

  /** " hi \t yo\n" has two words. */
  lemma WordCountExample()
    ensures CountWords(" hi \t yo\n") == 2
  {
  }

  // ---------------------------------------------------------------- length bucket

  datatype Status = Empty | Short | Medium | Long

  /** The bucket a text of the given length falls in. */
  function StatusOf(length: nat): (b: Status)
    ensures b == Empty <==> length == 0
    ensures b == Short <==> 0 < length < 50
    ensures b == Medium <==> 50 <= length < 200
    ensures b == Long <==> length >= 200
  {
    if length == 0 then Empty else if length < 50 then Short else if length < 200 then Medium else Long
  }

  /** The status label's text. */
  function StatusLabel(length: nat): string {
    if length == 0 then "Empty" else if length < 50 then "Short" else if length < 200 then "Medium" else "Long"
  }

  /** The indicator dot's colour class. */
  function IndicatorClass(length: nat): string {
    if length == 0 then "bg-gray-300" else if length < 50 then "bg-yellow-400"
    else if length < 200 then "bg-green-400" else "bg-blue-400"
  }

  function LabelOf(b: Status): string {
    match b
    case Empty => "Empty"
    case Short => "Short"
    case Medium => "Medium"
    case Long => "Long"
  }

  function ClassOf(b: Status): string {
    match b
    case Empty => "bg-gray-300"
    case Short => "bg-yellow-400"
    case Medium => "bg-green-400"
    case Long => "bg-blue-400"
  }

  /** Label and dot are chosen by the same thresholds: both show the text's one bucket. */
  lemma LabelAndIndicatorAgree(length: nat)
    ensures StatusLabel(length) == LabelOf(StatusOf(length))
    ensures IndicatorClass(length) == ClassOf(StatusOf(length))
  {
  }

  /** Different buckets look different, both as label and as dot. */
  lemma BucketsAreDistinguishable(b1: Status, b2: Status)
    ensures LabelOf(b1) == LabelOf(b2) <==> b1 == b2
    ensures ClassOf(b1) == ClassOf(b2) <==> b1 == b2
  {
  }

  // ---------------------------------------------------------------- the whole line

  datatype Stats = Stats(characters: nat, words: nat, status: string, indicator: string)

  function EditorStats(value: string): (r: Stats)
    ensures r.characters == |value|
    ensures r.words == 0 <==> AllSpace(value)
    ensures r.words <= |value|
    ensures r.status == LabelOf(StatusOf(|value|)) && r.indicator == ClassOf(StatusOf(|value|))
  {
    WordCountCountsWords(value);
    WordStartsAtMostLength(value, true);
    Stats(|value|, WordCount(value), StatusLabel(|value|), IndicatorClass(|value|))
  }

  lemma {:induction false} WordStartsAtMostLength(s: string, afterSpace: bool)
    ensures WordStarts(s, afterSpace) <= |s|
    decreases |s|
  {
    if s != [] {
      WordStartsAtMostLength(s[1..], IsSpace(s[0]));
    }
  }
}
