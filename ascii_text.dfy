/**
 * The string primitives the JavaScript sources rely on, restricted to ASCII:
 * `String.prototype.trim`, the `\s` class of `split(/\s+/)`, `toLowerCase`
 * and `includes`.
 */
module AsciiText {

  /** ASCII whitespace: space, tab, line feed, vertical tab, form feed, carriage return. */
  predicate IsSpace(c: char) {
    c == ' ' || '\t' <= c <= '\r'
  }

  predicate AllSpace(s: string) {
    forall i :: 0 <= i < |s| ==> IsSpace(s[i])
  }

  predicate NoSpace(s: string) {
    forall i :: 0 <= i < |s| ==> !IsSpace(s[i])
  }

  /** `s` without its whitespace prefix. */
  function TrimStart(s: string): (r: string)
    ensures |r| <= |s|
    ensures s != [] && IsSpace(s[0]) ==> |r| < |s|
    ensures r == [] || !IsSpace(r[0])
  {
    if s != [] && IsSpace(s[0]) then TrimStart(s[1..]) else s
  }

  /** `s` without its whitespace suffix. */
  function TrimEnd(s: string): (r: string)
    ensures |r| <= |s|
    ensures r == [] || !IsSpace(r[|r| - 1])
  {
    if s != [] && IsSpace(s[|s| - 1]) then TrimEnd(s[..|s| - 1]) else s
  }

  lemma AllSpaceConcat(a: string, b: string)
    ensures AllSpace(a + b) <==> AllSpace(a) && AllSpace(b)
  {
    if AllSpace(a) && AllSpace(b) {
      forall i | 0 <= i < |a + b|
        ensures IsSpace((a + b)[i])
      {
        if i < |a| { assert (a + b)[i] == a[i]; } else { assert (a + b)[i] == b[i - |a|]; }
      }
    }
    if AllSpace(a + b) {
      forall i | 0 <= i < |a|
        ensures IsSpace(a[i])
      {
        assert a[i] == (a + b)[i];
      }
      forall i | 0 <= i < |b|
        ensures IsSpace(b[i])
      {
        assert b[i] == (a + b)[|a| + i];
      }
    }
  }

  /** The whitespace prefix that `TrimStart` removes. */
  function LeadingSpace(s: string): string {
    if s != [] && IsSpace(s[0]) then [s[0]] + LeadingSpace(s[1..]) else []
  }

  /** The whitespace suffix that `TrimEnd` removes. */
  function TrailingSpace(s: string): string {
    if s != [] && IsSpace(s[|s| - 1]) then TrailingSpace(s[..|s| - 1]) + [s[|s| - 1]] else []
  }

  /** `TrimStart` removes a whitespace prefix and nothing else. */
  lemma TrimStartParts(s: string)
    ensures s == LeadingSpace(s) + TrimStart(s) && AllSpace(LeadingSpace(s))
  {
    TrimStartSplits(s);
    LeadingSpaceIsSpace(s);
  }

  lemma {:induction false} TrimStartSplits(s: string)
    ensures s == LeadingSpace(s) + TrimStart(s)
    decreases |s|
  {
    if s != [] && IsSpace(s[0]) {
      TrimStartSplits(s[1..]);
      assert s == [s[0]] + s[1..];
    }
  }

  lemma {:induction false} LeadingSpaceIsSpace(s: string)
    ensures AllSpace(LeadingSpace(s))
    decreases |s|
  {
    if s != [] && IsSpace(s[0]) {
      LeadingSpaceIsSpace(s[1..]);
      AllSpaceConcat([s[0]], LeadingSpace(s[1..]));
    }
  }

  /** `TrimStart` leaves a text that ends in non-whitespace non-empty, with the same end. */
  lemma {:induction false} TrimStartKeepsLast(s: string)
    requires s != [] && !IsSpace(s[|s| - 1])
    ensures TrimStart(s) != [] && TrimStart(s)[|TrimStart(s)| - 1] == s[|s| - 1]
    decreases |s|
  {
    if IsSpace(s[0]) {
      assert s[1..][|s| - 2] == s[|s| - 1];
      TrimStartKeepsLast(s[1..]);
    }
  }

  /** `TrimEnd` removes a whitespace suffix and nothing else. */
  lemma TrimEndParts(s: string)
    ensures s == TrimEnd(s) + TrailingSpace(s) && AllSpace(TrailingSpace(s))
  {
    TrimEndSplits(s);
    TrailingSpaceIsSpace(s);
  }

  lemma {:induction false} TrimEndSplits(s: string)
    ensures s == TrimEnd(s) + TrailingSpace(s)
    decreases |s|
  {
    if s != [] && IsSpace(s[|s| - 1]) {
      var t, c := s[..|s| - 1], s[|s| - 1];
      TrimEndSplits(t);
      calc {
        TrimEnd(s) + TrailingSpace(s);
        TrimEnd(t) + (TrailingSpace(t) + [c]);
        (TrimEnd(t) + TrailingSpace(t)) + [c];
        t + [c];
        s;
      }
    }
  }

  lemma {:induction false} TrailingSpaceIsSpace(s: string)
    ensures AllSpace(TrailingSpace(s))
    decreases |s|
  {
    if s != [] && IsSpace(s[|s| - 1]) {
      TrailingSpaceIsSpace(s[..|s| - 1]);
      AllSpaceConcat(TrailingSpace(s[..|s| - 1]), [s[|s| - 1]]);
    }
  }

  /** The longest whitespace-free prefix of `s`. */
  function TakeWord(s: string): (w: string)
    ensures s != [] && !IsSpace(s[0]) ==> w != []
  {
    if s != [] && !IsSpace(s[0]) then [s[0]] + TakeWord(s[1..]) else []
  }

  /** What follows `TakeWord(s)`: empty, or starting with whitespace. */
  function DropWord(s: string): (r: string)
    ensures |r| <= |s|
    ensures r == [] || IsSpace(r[0])
  {
    if s != [] && !IsSpace(s[0]) then DropWord(s[1..]) else s
  }

  /** A text is its first word followed by the rest. */
  lemma WordParts(s: string)
    ensures s == TakeWord(s) + DropWord(s) && NoSpace(TakeWord(s))
  {
    WordSplits(s);
    TakeWordHasNoSpace(s);
  }

  lemma {:induction false} WordSplits(s: string)
    ensures s == TakeWord(s) + DropWord(s)
    decreases |s|
  {
    if s != [] && !IsSpace(s[0]) {
      WordSplits(s[1..]);
      assert s == [s[0]] + s[1..];
    }
  }

  lemma {:induction false} TakeWordHasNoSpace(s: string)
    ensures NoSpace(TakeWord(s))
    decreases |s|
  {
    if s != [] && !IsSpace(s[0]) {
      TakeWordHasNoSpace(s[1..]);
      var w, w' := TakeWord(s), TakeWord(s[1..]);
      assert w == [s[0]] + w';
      forall i | 0 <= i < |w|
        ensures !IsSpace(w[i])
      {
        if i > 0 { assert w[i] == w'[i - 1]; }
      }
    }
  }

  /** What `Trim` needs about its two halves. */
  lemma TrimEndOfTrimStart(s: string)
    ensures var r := TrimEnd(TrimStart(s));
      && (r == [] <==> AllSpace(s))
      && (r != [] ==> !IsSpace(r[0]))
  {
    var t := TrimStart(s);
    var r := TrimEnd(t);
    TrimStartParts(s);
    TrimEndParts(t);
    var pre, post := LeadingSpace(s), TrailingSpace(t);
    assert s == pre + (r + post);
    AllSpaceConcat(pre, r + post);
    AllSpaceConcat(r, post);
    if r != [] {
      assert t[0] == r[0];
      assert !IsSpace(r[0]);
    }
  }

  /** `String.prototype.trim` over ASCII whitespace. */
  function Trim(s: string): (r: string)
    ensures |r| <= |s|
    ensures r == [] <==> AllSpace(s)
    ensures r != [] ==> !IsSpace(r[0]) && !IsSpace(r[|r| - 1])
  {
    TrimEndOfTrimStart(s);
    TrimEnd(TrimStart(s))
  }

  /** Trimming only removes whitespace: the input is whitespace, the trimmed text, whitespace. */
  lemma TrimParts(s: string) returns (pre: string, post: string)
    ensures s == pre + Trim(s) + post
    ensures AllSpace(pre) && AllSpace(post)
  {
    var t := TrimStart(s);
    TrimStartParts(s);
    TrimEndParts(t);
    pre, post := LeadingSpace(s), TrailingSpace(t);
    assert Trim(s) == TrimEnd(t);
  }

  lemma TrimIdempotent(s: string)
    ensures Trim(Trim(s)) == Trim(s)
  {
    var t := Trim(s);
    if t != [] {
      assert TrimStart(t) == t;
      assert TrimEnd(t) == t;
    }
  }

  function LowerChar(c: char): char {
    if 'A' <= c <= 'Z' then (c as int + 32) as char else c
  }

  /** `String.prototype.toLowerCase` over ASCII letters. */
  function ToLower(s: string): (r: string)
    ensures |r| == |s|
    ensures forall i :: 0 <= i < |r| ==> !('A' <= r[i] <= 'Z')
    ensures forall i :: 0 <= i < |r| ==> r[i] == LowerChar(s[i])
  {
    seq(|s|, i requires 0 <= i < |s| => LowerChar(s[i]))
  }

  lemma ToLowerIdempotent(s: string)
    ensures ToLower(ToLower(s)) == ToLower(s)
  {
  }

  /** Lower-casing a slice is slicing the lower-cased text. */
  lemma ToLowerSlice(s: string, i: nat, j: nat)
    requires i <= j <= |s|
    ensures ToLower(s)[i..j] == ToLower(s[i..j])
  {
  }

  /** `needle` occurs in `hay` at index `i`. */
  predicate OccursAt(hay: string, needle: string, i: nat) {
    i + |needle| <= |hay| && hay[i..i + |needle|] == needle
  }

  /** `String.prototype.includes`. */
  predicate Contains(hay: string, needle: string) {
    exists i | 0 <= i <= |hay| - |needle| :: OccursAt(hay, needle, i)
  }

  /** A text containing `outer` contains every piece of `outer`. */
  lemma ContainsPiece(hay: string, outer: string, i: nat, j: nat)
    requires i <= j <= |outer|
    requires Contains(hay, outer)
    ensures Contains(hay, outer[i..j])
  {
    var k :| 0 <= k <= |hay| - |outer| && OccursAt(hay, outer, k);
    assert hay[k..k + |outer|] == outer;
    forall m | 0 <= m < j - i
      ensures hay[k + i..k + j][m] == outer[i..j][m]
    {
      assert hay[k + i + m] == hay[k..k + |outer|][i + m];
    }
    assert OccursAt(hay, outer[i..j], k + i);
  }
}
