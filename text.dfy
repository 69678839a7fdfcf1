/**
 * String operations the helpers rely on: lower-casing, substring search
 * (Python's `kw in text`), newline replacement and `sep.join(parts)`.
 * Strings are sequences of Unicode code points, as in Python.
 */
module Text {

  /** ASCII lower-casing of one character; every other character is kept. */
  function LowerChar(c: char): (r: char)
    ensures !('A' <= r <= 'Z')
    ensures 'A' <= c <= 'Z' ==> r as int == c as int + 32
    ensures !('A' <= c <= 'Z') ==> r == c
  {
    if 'A' <= c <= 'Z' then (c as int + 32) as char else c
  }

  /** `s.lower()`, restricted to the ASCII letters. */
  function Lower(s: string): (r: string)
    ensures |r| == |s|
    ensures forall i :: 0 <= i < |s| ==> r[i] == LowerChar(s[i])
  {
    seq(|s|, i requires 0 <= i < |s| => LowerChar(s[i]))
  }

  /** Lower-casing a lower-cased string changes nothing. */
  lemma LowerIdempotent(s: string)
    ensures Lower(Lower(s)) == Lower(s)
  {
    var t := Lower(s);
    assert forall i :: 0 <= i < |t| ==> LowerChar(t[i]) == t[i];
  }

  /** `kw` occurs in `text` starting at position `i`. */
  ghost predicate OccursAt(kw: string, text: string, i: int)
  {
    0 <= i && i + |kw| <= |text| && text[i..i + |kw|] == kw
  }

  /** Reference definition of Python's `kw in text` for strings. */
  ghost predicate IsSubstring(kw: string, text: string)
  {
    exists i :: OccursAt(kw, text, i)
  }

  /** An occurrence in `text[1..]` is an occurrence in `text`, one place later, and back. */
  lemma OccursShift(kw: string, text: string, i: int)
    requires |text| > 0 && 0 <= i
    ensures OccursAt(kw, text[1..], i) <==> OccursAt(kw, text, i + 1)
  {
    if 0 <= i && i + |kw| <= |text| - 1 {
      assert text[1..][i..i + |kw|] == text[i + 1..i + 1 + |kw|];
    }
  }

  /** Executable substring search, scanning start positions left to right. */
  function Contains(text: string, kw: string): (b: bool)
    ensures b <==> IsSubstring(kw, text)
    decreases |text|
  {
    if |kw| > |text| then
      assert forall i :: !OccursAt(kw, text, i);
      false
    else if text[..|kw|] == kw then
      assert OccursAt(kw, text, 0);
      true
    else
      assert |text| > 0 by {
        assert |kw| > 0 by { assert text[..0] == []; }
      }
      var rest := Contains(text[1..], kw);
      assert rest ==> IsSubstring(kw, text) by {
        if rest {
          var i :| OccursAt(kw, text[1..], i);
          OccursShift(kw, text, i);
        }
      }
      assert IsSubstring(kw, text) ==> rest by {
        if IsSubstring(kw, text) {
          var i :| OccursAt(kw, text, i);
          assert i != 0;
          OccursShift(kw, text, i - 1);
        }
      }
      rest
  }

  /** A string occurs in any string it is concatenated into. */
  lemma SubstringOfConcat(a: string, b: string, c: string)
    ensures IsSubstring(b, a + b + c)
  {
    assert (a + b + c)[|a|..|a| + |b|] == b;
    assert OccursAt(b, a + b + c, |a|);
  }

  /** An occurrence inside `b` is an occurrence inside `a + b + c`. */
  lemma SubstringWidens(kw: string, a: string, b: string, c: string)
    requires IsSubstring(kw, b)
    ensures IsSubstring(kw, a + b + c)
  {
    var i :| OccursAt(kw, b, i);
    assert (a + b + c)[|a| + i..|a| + i + |kw|] == b[i..i + |kw|];
    assert OccursAt(kw, a + b + c, |a| + i);
  }

  /** `s.replace('\n', ' ')`. */
  function ReplaceNewlines(s: string): (r: string)
    ensures |r| == |s|
    ensures forall i :: 0 <= i < |s| ==> r[i] == (if s[i] == '\n' then ' ' else s[i])
    ensures '\n' !in r
  {
    seq(|s|, i requires 0 <= i < |s| => if s[i] == '\n' then ' ' else s[i])
  }

  /** `sep.join(parts)`. */
  function Join(sep: string, parts: seq<string>): (r: string)
    decreases |parts|
  {
    if parts == [] then ""
    else if |parts| == 1 then parts[0]
    else parts[0] + sep + Join(sep, parts[1..])
  }

  /** Number of occurrences of the character `c` in `s`. */
  function CountChar(s: string, c: char): (n: nat)
    ensures n <= |s|
    ensures n == 0 <==> c !in s
  {
    if s == [] then 0 else (if s[0] == c then 1 else 0) + CountChar(s[1..], c)
  }

  lemma CountCharConcat(s: string, t: string, c: char)
    ensures CountChar(s + t, c) == CountChar(s, c) + CountChar(t, c)
  {
    if s == [] {
      assert s + t == t;
    } else {
      assert (s + t)[1..] == s[1..] + t;
      CountCharConcat(s[1..], t, c);
    }
  }

  /**
   * Joining comma-free parts with ", " puts exactly one comma between
   * consecutive parts, so the parts can be told apart again, and every part
   * occurs in the result.
   */
  lemma {:induction false} JoinCommas(parts: seq<string>)
    requires forall i :: 0 <= i < |parts| ==> ',' !in parts[i]
    ensures |parts| > 0 ==> CountChar(Join(", ", parts), ',') == |parts| - 1
    ensures forall i :: 0 <= i < |parts| ==> IsSubstring(parts[i], Join(", ", parts))
    decreases |parts|
  {
    if |parts| == 1 {
      SubstringOfConcat("", parts[0], "");
      assert "" + parts[0] + "" == parts[0];
    } else if |parts| > 1 {
      var rest := Join(", ", parts[1..]);
      JoinCommas(parts[1..]);
      assert Join(", ", parts) == parts[0] + ", " + rest;
      CountCharConcat(parts[0] + ", ", rest, ',');
      CountCharConcat(parts[0], ", ", ',');
      assert CountChar(", ", ',') == 1;
      forall i | 0 <= i < |parts|
        ensures IsSubstring(parts[i], Join(", ", parts))
      {
        if i == 0 {
          SubstringOfConcat("", parts[0], ", " + rest);
          assert "" + parts[0] + (", " + rest) == Join(", ", parts);
        } else {
          assert parts[1..][i - 1] == parts[i];
          SubstringWidens(parts[i], parts[0] + ", ", rest, "");
          assert parts[0] + ", " + rest + "" == Join(", ", parts);
        }
      }
    }
  }
}
