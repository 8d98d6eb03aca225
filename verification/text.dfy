/** The handful of Python `str` operations the evaluators rely on:
    `in`, `replace(c, '')`, `strip()`, `split()[0]` and ASCII `lower()`. */
module Text {
  import opened Common

  /** The ASCII characters `str.split()` and `strip()` cut at: space, tab,
      line feed, vertical tab, form feed, carriage return, and the four
      separators 0x1C to 0x1F. */
  predicate IsSpace(c: char) {
    c == ' ' || '\t' <= c <= '\r' || '\U{001C}' <= c <= '\U{001F}'
  }

  predicate IsDigit(c: char) {
    '0' <= c <= '9'
  }

  predicate AllDigits(s: string) {
    forall i :: 0 <= i < |s| ==> IsDigit(s[i])
  }

  predicate StartsWith(s: string, t: string) {
    |t| <= |s| && s[..|t|] == t
  }

  /** `t in s` for two Python strings. */
  predicate Contains(s: string, t: string)
    decreases |s|
  {
    StartsWith(s, t) || (|s| > 0 && Contains(s[1..], t))
  }

  /** A non-empty needle can only occur in a text that holds its first character. */
  lemma {:induction false} ContainsFirstChar(s: string, t: string)
    requires |t| > 0
    ensures Contains(s, t) ==> t[0] in s
    decreases |s|
  {
    if |s| > 0 {
      ContainsFirstChar(s[1..], t);
      if StartsWith(s, t) {
        assert s[0] == s[..|t|][0];
      }
      assert t[0] in s[1..] ==> t[0] in s;
    }
  }

  /** For a one-character needle, `t in s` is membership of that character. */
  lemma {:induction false} ContainsChar(s: string, c: char)
    ensures Contains(s, [c]) <==> c in s
    decreases |s|
  {
    if s != [] {
      ContainsChar(s[1..], c);
      assert s == [s[0]] + s[1..];
    }
  }

  /** The text with every occurrence of `c` deleted. */
  function Remove(s: string, c: char): (r: string)
    ensures |r| <= |s|
    ensures forall x :: x in r <==> x in s && x != c
  {
    if s == [] then []
    else (if s[0] == c then [] else [s[0]]) + Remove(s[1..], c)
  }

  /** Removing a character that does not occur changes nothing. */
  lemma {:induction false} RemoveAbsent(s: string, c: char)
    requires c !in s
    ensures Remove(s, c) == s
  {
    if s != [] {
      RemoveAbsent(s[1..], c);
      assert s == [s[0]] + s[1..];
    }
  }

  /** `replace` works piece by piece. */
  lemma {:induction false} RemoveConcat(a: string, b: string, c: char)
    ensures Remove(a + b, c) == Remove(a, c) + Remove(b, c)
  {
    if a != [] {
      assert (a + b)[1..] == a[1..] + b;
      RemoveConcat(a[1..], b, c);
    } else {
      assert a + b == b;
    }
  }

  /** Removing a character that occurs only as the last one drops it. */
  lemma RemoveLast(s: string, c: char)
    requires c !in s
    ensures Remove(s + [c], c) == s
  {
    RemoveConcat(s, [c], c);
    RemoveAbsent(s, c);
    assert Remove([c], c) == [];
  }

  function TrimLeft(s: string): (r: string)
    ensures |r| <= |s|
    ensures r == [] || !IsSpace(r[0])
    ensures r == s[|s| - |r|..]
    ensures forall i :: 0 <= i < |s| - |r| ==> IsSpace(s[i])
  {
    if s != [] && IsSpace(s[0]) then TrimLeft(s[1..]) else s
  }

  function TrimRight(s: string): (r: string)
    ensures |r| <= |s|
    ensures r == [] || !IsSpace(r[|r| - 1])
    ensures r == s[..|r|]
    ensures forall i :: |r| <= i < |s| ==> IsSpace(s[i])
  {
    if s != [] && IsSpace(s[|s| - 1]) then TrimRight(s[..|s| - 1]) else s
  }

  /** The text without leading and trailing whitespace. */
  function Strip(s: string): string {
    TrimRight(TrimLeft(s))
  }

  /** The longest prefix of `s` without whitespace. */
  function Word(s: string): (w: string)
    ensures |w| <= |s|
    ensures w == s[..|w|]
    ensures forall i :: 0 <= i < |w| ==> !IsSpace(w[i])
    ensures |w| == |s| || IsSpace(s[|w|])
  {
    if s == [] || IsSpace(s[0]) then [] else [s[0]] + Word(s[1..])
  }

  /** The first whitespace-separated word, or None where there is none
      (where Python raises IndexError). */
  function FirstToken(s: string): (r: Option<string>)
    ensures r.Some? ==> r.value != [] && forall i :: 0 <= i < |r.value| ==> !IsSpace(r.value[i])
    ensures r.None? <==> forall i :: 0 <= i < |s| ==> IsSpace(s[i])
  {
    var t := TrimLeft(s);
    if t == [] then None else Some(Word(t))
  }

  /** A text without whitespace is its own first token and its own strip. */
  lemma {:induction false} SolidText(s: string)
    requires s != [] && forall i :: 0 <= i < |s| ==> !IsSpace(s[i])
    ensures FirstToken(s) == Some(s)
    ensures Strip(s) == s
  {
    assert TrimLeft(s) == s;
    assert TrimRight(s) == s;
    SolidWord(s);
  }

  lemma {:induction false} SolidWord(s: string)
    requires forall i :: 0 <= i < |s| ==> !IsSpace(s[i])
    ensures Word(s) == s
  {
    if s != [] {
      SolidWord(s[1..]);
      assert s == [s[0]] + s[1..];
    }
  }

  /** Trailing whitespace does not change the first word. */
  lemma {:induction false} WordIgnoresTrailingSpace(t: string, m: nat)
    requires m <= |t| && forall i :: m <= i < |t| ==> IsSpace(t[i])
    ensures Word(t[..m]) == Word(t)
  {
    if t != [] && !IsSpace(t[0]) {
      assert m > 0;
      assert t[..m][1..] == t[1..][..m - 1];
      WordIgnoresTrailingSpace(t[1..], m - 1);
    }
  }

  /** Stripping first does not change the first word. */
  lemma StripKeepsFirstToken(s: string)
    ensures FirstToken(Strip(s)) == FirstToken(s)
  {
    var t := TrimLeft(s);
    var r := TrimRight(t);
    if t != [] {
      assert r != [] && r[0] == t[0];
      assert TrimLeft(r) == r;
      WordIgnoresTrailingSpace(t, |r|);
    }
  }

  function LowerChar(c: char): char {
    if 'A' <= c <= 'Z' then (c as int + 32) as char else c
  }

  /** Lower case for ASCII letters; other characters are kept. */
  function Lower(s: string): (r: string)
    ensures |r| == |s|
    ensures forall i :: 0 <= i < |s| ==> r[i] == LowerChar(s[i])
  {
    if s == [] then [] else [LowerChar(s[0])] + Lower(s[1..])
  }
}
