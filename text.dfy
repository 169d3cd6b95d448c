/** String helpers standing for the JavaScript string methods the source calls:
    `trim`, `includes`, `toLowerCase` and the regular-expression class `\s`. */
module Text {

  /** The characters of the regular-expression class `\s`, which are also the ones
      `String.prototype.trim` removes (white space and line terminators). */
  predicate IsSpace(c: char) {
    || c == '\t' || c == '\n' || c == '\U{000B}' || c == '\U{000C}' || c == '\r' || c == ' '
    || c == '\U{00A0}' || c == '\U{1680}' || ('\U{2000}' <= c <= '\U{200A}')
    || c == '\U{2028}' || c == '\U{2029}' || c == '\U{202F}' || c == '\U{205F}'
    || c == '\U{3000}' || c == '\U{FEFF}'
  }

  /** Every character of `s` is white space (true of the empty string). */
  predicate AllSpace(s: string) {
    forall i :: 0 <= i < |s| ==> IsSpace(s[i])
  }

  /** The number of leading white-space characters of `s`. */
  function LeadingSpace(s: string): (n: nat)
    ensures n <= |s|
    ensures forall i :: 0 <= i < n ==> IsSpace(s[i])
    ensures n == |s| || !IsSpace(s[n])
  {
    if |s| > 0 && IsSpace(s[0]) then
      var m := LeadingSpace(s[1..]);
      assert forall i :: 1 <= i < 1 + m ==> s[i] == s[1..][i - 1];
      1 + m
    else 0
  }

  /** The length of `s` once its trailing white space is removed. */
  function TrailingStart(s: string): (n: nat)
    ensures n <= |s|
    ensures forall i :: n <= i < |s| ==> IsSpace(s[i])
    ensures n == 0 || !IsSpace(s[n - 1])
  {
    if |s| > 0 && IsSpace(s[|s| - 1]) then
      var m := TrailingStart(s[..|s| - 1]);
      assert forall i :: m <= i < |s| - 1 ==> s[i] == s[..|s| - 1][i];
      m
    else |s|
  }

  /** `s` with its leading white space removed. */
  function TrimStart(s: string): (r: string) {
    s[LeadingSpace(s)..]
  }

  /** `s` with its trailing white space removed. */
  function TrimEnd(s: string): (r: string) {
    s[..TrailingStart(s)]
  }

  /** `s.trim()`. */
  function Trim(s: string): (r: string) {
    TrimEnd(TrimStart(s))
  }

  /** The number of characters of `s` that are not white space. */
  function NonSpaceCount(s: string): (r: nat) {
    if s == [] then 0
    else (if IsSpace(s[|s| - 1]) then 0 else 1) + NonSpaceCount(s[..|s| - 1])
  }

  lemma {:induction false} NonSpaceCountAppend(a: string, b: string)
    ensures NonSpaceCount(a + b) == NonSpaceCount(a) + NonSpaceCount(b)
    decreases |b|
  {
    if b == [] {
      assert a + b == a;
    } else {
      assert (a + b)[..|a + b| - 1] == a + b[..|b| - 1];
      NonSpaceCountAppend(a, b[..|b| - 1]);
    }
  }

  lemma {:induction false} AllSpaceCount(s: string)
    ensures AllSpace(s) <==> NonSpaceCount(s) == 0
    decreases |s|
  {
    if s != [] {
      AllSpaceCount(s[..|s| - 1]);
      if AllSpace(s[..|s| - 1]) && IsSpace(s[|s| - 1]) {
        assert forall i :: 0 <= i < |s| ==> IsSpace(s[i]) by {
          forall i | 0 <= i < |s| ensures IsSpace(s[i]) {
            if i < |s| - 1 { assert s[i] == s[..|s| - 1][i]; }
          }
        }
      }
    }
  }

  /** `s.trim()` is the part of `s` between its first and last non-space characters,
      and everything cut off is white space. */
  lemma TrimShape(s: string)
    ensures exists i, j :: 0 <= i <= j <= |s| && Trim(s) == s[i..j] && AllSpace(s[..i]) && AllSpace(s[j..])
    ensures Trim(s) == [] || (!IsSpace(Trim(s)[0]) && !IsSpace(Trim(s)[|Trim(s)| - 1]))
  {
    var i := LeadingSpace(s);
    var t := s[i..];
    var m := TrailingStart(t);
    var j := i + m;
    assert Trim(s) == s[i..j];
    assert AllSpace(s[..i]) by {
      forall k | 0 <= k < i ensures IsSpace(s[..i][k]) {
        assert s[..i][k] == s[k];
      }
    }
    assert AllSpace(s[j..]) by {
      forall k | 0 <= k < |s| - j ensures IsSpace(s[j..][k]) {
        assert s[j..][k] == t[m + k];
      }
    }
    if m > 0 {
      assert Trim(s)[0] == t[0] == s[i];
      assert Trim(s)[m - 1] == t[m - 1];
    }
  }

  lemma TrimStartKeepsCount(s: string)
    ensures NonSpaceCount(TrimStart(s)) == NonSpaceCount(s)
  {
    var n := LeadingSpace(s);
    assert s == s[..n] + s[n..];
    NonSpaceCountAppend(s[..n], s[n..]);
    assert AllSpace(s[..n]) by {
      forall k | 0 <= k < n ensures IsSpace(s[..n][k]) {
        assert s[..n][k] == s[k];
      }
    }
    AllSpaceCount(s[..n]);
  }

  lemma TrimEndKeepsCount(s: string)
    ensures NonSpaceCount(TrimEnd(s)) == NonSpaceCount(s)
  {
    var n := TrailingStart(s);
    assert s == s[..n] + s[n..];
    NonSpaceCountAppend(s[..n], s[n..]);
    assert AllSpace(s[n..]) by {
      forall k | 0 <= k < |s| - n ensures IsSpace(s[n..][k]) {
        assert s[n..][k] == s[n + k];
      }
    }
    AllSpaceCount(s[n..]);
  }

  /** Trimming removes only white space, so it keeps the non-space count. */
  lemma TrimKeepsCount(s: string)
    ensures NonSpaceCount(Trim(s)) == NonSpaceCount(s)
  {
    TrimStartKeepsCount(s);
    TrimEndKeepsCount(TrimStart(s));
  }

  lemma NonSpaceCountSingle(c: char)
    ensures NonSpaceCount([c]) == if IsSpace(c) then 0 else 1
  {
    assert [c][..0] == [];
  }

  /** A string that starts and ends with a non-space character has at least one,
      and at least two when it is longer than one character. */
  lemma CountBetweenEnds(t: string)
    requires t != [] && !IsSpace(t[0]) && !IsSpace(t[|t| - 1])
    ensures |t| == 1 ==> NonSpaceCount(t) == 1
    ensures |t| >= 2 ==> NonSpaceCount(t) >= 2
  {
    if |t| == 1 {
      assert t == [t[0]];
      NonSpaceCountSingle(t[0]);
    } else {
      var mid := t[1..|t| - 1];
      assert t == ([t[0]] + mid) + [t[|t| - 1]];
      NonSpaceCountAppend([t[0]] + mid, [t[|t| - 1]]);
      NonSpaceCountAppend([t[0]], mid);
      NonSpaceCountSingle(t[0]);
      NonSpaceCountSingle(t[|t| - 1]);
    }
  }

  /** `s.trim()` is empty exactly when `s` is all white space, and it has length
      one exactly when `s` has a single non-space character. */
  lemma TrimCount(s: string)
    ensures Trim(s) == [] <==> NonSpaceCount(s) == 0
    ensures |Trim(s)| == 1 <==> NonSpaceCount(s) == 1
    ensures |Trim(s)| >= 2 <==> NonSpaceCount(s) >= 2
  {
    TrimShape(s);
    TrimKeepsCount(s);
    if Trim(s) != [] {
      CountBetweenEnds(Trim(s));
    }
  }

  /** `sub` occurs in `s` starting at index `i`. */
  predicate OccursAt(s: string, sub: string, i: int) {
    0 <= i && i + |sub| <= |s| && s[i..i + |sub|] == sub
  }

  /** `s.includes(sub)`: a left-to-right search for `sub` in `s`. */
  predicate Contains(s: string, sub: string)
    decreases |s|
  {
    (|sub| <= |s| && s[..|sub|] == sub) || (|s| > 0 && Contains(s[1..], sub))
  }

  lemma OccursShift(s: string, sub: string, i: int)
    requires |s| > 0 && i >= 1
    ensures OccursAt(s, sub, i) <==> OccursAt(s[1..], sub, i - 1)
  {
    if 0 <= i - 1 && i + |sub| <= |s| {
      assert s[1..][i - 1..i - 1 + |sub|] == s[i..i + |sub|];
    }
  }

  /** The search finds `sub` exactly when `sub` occurs at some index of `s`. */
  lemma {:induction false} ContainsIff(s: string, sub: string)
    ensures Contains(s, sub) <==> exists i :: OccursAt(s, sub, i)
    decreases |s|
  {
    if |sub| <= |s| && s[..|sub|] == sub {
      assert OccursAt(s, sub, 0);
    } else {
      assert !OccursAt(s, sub, 0);
      if |s| > 0 {
        ContainsIff(s[1..], sub);
        if Contains(s[1..], sub) {
          var i :| OccursAt(s[1..], sub, i);
          OccursShift(s, sub, i + 1);
        }
        if i :| OccursAt(s, sub, i) {
          OccursShift(s, sub, i);
        }
      }
    }
  }

  /** `toLowerCase` on one character; only the ASCII letters are mapped. */
  function LowerChar(c: char): (d: char)
    ensures 'A' <= c <= 'Z' ==> 'a' <= d <= 'z' && d as int == c as int + ('a' as int - 'A' as int)
    ensures !('A' <= c <= 'Z') ==> d == c
  {
    if 'A' <= c <= 'Z' then (c as int - 'A' as int + 'a' as int) as char else c
  }

  /** `s.toLowerCase()`, for the ASCII letters. */
  function Lower(s: string): (r: string)
    ensures |r| == |s| && forall i :: 0 <= i < |s| ==> r[i] == LowerChar(s[i])
  {
    seq(|s|, i requires 0 <= i < |s| => LowerChar(s[i]))
  }
}
