/**
 * The pieces of Python's `str` that the code-review nodes use: `split`,
 * `strip`, `splitlines`, `count` and the `in` substring test. Whitespace is
 * ASCII whitespace and lines end at '\n' only.
 */
module Strings {

  /** The ASCII characters `str.strip()` and `str.isspace()` treat as whitespace. */
  predicate IsSpace(c: char)
  {
    c == ' ' || c == '\t' || c == '\n' || c == '\r' || c == '\U{000B}' || c == '\U{000C}'
    || ('\U{001C}' <= c <= '\U{001F}')
  }

  predicate AllSpace(s: string)
  {
    forall k :: 0 <= k < |s| ==> IsSpace(s[k])
  }

  /** Neither end of `s` is whitespace. */
  predicate Stripped(s: string)
  {
    s == [] || (!IsSpace(s[0]) && !IsSpace(s[|s| - 1]))
  }

  /** How many whitespace characters `s` starts with. */
  function LeadingSpace(s: string): (n: nat)
    ensures n <= |s|
  {
    if s != [] && IsSpace(s[0]) then 1 + LeadingSpace(s[1..]) else 0
  }

  /** How many whitespace characters `s` ends with. */
  function TrailingSpace(s: string): (n: nat)
    ensures n <= |s|
  {
    if s != [] && IsSpace(s[|s| - 1]) then 1 + TrailingSpace(s[..|s| - 1]) else 0
  }

  /** `s.strip()`: `s` without its leading and trailing whitespace. */
  function Strip(s: string): string
  {
    var i := LeadingSpace(s);
    s[i..|s| - TrailingSpace(s[i..])]
  }

  lemma {:induction false} LeadingSpaceFacts(s: string)
    ensures AllSpace(s[..LeadingSpace(s)])
    ensures LeadingSpace(s) < |s| ==> !IsSpace(s[LeadingSpace(s)])
  {
    if s != [] && IsSpace(s[0]) {
      LeadingSpaceFacts(s[1..]);
      var n := LeadingSpace(s[1..]);
      forall k | 0 <= k < n + 1 ensures IsSpace(s[k]) {
        if k > 0 { assert s[k] == s[1..][..n][k - 1]; }
      }
    }
  }

  lemma {:induction false} TrailingSpaceFacts(s: string)
    ensures AllSpace(s[|s| - TrailingSpace(s)..])
    ensures TrailingSpace(s) < |s| ==> !IsSpace(s[|s| - TrailingSpace(s) - 1])
  {
    if s != [] && IsSpace(s[|s| - 1]) {
      var t := s[..|s| - 1];
      TrailingSpaceFacts(t);
      var n := TrailingSpace(t);
      forall k | |s| - (n + 1) <= k < |s| ensures IsSpace(s[k]) {
        if k < |s| - 1 { assert s[k] == t[|t| - n..][k - (|t| - n)]; }
      }
    }
  }

  /** Text that starts with a non-whitespace character is not all trailing whitespace. */
  lemma {:induction false} TrailingSpaceShort(s: string)
    ensures s != [] && !IsSpace(s[0]) ==> TrailingSpace(s) < |s|
  {
    if s != [] && IsSpace(s[|s| - 1]) {
      var t := s[..|s| - 1];
      TrailingSpaceShort(t);
      if t != [] { assert t[0] == s[0]; }
    }
  }

  /**
   * `s.strip()` is the piece of `s` between its leading and its trailing
   * whitespace: it has no whitespace at either end, what precedes it and what
   * follows it in `s` is all whitespace, and it is empty exactly when `s` is
   * blank.
   */
  lemma StripFacts(s: string)
    ensures Stripped(Strip(s))
    ensures OccursAt(s, Strip(s), LeadingSpace(s))
    ensures AllSpace(s[..LeadingSpace(s)])
    ensures AllSpace(s[LeadingSpace(s) + |Strip(s)|..])
    ensures Strip(s) == [] <==> AllSpace(s)
  {
    StripEnds(s);
    StripBlank(s);
    LeadingSpaceFacts(s);
    StripTail(s);
  }

  /** What follows `s.strip()` in `s` is whitespace. */
  lemma StripTail(s: string)
    ensures AllSpace(s[LeadingSpace(s) + |Strip(s)|..])
  {
    var i := LeadingSpace(s);
    var t := s[i..];
    var j := TrailingSpace(t);
    TrailingSpaceFacts(t);
    assert s[i + |Strip(s)|..] == t[|t| - j..];
  }

  lemma StripEnds(s: string)
    ensures Stripped(Strip(s))
  {
    var i := LeadingSpace(s);
    var t := s[i..];
    var j := TrailingSpace(t);
    var r := Strip(s);
    assert r == t[..|t| - j];
    if r != [] {
      LeadingSpaceFacts(s);
      TrailingSpaceFacts(t);
      assert r[0] == t[0];
      assert r[|r| - 1] == t[|t| - j - 1];
    }
  }

  lemma StripBlank(s: string)
    ensures Strip(s) == [] <==> AllSpace(s)
  {
    var i := LeadingSpace(s);
    LeadingSpaceFacts(s);
    if i < |s| {
      TrailingSpaceShort(s[i..]);
      assert !AllSpace(s) by { assert !IsSpace(s[i]); }
    } else {
      assert s[..i] == s;
    }
  }

  /** `t` occurs in `s` starting at index `i`. */
  predicate OccursAt(s: string, t: string, i: int)
  {
    0 <= i <= |s| - |t| && s[i..i + |t|] == t
  }

  /** Every character of `s.strip()` occurs in `s`. */
  lemma StripChars(s: string)
    ensures forall c :: c in Strip(s) ==> c in s
  {
    var r := Strip(s);
    var i := LeadingSpace(s);
    forall c | c in r ensures c in s {
      var k :| 0 <= k < |r| && r[k] == c;
      assert s[i + k] == r[k];
    }
  }

  /**
   * `s.split(sep)` for a non-empty separator: cut at every occurrence of
   * `sep`, scanning left to right without overlap. Never empty.
   */
  function Split(s: string, sep: string): (r: seq<string>)
    requires sep != []
    ensures |r| >= 1
    decreases |s|
  {
    if |s| < |sep| then [s]
    else if s[..|sep|] == sep then [""] + Split(s[|sep|..], sep)
    else
      var rest := Split(s[1..], sep);
      [[s[0]] + rest[0]] + rest[1..]
  }

  /** `sep.join(parts)`. */
  function Join(parts: seq<string>, sep: string): string
  {
    if parts == [] then ""
    else if |parts| == 1 then parts[0]
    else parts[0] + sep + Join(parts[1..], sep)
  }

  /** Splitting and joining with the same separator gives back the text. */
  lemma {:induction false} JoinSplit(s: string, sep: string)
    requires sep != []
    ensures Join(Split(s, sep), sep) == s
    decreases |s|
  {
    if |s| < |sep| {
    } else if s[..|sep|] == sep {
      var rest := Split(s[|sep|..], sep);
      JoinSplit(s[|sep|..], sep);
      assert Split(s, sep) == [""] + rest;
      assert Join([""] + rest, sep) == "" + sep + Join(rest, sep);
      assert s == s[..|sep|] + s[|sep|..];
    } else {
      var rest := Split(s[1..], sep);
      JoinSplit(s[1..], sep);
      var first := [s[0]] + rest[0];
      assert Split(s, sep) == [first] + rest[1..];
      if |rest| == 1 {
        assert Join([first], sep) == first;
        assert Join(rest, sep) == rest[0];
      } else {
        assert ([first] + rest[1..])[1..] == rest[1..];
        assert Join(rest, sep) == rest[0] + sep + Join(rest[1..], sep);
      }
      assert s == [s[0]] + s[1..];
    }
  }

  /** `t in s` for strings: `t` occurs as a contiguous piece of `s`. */
  predicate Contains(s: string, t: string)
    decreases |s|
  {
    |t| <= |s| && (s[..|t|] == t || Contains(s[1..], t))
  }

  /** `Contains` is the substring relation. */
  lemma {:induction false} ContainsAt(s: string, t: string)
    ensures Contains(s, t) <==> exists i :: OccursAt(s, t, i)
    decreases |s|
  {
    if |t| <= |s| && s[..|t|] != t {
      ContainsAt(s[1..], t);
      if Contains(s[1..], t) {
        var i :| OccursAt(s[1..], t, i);
        assert s[1..][i..i + |t|] == s[i + 1..i + 1 + |t|];
        assert OccursAt(s, t, i + 1);
      }
      if exists i :: OccursAt(s, t, i) {
        var i :| OccursAt(s, t, i);
        assert i != 0;
        assert s[1..][i - 1..i - 1 + |t|] == s[i..i + |t|];
        assert OccursAt(s[1..], t, i - 1);
      }
    } else if |t| <= |s| {
      assert OccursAt(s, t, 0);
    }
  }

  /** `s.count(c)` for a one-character argument. */
  function Count(s: string, c: char): (n: nat)
    ensures n == multiset(s)[c]
    ensures n <= |s|
    ensures n == 0 <==> c !in s
  {
    if s == [] then 0
    else
      assert s == [s[0]] + s[1..];
      Count(s[1..], c) + (if s[0] == c then 1 else 0)
  }

  /**
   * `s.splitlines()` for '\n' line ends: the pieces between newlines, where a
   * final newline does not start another line and empty text has no lines.
   */
  function SplitLines(s: string): (lines: seq<string>)
    ensures s == [] <==> lines == []
    ensures forall k :: 0 <= k < |lines| ==> '\n' !in lines[k]
  {
    if s == [] then []
    else
      var pieces := Split(s, "\n");
      SplitPieces(s, "\n");
      assert forall k :: 0 <= k < |pieces| ==> '\n' !in pieces[k] by {
        forall k | 0 <= k < |pieces| ensures '\n' !in pieces[k] {
          ContainsChar(pieces[k], '\n');
        }
      }
      if pieces[|pieces| - 1] == "" then
        assert |pieces| > 1 by { JoinSplit(s, "\n"); }
        pieces[..|pieces| - 1]
      else pieces
  }

  /**
   * Joining the lines of `s` with newlines gives back `s`, less a final
   * newline: no text is lost or reordered between the lines.
   */
  lemma SplitLinesJoin(s: string)
    ensures Join(SplitLines(s), "\n") == if s != [] && s[|s| - 1] == '\n' then s[..|s| - 1] else s
  {
    if s != [] {
      var pieces := Split(s, "\n");
      var n := |pieces|;
      JoinSplit(s, "\n");
      SplitPieces(s, "\n");
      var last := pieces[n - 1];
      ContainsChar(last, '\n');
      if last == "" {
        assert n > 1;
        var init := pieces[..n - 1];
        assert pieces == init + [""];
        JoinSnoc(init, "", "\n");
        assert s == Join(init, "\n") + "\n";
        assert s[..|s| - 1] == Join(init, "\n");
      } else if n == 1 {
        assert s == last;
        assert last[|last| - 1] in last;
      } else {
        var init := pieces[..n - 1];
        assert pieces == init + [last];
        JoinSnoc(init, last, "\n");
        assert s[|s| - 1] == last[|last| - 1];
        assert last[|last| - 1] in last;
      }
    }
  }

  /** Joining with one more part appends the separator and that part. */
  lemma {:induction false} JoinSnoc(parts: seq<string>, x: string, sep: string)
    requires parts != []
    ensures Join(parts + [x], sep) == Join(parts, sep) + sep + x
    decreases |parts|
  {
    if |parts| > 1 {
      JoinSnoc(parts[1..], x, sep);
      assert (parts + [x])[1..] == parts[1..] + [x];
    } else {
      assert (parts + [x])[1..] == [x];
    }
  }

  /**
   * No piece of a split holds the separator, and the first piece is the
   * text up to the first occurrence of the separator: it starts `s`.
   */
  lemma {:induction false} SplitPieces(s: string, sep: string)
    requires sep != []
    ensures forall k :: 0 <= k < |Split(s, sep)| ==> !Contains(Split(s, sep)[k], sep)
    ensures |Split(s, sep)[0]| <= |s| && Split(s, sep)[0] == s[..|Split(s, sep)[0]|]
    decreases |s|
  {
    var r := Split(s, sep);
    if |s| < |sep| {
      assert r == [s];
    } else if s[..|sep|] == sep {
      var rest := Split(s[|sep|..], sep);
      SplitPieces(s[|sep|..], sep);
      assert r == [""] + rest;
      forall k | 0 <= k < |r| ensures !Contains(r[k], sep) {
        if k > 0 { assert r[k] == rest[k - 1]; }
      }
    } else {
      var rest := Split(s[1..], sep);
      SplitPieces(s[1..], sep);
      var p := [s[0]] + rest[0];
      assert r == [p] + rest[1..];
      assert p == s[..|p|] by {
        assert rest[0] == s[1..][..|rest[0]|];
      }
      assert !Contains(p, sep) by {
        assert p[1..] == rest[0];
        if |sep| <= |p| {
          assert p[..|sep|] == s[..|sep|];
        }
      }
      forall k | 0 <= k < |r| ensures !Contains(r[k], sep) {
        if k > 0 { assert r[k] == rest[k]; }
      }
    }
  }

  /** For a one-character text, containment is membership of that character. */
  lemma {:induction false} ContainsChar(s: string, c: char)
    ensures Contains(s, [c]) <==> c in s
    decreases |s|
  {
    if s != [] {
      ContainsChar(s[1..], c);
      assert s[..1] == [s[0]];
      assert c in s <==> s[0] == c || c in s[1..] by {
        assert s == [s[0]] + s[1..];
      }
    }
  }
}
