/**
  The few string operations the importer relies on: stripping surrounding
  whitespace, lower-casing, splitting on a delimiter and replacing one
  character by another. Whitespace and case are ASCII only.
*/
module Text {

  /** The ASCII characters that stripping removes: space, tab, line feed,
      vertical tab, form feed, carriage return and the four separators
      U+001C to U+001F. */
  predicate IsSpace(c: char) {
    c == ' ' || c == '\t' || c == '\n' || c == '\U{B}' || c == '\U{C}' || c == '\r'
    || ('\U{1C}' <= c <= '\U{1F}')
  }

  predicate NoSpaceAtEnds(s: string) {
    s != [] ==> !IsSpace(s[0]) && !IsSpace(s[|s| - 1])
  }

  predicate AllSpace(s: string) {
    forall k :: 0 <= k < |s| ==> IsSpace(s[k])
  }

  /** The number of whitespace characters `s` starts with. */
  function LeadingSpaces(s: string): (n: nat)
    ensures n <= |s|
  {
    if |s| > 0 && IsSpace(s[0]) then 1 + LeadingSpaces(s[1..]) else 0
  }

  /** The length of `s` without its trailing whitespace. */
  function TrailingStart(s: string): (n: nat)
    ensures n <= |s|
  {
    if |s| > 0 && IsSpace(s[|s| - 1]) then TrailingStart(s[..|s| - 1]) else |s|
  }

  /** Strips whitespace at both ends. */
  function Strip(s: string): (r: string) {
    var t := s[LeadingSpaces(s)..];
    t[..TrailingStart(t)]
  }

  /** The leading whitespace run ends at a non-whitespace character or at the end. */
  lemma {:induction false} LeadingSpacesRun(s: string)
    ensures AllSpace(s[..LeadingSpaces(s)])
    ensures LeadingSpaces(s) < |s| ==> !IsSpace(s[LeadingSpaces(s)])
  {
    if |s| > 0 && IsSpace(s[0]) {
      LeadingSpacesRun(s[1..]);
      assert s[..LeadingSpaces(s)] == [s[0]] + s[1..][..LeadingSpaces(s[1..])];
    }
  }

  /** The trailing whitespace run starts after a non-whitespace character or at the start. */
  lemma {:induction false} TrailingSpacesRun(s: string)
    ensures AllSpace(s[TrailingStart(s)..])
    ensures TrailingStart(s) > 0 ==> !IsSpace(s[TrailingStart(s) - 1])
  {
    if |s| > 0 && IsSpace(s[|s| - 1]) {
      var p := s[..|s| - 1];
      TrailingSpacesRun(p);
      assert s[TrailingStart(s)..] == p[TrailingStart(p)..] + [s[|s| - 1]];
    }
  }

  /** The stripped string is the infix of `s` left once the whitespace at
      both ends is cut off: it neither starts nor ends with whitespace, and
      it is empty exactly when `s` is all whitespace. */
  lemma StripIsInfix(s: string)
    ensures exists i, j ::
              && 0 <= i <= j <= |s|
              && Strip(s) == s[i..j]
              && AllSpace(s[..i])
              && AllSpace(s[j..])
    ensures NoSpaceAtEnds(Strip(s))
    ensures Strip(s) == [] <==> AllSpace(s)
  {
    var i := LeadingSpaces(s);
    var t := s[i..];
    var m := TrailingStart(t);
    LeadingSpacesRun(s);
    TrailingSpacesRun(t);
    var j := i + m;
    assert Strip(s) == s[i..j];
    assert s[j..] == t[m..];
    if m == 0 {
      assert s == s[..i] + s[j..];
    } else {
      assert Strip(s)[0] == t[0];
    }
  }

  /** A string without whitespace at its ends is left as it is. */
  lemma StripKeeps(s: string)
    requires NoSpaceAtEnds(s)
    ensures Strip(s) == s
  {
    assert LeadingSpaces(s) == 0;
    assert s[0..] == s;
  }

  /** Stripping removes a space in front and a tab behind. */
  lemma StripPadded(s: string)
    requires s != [] && NoSpaceAtEnds(s)
    ensures Strip(" " + s + "\t") == s
  {
    var t := s + "\t";
    var p := " " + s + "\t";
    assert p[1..] == t;
    assert t[0] == s[0];
    assert LeadingSpaces(p) == 1;
    assert t[..|t| - 1] == s;
    StripKeeps(s);
    assert TrailingStart(t) == |s|;
  }

  /** Stripping twice is stripping once. */
  lemma StripIdempotent(s: string)
    ensures Strip(Strip(s)) == Strip(s)
  {
    StripIsInfix(s);
    StripKeeps(Strip(s));
  }

  function LowerChar(c: char): (r: char) {
    if 'A' <= c <= 'Z' then (c as int + 32) as char else c
  }

  /** ASCII lower-casing, character by character. */
  function Lower(s: string): (r: string) {
    if s == [] then [] else [LowerChar(s[0])] + Lower(s[1..])
  }

  /** Lower-casing keeps the length and maps each character on its own. */
  lemma {:induction false} LowerSpec(s: string)
    ensures |Lower(s)| == |s|
    ensures forall k :: 0 <= k < |s| ==> Lower(s)[k] == LowerChar(s[k])
  {
    if s != [] {
      LowerSpec(s[1..]);
    }
  }

  /** A lower-cased string holds no upper-case letter, so lower-casing is idempotent. */
  lemma LowerIdempotent(s: string)
    ensures |Lower(s)| == |s|
    ensures forall k :: 0 <= k < |s| ==> !('A' <= Lower(s)[k] <= 'Z')
    ensures Lower(Lower(s)) == Lower(s)
  {
    LowerSpec(s);
    LowerSpec(Lower(s));
  }

  /** Replaces every occurrence of `a` by `b`. */
  function Replace(s: string, a: char, b: char): (r: string) {
    if s == [] then [] else [if s[0] == a then b else s[0]] + Replace(s[1..], a, b)
  }

  /** Replacing keeps the length and changes exactly the occurrences of `a`. */
  lemma {:induction false} ReplaceSpec(s: string, a: char, b: char)
    ensures |Replace(s, a, b)| == |s|
    ensures forall k :: 0 <= k < |s| ==> Replace(s, a, b)[k] == (if s[k] == a then b else s[k])
  {
    if s != [] {
      ReplaceSpec(s[1..], a, b);
    }
  }

  /** Replacing a character that does not occur changes nothing. */
  lemma {:induction false} ReplaceAbsent(s: string, a: char, b: char)
    requires a !in s
    ensures Replace(s, a, b) == s
  {
    if s != [] {
      assert a !in s[1..];
      ReplaceAbsent(s[1..], a, b);
    }
  }

  /** Replacing distributes over concatenation. */
  lemma {:induction false} ReplaceAppend(s: string, t: string, a: char, b: char)
    ensures Replace(s + t, a, b) == Replace(s, a, b) + Replace(t, a, b)
  {
    if s != [] {
      ReplaceAppend(s[1..], t, a, b);
      assert (s + t)[0] == s[0];
      assert (s + t)[1..] == s[1..] + t;
    } else {
      assert s + t == t;
    }
  }

  /** Splits on every occurrence of `d`, as a string split with an explicit
      separator does: `n` separators give `n + 1` fragments, possibly empty. */
  function Split(s: string, d: char): (r: seq<string>)
    ensures |r| >= 1
    ensures forall k :: 0 <= k < |r| ==> d !in r[k]
  {
    if s == [] then [""]
    else if s[0] == d then [""] + Split(s[1..], d)
    else
      var t := Split(s[1..], d);
      [[s[0]] + t[0]] + t[1..]
  }

  /** Puts the fragments back together with `d` between them. */
  function Join(fs: seq<string>, d: char): (r: string) {
    if |fs| == 0 then ""
    else if |fs| == 1 then fs[0]
    else fs[0] + [d] + Join(fs[1..], d)
  }

  /** Joining the fragments of a split gives back the original string. */
  lemma {:induction false} JoinSplit(s: string, d: char)
    ensures Join(Split(s, d), d) == s
  {
    if s == [] {
    } else if s[0] == d {
      JoinSplit(s[1..], d);
      assert s == [d] + s[1..];
    } else {
      var t := Split(s[1..], d);
      JoinSplit(s[1..], d);
      if |t| == 1 {
        assert s == [s[0]] + s[1..];
      } else {
        assert Join(t, d) == t[0] + [d] + Join(t[1..], d);
        assert s == [s[0]] + s[1..];
      }
    }
  }

  /** Splitting a join of separator-free fragments gives them back. */
  lemma {:induction false} SplitJoin(fs: seq<string>, d: char)
    requires |fs| >= 1
    requires forall k :: 0 <= k < |fs| ==> d !in fs[k]
    ensures Split(Join(fs, d), d) == fs
  {
    if |fs| == 1 {
      SplitFragment(fs[0], [], d);
      assert fs[0] + [] == fs[0];
    } else {
      SplitJoin(fs[1..], d);
      var rest := Join(fs[1..], d);
      SplitFragment(fs[0], [d] + rest, d);
      assert fs[0] + [d] + rest == fs[0] + ([d] + rest);
      assert ([d] + rest)[1..] == rest;
      assert Split([d] + rest, d) == [""] + fs[1..];
      assert fs[0] + "" == fs[0];
      assert [fs[0]] + fs[1..] == fs;
    }
  }

  /** A separator-free head extends the first fragment of what follows it. */
  lemma {:induction false} SplitFragment(f: string, rest: string, d: char)
    requires d !in f
    ensures Split(f + rest, d)
      == [f + Split(rest, d)[0]] + Split(rest, d)[1..]
  {
    if f == [] {
      assert f + rest == rest;
      assert f + Split(rest, d)[0] == Split(rest, d)[0];
    } else {
      SplitFragment(f[1..], rest, d);
      assert (f + rest)[1..] == f[1..] + rest;
      assert [f[0]] + (f[1..] + Split(rest, d)[0]) == f + Split(rest, d)[0];
    }
  }
}
