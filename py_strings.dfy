/** The few `str` methods of Python the modelled code relies on: `in`,
    `find`/`index`, `replace`, `split`, `lower`, `upper` and `startswith`.
    Case mapping is ASCII only. */
module PyStrings {

  /** `sub` occurs in `s` starting at index `i`. */
  predicate OccursAt(sub: string, s: string, i: int) {
    0 <= i && i + |sub| <= |s| && s[i..i + |sub|] == sub
  }

  /** Python's `sub in s` on two strings. */
  predicate IsSubstring(sub: string, s: string) {
    exists i :: 0 <= i <= |s| - |sub| && OccursAt(sub, s, i)
  }

  /** Python's `s.startswith(p)`. */
  predicate StartsWith(s: string, p: string) {
    |p| <= |s| && s[..|p|] == p
  }

  function FindFrom(s: string, sub: string, i: nat): (r: int)
    requires i <= |s|
    ensures r == -1 || (i <= r && OccursAt(sub, s, r))
    ensures forall j :: i <= j && (r == -1 || j < r) ==> !OccursAt(sub, s, j)
    decreases |s| - i
  {
    if i + |sub| > |s| then -1
    else if s[i..i + |sub|] == sub then i
    else if i == |s| then -1
    else FindFrom(s, sub, i + 1)
  }

  /** Python's `s.find(sub)`: the lowest index at which `sub` starts, or -1. */
  function Find(s: string, sub: string): (r: int)
    ensures r == -1 <==> !IsSubstring(sub, s)
    ensures r != -1 ==> OccursAt(sub, s, r) && forall j :: 0 <= j < r ==> !OccursAt(sub, s, j)
  {
    var r := FindFrom(s, sub, 0);
    assert r == -1 ==> forall j :: 0 <= j ==> !OccursAt(sub, s, j);
    r
  }

  /** Python's `s.replace(pat, rep)` for a non-empty `pat`: one pass from the
      left, replacing non-overlapping occurrences. */
  function Replace(s: string, pat: string, rep: string): string
    requires pat != []
    decreases |s|
  {
    if |s| < |pat| then s
    else if s[..|pat|] == pat then rep + Replace(s[|pat|..], pat, rep)
    else [s[0]] + Replace(s[1..], pat, rep)
  }

  /** Replacing one character by another maps the string character by character. */
  lemma {:induction false} ReplaceCharAt(s: string, a: char, b: char)
    ensures |Replace(s, [a], [b])| == |s|
    ensures forall i :: 0 <= i < |s| ==> Replace(s, [a], [b])[i] == (if s[i] == a then b else s[i])
    decreases |s|
  {
    if |s| >= 1 {
      ReplaceCharAt(s[1..], a, b);
      var tail := Replace(s[1..], [a], [b]);
      assert s[..1] == [s[0]];
      assert Replace(s, [a], [b]) == (if s[0] == a then [b] else [s[0]]) + tail;
    }
  }

  /** After replacing a character by another, the first one is gone, and no
      character that was absent and is not the replacement appears. */
  lemma ReplaceCharRemoves(s: string, a: char, b: char, c: char)
    requires a != b
    requires c == a || (c != b && c !in s)
    ensures c !in Replace(s, [a], [b])
  {
    ReplaceCharAt(s, a, b);
    var r := Replace(s, [a], [b]);
    forall i | 0 <= i < |r| ensures r[i] != c {
      assert r[i] == (if s[i] == a then b else s[i]);
    }
  }

  /** Deleting every occurrence of a character leaves none of it, and adds
      no character that was not there. */
  lemma {:induction false} RemoveChar(s: string, c: char, d: char)
    requires d == c || d !in s
    ensures d !in Replace(s, [c], "")
    decreases |s|
  {
    if |s| >= 1 {
      RemoveChar(s[1..], c, d);
      assert s[..1] == [s[0]];
    }
  }

  /** A string in which `pat` does not occur is left as it is. */
  lemma {:induction false} ReplaceAbsent(s: string, pat: string, rep: string)
    requires pat != []
    requires !IsSubstring(pat, s)
    ensures Replace(s, pat, rep) == s
    decreases |s|
  {
    if |s| >= |pat| {
      assert !OccursAt(pat, s, 0);
      if !IsSubstring(pat, s[1..]) {
        ReplaceAbsent(s[1..], pat, rep);
      } else {
        var i :| 0 <= i <= |s[1..]| - |pat| && OccursAt(pat, s[1..], i);
        assert s[1..][i..i + |pat|] == s[i + 1..i + 1 + |pat|];
        assert OccursAt(pat, s, i + 1);
        assert false;
      }
    }
  }

  /** An occurrence of `pat` at the front is replaced, and the scan goes on
      after it. */
  lemma ReplaceFront(pat: string, rest: string, rep: string)
    requires pat != []
    ensures Replace(pat + rest, pat, rep) == rep + Replace(rest, pat, rep)
  {
    assert (pat + rest)[..|pat|] == pat;
    assert (pat + rest)[|pat|..] == rest;
  }

  /** Without an occurrence of `pat` at the front, the first character is
      kept and the scan goes on from the next one. */
  lemma ReplaceSkip(c: char, rest: string, pat: string, rep: string)
    requires pat != [] && |rest| + 1 >= |pat|
    requires c != pat[0] || rest[..|pat| - 1] != pat[1..]
    ensures Replace([c] + rest, pat, rep) == [c] + Replace(rest, pat, rep)
  {
    assert ([c] + rest)[1..] == rest;
  }

  /** Two single-character replacements that both produce `.` commute. */
  lemma ReplaceToDotCommute(s: string, a: char, b: char)
    requires a != '.' && b != '.'
    ensures Replace(Replace(s, [a], "."), [b], ".") == Replace(Replace(s, [b], "."), [a], ".")
  {
    var ab := Replace(Replace(s, [a], "."), [b], ".");
    var ba := Replace(Replace(s, [b], "."), [a], ".");
    ReplaceCharAt(s, a, '.');
    ReplaceCharAt(Replace(s, [a], "."), b, '.');
    ReplaceCharAt(s, b, '.');
    ReplaceCharAt(Replace(s, [b], "."), a, '.');
    assert |ab| == |ba|;
    forall i | 0 <= i < |s| ensures ab[i] == ba[i] {
    }
  }

  /** A character occurs in a string exactly when the one-character string does. */
  lemma CharSubstring(s: string, c: char)
    ensures c in s <==> IsSubstring([c], s)
    ensures forall j :: 0 <= j < |s| ==> (OccursAt([c], s, j) <==> s[j] == c)
  {
    forall j | 0 <= j < |s| ensures OccursAt([c], s, j) <==> s[j] == c {
      assert s[j..j + 1] == [s[j]];
    }
  }

  /** Python's `s.split(sep)` for a one-character separator. */
  function Split(s: string, sep: char): (parts: seq<string>)
    ensures |parts| >= 1
    ensures forall p :: p in parts ==> sep !in p
    decreases |s|
  {
    CharSubstring(s, sep);
    if sep !in s then [s]
    else
      var i := Find(s, [sep]);
      assert sep !in s[..i];
      [s[..i]] + Split(s[i + 1..], sep)
  }

  /** Python's `sep.join(parts)`. */
  function Join(parts: seq<string>, sep: char): string
  {
    if parts == [] then ""
    else if |parts| == 1 then parts[0]
    else parts[0] + [sep] + Join(parts[1..], sep)
  }

  /** Splitting and joining again gives back the original string. */
  lemma {:induction false} JoinSplit(s: string, sep: char)
    ensures Join(Split(s, sep), sep) == s
    decreases |s|
  {
    CharSubstring(s, sep);
    if sep in s {
      var i := SplitFirst(s, sep);
      var head, tail := s[..i], s[i + 1..];
      JoinSplit(tail, sep);
      JoinCons(head, Split(tail, sep), sep);
    }
  }

  /** With a separator present, the first part ends just before the first
      separator and the rest is split after it. */
  lemma SplitFirst(s: string, sep: char) returns (i: nat)
    requires sep in s
    ensures i < |s| && s == s[..i] + [sep] + s[i + 1..]
    ensures Split(s, sep) == [s[..i]] + Split(s[i + 1..], sep)
  {
    CharSubstring(s, sep);
    i := Find(s, [sep]);
    assert s[i..i + 1] == [sep];
  }

  /** A joined text starts with the first part, the separator and any
      prefix of the second part. */
  lemma JoinPrefix(parts: seq<string>, sep: char, p: string)
    requires |parts| >= 2 && StartsWith(parts[1], p)
    ensures StartsWith(Join(parts, sep), parts[0] + [sep] + p)
  {
    var rest := Join(parts[1..], sep);
    assert Join(parts, sep) == parts[0] + [sep] + rest;
    if |parts| > 2 {
      assert rest == parts[1] + [sep] + Join(parts[2..], sep) by {
        assert parts[1..][1..] == parts[2..];
      }
    }
    assert rest[..|p|] == p;
    var pre := parts[0] + [sep];
    assert (pre + rest)[..|pre| + |p|] == pre + rest[..|p|];
  }

  /** Joining a first part in front of at least one more. */
  lemma JoinCons(head: string, rest: seq<string>, sep: char)
    requires rest != []
    ensures Join([head] + rest, sep) == head + [sep] + Join(rest, sep)
  {
    assert ([head] + rest)[1..] == rest;
  }

  /** Splitting at a first separator preceded by a separator-free head. */
  lemma SplitAtFirst(head: string, tail: string, sep: char)
    requires sep !in head
    ensures Split(head + [sep] + tail, sep) == [head] + Split(tail, sep)
  {
    var s := head + [sep] + tail;
    CharSubstring(s, sep);
    assert s[|head|] == sep;
    var i := Find(s, [sep]);
    assert OccursAt([sep], s, |head|);
    forall j | 0 <= j < |head| ensures !OccursAt([sep], s, j) {
      assert s[j] == head[j];
    }
    assert i == |head|;
    assert s[..i] == head;
    assert s[i + 1..] == tail;
  }

  /** Joining pieces that do not contain the separator and splitting again
      gives back the pieces. */
  lemma {:induction false} SplitJoin(parts: seq<string>, sep: char)
    requires |parts| >= 1
    requires forall p :: p in parts ==> sep !in p
    ensures Split(Join(parts, sep), sep) == parts
    decreases |parts|
  {
    if |parts| > 1 {
      assert parts[0] in parts;
      SplitAtFirst(parts[0], Join(parts[1..], sep), sep);
      SplitJoin(parts[1..], sep);
      assert parts == [parts[0]] + parts[1..];
    }
  }

  function LowerChar(c: char): char {
    if 'A' <= c <= 'Z' then (c as int + 32) as char else c
  }

  function UpperChar(c: char): char {
    if 'a' <= c <= 'z' then (c as int - 32) as char else c
  }

  /** Python's `s.lower()`, ASCII letters only. */
  function Lower(s: string): (r: string)
    ensures |r| == |s|
    ensures forall i :: 0 <= i < |s| ==> r[i] == LowerChar(s[i])
  {
    seq(|s|, i requires 0 <= i < |s| => LowerChar(s[i]))
  }

  /** Python's `s.upper()`, ASCII letters only. */
  function Upper(s: string): (r: string)
    ensures |r| == |s|
    ensures forall i :: 0 <= i < |s| ==> r[i] == UpperChar(s[i])
  {
    seq(|s|, i requires 0 <= i < |s| => UpperChar(s[i]))
  }

  /** Lower-casing twice is lower-casing once. */
  lemma LowerIdempotent(s: string)
    ensures Lower(Lower(s)) == Lower(s)
  {
  }

  /** Lower-casing keeps every character that is not an upper-case letter. */
  lemma LowerKeeps(s: string, c: char)
    requires !('A' <= c <= 'Z')
    ensures c in s ==> c in Lower(s)
    ensures c !in s && !('a' <= c <= 'z') ==> c !in Lower(s)
  {
    if c in s {
      var i :| 0 <= i < |s| && s[i] == c;
      assert Lower(s)[i] == c;
    }
  }
}
