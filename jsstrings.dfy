/** The JavaScript string operations the modelled code relies on. */
module JsStrings {
  import opened Wrappers

  /** `t` occurs in `s` starting at index `j`. */
  predicate OccursAt(s: string, t: string, j: nat)
  {
    j + |t| <= |s| && s[j..j + |t|] == t
  }

  /** The first index at which `t` occurs in `s`, as `String.prototype.indexOf`. */
  function IndexOf(s: string, t: string): (r: Option<nat>)
    ensures r.Some? ==> OccursAt(s, t, r.value)
    ensures r.Some? ==> forall j: nat :: j < r.value ==> !OccursAt(s, t, j)
    ensures r.None? ==> forall j: nat :: !OccursAt(s, t, j)
    decreases |s|
  {
    if |s| < |t| then None
    else if s[..|t|] == t then Some(0)
    else
      var rest := IndexOf(s[1..], t);
      assert forall j: nat :: 1 <= j ==> (OccursAt(s, t, j) <==> OccursAt(s[1..], t, j - 1)) by {
        forall j: nat | 1 <= j
          ensures OccursAt(s, t, j) <==> OccursAt(s[1..], t, j - 1)
        {
          OccursAtTail(s, t, j);
        }
      }
      match rest
      case None => None
      case Some(i) => Some(i + 1)
  }

  lemma OccursAtTail(s: string, t: string, j: nat)
    requires 1 <= j && |s| > 0
    ensures OccursAt(s, t, j) <==> OccursAt(s[1..], t, j - 1)
  {
    if j + |t| <= |s| {
      var a, b := s[j..j + |t|], s[1..][j - 1..j - 1 + |t|];
      assert |a| == |b|;
      forall k | 0 <= k < |a| ensures a[k] == b[k] {
        assert a[k] == s[j + k] && b[k] == s[1..][j - 1 + k];
      }
      assert a == b;
    }
  }

  /** `s.includes(t)`. */
  predicate Contains(s: string, t: string)
  {
    IndexOf(s, t).Some?
  }

  /** `s.split(sep)` for a non-empty separator: the pieces between consecutive occurrences. */
  function Split(s: string, sep: string): (r: seq<string>)
    requires |sep| > 0
    ensures |r| >= 1
    decreases |s|
  {
    match IndexOf(s, sep)
    case None => [s]
    case Some(i) => [s[..i]] + Split(s[i + |sep|..], sep)
  }

  /** `parts.join(sep)`. */
  function Join(parts: seq<string>, sep: string): string
  {
    if |parts| == 0 then ""
    else if |parts| == 1 then parts[0]
    else parts[0] + sep + Join(parts[1..], sep)
  }

  /** Joining the pieces of a split with the same separator gives the original string back. */
  lemma {:induction false} JoinSplit(s: string, sep: string)
    requires |sep| > 0
    ensures Join(Split(s, sep), sep) == s
    decreases |s|
  {
    var idx := IndexOf(s, sep);
    if idx.Some? {
      var i := idx.value;
      var rest := s[i + |sep|..];
      var tail := Split(rest, sep);
      assert Split(s, sep) == [s[..i]] + tail;
      JoinSplit(rest, sep);
      JoinCons(s[..i], tail, sep);
      assert s == s[..i] + sep + rest;
    }
  }

  lemma JoinCons(p: string, tail: seq<string>, sep: string)
    requires |tail| >= 1
    ensures Join([p] + tail, sep) == p + sep + Join(tail, sep)
  {
    assert ([p] + tail)[1..] == tail;
  }

  /** Splitting at a single character undoes joining pieces that do not contain it. */
  lemma {:induction false} SplitJoin(parts: seq<string>, c: char)
    requires |parts| >= 1
    requires forall k :: 0 <= k < |parts| ==> c !in parts[k]
    ensures Split(Join(parts, [c]), [c]) == parts
  {
    var p := parts[0];
    if |parts| == 1 {
      NoOccurrence(p, c);
    } else {
      var rest := Join(parts[1..], [c]);
      var s := p + [c] + rest;
      JoinCons(p, parts[1..], [c]);
      assert [p] + parts[1..] == parts;
      assert Join(parts, [c]) == s;
      FirstOccurrence(p, c, rest);
      assert s[..|p|] == p;
      assert s[|p| + 1..] == rest;
      SplitJoin(parts[1..], c);
      assert Split(s, [c]) == [p] + Split(rest, [c]);
    }
  }

  lemma NoOccurrence(p: string, c: char)
    requires c !in p
    ensures IndexOf(p, [c]).None?
  {
    forall j: nat | j + 1 <= |p|
      ensures !OccursAt(p, [c], j)
    {
      assert p[j..j + 1] == [p[j]];
    }
  }

  lemma FirstOccurrence(p: string, c: char, rest: string)
    requires c !in p
    ensures IndexOf(p + [c] + rest, [c]) == Some(|p|)
  {
    var s := p + [c] + rest;
    assert s[|p|..|p| + 1] == [c];
    assert OccursAt(s, [c], |p|);
    forall j: nat | j < |p|
      ensures !OccursAt(s, [c], j)
    {
      assert s[j..j + 1] == [p[j]];
    }
  }

  /** The characters `String.prototype.trim` removes: white space and line terminators. */
  const WhitespaceChars: set<char> := {
    '\t', '\n', '\U{000B}', '\U{000C}', '\r', ' ', '\U{00A0}', '\U{1680}',
    '\U{2000}', '\U{2001}', '\U{2002}', '\U{2003}', '\U{2004}', '\U{2005}', '\U{2006}',
    '\U{2007}', '\U{2008}', '\U{2009}', '\U{200A}', '\U{2028}', '\U{2029}', '\U{202F}',
    '\U{205F}', '\U{3000}', '\U{FEFF}'
  }

  predicate IsWhitespace(c: char)
  {
    c in WhitespaceChars
  }

  /** The number of white-space characters `s` starts with. */
  function LeadingSpace(s: string): (n: nat)
    ensures n <= |s|
    ensures forall i :: 0 <= i < n ==> IsWhitespace(s[i])
    ensures n < |s| ==> !IsWhitespace(s[n])
  {
    if |s| > 0 && IsWhitespace(s[0]) then 1 + LeadingSpace(s[1..]) else 0
  }

  /** The length of `s` without the white space it ends with. */
  function TrailingStart(s: string): (b: nat)
    ensures b <= |s|
    ensures forall i :: b <= i < |s| ==> IsWhitespace(s[i])
    ensures b > 0 ==> !IsWhitespace(s[b - 1])
  {
    if |s| > 0 && IsWhitespace(s[|s| - 1]) then TrailingStart(s[..|s| - 1]) else |s|
  }

  /** `s.trim()`: `s` without its leading and trailing white space. */
  function Trim(s: string): (r: string)
    ensures r == [] || (!IsWhitespace(r[0]) && !IsWhitespace(r[|r| - 1]))
  {
    var a := LeadingSpace(s);
    if a == |s| then "" else s[a..TrailingStart(s)]
  }

  /** A line is blank, `line.trim() === ''`, exactly when all its characters are white space. */
  lemma TrimEmptyIffBlank(s: string)
    ensures Trim(s) == [] <==> forall i :: 0 <= i < |s| ==> IsWhitespace(s[i])
  {
  }

  /** Trimming keeps the text between the leading and the trailing white space. */
  lemma TrimIsInfix(s: string)
    ensures exists a, b :: 0 <= a <= b <= |s| && Trim(s) == s[a..b]
               && (forall i :: 0 <= i < a ==> IsWhitespace(s[i]))
               && (forall i :: b <= i < |s| ==> IsWhitespace(s[i]))
  {
    var a := LeadingSpace(s);
    if a == |s| {
      assert Trim(s) == s[a..a];
    } else {
      var b := TrailingStart(s);
      assert a <= b;
      assert Trim(s) == s[a..b];
    }
  }

  /** `s.endsWith(suffix)`. */
  predicate EndsWith(s: string, suffix: string)
  {
    |suffix| <= |s| && s[|s| - |suffix|..] == suffix
  }
}
