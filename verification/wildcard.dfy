/**
 The greedy `*` matcher used for container names, namespaces and user names, against
 the textbook meaning of a pattern.
 */
module Wildcard {
  import opened Text

  /** `value` is an instance of `pattern`: each `*` stands for any string, other characters for themselves. */
  predicate Glob(pattern: string, value: string)
    decreases |pattern| + |value|
  {
    if pattern == "" then value == ""
    else if pattern[0] == '*' then Glob(pattern[1..], value) || (value != "" && Glob(pattern, value[1..]))
    else value != "" && value[0] == pattern[0] && Glob(pattern[1..], value[1..])
  }

  /** What a scope selector means: blanks around either side are ignored and a blank pattern matches nothing. */
  predicate Selects(pattern: string, value: string) {
    TrimSpace(pattern) != "" && Glob(TrimSpace(pattern), TrimSpace(value))
  }

  function JoinStars(parts: seq<string>): string
    requires parts != []
  {
    if |parts| == 1 then parts[0] else parts[0] + "*" + JoinStars(parts[1..])
  }

  /** `strings.Split(s, "*")`. */
  function SplitStars(s: string): (parts: seq<string>)
    ensures parts != [] && JoinStars(parts) == s
    ensures forall p :: p in parts ==> '*' !in p
    ensures |parts| == 1 <==> '*' !in s
  {
    if s == "" then [""]
    else
      var rest := SplitStars(s[1..]);
      if s[0] == '*' then [""] + rest
      else
        assert rest == [rest[0]] + rest[1..];
        [[s[0]] + rest[0]] + rest[1..]
  }

  predicate OccursAt(s: string, sub: string, k: int) {
    0 <= k && k + |sub| <= |s| && s[k..k + |sub|] == sub
  }

  /** `strings.Index(s, sub)`: the leftmost occurrence, or -1. */
  function Index(s: string, sub: string): (i: int)
    ensures i == -1 || OccursAt(s, sub, i)
    ensures forall k :: OccursAt(s, sub, k) ==> 0 <= i <= k
  {
    if OccursAt(s, sub, 0) then 0
    else if s == "" then -1
    else
      var i := Index(s[1..], sub);
      assert forall k :: 1 <= k && OccursAt(s, sub, k) ==> OccursAt(s[1..], sub, k - 1) by {
        forall k | 1 <= k && OccursAt(s, sub, k) ensures OccursAt(s[1..], sub, k - 1) {
          assert s[1..][k - 1..k - 1 + |sub|] == s[k..k + |sub|];
        }
      }
      assert 0 <= i ==> s[1..][i..i + |sub|] == s[i + 1..i + 1 + |sub|];
      if i < 0 then -1 else i + 1
  }

  /** `value` is the concatenation of the parts in order with arbitrary strings in between. */
  ghost predicate Assembled(parts: seq<string>, value: string)
    requires parts != []
    decreases |parts|, 0
  {
    if |parts| == 1 then value == parts[0]
    else HasPrefix(value, parts[0]) && Floating(parts[1..], value[|parts[0]|..])
  }

  /** The parts fit `value` after dropping some prefix of it. */
  ghost predicate Floating(parts: seq<string>, value: string)
    requires parts != []
    decreases |parts|, 1
  {
    exists k :: 0 <= k <= |value| && Assembled(parts, value[k..])
  }

  lemma {:induction false} GlobLiteralPrefix(literal: string, rest: string, value: string)
    requires '*' !in literal
    ensures Glob(literal + rest, value) <==> HasPrefix(value, literal) && Glob(rest, value[|literal|..])
  {
    if literal == "" {
      assert literal + rest == rest && value[|literal|..] == value;
    } else if value != "" && value[0] == literal[0] {
      assert (literal + rest)[1..] == literal[1..] + rest;
      GlobLiteralPrefix(literal[1..], rest, value[1..]);
      assert HasPrefix(value, literal) <==> HasPrefix(value[1..], literal[1..]) by {
        assert value == [value[0]] + value[1..] && literal == [literal[0]] + literal[1..];
      }
      if HasPrefix(value, literal) {
        assert value[1..][|literal[1..]|..] == value[|literal|..];
      }
    }
  }

  lemma {:induction false} GlobStar(rest: string, value: string)
    ensures Glob("*" + rest, value) <==> exists k :: 0 <= k <= |value| && Glob(rest, value[k..])
    decreases |value|
  {
    assert ("*" + rest)[1..] == rest && value[0..] == value;
    if value != "" {
      GlobStar(rest, value[1..]);
      assert forall k :: 1 <= k <= |value| ==> value[k..] == value[1..][k - 1..];
      assert Glob("*" + rest, value) <==> Glob(rest, value) || Glob("*" + rest, value[1..]);
      if k :| 0 <= k <= |value[1..]| && Glob(rest, value[1..][k..]) {
        assert Glob(rest, value[k + 1..]);
      }
      if k :| 0 <= k <= |value| && Glob(rest, value[k..]) {
        if k > 0 {
          assert Glob(rest, value[1..][k - 1..]);
        }
      }
    }
  }

  lemma GlobLoneStar(value: string)
    ensures Glob("*", value)
  {
    assert "*" == "*" + "";
    GlobStar("", value);
    assert Glob("", value[|value|..]);
  }

  /** The two readings of a pattern agree. */
  lemma {:induction false} GlobIsAssembly(parts: seq<string>, value: string)
    requires parts != [] && forall p :: p in parts ==> '*' !in p
    ensures Glob(JoinStars(parts), value) <==> Assembled(parts, value)
    decreases |parts|
  {
    if |parts| == 1 {
      GlobLiteralPrefix(parts[0], "", value);
      assert parts[0] + "" == parts[0];
    } else {
      var rest := JoinStars(parts[1..]);
      assert JoinStars(parts) == parts[0] + ("*" + rest);
      GlobLiteralPrefix(parts[0], "*" + rest, value);
      if HasPrefix(value, parts[0]) {
        var tail := value[|parts[0]|..];
        GlobStar(rest, tail);
        forall k | 0 <= k <= |tail| ensures Glob(rest, tail[k..]) <==> Assembled(parts[1..], tail[k..]) {
          GlobIsAssembly(parts[1..], tail[k..]);
        }
      }
    }
  }

  /** Text dropped before some placement can also be dropped after an earlier one. */
  lemma FloatingEarlier(parts: seq<string>, value: string, late: nat, early: nat)
    requires parts != [] && early <= late <= |value| && Floating(parts, value[late..])
    ensures Floating(parts, value[early..])
  {
    var tail := value[late..];
    var j :| 0 <= j <= |tail| && Assembled(parts, tail[j..]);
    assert value[early..][late - early + j..] == tail[j..];
  }

  lemma AssembledAt(parts: seq<string>, value: string, k: nat)
    requires |parts| >= 2 && k <= |value|
    ensures Assembled(parts, value[k..])
            <==> OccursAt(value, parts[0], k) && Floating(parts[1..], value[k + |parts[0]|..])
  {
    if k + |parts[0]| <= |value| {
      assert value[k..][|parts[0]|..] == value[k + |parts[0]|..];
    }
  }

  /** Taking the leftmost occurrence of the next part loses no match. */
  lemma FloatingLeftmost(parts: seq<string>, value: string)
    requires |parts| >= 2
    ensures var i := Index(value, parts[0]);
            Floating(parts, value) <==> 0 <= i && Floating(parts[1..], value[i + |parts[0]|..])
  {
    hide Index, Assembled;
    var i, n := Index(value, parts[0]), |parts[0]|;
    if k :| 0 <= k <= |value| && Assembled(parts, value[k..]) {
      AssembledAt(parts, value, k);
      FloatingEarlier(parts[1..], value, k + n, i + n);
    }
    if 0 <= i && Floating(parts[1..], value[i + n..]) {
      AssembledAt(parts, value, i);
    }
  }

  lemma FloatingLast(last: string, value: string)
    ensures Floating([last], value) <==> HasSuffix(value, last)
  {
    if HasSuffix(value, last) {
      assert Assembled([last], value[|value| - |last|..]);
    }
  }

  /** `wildcardMatch`: leftmost placement of each part, then a suffix test for the last one. */
  method PlaceParts(parts: seq<string>, value: string) returns (placed: bool)
    requires |parts| >= 2
    ensures placed <==> Assembled(parts, value)
  {
    var pos := 0;
    if parts[0] != "" {
      if !HasPrefix(value, parts[0]) {
        return false;
      }
      pos := |parts[0]|;
    }
    for i := 1 to |parts|
      invariant 0 <= pos <= |value|
      invariant i < |parts| ==> (Assembled(parts, value) <==> Floating(parts[i..], value[pos..]))
      invariant i == |parts| ==> (Assembled(parts, value) <==> HasSuffix(value, parts[|parts| - 1]))
    {
      var part := parts[i];
      PlaceNext(parts[i..], value, pos, value[pos..]);
      assert i + 1 < |parts| ==> parts[i..][1..] == parts[i + 1..];
      if part != "" {
        var index := Index(value[pos..], part);
        if index < 0 {
          return false;
        }
        pos := pos + index + |part|;
      }
    }
    var last := parts[|parts| - 1];
    return last == "" || HasSuffix(value, last);
  }

  /** One placement keeps the answer; placing the last part reduces it to a suffix test. */
  lemma PlaceNext(parts: seq<string>, value: string, pos: nat, tail: string)
    requires parts != [] && pos <= |value| && tail == value[pos..]
    ensures var i := Index(tail, parts[0]);
            && (parts[0] == "" ==> i == 0)
            && (i < 0 ==> !Floating(parts, tail))
            && (0 <= i && |parts| == 1 ==> (Floating(parts, tail) <==> HasSuffix(value, parts[0])))
            && (0 <= i && |parts| > 1 ==>
                  (Floating(parts, tail) <==> Floating(parts[1..], value[pos + i + |parts[0]|..])))
  {
    var i := Index(tail, parts[0]);
    if |parts| == 1 {
      assert parts == [parts[0]];
      FloatingLast(parts[0], tail);
      SuffixAfter(value, pos, parts[0]);
    } else {
      FloatingLeftmost(parts, tail);
      assert 0 <= i ==> tail[i + |parts[0]|..] == value[pos + i + |parts[0]|..];
    }
  }

  method WildcardMatch(rawPattern: string, rawValue: string) returns (matched: bool)
    ensures matched == Selects(rawPattern, rawValue)
  {
    var pattern, value := TrimSpace(rawPattern), TrimSpace(rawValue);
    if pattern == "" {
      return false;
    }
    matched := MatchTrimmed(pattern, value);
  }

  method MatchTrimmed(pattern: string, value: string) returns (matched: bool)
    ensures matched == Glob(pattern, value)
  {
    var parts := SplitStars(pattern);
    GlobIsAssembly(parts, value);
    if '*' !in pattern {
      return pattern == value;
    }
    if pattern == "*" {
      GlobLoneStar(value);
      return true;
    }
    matched := PlaceParts(parts, value);
  }

  /** A suffix lies past `pos` exactly when it occurs past `pos` at all: the parts cannot overlap. */
  lemma SuffixAfter(value: string, pos: nat, part: string)
    requires pos <= |value|
    ensures HasSuffix(value[pos..], part) <==> 0 <= Index(value[pos..], part) && HasSuffix(value, part)
  {
    var tail := value[pos..];
    var j := |tail| - |part|;
    if 0 <= j {
      assert tail[j..] == tail[j..j + |part|] == value[|value| - |part|..];
      assert HasSuffix(tail, part) ==> OccursAt(tail, part, j);
    }
  }
}
