/** The string operations the sagas rely on: `String.prototype.includes`,
    `toLowerCase`, `replace(/^0x/, '')` and `split`. */
module Text {

  predicate StartsWith(s: string, prefix: string) {
    |prefix| <= |s| && s[..|prefix|] == prefix
  }

  /** `s.includes(sub)`: `sub` occurs somewhere in `s` (the empty string occurs everywhere). */
  predicate Contains(s: string, sub: string)
    ensures Contains(s, sub) ==> |sub| <= |s|
    decreases |s|
  {
    StartsWith(s, sub) || (s != [] && Contains(s[1..], sub))
  }

  /** `sub` sits in `s` starting at index `i`. */
  predicate OccursAt(s: string, sub: string, i: int) {
    0 <= i <= |s| - |sub| && s[i..i + |sub|] == sub
  }

  /** `Contains` holds exactly when `sub` sits at some index of `s`. */
  lemma {:induction false} ContainsIffOccurs(s: string, sub: string)
    ensures Contains(s, sub) <==> exists i :: OccursAt(s, sub, i)
    decreases |s|
  {
    if s == [] {
      if StartsWith(s, sub) {
        assert OccursAt(s, sub, 0);
      }
    } else {
      ContainsIffOccurs(s[1..], sub);
      if Contains(s[1..], sub) {
        var j :| OccursAt(s[1..], sub, j);
        assert s[j + 1..j + 1 + |sub|] == s[1..][j..j + |sub|];
        assert OccursAt(s, sub, j + 1);
      }
      if StartsWith(s, sub) {
        assert OccursAt(s, sub, 0);
      }
      if exists i :: OccursAt(s, sub, i) {
        var i :| OccursAt(s, sub, i);
        if i > 0 {
          assert s[1..][i - 1..i - 1 + |sub|] == s[i..i + |sub|];
          assert OccursAt(s[1..], sub, i - 1);
        }
      }
    }
  }

  /** A string contains `sub` only if it has every character of `sub`; this is
      how a fixed message is shown not to contain a phrase. */
  lemma ContainsHasChars(s: string, sub: string)
    ensures Contains(s, sub) ==> forall c :: c in sub ==> c in s
  {
    ContainsIffOccurs(s, sub);
    if Contains(s, sub) {
      var i :| OccursAt(s, sub, i);
      forall c | c in sub
        ensures c in s
      {
        var k :| 0 <= k < |sub| && sub[k] == c;
        assert s[i + k] == s[i..i + |sub|][k];
      }
    }
  }

  /** `toLowerCase` on one character; only the ASCII letters are mapped. */
  function LowerChar(c: char): char {
    if 'A' <= c <= 'Z' then (c as int + 32) as char else c
  }

  /** `s.toLowerCase()`, ASCII letters only. */
  function Lower(s: string): (r: string)
    ensures |r| == |s|
    ensures forall i :: 0 <= i < |s| ==> r[i] == LowerChar(s[i])
    ensures forall i :: 0 <= i < |r| ==> !('A' <= r[i] <= 'Z')
  {
    if s == [] then [] else [LowerChar(s[0])] + Lower(s[1..])
  }

  /** Lower-casing twice is lower-casing once. */
  lemma LowerIdempotent(s: string)
    ensures Lower(Lower(s)) == Lower(s)
  {
    assert forall i :: 0 <= i < |s| ==> Lower(Lower(s))[i] == Lower(s)[i];
  }

  /** `a.toLowerCase() === b.toLowerCase()`. */
  predicate SameIgnoringCase(a: string, b: string) {
    Lower(a) == Lower(b)
  }

  /** `s.replace(/^0x/, '')`: drops one leading lower-case `0x`, nothing else. */
  function StripHexPrefix(s: string): (r: string)
    ensures StartsWith(s, "0x") ==> "0x" + r == s
    ensures !StartsWith(s, "0x") ==> r == s
  {
    if StartsWith(s, "0x") then s[2..] else s
  }

  /** The inverse of `Split`: the parts glued back with `sep`. */
  function Join(parts: seq<string>, sep: char): string
    requires |parts| >= 1
    decreases |parts|
  {
    if |parts| == 1 then parts[0] else parts[0] + [sep] + Join(parts[1..], sep)
  }

  /** `s.split(sep)` for a one-character separator: always at least one part,
      no part holds the separator, and gluing the parts back gives `s`. */
  function Split(s: string, sep: char): (parts: seq<string>)
    ensures |parts| >= 1
    ensures forall i :: 0 <= i < |parts| ==> sep !in parts[i]
    ensures Join(parts, sep) == s
    decreases |s|
  {
    if s == [] then [""]
    else
      var rest := Split(s[1..], sep);
      if s[0] == sep then
        assert ([""] + rest)[1..] == rest;
        [""] + rest
      else
        var parts := [[s[0]] + rest[0]] + rest[1..];
        assert parts[1..] == rest[1..];
        assert Join(parts, sep) == [s[0]] + Join(rest, sep);
        assert s == [s[0]] + s[1..];
        parts
  }

  /** The first part of a split is the text up to the first separator (the
      whole string when there is none), and the other parts are the split of
      what follows that separator. */
  lemma SplitFirstPart(s: string, sep: char)
    ensures var first := Split(s, sep)[0];
            StartsWith(s, first) && (|first| == |s| || s[|first|] == sep)
    ensures var parts := Split(s, sep);
            |parts| > 1 ==> |parts[0]| < |s| && parts[1..] == Split(s[|parts[0]| + 1..], sep)
  {
    var parts := Split(s, sep);
    if |parts| > 1 {
      var tail := Join(parts[1..], sep);
      assert s == parts[0] + [sep] + tail;
      assert s[..|parts[0]|] == parts[0];
      assert s[|parts[0]| + 1..] == tail;
      SplitJoin(parts[1..], sep);
    }
  }

  /** The second part of a split, when there is one, runs from the first
      separator to the next one or to the end. */
  lemma SplitSecondPart(s: string, sep: char)
    ensures var parts := Split(s, sep);
            |parts| > 1 ==>
              var upTo := parts[0] + [sep] + parts[1];
              StartsWith(s, upTo) && (|upTo| == |s| || s[|upTo|] == sep)
  {
    var parts := Split(s, sep);
    SplitFirstPart(s, sep);
    if |parts| > 1 {
      var rest := s[|parts[0]| + 1..];
      SplitFirstPart(rest, sep);
      assert Split(rest, sep)[0] == parts[1];
      var upTo := parts[0] + [sep] + parts[1];
      assert s == parts[0] + [sep] + rest;
      assert s[..|upTo|] == upTo;
      assert |upTo| < |s| ==> s[|upTo|] == rest[|parts[1]|];
    }
  }

  /** Splitting a string built by `Join` gives back the parts, when none of
      them holds the separator. */
  lemma {:induction false} SplitJoin(parts: seq<string>, sep: char)
    requires |parts| >= 1
    requires forall i :: 0 <= i < |parts| ==> sep !in parts[i]
    ensures Split(Join(parts, sep), sep) == parts
    decreases |parts|
  {
    if |parts| == 1 {
      SplitNoSeparator(parts[0], sep);
    } else {
      SplitJoin(parts[1..], sep);
      SplitAfterPart(parts[0], Join(parts[1..], sep), sep);
      assert parts == [parts[0]] + parts[1..];
    }
  }

  /** `split` yields a single part exactly when the separator does not occur. */
  lemma SinglePartIffNoSeparator(s: string, sep: char)
    ensures |Split(s, sep)| == 1 <==> sep !in s
  {
    if sep !in s {
      SplitNoSeparator(s, sep);
    }
  }

  lemma {:induction false} SplitNoSeparator(s: string, sep: char)
    requires sep !in s
    ensures Split(s, sep) == [s]
    decreases |s|
  {
    if s != [] {
      SplitNoSeparator(s[1..], sep);
      assert [s[0]] + s[1..] == s;
    }
  }

  lemma {:induction false} SplitAfterPart(part: string, tail: string, sep: char)
    requires sep !in part
    ensures Split(part + [sep] + tail, sep) == [part] + Split(tail, sep)
    decreases |part|
  {
    var s := part + [sep] + tail;
    if part == [] {
      assert s[1..] == tail;
    } else {
      assert s[1..] == part[1..] + [sep] + tail;
      SplitAfterPart(part[1..], tail, sep);
      assert [part[0]] + part[1..] == part;
    }
  }
}
