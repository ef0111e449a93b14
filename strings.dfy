/**
 * The JavaScript string built-ins the dialogue engine relies on:
 * `includes`, `trim`, `toLowerCase`, `Array.prototype.join` and `split`.
 */
module Strings {

  /** `s.startsWith(k)` at offset `i`: `k` occurs in `s` starting at index `i`. */
  predicate OccursAt(s: string, k: string, i: nat)
  {
    i + |k| <= |s| && s[i..i + |k|] == k
  }

  /** `s.includes(k)`: some offset of `s` starts an occurrence of `k`. */
  predicate Contains(s: string, k: string)
  {
    exists i :: 0 <= i <= |s| && OccursAt(s, k, i)
  }

  /** Every character of an included string occurs in the including string. */
  lemma ContainsChar(s: string, k: string, c: char)
    requires c in k
    ensures Contains(s, k) ==> c in s
  {
    if Contains(s, k) {
      var i :| 0 <= i <= |s| && OccursAt(s, k, i);
      var j :| 0 <= j < |k| && k[j] == c;
      assert s[i..i + |k|][j] == s[i + j];
    }
  }

  /** Inclusion is transitive: text that includes `k` includes every part of `k`. */
  lemma ContainsTrans(s: string, k: string, part: string)
    requires Contains(k, part)
    ensures Contains(s, k) ==> Contains(s, part)
  {
    if Contains(s, k) {
      var i :| 0 <= i <= |s| && OccursAt(s, k, i);
      var j :| 0 <= j <= |k| && OccursAt(k, part, j);
      forall t | 0 <= t < |part|
        ensures s[i + j..i + j + |part|][t] == part[t]
      {
        assert part[t] == k[j..j + |part|][t] == k[j + t];
        assert k[j + t] == s[i..i + |k|][j + t] == s[i + j + t];
      }
      assert s[i + j..i + j + |part|] == part;
      assert OccursAt(s, part, i + j);
    }
  }

  /** The empty string is included in every string, and includes nothing else. */
  lemma ContainsEmpty(s: string, k: string)
    ensures Contains(s, "")
    ensures Contains("", k) <==> k == ""
  {
    assert OccursAt(s, "", 0);
    if k == "" {
      assert OccursAt("", k, 0);
    }
  }

  /** A string includes itself, and whatever a part includes, the whole includes. */
  lemma ContainsInfix(a: string, s: string, b: string, k: string)
    ensures Contains(s, s)
    ensures Contains(s, k) ==> Contains(a + s + b, k)
  {
    assert OccursAt(s, s, 0);
    if Contains(s, k) {
      var i :| 0 <= i <= |s| && OccursAt(s, k, i);
      var w := a + s + b;
      assert w[|a| + i..|a| + i + |k|] == s[i..i + |k|];
      assert OccursAt(w, k, |a| + i);
    }
  }

  // ---------------------------------------------------------------- trim

  /**
   * The characters `String.prototype.trim` removes: ECMAScript WhiteSpace
   * (tab, vertical tab, form feed, space, no-break space, byte order mark and
   * the Unicode space separators) and LineTerminator (LF, CR, line and
   * paragraph separators).
   */
  predicate IsWhitespace(c: char)
  {
    c == '\t' || c == '\n' || c == '\U{000B}' || c == '\U{000C}' || c == '\r' || c == ' '
    || c == '\U{00A0}' || c == '\U{1680}' || ('\U{2000}' <= c <= '\U{200A}')
    || c == '\U{2028}' || c == '\U{2029}' || c == '\U{202F}' || c == '\U{205F}'
    || c == '\U{3000}' || c == '\U{FEFF}'
  }

  function TrimStart(s: string): (r: string)
    ensures |r| <= |s| && r == s[|s| - |r|..]
    ensures r == [] || !IsWhitespace(r[0])
    ensures forall i :: 0 <= i < |s| - |r| ==> IsWhitespace(s[i])
  {
    if s != [] && IsWhitespace(s[0]) then TrimStart(s[1..]) else s
  }

  function TrimEnd(s: string): (r: string)
    ensures |r| <= |s| && r == s[..|r|]
    ensures r == [] || !IsWhitespace(r[|r| - 1])
    ensures forall i :: |r| <= i < |s| ==> IsWhitespace(s[i])
  {
    if s != [] && IsWhitespace(s[|s| - 1]) then TrimEnd(s[..|s| - 1]) else s
  }

  /**
   * `s.trim()`: the slice of `s` left once the leading and trailing
   * whitespace is removed.
   */
  function Trim(s: string): (r: string)
    ensures exists a, b ::
              && 0 <= a <= b <= |s| && r == s[a..b]
              && (forall i :: 0 <= i < a ==> IsWhitespace(s[i]))
              && (forall i :: b <= i < |s| ==> IsWhitespace(s[i]))
    ensures r == [] || (!IsWhitespace(r[0]) && !IsWhitespace(r[|r| - 1]))
  {
    var t := TrimStart(s);
    var r := TrimEnd(t);
    assert r == s[|s| - |t|..|s| - |t| + |r|];
    r
  }

  /** A string without leading or trailing whitespace is left as it is by `trim`. */
  lemma TrimUnchanged(s: string)
    requires s == [] || (!IsWhitespace(s[0]) && !IsWhitespace(s[|s| - 1]))
    ensures Trim(s) == s
  {
  }

  lemma TrimIdempotent(s: string)
    ensures Trim(Trim(s)) == Trim(s)
  {
    TrimUnchanged(Trim(s));
  }

  // ---------------------------------------------------------- toLowerCase

  /** `toLowerCase` on one character; only the ASCII letters A-Z are mapped. */
  function LowerChar(c: char): (d: char)
    ensures IsWhitespace(d) <==> IsWhitespace(c)
    ensures !('A' <= d <= 'Z')
    ensures !('A' <= c <= 'Z') ==> d == c
  {
    if 'A' <= c <= 'Z' then (c as int + 32) as char else c
  }

  function Lower(s: string): (r: string)
    ensures |r| == |s|
    ensures forall i :: 0 <= i < |s| ==> r[i] == LowerChar(s[i])
  {
    if s == [] then [] else [LowerChar(s[0])] + Lower(s[1..])
  }

  /** A string with no ASCII capital is its own lower case, e.g. every Hebrew text. */
  lemma LowerUnchanged(s: string)
    requires forall c :: c in s ==> !('A' <= c <= 'Z')
    ensures Lower(s) == s
  {
    assert forall i :: 0 <= i < |s| ==> s[i] in s;
  }

  lemma LowerIdempotent(s: string)
    ensures Lower(Lower(s)) == Lower(s)
  {
  }

  // ------------------------------------------------------------ join/split

  /** `parts.join(sep)`: the parts in order with `sep` between neighbours. */
  function Join(parts: seq<string>, sep: string): (r: string)
    ensures |parts| == 1 ==> r == parts[0]
  {
    if |parts| == 0 then ""
    else if |parts| == 1 then parts[0]
    else parts[0] + sep + Join(parts[1..], sep)
  }

  /** `s.split(c)` for a one-character separator. */
  function Split(s: string, c: char): (r: seq<string>)
    ensures |r| >= 1
    ensures forall i :: 0 <= i < |r| ==> c !in r[i]
    decreases |s|
  {
    if c !in s then [s]
    else
      var i := FirstIndex(s, c);
      [s[..i]] + Split(s[i + 1..], c)
  }

  function FirstIndex(s: string, c: char): (i: nat)
    requires c in s
    ensures i < |s| && s[i] == c && c !in s[..i]
  {
    if s[0] == c then 0 else 1 + FirstIndex(s[1..], c)
  }

  /** A separator that occurs in no part is undone by `split`: splitting recovers the parts. */
  lemma {:induction false} SplitJoin(parts: seq<string>, c: char)
    requires |parts| > 0
    requires forall i :: 0 <= i < |parts| ==> c !in parts[i]
    ensures Split(Join(parts, [c]), c) == parts
    decreases |parts|
  {
    if |parts| > 1 {
      SplitJoin(parts[1..], c);
      SplitCons(parts[0], c, Join(parts[1..], [c]));
      assert parts == [parts[0]] + parts[1..];
    }
  }

  /** Splitting at the first separator. */
  lemma SplitCons(a: string, c: char, rest: string)
    requires c !in a
    ensures Split(a + [c] + rest, c) == [a] + Split(rest, c)
  {
    var s := a + [c] + rest;
    assert s[..|a|] == a;
    FirstIndexOf(s, c, |a|);
    assert s[|a| + 1..] == rest;
  }

  lemma {:induction false} FirstIndexOf(s: string, c: char, i: nat)
    requires i < |s| && s[i] == c && c !in s[..i]
    ensures FirstIndex(s, c) == i
    decreases i
  {
    if i > 0 {
      assert s[..i][0] == s[0];
      assert s[1..][..i - 1] == s[..i][1..];
      FirstIndexOf(s[1..], c, i - 1);
    }
  }

  /** Joining the pieces of a split with the separator gives back the string. */
  lemma {:induction false} JoinSplit(s: string, c: char)
    ensures Join(Split(s, c), [c]) == s
    decreases |s|
  {
    if c in s {
      var i := FirstIndex(s, c);
      JoinSplit(s[i + 1..], c);
      var tail := Split(s[i + 1..], c);
      assert Split(s, c)[1..] == tail;
      assert s == s[..i] + [c] + s[i + 1..];
    }
  }

  /** A join includes each of its parts. */
  lemma {:induction false} JoinContains(parts: seq<string>, sep: string, i: nat)
    requires i < |parts|
    ensures Contains(Join(parts, sep), parts[i])
    decreases |parts|
  {
    if |parts| == 1 {
      ContainsInfix("", parts[0], "", parts[0]);
    } else {
      var rest := Join(parts[1..], sep);
      if i == 0 {
        ContainsInfix("", parts[0], sep + rest, parts[0]);
        assert "" + parts[0] + (sep + rest) == Join(parts, sep);
      } else {
        JoinContains(parts[1..], sep, i - 1);
        ContainsInfix(parts[0] + sep, rest, "", parts[i]);
        assert parts[0] + sep + rest + "" == Join(parts, sep);
      }
    }
  }

  /** A character that occurs in no part and not in the separator does not occur in the join. */
  lemma {:induction false} JoinAvoids(parts: seq<string>, sep: string, c: char)
    requires c !in sep
    requires forall i :: 0 <= i < |parts| ==> c !in parts[i]
    ensures c !in Join(parts, sep)
    decreases |parts|
  {
    if |parts| > 1 {
      JoinAvoids(parts[1..], sep, c);
    }
  }
}
