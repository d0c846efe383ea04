/**
 * Dotted field paths: `String.join(".", …)`, `String.split("\\.")` with Java's
 * rules, and the "parent.child" concatenation the mapping walkers use.
 */
module DottedPaths {
  /** `currentPath.isEmpty() ? key : currentPath + "." + key`. */
  function ChildPath(parent: string, key: string): string {
    if parent == "" then key else parent + "." + key
  }

  /** `String.join(sep, parts)`. */
  function Join(sep: string, parts: seq<string>): string {
    if |parts| == 0 then ""
    else if |parts| == 1 then parts[0]
    else parts[0] + sep + Join(sep, parts[1..])
  }

  /** A path segment that `split("\\.")` keeps whole. */
  predicate NoDot(s: string) {
    forall i :: 0 <= i < |s| ==> s[i] != '.'
  }

  /** Index of the first '.' of `s`, or `|s|` when there is none. */
  function FirstDot(s: string): (r: nat)
    ensures r <= |s|
    ensures NoDot(s[..r])
    ensures r < |s| ==> s[r] == '.'
  {
    if |s| == 0 then 0
    else if s[0] == '.' then 0
    else
      var r := 1 + FirstDot(s[1..]);
      assert s[..r] == [s[0]] + s[1..][..r - 1];
      r
  }

  /** Every '.'-separated piece of `s`, empty pieces included (a regex split with limit -1). */
  function SplitAll(s: string): (r: seq<string>)
    ensures |r| >= 1
    decreases |s|
  {
    var d := FirstDot(s);
    if d == |s| then [s] else [s[..d]] + SplitAll(s[d + 1..])
  }

  /** Trailing empty pieces removed, as `split` with limit 0 does. */
  function DropTrailingEmpty(parts: seq<string>): (r: seq<string>)
    ensures |r| <= |parts|
    ensures r == parts[..|r|]
    ensures |r| > 0 ==> r[|r| - 1] != ""
    ensures forall i :: |r| <= i < |parts| ==> parts[i] == ""
  {
    if |parts| == 0 then []
    else if parts[|parts| - 1] == "" then DropTrailingEmpty(parts[..|parts| - 1])
    else parts
  }

  /**
   * `s.split("\\.")`: a string without any '.' (the empty string included) splits into
   * itself; otherwise the pieces, without the trailing empty ones ("a.." gives ["a"], "." gives []).
   */
  function Split(s: string): seq<string> {
    if s == "" then [""] else DropTrailingEmpty(SplitAll(s))
  }

  /** `paths[paths.length - 1] = name` on the split array; `None` where Java indexes an empty array. */
  function ReplaceLast(parts: seq<string>, name: string): (r: Option<seq<string>>)
    ensures r.None? <==> |parts| == 0
    ensures r.Some? ==> r.value == parts[..|parts| - 1] + [name]
  {
    if |parts| == 0 then None else Some(parts[..|parts| - 1] + [name])
  }

  /** A path whose segments survive a join-then-split unchanged. */
  predicate WellFormedSegments(parts: seq<string>) {
    |parts| > 0 && forall i :: 0 <= i < |parts| ==> parts[i] != "" && NoDot(parts[i])
  }

  /** The first '.' after a dot-free segment is the separator that follows it. */
  lemma SplitAllSegment(p: string, t: string)
    requires NoDot(p)
    ensures SplitAll(p) == [p]
    ensures SplitAll(p + "." + t) == [p] + SplitAll(t)
  {
    var s := p + "." + t;
    assert FirstDot(s) == |p| by {
      var r := FirstDot(s);
      assert s[|p|] == '.';
    }
    assert s[..|p|] == p;
    assert s[|p| + 1..] == t;
  }

  /** Splitting a join of dot-free segments gives the segments back, empty ones included. */
  lemma {:induction false} SplitAllJoin(parts: seq<string>)
    requires |parts| > 0
    requires forall i :: 0 <= i < |parts| ==> NoDot(parts[i])
    ensures SplitAll(Join(".", parts)) == parts
  {
    if |parts| == 1 {
      SplitAllSegment(parts[0], "");
    } else {
      var rest := parts[1..];
      assert parts == [parts[0]] + rest;
      assert Join(".", parts) == parts[0] + "." + Join(".", rest);
      SplitAllSegment(parts[0], Join(".", rest));
      SplitAllJoin(rest);
    }
  }

  /** `split("\\.")` undoes `String.join(".", …)` for non-empty dot-free segments. */
  lemma SplitJoin(parts: seq<string>)
    requires WellFormedSegments(parts)
    ensures Split(Join(".", parts)) == parts
  {
    SplitAllJoin(parts);
    JoinNonEmpty(parts);
  }

  /** Appending a well-formed segment to the text of well-formed segments splits back into both. */
  lemma SplitJoinSnoc(parts: seq<string>, last: string)
    requires WellFormedSegments(parts)
    requires last != "" && NoDot(last)
    ensures WellFormedSegments(parts + [last])
    ensures Split(Join(".", parts) + "." + last) == parts + [last]
  {
    JoinSnoc(parts, last);
    assert WellFormedSegments(parts + [last]);
    SplitJoin(parts + [last]);
  }

  lemma JoinNonEmpty(parts: seq<string>)
    requires WellFormedSegments(parts)
    ensures Join(".", parts) != ""
  {
    if |parts| > 1 {
      assert |Join(".", parts)| >= |parts[0]|;
    }
  }

  /** A non-empty path is its init followed by its last segment. */
  lemma InitThenLast(parts: seq<string>)
    requires |parts| > 0
    ensures parts[..|parts| - 1] + [parts[|parts| - 1]] == parts
  {
  }

  /** `Join` distributes over a path extended by one segment. */
  lemma {:induction false} JoinSnoc(parts: seq<string>, last: string)
    requires |parts| > 0
    ensures Join(".", parts + [last]) == Join(".", parts) + "." + last
  {
    if |parts| == 1 {
      assert (parts + [last])[1..] == [last];
    } else {
      assert (parts + [last])[1..] == parts[1..] + [last];
      JoinSnoc(parts[1..], last);
    }
  }

  /** Decimal text of a natural number, as Java's `"" + i` prints it. */
  function NatToString(n: nat): (r: string)
    ensures |r| >= 1
    ensures n >= 10 ==> |r| >= 2
    ensures NoDot(r)
    decreases n
  {
    if n < 10 then [Digit(n)] else NatToString(n / 10) + [Digit(n % 10)]
  }

  function Digit(d: nat): char
    requires d < 10
  {
    "0123456789"[d]
  }

  /** Decimal text of an integer, as Java prints an `int`: a leading '-' when negative. */
  function IntToString(i: int): (r: string)
    ensures |r| >= 1
    ensures NoDot(r)
  {
    if i < 0 then "-" + NatToString(-i) else NatToString(i)
  }

  /** The text of a natural number starts with a digit, never with '-'. */
  lemma {:induction false} NatToStringStartsWithDigit(n: nat)
    ensures NatToString(n)[0] != '-'
    decreases n
  {
    if n >= 10 {
      NatToStringStartsWithDigit(n / 10);
      assert NatToString(n)[0] == NatToString(n / 10)[0];
    }
  }

  /** Distinct integers print as distinct texts. */
  lemma IntToStringInjective(i: int, j: int)
    requires IntToString(i) == IntToString(j)
    ensures i == j
  {
    var s := IntToString(i);
    if i < 0 && j < 0 {
      assert NatToString(-i) == s[1..] == NatToString(-j);
      NatToStringInjective(-i, -j);
    } else if i >= 0 && j >= 0 {
      NatToStringInjective(i, j);
    } else if i < 0 {
      NatToStringStartsWithDigit(j);
    } else {
      NatToStringStartsWithDigit(i);
    }
  }

  /** Distinct list indices print as distinct texts. */
  lemma {:induction false} NatToStringInjective(n: nat, m: nat)
    requires NatToString(n) == NatToString(m)
    ensures n == m
    decreases n
  {
    var s := NatToString(n);
    if n < 10 && m < 10 {
      assert Digit(n) == s[0] == Digit(m);
    } else if n >= 10 && m >= 10 {
      assert Digit(n % 10) == s[|s| - 1] == Digit(m % 10);
      assert NatToString(n / 10) == s[..|s| - 1] == NatToString(m / 10);
      NatToStringInjective(n / 10, m / 10);
    }
  }

  import opened Wrappers
}
