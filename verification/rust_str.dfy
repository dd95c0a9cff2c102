/** The parts of Rust's string library the level loader relies on: `trim`,
    `trim_end`, `split("\n")` and `lines`, on strings as sequences of
    characters. */
module RustStr {

  /** Unicode White_Space, the set `char::is_whitespace` and the `trim`
      family strip. */
  predicate IsWhitespace(c: char)
  {
    ('\t' <= c <= '\r') || c == ' ' || c == '\U{0085}' || c == '\U{00A0}' || c == '\U{1680}'
    || ('\U{2000}' <= c <= '\U{200A}') || c == '\U{2028}' || c == '\U{2029}'
    || c == '\U{202F}' || c == '\U{205F}' || c == '\U{3000}'
  }

  /** `trim_end`: whitespace is dropped from the end for as long as there
      is any (TrimEndDrops says what that leaves). */
  function TrimEnd(s: string): string
    decreases |s|
  {
    if |s| > 0 && IsWhitespace(s[|s| - 1]) then TrimEnd(s[..|s| - 1]) else s
  }

  /** `trim_start`: whitespace is dropped from the start for as long as
      there is any. */
  function TrimStart(s: string): string
    decreases |s|
  {
    if |s| > 0 && IsWhitespace(s[0]) then TrimStart(s[1..]) else s
  }

  /** `trim`: both ends. */
  function Trim(s: string): string
  {
    TrimStart(TrimEnd(s))
  }

  /** `trim_end` leaves the longest prefix that does not end in
      whitespace: what it drops is all whitespace. */
  lemma {:induction false} TrimEndDrops(s: string)
    ensures TrimEnd(s) <= s
    ensures |TrimEnd(s)| == 0 || !IsWhitespace(TrimEnd(s)[|TrimEnd(s)| - 1])
    ensures forall i :: |TrimEnd(s)| <= i < |s| ==> IsWhitespace(s[i])
    decreases |s|
  {
    if |s| > 0 && IsWhitespace(s[|s| - 1]) {
      TrimEndDrops(s[..|s| - 1]);
    }
  }

  /** `trim_start` leaves the longest suffix that does not start with
      whitespace: what it drops is all whitespace. */
  lemma {:induction false} TrimStartDrops(s: string)
    ensures |TrimStart(s)| <= |s| && TrimStart(s) == s[|s| - |TrimStart(s)|..]
    ensures |TrimStart(s)| == 0 || !IsWhitespace(TrimStart(s)[0])
    ensures forall i :: 0 <= i < |s| - |TrimStart(s)| ==> IsWhitespace(s[i])
    decreases |s|
  {
    if |s| > 0 && IsWhitespace(s[0]) {
      TrimStartDrops(s[1..]);
      assert s[1..][|s| - 1 - |TrimStart(s)|..] == s[|s| - |TrimStart(s)|..];
    }
  }

  /** What `trim` leaves neither starts nor ends with whitespace. */
  lemma TrimBothEnds(s: string)
    ensures |Trim(s)| == 0 || (!IsWhitespace(Trim(s)[0]) && !IsWhitespace(Trim(s)[|Trim(s)| - 1]))
  {
    var t := TrimEnd(s);
    TrimEndDrops(s);
    TrimStartDrops(t);
    var r := TrimStart(t);
    if |r| > 0 {
      assert r[|r| - 1] == t[|t| - 1];
    }
  }

  /** `split("\n")`: the pieces between newlines, always at least one. */
  function SplitNl(s: string): (r: seq<string>)
    ensures |r| >= 1
    ensures forall i :: 0 <= i < |r| ==> '\n' !in r[i]
    decreases |s|
  {
    if |s| == 0 then [""]
    else
      var rest := SplitNl(s[1..]);
      if s[0] == '\n' then [""] + rest else [[s[0]] + rest[0]] + rest[1..]
  }

  /** The pieces put back together with a newline between neighbours. */
  function JoinNl(parts: seq<string>): string
    requires |parts| >= 1
    decreases |parts|
  {
    if |parts| == 1 then parts[0] else parts[0] + "\n" + JoinNl(parts[1..])
  }

  /** Putting a character in front of the first piece puts it in front of
      the joined text. */
  lemma JoinNlCons(c: char, p: string, t: seq<string>)
    ensures JoinNl([[c] + p] + t) == [c] + JoinNl([p] + t)
  {
    if |t| == 0 {
      assert [[c] + p] + t == [[c] + p];
      assert [p] + t == [p];
    } else {
      JoinNlFirst([c] + p, t);
      JoinNlFirst(p, t);
      var rest := "\n" + JoinNl(t);
      assert ([c] + p) + rest == [c] + (p + rest);
    }
  }

  lemma JoinNlFirst(x: string, t: seq<string>)
    requires |t| >= 1
    ensures JoinNl([x] + t) == x + ("\n" + JoinNl(t))
  {
    assert ([x] + t)[1..] == t;
  }

  /** Splitting and joining are inverse: joining the pieces gives the text
      back, and splitting a join of newline-free pieces gives the pieces. */
  lemma {:induction false} JoinSplit(s: string)
    ensures JoinNl(SplitNl(s)) == s
    decreases |s|
  {
    if |s| > 0 {
      JoinSplit(s[1..]);
      var rest := SplitNl(s[1..]);
      if s[0] == '\n' {
        assert ([""] + rest)[1..] == rest;
      } else {
        JoinNlCons(s[0], rest[0], rest[1..]);
        assert [rest[0]] + rest[1..] == rest;
      }
      assert s == [s[0]] + s[1..];
    }
  }

  lemma {:induction false} SplitJoin(parts: seq<string>)
    requires |parts| >= 1
    requires forall i :: 0 <= i < |parts| ==> '\n' !in parts[i]
    ensures SplitNl(JoinNl(parts)) == parts
    decreases |parts|, |parts[0]|
  {
    var p, t := parts[0], parts[1..];
    assert parts == [p] + t;
    if |t| == 0 {
      SplitLine(p);
    } else if |p| == 0 {
      SplitJoin(t);
      SplitEmptyFirst(t);
    } else {
      var q := [p[1..]] + t;
      assert q[0] == p[1..] && q[1..] == t;
      SplitJoin(q);
      SplitCharFirst(p[0], p[1..], t);
      assert [p[0]] + p[1..] == p;
    }
  }

  /** Text without a newline is one piece. */
  lemma {:induction false} SplitLine(p: string)
    requires '\n' !in p
    ensures SplitNl(p) == [p]
    decreases |p|
  {
    if |p| > 0 {
      SplitLine(p[1..]);
      assert [p[0]] + p[1..] == p;
    }
  }

  /** An empty first piece splits off at the leading newline. */
  lemma SplitEmptyFirst(t: seq<string>)
    requires |t| >= 1 && SplitNl(JoinNl(t)) == t
    ensures SplitNl(JoinNl([""] + t)) == [""] + t
  {
    JoinNlFirst("", t);
    var j := JoinNl([""] + t);
    assert j == "\n" + JoinNl(t);
    assert j[1..] == JoinNl(t);
  }

  /** A first piece that starts with a character other than a newline
      keeps that character. */
  lemma SplitCharFirst(c: char, p: string, t: seq<string>)
    requires c != '\n' && |t| >= 1
    requires SplitNl(JoinNl([p] + t)) == [p] + t
    ensures SplitNl(JoinNl([[c] + p] + t)) == [[c] + p] + t
  {
    JoinNlCons(c, p, t);
    var j := JoinNl([[c] + p] + t);
    assert j[0] == c && j[1..] == JoinNl([p] + t);
    assert ([p] + t)[0] == p && ([p] + t)[1..] == t;
  }

  /** A line that was ended by "\r\n" loses the carriage return too. */
  function StripCr(l: string): string
  {
    if |l| > 0 && l[|l| - 1] == '\r' then l[..|l| - 1] else l
  }

  /** `lines`: the pieces between newlines, each piece that a newline ended
      losing one trailing carriage return; a final empty piece (text that
      ends in a newline, or empty text) is not a line. */
  function Lines(s: string): (r: seq<string>)
    ensures forall i :: 0 <= i < |r| ==> '\n' !in r[i]
    ensures |r| == |SplitNl(s)| - 1 || |r| == |SplitNl(s)|
  {
    var parts := SplitNl(s);
    var n := |parts|;
    var ended := seq(n - 1, i requires 0 <= i < n - 1 => StripCr(parts[i]));
    if parts[n - 1] == "" then ended else ended + [parts[n - 1]]
  }
}
