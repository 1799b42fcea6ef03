/** The string functions of the Go standard library that the importer relies on. */
module GoStrings {

  /** unicode.IsSpace. */
  predicate IsSpace(c: char) {
    || '\t' <= c <= '\r' || c == ' ' || c == '\U{85}' || c == '\U{A0}' || c == '\U{1680}'
    || '\U{2000}' <= c <= '\U{200A}' || c == '\U{2028}' || c == '\U{2029}' || c == '\U{202F}'
    || c == '\U{205F}' || c == '\U{3000}'
  }

  /** Among ASCII characters, the blank and the five controls from tab to carriage return. */
  lemma AsciiSpace(c: char)
    requires c as int < 128
    ensures IsSpace(c) <==> c as int in {9, 10, 11, 12, 13, 32}
  {}

  function TrimRight(s: string): (r: string)
    ensures r <= s && (r == "" || !IsSpace(r[|r| - 1]))
  {
    if s != "" && IsSpace(s[|s| - 1]) then TrimRight(s[..|s| - 1]) else s
  }

  function TrimLeft(s: string): (r: string)
    ensures r == "" || !IsSpace(r[0])
    ensures r == "" || (s != "" && r[|r| - 1] == s[|s| - 1])
  {
    if s != "" && IsSpace(s[0]) then TrimLeft(s[1..]) else s
  }

  /** strings.TrimSpace. */
  function Trim(s: string): string { TrimLeft(TrimRight(s)) }

  lemma TrimTwice(s: string)
    ensures Trim(Trim(s)) == Trim(s)
  {
    var r := Trim(s);
    assert TrimRight(r) == r;
    assert TrimLeft(r) == r;
  }

  /** strings.Split(s, ","). */
  function SplitComma(s: string): (r: seq<string>)
    ensures r != []
  {
    if s == "" then [""]
    else
      var n := |s| - 1;
      var before := SplitComma(s[..n]);
      if s[n] == ',' then before + [""]
      else before[..|before| - 1] + [before[|before| - 1] + [s[n]]]
  }

  predicate AllSpace(s: string) { forall i :: 0 <= i < |s| ==> IsSpace(s[i]) }

  lemma {:induction false} TrimRightCuts(s: string)
    ensures TrimRight(s) <= s && AllSpace(s[|TrimRight(s)|..])
    decreases |s|
  {
    if s == "" || !IsSpace(s[|s| - 1]) {
    } else {
      var n := |s| - 1;
      TrimRightCuts(s[..n]);
      var k := |TrimRight(s)|;
      assert s[k..] == s[..n][k..] + [s[n]];
    }
  }

  lemma {:induction false} TrimLeftCuts(s: string)
    ensures |TrimLeft(s)| <= |s| && s[|s| - |TrimLeft(s)|..] == TrimLeft(s) && AllSpace(s[..|s| - |TrimLeft(s)|])
    decreases |s|
  {
    if s == "" || !IsSpace(s[0]) {
    } else {
      TrimLeftCuts(s[1..]);
      var k := |s| - |TrimLeft(s)|;
      assert s[..k] == [s[0]] + s[1..][..k - 1];
    }
  }

  /** Trimming takes white space, and nothing else, off both ends, and leaves none there. */
  lemma TrimCuts(s: string) returns (before: string, after: string)
    ensures s == before + Trim(s) + after && AllSpace(before) && AllSpace(after)
    ensures Trim(s) == "" || (!IsSpace(Trim(s)[0]) && !IsSpace(Trim(s)[|Trim(s)| - 1]))
  {
    var r := TrimRight(s);
    TrimRightCuts(s);
    TrimLeftCuts(r);
    before, after := r[..|r| - |TrimLeft(r)|], s[|r|..];
    assert s == r + after;
    assert r == before + Trim(s);
  }

  /** The parts, with a comma between each two. */
  function JoinComma(parts: seq<string>): string {
    if parts == [] then ""
    else if |parts| == 1 then parts[0]
    else JoinComma(parts[..|parts| - 1]) + "," + parts[|parts| - 1]
  }

  /** Splitting cuts at every comma, and only there: joining gives the text back and no part holds one. */
  lemma {:induction false} SplitCommaCuts(s: string)
    ensures JoinComma(SplitComma(s)) == s && forall part <- SplitComma(s) :: ',' !in part
    decreases |s|
  {
    if s == "" {
    } else {
      var n := |s| - 1;
      var before := SplitComma(s[..n]);
      var m := |before| - 1;
      SplitCommaCuts(s[..n]);
      assert s == s[..n] + [s[n]];
      if s[n] == ',' {
        assert (before + [""])[..|before|] == before;
      } else {
        assert before[m] in before;
        JoinLonger(before, s[n]);
      }
    }
  }

  lemma JoinLonger(parts: seq<string>, c: char)
    requires parts != []
    ensures var m := |parts| - 1; JoinComma(parts[..m] + [parts[m] + [c]]) == JoinComma(parts) + [c]
  {
    var m := |parts| - 1;
    var longer := parts[..m] + [parts[m] + [c]];
    assert longer[..m] == parts[..m];
    if m > 0 {
      assert JoinComma(parts[..m]) + "," + (parts[m] + [c]) == JoinComma(parts[..m]) + "," + parts[m] + [c];
    }
  }
}
