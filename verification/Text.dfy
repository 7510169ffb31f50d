// Text as a sequence of runes, and the whitespace helpers of Go's strings package
// that every other module needs.
module Text {

  datatype Option<+T> = None | Some(value: T)

  // unicode.IsSpace.
  predicate IsSpace(c: char) {
    || '\t' <= c <= '\r'
    || c == ' ' || c == '\U{85}' || c == '\U{A0}' || c == '\U{1680}'
    || '\U{2000}' <= c <= '\U{200A}'
    || c == '\U{2028}' || c == '\U{2029}' || c == '\U{202F}' || c == '\U{205F}' || c == '\U{3000}'
  }

  // The twenty-five runes with the property White_Space in Unicode.
  lemma WhiteSpaceIs(c: char)
    ensures IsSpace(c) <==>
              c in "\t\n\U{0B}\U{0C}\r \U{85}\U{A0}\U{1680}\U{2000}\U{2001}\U{2002}\U{2003}\U{2004}\U{2005}\U{2006}"
                   + "\U{2007}\U{2008}\U{2009}\U{200A}\U{2028}\U{2029}\U{202F}\U{205F}\U{3000}"
  {
    var a := "\t\n\U{0B}\U{0C}\r \U{85}\U{A0}\U{1680}\U{2000}\U{2001}\U{2002}\U{2003}\U{2004}\U{2005}\U{2006}";
    var b := "\U{2007}\U{2008}\U{2009}\U{200A}\U{2028}\U{2029}\U{202F}\U{205F}\U{3000}";
    assert c in a + b <==> c in a || c in b;
  }

  predicate AllSpace(s: string) {
    forall i :: 0 <= i < |s| ==> IsSpace(s[i])
  }

  function TrimLeft(s: string): (r: string)
    ensures |r| <= |s|
    ensures r != "" ==> !IsSpace(r[0])
  {
    if s != "" && IsSpace(s[0]) then TrimLeft(s[1..]) else s
  }

  function TrimRight(s: string): (r: string)
    ensures |r| <= |s|
    ensures r != "" ==> !IsSpace(r[|r| - 1])
  {
    if s != "" && IsSpace(s[|s| - 1]) then TrimRight(s[..|s| - 1]) else s
  }

  // strings.TrimSpace.
  function TrimSpace(s: string): (r: string)
    ensures |r| <= |s| && Trimmed(r)
  {
    TrimRightParts(TrimLeft(s));
    TrimRight(TrimLeft(s))
  }

  lemma {:induction false} TrimLeftParts(s: string)
    ensures var n := |s| - |TrimLeft(s)|; TrimLeft(s) == s[n..] && AllSpace(s[..n])
  {
    if s != "" && IsSpace(s[0]) {
      TrimLeftParts(s[1..]);
      var n := |s| - |TrimLeft(s)|;
      assert s[1..][n - 1..] == s[n..];
      assert s[..n] == [s[0]] + s[1..][..n - 1];
    }
  }

  lemma {:induction false} TrimRightParts(s: string)
    ensures var n := |TrimRight(s)|; TrimRight(s) == s[..n] && AllSpace(s[n..])
  {
    if s != "" && IsSpace(s[|s| - 1]) {
      TrimRightParts(s[..|s| - 1]);
      var n := |TrimRight(s)|;
      assert s[..|s| - 1][..n] == s[..n];
      assert s[n..] == s[..|s| - 1][n..] + [s[|s| - 1]];
    }
  }

  // No white space at either end.
  predicate Trimmed(s: string) {
    s != "" ==> !IsSpace(s[0]) && !IsSpace(s[|s| - 1])
  }

  predicate Blank(s: string) {
    TrimSpace(s) == ""
  }

  // TrimSpace removes white space at both ends and nothing else.
  lemma TrimSpaceParts(s: string) returns (lead: string, tail: string)
    ensures s == lead + TrimSpace(s) + tail
    ensures AllSpace(lead) && AllSpace(tail)
  {
    var l := TrimLeft(s);
    var r := TrimRight(l);
    TrimLeftParts(s);
    TrimRightParts(l);
    assert TrimSpace(s) == r;
    hide TrimSpace, TrimLeft, TrimRight, AllSpace;
    lead := s[..|s| - |l|];
    tail := l[|r|..];
    assert l == r + tail && s == lead + l;
  }

  // A trimmed middle between two runs of white space is what TrimSpace finds.
  lemma TrimSpaceUnique(lead: string, mid: string, tail: string)
    requires AllSpace(lead) && AllSpace(tail) && Trimmed(mid)
    ensures TrimSpace(lead + mid + tail) == mid
  {
    var rest := mid + tail;
    assert lead + mid + tail == lead + rest;
    TrimLeftSkips(lead, rest);
    if mid == "" {
      assert rest == tail + "";
      TrimLeftSkips(tail, "");
    } else {
      assert rest[0] == mid[0];
      TrimRightSkips(mid, tail);
    }
  }

  lemma {:induction false} TrimLeftSkips(lead: string, s: string)
    requires AllSpace(lead)
    ensures TrimLeft(lead + s) == TrimLeft(s)
  {
    if lead == "" {
      assert lead + s == s;
    } else {
      assert (lead + s)[1..] == lead[1..] + s;
      TrimLeftSkips(lead[1..], s);
    }
  }

  lemma {:induction false} TrimRightSkips(s: string, tail: string)
    requires AllSpace(tail) && (s != "" ==> !IsSpace(s[|s| - 1]))
    ensures TrimRight(s + tail) == s
  {
    if tail == "" {
      assert s + tail == s;
    } else {
      assert (s + tail)[..|s + tail| - 1] == s + tail[..|tail| - 1];
      TrimRightSkips(s, tail[..|tail| - 1]);
    }
  }

  lemma TrimSpaceOfTrimmed(s: string)
    requires Trimmed(s)
    ensures TrimSpace(s) == s
  {
  }

  // A string is blank exactly when it is all white space.
  lemma BlankIsAllSpace(s: string)
    ensures Blank(s) <==> AllSpace(s)
  {
    var lead, tail := TrimSpaceParts(s);
    if AllSpace(s) {
      TrimSpaceUnique(s, "", "");
      assert s + "" + "" == s;
    }
  }
}
