// The glob-to-regexp compiler of internal/tools/glob/glob.go, for ASCII patterns (where a
// byte of the pattern is a rune of the emitted text).
module Glob {
  import opened Text
  import opened Regexp

  // ---- classes -------------------------------------------------------------------

  // The index of the bracket that closes the class opened at start, or the length.
  function ClassEnd(p: string, start: nat): (end: nat)
    requires start < |p|
    ensures start < end <= |p|
  {
    var afterBang := if start + 1 < |p| && p[start + 1] == '!' then start + 2 else start + 1;
    var afterFirst := if afterBang < |p| && p[afterBang] == ']' then afterBang + 1 else afterBang;
    FindClose(p, afterFirst)
  }

  function FindClose(p: string, from: nat): (end: nat)
    requires from <= |p|
    ensures from <= end <= |p|
    decreases |p| - from
  {
    if from == |p| || p[from] == ']' then from else FindClose(p, from + 1)
  }

  predicate Negates(body: string) {
    body != "" && (body[0] == '!' || body[0] == '^')
  }

  function Listed(body: string): string {
    if Negates(body) then body[1..] else body
  }

  function ClassAtom(body: string): Atom {
    Class(Negates(body), Members(Listed(body)))
  }

  // ---- translation ---------------------------------------------------------------

  datatype Error = Unterminated | SlashInClass

  datatype Translation = Bad(error: Error) | Good(items: seq<Re>)

  const NotSlash := Class(true, [Single('/')])

  const LeadingDirs := Opt([Star(Dot), One(Lit('/'))])

  function Prepend(items: seq<Re>, t: Translation): Translation {
    match t case Bad(e) => t case Good(rest) => Good(items + rest)
  }

  // The first token of a pattern and its translation.
  function TokenLength(p: string): (n: nat)
    requires p != ""
    ensures 0 < n <= |p|
  {
    if "**/" <= p then 3
    else if "**" <= p then 2
    else if p[0] == '[' then (if ClassEnd(p, 0) < |p| then ClassEnd(p, 0) + 1 else |p|)
    else 1
  }

  predicate BadClass(p: string)
    requires p != "" && p[0] == '['
  {
    ClassEnd(p, 0) == |p| || '/' in p[1..ClassEnd(p, 0)]
  }

  function TokenItem(p: string): Re
    requires p != "" && (p[0] == '[' ==> !BadClass(p))
  {
    if "**/" <= p then LeadingDirs
    else if "**" <= p then Star(Dot)
    else if p[0] == '*' then Star(NotSlash)
    else if p[0] == '?' then One(NotSlash)
    else if p[0] == '[' then One(ClassAtom(p[1..ClassEnd(p, 0)]))
    else One(Lit(p[0]))
  }

  function Translate(p: string): Translation
    decreases |p|
  {
    if p == "" then Good([])
    else if p[0] == '[' && BadClass(p) then
      Bad(if ClassEnd(p, 0) == |p| then Unterminated else SlashInClass)
    else Prepend([TokenItem(p)], Translate(p[TokenLength(p)..]))
  }

  // ---- the code --------------------------------------------------------------------

  datatype Expression = Failed(error: Error) | Text(text: string)

  function Emitted(t: Translation): Expression {
    match t case Bad(e) => Failed(e) case Good(items) => Text("^" + Show(items) + "$")
  }

  // A text in which exactly the operators of regular expressions are quoted.
  function Quoted(s: string): string {
    if s == "" then ""
    else (if s[0] in "\\.+*?()|[]{}^$" then "\\" + [s[0]] else [s[0]]) + Quoted(s[1..])
  }

  predicate WithoutWildcards(pattern: string) {
    '*' !in pattern && '?' !in pattern && '[' !in pattern
  }

  lemma {:induction false} LiteralTranslation(pattern: string)
    requires WithoutWildcards(pattern)
    ensures Translate(pattern).Good? && Show(Translate(pattern).items) == Quoted(pattern)
    decreases |pattern|
  {
    hide Show;
    if pattern == "" {
      ShowNothing();
    } else {
      assert pattern[0] in pattern;
      LiteralTranslation(pattern[1..]);
      var items := Translate(pattern[1..]).items;
      assert ([One(Lit(pattern[0]))] + items)[1..] == items;
      ShowCons(One(Lit(pattern[0])), items);
      ShowSingle(One(Lit(pattern[0])));
    }
  }

  lemma ShowNothing()
    ensures Show([]) == ""
  {
  }

  lemma ShowCons(r: Re, items: seq<Re>)
    ensures Show([r] + items) == Show([r]) + Show(items)
  {
    hide ShowAtom;
    assert ([r] + items)[1..] == items && [r][1..] == [] && Show([]) == "";
    assert Show([r]) + "" == Show([r]);
  }

  method GlobRegexp(pattern: string) returns (r: Expression)
    ensures r == Emitted(Translate(pattern))
    ensures WithoutWildcards(pattern) ==> r == Text("^" + Quoted(pattern) + "$")
  {
    hide Show, ShowAtom, Translate, Prepend, TokenItem, BadClass, ClassEnd, ClassAtom, TokenLength;
    var builder := "^";
    ghost var items: seq<Re> := [];
    var i := 0;
    TranslateStart(pattern);
    while i < |pattern|
      invariant 0 <= i <= |pattern|
      invariant builder == "^" + Show(items)
      invariant Translate(pattern) == Prepend(items, Translate(pattern[i..]))
      decreases |pattern| - i
    {
      var c := pattern[i];
      ghost var p := pattern[i..];
      var piece: string;
      var next: nat;
      if c == '*' {
        if i + 1 < |pattern| && pattern[i + 1] == '*' {
          if i + 2 < |pattern| && pattern[i + 2] == '/' {
            piece, next := "(?:.*/)?", i + 3;
          } else {
            piece, next := ".*", i + 2;
          }
        } else {
          piece, next := "[^/]*", i + 1;
        }
      } else if c == '?' {
        piece, next := "[^/]", i + 1;
      } else if c == '[' {
        var bracket := AppendCharacterClass(pattern, i);
        if bracket.Failure? {
          TranslateBad(pattern, i, items);
          assert pattern[i] in pattern;
          return Failed(bracket.error);
        }
        piece, next := bracket.piece, bracket.next;
      } else {
        piece, next := QuoteMeta(c), i + 1;
      }
      TokenShape(pattern, i, piece, next);
      ShowAppend(items, TokenItem(p));
      TranslateStep(pattern, i, items);
      builder := builder + piece;
      items := items + [TokenItem(p)];
      i := next;
    }
    TranslateEnd(pattern, items);
    if WithoutWildcards(pattern) {
      LiteralTranslation(pattern);
    }
    r := Text(builder + "$");
  }

  lemma TranslateStart(pattern: string)
    ensures Translate(pattern) == Prepend([], Translate(pattern[0..]))
    ensures Show([]) == ""
  {
    assert pattern[0..] == pattern;
    var t := Translate(pattern);
    assert t.Good? ==> [] + t.items == t.items;
  }

  lemma TranslateEnd(pattern: string, items: seq<Re>)
    ensures Prepend(items, Translate(pattern[|pattern|..])) == Good(items)
  {
    assert items + [] == items;
  }

  lemma TranslateBad(pattern: string, i: nat, items: seq<Re>)
    requires i < |pattern| && pattern[i] == '[' && BadClass(pattern[i..])
    ensures Prepend(items, Translate(pattern[i..]))
         == Bad(if ClassEnd(pattern[i..], 0) == |pattern[i..]| then Unterminated else SlashInClass)
  {
  }

  datatype ClassText = Failure(error: Error) | Bracket(piece: string, next: nat)

  method AppendCharacterClass(pattern: string, start: nat) returns (r: ClassText)
    requires start < |pattern| && pattern[start] == '['
    ensures var p := pattern[start..];
            r == if BadClass(p) then Failure(if ClassEnd(p, 0) == |p| then Unterminated else SlashInClass)
                 else Bracket(ShowAtom(ClassAtom(p[1..ClassEnd(p, 0)])), start + ClassEnd(p, 0) + 1)
  {
    hide ShowAtom, ClassAtom;
    var end := start + 1;
    if end < |pattern| && pattern[end] == '!' {
      end := end + 1;
    }
    if end < |pattern| && pattern[end] == ']' {
      end := end + 1;
    }
    ghost var from := end;
    while end < |pattern| && pattern[end] != ']'
      invariant from <= end <= |pattern|
      invariant FindClose(pattern, from) == FindClose(pattern, end)
    {
      end := end + 1;
    }
    assert end == ClassEnd(pattern, start);
    ClassEndInSuffix(pattern, start);
    if end >= |pattern| {
      return Failure(Unterminated);
    }
    var body := pattern[start + 1..end];
    assert body == pattern[start..][1..end - start];
    if '/' in body {
      return Failure(SlashInClass);
    }
    ClassPrintsBody(body);
    if "!" <= body {
      body := "^" + body[1..];
    }
    r := Bracket("[" + body + "]", end + 1);
  }

  lemma ClassEndInSuffix(p: string, start: nat)
    requires start < |p|
    ensures ClassEnd(p, start) == start + ClassEnd(p[start..], 0)
  {
    var s := p[start..];
    var afterBang := if 1 < |s| && s[1] == '!' then 2 else 1;
    var afterFirst := if afterBang < |s| && s[afterBang] == ']' then afterBang + 1 else afterBang;
    FindCloseInSuffix(p, start, afterFirst);
  }

  lemma {:induction false} FindCloseInSuffix(p: string, start: nat, from: nat)
    requires start + from <= |p|
    ensures FindClose(p, start + from) == start + FindClose(p[start..], from)
    decreases |p| - from
  {
    if start + from < |p| && p[start + from] != ']' {
      FindCloseInSuffix(p, start, from + 1);
    }
  }

  lemma ClassPrintsBody(body: string)
    ensures ShowAtom(ClassAtom(body)) == "[" + (if Negates(body) then "^" else "") + Listed(body) + "]"
    ensures "!" <= body ==> ShowAtom(ClassAtom(body)) == "[" + ("^" + body[1..]) + "]"
    ensures !("!" <= body) ==> ShowAtom(ClassAtom(body)) == "[" + body + "]"
  {
    hide Members, ShowMembers;
    ShowMembersOfBody(Listed(body));
    if Negates(body) {
      assert "[" + "^" + body[1..] + "]" == "[" + ("^" + body[1..]) + "]";
      assert !("!" <= body) ==> body == "^" + body[1..];
    } else {
      assert "[" + "" + body + "]" == "[" + body + "]";
    }
  }

  // The piece written for a token is the text of its item.
  lemma TokenShape(pattern: string, i: nat, piece: string, next: nat)
    requires i < |pattern|
    requires pattern[i] == '[' ==> !BadClass(pattern[i..])
    requires var c := pattern[i];
             var two := c == '*' && i + 1 < |pattern| && pattern[i + 1] == '*';
             if two && i + 2 < |pattern| && pattern[i + 2] == '/' then piece == "(?:.*/)?" && next == i + 3
             else if two then piece == ".*" && next == i + 2
             else if c == '*' then piece == "[^/]*" && next == i + 1
             else if c == '?' then piece == "[^/]" && next == i + 1
             else if c == '[' then
               var p := pattern[i..];
               piece == ShowAtom(ClassAtom(p[1..ClassEnd(p, 0)])) && next == i + ClassEnd(p, 0) + 1
             else piece == QuoteMeta(c) && next == i + 1
    ensures next == i + TokenLength(pattern[i..])
    ensures piece == Show([TokenItem(pattern[i..])])
  {
    hide ClassEnd, ClassAtom, ShowAtom, Show;
    var p := pattern[i..];
    assert ("**" <= p) <==> |p| >= 2 && p[0] == '*' && p[1] == '*';
    assert ("**/" <= p) <==> |p| >= 3 && p[0] == '*' && p[1] == '*' && p[2] == '/';
    ShowConstants();
    ShowSingle(TokenItem(p));
  }

  lemma ShowConstants()
    ensures ShowAtom(NotSlash) == "[^/]" && ShowAtom(Dot) == "."
    ensures forall c :: ShowAtom(Lit(c)) == QuoteMeta(c)
    ensures "(?:" + ".*/" + ")?" == "(?:.*/)?" && "[^/]" + "*" == "[^/]*" && "." + "*" == ".*"
    ensures Show(LeadingDirs.body) == ".*/"
  {
    assert [Single('/')][1..] == [];
    assert ShowMembers([Single('/')]) == "/";
    var body := LeadingDirs.body;
    assert body[1..] == [One(Lit('/'))] && body[1..][1..] == [];
    assert Show(body[1..]) == "/";
  }

  lemma ShowSingle(r: Re)
    ensures Show([r]) == match r
                         case One(a) => ShowAtom(a)
                         case Star(a) => ShowAtom(a) + "*"
                         case Opt(body) => "(?:" + Show(body) + ")?"
  {
    assert [r][1..] == [] && Show([]) == "";
  }

  lemma {:induction false} ShowAppend(items: seq<Re>, r: Re)
    ensures Show(items + [r]) == Show(items) + Show([r])
    decreases |items|
  {
    hide ShowAtom;
    if items == [] {
      assert items + [r] == [r];
      assert Show(items) == "";
    } else {
      assert (items + [r])[0] == items[0];
      assert (items + [r])[1..] == items[1..] + [r];
      ShowAppend(items[1..], r);
    }
  }

  lemma TranslateStep(pattern: string, i: nat, items: seq<Re>)
    requires i < |pattern| && (pattern[i] == '[' ==> !BadClass(pattern[i..]))
    ensures var p := pattern[i..];
            Prepend(items, Translate(p)) == Prepend(items + [TokenItem(p)], Translate(pattern[i + TokenLength(p)..]))
  {
    var p := pattern[i..];
    assert p[TokenLength(p)..] == pattern[i + TokenLength(p)..];
    var t := Translate(p[TokenLength(p)..]);
    if t.Good? {
      assert items + ([TokenItem(p)] + t.items) == (items + [TokenItem(p)]) + t.items;
    }
  }

  // ---- the meaning of a glob -----------------------------------------------------------

  // A rune is listed by a class body: ranges x-y and single runes.
  predicate Lists(body: string, c: char)
    decreases |body|
  {
    if body == "" then false
    else if |body| >= 3 && body[1] == '-' then body[0] <= c <= body[2] || Lists(body[3..], c)
    else body[0] == c || Lists(body[1..], c)
  }

  predicate ClassAccepts(body: string, c: char) {
    Lists(Listed(body), c) != Negates(body)
  }

  predicate NoSlash(s: string) {
    '/' !in s
  }

  // The direct recursive matcher, with no regexp in sight.
  ghost predicate GlobMatches(p: string, path: string)
    decreases |p|
  {
    if p == "" then path == ""
    else if "**/" <= p then  // zero or more whole leading directories
      || GlobMatches(p[3..], path)
      || (exists k :: 0 < k <= |path| && path[k - 1] == '/' && GlobMatches(p[3..], path[k..]))
    else if "**" <= p then
      exists k :: 0 <= k <= |path| && GlobMatches(p[2..], path[k..])
    else if p[0] == '*' then
      exists k :: 0 <= k <= |path| && NoSlash(path[..k]) && GlobMatches(p[1..], path[k..])
    else if p[0] == '?' then
      path != "" && path[0] != '/' && GlobMatches(p[1..], path[1..])
    else if p[0] == '[' then
      && !BadClass(p) && path != ""
      && ClassAccepts(p[1..ClassEnd(p, 0)], path[0]) && GlobMatches(p[ClassEnd(p, 0) + 1..], path[1..])
    else
      path != "" && path[0] == p[0] && GlobMatches(p[1..], path[1..])
  }

  predicate NewlineFree(s: string) {
    '\n' !in s
  }

  lemma {:induction false} MembersHaveWhatBodyLists(body: string, c: char)
    ensures Has(Members(body), c) <==> Lists(body, c)
    decreases |body|
  {
    if body != "" {
      var ms := Members(body);
      var rest := if |body| >= 3 && body[1] == '-' then body[3..] else body[1..];
      MembersHaveWhatBodyLists(rest, c);
      assert ms[1..] == Members(rest);
      assert forall i :: 0 < i < |ms| ==> ms[i] == ms[1..][i - 1];
      if Has(ms[1..], c) {
        var i :| 0 <= i < |ms[1..]| && MemberHas(ms[1..][i], c);
        assert MemberHas(ms[i + 1], c);
      }
      if MemberHas(ms[0], c) {
        assert Has(ms, c);
      }
    }
  }

  lemma NotSlashAccepts(c: char)
    ensures Accepts(NotSlash, c) <==> c != '/'
  {
    var ms := [Single('/')];
    assert MemberHas(ms[0], c) <==> c == '/';
  }

  lemma NotSlashRuns(s: string)
    ensures AcceptsAll(NotSlash, s) <==> NoSlash(s)
  {
    forall i | 0 <= i < |s| ensures Accepts(NotSlash, s[i]) <==> s[i] != '/' {
      NotSlashAccepts(s[i]);
    }
  }

  // The optional group for leading directories matches newline-free text ending in '/'.
  lemma LeadingDirsMatch(s: string)
    ensures Matches(LeadingDirs.body, s) <==> NewlineFree(s) && s != "" && s[|s| - 1] == '/'
  {
    DirsBeforeSlash(s);
    hide Matches, AcceptsAll;
    if Matches(LeadingDirs.body, s) {
      var k :| 0 <= k <= |s| && AcceptsAll(Dot, s[..k]) && Matches(LeadingDirs.body[1..], s[k..]);
      LastSlash(s, k);
      DotRuns(s[..k]);
      assert s == s[..k] + [s[k]];
    }
    if NewlineFree(s) && s != "" && s[|s| - 1] == '/' {
      var k := |s| - 1;
      LastSlash(s, k);
      DotRuns(s[..k]);
    }
  }

  lemma DirsBeforeSlash(s: string)
    ensures Matches(LeadingDirs.body, s)
       <==> exists k :: 0 <= k <= |s| && AcceptsAll(Dot, s[..k]) && Matches(LeadingDirs.body[1..], s[k..])
  {
    assert LeadingDirs.body[0] == Star(Dot);
  }

  lemma LastSlash(s: string, k: nat)
    requires k <= |s|
    ensures Matches(LeadingDirs.body[1..], s[k..]) <==> k == |s| - 1 && s[k] == '/'
  {
    var body := LeadingDirs.body;
    assert body[1..] == [One(Lit('/'))] && body[1..][1..] == [];
    assert k < |s| ==> s[k..][1..] == s[k + 1..];
  }

  lemma DotRuns(s: string)
    ensures AcceptsAll(Dot, s) <==> NewlineFree(s)
  {
    if AcceptsAll(Dot, s) {
      assert forall i :: 0 <= i < |s| ==> Accepts(Dot, s[i]);
    }
  }

  // Some token of the pattern is a double star.
  predicate HasDoubleStar(p: string)
    decreases |p|
  {
    p != "" && ("**" <= p || HasDoubleStar(p[TokenLength(p)..]))
  }

  // The paths on which a pattern and its expression always agree.
  predicate Agreed(p: string, path: string) {
    NewlineFree(path) || !HasDoubleStar(p)
  }

  // One token: the item's language followed by the rest, read as the glob reads it.
  lemma {:induction false} TokenMeaning(p: string, items: seq<Re>, path: string)
    requires p != "" && (p[0] == '[' ==> !BadClass(p))
    requires "**" <= p ==> NewlineFree(path)
    requires forall k :: 0 <= k <= |path| ==>
               (Matches(items, path[k..]) <==> GlobMatches(p[TokenLength(p)..], path[k..]))
    ensures Matches([TokenItem(p)] + items, path) <==> GlobMatches(p, path)
  {
    var rs := [TokenItem(p)] + items;
    assert rs[1..] == items;
    var rest := p[TokenLength(p)..];
    assert Matches(items, path) <==> GlobMatches(rest, path) by { assert path[0..] == path; }
    if "**/" <= p {
      DirsMeaning(rs, items, rest, path);
      assert p[3..] == rest;
    } else if p[0] == '*' {
      StarMeaning(p, rs, path);
    } else if path != "" {
      RuneMeaning(p, path[0]);
    }
  }

  lemma StarMeaning(p: string, rs: seq<Re>, path: string)
    requires p != "" && p[0] == '*' && !("**/" <= p) && ("**" <= p ==> NewlineFree(path))
    requires rs != [] && rs[0] == TokenItem(p)
    requires forall k :: 0 <= k <= |path| ==>
               (Matches(rs[1..], path[k..]) <==> GlobMatches(p[TokenLength(p)..], path[k..]))
    ensures Matches(rs, path) <==> GlobMatches(p, path)
  {
    forall k | 0 <= k <= |path|
      ensures AcceptsAll(rs[0].a, path[..k]) <==> ("**" <= p || NoSlash(path[..k]))
    {
      if "**" <= p {
        DotRuns(path[..k]);
      } else {
        NotSlashRuns(path[..k]);
      }
    }
  }

  // A token for one rune.
  lemma RuneMeaning(p: string, c: char)
    requires p != "" && p[0] != '*' && (p[0] == '[' ==> !BadClass(p))
    ensures TokenItem(p).One?
    ensures Accepts(TokenItem(p).a, c)
       <==> if p[0] == '?' then c != '/'
            else if p[0] == '[' then ClassAccepts(p[1..ClassEnd(p, 0)], c)
            else c == p[0]
  {
    NotSlashAccepts(c);
    if p[0] == '[' {
      MembersHaveWhatBodyLists(Listed(p[1..ClassEnd(p, 0)]), c);
    }
  }

  lemma DirsMeaning(rs: seq<Re>, items: seq<Re>, rest: string, path: string)
    requires rs == [LeadingDirs] + items && NewlineFree(path)
    requires Matches(items, path) <==> GlobMatches(rest, path)
    requires forall k :: 0 <= k <= |path| ==> (Matches(items, path[k..]) <==> GlobMatches(rest, path[k..]))
    ensures Matches(rs, path)
       <==> GlobMatches(rest, path)
            || exists k :: 0 < k <= |path| && path[k - 1] == '/' && GlobMatches(rest, path[k..])
  {
    assert rs[1..] == items;
    forall k | 0 <= k <= |path|
      ensures Matches(LeadingDirs.body, path[..k]) <==> k > 0 && path[k - 1] == '/'
    {
      LeadingDirsMatch(path[..k]);
    }
  }

  // The emitted expression accepts exactly what the matcher accepts: on every path when no
  // token is a double star, on the newline-free ones otherwise.
  lemma {:induction false} TranslationPreservesMeaning(p: string)
    requires Translate(p).Good?
    ensures forall path :: Agreed(p, path) ==> (Matches(Translate(p).items, path) <==> GlobMatches(p, path))
    decreases |p|
  {
    if p != "" {
      TranslationPreservesMeaning(p[TokenLength(p)..]);
      forall path | Agreed(p, path)
        ensures Matches(Translate(p).items, path) <==> GlobMatches(p, path)
      {
        forall k | 0 <= k <= |path| ensures Agreed(p[TokenLength(p)..], path[k..]) {
        }
        TokenMeaning(p, Translate(p[TokenLength(p)..]).items, path);
      }
    }
  }

  // ---- the emitted text --------------------------------------------------------------------

  predicate PlainClass(body: string) {
    Listed(body) != "" && PlainBody(Listed(body), true)
  }

  // Every class of the pattern lists plain runes and ranges only.
  predicate PlainClasses(p: string)
    decreases |p|
  {
    p == "" ||
    (&& (p[0] == '[' && ClassEnd(p, 0) < |p| ==> PlainClass(p[1..ClassEnd(p, 0)]))
     && PlainClasses(p[TokenLength(p)..]))
  }

  lemma ConstantsPrintable()
    ensures PrintableAtom(NotSlash) && Printable([LeadingDirs])
  {
    assert PlainBody("/", true) by { assert "/"[1..] == ""; }
    assert Members("/") == [Single('/')] by { assert "/"[1..] == ""; }
    var body := LeadingDirs.body;
    assert body[1..] == [One(Lit('/'))] && body[1..][1..] == [];
    assert PrintableAtom(Lit('/')) && PrintableAtom(Dot);
    assert Printable([]);
    assert Printable(body[1..]);
    assert Printable(body);
    assert [LeadingDirs][1..] == [];
  }

  lemma {:induction false} TranslationPrintable(p: string)
    requires Translate(p).Good? && PlainClasses(p)
    ensures Printable(Translate(p).items)
    decreases |p|
  {
    hide PrintableAtom, ClassEnd, PlainClass, ClassAtom;
    if p != "" {
      TranslationPrintable(p[TokenLength(p)..]);
      ConstantsPrintable();
      if p[0] == '[' {
        ClassPrintable(p[1..ClassEnd(p, 0)]);
      }
      LiteralsPrintable();
      PrintableCons(TokenItem(p), Translate(p[TokenLength(p)..]).items);
    }
  }

  lemma LiteralsPrintable()
    ensures PrintableAtom(Dot) && forall c :: PrintableAtom(Lit(c))
  {
  }

  lemma PrintableCons(r: Re, items: seq<Re>)
    requires Printable(items)
    requires match r case One(a) => PrintableAtom(a) case Star(a) => PrintableAtom(a) case Opt(body) => Printable(body)
    ensures Printable([r] + items)
  {
    assert ([r] + items)[1..] == items;
  }

  lemma ClassPrintable(body: string)
    requires PlainClass(body)
    ensures PrintableAtom(ClassAtom(body))
  {
  }

  // End to end: the text written for a pattern parses as a regular expression, and that
  // expression accepts exactly what the matcher accepts.
  lemma CompiledGlobMeansGlob(pattern: string)
    requires Translate(pattern).Good? && PlainClasses(pattern)
    ensures var t := Emitted(Translate(pattern)).text;
            && Parse(t).Some?
            && forall path :: Agreed(pattern, path) ==>
                 (Matches(Parse(t).value, path) <==> GlobMatches(pattern, path))
  {
    TranslationPrintable(pattern);
    TextReadsBack(Translate(pattern).items);
    TranslationPreservesMeaning(pattern);
  }

  // ---- errors --------------------------------------------------------------------------------

  // Translation fails exactly when some opening bracket, reached with everything before it
  // translated, starts a class that is unterminated or contains a slash.
  lemma {:induction false} TranslationFailsIff(p: string)
    ensures Translate(p).Bad? <==> HasBadClass(p)
    decreases |p|
  {
    if p != "" {
      if p[0] == '[' && BadClass(p) {
        assert p[..0] == "" && p[0..] == p;
        assert OpensBadClass(p, 0);
      } else {
        var n := TokenLength(p);
        TranslationFailsIff(p[n..]);
        hide HasBadClass, BadClass, TokenItem, ClassEnd;
        BadClassPastFirstToken(p);
      }
    }
  }

  predicate HasBadClass(p: string) {
    exists i :: 0 <= i < |p| && OpensBadClass(p, i)
  }

  lemma BadClassPastFirstToken(p: string)
    requires p != "" && (p[0] == '[' ==> !BadClass(p))
    ensures HasBadClass(p) <==> HasBadClass(p[TokenLength(p)..])
  {
    hide OpensBadClass, BadClass, ClassEnd;
    var n := TokenLength(p);
    if HasBadClass(p) {
      var i :| 0 <= i < |p| && OpensBadClass(p, i);
      BadClassPastToken(p, i);
      assert OpensBadClass(p[n..], i - n);
    }
    if HasBadClass(p[n..]) {
      var j :| 0 <= j < |p[n..]| && OpensBadClass(p[n..], j);
      BadClassPastToken(p, j + n);
      assert OpensBadClass(p, j + n);
    }
  }

  predicate OpensBadClass(p: string, i: nat)
    requires i < |p|
  {
    p[i] == '[' && Translate(p[..i]).Good? && BadClass(p[i..])
  }

  lemma BadClassPastToken(p: string, i: nat)
    requires i < |p| && (p[0] == '[' ==> !BadClass(p))
    ensures OpensBadClass(p, i) <==> i >= TokenLength(p) && OpensBadClass(p[TokenLength(p)..], i - TokenLength(p))
  {
    var n := TokenLength(p);
    if p[i] == '[' {
      if i >= n {
        assert p[n..][i - n..] == p[i..] && p[n..][..i - n] == p[..i][n..];
        PrefixToken(p, i);
      } else if i > 0 {
        assert p[0] == '[';
        CutClassIsBad(p, i);
      }
    }
  }

  // Cutting a pattern before a bracket does not change the token in front of it.
  lemma PrefixToken(p: string, i: nat)
    requires 0 < i < |p| && TokenLength(p) <= i && p[i] == '[' && (p[0] == '[' ==> !BadClass(p))
    ensures var q := p[..i];
            && (q[0] == '[' ==> !BadClass(q))
            && TokenLength(q) == TokenLength(p)
  {
    var q := p[..i];
    assert ("**" <= p) <==> |p| >= 2 && p[0] == '*' && p[1] == '*';
    assert ("**" <= q) <==> |q| >= 2 && q[0] == '*' && q[1] == '*';
    assert ("**/" <= p) <==> |p| >= 3 && p[0] == '*' && p[1] == '*' && p[2] == '/';
    assert ("**/" <= q) <==> |q| >= 3 && q[0] == '*' && q[1] == '*' && q[2] == '/';
    if p[0] == '[' {
      ClassEndInPrefix(p, i);
      assert q[1..ClassEnd(p, 0)] == p[1..ClassEnd(p, 0)];
    }
  }

  lemma ClassEndInPrefix(p: string, i: nat)
    requires 0 < i <= |p|
    ensures ClassEnd(p[..i], 0) == if ClassEnd(p, 0) < i then ClassEnd(p, 0) else i
  {
    var afterBang := if 1 < |p| && p[1] == '!' then 2 else 1;
    var afterFirst := if afterBang < |p| && p[afterBang] == ']' then afterBang + 1 else afterBang;
    if afterFirst <= i {
      FindCloseInPrefix(p, i, afterFirst);
    }
  }

  lemma {:induction false} FindCloseInPrefix(p: string, i: nat, from: nat)
    requires from <= i <= |p|
    ensures FindClose(p[..i], from) == if FindClose(p, from) < i then FindClose(p, from) else i
    decreases i - from
  {
    if from < i && p[from] != ']' {
      FindCloseInPrefix(p, i, from + 1);
    }
  }

  lemma CutClassIsBad(p: string, i: nat)
    requires 0 < i < |p| && p[0] == '[' && !BadClass(p) && i < TokenLength(p)
    ensures Translate(p[..i]).Bad?
  {
    ClassEndInPrefix(p, i);
  }

  // ---- what the wildcards may consume -------------------------------------------------------

  function Slashes(s: string): nat {
    if s == "" then 0 else (if s[0] == '/' then 1 else 0) + Slashes(s[1..])
  }

  // No class and no double star.
  predicate SegmentWise(p: string) {
    '[' !in p && forall i :: 0 < i < |p| ==> !(p[i - 1] == '*' && p[i] == '*')
  }

  // Without a double star a pattern keeps to its depth: `*` and `?` never cross a slash.
  lemma {:induction false} WildcardsKeepDepth(p: string, path: string)
    requires SegmentWise(p) && GlobMatches(p, path)
    ensures Slashes(path) == Slashes(p)
    decreases |p|
  {
    if p != "" {
      assert !("**" <= p) by { assert |p| >= 2 ==> !(p[0] == '*' && p[1] == '*'); }
      assert p[0] in p && p[0] != '[';
      assert SegmentWise(p[1..]);
      if p[0] == '*' {
        var k :| 0 <= k <= |path| && NoSlash(path[..k]) && GlobMatches(p[1..], path[k..]);
        WildcardsKeepDepth(p[1..], path[k..]);
        SlashesSkip(path, k);
      } else {
        WildcardsKeepDepth(p[1..], path[1..]);
      }
    }
  }

  lemma {:induction false} SlashesSkip(s: string, k: nat)
    requires k <= |s| && NoSlash(s[..k])
    ensures Slashes(s) == Slashes(s[k..])
  {
    if k > 0 {
      assert s[..k][0] == s[0];
      assert s[1..][..k - 1] == s[..k][1..] && s[1..][k - 1..] == s[k..];
      SlashesSkip(s[1..], k - 1);
    } else {
      assert s[0..] == s;
    }
  }

  // ---- where a newline makes the difference ---------------------------------------------

  // What one item may take from the front of a path.
  ghost predicate Takes(r: Re, path: string, k: nat)
    requires k <= |path|
  {
    match r
    case One(a) => k == 1 && Accepts(a, path[0])
    case Star(a) => AcceptsAll(a, path[..k])
    case Opt(body) => k == 0 || Matches(body, path[..k])
  }

  lemma TakenBy(rs: seq<Re>, path: string) returns (k: nat)
    requires rs != [] && Matches(rs, path)
    ensures k <= |path| && Matches(rs[1..], path[k..])
    ensures Takes(rs[0], path, k)
  {
    match rs[0] {
      case One(a) =>
        k := 1;
      case Star(a) =>
        k :| 0 <= k <= |path| && AcceptsAll(a, path[..k]) && Matches(rs[1..], path[k..]);
      case Opt(body) =>
        if Matches(rs[1..], path) {
          k := 0;
          assert path[0..] == path;
        } else {
          k :| 0 <= k <= |path| && Matches(body, path[..k]) && Matches(rs[1..], path[k..]);
        }
    }
  }

  // The expression never accepts more than the matcher, whatever the path.
  lemma {:induction false} TranslationSound(p: string, path: string)
    requires Translate(p).Good? && Matches(Translate(p).items, path)
    ensures GlobMatches(p, path)
    decreases |p|
  {
    if p != "" {
      var rest := p[TokenLength(p)..];
      var items := Translate(rest).items;
      var rs := [TokenItem(p)] + items;
      assert rs[1..] == items;
      var k := TakenBy(rs, path);
      TranslationSound(rest, path[k..]);
      TokenSound(p, path, k);
    }
  }

  lemma TokenSound(p: string, path: string, k: nat)
    requires p != "" && (p[0] == '[' ==> !BadClass(p))
    requires k <= |path| && GlobMatches(p[TokenLength(p)..], path[k..])
    requires Takes(TokenItem(p), path, k)
    ensures GlobMatches(p, path)
  {
    hide Matches;
    if "**/" <= p {
      if k > 0 {
        LeadingDirsMatch(path[..k]);
      } else {
        assert path[0..] == path;
      }
    } else if p[0] == '*' {
      NotSlashRuns(path[..k]);
    } else {
      RuneMeaning(p, path[0]);
    }
  }

  // No class of the pattern is empty.
  ghost predicate ClassesAccept(p: string)
    decreases |p|
  {
    p == "" ||
    (&& (p[0] == '[' && !BadClass(p) ==> exists c :: ClassAccepts(p[1..ClassEnd(p, 0)], c))
     && ClassesAccept(p[TokenLength(p)..]))
  }

  // A pattern without an empty class matches some path, and only such a pattern does.
  lemma {:induction false} MatchesSomething(p: string) returns (path: string)
    requires Translate(p).Good? && ClassesAccept(p)
    ensures GlobMatches(p, path)
    decreases |p|
  {
    if p == "" {
      path := "";
    } else {
      var rest := MatchesSomething(p[TokenLength(p)..]);
      path := PutBefore(p, rest);
    }
  }

  // A path for a pattern from one for what follows its first token.
  lemma PutBefore(p: string, rest: string) returns (path: string)
    requires p != "" && Translate(p).Good? && ClassesAccept(p)
    requires GlobMatches(p[TokenLength(p)..], rest)
    ensures GlobMatches(p, path)
    ensures Crossings(rest) <= Crossings(path)
  {
    if p[0] == '*' {
      path := rest;
      assert rest[..0] == "" && rest[0..] == rest;
    } else {
      var c: char;
      if p[0] == '?' {
        c := 'a';
      } else if p[0] == '[' {
        c :| ClassAccepts(p[1..ClassEnd(p, 0)], c);
      } else {
        c := p[0];
      }
      path := [c] + rest;
      assert path[1..] == rest;
    }
  }

  lemma {:induction false} MatchedHasNoEmptyClass(p: string, path: string)
    requires GlobMatches(p, path)
    ensures ClassesAccept(p)
    decreases |p|
  {
    if p != "" {
      var rest := p[TokenLength(p)..];
      if "**/" <= p {
        if !GlobMatches(rest, path) {
          var k :| 0 < k <= |path| && path[k - 1] == '/' && GlobMatches(rest, path[k..]);
          MatchedHasNoEmptyClass(rest, path[k..]);
        } else {
          MatchedHasNoEmptyClass(rest, path);
        }
      } else if p[0] == '*' {
        var k :| 0 <= k <= |path| && GlobMatches(rest, path[k..]);
        MatchedHasNoEmptyClass(rest, path[k..]);
      } else {
        MatchedHasNoEmptyClass(rest, path[1..]);
      }
    }
  }

  // How often a newline is followed by a slash.
  function Crossings(s: string): nat {
    if |s| < 2 then 0 else (if s[0] == '\n' && s[1] == '/' then 1 else 0) + Crossings(s[1..])
  }

  lemma {:induction false} CrossingsSkip(s: string, k: nat)
    requires k <= |s| && (NewlineFree(s[..k]) || NoSlash(s[..k]))
    ensures Crossings(s) <= 1 + Crossings(s[k..])
    decreases k
  {
    if k == 0 {
      assert s[0..] == s;
    } else if k > 1 {
      assert s[..k][0] == s[0] && s[..k][1] == s[1];
      assert s[1..][..k - 1] == s[..k][1..] && s[1..][k - 1..] == s[k..];
      CrossingsSkip(s[1..], k - 1);
    }
  }

  // Every item of an expression stops short of a newline or of a slash, or takes one rune.
  lemma {:induction false} CrossingsBounded(p: string, path: string)
    requires Translate(p).Good? && Matches(Translate(p).items, path)
    ensures Crossings(path) <= |p|
    decreases |p|
  {
    if p != "" {
      var rest := p[TokenLength(p)..];
      var items := Translate(rest).items;
      var rs := [TokenItem(p)] + items;
      assert rs[1..] == items;
      var k := TakenBy(rs, path);
      CrossingsBounded(rest, path[k..]);
      if !rs[0].One? {
        if rs[0].Star? {
          DotRuns(path[..k]);
          NotSlashRuns(path[..k]);
        } else if k > 0 {
          LeadingDirsMatch(path[..k]);
        }
        CrossingsSkip(path, k);
      }
    }
  }

  function Zigzag(n: nat): (s: string)
    ensures |s| == 2 * n && (n > 0 ==> s[|s| - 1] == '/')
  {
    if n == 0 then "" else "\n/" + Zigzag(n - 1)
  }

  lemma {:induction false} ZigzagCrosses(n: nat, rest: string)
    ensures Crossings(Zigzag(n) + rest) >= n
  {
    if n > 0 {
      ZigzagCrosses(n - 1, rest);
      var s := Zigzag(n) + rest;
      assert s[1..][1..] == Zigzag(n - 1) + rest;
    } else {
      assert "" + rest == rest;
    }
  }

  // What a double star takes may cross from a newline to a slash as often as one likes.
  lemma {:induction false} DoubleStarCrosses(p: string, n: nat) returns (path: string)
    requires Translate(p).Good? && HasDoubleStar(p) && ClassesAccept(p)
    ensures GlobMatches(p, path) && Crossings(path) >= n
    decreases |p|
  {
    var after := p[TokenLength(p)..];
    if "**" <= p {
      var rest := MatchesSomething(after);
      path := Zigzag(n) + rest;
      ZigzagCrosses(n, rest);
      assert path[2 * n..] == rest;
      assert n > 0 ==> path[2 * n - 1] == '/';
      assert n == 0 ==> path == rest;
    } else {
      var rest := DoubleStarCrosses(after, n);
      path := PutBefore(p, rest);
    }
  }

  // `**` as emitted stops at a newline. So a pattern and its expression agree on all paths
  // exactly when no token is a double star, or some class is empty and nothing matches.
  lemma AgreesEverywhereIff(p: string)
    requires Translate(p).Good?
    ensures (forall path :: Matches(Translate(p).items, path) <==> GlobMatches(p, path))
       <==> !HasDoubleStar(p) || !ClassesAccept(p)
  {
    hide Matches, GlobMatches, ClassesAccept, HasDoubleStar, Translate, Crossings;
    if !HasDoubleStar(p) {
      TranslationPreservesMeaning(p);
    } else if ClassesAccept(p) {
      var path := DoubleStarCrosses(p, |p| + 1);
      if Matches(Translate(p).items, path) {
        CrossingsBounded(p, path);
      }
      assert !(Matches(Translate(p).items, path) <==> GlobMatches(p, path));
    } else {
      forall path ensures !Matches(Translate(p).items, path) && !GlobMatches(p, path) {
        if Matches(Translate(p).items, path) {
          TranslationSound(p, path);
        }
        if GlobMatches(p, path) {
          MatchedHasNoEmptyClass(p, path);
        }
      }
    }
  }
}
