// The part of Go's regexp syntax that the glob compiler emits: an abstract syntax with a
// language semantics, the text of a tree, and a parser for that text.
module Regexp {
  import opened Text

  // Members of a bracket class.
  datatype Member = Single(c: char) | Range(lo: char, hi: char)

  // What matches exactly one rune.
  datatype Atom = Lit(c: char) | Dot | Class(negated: bool, members: seq<Member>)

  datatype Re = One(a: Atom) | Star(a: Atom) | Opt(body: seq<Re>)

  // ---- language ------------------------------------------------------------------

  predicate Has(members: seq<Member>, c: char) {
    exists i :: 0 <= i < |members| && MemberHas(members[i], c)
  }

  predicate MemberHas(m: Member, c: char) {
    match m
    case Single(d) => c == d
    case Range(lo, hi) => lo <= c <= hi
  }

  // A dot does not match a newline; a negated class does.
  predicate Accepts(a: Atom, c: char) {
    match a
    case Lit(d) => c == d
    case Dot => c != '\n'
    case Class(negated, members) => Has(members, c) != negated
  }

  predicate AcceptsAll(a: Atom, s: string) {
    forall i :: 0 <= i < |s| ==> Accepts(a, s[i])
  }

  function Size(rs: seq<Re>): nat {
    if rs == [] then 0
    else 1 + (if rs[0].Opt? then 1 + Size(rs[0].body) else 0) + Size(rs[1..])
  }

  // The whole of s is in the language of the concatenation.
  ghost predicate Matches(rs: seq<Re>, s: string)
    decreases Size(rs)
  {
    if rs == [] then s == ""
    else
      match rs[0]
      case One(a) => s != "" && Accepts(a, s[0]) && Matches(rs[1..], s[1..])
      case Star(a) => exists k :: 0 <= k <= |s| && AcceptsAll(a, s[..k]) && Matches(rs[1..], s[k..])
      case Opt(body) =>
        || Matches(rs[1..], s)
        || (exists k :: 0 <= k <= |s| && Matches(body, s[..k]) && Matches(rs[1..], s[k..]))
  }

  // ---- text ------------------------------------------------------------------------

  predicate IsMeta(c: char) {
    || c == '\\' || c == '.' || c == '+' || c == '*' || c == '?' || c == '(' || c == ')'
    || c == '|' || c == '[' || c == ']' || c == '{' || c == '}' || c == '^' || c == '$'
  }

  // regexp.QuoteMeta of one rune.
  function QuoteMeta(c: char): string {
    if IsMeta(c) then ['\\', c] else [c]
  }

  function ShowMembers(members: seq<Member>): string {
    if members == [] then ""
    else (match members[0] case Single(c) => [c] case Range(lo, hi) => [lo, '-', hi]) + ShowMembers(members[1..])
  }

  function ShowAtom(a: Atom): string {
    match a
    case Lit(c) => QuoteMeta(c)
    case Dot => "."
    case Class(negated, members) => "[" + (if negated then "^" else "") + ShowMembers(members) + "]"
  }

  function Show(rs: seq<Re>): string
    decreases Size(rs)
  {
    if rs == [] then ""
    else
      (match rs[0]
       case One(a) => ShowAtom(a)
       case Star(a) => ShowAtom(a) + "*"
       case Opt(body) => "(?:" + Show(body) + ")?")
      + Show(rs[1..])
  }

  // ---- parsing -----------------------------------------------------------------------

  datatype Read<+T> = Fail | Got(value: T, rest: string)

  // The members up to the closing bracket. A closing bracket right at the start is a
  // member, a dash before the closing bracket too. Escapes and [: :] names are outside
  // this syntax, and a range that runs backwards is an error.
  function ParseMembers(t: string, first: bool): Read<seq<Member>>
    decreases |t|
  {
    if t == "" then Fail
    else if t[0] == ']' && !first then Got([], t[1..])
    else if t[0] == '\\' || (t[0] == '[' && |t| > 1 && t[1] == ':') then Fail
    else if |t| >= 3 && t[1] == '-' && t[2] != ']' then
      if t[2] == '\\' || t[2] < t[0] then Fail
      else
        match ParseMembers(t[3..], false)
        case Fail => Fail
        case Got(ms, rest) => Got([Range(t[0], t[2])] + ms, rest)
    else
      match ParseMembers(t[1..], false)
      case Fail => Fail
      case Got(ms, rest) => Got([Single(t[0])] + ms, rest)
  }

  // What stands for itself after a backslash: any ASCII rune but letters and digits.
  predicate EscapesItself(c: char) {
    c < '\U{80}' && !('0' <= c <= '9') && !('A' <= c <= 'Z') && !('a' <= c <= 'z')
  }

  // One rune's worth of an expression. An operator that stands where none may, or that
  // belongs to a form outside this syntax, is an error: it never stands for itself.
  function ParseAtom(t: string): Read<Atom> {
    if t == "" then Fail
    else
      match t[0]
      case '\\' => if |t| > 1 && EscapesItself(t[1]) then Got(Lit(t[1]), t[2..]) else Fail
      case '.' => Got(Dot, t[1..])
      case '[' =>
        var negated := |t| > 1 && t[1] == '^';
        (match ParseMembers(if negated then t[2..] else t[1..], true)
         case Fail => Fail
         case Got(ms, rest) => Got(Class(negated, ms), rest))
      case ']' => Fail
      // repetition with nothing to repeat, and counted repetition
      case '*' => Fail
      case '+' => Fail
      case '?' => Fail
      case '{' => Fail
      case '}' => Fail
      // groups and alternatives
      case '(' => Fail
      case ')' => Fail
      case '|' => Fail
      // anchors inside the text
      case '^' => Fail
      case '$' => Fail
      case c => Got(Lit(c), t[1..])
  }

  // A rune stands for itself exactly when it is none of the fourteen operators; an operator
  // does when a backslash stands before it.
  lemma OperatorsAreNotLiterals(t: string)
    requires t != ""
    ensures ParseAtom(t) == Got(Lit(t[0]), t[1..]) <==> t[0] !in "\\.+*?()|[]{}^$"
    ensures t[0] in "\\.+*?()|[]{}^$" ==> ParseAtom("\\" + t) == Got(Lit(t[0]), t[1..])
  {
    hide ParseMembers;
    assert ("\\" + t)[2..] == t[1..];
  }

  // Items up to the end of the text or a closing parenthesis.
  function ParseItems(t: string, fuel: nat): Read<seq<Re>>
    decreases fuel
  {
    if t == "" || t[0] == ')' then Got([], t)
    else if fuel == 0 then Fail
    else if "(?:" <= t then
      match ParseItems(t[3..], fuel - 1)
      case Fail => Fail
      case Got(body, after) =>
        if ")?" <= after then
          match ParseItems(after[2..], fuel - 1)
          case Fail => Fail
          case Got(rs, rest) => Got([Opt(body)] + rs, rest)
        else Fail
    else
      match ParseAtom(t)
      case Fail => Fail
      case Got(a, after) =>
        var star := after != "" && after[0] == '*';
        if after != "" && after[0] == '?' then Fail
        else
          match ParseItems(if star then after[1..] else after, fuel - 1)
          case Fail => Fail
          case Got(rs, rest) => Got([if star then Star(a) else One(a)] + rs, rest)
  }

  // An anchored expression.
  function Parse(t: string): Option<seq<Re>> {
    if |t| >= 2 && t[0] == '^' && t[|t| - 1] == '$' then
      var r := ParseItems(t[1..|t| - 1], |t|);
      if r.Got? && r.rest == "" then Some(r.value) else None
    else None
  }

  // ---- the text of a tree reads back as the tree -------------------------------------------

  // The members a bracket body lists: greedily a range x-y, else a single rune.
  function Members(body: string): seq<Member>
    decreases |body|
  {
    if body == "" then []
    else if |body| >= 3 && body[1] == '-' then [Range(body[0], body[2])] + Members(body[3..])
    else [Single(body[0])] + Members(body[1..])
  }

  // Plain runes and forward ranges only; a closing bracket may only come first.
  predicate PlainBody(body: string, first: bool)
    decreases |body|
  {
    if body == "" then !first
    else
      && (body[0] == ']' ==> first) && body[0] != '\\'
      && !(body[0] == '[' && |body| > 1 && body[1] == ':')
      && if |body| >= 3 && body[1] == '-'
         then body[2] != '\\' && body[2] != ']' && body[0] <= body[2] && PlainBody(body[3..], false)
         else PlainBody(body[1..], false)
  }

  lemma {:induction false} ShowMembersOfBody(body: string)
    ensures ShowMembers(Members(body)) == body
    decreases |body|
  {
    if body == "" {
    } else if |body| >= 3 && body[1] == '-' {
      ShowMembersOfBody(body[3..]);
      assert body == [body[0], '-', body[2]] + body[3..];
    } else {
      ShowMembersOfBody(body[1..]);
      assert body == [body[0]] + body[1..];
    }
  }

  lemma {:induction false} MembersReadBack(body: string, first: bool, rest: string)
    requires PlainBody(body, first)
    ensures ParseMembers(body + "]" + rest, first) == Got(Members(body), rest)
    decreases |body|
  {
    var t := body + "]" + rest;
    if body == "" {
      assert t[1..] == rest;
    } else if |body| >= 3 && body[1] == '-' {
      assert t[3..] == body[3..] + "]" + rest;
      MembersReadBack(body[3..], false, rest);
    } else {
      assert t[1..] == body[1..] + "]" + rest;
      MembersReadBack(body[1..], false, rest);
      assert |body| == 1 ==> t[1] == ']';
      assert |body| == 2 && body[1] == '-' ==> t[2] == ']';
    }
  }

  ghost predicate PrintableAtom(a: Atom) {
    a.Class? ==>
      exists body :: body != "" && PlainBody(body, true) && a.members == Members(body) && (a.negated || body[0] != '^')
  }

  ghost predicate Printable(rs: seq<Re>)
    decreases Size(rs)
  {
    rs == [] ||
    (Printable(rs[1..]) && match rs[0]
                           case One(a) => PrintableAtom(a)
                           case Star(a) => PrintableAtom(a)
                           case Opt(body) => Printable(body))
  }

  lemma AtomReadsBack(a: Atom, rest: string)
    requires PrintableAtom(a)
    ensures ParseAtom(ShowAtom(a) + rest) == Got(a, rest)
  {
    hide ParseMembers, PlainBody, Members, ShowMembers;
    var t := ShowAtom(a) + rest;
    match a
    case Lit(c) =>
      assert t[|QuoteMeta(c)|..] == rest;
    case Dot =>
      assert t[1..] == rest;
    case Class(negated, members) =>
      var body :| body != "" && PlainBody(body, true) && members == Members(body) && (negated || body[0] != '^');
      ShowMembersOfBody(body);
      ClassReadsBack(negated, body, rest);
  }

  lemma ClassReadsBack(negated: bool, body: string, rest: string)
    requires body != "" && PlainBody(body, true) && (negated || body[0] != '^')
    ensures ParseAtom("[" + (if negated then "^" else "") + body + "]" + rest)
            == Got(Class(negated, Members(body)), rest)
  {
    hide ParseMembers, PlainBody, Members;
    MembersReadBack(body, true, rest);
    var t := "[" + (if negated then "^" else "") + body + "]" + rest;
    if negated {
      assert t[2..] == body + "]" + rest;
    } else {
      assert t[1] == body[0];
      assert t[1..] == body + "]" + rest;
    }
  }

  // An item never starts with a postfix operator, nor with a closing parenthesis.
  lemma ShowStartsItem(rs: seq<Re>)
    ensures Show(rs) != "" <==> rs != []
    ensures rs != [] ==> Show(rs)[0] != '*' && Show(rs)[0] != '?' && Show(rs)[0] != ')'
    ensures rs != [] && !rs[0].Opt? ==> Show(rs)[0] != '('
  {
  }

  lemma {:induction false} ItemsReadBack(rs: seq<Re>, rest: string, fuel: nat)
    requires Printable(rs) && (rest == "" || rest[0] == ')') && fuel >= Size(rs)
    ensures ParseItems(Show(rs) + rest, fuel) == Got(rs, rest)
    decreases Size(rs)
  {
    hide PrintableAtom, ParseItems, Show, ShowAtom;
    if rs == [] {
      NothingReadsBack(rest, fuel);
    } else {
      var u := Show(rs[1..]) + rest;
      NoPostfix(rs[1..], rest);
      ItemsReadBack(rs[1..], rest, fuel - 1);
      ShowFirst(rs, rest);
      assert rs == [rs[0]] + rs[1..];
      match rs[0]
      case One(a) => SingleReadsBack(a, false, rs[1..], u, rest, fuel);
      case Star(a) => SingleReadsBack(a, true, rs[1..], u, rest, fuel);
      case Opt(body) =>
        ItemsReadBack(body, ")?" + u, fuel - 1);
        OptReadsBack(body, Show(body), rs[1..], u, rest, fuel);
    }
  }

  lemma NothingReadsBack(rest: string, fuel: nat)
    requires rest == "" || rest[0] == ')'
    ensures ParseItems(Show([]) + rest, fuel) == Got([], rest)
  {
    assert Show([]) + rest == rest;
  }

  lemma ShowFirst(rs: seq<Re>, rest: string)
    requires rs != []
    ensures var u := Show(rs[1..]) + rest;
            Show(rs) + rest == match rs[0]
                               case One(a) => ShowAtom(a) + u
                               case Star(a) => ShowAtom(a) + ("*" + u)
                               case Opt(body) => "(?:" + Show(body) + (")?" + u)
  {
  }

  lemma NoPostfix(rs: seq<Re>, rest: string)
    requires rest == "" || rest[0] == ')'
    ensures var u := Show(rs) + rest; u == "" || (u[0] != '*' && u[0] != '?')
  {
    ShowStartsItem(rs);
    if rs != [] {
      assert (Show(rs) + rest)[0] == Show(rs)[0];
    } else {
      assert Show(rs) + rest == rest;
    }
  }

  // A single-rune item in front of text that already parses.
  lemma SingleReadsBack(a: Atom, star: bool, rs: seq<Re>, u: string, rest: string, fuel: nat)
    requires PrintableAtom(a) && fuel > 0
    requires u == "" || (u[0] != '*' && u[0] != '?')
    requires ParseItems(u, fuel - 1) == Got(rs, rest)
    ensures ParseItems(ShowAtom(a) + (if star then "*" + u else u), fuel)
         == Got([if star then Star(a) else One(a)] + rs, rest)
  {
    var after := if star then "*" + u else u;
    var t := ShowAtom(a) + after;
    AtomReadsBack(a, after);
    AtomStart(a);
    assert t[0] == ShowAtom(a)[0];
    hide ShowAtom, PrintableAtom, ParseAtom;
    if star {
      assert after[1..] == u;
    }
  }

  lemma AtomStart(a: Atom)
    ensures ShowAtom(a) != "" && ShowAtom(a)[0] != ')' && ShowAtom(a)[0] != '('
  {
  }

  // An optional group in front of text that already parses.
  lemma OptReadsBack(body: seq<Re>, inner: string, rs: seq<Re>, u: string, rest: string, fuel: nat)
    requires fuel > 0 && ParseItems(u, fuel - 1) == Got(rs, rest)
    requires ParseItems(inner + (")?" + u), fuel - 1) == Got(body, ")?" + u)
    ensures ParseItems("(?:" + inner + (")?" + u), fuel) == Got([Opt(body)] + rs, rest)
  {
    hide ParseAtom;
    GroupParts(inner, u);
  }

  lemma GroupParts(inner: string, u: string)
    ensures var t := "(?:" + inner + (")?" + u);
            t[0] == '(' && "(?:" <= t && t[3..] == inner + (")?" + u)
    ensures ")?" <= ")?" + u && (")?" + u)[2..] == u
  {
  }

  lemma {:induction false} ShowLength(rs: seq<Re>)
    ensures |Show(rs)| >= Size(rs)
    decreases Size(rs)
  {
    if rs != [] {
      ShowLength(rs[1..]);
      if rs[0].Opt? {
        ShowLength(rs[0].body);
      }
    }
  }

  // The anchored text of a printable tree parses to the tree.
  lemma TextReadsBack(rs: seq<Re>)
    requires Printable(rs)
    ensures Parse("^" + Show(rs) + "$") == Some(rs)
  {
    var t := "^" + Show(rs) + "$";
    assert t[1..|t| - 1] == Show(rs) + "";
    ShowLength(rs);
    ItemsReadBack(rs, "", |t|);
  }
}
