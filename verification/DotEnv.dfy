// The .env reader and in-place updater of cmd/opencto/configure.go and env.go.
module DotEnv {
  import opened Text

  // ---- lines -------------------------------------------------------------------

  // strings.Split(s, "\n")
  function SplitLines(s: string): (lines: seq<string>)
    ensures |lines| > 0
    ensures forall i :: 0 <= i < |lines| ==> '\n' !in lines[i]
  {
    if s == "" then [""]
    else
      var rest := SplitLines(s[1..]);
      if s[0] == '\n' then [""] + rest else [[s[0]] + rest[0]] + rest[1..]
  }

  // strings.Join(lines, "\n")
  function JoinLines(lines: seq<string>): string
    requires lines != []
  {
    if |lines| == 1 then lines[0] else lines[0] + "\n" + JoinLines(lines[1..])
  }

  // strings.TrimRight(s, "\n")
  function TrimRightNewlines(s: string): (r: string)
    ensures |r| <= |s| && r == s[..|r|] && forall i :: |r| <= i < |s| ==> s[i] == '\n'
    ensures r != "" ==> r[|r| - 1] != '\n'
  {
    if s != "" && s[|s| - 1] == '\n' then TrimRightNewlines(s[..|s| - 1]) else s
  }

  predicate NewlineFree(lines: seq<string>) {
    forall i :: 0 <= i < |lines| ==> '\n' !in lines[i]
  }

  lemma {:induction false} SplitOne(s: string)
    requires '\n' !in s
    ensures SplitLines(s) == [s]
  {
    if s != "" {
      SplitOne(s[1..]);
      assert s == [s[0]] + s[1..];
    }
  }

  // Joining the lines of a text gives the text.
  lemma {:induction false} JoinSplit(s: string)
    ensures JoinLines(SplitLines(s)) == s
  {
    if s != "" {
      JoinSplit(s[1..]);
      var rest := SplitLines(s[1..]);
      assert s == [s[0]] + s[1..];
      if s[0] == '\n' {
        assert ([""] + rest)[1..] == rest;
      } else {
        assert ([[s[0]] + rest[0]] + rest[1..])[1..] == rest[1..];
        assert |rest| > 1 ==> [s[0]] + rest[0] + "\n" + JoinLines(rest[1..])
                              == [s[0]] + (rest[0] + "\n" + JoinLines(rest[1..]));
      }
    }
  }

  lemma {:induction false} SplitPrepend(line: string, s: string)
    requires '\n' !in line
    ensures SplitLines(line + "\n" + s) == [line] + SplitLines(s)
  {
    if line == "" {
      assert line + "\n" + s == "\n" + s;
      assert ("\n" + s)[1..] == s;
    } else {
      assert (line + "\n" + s)[1..] == line[1..] + "\n" + s;
      SplitPrepend(line[1..], s);
      assert [line[0]] + line[1..] == line;
    }
  }

  lemma {:induction false} SplitJoin(lines: seq<string>)
    requires lines != [] && NewlineFree(lines)
    ensures SplitLines(JoinLines(lines) + "\n") == lines + [""]
  {
    if |lines| == 1 {
      SplitPrepend(lines[0], "");
      assert lines[0] + "\n" + "" == JoinLines(lines) + "\n";
      assert SplitLines("") == [""];
    } else {
      SplitJoin(lines[1..]);
      SplitPrepend(lines[0], JoinLines(lines[1..]) + "\n");
      assert lines[0] + "\n" + (JoinLines(lines[1..]) + "\n") == JoinLines(lines) + "\n";
      assert lines == [lines[0]] + lines[1..];
    }
  }

  lemma {:induction false} SplitAppendNewline(s: string)
    ensures SplitLines(s + "\n") == SplitLines(s) + [""]
  {
    if s == "" {
      assert ("" + "\n")[1..] == "" && "" + "\n" == "\n";
      assert SplitLines("") == [""];
    } else {
      assert (s + "\n")[1..] == s[1..] + "\n";
      SplitAppendNewline(s[1..]);
    }
  }

  // ---- one line ------------------------------------------------------------------

  datatype Assignment = Assignment(name: string, value: string)

  const EXPORT := "export "

  function TrimPrefix(s: string, prefix: string): string {
    if prefix <= s then s[|prefix|..] else s
  }

  // The index of the first '=', or the length.
  function CutIndex(s: string): (n: nat)
    ensures n <= |s| && '=' !in s[..n] && (n < |s| ==> s[n] == '=')
  {
    if s == "" || s[0] == '=' then 0 else 1 + CutIndex(s[1..])
  }

  function Unquoted(value: string): string {
    if |value| >= 2 && (value[0] == '"' || value[0] == '\'') && value[|value| - 1] == value[0]
    then value[1..|value| - 1]
    else value
  }

  function ParseDotEnvLine(raw: string): Option<Assignment> {
    var trimmed := TrimSpace(raw);
    if trimmed == "" || trimmed[0] == '#' then None
    else
      var line := TrimPrefix(trimmed, EXPORT);
      var cut := CutIndex(line);
      if cut == |line| then None
      else
        var name := TrimSpace(line[..cut]);
        if name == "" then None
        else Some(Assignment(name, Unquoted(TrimSpace(line[cut + 1..]))))
  }

  // The value of an assignment: a pair of double or of single quotes around it comes off.
  predicate ValueIs(value: string, found: string) {
    || value == "\"" + found + "\"" || value == "'" + found + "'"
    || (value == found && (|value| < 2 || value[0] !in "\"'" || value[|value| - 1] != value[0]))
  }

  // What is left of a trimmed line without a leading "export ".
  function Exported(t: string): string {
    if "export " <= t then t[7..] else t
  }

  lemma {:induction false} FirstEquals(line: string, k: nat)
    requires k < |line| && line[k] == '=' && '=' !in line[..k]
    ensures CutIndex(line) == k
  {
    if k > 0 {
      assert line[..k] == [line[0]] + line[1..][..k - 1];
      FirstEquals(line[1..], k - 1);
    }
  }

  // A line says nothing when it is blank or a comment, or has no '='.
  lemma LineSaysNothing(raw: string)
    requires var t := TrimSpace(raw); t == "" || t[0] == '#' || '=' !in Exported(t)
    ensures ParseDotEnvLine(raw) == None
  {
    var t := TrimSpace(raw);
    assert '=' !in Exported(t) ==> CutIndex(Exported(t)) == |Exported(t)|;
    hide TrimSpace, Unquoted, CutIndex;
  }

  // Any other line assigns the value after the first '=' to the name before it, if any.
  lemma LineAssigns(raw: string, k: nat)
    requires var t := TrimSpace(raw);
             && t != "" && t[0] != '#'
             && var line := Exported(t); k < |line| && line[k] == '=' && '=' !in line[..k]
    ensures var (line, parsed) := (Exported(TrimSpace(raw)), ParseDotEnvLine(raw));
            if AllSpace(line[..k]) then parsed == None
            else
              parsed.Some? && parsed.value.name == TrimSpace(line[..k])
              && ValueIs(TrimSpace(line[k + 1..]), parsed.value.value)
  {
    var line := Exported(TrimSpace(raw));
    FirstEquals(line, k);
    BlankIsAllSpace(line[..k]);
    UnquotedIs(TrimSpace(line[k + 1..]));
    hide TrimSpace, Unquoted, CutIndex, AllSpace, ValueIs;
  }

  lemma UnquotedIs(value: string)
    ensures ValueIs(value, Unquoted(value))
  {
    if Unquoted(value) != value {
      assert value == [value[0]] + value[1..|value| - 1] + [value[0]];
    }
  }

  // strings.ReplaceAll(s, c, "\\" + c)
  function Escape(s: string, c: char): (r: string)
    ensures |r| >= |s| && (|r| == |s| <==> c !in s)
  {
    if s == "" then ""
    else (if s[0] == c then ['\\', c] else [s[0]]) + Escape(s[1..], c)
  }

  // strings.ContainsAny(value, " \t#'\"\\")
  predicate NeedsQuotes(value: string) {
    exists i :: 0 <= i < |value| && value[i] in " \t#'\"\\"
  }

  function DotEnvValue(value: string): string {
    if value == "" then ""
    else if NeedsQuotes(value) then "\"" + Escape(Escape(value, '\\'), '"') + "\""
    else value
  }

  // The text inside double quotes, with every backslash taken off what it stands before;
  // a bare double quote, and a backslash before anything else, are errors.
  function Unescape(s: string): Option<string> {
    if s == "" then Some("")
    else if s[0] == '"' then None
    else if s[0] != '\\' then Before(s[0], Unescape(s[1..]))
    else if |s| > 1 && (s[1] == '\\' || s[1] == '"') then Before(s[1], Unescape(s[2..]))
    else None
  }

  function Before(c: char, rest: Option<string>): Option<string> {
    if rest.Some? then Some([c] + rest.value) else None
  }

  lemma {:induction false} EscapeConcat(a: string, b: string, c: char)
    ensures Escape(a + b, c) == Escape(a, c) + Escape(b, c)
  {
    if a == "" {
      assert a + b == b;
    } else {
      assert (a + b)[1..] == a[1..] + b;
      EscapeConcat(a[1..], b, c);
    }
  }

  lemma EscapeOne(d: char, c: char)
    ensures Escape([d], c) == if d == c then ['\\', c] else [d]
  {
    assert [d][1..] == "";
  }

  lemma {:induction false} EscapedTwice(s: string)
    ensures Unescape(Escape(Escape(s, '\\'), '"')) == Some(s)
  {
    if s != "" {
      var rest := Escape(Escape(s[1..], '\\'), '"');
      EscapedTwice(s[1..]);
      assert s == [s[0]] + s[1..];
      EscapeConcat([s[0]], s[1..], '\\');
      EscapeConcat(Escape([s[0]], '\\'), Escape(s[1..], '\\'), '"');
      EscapeOne(s[0], '\\');
      EscapeOne(s[0], '"');
      assert ['\\', '\\'] == ['\\'] + ['\\'];
      EscapeConcat(['\\'], ['\\'], '"');
      EscapeOne('\\', '"');
      hide Escape;
      EscapedFirst(s[0], rest);
    }
  }

  lemma EscapedFirst(c: char, rest: string)
    ensures Unescape((if c == '\\' || c == '"' then ['\\', c] else [c]) + rest) == Before(c, Unescape(rest))
  {
    assert (['\\', c] + rest)[2..] == rest && ([c] + rest)[1..] == rest;
  }

  // A value without blanks, tabs, hashes, quotes and backslashes is written as it is, any
  // other in double quotes, with a backslash before exactly its backslashes and quotes.
  lemma WrittenIs(value: string)
    ensures if exists i :: 0 <= i < |value| && value[i] in {' ', '\t', '#', '\'', '"', '\\'} then
              exists inner :: DotEnvValue(value) == "\"" + inner + "\"" && Unescape(inner) == Some(value)
            else DotEnvValue(value) == value
  {
    forall i | 0 <= i < |value|
      ensures value[i] in {' ', '\t', '#', '\'', '"', '\\'} <==> value[i] in " \t#'\"\\"
    {
    }
    EscapedTwice(value);
    hide Escape, Unescape;
    if NeedsQuotes(value) {
      var inner := Escape(Escape(value, '\\'), '"');
      assert DotEnvValue(value) == "\"" + inner + "\"";
    }
  }

  // ---- reading ---------------------------------------------------------------------

  function Parsed(lines: seq<string>): seq<Option<Assignment>> {
    seq(|lines|, i requires 0 <= i < |lines| => ParseDotEnvLine(lines[i]))
  }

  // What a list of assignments says; a later one wins.
  function Overlay(parsed: seq<Option<Assignment>>): map<string, string> {
    if parsed == [] then map[]
    else
      var last := |parsed| - 1;
      match parsed[last]
      case None => Overlay(parsed[..last])
      case Some(a) => Overlay(parsed[..last])[a.name := a.value]
  }

  function ValuesOf(lines: seq<string>): map<string, string> {
    Overlay(Parsed(lines))
  }

  method ReadDotEnvValues(data: string) returns (values: map<string, string>)
    ensures values == ValuesOf(SplitLines(data))
  {
    values := map[];
    var lines := SplitLines(data);
    ghost var all := Parsed(lines);
    for i := 0 to |lines|
      invariant values == Overlay(all[..i])
    {
      assert all[..i + 1][..i] == all[..i];
      var parsed := ParseDotEnvLine(lines[i]);
      if parsed.Some? {
        values := values[parsed.value.name := parsed.value.value];
      }
    }
    assert all[..|lines|] == all;
  }

  // ---- writing ---------------------------------------------------------------------

  function Line(name: string, value: string): string {
    name + "=" + DotEnvValue(value)
  }

  // A line that assigns an updated name is replaced; every other line stays.
  function Rewritten(line: string, updates: map<string, string>): string {
    match ParseDotEnvLine(line)
    case None => line
    case Some(a) => if a.name in updates then Line(a.name, updates[a.name]) else line
  }

  function Rewrite(lines: seq<string>, updates: map<string, string>): seq<string> {
    seq(|lines|, i requires 0 <= i < |lines| => Rewritten(lines[i], updates))
  }

  function Appended(order: seq<string>, updates: map<string, string>): seq<string>
    requires forall i :: 0 <= i < |order| ==> order[i] in updates
  {
    seq(|order|, i requires 0 <= i < |order| => Line(order[i], updates[order[i]]))
  }

  // An order in which map iteration may visit the names.
  predicate Enumerates(order: seq<string>, names: set<string>) {
    && (forall i :: 0 <= i < |order| ==> order[i] in names)
    && (forall n :: n in names ==> n in order)
    && (forall i, j :: 0 <= i < j < |order| ==> order[i] != order[j])
  }

  function LinesOf(data: string): (lines: seq<string>)
    ensures lines != [] && NewlineFree(lines)
  {
    SplitLines(TrimRightNewlines(data))
  }

  ghost predicate IsUpdateOf(out: string, data: string, updates: map<string, string>, order: seq<string>) {
    && Enumerates(order, updates.Keys - ValuesOf(LinesOf(data)).Keys)
    && out == JoinLines(Rewrite(LinesOf(data), updates) + Appended(order, updates)) + "\n"
  }

  method WriteDotEnvValues(data: string, updates: map<string, string>) returns (out: string)
    ensures |updates| == 0 ==> out == data
    ensures |updates| != 0 ==> exists order :: IsUpdateOf(out, data, updates, order)
  {
    if |updates| == 0 {
      return data;
    }
    var original := SplitLines(TrimRightNewlines(data));
    var lines, seen := RewriteAssigned(original, updates);
    ghost var order;
    lines, order := AppendMissing(lines, updates, seen);
    assert updates.Keys - seen == updates.Keys - ValuesOf(original).Keys;
    out := JoinLines(lines) + "\n";
    assert IsUpdateOf(out, data, updates, order);
  }

  // The first loop of the update: assigned names in place, noting the names seen.
  method RewriteAssigned(original: seq<string>, updates: map<string, string>)
    returns (lines: seq<string>, seen: set<string>)
    ensures lines == Rewrite(original, updates)
    ensures seen == ValuesOf(original).Keys * updates.Keys
  {
    hide ParseDotEnvLine, Line, Rewritten;
    lines, seen := original, {};
    ghost var all, goal := Parsed(original), Rewrite(original, updates);
    for i := 0 to |original|
      invariant |lines| == |original|
      invariant forall j :: 0 <= j < i ==> lines[j] == goal[j]
      invariant forall j :: i <= j < |lines| ==> lines[j] == original[j]
      invariant seen == Overlay(all[..i]).Keys * updates.Keys
    {
      OverlaySnoc(all, i);
      var parsed := ParseDotEnvLine(lines[i]);
      RewriteAt(original, updates, i, parsed, all, goal);
      if parsed.Some? && parsed.value.name in updates {
        var name := parsed.value.name;
        lines := lines[i := Line(name, updates[name])];
        seen := seen + {name};
      }
    }
    assert all[..|original|] == all;
    assert lines == goal;
  }

  lemma RewriteAt(original: seq<string>, updates: map<string, string>, i: nat, parsed: Option<Assignment>,
        all: seq<Option<Assignment>>, goal: seq<string>)
    requires i < |original| && parsed == ParseDotEnvLine(original[i])
    requires all == Parsed(original) && goal == Rewrite(original, updates)
    ensures |all| == |goal| == |original| && all[i] == parsed
    ensures goal[i] == if parsed.Some? && parsed.value.name in updates
                       then Line(parsed.value.name, updates[parsed.value.name]) else original[i]
  {
  }

  lemma OverlaySnoc(all: seq<Option<Assignment>>, i: nat)
    requires i < |all|
    ensures Overlay(all[..i + 1]).Keys
         == Overlay(all[..i]).Keys + if all[i].Some? then {all[i].value.name} else {}
  {
    assert all[..i + 1][..i] == all[..i];
  }

  // The second loop of the update: one line for every name not seen, in any order.
  method AppendMissing(start: seq<string>, updates: map<string, string>, seen: set<string>)
    returns (lines: seq<string>, ghost order: seq<string>)
    ensures Enumerates(order, updates.Keys - seen)
    ensures lines == start + Appended(order, updates)
  {
    lines, order := start, [];
    var pending := updates.Keys;
    while pending != {}
      invariant pending <= updates.Keys
      invariant Enumerates(order, updates.Keys - seen - pending)
      invariant lines == start + Appended(order, updates)
      decreases pending
    {
      var name :| name in pending;
      var rest := pending - {name};
      if name !in seen {
        EnumerateOneMore(order, updates.Keys - seen - pending, name);
        assert updates.Keys - seen - rest == updates.Keys - seen - pending + {name};
        AppendedOneMore(order, name, updates);
        lines := lines + [name + "=" + DotEnvValue(updates[name])];
        order := order + [name];
      } else {
        assert updates.Keys - seen - rest == updates.Keys - seen - pending;
      }
      pending := rest;
    }
    assert updates.Keys - seen - {} == updates.Keys - seen;
  }

  lemma AppendedOneMore(order: seq<string>, name: string, updates: map<string, string>)
    requires name in updates && forall i :: 0 <= i < |order| ==> order[i] in updates
    ensures Appended(order + [name], updates) == Appended(order, updates) + [Line(name, updates[name])]
  {
  }

  lemma EnumerateOneMore(order: seq<string>, names: set<string>, name: string)
    requires Enumerates(order, names) && name !in names
    ensures Enumerates(order + [name], names + {name})
  {
    var longer := order + [name];
    forall n | n in names + {name} ensures n in longer {
      if n == name {
        assert longer[|order|] == name;
      }
    }
  }

  // ---- laws ------------------------------------------------------------------------

  // A name that the line reader gives back as it is.
  predicate CleanName(name: string) {
    && name != "" && Trimmed(name) && name[0] != '#' && !("export " <= name)
    && '=' !in name && '\n' !in name
  }

  // The value the reader finds for a written value.
  function ReadBack(value: string): string {
    if value == "" then ""
    else if NeedsQuotes(value) then Escape(Escape(value, '\\'), '"')
    else TrimSpace(value)
  }

  // Escapes are never undone, and an unquoted value is trimmed.
  predicate Survives(value: string) {
    if NeedsQuotes(value) then '\\' !in value && '"' !in value else Trimmed(value)
  }

  lemma {:induction false} EscapeNothing(s: string, c: char)
    requires c !in s
    ensures Escape(s, c) == s
  {
    if s != "" {
      EscapeNothing(s[1..], c);
    }
  }

  // A value reads back as written exactly when it survives.
  lemma ReadBackIffSurvives(value: string)
    ensures ReadBack(value) == value <==> Survives(value)
  {
    if NeedsQuotes(value) {
      var once := Escape(value, '\\');
      if '\\' !in value {
        EscapeNothing(value, '\\');
        if '"' !in value {
          EscapeNothing(value, '"');
        }
      } else {
        assert |Escape(once, '"')| > |value|;
      }
    } else if Trimmed(value) {
      TrimSpaceOfTrimmed(value);
    }
  }

  lemma {:induction false} TrimRightKeepsHead(head: string, s: string)
    requires head != "" && !IsSpace(head[|head| - 1])
    ensures TrimRight(head + s) == head + TrimRight(s)
  {
    if s == "" {
      assert head + s == head;
    } else {
      assert (head + s)[|head + s| - 1] == s[|s| - 1];
      assert (head + s)[..|head + s| - 1] == head + s[..|s| - 1];
      if IsSpace(s[|s| - 1]) {
        TrimRightKeepsHead(head, s[..|s| - 1]);
      }
    }
  }

  lemma TrimSpaceTwice(s: string)
    ensures TrimSpace(TrimRight(s)) == TrimSpace(s)
  {
    TrimRightParts(s);
    var r := TrimRight(s);
    hide TrimRight, TrimSpace, AllSpace;
    var lead, tail := TrimSpaceParts(r);
    TrimAround(lead, TrimSpace(r), tail, s[|r|..]);
    assert s == r + s[|r|..] == lead + TrimSpace(r) + tail + s[|r|..];
  }

  lemma TrimAround(lead: string, t: string, tail: string, more: string)
    requires AllSpace(lead) && AllSpace(tail) && AllSpace(more) && Trimmed(t)
    ensures TrimSpace(lead + t + tail + more) == t
  {
    TrimSpaceUnique(lead, t, tail + more);
    assert lead + t + (tail + more) == lead + t + tail + more;
  }

  lemma {:induction false} CutAfterName(name: string, s: string)
    requires '=' !in name
    ensures CutIndex(name + "=" + s) == |name|
  {
    if name != "" {
      assert (name + "=" + s)[1..] == name[1..] + "=" + s;
      CutAfterName(name[1..], s);
    }
  }

  lemma ParseAssignment(name: string, w: string)
    requires CleanName(name)
    ensures ParseDotEnvLine(name + "=" + w) == Some(Assignment(name, Unquoted(TrimSpace(w))))
  {
    var head := name + "=";
    var raw := head + w;
    assert raw[0] == name[0];
    assert TrimLeft(raw) == raw;
    TrimRightKeepsHead(head, w);
    var line := head + TrimRight(w);
    assert TrimSpace(raw) == line;
    assert line[0] == name[0];
    NoExportPrefix(name, TrimRight(w));
    CutAfterName(name, TrimRight(w));
    assert line[..|name|] == name && line[|name| + 1..] == TrimRight(w);
    TrimSpaceOfTrimmed(name);
    TrimSpaceTwice(w);
  }

  lemma NoExportPrefix(name: string, w: string)
    requires CleanName(name)
    ensures !(EXPORT <= name + "=" + w)
  {
    var line := name + "=" + w;
    if |name| < |EXPORT| {
      assert line[|name|] == '=';
    } else {
      assert line[..|EXPORT|] == name[..|EXPORT|];
    }
  }

  // The line written for a clean name is read as that name with the read-back value.
  lemma ParseWrittenLine(name: string, value: string)
    requires CleanName(name)
    ensures ParseDotEnvLine(Line(name, value)) == Some(Assignment(name, ReadBack(value)))
  {
    ParseAssignment(name, DotEnvValue(value));
    WrittenValueReadsBack(value);
  }

  lemma WrittenValueReadsBack(value: string)
    ensures Unquoted(TrimSpace(DotEnvValue(value))) == ReadBack(value)
  {
    if value == "" {
      TrimSpaceOfTrimmed("");
    } else if NeedsQuotes(value) {
      var escaped := Escape(Escape(value, '\\'), '"');
      QuotesComeOff(escaped);
    } else {
      var lead, tail := TrimSpaceParts(value);
      NoQuoteAtStart(lead, TrimSpace(value), tail);
    }
  }

  lemma QuotesComeOff(s: string)
    ensures Unquoted(TrimSpace("\"" + s + "\"")) == s
  {
    var q := "\"" + s + "\"";
    assert q[0] == '"' && q[|q| - 1] == '"';
    TrimSpaceOfTrimmed(q);
    assert q[1..|q| - 1] == s;
  }

  lemma NoQuoteAtStart(lead: string, t: string, tail: string)
    requires !NeedsQuotes(lead + t + tail)
    ensures Unquoted(t) == t
  {
    if t != "" {
      assert (lead + t + tail)[|lead|] == t[0];
    }
  }

  function AllReadBack(values: map<string, string>): map<string, string> {
    map n | n in values :: ReadBack(values[n])
  }

  predicate CleanNames(updates: map<string, string>) {
    forall n :: n in updates ==> CleanName(n)
  }

  // A rewritten line still assigns the same name, with the value now read back.
  function Redirected(p: Option<Assignment>, values: map<string, string>): Option<Assignment> {
    if p.Some? && p.value.name in values then Some(Assignment(p.value.name, values[p.value.name])) else p
  }

  lemma RewrittenLineParses(line: string, updates: map<string, string>)
    requires CleanNames(updates)
    ensures ParseDotEnvLine(Rewritten(line, updates)) == Redirected(ParseDotEnvLine(line), AllReadBack(updates))
  {
    var p := ParseDotEnvLine(line);
    if p.Some? && p.value.name in updates {
      ParseWrittenLine(p.value.name, updates[p.value.name]);
    }
  }

  lemma ParsedRewrite(lines: seq<string>, updates: map<string, string>)
    requires CleanNames(updates)
    ensures forall i :: 0 <= i < |lines| ==>
              Parsed(Rewrite(lines, updates))[i] == Redirected(Parsed(lines)[i], AllReadBack(updates))
  {
    forall i | 0 <= i < |lines|
      ensures Parsed(Rewrite(lines, updates))[i] == Redirected(Parsed(lines)[i], AllReadBack(updates))
    {
      RewrittenLineParses(lines[i], updates);
    }
  }

  lemma ParsedAppended(order: seq<string>, updates: map<string, string>)
    requires CleanNames(updates) && forall i :: 0 <= i < |order| ==> order[i] in updates
    ensures forall i :: 0 <= i < |order| ==>
              Parsed(Appended(order, updates))[i] == Some(Assignment(order[i], AllReadBack(updates)[order[i]]))
  {
    forall i | 0 <= i < |order|
      ensures Parsed(Appended(order, updates))[i] == Some(Assignment(order[i], AllReadBack(updates)[order[i]]))
    {
      ParseWrittenLine(order[i], updates[order[i]]);
    }
  }

  lemma {:induction false} OverlayConcat(a: seq<Option<Assignment>>, b: seq<Option<Assignment>>)
    ensures Overlay(a + b) == Overlay(a) + Overlay(b)
  {
    if b == [] {
      assert a + b == a;
    } else {
      assert (a + b)[..|a + b| - 1] == a + b[..|b| - 1];
      OverlayConcat(a, b[..|b| - 1]);
    }
  }

  lemma {:induction false} OverlayRedirected(p: seq<Option<Assignment>>, q: seq<Option<Assignment>>,
        values: map<string, string>)
    requires |p| == |q| && forall i :: 0 <= i < |p| ==> q[i] == Redirected(p[i], values)
    ensures Overlay(q).Keys == Overlay(p).Keys
    ensures forall n :: n in Overlay(p) ==> Overlay(q)[n] == if n in values then values[n] else Overlay(p)[n]
  {
    if p != [] {
      OverlayRedirected(p[..|p| - 1], q[..|q| - 1], values);
    }
  }

  lemma {:induction false} OverlayAssigned(order: seq<string>, q: seq<Option<Assignment>>, values: map<string, string>)
    requires |q| == |order|
    requires forall i :: 0 <= i < |order| ==> order[i] in values && q[i] == Some(Assignment(order[i], values[order[i]]))
    ensures forall n :: n in Overlay(q) <==> n in order
    ensures forall n :: n in order ==> Overlay(q)[n] == values[n]
  {
    if order != [] {
      var last := |order| - 1;
      OverlayAssigned(order[..last], q[..last], values);
      assert order == order[..last] + [order[last]];
    }
  }

  lemma {:induction false} TrailingNewlinesSayNothing(data: string)
    ensures ValuesOf(LinesOf(data)) == ValuesOf(SplitLines(data))
  {
    hide ValuesOf, SplitLines;
    if data != "" && data[|data| - 1] == '\n' {
      var init := data[..|data| - 1];
      TrailingNewlinesSayNothing(init);
      assert data == init + "\n";
      SplitAppendNewline(init);
      BlankLineSaysNothing(SplitLines(init));
    }
  }

  lemma BlankLineSaysNothing(lines: seq<string>)
    ensures ValuesOf(lines + [""]) == ValuesOf(lines)
  {
    assert Parsed(lines + [""])[..|lines|] == Parsed(lines);
    TrimSpaceOfTrimmed("");
  }

  predicate OneLineValues(updates: map<string, string>) {
    forall n :: n in updates ==> '\n' !in updates[n]
  }

  lemma {:induction false} EscapeKeepsNewlineFree(s: string, c: char)
    requires '\n' !in s && c != '\n'
    ensures '\n' !in Escape(s, c)
  {
    if s != "" {
      EscapeKeepsNewlineFree(s[1..], c);
    }
  }

  lemma WrittenLineNewlineFree(name: string, value: string)
    requires '\n' !in name && '\n' !in value
    ensures '\n' !in Line(name, value)
  {
    EscapeKeepsNewlineFree(value, '\\');
    EscapeKeepsNewlineFree(Escape(value, '\\'), '"');
  }

  lemma UpdatedLinesNewlineFree(data: string, updates: map<string, string>, order: seq<string>)
    requires CleanNames(updates) && OneLineValues(updates)
    requires forall i :: 0 <= i < |order| ==> order[i] in updates
    ensures NewlineFree(Rewrite(LinesOf(data), updates) + Appended(order, updates))
  {
    forall n | n in updates ensures '\n' !in Line(n, updates[n]) {
      WrittenLineNewlineFree(n, updates[n]);
    }
  }

  // What a reader finds after an update of one-line values, whatever the order in which
  // new names were appended and however often a name was already assigned.
  lemma ReadAfterWrite(data: string, updates: map<string, string>, order: seq<string>, out: string)
    requires IsUpdateOf(out, data, updates, order)
    requires CleanNames(updates) && OneLineValues(updates)
    ensures ValuesOf(SplitLines(out)) == ValuesOf(SplitLines(data)) + AllReadBack(updates)
  {
    UpdatedLinesNewlineFree(data, updates, order);
    SplitJoin(Rewrite(LinesOf(data), updates) + Appended(order, updates));
    BlankLineSaysNothing(Rewrite(LinesOf(data), updates) + Appended(order, updates));
    UpdatedLinesSay(LinesOf(data), updates, order);
    TrailingNewlinesSayNothing(data);
  }

  lemma UpdatedLinesSay(lines: seq<string>, updates: map<string, string>, order: seq<string>)
    requires CleanNames(updates) && Enumerates(order, updates.Keys - ValuesOf(lines).Keys)
    ensures ValuesOf(Rewrite(lines, updates) + Appended(order, updates)) == ValuesOf(lines) + AllReadBack(updates)
  {
    hide ParseDotEnvLine, Rewritten, Line, ReadBack, Overlay;
    var changed := Parsed(Rewrite(lines, updates));
    var added := Parsed(Appended(order, updates));
    var values := AllReadBack(updates);
    assert Parsed(Rewrite(lines, updates) + Appended(order, updates)) == changed + added;
    OverlayConcat(changed, added);
    ParsedRewrite(lines, updates);
    OverlayRedirected(Parsed(lines), changed, values);
    ParsedAppended(order, updates);
    OverlayAssigned(order, added, values);
    MergeReadBack(ValuesOf(lines), values, Overlay(changed), Overlay(added), order);
  }

  lemma MergeReadBack(before: map<string, string>, values: map<string, string>, changed: map<string, string>,
        added: map<string, string>, order: seq<string>)
    requires changed.Keys == before.Keys
    requires forall n :: n in before ==> changed[n] == if n in values then values[n] else before[n]
    requires Enumerates(order, values.Keys - before.Keys)
    requires forall n :: n in added <==> n in order
    requires forall n :: n in order ==> added[n] == values[n]
    ensures changed + added == before + values
  {
    assert forall n :: n in added <==> n in values.Keys - before.Keys;
  }

  lemma {:induction false} ReadValuesAreOneLine(lines: seq<string>)
    requires NewlineFree(lines)
    ensures OneLineValues(ValuesOf(lines))
  {
    if lines != [] {
      var last := |lines| - 1;
      ReadValuesAreOneLine(lines[..last]);
      assert Parsed(lines)[..last] == Parsed(lines[..last]);
      ParsedValueIsPartOfLine(lines[last]);
    }
  }

  lemma ParsedValueIsPartOfLine(line: string)
    requires '\n' !in line
    ensures ParseDotEnvLine(line).Some? ==> '\n' !in ParseDotEnvLine(line).value.value
  {
    var parsed := ParseDotEnvLine(line);
    if parsed.Some? {
      var trimmed := TrimSpace(line);
      TrimKeepsNewlineFree(line);
      var rest := TrimPrefix(trimmed, EXPORT);
      TrimKeepsNewlineFree(rest[CutIndex(rest) + 1..]);
    }
  }

  lemma TrimKeepsNewlineFree(s: string)
    requires '\n' !in s
    ensures '\n' !in TrimSpace(s)
  {
    var lead, tail := TrimSpaceParts(s);
    var t := TrimSpace(s);
    forall i | 0 <= i < |t| ensures t[i] != '\n' {
      assert t[i] == s[|lead| + i];
    }
  }

  // The round trip: reading the written file gives the old values overridden by the
  // updates exactly when every updated value is one line long and survives.
  lemma WriteThenRead(data: string, updates: map<string, string>, order: seq<string>, out: string)
    requires IsUpdateOf(out, data, updates, order) && CleanNames(updates)
    ensures ValuesOf(SplitLines(out)) == ValuesOf(SplitLines(data)) + updates
       <==> forall n :: n in updates ==> '\n' !in updates[n] && Survives(updates[n])
  {
    var before, after := ValuesOf(SplitLines(data)), ValuesOf(SplitLines(out));
    if !OneLineValues(updates) {
      var n :| n in updates && '\n' in updates[n];
      ReadValuesAreOneLine(SplitLines(out));
      assert (before + updates)[n] == updates[n];
    } else {
      ReadAfterWrite(data, updates, order, out);
      forall n | n in updates ensures ReadBack(updates[n]) == updates[n] <==> Survives(updates[n]) {
        ReadBackIffSurvives(updates[n]);
      }
      if forall n :: n in updates ==> Survives(updates[n]) {
        assert AllReadBack(updates) == updates;
      } else {
        var n :| n in updates && !Survives(updates[n]);
        assert (before + updates)[n] == updates[n] && after[n] == ReadBack(updates[n]);
      }
    }
  }

  // Line by line: a line keeps its index, verbatim unless it assigns an updated name, and
  // nothing but one line per new name follows.
  lemma UpdateKeepsOtherLines(data: string, updates: map<string, string>, order: seq<string>, out: string)
    requires IsUpdateOf(out, data, updates, order) && CleanNames(updates) && OneLineValues(updates)
    ensures var was, now := LinesOf(data), SplitLines(out);
            && |now| == |was| + |order| + 1 && now[|now| - 1] == ""
            && (forall i :: 0 <= i < |was| ==>
                  var a := ParseDotEnvLine(was[i]);
                  now[i] == if a.Some? && a.value.name in updates
                             then Line(a.value.name, updates[a.value.name]) else was[i])
            && (forall i :: 0 <= i < |order| ==> now[|was| + i] == Line(order[i], updates[order[i]]))
  {
    hide ParseDotEnvLine, Line, SplitLines, JoinLines, LinesOf, CleanName;
    UpdatedLinesNewlineFree(data, updates, order);
    SplitJoin(Rewrite(LinesOf(data), updates) + Appended(order, updates));
  }
}
