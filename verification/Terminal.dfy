// The terminal-escape stripper of internal/textclean/terminal.go.
//
// The code looks ahead with index-skipping helpers. Its reference here is a
// one-rune-at-a-time machine with six modes; the loops are proved to compute what the
// machine emits, and every law is proved about the machine.
module Terminal {
  import opened Text

  const ESC := '\U{1B}'
  const BEL := '\U{07}'
  const CSI := '\U{9B}'

  datatype Mode = Ground | Escape | Intermediate | Control | Str | StrEscape

  predicate IsControl(c: char) {
    c != '\n' && c != '\t' && (c < ' ' || c == '\U{7F}' || '\U{80}' <= c <= '\U{9F}')
  }

  predicate OpensString(c: char) {
    c == ']' || c == 'P' || c == '^' || c == '_' || c == 'X'
  }

  function GroundNext(c: char): Mode {
    if c == ESC then Escape else if c == CSI then Control else Ground
  }

  function IntermediateNext(c: char): Mode {
    if ' ' <= c <= '/' then Intermediate
    else if '0' <= c <= '~' then Ground
    else GroundNext(c)
  }

  function StringNext(c: char): Mode {
    if c == BEL then Ground else if c == ESC then StrEscape else Str
  }

  function Next(m: Mode, c: char): Mode {
    match m
    case Ground => GroundNext(c)
    case Escape => if c == '[' then Control else if OpensString(c) then Str else IntermediateNext(c)
    case Intermediate => IntermediateNext(c)
    case Control => if '@' <= c <= '~' then Ground else Control
    case Str => StringNext(c)
    case StrEscape => if c == '\\' then Ground else StringNext(c)
  }

  // A rune is kept in ground mode, and also when it breaks off an escape sequence
  // that cannot contain it.
  predicate Keeps(m: Mode, c: char) {
    && !IsControl(c)
    && (m.Ground? || ((m.Escape? || m.Intermediate?) && !(' ' <= c <= '~')))
  }

  function Emit(m: Mode, s: string): string
    decreases |s|
  {
    if s == "" then ""
    else (if Keeps(m, s[0]) then [s[0]] else "") + Emit(Next(m, s[0]), s[1..])
  }

  lemma EmitStep(m: Mode, s: string, i: nat)
    requires i < |s|
    ensures Emit(m, s[i..]) == (if Keeps(m, s[i]) then [s[i]] else "") + Emit(Next(m, s[i]), s[i + 1..])
  {
    assert s[i..][1..] == s[i + 1..];
  }

  function Final(m: Mode, s: string): Mode
    decreases |s|
  {
    if s == "" then m else Final(Next(m, s[0]), s[1..])
  }

  // strings.ReplaceAll(text, "\r\n", "\n")
  function ReplaceCRLF(s: string): string {
    if |s| < 2 then s
    else if s[0] == '\r' && s[1] == '\n' then "\n" + ReplaceCRLF(s[2..])
    else [s[0]] + ReplaceCRLF(s[1..])
  }

  // strings.ReplaceAll(text, "\r", "\n")
  function ReplaceCR(s: string): string {
    if s == "" then "" else [if s[0] == '\r' then '\n' else s[0]] + ReplaceCR(s[1..])
  }

  function Normalized(s: string): string {
    ReplaceCR(ReplaceCRLF(s))
  }

  // What terminal cleaning computes.
  function Clean(s: string): string {
    Emit(Ground, Normalized(s))
  }

  // ---- the code --------------------------------------------------------------

  method TerminalOutput(text: string) returns (out: string)
    ensures out == Clean(text)
  {
    if text == "" {
      return "";
    }
    var runes := ReplaceCR(ReplaceCRLF(text));
    out := "";
    var index := 0;
    while index < |runes|
      invariant 0 <= index <= |runes|
      invariant out + Emit(Ground, runes[index..]) == Emit(Ground, runes)
    {
      var current := runes[index];
      EmitStep(Ground, runes, index);
      if current == ESC {
        index := SkipEscapeSequence(runes, index + 1);
      } else if current == CSI {
        index := SkipCSISequence(runes, index + 1);
      } else if IsControl(current) {
        index := index + 1;
      } else {
        AppendAssociates(out, [current], Emit(Ground, runes[index + 1..]));
        out := out + [current];
        index := index + 1;
      }
    }
    assert runes[index..] == "";
  }

  lemma AppendAssociates(a: string, b: string, c: string)
    ensures a + (b + c) == (a + b) + c
  {
  }

  // Each helper stops where the machine is back in ground mode with nothing emitted.
  method SkipEscapeSequence(runes: string, start: nat) returns (index: nat)
    requires start <= |runes|
    ensures start <= index <= |runes|
    ensures Emit(Escape, runes[start..]) == Emit(Ground, runes[index..])
  {
    index := start;
    if index >= |runes| {
      return;
    }
    assert runes[index..][1..] == runes[index + 1..];
    if runes[index] == '[' {
      index := SkipCSISequence(runes, index + 1);
    } else if OpensString(runes[index]) {
      index := SkipStringSequence(runes, index + 1);
    } else {
      assert Emit(Escape, runes[start..]) == Emit(Intermediate, runes[start..]);
      while index < |runes| && ' ' <= runes[index] <= '/'
        invariant start <= index <= |runes|
        invariant Emit(Intermediate, runes[start..]) == Emit(Intermediate, runes[index..])
      {
        assert runes[index..][1..] == runes[index + 1..];
        index := index + 1;
      }
      if index < |runes| {
        assert runes[index..][1..] == runes[index + 1..];
        if '0' <= runes[index] <= '~' {
          index := index + 1;
        }
      }
    }
  }

  method SkipCSISequence(runes: string, start: nat) returns (index: nat)
    requires start <= |runes|
    ensures start <= index <= |runes|
    ensures Emit(Control, runes[start..]) == Emit(Ground, runes[index..])
  {
    index := start;
    while index < |runes|
      invariant start <= index <= |runes|
      invariant Emit(Control, runes[start..]) == Emit(Control, runes[index..])
    {
      assert runes[index..][1..] == runes[index + 1..];
      if '@' <= runes[index] <= '~' {
        return index + 1;
      }
      index := index + 1;
    }
  }

  method SkipStringSequence(runes: string, start: nat) returns (index: nat)
    requires start <= |runes|
    ensures start <= index <= |runes|
    ensures Emit(Str, runes[start..]) == Emit(Ground, runes[index..])
  {
    index := start;
    while index < |runes|
      invariant start <= index <= |runes|
      invariant Emit(Str, runes[start..]) == Emit(Str, runes[index..])
    {
      assert runes[index..][1..] == runes[index + 1..];
      if runes[index] == BEL {
        return index + 1;
      }
      if runes[index] == ESC && index + 1 < |runes| && runes[index + 1] == '\\' {
        assert runes[index + 1..][1..] == runes[index + 2..];
        return index + 2;
      }
      index := index + 1;
    }
  }

  // ---- the output is clean -----------------------------------------------------

  // Newlines, tabs and what is neither a C0 nor a C1 control nor DEL.
  predicate Shows(c: char) {
    c == '\n' || c == '\t' || ' ' <= c <= '~' || c > '\U{9F}'
  }

  predicate NoControls(s: string) {
    forall i :: 0 <= i < |s| ==> Shows(s[i])
  }

  function Shown(s: string): string {
    if s == "" then "" else (if Shows(s[0]) then [s[0]] else "") + Shown(s[1..])
  }

  predicate Subsequence(a: string, b: string) {
    if a == "" then true
    else if b == "" then false
    else if a[0] == b[0] then Subsequence(a[1..], b[1..])
    else Subsequence(a, b[1..])
  }

  lemma {:induction false} EmitIsCleanSubsequence(m: Mode, s: string)
    ensures NoControls(Emit(m, s))
    ensures Subsequence(Emit(m, s), s)
    decreases |s|
  {
    if s != "" {
      EmitIsCleanSubsequence(Next(m, s[0]), s[1..]);
      var tail := Emit(Next(m, s[0]), s[1..]);
      if Keeps(m, s[0]) {
        assert Emit(m, s)[1..] == tail;
      } else {
        assert Emit(m, s) == tail;
        SubsequenceSkip(tail, s);
      }
    }
  }

  // Skipping a rune never hurts, also when it equals the next one wanted.
  lemma {:induction false} SubsequenceSkip(a: string, b: string)
    requires b != "" && Subsequence(a, b[1..])
    ensures Subsequence(a, b)
    decreases |b|, 0
  {
    if a != "" && a[0] == b[0] {
      SubsequenceDrop(a, b[1..]);
    }
  }

  lemma {:induction false} SubsequenceDrop(a: string, b: string)
    requires a != "" && Subsequence(a, b)
    ensures Subsequence(a[1..], b)
    decreases |b|, 1
  {
    if a[0] == b[0] {
      SubsequenceSkip(a[1..], b);
    } else {
      SubsequenceDrop(a, b[1..]);
      SubsequenceSkip(a[1..], b);
    }
  }

  // Every rune of the result is newline, tab or printable, and comes from the
  // CR-normalised input in order.
  lemma CleanIsProjection(s: string)
    ensures NoControls(Clean(s)) && Subsequence(Clean(s), Normalized(s))
  {
    EmitIsCleanSubsequence(Ground, Normalized(s));
  }

  lemma {:induction false} CleanTextStays(s: string)
    requires NoControls(s)
    ensures Emit(Ground, s) == s && ReplaceCRLF(s) == s && ReplaceCR(s) == s
  {
    if s != "" {
      CleanTextStays(s[1..]);
      assert !IsControl(s[0]);
      assert s == [s[0]] + s[1..];
    }
  }

  lemma CleanIdempotent(s: string)
    ensures Clean(Clean(s)) == Clean(s)
  {
    CleanIsProjection(s);
    CleanTextStays(Clean(s));
  }

  // ---- concatenation -------------------------------------------------------------

  lemma {:induction false} EmitConcat(m: Mode, a: string, b: string)
    ensures Emit(m, a + b) == Emit(m, a) + Emit(Final(m, a), b)
    ensures Final(m, a + b) == Final(Final(m, a), b)
    decreases |a|
  {
    hide Next, Keeps;
    if a == "" {
      assert a + b == b;
    } else {
      assert (a + b)[1..] == a[1..] + b;
      EmitConcat(Next(m, a[0]), a[1..], b);
    }
  }

  predicate SplitsCRLF(a: string, b: string) {
    a != "" && a[|a| - 1] == '\r' && b != "" && b[0] == '\n'
  }

  lemma {:induction false} ReplaceCRLFConcat(a: string, b: string)
    requires !SplitsCRLF(a, b)
    ensures ReplaceCRLF(a + b) == ReplaceCRLF(a) + ReplaceCRLF(b)
    decreases |a|
  {
    if a == "" {
      assert a + b == b;
    } else if |a| == 1 {
      assert (a + b)[1..] == b;
      if |b| > 0 && a[0] == '\r' && b[0] == '\n' {
        assert false;
      }
      assert ReplaceCRLF(a + b) == a + ReplaceCRLF(b);
    } else if a[0] == '\r' && a[1] == '\n' {
      assert (a + b)[2..] == a[2..] + b;
      ReplaceCRLFConcat(a[2..], b);
      assert ReplaceCRLF(a + b) == "\n" + (ReplaceCRLF(a[2..]) + ReplaceCRLF(b));
    } else {
      assert (a + b)[1..] == a[1..] + b;
      ReplaceCRLFConcat(a[1..], b);
      assert ReplaceCRLF(a + b) == [a[0]] + (ReplaceCRLF(a[1..]) + ReplaceCRLF(b));
    }
  }

  lemma {:induction false} ReplaceCRConcat(a: string, b: string)
    ensures ReplaceCR(a + b) == ReplaceCR(a) + ReplaceCR(b)
  {
    if a == "" {
      assert a + b == b;
    } else {
      assert (a + b)[1..] == a[1..] + b;
      ReplaceCRConcat(a[1..], b);
    }
  }

  // A text that leaves the machine in ground mode may be cleaned apart from what follows,
  // as long as the cut does not fall inside CR LF.
  lemma CleanConcat(a: string, b: string)
    requires Final(Ground, Normalized(a)) == Ground && !SplitsCRLF(a, b)
    ensures Clean(a + b) == Clean(a) + Clean(b)
  {
    ReplaceCRLFConcat(a, b);
    ReplaceCRConcat(ReplaceCRLF(a), ReplaceCRLF(b));
    EmitConcat(Ground, Normalized(a), Normalized(b));
  }

  predicate Closed(a: string) {
    Final(Ground, Normalized(a)) == Ground && (a == "" || a[|a| - 1] != '\r')
  }

  // Exactly the closed texts can be cleaned apart from whatever follows them.
  lemma CleanDistributesIffClosed(a: string)
    ensures (forall b :: Clean(a + b) == Clean(a) + Clean(b)) <==> Closed(a)
  {
    if Closed(a) {
      forall b ensures Clean(a + b) == Clean(a) + Clean(b) {
        CleanConcat(a, b);
      }
    } else if Final(Ground, Normalized(a)) != Ground {
      OpenTextSwallows(a);
    } else {
      SplitNewlineMerges(a);
    }
  }

  lemma OpenTextSwallows(a: string)
    requires Final(Ground, Normalized(a)) != Ground
    ensures Clean(a + "a") != Clean(a) + Clean("a")
  {
    ReplaceCRLFConcat(a, "a");
    ReplaceCRConcat(ReplaceCRLF(a), "a");
    assert ReplaceCR("a") == "a";
    EmitConcat(Ground, Normalized(a), "a");
    var m := Final(Ground, Normalized(a));
    assert "a"[1..] == "";
    assert Emit(m, "a") == "" && Emit(Ground, "a") == "a";
    assert Clean("a") == "a";
  }

  lemma SplitNewlineMerges(a: string)
    requires Final(Ground, Normalized(a)) == Ground && a != "" && a[|a| - 1] == '\r'
    ensures Clean(a + "\n") != Clean(a) + Clean("\n")
  {
    var init := a[..|a| - 1];
    assert a == init + "\r" && a + "\n" == init + "\r\n";
    ReplaceCRLFConcat(init, "\r");
    ReplaceCRLFConcat(init, "\r\n");
    assert "\r\n"[2..] == "";
    assert ReplaceCRLF("\r\n") == "\n" + ReplaceCRLF("");
    ReplaceCRConcat(ReplaceCRLF(init), "\r");
    ReplaceCRConcat(ReplaceCRLF(init), "\n");
    assert ReplaceCR("\r") == "\n" == ReplaceCR("\n");
    assert Normalized(a + "\n") == Normalized(a);
    assert "\n"[1..] == "";
    assert Clean("\n") == "\n";
  }

  predicate NoIntroducers(s: string) {
    '\U{1B}' !in s && '\U{9B}' !in s
  }

  // Without an introducer nothing but control runes is lost.
  lemma {:induction false} PlainTextIsShown(s: string)
    requires NoIntroducers(s)
    ensures Clean(s) == Shown(Normalized(s))
  {
    NormalizedKeepsPlain(s);
    PlainIsShown(Normalized(s));
  }

  lemma {:induction false} PlainIsShown(s: string)
    requires NoIntroducers(s)
    ensures Emit(Ground, s) == Shown(s)
  {
    if s != "" {
      assert s[0] in s && NoIntroducers(s[1..]);
      PlainIsShown(s[1..]);
      assert Next(Ground, s[0]) == Ground && (Keeps(Ground, s[0]) <==> Shows(s[0]));
      hide Next, Keeps, Shows;
    }
  }

  // Every CR LF and every CR alone becomes one newline, and nothing else changes.
  lemma LineEndingsAre(a: string, b: string)
    requires '\r' !in a
    ensures Normalized(a) == a
    ensures Normalized(a + "\r\n" + b) == a + "\n" + Normalized(b)
    ensures b == "" || b[0] != '\n' ==> Normalized(a + "\r" + b) == a + "\n" + Normalized(b)
  {
    NormalizedWithoutCR(a);
    NormalizedConcat(a, "\r\n" + b);
    NormalizedConcat("\r\n", b);
    BothEndings();
    hide Normalized;
    if b == "" || b[0] != '\n' {
      NormalizedConcat(a, "\r" + b);
      NormalizedConcat("\r", b);
      assert a + ("\r" + b) == a + "\r" + b;
    }
    assert a + ("\r\n" + b) == a + "\r\n" + b;
  }

  lemma BothEndings()
    ensures Normalized("\r\n") == "\n" == Normalized("\r")
  {
    assert "\r\n"[2..] == "" && "\n"[1..] == "";
  }

  lemma NormalizedConcat(a: string, b: string)
    requires !SplitsCRLF(a, b)
    ensures Normalized(a + b) == Normalized(a) + Normalized(b)
  {
    ReplaceCRLFConcat(a, b);
    ReplaceCRConcat(ReplaceCRLF(a), ReplaceCRLF(b));
  }

  lemma {:induction false} PlainTextIsClosed(a: string)
    requires NoIntroducers(a) && (a == "" || a[|a| - 1] != '\r')
    ensures Closed(a)
  {
    NormalizedKeepsPlain(a);
    PlainStaysGround(Normalized(a));
  }

  lemma {:induction false} NormalizedKeepsPlain(s: string)
    requires NoIntroducers(s)
    ensures NoIntroducers(ReplaceCRLF(s)) && NoIntroducers(Normalized(s))
  {
    CRLFKeepsPlain(s);
    CRKeepsPlain(ReplaceCRLF(s));
  }

  lemma {:induction false} CRLFKeepsPlain(s: string)
    requires NoIntroducers(s)
    ensures NoIntroducers(ReplaceCRLF(s))
  {
    if |s| >= 2 {
      CRLFKeepsPlain(s[2..]);
      CRLFKeepsPlain(s[1..]);
    }
  }

  lemma {:induction false} CRKeepsPlain(s: string)
    requires NoIntroducers(s)
    ensures NoIntroducers(ReplaceCR(s))
  {
    if s != "" {
      CRKeepsPlain(s[1..]);
    }
  }

  lemma {:induction false} PlainStaysGround(s: string)
    requires NoIntroducers(s)
    ensures Final(Ground, s) == Ground
  {
    if s != "" {
      assert s[0] != ESC && s[0] != CSI;
      PlainStaysGround(s[1..]);
    }
  }

  // ---- ECMA-48 ---------------------------------------------------------------------

  // Section 5.4 of ECMA-48: parameter bytes, then intermediate bytes, then a final byte.
  ghost predicate IsControlSequence(s: string) {
    exists p: nat, q: nat, f: nat ::
      && IsControlSequenceAt(s, p, q, f)
  }

  ghost predicate IsControlSequenceAt(s: string, p: nat, q: nat, f: nat) {
    && p <= q <= f && f + 1 == |s|
    && ((p == 1 && s[0] == '\U{9B}') || (p == 2 && s[0] == '\U{1B}' && s[1] == '['))
    && (forall i :: p <= i < q ==> '0' <= s[i] <= '?')
    && (forall i :: q <= i < f ==> ' ' <= s[i] <= '/')
    && '@' <= s[f] <= '~'
  }

  // A control string of section 5.6: opener, payload free of BEL and ESC, then BEL or ST.
  ghost predicate IsControlString(s: string) {
    && |s| >= 3 && s[0] == '\U{1B}' && s[1] in "]P^_X"
    && (exists e: nat :: IsControlStringAt(s, e))
  }

  ghost predicate IsControlStringAt(s: string, e: nat) {
    && 2 <= e <= |s|
    && (forall i :: 2 <= i < e ==> s[i] != '\U{07}' && s[i] != '\U{1B}')
    && (s[e..] == "\U{07}" || s[e..] == "\U{1B}\\")
  }

  // A short escape sequence, clause 13 of ECMA-35: intermediate bytes, then a final byte
  // that opens neither a control sequence nor a control string.
  ghost predicate IsShortSequence(s: string) {
    && |s| >= 2 && s[0] == '\U{1B}' && '0' <= s[|s| - 1] <= '~'
    && (forall i :: 1 <= i < |s| - 1 ==> ' ' <= s[i] <= '/')
    && (|s| == 2 ==> s[1] !in "[]P^_X")
  }

  lemma {:induction false} ShortBodyRuns(s: string)
    requires s != "" && '0' <= s[|s| - 1] <= '~'
    requires forall i :: 0 <= i < |s| - 1 ==> ' ' <= s[i] <= '/'
    ensures Emit(Intermediate, s) == "" && Final(Intermediate, s) == Ground
  {
    if |s| == 1 {
      assert s[1..] == "";
    } else {
      ShortBodyRuns(s[1..]);
    }
  }

  lemma {:induction false} ControlBodyRuns(s: string)
    requires s != "" && '@' <= s[|s| - 1] <= '~'
    requires forall i :: 0 <= i < |s| - 1 ==> ' ' <= s[i] <= '?'
    ensures Emit(Control, s) == "" && Final(Control, s) == Ground
  {
    if |s| == 1 {
      assert s[1..] == "";
    } else {
      ControlBodyRuns(s[1..]);
    }
  }

  lemma OneRune(m: Mode, c: char)
    ensures Emit(m, [c]) == if Keeps(m, c) then [c] else ""
    ensures Final(m, [c]) == Next(m, c)
  {
    assert [c][1..] == "";
  }

  lemma {:induction false} StringBodyRuns(s: string, e: nat)
    requires e <= |s| && (forall i :: 0 <= i < e ==> s[i] != BEL && s[i] != ESC)
    requires s[e..] == [BEL] || s[e..] == [ESC, '\\']
    ensures Emit(Str, s) == "" && Final(Str, s) == Ground
  {
    if e == 0 {
      assert s == s[e..];
      OneRune(StrEscape, '\\');
      OneRune(Str, BEL);
      if s == [ESC, '\\'] {
        assert s[1..] == ['\\'];
      }
    } else {
      assert s[e..] == s[1..][e - 1..];
      StringBodyRuns(s[1..], e - 1);
    }
  }

  lemma ControlSequenceVanishes(s: string, p: nat, q: nat, f: nat)
    requires IsControlSequenceAt(s, p, q, f)
    ensures Emit(Ground, s) == "" && Final(Ground, s) == Ground
  {
    ControlBodyRuns(s[p..]);
    if p == 2 {
      assert s[1..][1..] == s[2..];
    }
  }

  lemma ControlStringVanishes(s: string, e: nat)
    requires IsControlString(s) && IsControlStringAt(s, e)
    ensures Emit(Ground, s) == "" && Final(Ground, s) == Ground
  {
    assert s[1..][1..] == s[2..] && s[2..][e - 2..] == s[e..];
    StringBodyRuns(s[2..], e - 2);
  }

  lemma ShortSequenceVanishes(s: string)
    requires IsShortSequence(s)
    ensures Emit(Ground, s) == "" && Final(Ground, s) == Ground
  {
    var t := s[1..];
    ShortBodyRuns(t);
    assert Next(Escape, t[0]) == Next(Intermediate, t[0]) && !Keeps(Escape, t[0]) && !Keeps(Intermediate, t[0]);
    assert Emit(Escape, t) == Emit(Intermediate, t) && Final(Escape, t) == Final(Intermediate, t);
    assert Next(Ground, s[0]) == Escape && !Keeps(Ground, s[0]);
    hide Next, Keeps;
  }

  lemma SequencesVanish(s: string)
    requires IsControlSequence(s) || IsControlString(s) || IsShortSequence(s)
    ensures Emit(Ground, s) == "" && Final(Ground, s) == Ground
  {
    hide Emit, Final, IsControlSequenceAt, IsControlStringAt;
    if IsShortSequence(s) {
      ShortSequenceVanishes(s);
    } else if IsControlSequence(s) {
      var p: nat, q: nat, f: nat :| IsControlSequenceAt(s, p, q, f);
      ControlSequenceVanishes(s, p, q, f);
    } else {
      var e: nat :| IsControlStringAt(s, e);
      ControlStringVanishes(s, e);
    }
  }

  // A control sequence, a control string or a short escape sequence between two texts
  // disappears without touching either of them.
  lemma EscapeSequencesAreRemoved(a: string, s: string, b: string)
    requires Closed(a) && (IsControlSequence(s) || IsControlString(s) || IsShortSequence(s)) && '\r' !in s
    ensures Clean(a + s + b) == Clean(a) + Clean(b)
  {
    SequencesVanish(s);
    NormalizedWithoutCR(s);
    assert s[0] != '\n';
    assert a + s + b == a + (s + b);
    CleanConcat(a, s + b);
    CleanConcat(s, b);
  }

  lemma {:induction false} NormalizedWithoutCR(s: string)
    requires '\r' !in s
    ensures ReplaceCRLF(s) == s && ReplaceCR(s) == s
  {
    if s != "" {
      NormalizedWithoutCR(s[1..]);
      assert s == [s[0]] + s[1..];
    }
  }
}
