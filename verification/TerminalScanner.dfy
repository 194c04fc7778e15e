/** `sanitize_terminal_controls` (src/util.rs): the nested, peeking scanner and the one-character-at-a-time
    automaton it implements. Final bytes of a control sequence are those of section 5.4 of ECMA-48. */
module TerminalScanner {

  const ESC: char := '\U{1B}'
  const BEL: char := '\U{07}'

  datatype Mode = Ground | Escape | Csi | Osc | OscEscape

  predicate IsFinal(c: char) {
    '\U{40}' <= c <= '\U{7E}'
  }

  /** Rust's `char::is_control`: the Unicode category Cc. */
  predicate IsControl(c: char) {
    c <= '\U{1F}' || '\U{7F}' <= c <= '\U{9F}'
  }

  predicate Keeps(c: char) {
    !IsControl(c) || c == '\n' || c == '\t'
  }

  function StepMode(m: Mode, c: char): Mode {
    match m
    case Ground => if c == ESC then Escape else Ground
    case Escape => if c == '[' then Csi else if c == ']' then Osc else Ground
    case Csi => if IsFinal(c) then Ground else Csi
    case Osc => if c == BEL then Ground else if c == ESC then OscEscape else Osc
    case OscEscape => if c == '\\' || c == BEL then Ground else if c == ESC then OscEscape else Osc
  }

  function Emits(m: Mode, c: char): string {
    if m == Ground && c != ESC then [c] else []
  }

  function ModeAfter(m: Mode, s: string): Mode
    decreases s
  {
    if s == [] then m else ModeAfter(StepMode(m, s[0]), s[1..])
  }

  function Output(m: Mode, s: string): string
    decreases s
  {
    if s == [] then [] else Emits(m, s[0]) + Output(StepMode(m, s[0]), s[1..])
  }

  function Printable(s: string): string {
    if s == [] then [] else (if Keeps(s[0]) then [s[0]] else []) + Printable(s[1..])
  }

  function Sanitized(s: string): string {
    Printable(Output(Ground, s))
  }

  // ---------- the scanner ----------

  lemma OutputStep(m: Mode, s: string, i: nat)
    requires i < |s|
    ensures Output(m, s[i..]) == Emits(m, s[i]) + Output(StepMode(m, s[i]), s[i + 1..])
  {
    assert s[i..][1..] == s[i + 1..];
  }

  /** Past the introducer of a control sequence, up to its final byte or the end. */
  method SkipCsi(s: string, start: nat) returns (i: nat)
    requires start <= |s|
    ensures start <= i <= |s| && Output(Ground, s[i..]) == Output(Csi, s[start..])
  {
    i := start;
    while i < |s|
      invariant start <= i <= |s| && Output(Csi, s[i..]) == Output(Csi, s[start..])
    {
      var c := s[i];
      OutputStep(Csi, s, i);
      i := i + 1;
      if IsFinal(c) {
        return;
      }
    }
  }

  /** After an ESC in a command only a backslash matters. */
  lemma PeekedInOsc(s: string, i: nat)
    requires i < |s|
    ensures Output(OscEscape, s[i..]) == if s[i] == '\\' then Output(Ground, s[i + 1..]) else Output(Osc, s[i..])
  {
    OutputStep(OscEscape, s, i);
    OutputStep(Osc, s, i);
  }

  /** Past an operating system command, up to BEL, to ESC and a backslash, or to the end. */
  method SkipOsc(s: string, start: nat) returns (i: nat)
    requires start <= |s|
    ensures start <= i <= |s| && Output(Ground, s[i..]) == Output(Osc, s[start..])
  {
    i := start;
    while i < |s|
      invariant start <= i <= |s| && Output(Osc, s[i..]) == Output(Osc, s[start..])
    {
      var c := s[i];
      OutputStep(Osc, s, i);
      i := i + 1;
      if c == BEL {
        return;
      }
      if c == ESC {
        if i < |s| {
          PeekedInOsc(s, i);
          if s[i] == '\\' {
            i := i + 1;
            return;
          }
        }
      }
    }
  }

  method Filter(s: string) returns (out: string)
    ensures out == Printable(s)
  {
    out := [];
    for i := 0 to |s|
      invariant out + Printable(s[i..]) == Printable(s)
    {
      assert s[i..][0] == s[i] && s[i..][1..] == s[i + 1..];
      if Keeps(s[i]) {
        Regroup(out, [s[i]], Printable(s[i + 1..]));
        out := out + [s[i]];
      }
    }
  }

  /** After an ESC that is not the last character: what the peeked character introduces is skipped with it. */
  method SkipEscape(s: string, start: nat) returns (i: nat)
    requires start < |s|
    ensures start < i <= |s| && Output(Ground, s[i..]) == Output(Escape, s[start..])
  {
    OutputStep(Escape, s, start);
    i := start + 1;
    if s[start] == '[' {
      i := SkipCsi(s, i);
    } else if s[start] == ']' {
      i := SkipOsc(s, i);
    }
  }

  /** The source's loop: one character taken, the next one peeked at after an ESC. */
  method SanitizeTerminalControls(input: string) returns (clean: string)
    ensures clean == Sanitized(input)
  {
    var out := "";
    var i := 0;
    while i < |input|
      invariant 0 <= i <= |input| && out + Output(Ground, input[i..]) == Output(Ground, input)
      decreases |input| - i
    {
      var c := input[i];
      OutputStep(Ground, input, i);
      if c == ESC {
        if i + 1 == |input| {
          break;
        }
        i := SkipEscape(input, i + 1);
      } else {
        Regroup(out, [c], Output(Ground, input[i + 1..]));
        out := out + [c];
        i := i + 1;
      }
    }
    assert out == Output(Ground, input);
    clean := Filter(out);
  }

  // ---------- what the automaton guarantees ----------

  predicate IsSubsequence(s: string, t: string) {
    if s == [] then true
    else if t == [] then false
    else (s[0] == t[0] && IsSubsequence(s[1..], t[1..])) || IsSubsequence(s, t[1..])
  }

  lemma {:induction false} OutputIsSubsequence(m: Mode, s: string)
    ensures IsSubsequence(Output(m, s), s)
    decreases s
  {
    if s != [] {
      OutputIsSubsequence(StepMode(m, s[0]), s[1..]);
      if Emits(m, s[0]) == [] {
        assert Output(m, s) == Output(StepMode(m, s[0]), s[1..]);
      } else {
        assert Output(m, s)[1..] == Output(StepMode(m, s[0]), s[1..]);
      }
    }
  }

  lemma {:induction false} PrintableIsSubsequence(s: string)
    ensures IsSubsequence(Printable(s), s)
  {
    if s != [] {
      PrintableIsSubsequence(s[1..]);
      if Keeps(s[0]) {
        assert Printable(s)[1..] == Printable(s[1..]);
      } else {
        assert Printable(s) == Printable(s[1..]);
      }
    }
  }

  lemma {:induction false} SubsequenceTransitive(r: string, s: string, t: string)
    requires IsSubsequence(r, s) && IsSubsequence(s, t)
    ensures IsSubsequence(r, t)
    decreases |s| + |t|
  {
    if r != [] {
      if s[0] == t[0] && IsSubsequence(s[1..], t[1..]) {
        if r[0] == s[0] && IsSubsequence(r[1..], s[1..]) {
          SubsequenceTransitive(r[1..], s[1..], t[1..]);
        } else {
          SubsequenceTransitive(r, s[1..], t[1..]);
        }
      } else {
        SubsequenceTransitive(r, s, t[1..]);
      }
    }
  }

  lemma {:induction false} PrintableKeeps(s: string)
    ensures forall c :: c in Printable(s) ==> Keeps(c)
  {
    if s != [] {
      PrintableKeeps(s[1..]);
    }
  }

  /** The result is part of the input in order, and holds no control character but newlines and tabs. */
  lemma SanitizedIsClean(s: string)
    ensures IsSubsequence(Sanitized(s), s)
    ensures forall c :: c in Sanitized(s) ==> !IsControl(c) || c == '\n' || c == '\t'
  {
    OutputIsSubsequence(Ground, s);
    PrintableIsSubsequence(Output(Ground, s));
    SubsequenceTransitive(Sanitized(s), Output(Ground, s), s);
    PrintableKeeps(Output(Ground, s));
  }

  lemma {:induction false} CleanIsKept(s: string)
    requires forall c :: c in s ==> Keeps(c)
    ensures Output(Ground, s) == s && Printable(s) == s
  {
    if s != [] {
      CleanIsKept(s[1..]);
      assert s[0] in s && s == [s[0]] + s[1..];
    }
  }

  /** Sanitizing twice is sanitizing once. */
  lemma Idempotent(s: string)
    ensures Sanitized(Sanitized(s)) == Sanitized(s)
  {
    PrintableKeeps(Output(Ground, s));
    CleanIsKept(Sanitized(s));
  }

  lemma Regroup(a: string, b: string, c: string)
    ensures a + (b + c) == (a + b) + c
  {
  }

  lemma {:induction false} OutputAppends(m: Mode, a: string, b: string)
    ensures Output(m, a + b) == Output(m, a) + Output(ModeAfter(m, a), b)
    decreases a
  {
    if a == [] {
      assert a + b == b;
    } else {
      var next := StepMode(m, a[0]);
      OutputAppends(next, a[1..], b);
      assert (a + b)[1..] == a[1..] + b;
      Regroup(Emits(m, a[0]), Output(next, a[1..]), Output(ModeAfter(m, a), b));
    }
  }

  lemma {:induction false} PrintableAppends(a: string, b: string)
    ensures Printable(a + b) == Printable(a) + Printable(b)
  {
    if a == [] {
      assert a + b == b;
    } else {
      PrintableAppends(a[1..], b);
      assert (a + b)[1..] == a[1..] + b;
      Regroup(if Keeps(a[0]) then [a[0]] else [], Printable(a[1..]), Printable(b));
    }
  }

  lemma SanitizedAppends(a: string, b: string)
    ensures Sanitized(a + b) == Sanitized(a) + Printable(Output(ModeAfter(Ground, a), b))
  {
    OutputAppends(Ground, a, b);
    PrintableAppends(Output(Ground, a), Output(ModeAfter(Ground, a), b));
  }

  // ---------- what is skipped and what is kept, character by character ----------

  /** The escape sequence a, from ESC to its end, leaves nothing behind. */
  lemma SequenceSkipped(a: string, s: string)
    requires Output(Ground, a) == [] && ModeAfter(Ground, a) == Ground
    ensures Sanitized(a + s) == Sanitized(s)
  {
    SanitizedAppends(a, s);
    assert Printable([]) == [];
  }

  lemma {:induction false} InsideCsi(p: string)
    requires forall i :: 0 <= i < |p| ==> !('\U{40}' <= p[i] <= '\U{7E}')
    ensures Output(Csi, p) == [] && ModeAfter(Csi, p) == Csi
  {
    if p != [] { InsideCsi(p[1..]); }
  }

  /** No BEL, and no ESC that a backslash follows. */
  predicate StaysInOsc(p: string) {
    forall i :: 0 <= i < |p| ==> p[i] != '\U{07}' && !(p[i] == '\U{1B}' && i + 1 < |p| && p[i + 1] == '\\')
  }

  lemma {:induction false} InsideOsc(m: Mode, p: string)
    requires m == Osc || (m == OscEscape && (p != [] ==> p[0] != '\\'))
    requires StaysInOsc(p)
    ensures Output(m, p) == []
    ensures ModeAfter(m, p) == if p == [] then m else if p[|p| - 1] == '\U{1B}' then OscEscape else Osc
    decreases |p|
  {
    if p != [] {
      assert p[1..] != [] ==> p[1..][|p| - 2] == p[|p| - 1];
      InsideOsc(StepMode(m, p[0]), p[1..]);
    }
  }

  lemma Introduced(kind: char, p: string)
    ensures Output(Ground, ['\U{1B}', kind] + p) == Output(StepMode(Escape, kind), p)
    ensures ModeAfter(Ground, ['\U{1B}', kind] + p) == ModeAfter(StepMode(Escape, kind), p)
  {
    var a := ['\U{1B}', kind] + p;
    assert a[1..][1..] == p;
    assert a[0] == ESC && a[1..][0] == kind;
  }

  lemma {:induction false} ModeAppends(m: Mode, a: string, b: string)
    ensures ModeAfter(m, a + b) == ModeAfter(ModeAfter(m, a), b)
    decreases a
  {
    if a == [] {
      assert a + b == b;
    } else {
      assert (a + b)[1..] == a[1..] + b;
      ModeAppends(StepMode(m, a[0]), a[1..], b);
    }
  }

  /** ESC, "[", anything up to the first character from "@" to "~", and that character: all of it goes. */
  lemma ControlSequenceGoes(p: string, last: char, s: string)
    requires forall i :: 0 <= i < |p| ==> !('\U{40}' <= p[i] <= '\U{7E}')
    requires '\U{40}' <= last <= '\U{7E}'
    ensures Sanitized("\U{1B}[" + p + [last] + s) == Sanitized(s)
  {
    InsideCsi(p);
    OutputAppends(Csi, p, [last]);
    ModeAppends(Csi, p, [last]);
    Introduced('[', p + [last]);
    assert "\U{1B}[" + p + [last] == ['\U{1B}', '['] + (p + [last]);
    SequenceSkipped("\U{1B}[" + p + [last], s);
  }

  function OscEnd(bel: bool): string {
    if bel then "\U{07}" else "\U{1B}\\"
  }

  lemma OscEnds(m: Mode, bel: bool)
    requires m == Osc || m == OscEscape
    ensures Output(m, OscEnd(bel)) == [] && ModeAfter(m, OscEnd(bel)) == Ground
  {
    var last := OscEnd(bel);
    if bel {
      assert last[0] == BEL && last[1..] == [];
    } else {
      var back: string := ['\\'];
      assert last[0] == ESC && last[1..] == back && back[1..] == [];
      assert Output(OscEscape, back) == [] && ModeAfter(OscEscape, back) == Ground;
    }
  }

  /** ESC, "]", anything without BEL and without ESC and backslash, and then one of the two: all of it goes. */
  lemma SystemCommandGoes(p: string, bel: bool, s: string)
    requires StaysInOsc(p)
    ensures Sanitized("\U{1B}]" + p + (if bel then "\U{07}" else "\U{1B}\\") + s) == Sanitized(s)
  {
    var last := OscEnd(bel);
    InsideOsc(Osc, p);
    OscEnds(ModeAfter(Osc, p), bel);
    OutputAppends(Osc, p, last);
    ModeAppends(Osc, p, last);
    Introduced(']', p + last);
    assert "\U{1B}]" + p + last == ['\U{1B}', ']'] + (p + last);
    SequenceSkipped("\U{1B}]" + p + last, s);
  }

  /** ESC and one other character go together. */
  lemma ShortEscapeGoes(c: char, s: string)
    requires c != '[' && c != ']'
    ensures Sanitized(['\U{1B}', c] + s) == Sanitized(s)
  {
    Introduced(c, []);
    assert ['\U{1B}', c] + [] == ['\U{1B}', c];
    SequenceSkipped(['\U{1B}', c], s);
  }

  /** Without its end a sequence takes the rest of the text with it. */
  lemma UnendedGoes(p: string)
    ensures Sanitized("\U{1B}") == []
    ensures (forall i :: 0 <= i < |p| ==> !('\U{40}' <= p[i] <= '\U{7E}')) ==> Sanitized("\U{1B}[" + p) == []
    ensures StaysInOsc(p) ==> Sanitized("\U{1B}]" + p) == []
  {
    Introduced('[', p);
    Introduced(']', p);
    assert "\U{1B}[" + p == ['\U{1B}', '['] + p && "\U{1B}]" + p == ['\U{1B}', ']'] + p;
    if forall i :: 0 <= i < |p| ==> !('\U{40}' <= p[i] <= '\U{7E}') { InsideCsi(p); }
    if StaysInOsc(p) { InsideOsc(Osc, p); }
    var alone: string := [ESC];
    assert "\U{1B}" == alone && alone[1..] == [];
  }

  /** Outside a sequence a newline, a tab and every character that is no control stay, and the controls go. */
  lemma PlainStays(c: char, s: string)
    requires c != '\U{1B}'
    ensures Sanitized([c] + s)
         == (if c == '\n' || c == '\t' || '\U{20}' <= c <= '\U{7E}' || '\U{A0}' <= c then [c] else []) + Sanitized(s)
  {
    var a := [c];
    assert a[1..] == [];
    assert Output(Ground, a) == [c];
    assert Printable(a) == (if Keeps(c) then [c] else []) + Printable(a[1..]);
    SanitizedAppends(a, s);
  }

  /** Output can be sanitized piece by piece exactly when the first piece ends outside every escape sequence. */
  lemma DistributesExactly(a: string)
    ensures (forall b :: Sanitized(a + b) == Sanitized(a) + Sanitized(b)) <==> ModeAfter(Ground, a) == Ground
  {
    if ModeAfter(Ground, a) == Ground {
      forall b
        ensures Sanitized(a + b) == Sanitized(a) + Sanitized(b)
      {
        SanitizedAppends(a, b);
      }
    } else {
      var one := "1";
      SanitizedAppends(a, one);
      OutputStep(ModeAfter(Ground, a), one, 0);
      OutputStep(Ground, one, 0);
      assert one[1..] == [] && one[0..] == one;
      CleanIsKept(one);
      assert Sanitized(a + one) != Sanitized(a) + Sanitized(one);
    }
  }
}
