/**
 * The text preprocessing of main.py:213: every line read from the source
 * file is stripped of leading and trailing whitespace and the stripped lines
 * are concatenated with no separator.
 */
module Preprocessing {

  /** The characters for which Python's `str.isspace()` holds; `str.strip()` removes these. */
  predicate IsSpace(c: char) {
    c == ' ' || ('\t' <= c <= '\r') || ('\U{1c}' <= c <= '\U{1f}')
    || c == '\U{85}' || c == '\U{a0}' || c == '\U{1680}'
    || ('\U{2000}' <= c <= '\U{200a}') || c == '\U{2028}' || c == '\U{2029}'
    || c == '\U{202f}' || c == '\U{205f}' || c == '\U{3000}'
  }

  predicate AllSpace(s: string) {
    forall i :: 0 <= i < |s| ==> IsSpace(s[i])
  }

  /** The number of whitespace characters `str.strip()` removes at the start of `s`. */
  function LeadingSpace(s: string): (k: nat)
    ensures k <= |s|
    ensures forall i :: 0 <= i < k ==> IsSpace(s[i])
    ensures k < |s| ==> !IsSpace(s[k])
  {
    if s != [] && IsSpace(s[0]) then 1 + LeadingSpace(s[1..]) else 0
  }

  /** The number of whitespace characters `str.strip()` removes at the end of `s`. */
  function TrailingSpace(s: string): (k: nat)
    ensures k <= |s|
    ensures forall i :: |s| - k <= i < |s| ==> IsSpace(s[i])
    ensures k < |s| ==> !IsSpace(s[|s| - 1 - k])
  {
    if s != [] && IsSpace(s[|s| - 1]) then 1 + TrailingSpace(s[..|s| - 1]) else 0
  }

  /** `str.strip()`: the line without its leading and its trailing whitespace. */
  function Strip(line: string): string {
    var a := LeadingSpace(line);
    line[a..|line| - TrailingSpace(line[a..])]
  }

  /** What `str.strip()` leaves is a contiguous piece of the line. */
  lemma StripPiece(line: string)
    ensures LeadingSpace(line) + |Strip(line)| <= |line|
    ensures Strip(line) == line[LeadingSpace(line)..LeadingSpace(line) + |Strip(line)|]
  {
  }

  /** What `str.strip()` removes at the start of the line is whitespace. */
  lemma StripLeading(line: string)
    ensures AllSpace(line[..LeadingSpace(line)])
  {
    var head := line[..LeadingSpace(line)];
    forall i | 0 <= i < |head| ensures IsSpace(head[i]) {
      assert head[i] == line[i];
    }
  }

  /** What `str.strip()` removes at the end of the line is whitespace. */
  lemma StripTrailing(line: string)
    ensures AllSpace(line[LeadingSpace(line) + |Strip(line)|..])
  {
    var a := LeadingSpace(line);
    var rest := line[a..];
    var t := TrailingSpace(rest);
    var e := |line| - t;
    assert a + |Strip(line)| == e;
    var tail := line[e..];
    forall i | 0 <= i < |tail| ensures IsSpace(tail[i]) {
      assert tail[i] == rest[|rest| - t + i];
    }
  }

  /** What `str.strip()` leaves neither starts nor ends with whitespace. */
  lemma StripEnds(line: string)
    ensures Strip(line) == [] || (!IsSpace(Strip(line)[0]) && !IsSpace(Strip(line)[|Strip(line)| - 1]))
  {
    var a := LeadingSpace(line);
    var rest := line[a..];
    var t := TrailingSpace(rest);
    var r := Strip(line);
    assert r == rest[..|rest| - t];
    if r != [] {
      assert r[0] == rest[0];
      assert r[|r| - 1] == rest[|rest| - 1 - t];
    }
  }

  /** Whitespace followed by a text that does not start with whitespace: the whitespace is what is removed. */
  lemma LeadingSpaceOf(lead: string, rest: string)
    requires AllSpace(lead) && (rest == [] || !IsSpace(rest[0]))
    ensures LeadingSpace(lead + rest) == |lead|
  {
    var s := lead + rest;
    forall i | 0 <= i < |lead| ensures IsSpace(s[i]) {
      assert s[i] == lead[i];
    }
    if rest != [] {
      assert s[|lead|] == rest[0];
    }
  }

  /** A text that does not end with whitespace followed by whitespace: the whitespace is what is removed. */
  lemma TrailingSpaceOf(core: string, trail: string)
    requires AllSpace(trail) && core != [] && !IsSpace(core[|core| - 1])
    ensures TrailingSpace(core + trail) == |trail|
  {
    var s := core + trail;
    forall i | |core| <= i < |s| ensures IsSpace(s[i]) {
      assert s[i] == trail[i - |core|];
    }
    assert s[|core| - 1] == core[|core| - 1];
  }

  /**
   * Conversely, a line made of whitespace, a core that neither starts nor
   * ends with whitespace, and whitespace again strips to that core.
   */
  lemma StripOf(lead: string, core: string, trail: string)
    requires AllSpace(lead) && AllSpace(trail)
    requires core != [] ==> !IsSpace(core[0]) && !IsSpace(core[|core| - 1])
    ensures Strip(lead + core + trail) == core
  {
    var line := lead + core + trail;
    if core == [] {
      assert line == lead + trail;
      forall i | |lead| <= i < |line| ensures IsSpace(line[i]) {
        assert line[i] == trail[i - |lead|];
      }
      assert AllSpace(line);
      LeadingSpaceOf(line, []);
      assert line + [] == line;
    } else {
      assert line == lead + (core + trail);
      LeadingSpaceOf(lead, core + trail);
      assert line[|lead|..] == core + trail;
      TrailingSpaceOf(core, trail);
      assert line[|lead|..|line| - |trail|] == core;
    }
  }

  /** The text the lexer is given (main.py:213): every line stripped, then all of them joined with no separator. */
  function Preprocess(lines: seq<string>): (text: string)
  {
    if lines == [] then [] else Strip(lines[0]) + Preprocess(lines[1..])
  }

  /**
   * A line as `readlines()` returns it: a line break can only be its last
   * character.
   */
  predicate IsReadLine(line: string) {
    forall i :: 0 <= i < |line| - 1 ==> line[i] != '\n'
  }

  lemma {:induction false} PreprocessAppend(lines: seq<string>, line: string)
    ensures Preprocess(lines + [line]) == Preprocess(lines) + Strip(line)
  {
    if lines == [] {
      assert [] + [line] == [line];
    } else {
      assert (lines + [line])[1..] == lines[1..] + [line];
      PreprocessAppend(lines[1..], line);
    }
  }

  lemma StripHasNoNewline(line: string)
    requires IsReadLine(line)
    ensures forall j :: 0 <= j < |Strip(line)| ==> Strip(line)[j] != '\n'
  {
    StripPiece(line);
    StripEnds(line);
    var a := LeadingSpace(line);
    var r := Strip(line);
    forall j | 0 <= j < |r| ensures r[j] != '\n' {
      assert r[j] == line[a + j];
      if j == |r| - 1 {
        assert !IsSpace(r[j]);
      }
    }
  }

  /**
   * After preprocessing the text holds no line break, so the lexer runs over
   * a single line.
   */
  lemma {:induction false} PreprocessHasNoNewline(lines: seq<string>)
    requires forall i :: 0 <= i < |lines| ==> IsReadLine(lines[i])
    ensures forall j :: 0 <= j < |Preprocess(lines)| ==> Preprocess(lines)[j] != '\n'
  {
    if lines != [] {
      StripHasNoNewline(lines[0]);
      PreprocessHasNoNewline(lines[1..]);
      var a, b := Strip(lines[0]), Preprocess(lines[1..]);
      assert Preprocess(lines) == a + b;
      forall j | 0 <= j < |a + b| ensures (a + b)[j] != '\n' {
        if j < |a| { assert (a + b)[j] == a[j]; } else { assert (a + b)[j] == b[j - |a|]; }
      }
    }
  }
}
