/**
 NDJSON framing: how a byte sequence falls into newline-terminated lines and an unterminated rest.
 The dispatcher works on one growing and shrinking buffer; here the whole byte sequence is the
 object, so that "where the chunks were cut" has no place to hide.
 */
module Framing {
  import opened Prelude

  const NL: byte := 10
  const CR: byte := 13

  /** Index of the first newline at or after `from`, or the length when there is none (memchr). */
  function NextNl(s: Bytes, from: nat): (i: nat)
    requires from <= |s|
    ensures from <= i <= |s|
    ensures forall j :: from <= j < i ==> s[j] != NL
    ensures i < |s| ==> s[i] == NL
    decreases |s| - from
  {
    if from == |s| || s[from] == NL then from else NextNl(s, from + 1)
  }

  /** The newline-terminated lines from `from` on, without their newlines. */
  function LinesFrom(s: Bytes, from: nat): seq<Bytes>
    requires from <= |s|
    decreases |s| - from
  {
    var i := NextNl(s, from);
    if i == |s| then [] else [s[from..i]] + LinesFrom(s, i + 1)
  }

  /** What follows the last newline at or after `from`. */
  function ResidualFrom(s: Bytes, from: nat): Bytes
    requires from <= |s|
    decreases |s| - from
  {
    var i := NextNl(s, from);
    if i == |s| then s[from..] else ResidualFrom(s, i + 1)
  }

  function Lines(s: Bytes): seq<Bytes> {
    LinesFrom(s, 0)
  }

  function Residual(s: Bytes): Bytes {
    ResidualFrom(s, 0)
  }

  /** A line as the dispatcher reads it: one trailing carriage return is not part of it. */
  function StripCr(line: Bytes): Bytes {
    if line != [] && line[|line| - 1] == CR then line[..|line| - 1] else line
  }

  /** The unterminated last line: every trailing newline and carriage return is dropped. */
  function StripEnd(s: Bytes): Bytes {
    if s != [] && (s[|s| - 1] == NL || s[|s| - 1] == CR) then StripEnd(s[..|s| - 1]) else s
  }

  /** A line loses one carriage return if it ends in one; the last line loses all that is no content at its end. */
  lemma {:induction false} WhatIsStripped(s: Bytes)
    ensures StripCr(s + [CR]) == s
    ensures s == [] || s[|s| - 1] != CR ==> StripCr(s) == s
    ensures var r := StripEnd(s);
            && r <= s
            && (forall k :: |r| <= k < |s| ==> s[k] == NL || s[k] == CR)
            && (r != [] ==> r[|r| - 1] != NL && r[|r| - 1] != CR)
    decreases |s|
  {
    if s != [] {
      WhatIsStripped(s[..|s| - 1]);
    }
  }

  /** Lines with their newlines put back. */
  function Unlines(lines: seq<Bytes>): Bytes {
    if lines == [] then [] else lines[0] + [NL] + Unlines(lines[1..])
  }

  ghost predicate NoNewline(s: Bytes) {
    forall k :: 0 <= k < |s| ==> s[k] != NL
  }

  ghost predicate NoNewlines(lines: seq<Bytes>) {
    forall k :: 0 <= k < |lines| ==> NoNewline(lines[k])
  }

  lemma {:induction false} SplitJoinsFrom(s: Bytes, from: nat)
    requires from <= |s|
    ensures s[from..] == Unlines(LinesFrom(s, from)) + ResidualFrom(s, from)
    decreases |s| - from
  {
    var i := NextNl(s, from);
    if i < |s| {
      var line, lines, rest := s[from..i], LinesFrom(s, i + 1), ResidualFrom(s, i + 1);
      SplitJoinsFrom(s, i + 1);
      assert LinesFrom(s, from) == [line] + lines;
      assert ResidualFrom(s, from) == rest;
      calc {
        s[from..];
        { CutLine(s, from, i); }
        line + [NL] + s[i + 1..];
        { assert s[i + 1..] == Unlines(lines) + rest; }
        line + [NL] + (Unlines(lines) + rest);
        { Regroup(line + [NL], Unlines(lines), rest); }
        (line + [NL] + Unlines(lines)) + rest;
        { UnlinesFirst(line, lines); }
        Unlines([line] + lines) + rest;
      }
    }
  }

  lemma CutLine(s: Bytes, from: nat, i: nat)
    requires from <= i < |s| && s[i] == NL
    ensures s[from..] == s[from..i] + [NL] + s[i + 1..]
  {
  }

  lemma UnlinesFirst(line: Bytes, lines: seq<Bytes>)
    ensures Unlines([line] + lines) == line + [NL] + Unlines(lines)
  {
    assert ([line] + lines)[1..] == lines;
  }

  lemma {:induction false} LinesHaveNoNewline(s: Bytes, from: nat)
    requires from <= |s|
    ensures NoNewlines(LinesFrom(s, from)) && NoNewline(ResidualFrom(s, from))
    decreases |s| - from
  {
    var i := NextNl(s, from);
    if i < |s| {
      LinesHaveNoNewline(s, i + 1);
      var line, lines := s[from..i], LinesFrom(s, i + 1);
      assert NoNewline(line);
      forall k | 0 <= k < |lines| + 1 ensures NoNewline(([line] + lines)[k]) {
        assert k > 0 ==> ([line] + lines)[k] == lines[k - 1];
      }
    }
  }

  /** Splitting loses nothing: the lines and the rest make up the bytes again. */
  lemma SplitJoins(s: Bytes)
    ensures s == Unlines(Lines(s)) + Residual(s)
    ensures NoNewlines(Lines(s)) && NoNewline(Residual(s))
  {
    SplitJoinsFrom(s, 0);
    LinesHaveNoNewline(s, 0);
  }

  lemma {:induction false} NextNlUnique(s: Bytes, from: nat, i: nat)
    requires from <= i <= |s|
    requires forall j :: from <= j < i ==> s[j] != NL
    requires i < |s| ==> s[i] == NL
    ensures NextNl(s, from) == i
    decreases i - from
  {
    if from < i { NextNlUnique(s, from + 1, i); }
  }

  lemma {:induction false} SplitUniqueFrom(before: Bytes, lines: seq<Bytes>, rest: Bytes)
    requires NoNewlines(lines) && NoNewline(rest)
    ensures LinesFrom(before + Unlines(lines) + rest, |before|) == lines
    ensures ResidualFrom(before + Unlines(lines) + rest, |before|) == rest
    decreases |lines|
  {
    var s := before + Unlines(lines) + rest;
    if lines == [] {
      NextNlUnique(s, |before|, |s|);
    } else {
      var i := |before| + |lines[0]|;
      var before' := before + lines[0] + [NL];
      assert s == before' + Unlines(lines[1..]) + rest;
      assert s[|before|..i] == lines[0];
      assert forall j :: |before| <= j < i ==> s[j] == lines[0][j - |before|];
      NextNlUnique(s, |before|, i);
      SplitUniqueFrom(before', lines[1..], rest);
    }
  }

  /** ... and it is the only way to write s as newline-free lines and a newline-free rest. */
  lemma SplitUnique(lines: seq<Bytes>, rest: Bytes)
    requires NoNewlines(lines) && NoNewline(rest)
    ensures Lines(Unlines(lines) + rest) == lines
    ensures Residual(Unlines(lines) + rest) == rest
  {
    SplitUniqueFrom([], lines, rest);
    assert [] + Unlines(lines) + rest == Unlines(lines) + rest;
  }

  lemma {:induction false} UnlinesConcat(a: seq<Bytes>, b: seq<Bytes>)
    ensures Unlines(a + b) == Unlines(a) + Unlines(b)
  {
    if a == [] {
      assert a + b == b;
    } else {
      assert (a + b)[1..] == a[1..] + b;
      UnlinesConcat(a[1..], b);
    }
  }

  /** Framing is incremental: only the rest of the bytes seen so far matters for what comes next. */
  lemma SplitConcat(a: Bytes, b: Bytes)
    ensures Lines(a + b) == Lines(a) + Lines(Residual(a) + b)
    ensures Residual(a + b) == Residual(Residual(a) + b)
  {
    var lines, rest := Lines(a), Residual(a);
    var lines', rest' := Lines(rest + b), Residual(rest + b);
    SplitJoins(a);
    SplitJoins(rest + b);
    calc {
      a + b;
      (Unlines(lines) + rest) + b;
      { Regroup(Unlines(lines), rest, b); }
      Unlines(lines) + (Unlines(lines') + rest');
      { Regroup(Unlines(lines), Unlines(lines'), rest'); }
      (Unlines(lines) + Unlines(lines')) + rest';
      { UnlinesConcat(lines, lines'); }
      Unlines(lines + lines') + rest';
    }
    SplitUnique(lines + lines', rest');
  }

  lemma Regroup(a: Bytes, b: Bytes, c: Bytes)
    ensures (a + b) + c == a + (b + c)
  {
  }
}
