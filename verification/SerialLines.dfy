/** `Serial::readline` and `Serial::readlines` of serial.cc over the bytes that arrive before
    a one-byte read times out. */
module SerialLines {
  import opened Basics

  predicate EndsWith(s: string, eol: string) {
    |s| >= |eol| && s[|s| - |eol|..] == eol
  }

  /** `readline` stops after reading exactly `s`: the end of line is in, or the buffer full. */
  predicate Stops(s: string, size: nat, eol: string) {
    |s| >= |eol| && (EndsWith(s, eol) || |s| == size)
  }

  /** How many bytes of `p` one `readline` takes when it has already looked at `k`. */
  function LineEnd(p: string, k: nat, size: nat, eol: string): (n: nat)
    requires k <= |p|
    ensures k <= n <= |p|
    decreases |p| - k
  {
    if k == |p| then k
    else if Stops(p[..k + 1], size, eol) then k + 1
    else LineEnd(p, k + 1, size, eol)
  }

  /** Where the current line begins once `n` bytes are in. The end of line is looked for in
      the whole buffer, so a match may begin before `start`. */
  function NewStart(p: string, eol: string, start: nat, n: nat): (s: nat)
    requires start <= n <= |p|
    ensures start <= s <= n
  {
    if EndsWith(p[..n], eol) then n else start
  }

  /** The lines pushed when byte `n` has just come in: the one it completes, and at the end
      of the buffer the one that is left. */
  function Pushed(p: string, size: nat, eol: string, start: nat, n: nat): seq<string>
    requires start <= n <= |p|
  {
    (if EndsWith(p[..n], eol) then [p[start..n]] else [])
    + (if n == size && n >= |eol| && NewStart(p, eol, start, n) != n then [p[start..n]] else [])
  }

  /** The lines `readlines` still has to push when it has read `k` bytes of `p` and the
      current line began at `start`. */
  function Lines(p: string, size: nat, eol: string, start: nat, k: nat): seq<string>
    requires start <= k <= |p|
    decreases |p| - k
  {
    if k >= size then []
    else if k == |p| then (if start != k then [p[start..k]] else [])
    else Pushed(p, size, eol, start, k + 1) + Lines(p, size, eol, NewStart(p, eol, start, k + 1), k + 1)
  }

  function Min(a: nat, b: nat): nat { if a < b then a else b }

  /** A read of one byte goes past the end of the buffer: it has room for `size` bytes, but the
      loop does not look at the size before it has seen as many bytes as `eol` has. */
  predicate Overruns(p: string, size: nat, eol: string) {
    |p| > size && (size < |eol| || size == 0)
  }

  /** `readline` again and again on what is left of `p` with what is left of the budget, each
      line as long as the loop makes it. */
  function RepeatReadline(p: string, budget: nat, eol: string): seq<string>
    decreases |p|
  {
    if budget == 0 || p == "" then []
    else
      var n := LineEnd(p, 0, budget, eol);
      LineEndAdvances(p, 0, budget, eol);
      [p[..n]] + (if n < budget then RepeatReadline(p[n..], budget - n, eol) else [])
  }

  /** One of these calls goes past the end of its buffer. */
  predicate RunsOver(p: string, budget: nat, eol: string)
    decreases |p|
  {
    && budget > 0 && p != ""
    && (Overruns(p, budget, eol)
        || (var n := LineEnd(p, 0, budget, eol);
            LineEndAdvances(p, 0, budget, eol);
            n < budget && RunsOver(p[n..], budget - n, eol)))
  }

  /** The length of the next line if a budget too small to hold an end of line went out as it
      is, and the lines this would give. */
  function CutLine(p: string, budget: nat, eol: string): nat {
    if budget >= |eol| then LineEnd(p, 0, budget, eol) else Min(budget, |p|)
  }

  function RepeatCut(p: string, budget: nat, eol: string): seq<string>
    decreases |p|
  {
    if budget == 0 || p == "" then []
    else
      var n := CutLine(p, budget, eol);
      CutLineBounds(p, budget, eol);
      [p[..n]] + RepeatCut(p[n..], budget - n, eol)
  }

  // ---------------------------------------------------------------------------
  // The port

  class Port {
    var pending: string

    constructor (arrived: string)
      ensures pending == arrived
    {
      pending := arrived;
    }

    /** A one-byte read: the number of bytes read is zero when the wait times out. */
    method ReadByte(buffer: array<char>, at: nat) returns (bytesRead: nat)
      requires at < buffer.Length || pending == ""
      modifies this, buffer
      ensures old(pending) == "" ==> bytesRead == 0 && pending == "" && buffer[..] == old(buffer[..])
      ensures old(pending) != "" ==> bytesRead == 1 && pending == old(pending)[1..]
      ensures old(pending) != "" ==> buffer[..] == old(buffer[..])[at := old(pending)[0]]
    {
      if pending == "" { return 0; }
      buffer[at] := pending[0];
      pending := pending[1..];
      return 1;
    }

    /** `overrun` when the next byte would be written past the buffer; nothing is promised of
        the line then. */
    method Readline(size: nat, eol: string) returns (line: string, overrun: bool)
      modifies this
      ensures overrun <==> Overruns(old(pending), size, eol)
      ensures !overrun ==> var n := LineEnd(old(pending), 0, size, eol);
        line == old(pending)[..n] && pending == old(pending)[n..]
    {
      hide LineEnd;
      var buffer := new char[size];
      ghost var p := pending;
      var readSoFar: nat := 0;
      while true
        invariant readSoFar <= |p| && pending == p[readSoFar..]
        invariant readSoFar < size || readSoFar == size == 0 || readSoFar <= size < |eol|
        invariant buffer[..readSoFar] == p[..readSoFar]
        invariant LineEnd(p, 0, size, eol) == LineEnd(p, readSoFar, size, eol)
        decreases |pending|
      {
        LineEndUnfold(p, readSoFar, size, eol);
        if readSoFar == size && pending != "" { return "", true; }
        var bytesRead := ReadByte(buffer, readSoFar);
        readSoFar := readSoFar + bytesRead;
        if bytesRead == 0 { break; }
        assert buffer[..readSoFar] == p[..readSoFar];
        if readSoFar < |eol| { continue; }
        assert buffer[readSoFar - |eol|..readSoFar] == p[..readSoFar][readSoFar - |eol|..];
        if buffer[readSoFar - |eol|..readSoFar] == eol { break; }
        if readSoFar == size { break; }
      }
      line, overrun := buffer[..readSoFar], false;
    }

    method Readlines(size: nat, eol: string) returns (lines: seq<string>)
      modifies this
      ensures lines == Lines(old(pending), size, eol, 0, 0)
      ensures pending == old(pending)[Min(size, |old(pending)|)..]
    {
      hide Lines;
      lines := [];
      var buffer := new char[size];
      ghost var p := pending;
      var readSoFar: nat, startOfLine: nat := 0, 0;
      while readSoFar < size
        invariant startOfLine <= readSoFar <= size && readSoFar <= |p|
        invariant pending == p[readSoFar..]
        invariant buffer[..readSoFar] == p[..readSoFar]
        invariant lines + Lines(p, size, eol, startOfLine, readSoFar) == Lines(p, size, eol, 0, 0)
        decreases |pending|
      {
        ghost var k, start, before := readSoFar, startOfLine, lines;
        LinesUnfold(p, size, eol, start, k);
        var bytesRead := ReadByte(buffer, readSoFar);
        readSoFar := readSoFar + bytesRead;
        assert buffer[..readSoFar] == p[..readSoFar];
        assert buffer[start..readSoFar] == p[..readSoFar][start..] == p[start..readSoFar];
        if bytesRead == 0 {
          if startOfLine != readSoFar {
            lines := lines + [buffer[startOfLine..readSoFar]];
          }
          break;
        }
        if readSoFar < |eol| { continue; }
        assert buffer[readSoFar - |eol|..readSoFar] == p[..readSoFar][readSoFar - |eol|..];
        if buffer[readSoFar - |eol|..readSoFar] == eol {
          lines := lines + [buffer[startOfLine..readSoFar]];
          startOfLine := readSoFar;
        }
        assert startOfLine == NewStart(p, eol, start, readSoFar);
        if readSoFar == size {
          if startOfLine != readSoFar {
            lines := lines + [buffer[startOfLine..readSoFar]];
          }
          LinesUnfold(p, size, eol, startOfLine, readSoFar);
          assert lines == before + Pushed(p, size, eol, start, readSoFar);
          break;
        }
        assert lines == before + Pushed(p, size, eol, start, readSoFar);
      }
      LinesUnfold(p, size, eol, startOfLine, readSoFar);
    }
  }

  lemma LineEndUnfold(p: string, k: nat, size: nat, eol: string)
    requires k <= |p|
    ensures LineEnd(p, k, size, eol) ==
      if k == |p| then k else if Stops(p[..k + 1], size, eol) then k + 1 else LineEnd(p, k + 1, size, eol)
  {}

  lemma LinesUnfold(p: string, size: nat, eol: string, start: nat, k: nat)
    requires start <= k <= |p|
    ensures k >= size ==> Lines(p, size, eol, start, k) == []
    ensures k < size && k == |p| ==>
      Lines(p, size, eol, start, k) == if start != k then [p[start..k]] else []
    ensures k < size && k < |p| ==>
      Lines(p, size, eol, start, k)
      == Pushed(p, size, eol, start, k + 1) + Lines(p, size, eol, NewStart(p, eol, start, k + 1), k + 1)
  {}

  // ---------------------------------------------------------------------------
  // One line

  lemma {:induction false} LineEndMeaning(p: string, k: nat, size: nat, eol: string)
    requires k <= |p| && k < size && |eol| <= size
    ensures var n := LineEnd(p, k, size, eol);
      && n <= size
      && (k < |p| ==> k < n)
      && (forall j :: k < j < n ==> !EndsWith(p[..j], eol))
      && (n < |p| && n < size ==> EndsWith(p[..n], eol))
    decreases |p| - k
  {
    if k < |p| && !Stops(p[..k + 1], size, eol) {
      LineEndMeaning(p, k + 1, size, eol);
    }
  }

  /** A line is never empty while bytes are pending. */
  lemma {:induction false} LineEndAdvances(p: string, k: nat, size: nat, eol: string)
    requires k < |p|
    ensures k < LineEnd(p, k, size, eol)
  {
    LineEndUnfold(p, k, size, eol);
  }

  /** With a size below the length of `eol` the size is never met: the line runs on to an end of
      line or to the last byte. */
  lemma {:induction false} LineEndIgnoresSize(p: string, k: nat, size: nat, eol: string)
    requires k <= |p| && size < |eol|
    ensures LineEnd(p, k, size, eol) == |p| || LineEnd(p, k, size, eol) >= |eol|
    decreases |p| - k
  {
    if k < |p| && !Stops(p[..k + 1], size, eol) { LineEndIgnoresSize(p, k + 1, size, eol); }
  }

  lemma CutLineBounds(p: string, budget: nat, eol: string)
    requires budget > 0 && p != ""
    ensures 1 <= CutLine(p, budget, eol) <= budget
    ensures CutLine(p, budget, eol) <= |p|
  {
    if budget >= |eol| {
      LineEndMeaning(p, 0, budget, eol);
    }
  }

  // ---------------------------------------------------------------------------
  // Nothing read is lost

  lemma FlattenCons(line: string, more: seq<string>)
    ensures Flatten([line] + more) == line + Flatten(more)
    ensures Flatten([]) == ""
  {
    FlattenConcat([line], more);
    assert [line][..0] == [] && "" + line == line;
  }

  lemma {:induction false} LinesHold(p: string, size: nat, eol: string, start: nat, k: nat)
    requires start <= k <= |p| && k < size && |eol| <= size
    ensures Flatten(Lines(p, size, eol, start, k)) == p[start..Min(size, |p|)]
    decreases |p| - k
  {
    hide EndsWith;
    hide Flatten;
    if k < |p| {
      var n := k + 1;
      var start' := NewStart(p, eol, start, n);
      var pushed, more := Pushed(p, size, eol, start, n), Lines(p, size, eol, start', n);
      if n < size {
        LinesHold(p, size, eol, start', n);
      }
      FlattenCons(p[start..n], more);
      if EndsWith(p[..n], eol) || n == size {
        assert pushed == [p[start..n]];
        assert Flatten(more) == p[n..Min(size, |p|)];
        assert p[start..n] + p[n..Min(size, |p|)] == p[start..Min(size, |p|)];
      } else {
        assert pushed + more == more;
      }
    } else {
      FlattenCons(p[start..k], []);
      assert [p[start..k]] + [] == [p[start..k]];
    }
  }

  lemma {:induction false} LinesTooShort(p: string, size: nat, eol: string, k: nat)
    requires k <= size <= |p| && size < |eol|
    ensures Lines(p, size, eol, 0, k) == []
    decreases size - k
  {
    if k < size {
      LinesTooShort(p, size, eol, k + 1);
    }
  }

  lemma {:induction false} LinesUntilTimeout(p: string, size: nat, eol: string, k: nat)
    requires k <= |p| < size < |eol|
    ensures Lines(p, size, eol, 0, k) == if p == "" then [] else [p]
    decreases |p| - k
  {
    if k < |p| {
      LinesUntilTimeout(p, size, eol, k + 1);
    } else {
      assert p[0..k] == p;
    }
  }

  /** The lines put together are exactly the bytes taken from the port, unless the buffer
      fills up before it could hold one end of line: then everything read is dropped. */
  lemma ReadlinesLosesNothing(p: string, size: nat, eol: string)
    ensures Flatten(Lines(p, size, eol, 0, 0)) == p[..Min(size, |p|)]
      <==> |eol| <= size || |p| < size || size == 0
  {
    if size == 0 {
    } else if |eol| <= size {
      LinesHold(p, size, eol, 0, 0);
    } else if |p| < size {
      LinesUntilTimeout(p, size, eol, 0);
      if p != "" { assert [p][1..] == []; }
    } else {
      LinesTooShort(p, size, eol, 0);
    }
  }

  // ---------------------------------------------------------------------------
  // readlines against repeated readline

  /** A proper border: a shorter non-empty piece that both begins and ends `eol`. */
  predicate IsBorder(eol: string, b: nat) {
    0 < b < |eol| && eol[..b] == eol[|eol| - b..]
  }

  ghost predicate HasBorder(eol: string) {
    exists b :: IsBorder(eol, b)
  }

  predicate AtLineStart(p: string, start: nat, eol: string) {
    start <= |p| && (start == 0 || EndsWith(p[..start], eol))
  }

  lemma OverlapIsBorder(p: string, eol: string, i: nat, j: nat)
    requires i < j <= |p| && j - i < |eol|
    requires EndsWith(p[..i], eol) && EndsWith(p[..j], eol)
    ensures IsBorder(eol, |eol| - (j - i))
  {
    var b, m := |eol| - (j - i), |eol|;
    var a, c := p[..i][i - m..], p[..j][j - m..];
    assert a == eol && c == eol;
    forall x | 0 <= x < b ensures eol[x] == eol[m - b + x] {
      assert c[x] == p[j - m + x];
      assert a[m - b + x] == p[i - m + (m - b + x)];
    }
    assert eol[..b] == eol[m - b..];
  }

  lemma MatchIsLocal(p: string, eol: string, start: nat, n: nat)
    requires AtLineStart(p, start, eol) && start < n <= |p| && !HasBorder(eol)
    ensures EndsWith(p[..n], eol) <==> EndsWith(p[start..n], eol)
  {
    if n - start >= |eol| {
      assert p[..n][n - |eol|..] == p[start..n][n - start - |eol|..];
    } else if start > 0 && EndsWith(p[..n], eol) {
      OverlapIsBorder(p, eol, start, n);
      assert false;
    }
  }

  lemma EndsWithLength(s: string, eol: string)
    ensures EndsWith(s, eol) ==> |s| >= |eol|
  {}

  /** One more byte of the current line, seen by both searches. */
  lemma SameByte(p: string, size: nat, eol: string, start: nat, k: nat)
    requires AtLineStart(p, start, eol) && !HasBorder(eol)
    requires start <= k < |p| && k < size && |eol| <= size
    ensures var n, budget := k + 1, size - start;
      && (EndsWith(p[..n], eol) <==> EndsWith(p[start..n], eol))
      && (EndsWith(p[..n], eol) ==> budget >= |eol| && Stops(p[start..][..n - start], budget, eol))
      && (budget >= |eol| && !EndsWith(p[..n], eol) ==>
            (Stops(p[start..][..n - start], budget, eol) <==> n == size))
  {
    MatchIsLocal(p, eol, start, k + 1);
    hide EndsWith;
    EndsWithLength(p[start..k + 1], eol);
    assert p[start..][..k + 1 - start] == p[start..k + 1];
  }

  /** While no match ends inside the current line, both searches agree on where it ends. */
  lemma {:induction false} SameLine(p: string, size: nat, eol: string, start: nat, k: nat)
    requires AtLineStart(p, start, eol) && !HasBorder(eol)
    requires start <= k <= |p| && k < size && |eol| <= size && start < |p|
    ensures var e := start + (if size - start >= |eol| then LineEnd(p[start..], k - start, size - start, eol)
                              else Min(size - start, |p| - start));
      && start < e <= |p| && e <= size
      && Lines(p, size, eol, start, k) == [p[start..e]] + Lines(p, size, eol, e, e)
      && (e < |p| && e < size ==> AtLineStart(p, e, eol))
    decreases |p| - k
  {
    hide EndsWith;
    hide Stops;
    if k < |p| {
      var n := k + 1;
      SameByte(p, size, eol, start, k);
      if !EndsWith(p[..n], eol) && n < size {
        SameLine(p, size, eol, start, n);
        assert Pushed(p, size, eol, start, n) == [];
      } else {
        assert Pushed(p, size, eol, start, n) == [p[start..n]];
        assert Lines(p, size, eol, NewStart(p, eol, start, n), n) == Lines(p, size, eol, n, n);
      }
    }
  }

  lemma {:induction false} LinesFollowReadline(p: string, size: nat, eol: string, start: nat)
    requires !HasBorder(eol) && |eol| <= size && start <= size && start <= |p|
    requires start < |p| && start < size ==> AtLineStart(p, start, eol)
    ensures Lines(p, size, eol, start, start) == RepeatCut(p[start..], size - start, eol)
    decreases |p| - start
  {
    hide EndsWith;
    hide HasBorder;
    hide LineEnd;
    hide Pushed;
    if start < |p| && start < size {
      SameLine(p, size, eol, start, start);
      var n := CutLine(p[start..], size - start, eol);
      CutLineBounds(p[start..], size - start, eol);
      LinesFollowReadline(p, size, eol, start + n);
      assert p[start..][n..] == p[start + n..];
      assert p[start..][..n] == p[start..start + n];
    }
  }

  lemma {:induction false} FirstLineBound(p: string, size: nat, eol: string, start: nat, k: nat, m: nat)
    requires start <= k < m <= |p| && m < size && EndsWith(p[..m], eol)
    ensures |Lines(p, size, eol, start, k)| > 0 && |Lines(p, size, eol, start, k)[0]| <= m - start
    decreases m - k
  {
    var n := k + 1;
    if n < m && !EndsWith(p[..n], eol) {
      FirstLineBound(p, size, eol, start, n, m);
    }
  }

  lemma ReadlinesSecondLine(p: string, eol: string, b: nat)
    requires IsBorder(eol, b) && p == eol + eol[b..] + "x"
    ensures var lines := Lines(p, |p| + 1, eol, 0, 0);
      |lines| > 1 && |lines[1]| <= |eol| - b
  {
    hide Lines;
    var m, c := |eol|, |eol| - b;
    FirstMatch(p, |p| + 1, eol, 0);
    assert p[..m + c] == eol + eol[b..];
    assert p[..m + c][c..] == eol[c..] + eol[b..] == eol[..b] + eol[b..] == eol;
    FirstLineBound(p, |p| + 1, eol, m, m, m + c);
  }

  lemma ReadlineSecondLine(p: string, eol: string, b: nat)
    requires 0 < b < |eol| && p == eol + eol[b..] + "x"
    ensures var lines := RepeatReadline(p, |p| + 1, eol);
      |lines| > 1 && |lines[1]| == |eol| - b + 1
  {
    hide LineEnd;
    var size, rest := |p| + 1, eol[b..] + "x";
    LineEndOfPrefix(p, size, eol, 0);
    assert p[|eol|..] == rest;
    LineEndOfTail(rest, size - |eol|, eol, 0);
    var again := RepeatReadline(rest, size - |eol|, eol);
    assert RepeatReadline(p, size, eol) == [p[..|eol|]] + again;
    assert again[0] == rest[..|rest|];
  }

  /** An end of line that overlaps itself is found by `readlines` across the line it has just
      finished, where `readline` starts afresh. */
  lemma BorderSeparates(eol: string, b: nat)
    requires IsBorder(eol, b)
    ensures var p := eol + eol[b..] + "x";
      Lines(p, |p| + 1, eol, 0, 0) != RepeatReadline(p, |p| + 1, eol) && !RunsOver(p, |p| + 1, eol)
  {
    hide Lines;
    hide RepeatReadline;
    hide RunsOver;
    var p := eol + eol[b..] + "x";
    ReadlinesSecondLine(p, eol, b);
    ReadlineSecondLine(p, eol, b);
    RoomEnough(p, |p| + 1, eol);
  }

  lemma {:induction false} FirstMatch(p: string, size: nat, eol: string, k: nat)
    requires 0 < |eol| <= |p| && |eol| <= size && p[..|eol|] == eol && k < |eol|
    ensures Lines(p, size, eol, 0, k) == [eol] + Lines(p, size, eol, |eol|, |eol|)
    decreases |eol| - k
  {
    if k + 1 < |eol| {
      FirstMatch(p, size, eol, k + 1);
    } else {
      assert p[0..|eol|] == eol;
    }
  }

  lemma {:induction false} LineEndOfPrefix(p: string, size: nat, eol: string, k: nat)
    requires 0 < |eol| <= |p| && |eol| <= size && p[..|eol|] == eol && k < |eol|
    ensures LineEnd(p, k, size, eol) == |eol|
    decreases |eol| - k
  {
    if k + 1 < |eol| {
      LineEndOfPrefix(p, size, eol, k + 1);
    }
  }

  lemma {:induction false} LineEndOfTail(q: string, size: nat, eol: string, k: nat)
    requires k <= |q| <= |eol| && |q| < size
    ensures LineEnd(q, k, size, eol) == |q|
    decreases |q| - k
  {
    if k < |q| {
      LineEndOfTail(q, size, eol, k + 1);
    }
  }

  // ---------------------------------------------------------------------------
  // The budget runs out

  /** A budget for all that is pending never runs over. */
  lemma {:induction false} RoomEnough(p: string, budget: nat, eol: string)
    requires |p| <= budget
    ensures !RunsOver(p, budget, eol)
    decreases |p|
  {
    hide LineEnd;
    if p != "" {
      var n := LineEnd(p, 0, budget, eol);
      LineEndAdvances(p, 0, budget, eol);
      if n < budget { RoomEnough(p[n..], budget - n, eol); }
    }
  }

  /** Cutting by hand is what `readline` does exactly as long as no call runs over. */
  lemma {:induction false} CutIsReadlineIff(p: string, budget: nat, eol: string)
    ensures RepeatCut(p, budget, eol) == RepeatReadline(p, budget, eol) <==> !RunsOver(p, budget, eol)
    decreases |p|
  {
    hide LineEnd;
    if budget > 0 && p != "" {
      var n := LineEnd(p, 0, budget, eol);
      LineEndAdvances(p, 0, budget, eol);
      CutLineBounds(p, budget, eol);
      if budget >= |eol| {
        CutIsReadlineIff(p[n..], budget - n, eol);
        assert RepeatCut(p, budget, eol)[1..] == RepeatCut(p[n..], budget - n, eol);
        assert RepeatReadline(p, budget, eol)[1..] == if n < budget then RepeatReadline(p[n..], budget - n, eol) else [];
      } else {
        LineEndIgnoresSize(p, 0, budget, eol);
        assert RepeatCut(p[Min(budget, |p|)..], budget - Min(budget, |p|), eol) == [];
        assert |RepeatCut(p, budget, eol)[0]| == Min(budget, |p|);
        assert |RepeatReadline(p, budget, eol)[0]| == n;
        if n < budget { assert p[n..] == ""; }
      }
    }
  }

  lemma SmallSizeAgreesIff(p: string, size: nat, eol: string)
    requires size < |eol|
    ensures Lines(p, size, eol, 0, 0) == RepeatReadline(p, size, eol) <==> |p| < size || size == 0
  {
    hide LineEnd;
    if size > 0 {
      if |p| < size {
        LinesUntilTimeout(p, size, eol, 0);
        LineEndIgnoresSize(p, 0, size, eol);
        assert p[..|p|] == p && p[|p|..] == "";
      } else {
        LinesTooShort(p, size, eol, 0);
      }
      hide Lines;
    }
  }

  /** For an `eol` without border and any stream and size: `readlines` gives the lines that
      repeated `readline` gives exactly when no `readline` runs over its buffer; with a size below
      the length of `eol`, exactly when the bytes run out before the size. */
  lemma AgreesIff(p: string, size: nat, eol: string)
    requires !HasBorder(eol)
    ensures Lines(p, size, eol, 0, 0) == RepeatReadline(p, size, eol)
      <==> if |eol| <= size then !RunsOver(p, size, eol) else |p| < size || size == 0
  {
    hide HasBorder;
    hide LineEnd;
    hide Lines;
    hide RepeatReadline;
    hide RepeatCut;
    hide RunsOver;
    if |eol| <= size {
      LinesFollowReadline(p, size, eol, 0);
      assert p[0..] == p;
      CutIsReadlineIff(p, size, eol);
    } else {
      SmallSizeAgreesIff(p, size, eol);
    }
  }

  /** The two agree wherever no `readline` runs over, on every stream and for every buffer that
      can hold an end of line, exactly when no proper piece of `eol` both begins and ends it. */
  lemma ReadlinesIsRepeatedReadline(eol: string)
    ensures !HasBorder(eol) <==>
      forall p: string, size: nat :: |eol| <= size && !RunsOver(p, size, eol) ==>
        Lines(p, size, eol, 0, 0) == RepeatReadline(p, size, eol)
  {
    hide Lines;
    hide RepeatReadline;
    hide RunsOver;
    if !HasBorder(eol) {
      forall p: string, size: nat | |eol| <= size && !RunsOver(p, size, eol)
        ensures Lines(p, size, eol, 0, 0) == RepeatReadline(p, size, eol)
      {
        AgreesIff(p, size, eol);
      }
    } else {
      var b :| IsBorder(eol, b);
      BorderSeparates(eol, b);
    }
  }

  lemma {:induction false} ShortEolNeverRunsOver(p: string, budget: nat, eol: string)
    requires |eol| <= 1
    ensures !RunsOver(p, budget, eol)
    decreases |p|
  {
    hide LineEnd;
    if budget > 0 && p != "" {
      var n := LineEnd(p, 0, budget, eol);
      LineEndAdvances(p, 0, budget, eol);
      if n < budget { ShortEolNeverRunsOver(p[n..], budget - n, eol); }
    }
  }

  /** One whole line, then a budget of one byte for two: the second `readline` runs over. */
  lemma LastByteRunsOver(eol: string)
    requires |eol| >= 2
    ensures RunsOver(eol + "xx", |eol| + 1, eol)
  {
    hide LineEnd;
    var p := eol + "xx";
    assert p[..|eol|] == eol && p[|eol|..] == "xx";
    LineEndOfPrefix(p, |eol| + 1, eol, 0);
    LineEndAdvances(p, 0, |eol| + 1, eol);
  }

  /** They agree on every stream and every size that can hold an end of line only for an `eol` of
      at most one byte. */
  lemma AlwaysAgreesIff(eol: string)
    ensures |eol| <= 1 <==>
      forall p: string, size: nat :: |eol| <= size ==> Lines(p, size, eol, 0, 0) == RepeatReadline(p, size, eol)
  {
    hide Lines;
    hide RepeatReadline;
    hide RunsOver;
    if |eol| <= 1 {
      forall p: string, size: nat | |eol| <= size ensures Lines(p, size, eol, 0, 0) == RepeatReadline(p, size, eol) {
        ShortEolNeverRunsOver(p, size, eol);
        AgreesIff(p, size, eol);
      }
    } else if b :| IsBorder(eol, b) {
      BorderSeparates(eol, b);
    } else {
      LastByteRunsOver(eol);
      AgreesIff(eol + "xx", |eol| + 1, eol);
    }
  }

  lemma CdIsOneLine()
    ensures RepeatReadline("cd", 1, "ab") == ["cd"]
  {
    LineEndIgnoresSize("cd", 0, 1, "ab");
    assert "cd"[..2] == "cd";
  }

  /** Such a stream: with three bytes to spend, `readlines` gives "ab" and "c", but the second
      `readline`, asked for one byte, takes two. */
  lemma SecondReadlineTakesMore()
    ensures Lines("abcd", 3, "ab", 0, 0) == ["ab", "c"]
    ensures RepeatReadline("abcd", 3, "ab") == ["ab", "cd"]
  {
    hide LineEnd;
    hide Lines;
    var p, eol := "abcd", "ab";
    FirstMatch(p, 3, eol, 0);
    LinesUnfold(p, 3, eol, 2, 2);
    LinesUnfold(p, 3, eol, 2, 3);
    assert p[..2] == eol && p[2..3] == "c" && p[2..] == "cd" && p[..3] == "abc" && "abc"[1..] == "bc";
    LineEndOfPrefix(p, 3, eol, 0);
    CdIsOneLine();
  }

  /** The line is complete and nothing in it was an earlier end of line. */
  predicate EndsAtFirst(line: string, eol: string) {
    EndsWith(line, eol) && forall k :: 0 < k < |line| ==> !EndsWith(line[..k], eol)
  }

  lemma LineEndsAtFirst(p: string, budget: nat, eol: string)
    requires p != "" && CutLine(p, budget, eol) < Min(budget, |p|)
    ensures EndsAtFirst(p[..CutLine(p, budget, eol)], eol)
  {
    var n := CutLine(p, budget, eol);
    LineEndMeaning(p, 0, budget, eol);
    hide EndsWith;
    forall k | 0 < k < n ensures !EndsWith(p[..n][..k], eol) {
      assert p[..n][..k] == p[..k];
    }
  }

  predicate AllButLastEndAtFirst(lines: seq<string>, eol: string) {
    forall i :: 0 <= i < |lines| - 1 ==> EndsAtFirst(lines[i], eol)
  }

  lemma {:induction false} LinesEndAtFirst(p: string, budget: nat, eol: string)
    ensures AllButLastEndAtFirst(RepeatCut(p, budget, eol), eol)
    decreases |p|
  {
    hide EndsAtFirst;
    if budget > 0 && p != "" {
      var n := CutLine(p, budget, eol);
      CutLineBounds(p, budget, eol);
      var more := RepeatCut(p[n..], budget - n, eol);
      LinesEndAtFirst(p[n..], budget - n, eol);
      var lines := RepeatCut(p, budget, eol);
      assert lines == [p[..n]] + more;
      if n < Min(budget, |p|) {
        LineEndsAtFirst(p, budget, eol);
      } else {
        assert more == [];
      }
      forall i | 0 <= i < |lines| - 1 ensures EndsAtFirst(lines[i], eol) {
        if i > 0 { assert lines[i] == more[i - 1]; } else { assert lines[i] == p[..n]; }
      }
    }
  }

  /** With a border-free `eol`, every line but the last stops at its first end of line. */
  lemma ReadlinesEndsAtFirst(p: string, size: nat, eol: string)
    requires !HasBorder(eol) && |eol| <= size
    ensures AllButLastEndAtFirst(Lines(p, size, eol, 0, 0), eol)
  {
    LinesFollowReadline(p, size, eol, 0);
    assert p[0..] == p;
    LinesEndAtFirst(p, size, eol);
  }
}
