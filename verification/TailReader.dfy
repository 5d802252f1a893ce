/** Reading the last line of the trace from its end, one chunk at a time. */
module TailReader {
  import opened Texts
  import opened Entities

  const LF: Byte := 10
  const CR: Byte := 13

  predicate IsBreak(b: Byte) { b == LF || b == CR }

  /** `rstrip(b"\r\n")`. */
  function Stripped(s: seq<Byte>): (r: seq<Byte>)
    ensures r <= s
    ensures r != [] ==> !IsBreak(r[|r| - 1])
    ensures forall i | |r| <= i < |s| :: IsBreak(s[i])
  {
    if s == [] || !IsBreak(s[|s| - 1]) then s else Stripped(s[..|s| - 1])
  }

  /** `rfind(b"\n") + 1`: where the last line of s begins. */
  function LineStart(s: seq<Byte>): (n: nat)
    ensures n <= |s|
    ensures n > 0 ==> s[n - 1] == LF
    ensures forall i | n <= i < |s| :: s[i] != LF
  {
    if s == [] then 0 else if s[|s| - 1] == LF then |s| else LineStart(s[..|s| - 1])
  }

  /** The file read as a whole: it consists of whole lines, the given one, and line breaks. */
  predicate IsLastLine(content: seq<Byte>, line: seq<Byte>) {
    exists start, end | 0 <= start < end <= |content| ::
      LastLineAt(content, start, end) && line == content[start..end]
  }

  predicate LastLineAt(content: seq<Byte>, start: int, end: int)
    requires 0 <= start < end <= |content|
  {
    && (start > 0 ==> content[start - 1] == LF)
    && (forall i | start <= i < end :: content[i] != LF)
    && !IsBreak(content[end - 1])
    && (forall i | end <= i < |content| :: IsBreak(content[i]))
  }

  /** A file has one last line, or it consists of line breaks alone. */
  lemma LastLineIsUnique(content: seq<Byte>, a: seq<Byte>, b: seq<Byte>)
    requires IsLastLine(content, a) && IsLastLine(content, b)
    ensures a == b
  {
    var s, e :| 0 <= s < e <= |content| && LastLineAt(content, s, e) && a == content[s..e];
    var t, f :| 0 <= t < f <= |content| && LastLineAt(content, t, f) && b == content[t..f];
    assert e == f;
    assert s == t;
  }

  /** Once a line break, or the start of the file, is in the buffer, so is the last line. */
  lemma BufferHoldsLastLine(content: seq<Byte>, position: nat)
    requires position <= |content|
    requires LineStart(Stripped(content[position..])) > 0 || position == 0
    ensures var stripped := Stripped(content[position..]);
            var line := stripped[LineStart(stripped)..];
            if line == [] then stripped == [] && position == 0 else IsLastLine(content, line)
  {
    var buffer := content[position..];
    var stripped := Stripped(buffer);
    var start := LineStart(stripped);
    if stripped[start..] != [] {
      var s, e := position + start, position + |stripped|;
      forall i | e <= i < |content|
        ensures IsBreak(content[i])
      {
        assert content[i] == buffer[i - position];
      }
      assert LastLineAt(content, s, e);
      assert stripped[start..] == content[s..e];
    }
  }

  /** `_read_last_event` up to the parsing of the line: the last line of the file, whatever
      the file holds and however it is cut into chunks; None if there is none. */
  method ReadLastLine(content: seq<Byte>, chunkLimit: nat) returns (line: Option<seq<Byte>>)
    requires chunkLimit > 0
    ensures line.Some? ==> IsLastLine(content, line.value)
    ensures line.None? <==> forall i | 0 <= i < |content| :: IsBreak(content[i])
  {
    var position := |content|;
    var buffer: seq<Byte> := [];
    while position > 0
      invariant 0 <= position <= |content| && buffer == content[position..]
      invariant position == 0 ==> content == []
    {
      var chunk := if chunkLimit < position then chunkLimit else position;
      position := position - chunk;
      buffer := content[position..position + chunk] + buffer;
      assert buffer == content[position..];
      var stripped := Stripped(buffer);
      var start := LineStart(stripped);
      if start > 0 || position == 0 {
        BufferHoldsLastLine(content, position);
        var rest := stripped[start..];
        if rest == [] {
          assert buffer == content;
          return None;
        }
        NotAllBreaks(content, rest);
        return Some(rest);
      }
    }
    return None;
  }

  lemma NotAllBreaks(content: seq<Byte>, line: seq<Byte>)
    requires IsLastLine(content, line)
    ensures exists i | 0 <= i < |content| :: !IsBreak(content[i])
  {
    var s, e :| 0 <= s < e <= |content| && LastLineAt(content, s, e) && line == content[s..e];
    assert !IsBreak(content[e - 1]);
  }

  // ----- The last line as a full read sees it -----

  /** Where the last line of s begins if any line break ends a line. */
  function SegmentStart(s: seq<Byte>): (n: nat)
    ensures n <= |s|
    ensures n > 0 ==> IsBreak(s[n - 1])
    ensures forall i | n <= i < |s| :: !IsBreak(s[i])
  {
    if s == [] then 0 else if IsBreak(s[|s| - 1]) then |s| else SegmentStart(s[..|s| - 1])
  }

  /** The last line `read_trace` parses: it opens the file as text, where a lone CR ends a line
      too, and skips the lines that are blank. */
  function LastRead(s: seq<Byte>, blank: seq<Byte> -> bool): (r: Option<seq<Byte>>)
    ensures r.Some? ==> !blank(r.value) && forall i | 0 <= i < |r.value| :: !IsBreak(r.value[i])
    decreases |s|
  {
    var start := SegmentStart(s);
    var line := s[start..];
    if !blank(line) then Some(line)
    else if start == 0 then None
    else LastRead(s[..start - 1], blank)
  }

  /** What the tail reader finds, in one expression. */
  function TailLine(content: seq<Byte>): Option<seq<Byte>> {
    var stripped := Stripped(content);
    if stripped == [] then None else Some(stripped[LineStart(stripped)..])
  }

  lemma TailLineIsLast(content: seq<Byte>, line: seq<Byte>)
    ensures IsLastLine(content, line) <==> TailLine(content) == Some(line)
  {
    assert content[0..] == content;
    BufferHoldsLastLine(content, 0);
    if IsLastLine(content, line) {
      NotAllBreaks(content, line);
      LastLineIsUnique(content, line, TailLine(content).value);
    }
  }

  lemma {:induction false} TrailingBreaksAreSkipped(s: seq<Byte>, blank: seq<Byte> -> bool)
    requires blank([])
    ensures LastRead(s, blank) == LastRead(Stripped(s), blank)
  {
    if s != [] && IsBreak(s[|s| - 1]) {
      assert s[|s|..] == [];
      TrailingBreaksAreSkipped(s[..|s| - 1], blank);
    }
  }

  /** Exactly when the two agree on the last line: there is none, or it is not blank and has no
      CR within. The lines recorders write are JSON texts, which are neither. */
  lemma TailAgreesIff(content: seq<Byte>, blank: seq<Byte> -> bool)
    requires blank([])
    ensures LastRead(content, blank) == TailLine(content) <==>
            (TailLine(content).Some? ==> CR !in TailLine(content).value && !blank(TailLine(content).value))
  {
    TrailingBreaksAreSkipped(content, blank);
    hide LastRead, SegmentStart;
    var t := Stripped(content);
    if t == [] {
      NothingRead(blank);
    } else {
      var line := t[LineStart(t)..];
      hide Stripped, LineStart;
      if CR in line {
        var i :| 0 <= i < |line| && line[i] == CR;
        assert IsBreak(line[i]);
      } else {
        SegmentIsLine(t);
        if !blank(line) {
          ReadAtOnce(t, blank);
        }
      }
    }
  }

  lemma NothingRead(blank: seq<Byte> -> bool)
    requires blank([])
    ensures LastRead([], blank) == None
  {
    var nothing: seq<Byte> := [];
    assert nothing[0..] == [];
  }

  lemma ReadAtOnce(s: seq<Byte>, blank: seq<Byte> -> bool)
    requires !blank(s[SegmentStart(s)..])
    ensures LastRead(s, blank) == Some(s[SegmentStart(s)..])
  {
  }

  /** Without a CR in it, the last line is the same whichever breaks end lines. */
  lemma SegmentIsLine(t: seq<Byte>)
    requires CR !in t[LineStart(t)..]
    ensures SegmentStart(t) == LineStart(t)
  {
    hide SegmentStart, LineStart;
    assert forall i | LineStart(t) <= i < |t| :: t[i] == t[LineStart(t)..][i - LineStart(t)] && t[i] != CR;
  }
}
