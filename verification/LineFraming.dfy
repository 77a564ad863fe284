/**
 Bounded, cancellation-safe line reading from a stream that arrives in arbitrary pieces.
 */
module LineFraming {
  import opened Utf8

  const NEWLINE: Byte := 0x0a

  /** What awaiting the reader's buffer yields: some bytes, or the wait is cancelled by another event. */
  datatype Arrival = Bytes(data: Bytes) | Interrupted

  datatype ReadResult = Read(count: nat) | TooLong | Cancelled

  function Content(arrivals: seq<Arrival>): Bytes {
    if arrivals == [] then []
    else (if arrivals[0].Bytes? then arrivals[0].data else []) + Content(arrivals[1..])
  }

  predicate NonEmpty(arrivals: seq<Arrival>) {
    forall a :: a in arrivals ==> a.Bytes? ==> a.data != []
  }

  // ---------------------------------------------------------------- the stream, split into lines

  predicate IsLine(s: Bytes) {
    s != [] && s[|s| - 1] == NEWLINE && forall i :: 0 <= i < |s| - 1 ==> s[i] != NEWLINE
  }

  function FirstNewline(s: Bytes): (r: nat)
    ensures r <= |s| && (r < |s| ==> s[r] == NEWLINE) && forall i :: 0 <= i < r ==> s[i] != NEWLINE
  {
    if s == [] || s[0] == NEWLINE then 0 else 1 + FirstNewline(s[1..])
  }

  /** The length of the first line, its newline included; the whole rest when no newline is left. */
  function LineLength(s: Bytes): (r: nat)
    ensures r <= |s| && (s != [] ==> r > 0)
  {
    var n := FirstNewline(s);
    if n < |s| then n + 1 else n
  }

  /** Split after each newline, with a final unterminated piece. */
  function Lines(s: Bytes): (r: seq<Bytes>)
    ensures forall i :: 0 <= i < |r| ==> r[i] != []
    ensures forall i :: 0 <= i < |r| - 1 ==> IsLine(r[i])
    decreases |s|
  {
    if s == [] then []
    else
      var n := LineLength(s);
      var rest := Lines(s[n..]);
      [s[..n]] + rest
  }

  function Joined(lines: seq<Bytes>): Bytes {
    if lines == [] then [] else lines[0] + Joined(lines[1..])
  }

  /** The split loses nothing. */
  lemma {:induction false} LinesJoin(s: Bytes)
    ensures Joined(Lines(s)) == s
    decreases |s|
  {
    if s != [] {
      var n := LineLength(s);
      LinesJoin(s[n..]);
      assert Lines(s)[1..] == Lines(s[n..]);
      assert s[..n] + s[n..] == s;
    }
  }

  lemma FirstNewlineIs(s: Bytes, n: nat)
    requires n <= |s| && (n < |s| ==> s[n] == NEWLINE) && forall i :: 0 <= i < n ==> s[i] != NEWLINE
    ensures FirstNewline(s) == n
  {
  }

  predicate Unfinished(line: Bytes) {
    FirstNewline(line) == |line|
  }

  lemma FirstNewlineConcat(a: Bytes, b: Bytes)
    ensures FirstNewline(a + b) == if Unfinished(a) then |a| + FirstNewline(b) else FirstNewline(a)
  {
    var n := if Unfinished(a) then |a| + FirstNewline(b) else FirstNewline(a);
    forall i | 0 <= i < n ensures (a + b)[i] != NEWLINE {
      if i < |a| {
        assert (a + b)[i] == a[i];
      } else {
        assert (a + b)[i] == b[i - |a|];
      }
    }
    FirstNewlineIs(a + b, n);
  }

  /** One buffer decides the line exactly when it contains a newline. */
  lemma ChunkDecides(before: Bytes, bytes: Bytes, rest: Bytes)
    requires Unfinished(before)
    ensures var whole := before + bytes + rest;
            && |before| + LineLength(bytes) <= LineLength(whole)
            && (!Unfinished(bytes) ==> LineLength(whole) == |before| + LineLength(bytes))
    ensures Unfinished(bytes) ==> Unfinished(before + bytes)
  {
    FirstNewlineConcat(before, bytes);
    FirstNewlineConcat(before + bytes, rest);
  }

  lemma PrefixOfConcat(before: Bytes, bytes: Bytes, rest: Bytes, count: nat)
    requires count <= |bytes|
    ensures before + bytes[..count] == (before + bytes + rest)[..|before| + count]
    ensures before + bytes[..count] + (bytes[count..] + rest) == before + bytes + rest
  {
  }

  // ---------------------------------------------------------------- the reader

  class BufReader {
    var arrivals: seq<Arrival>

    constructor (arrivals: seq<Arrival>)
      ensures this.arrivals == arrivals
    {
      this.arrivals := arrivals;
    }

    /** Drop `count` bytes of the current buffer. */
    method Consume(count: nat)
      requires arrivals != [] && arrivals[0].Bytes? && 0 < count <= |arrivals[0].data| && NonEmpty(arrivals)
      modifies this
      ensures Content(arrivals) == old(arrivals[0].data)[count..] + Content(old(arrivals)[1..]) && NonEmpty(arrivals)
      ensures |arrivals| <= |old(arrivals)| && (count == |old(arrivals[0].data)| ==> |arrivals| < |old(arrivals)|)
    {
      var data := arrivals[0].data;
      if count == |data| {
        assert data[count..] == [];
        arrivals := arrivals[1..];
      } else {
        var rest := [Arrival.Bytes(data[count..])] + arrivals[1..];
        assert rest[1..] == arrivals[1..];
        arrivals := rest;
      }
    }

    method NextInterrupt()
      requires arrivals != [] && arrivals[0].Interrupted? && NonEmpty(arrivals)
      modifies this
      ensures Content(arrivals) == Content(old(arrivals)) && NonEmpty(arrivals) && |arrivals| < |old(arrivals)|
    {
      arrivals := arrivals[1..];
    }

    /** Extend the caller's partial line until its newline, the end of input, or an interruption. */
    method ReadLineAppend(line: Bytes, limit: nat) returns (line': Bytes, r: ReadResult)
      requires NonEmpty(arrivals) && Unfinished(line) && |line| <= limit
      modifies this
      ensures NonEmpty(arrivals) && |line'| <= limit && |arrivals| <= |old(arrivals)|
      ensures line' + Content(arrivals) == line + Content(old(arrivals))
      ensures r.Read? ==> r.count == |line'| == LineLength(line + Content(old(arrivals)))
      ensures r.Cancelled? ==> Unfinished(line') && |arrivals| < |old(arrivals)|
      ensures r.TooLong? ==> LineLength(line + Content(old(arrivals))) > limit
    {
      line' := line;
      ghost var whole := line + Content(arrivals);
      while true
        invariant NonEmpty(arrivals) && Unfinished(line') && |line'| <= limit
        invariant line' + Content(arrivals) == whole && |arrivals| <= |old(arrivals)|
        decreases |arrivals|
      {
        if arrivals == [] {
          assert whole == line';
          return line', Read(|line'|);
        }
        if arrivals[0].Interrupted? {
          NextInterrupt();
          return line', Cancelled;
        }
        var bytes := arrivals[0].data;
        var count := LineLength(bytes);
        ghost var before, rest := line', Content(arrivals[1..]);
        assert before + bytes + rest == before + Content(arrivals);
        ChunkDecides(before, bytes, rest);
        PrefixOfConcat(before, bytes, rest, count);
        if count > limit - |line'| {
          return line', TooLong;
        }
        line' := line' + bytes[..count];
        Consume(count);
        if FirstNewline(bytes) < |bytes| {
          return line', Read(|line'|);
        }
        assert bytes[..count] == bytes;
      }
    }
  }

  // ---------------------------------------------------------------- a connection's reading loop

  function AllFit(lines: seq<Bytes>, limit: nat): (r: nat)
    ensures r <= |lines| && (forall i :: 0 <= i < r ==> |lines[i]| <= limit) && (r < |lines| ==> |lines[r]| > limit)
  {
    if lines == [] || |lines[0]| > limit then 0 else 1 + AllFit(lines[1..], limit)
  }

  /** Repeated calls that take the buffer after each line, whatever the chunking and the interruptions: exactly the
      stream's lines, stopping with an error exactly at the first line longer than the limit. */
  method ReadAll(reader: BufReader, limit: nat) returns (lines: seq<Bytes>, failed: bool)
    requires NonEmpty(reader.arrivals)
    modifies reader
    ensures lines == Lines(Content(old(reader.arrivals)))[..AllFit(Lines(Content(old(reader.arrivals))), limit)]
    ensures failed <==> |lines| < |Lines(Content(old(reader.arrivals)))|
  {
    lines, failed := [], false;
    var line: Bytes := [];
    ghost var stream := Content(reader.arrivals);
    ghost var todo := stream;
    while true
      invariant NonEmpty(reader.arrivals) && Unfinished(line) && |line| <= limit
      invariant line + Content(reader.arrivals) == todo
      invariant Lines(stream) == lines + Lines(todo)
      invariant forall i :: 0 <= i < |lines| ==> |lines[i]| <= limit
      decreases |todo|, |reader.arrivals|
    {
      var r: ReadResult;
      line, r := reader.ReadLineAppend(line, limit);
      match r
      case Cancelled =>
      case TooLong =>
        assert Lines(todo)[0] == todo[..LineLength(todo)];
        FitPrefix(Lines(stream), |lines|, limit);
        return lines, true;
      case Read(count) =>
        if count == 0 {
          FitPrefix(Lines(stream), |lines|, limit);
          return lines, false;
        }
        TakeLine(lines, todo, line, Content(reader.arrivals));
        lines, todo := lines + [line], Content(reader.arrivals);
        line := [];
    }
  }

  lemma TakeLine(lines: seq<Bytes>, todo: Bytes, line: Bytes, rest: Bytes)
    requires todo != [] && line + rest == todo && |line| == LineLength(todo)
    ensures lines + Lines(todo) == (lines + [line]) + Lines(rest)
  {
    assert line == todo[..LineLength(todo)] && rest == todo[LineLength(todo)..];
    assert Lines(todo) == [line] + Lines(rest);
  }

  lemma {:induction false} FitPrefix(lines: seq<Bytes>, n: nat, limit: nat)
    requires n <= |lines| && (forall i :: 0 <= i < n ==> |lines[i]| <= limit) && (n < |lines| ==> |lines[n]| > limit)
    ensures AllFit(lines, limit) == n
  {
  }
}
