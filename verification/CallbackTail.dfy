/**
 What a callback carries of a finished task's output: boundary-safe cuts of the ring snapshot.
 */
module CallbackTail {
  import opened Utf8
  import opened OutputRing

  const CALLBACK_OUTPUT_MAX_BYTES: nat := 200 * 1024

  /** The three bytes of the ellipsis, then "[truncated]". */
  const MARKER: Bytes := [0xe2, 0x80, 0xa6, 0x5b, 0x74, 0x72, 0x75, 0x6e, 0x63, 0x61, 0x74, 0x65, 0x64, 0x5d]

  method Tail(data: Bytes, max: nat) returns (r: Bytes)
    ensures r == LongestTail(data, max)
  {
    var start := if |data| < max then 0 else |data| - max;
    while start < |data| && IsContinuation(data[start])
      invariant start <= |data| && FirstBoundary(data, start) == TailStart(data, max)
    {
      start := start + 1;
    }
    return data[start..];
  }

  /** The output fields of the payload, from a snapshot of the ring and the total ever written. */
  method PayloadOutput(data: Bytes, total: nat, maxOutput: nat) returns (output: Bytes, truncated: bool)
    ensures output == LongestTail(data, maxOutput) && (truncated <==> |output| < total)
  {
    output := Tail(data, maxOutput);
    truncated := |output| < total;
  }

  /** Snapshot and payload cut together give the longest whole-character tail of the whole stream that fits every
      budget on the way, and `truncated` is false exactly when that is the entire stream. */
  method BuildCallbackOutput(buffer: OutputBuffer, maxOutput: nat) returns (output: Bytes, truncated: bool)
    requires buffer.Valid()
    ensures output == LongestTail(buffer.stream, Min(Min(buffer.maxBytes, CALLBACK_OUTPUT_MAX_BYTES), maxOutput))
    ensures IsLongestTail(output, buffer.stream, Min(Min(buffer.maxBytes, CALLBACK_OUTPUT_MAX_BYTES), maxOutput))
    ensures WellFormed(output)
    ensures !truncated <==> output == buffer.stream
  {
    var data, total := buffer.SnapshotTail(CALLBACK_OUTPUT_MAX_BYTES);
    output, truncated := PayloadOutput(data, total, maxOutput);
    ghost var budget := Min(Min(buffer.maxBytes, CALLBACK_OUTPUT_MAX_BYTES), maxOutput);
    TailOfTail(buffer.stream, Min(buffer.maxBytes, CALLBACK_OUTPUT_MAX_BYTES), maxOutput);
    TailIsLongest(buffer.stream, budget, output);
    WholeTail(buffer.stream, budget);
  }

  // ---------------------------------------------------------------- clamped text

  /** `d` is the longest whole-character prefix of `s` that fits `max`. */
  ghost predicate IsLongestHead(d: Bytes, s: Bytes, max: nat) {
    && |d| <= max && |d| <= |s| && d == s[..|d|] && Boundary(s, |d|)
    && forall j: nat :: |d| < j <= |s| && Boundary(s, j) ==> j > max
  }

  method ClampStr(s: Bytes, max: nat) returns (r: Bytes)
    requires WellFormed(s)
    ensures |s| <= max ==> r == s
    ensures |s| > max ==> exists d :: IsLongestHead(d, s, max) && WellFormed(d) && r == d + MARKER
  {
    if |s| <= max {
      return s;
    }
    StartIsBoundary(s);
    var end := max;
    while end > 0 && !Boundary(s, end)
      invariant end <= max && forall j: nat :: end < j <= max ==> !Boundary(s, j)
    {
      end := end - 1;
    }
    assert IsLongestHead(s[..end], s, max);
    CutWellFormed(s, end);
    return s[..end] + MARKER;
  }

  function ClampedTail(s: Bytes, max: nat): Bytes {
    if |s| <= max then s else MARKER + LongestTail(s, max)
  }

  method ClampStrTail(s: Bytes, max: nat) returns (r: Bytes)
    ensures r == ClampedTail(s, max)
  {
    if |s| <= max {
      return s;
    }
    var start := |s| - max;
    while start < |s| && !Boundary(s, start)
      invariant start <= |s| && FirstBoundary(s, start) == TailStart(s, max)
    {
      start := start + 1;
    }
    return MARKER + s[start..];
  }

  /** How the sub-agent payload decides its `truncated` flag: by comparing lengths after the marker went in. */
  predicate SubagentReportsTruncated(full: Bytes, maxOutput: nat) {
    |ClampedTail(full, maxOutput)| < |full|
  }

  predicate FlagIsRight(full: Bytes, maxOutput: nat) {
    SubagentReportsTruncated(full, maxOutput) <==> |full| > maxOutput
  }

  /** Where the text that is kept begins: at most three bytes past the excess. */
  lemma CutIsNear(full: Bytes, maxOutput: nat)
    requires WellFormed(full) && |full| > maxOutput
    ensures |full| - maxOutput <= TailStart(full, maxOutput) <= |full| - maxOutput + 3
  {
    var excess := |full| - maxOutput;
    StartIsBoundary(full);
    var before := LastBoundary(full, excess);
    if before < excess {
      var after := NextBoundary(full, before);
      assert after > excess;
    }
  }

  /** The flag is wrong exactly when the text is cut at a character boundary within its first 14 bytes, as many as the
      marker has: always when it is at most 11 bytes over its budget, never when it is more than 14. */
  lemma SubagentFlagCondition(full: Bytes, maxOutput: nat)
    requires WellFormed(full)
    ensures FlagIsRight(full, maxOutput) <==>
            |full| <= maxOutput || forall i: nat :: |full| - maxOutput <= i <= 14 && i <= |full| ==> !Boundary(full, i)
    ensures 0 < |full| - maxOutput <= 11 ==> !FlagIsRight(full, maxOutput)
    ensures |full| - maxOutput > 14 ==> FlagIsRight(full, maxOutput)
  {
    if |full| > maxOutput {
      CutIsNear(full, maxOutput);
      assert Boundary(full, TailStart(full, maxOutput));
      assert FlagIsRight(full, maxOutput) <==> TailStart(full, maxOutput) > 14;
    }
  }

  /** The letter a, as often as asked. */
  function Letters(n: nat): (r: Bytes)
    ensures |r| == n && WellFormed(r)
  {
    if n == 0 then [] else Prepend(Letters(n - 1))
  }

  function Prepend(text: Bytes): (r: Bytes)
    requires WellFormed(text)
    ensures |r| == |text| + 1 && WellFormed(r)
  {
    var r := [0x61] + text;
    assert r[1..] == text;
    r
  }

  /** Under either budget the payload is built with, and under every other, some text is cut and not reported. */
  lemma SubagentFlagMissesShortCuts(maxOutput: nat)
    ensures exists full: Bytes ::
              WellFormed(full) && |full| == maxOutput + 1 && !SubagentReportsTruncated(full, maxOutput)
  {
    var full := Letters(maxOutput + 1);
    SubagentFlagCondition(full, maxOutput);
  }
}
