/**
 The bounded output buffer of a background process, against the unbounded stream it abbreviates.
 */
module OutputRing {
  import opened Basics
  import opened Utf8

  datatype LogError = LimitNotPositive | OffsetNotOnBoundary | LimitTooSmall

  function Min(a: nat, b: nat): nat { if a < b then a else b }

  function Max(a: nat, b: nat): nat { if a < b then b else a }

  /** Eviction commutes with appending: trimming as output arrives keeps the longest tail of the whole stream. */
  lemma AppendKeepsTail(stream: Bytes, chunk: Bytes, max: nat)
    requires WellFormed(stream) && WellFormed(chunk)
    ensures LongestTail(LongestTail(stream, max) + chunk, max) == LongestTail(stream + chunk, max)
  {
    var kept := LongestTail(stream, max);
    var d := LongestTail(kept + chunk, max);
    StartIsBoundary(chunk);
    TailIsLongest(stream, max, kept);
    TailIsLongest(kept + chunk, max, d);
    TrimThenTrim(stream, kept, chunk, d, max);
    TailIsLongest(stream + chunk, max, d);
  }

  lemma TrimThenTrim(stream: Bytes, kept: Bytes, chunk: Bytes, d: Bytes, max: nat)
    requires IsLongestTail(kept, stream, max) && IsLongestTail(d, kept + chunk, max) && Boundary(chunk, 0)
    ensures IsLongestTail(d, stream + chunk, max)
  {
    var whole, data := stream + chunk, kept + chunk;
    var k := |stream| - |kept|;
    assert data == whole[k..];
    assert d == whole[|whole| - |d|..];
    forall j: nat | j < |whole| - |d| && Boundary(whole, j) ensures |whole| - j > max {
      if k <= j {
        assert Boundary(data, j - k);
      } else {
        assert Boundary(stream, j);
      }
    }
  }

  // ---------------------------------------------------------------- reading, in terms of the stream

  datatype Page = Page(output: Bytes, next: nat, truncated: bool)

  /** Bytes from `offset` on, at most `limit` of them, whole characters only. */
  function RangeOf(stream: Bytes, start: nat, offset: nat, limit: nat): Result<(Bytes, nat), LogError>
    requires start <= |stream|
  {
    var from := Max(offset, start);
    if limit == 0 then Err(LimitNotPositive)
    else if from >= |stream| then Ok(([], |stream|))
    else if !Boundary(stream, from) then Err(OffsetNotOnBoundary)
    else
      var end := LastBoundary(stream, Min(from + limit, |stream|));
      if end <= from then Err(LimitTooSmall) else Ok((stream[from..end], end))
  }

  /** One `log` page of a stream whose last `max` bytes are retained. */
  function LogOf(stream: Bytes, max: nat, offset: nat, limit: nat): Result<Page, LogError> {
    var start := TailStart(stream, max);
    match RangeOf(stream, start, offset, Min(limit, max))
    case Ok((output, next)) => Ok(Page(output, next, offset < start))
    case Err(e) => Err(e)
  }

  /** What a range read may answer, whatever computes it: the longest run of whole characters from the cursor, or from
      the first retained byte, that fits the limit; or the reason why there is none. */
  ghost predicate IsRange(stream: Bytes, start: nat, offset: nat, limit: nat, r: Result<(Bytes, nat), LogError>) {
    var from := if offset < start then start else offset;
    match r
    case Err(LimitNotPositive) => limit == 0
    case Err(OffsetNotOnBoundary) => limit > 0 && from < |stream| && IsContinuation(stream[from])
    case Err(LimitTooSmall) =>
      && limit > 0 && from < |stream| && !IsContinuation(stream[from])
      && forall j: nat :: from < j <= |stream| && j - from <= limit ==> !Boundary(stream, j)
    case Ok((output, next)) =>
      && limit > 0
      && if from >= |stream| then output == [] && next == |stream|
         else
           && !IsContinuation(stream[from]) && from < next <= |stream| && next - from <= limit && Boundary(stream, next)
           && output == stream[from..next]
           && forall j: nat :: next < j <= |stream| && j - from <= limit ==> !Boundary(stream, j)
  }

  lemma RangeIsLongest(stream: Bytes, start: nat, offset: nat, limit: nat)
    requires start <= |stream|
    ensures IsRange(stream, start, offset, limit, RangeOf(stream, start, offset, limit))
  {
    var from := Max(offset, start);
    if limit > 0 && from < |stream| {
      assert LastBoundary(stream, Min(from + limit, |stream|)) <= Min(from + limit, |stream|);
    }
  }

  /** The same for a page of a stream of which only the longest whole-character tail within `max` bytes is retained. */
  ghost predicate IsPage(stream: Bytes, max: nat, offset: nat, limit: nat, r: Result<Page, LogError>) {
    exists start: nat ::
      && start <= |stream| && IsLongestTail(stream[start..], stream, max)
      && match r
         case Err(e) => IsRange(stream, start, offset, if limit < max then limit else max, Err(e))
         case Ok(page) =>
           && IsRange(stream, start, offset, if limit < max then limit else max, Ok((page.output, page.next)))
           && (page.truncated <==> offset < start)
  }

  lemma LogIsPage(stream: Bytes, max: nat, offset: nat, limit: nat)
    ensures IsPage(stream, max, offset, limit, LogOf(stream, max, offset, limit))
  {
    var start := TailStart(stream, max);
    TailIsLongest(stream, max, LongestTail(stream, max));
    RangeIsLongest(stream, start, offset, Min(limit, max));
    assert IsLongestTail(stream[start..], stream, max);
  }

  /** Searching the ring for the cut finds the cut of the stream. */
  lemma SameCut(stream: Bytes, data: Bytes, startIdx: nat, cap: nat)
    requires |data| <= |stream| && data == stream[|stream| - |data|..]
    requires startIdx <= cap <= |data| && Boundary(data, startIdx)
    ensures var k := |stream| - |data|;
            && startIdx <= LastBoundary(data, cap)
            && LastBoundary(stream, k + cap) == k + LastBoundary(data, cap)
  {
    var k := |stream| - |data|;
    var end := LastBoundary(data, cap);
    forall j | k + end < j <= k + cap ensures !Boundary(stream, j) {
      assert !Boundary(data, j - k);
    }
    assert Boundary(stream, k + end);
    LastBoundaryIs(stream, k + cap, k + end);
  }

  /** A range read computed on the ring and the total alone. */
  function RingRange(data: Bytes, total: nat, offset: nat, limit: nat): Result<(Bytes, nat), LogError>
    requires |data| <= total
  {
    var k := total - |data|;
    var from := Max(offset, k);
    if limit == 0 then Err(LimitNotPositive)
    else if from >= total then Ok(([], total))
    else if !Boundary(data, from - k) then Err(OffsetNotOnBoundary)
    else
      var end := LastBoundary(data, Min(from - k + limit, |data|));
      if end <= from - k then Err(LimitTooSmall) else Ok((data[from - k..end], k + end))
  }

  lemma RingRangeIsRange(stream: Bytes, data: Bytes, offset: nat, limit: nat)
    requires |data| <= |stream| && data == stream[|stream| - |data|..]
    ensures RangeOf(stream, |stream| - |data|, offset, limit) == RingRange(data, |stream|, offset, limit)
  {
    var k := |stream| - |data|;
    var from := Max(offset, k);
    if from < |stream| && limit > 0 {
      assert data[from - k] == stream[from];
      if Boundary(data, from - k) {
        AlignedRingRangeIsRange(stream, data, offset, limit);
      }
    }
  }

  lemma AlignedRingRangeIsRange(stream: Bytes, data: Bytes, offset: nat, limit: nat)
    requires |data| <= |stream| && data == stream[|stream| - |data|..] && limit > 0
    requires var from := Max(offset, |stream| - |data|); from < |stream| && Boundary(stream, from)
    ensures RangeOf(stream, |stream| - |data|, offset, limit) == RingRange(data, |stream|, offset, limit)
  {
    var k := |stream| - |data|;
    var i := Max(offset, k) - k;
    assert data[i] == stream[k + i];
    RingCutIsCut(stream, data, i, limit);
  }

  /** Where the ring is cut and what comes before the cut, from a boundary on. */
  lemma RingCutIsCut(stream: Bytes, data: Bytes, startIdx: nat, limit: nat)
    requires |data| <= |stream| && data == stream[|stream| - |data|..]
    requires startIdx < |data| && Boundary(data, startIdx)
    ensures var k, end := |stream| - |data|, LastBoundary(data, Min(startIdx + limit, |data|));
            && startIdx <= end <= |data| && LastBoundary(stream, Min(k + startIdx + limit, |stream|)) == k + end
            && stream[k + startIdx..k + end] == data[startIdx..end]
  {
    var k, cap := |stream| - |data|, Min(startIdx + limit, |data|);
    SameCut(stream, data, startIdx, cap);
    assert Min(k + startIdx + limit, |stream|) == k + cap;
    SameSegment(stream, data, startIdx, LastBoundary(data, cap));
  }

  lemma SameSegment(stream: Bytes, data: Bytes, i: nat, j: nat)
    requires |data| <= |stream| && data == stream[|stream| - |data|..] && i <= j <= |data|
    ensures data[i..j] == stream[|stream| - |data| + i..|stream| - |data| + j]
  {}

  lemma TailRange(stream: Bytes, max: nat, offset: nat, limit: nat)
    ensures RingRange(LongestTail(stream, max), |stream|, offset, limit)
            == RangeOf(stream, TailStart(stream, max), offset, limit)
  {
    RingRangeIsRange(stream, LongestTail(stream, max), offset, limit);
  }

  /** Move `end` back to the nearest boundary, one byte at a time. */
  method CutAt(data: Bytes, cap: nat) returns (end: nat)
    requires cap <= |data| && WellFormed(data)
    ensures end == LastBoundary(data, cap)
  {
    StartIsBoundary(data);
    end := cap;
    while !Boundary(data, end)
      invariant end <= cap && LastBoundary(data, end) == LastBoundary(data, cap)
      decreases end
    {
      end := end - 1;
    }
  }

  method ReadRange(data: Bytes, total: nat, offset: nat, limit: nat) returns (r: Result<(Bytes, nat), LogError>)
    requires |data| <= total && WellFormed(data)
    ensures r == RingRange(data, total, offset, limit)
  {
    if limit == 0 {
      return Err(LimitNotPositive);
    }
    var startOffset := total - |data|;
    var from := Max(offset, startOffset);
    if from >= total || data == [] {
      return Ok(([], total));
    }
    var startIdx := from - startOffset;
    if !Boundary(data, startIdx) {
      return Err(OffsetNotOnBoundary);
    }
    var end := CutAt(data, Min(startIdx + limit, |data|));
    if end <= startIdx {
      return Err(LimitTooSmall);
    }
    return Ok((data[startIdx..end], startOffset + end));
  }

  class OutputBuffer {
    var data: Bytes
    const maxBytes: nat
    var totalWritten: nat
    ghost var stream: Bytes

    ghost predicate Valid()
      reads this
    {
      WellFormed(stream) && totalWritten == |stream| && data == LongestTail(stream, maxBytes)
    }

    constructor (maxBytes: nat)
      ensures Valid() && stream == [] && this.maxBytes == maxBytes
    {
      this.maxBytes := maxBytes;
      data, totalWritten, stream := [], 0, [];
    }

    method Append(chunk: Bytes)
      requires Valid() && WellFormed(chunk)
      modifies this
      ensures Valid() && stream == old(stream) + chunk
    {
      if chunk == [] {
        assert stream == stream + chunk;
        return;
      }
      AppendKeepsTail(stream, chunk, maxBytes);
      ConcatWellFormed(stream, chunk);
      totalWritten := totalWritten + |chunk|;
      stream := stream + chunk;
      data := data + chunk;
      WholeTail(old(stream), maxBytes);
      ConcatWellFormed(old(data), chunk);
      WholeTail(data, maxBytes);
      if |data| > maxBytes {
        var drop := |data| - maxBytes;
        while !Boundary(data, drop)
          decreases |data| - drop
          invariant |data| - maxBytes <= drop <= |data|
          invariant FirstBoundary(data, drop) == TailStart(data, maxBytes)
        {
          drop := drop + 1;
        }
        data := data[drop..];
      }
    }

    function StartOffset(): nat
      reads this
    {
      if totalWritten < |data| then 0 else totalWritten - |data|
    }

    lemma Indexing()
      requires Valid()
      ensures StartOffset() == TailStart(stream, maxBytes) && |data| <= |stream|
      ensures forall i: nat :: i <= |data| ==> (Boundary(data, i) <==> Boundary(stream, StartOffset() + i))
    {
    }

    method BytesSince(offset: nat) returns (r: Result<(Bytes, bool, nat), LogError>)
      requires Valid()
      ensures var start := TailStart(stream, maxBytes);
              var from := Max(offset, start);
              r == if from >= |stream| then Ok(([], offset < start, |stream|))
                   else if Boundary(stream, from) then Ok((stream[from..], offset < start, |stream|))
                   else Err(OffsetNotOnBoundary)
    {
      Indexing();
      var startOffset := StartOffset();
      var truncated := offset < startOffset;
      var from := Max(offset, startOffset);
      if from >= totalWritten || data == [] {
        return Ok(([], truncated, totalWritten));
      }
      var startIdx := from - startOffset;
      if !Boundary(data, startIdx) {
        return Err(OffsetNotOnBoundary);
      }
      assert data[startIdx..] == stream[from..];
      return Ok((data[startIdx..], truncated, totalWritten));
    }

    method SnapshotTail(max: nat) returns (tail: Bytes, total: nat)
      requires Valid()
      ensures tail == LongestTail(stream, Min(maxBytes, max)) && total == |stream|
    {
      var from := if |data| < max then 0 else |data| - max;
      WholeTail(stream, maxBytes);
      StartIsBoundary(data);
      while !Boundary(data, from)
        decreases |data| - from
        invariant from <= |data| && FirstBoundary(data, from) == TailStart(data, max)
      {
        from := from + 1;
      }
      TailOfTail(stream, maxBytes, max);
      return data[from..], totalWritten;
    }

    method BytesRange(offset: nat, limit: nat) returns (r: Result<(Bytes, nat), LogError>)
      requires Valid()
      ensures r == RangeOf(stream, TailStart(stream, maxBytes), offset, limit)
      ensures IsRange(stream, TailStart(stream, maxBytes), offset, limit, r)
    {
      RangeIsLongest(stream, TailStart(stream, maxBytes), offset, limit);
      WholeTail(stream, maxBytes);
      r := ReadRange(data, totalWritten, offset, limit);
      TailRange(stream, maxBytes, offset, limit);
    }

    /** The `log` tool: the caller's limit is capped at the ring size before the range is cut. */
    method Log(offset: nat, limit: nat) returns (r: Result<Page, LogError>)
      requires Valid()
      ensures r == LogOf(stream, maxBytes, offset, limit) && IsPage(stream, maxBytes, offset, limit, r)
    {
      LogIsPage(stream, maxBytes, offset, limit);
      var range := BytesRange(offset, Min(limit, maxBytes));
      match range
      case Err(e) => return Err(e);
      case Ok((output, next)) =>
        Indexing();
        var truncated := offset < StartOffset();
        return Ok(Page(output, next, truncated));
    }
  }

  // ---------------------------------------------------------------- one page

  function PageEnd(stream: Bytes, from: nat, limit: nat): nat
    requires from <= |stream|
  {
    if from == |stream| then |stream| else LastBoundary(stream, Min(from + limit, |stream|))
  }

  lemma PageEndAdvances(stream: Bytes, from: nat, limit: nat)
    requires WellFormed(stream) && from <= |stream| && Boundary(stream, from)
    requires limit > 0 && (limit >= 4 || |stream| - from <= limit)
    ensures var end := PageEnd(stream, from, limit);
            && from <= end <= |stream| && Boundary(stream, end) && (from < |stream| ==> from < end)
            && WellFormed(stream[from..end])
  {
    if from < |stream| {
      HeadAdvances(stream, from, Min(from + limit, |stream|));
    } else {
      SegmentWellFormed(stream, from, from);
    }
  }

  lemma AlignedRange(stream: Bytes, start: nat, offset: nat, limit: nat)
    requires start <= |stream| && offset <= |stream| && limit > 0
    requires var from := Max(offset, start);
             Boundary(stream, from) && (from < |stream| ==> from < PageEnd(stream, from, limit))
    ensures var from := Max(offset, start);
            var end := PageEnd(stream, from, limit);
            from <= end <= |stream| && RangeOf(stream, start, offset, limit) == Ok((stream[from..end], end))
  {
    assert stream[|stream|..|stream|] == [];
  }

  /** From an aligned cursor, with a limit of at least four bytes, paging fails exactly when the ring has no room at
      all: a ring smaller than four bytes never holds more than it can show. */
  lemma AlignedPage(stream: Bytes, max: nat, offset: nat, limit: nat)
    requires WellFormed(stream) && offset <= |stream| && Boundary(stream, offset) && limit >= 4
    ensures LogOf(stream, max, offset, limit).Ok? <==> max > 0
    ensures max > 0 ==>
              var from := Max(offset, TailStart(stream, max));
              var end := PageEnd(stream, from, Min(limit, max));
              && from <= end <= |stream| && Boundary(stream, end)
              && (offset < |stream| ==> offset < end)
              && WellFormed(stream[from..end])
              && LogOf(stream, max, offset, limit) == Ok(Page(stream[from..end], end, offset < from))
  {
    if max > 0 {
      var start := TailStart(stream, max);
      var from := Max(offset, start);
      PageEndAdvances(stream, from, Min(limit, max));
      AlignedRange(stream, start, offset, Min(limit, max));
    }
  }

  // ---------------------------------------------------------------- a whole reading session

  datatype Event = Append(chunk: Bytes) | Read(limit: nat)

  /** What one read saw: where it asked from, how much existed then, and the page it got. */
  datatype Reading = Reading(asked: nat, available: nat, page: Page)
  {
    function From(): int {
      page.next - |page.output|
    }
  }

  function Appended(events: seq<Event>): Bytes {
    if events == [] then []
    else (if events[0].Append? then events[0].chunk else []) + Appended(events[1..])
  }

  /** A reader that only ever passes back the cursor it was given; None once a read fails. */
  function Session(stream: Bytes, max: nat, cursor: nat, events: seq<Event>): Option<seq<Reading>>
    decreases |events|
  {
    if events == [] then Some([])
    else
      match events[0]
      case Append(chunk) => Session(stream + chunk, max, cursor, events[1..])
      case Read(limit) =>
        match LogOf(stream, max, cursor, limit)
        case Err(_) => None
        case Ok(page) =>
          match Session(stream, max, page.next, events[1..])
          case None => None
          case Some(rest) => Some([Reading(cursor, |stream|, page)] + rest)
  }

  predicate Orderly(events: seq<Event>) {
    forall e :: e in events ==> (e.Append? ==> WellFormed(e.chunk)) && (e.Read? ==> e.limit >= 4)
  }

  /** The stream offset reading i continues from. */
  function Resumes(readings: seq<Reading>, cursor: nat, i: nat): nat
    requires i <= |readings|
  {
    if i == 0 then cursor else readings[i - 1].page.next
  }

  /** A whole-character segment of the final stream; the gap before it is exactly what `truncated` reports. */
  ghost predicate Sound(r: Reading, final: Bytes) {
    && r.asked <= r.From() <= r.page.next <= r.available <= |final|
    && r.page.output == final[r.From()..r.page.next]
    && WellFormed(r.page.output)
    && (r.page.truncated <==> r.asked < r.From())
    && (r.asked < r.available ==> r.asked < r.page.next)
  }

  /** A sound reading that goes on where the one before it ended. */
  ghost predicate Continues(readings: seq<Reading>, cursor: nat, final: Bytes, i: nat)
    requires i < |readings|
  {
    Sound(readings[i], final) && readings[i].asked == Resumes(readings, cursor, i)
  }

  ghost predicate Faithful(readings: seq<Reading>, cursor: nat, final: Bytes) {
    forall i: nat :: i < |readings| ==> Continues(readings, cursor, final, i)
  }

  lemma BoundarySurvivesAppend(stream: Bytes, chunk: Bytes, cursor: nat)
    requires WellFormed(stream) && WellFormed(chunk) && cursor <= |stream| && Boundary(stream, cursor)
    ensures WellFormed(stream + chunk) && Boundary(stream + chunk, cursor)
  {
    ConcatWellFormed(stream, chunk);
    StartIsBoundary(chunk);
  }

  lemma ReadIsSound(stream: Bytes, max: nat, cursor: nat, limit: nat)
    requires WellFormed(stream) && max > 0 && cursor <= |stream| && Boundary(stream, cursor) && limit >= 4
    ensures LogOf(stream, max, cursor, limit).Ok?
    ensures var page := LogOf(stream, max, cursor, limit).value;
            page.next <= |stream| && Boundary(stream, page.next) && Sound(Reading(cursor, |stream|, page), stream)
  {
    AlignedPage(stream, max, cursor, limit);
  }

  /** Under any interleaving of appends, evictions and reads, a reader using returned cursors never fails and gets
      consecutive whole-character pages of the stream. */
  lemma {:induction false} SessionIsFaithful(stream: Bytes, max: nat, cursor: nat, events: seq<Event>)
    requires WellFormed(stream) && max > 0 && cursor <= |stream| && Boundary(stream, cursor) && Orderly(events)
    ensures Session(stream, max, cursor, events).Some?
    ensures Faithful(Session(stream, max, cursor, events).value, cursor, stream + Appended(events))
    decreases |events|
  {
    if events == [] {
    } else if events[0].Append? {
      BoundarySurvivesAppend(stream, events[0].chunk, cursor);
      SessionIsFaithful(stream + events[0].chunk, max, cursor, events[1..]);
      AppendPrepends(stream, max, cursor, events);
    } else {
      ReadIsSound(stream, max, cursor, events[0].limit);
      var page := LogOf(stream, max, cursor, events[0].limit).value;
      SessionIsFaithful(stream, max, page.next, events[1..]);
      ReadPrepends(stream, max, cursor, events);
    }
  }

  lemma AppendPrepends(stream: Bytes, max: nat, cursor: nat, events: seq<Event>)
    requires events != [] && events[0].Append?
    ensures Session(stream, max, cursor, events) == Session(stream + events[0].chunk, max, cursor, events[1..])
    ensures stream + events[0].chunk + Appended(events[1..]) == stream + Appended(events)
  {}

  lemma ReadPrepends(stream: Bytes, max: nat, cursor: nat, events: seq<Event>)
    requires events != [] && events[0].Read? && LogOf(stream, max, cursor, events[0].limit).Ok?
    requires var page := LogOf(stream, max, cursor, events[0].limit).value;
             && page.next <= |stream| && Sound(Reading(cursor, |stream|, page), stream)
             && Session(stream, max, page.next, events[1..]).Some?
             && Faithful(Session(stream, max, page.next, events[1..]).value, page.next, stream + Appended(events[1..]))
    ensures Session(stream, max, cursor, events).Some?
    ensures Faithful(Session(stream, max, cursor, events).value, cursor, stream + Appended(events))
  {
    var page := LogOf(stream, max, cursor, events[0].limit).value;
    assert Appended(events) == Appended(events[1..]);
    var rest := Session(stream, max, page.next, events[1..]).value;
    PrependReading(Reading(cursor, |stream|, page), rest, cursor, stream, Appended(events));
  }

  lemma SoundInLonger(r: Reading, stream: Bytes, more: Bytes)
    requires Sound(r, stream)
    ensures Sound(r, stream + more)
  {
    assert r.page.output == (stream + more)[r.From()..r.page.next];
  }

  lemma PrependReading(r: Reading, rest: seq<Reading>, cursor: nat, stream: Bytes, more: Bytes)
    requires Faithful(rest, r.page.next, stream + more)
    requires r.asked == cursor && r.available == |stream| && Sound(r, stream)
    ensures Faithful([r] + rest, cursor, stream + more)
  {
    var all := [r] + rest;
    SoundInLonger(r, stream, more);
    forall i: nat | i < |all| ensures Continues(all, cursor, stream + more, i) {
      if i > 0 {
        assert Continues(rest, r.page.next, stream + more, i - 1);
        ContinuesLater(r, rest, cursor, stream + more, i - 1);
      }
    }
  }

  lemma ContinuesLater(r: Reading, rest: seq<Reading>, cursor: nat, final: Bytes, i: nat)
    requires i < |rest| && Continues(rest, r.page.next, final, i)
    ensures Continues([r] + rest, cursor, final, i + 1)
  {
    var all := [r] + rest;
    assert all[i + 1] == rest[i] && (i > 0 ==> all[i] == rest[i - 1]);
  }

  function Outputs(readings: seq<Reading>): Bytes {
    if readings == [] then [] else Outputs(readings[..|readings| - 1]) + readings[|readings| - 1].page.output
  }

  lemma PrefixIsFaithful(readings: seq<Reading>, cursor: nat, final: Bytes)
    requires readings != [] && Faithful(readings, cursor, final)
    ensures Faithful(readings[..|readings| - 1], cursor, final)
  {
    var init := readings[..|readings| - 1];
    forall i: nat | i < |init| ensures Continues(init, cursor, final, i) {
      assert Continues(readings, cursor, final, i);
      assert init[i] == readings[i] && Resumes(init, cursor, i) == Resumes(readings, cursor, i);
    }
  }

  /** When nothing was reported truncated, the pages together are the stream up to the last cursor. */
  lemma {:induction false} UntruncatedSessionLosesNothing(readings: seq<Reading>, cursor: nat, final: Bytes)
    requires Faithful(readings, cursor, final) && cursor <= |final|
    requires forall i :: 0 <= i < |readings| ==> !readings[i].page.truncated
    ensures var last := if readings == [] then cursor else readings[|readings| - 1].page.next;
            cursor <= last <= |final| && Outputs(readings) == final[cursor..last]
  {
    if readings != [] {
      var n := |readings| - 1;
      var init := readings[..n];
      PrefixIsFaithful(readings, cursor, final);
      UntruncatedSessionLosesNothing(init, cursor, final);
      LastPageConnects(readings, cursor, final);
    }
  }

  lemma LastPageConnects(readings: seq<Reading>, cursor: nat, final: Bytes)
    requires readings != [] && Faithful(readings, cursor, final) && !readings[|readings| - 1].page.truncated
    requires cursor <= Resumes(readings, cursor, |readings| - 1)
    ensures var mid, last := Resumes(readings, cursor, |readings| - 1), readings[|readings| - 1].page;
            mid <= last.next <= |final| && final[cursor..mid] + last.output == final[cursor..last.next]
  {
    var r := readings[|readings| - 1];
    assert Continues(readings, cursor, final, |readings| - 1);
  }
}
