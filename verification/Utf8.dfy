/**
 UTF-8 text as bytes (section 3 of RFC 3629), its character boundaries, and the longest whole-character
 tail or head that fits a byte budget.
 */
module Utf8 {
  type Byte = b: int | 0 <= b < 0x100

  type Bytes = seq<Byte>

  predicate IsContinuation(b: Byte) {
    0x80 <= b < 0xc0
  }

  /** The program tests the two top bits; this is the range it means. */
  lemma ContinuationMask(b: bv8)
    ensures b & 0xc0 == 0x80 <==> IsContinuation(b as int)
  {
    assert b & 0xc0 == 0x80 <==> 0x80 <= b < 0xc0;
  }

  /** Length announced by a lead byte; 0 for bytes that cannot start a character. */
  function CharLength(lead: Byte): nat {
    if lead < 0x80 then 1
    else if 0xc2 <= lead <= 0xdf then 2
    else if 0xe0 <= lead <= 0xef then 3
    else if 0xf0 <= lead <= 0xf4 then 4
    else 0
  }

  predicate SecondByteFits(lead: Byte, second: Byte) {
    && (lead == 0xe0 ==> 0xa0 <= second)
    && (lead == 0xed ==> second <= 0x9f)
    && (lead == 0xf0 ==> 0x90 <= second)
    && (lead == 0xf4 ==> second <= 0x8f)
  }

  predicate StartsWithChar(s: Bytes) {
    && s != []
    && 1 <= CharLength(s[0]) <= |s|
    && (forall i :: 1 <= i < CharLength(s[0]) ==> IsContinuation(s[i]))
    && (CharLength(s[0]) > 1 ==> SecondByteFits(s[0], s[1]))
  }

  predicate WellFormed(s: Bytes)
    decreases |s|
  {
    s == [] || (StartsWithChar(s) && WellFormed(s[CharLength(s[0])..]))
  }

  predicate Boundary(s: Bytes, i: nat)
    requires i <= |s|
  {
    i == |s| || !IsContinuation(s[i])
  }

  lemma LeadIsNoContinuation(b: Byte)
    requires CharLength(b) > 0
    ensures !IsContinuation(b)
  {
  }

  lemma StartIsBoundary(s: Bytes)
    requires WellFormed(s)
    ensures Boundary(s, 0)
  {
    if s != [] {
      LeadIsNoContinuation(s[0]);
    }
  }

  lemma {:induction false} ConcatWellFormed(a: Bytes, b: Bytes)
    requires WellFormed(a) && WellFormed(b)
    ensures WellFormed(a + b)
    decreases |a|
  {
    if a == [] {
      assert a + b == b;
    } else {
      var n := CharLength(a[0]);
      ConcatWellFormed(a[n..], b);
      FirstCharOfConcat(a, b);
    }
  }

  lemma FirstCharOfConcat(a: Bytes, b: Bytes)
    requires StartsWithChar(a)
    ensures StartsWithChar(a + b) && (a + b)[0] == a[0] && (a + b)[CharLength(a[0])..] == a[CharLength(a[0])..] + b
  {}

  /** A boundary inside the first character is its start or its end. */
  lemma BoundaryPastFirst(s: Bytes, i: nat)
    requires WellFormed(s) && s != [] && 0 < i <= |s| && Boundary(s, i)
    ensures CharLength(s[0]) <= i && Boundary(s[CharLength(s[0])..], i - CharLength(s[0]))
  {
  }

  lemma {:induction false} CutWellFormed(s: Bytes, i: nat)
    requires WellFormed(s) && i <= |s| && Boundary(s, i)
    ensures WellFormed(s[..i]) && WellFormed(s[i..])
    decreases |s|
  {
    if i == 0 {
      assert s[i..] == s;
    } else {
      var n := CharLength(s[0]);
      BoundaryPastFirst(s, i);
      CutWellFormed(s[n..], i - n);
      assert s[..i][n..] == s[n..][..i - n];
      assert s[i..] == s[n..][i - n..];
    }
  }

  /** Whole-character segments between two boundaries are well-formed text. */
  lemma SegmentWellFormed(s: Bytes, i: nat, j: nat)
    requires WellFormed(s) && i <= j <= |s| && Boundary(s, i) && Boundary(s, j)
    ensures WellFormed(s[i..j])
  {
    CutWellFormed(s, i);
    CutWellFormed(s[i..], j - i);
    assert s[i..][..j - i] == s[i..j];
  }

  /** Every character ends within four bytes. */
  lemma NextBoundary(s: Bytes, i: nat) returns (j: nat)
    requires WellFormed(s) && i < |s| && Boundary(s, i)
    ensures i < j <= |s| && j <= i + 4 && Boundary(s, j)
  {
    CutWellFormed(s, i);
    var rest := s[i..];
    var n := CharLength(rest[0]);
    j := i + n;
    if j < |s| {
      LeadIsNoContinuation(rest[n..][0]);
      assert rest[n..][0] == s[j];
    }
  }

  // ---------------------------------------------------------------- longest tails and heads

  function FirstBoundary(s: Bytes, from: nat): (r: nat)
    requires from <= |s|
    ensures from <= r <= |s| && Boundary(s, r)
    ensures forall j :: from <= j < r ==> !Boundary(s, j)
    decreases |s| - from
  {
    if Boundary(s, from) then from else FirstBoundary(s, from + 1)
  }

  /** Where the longest whole-character suffix of at most `max` bytes begins. */
  function TailStart(s: Bytes, max: nat): nat {
    FirstBoundary(s, if |s| > max then |s| - max else 0)
  }

  function LongestTail(s: Bytes, max: nat): Bytes {
    s[TailStart(s, max)..]
  }

  /** Declarative meaning: `d` is an aligned suffix that fits, and no longer aligned suffix fits. */
  ghost predicate IsLongestTail(d: Bytes, s: Bytes, max: nat) {
    && |d| <= max
    && |d| <= |s| && d == s[|s| - |d|..] && Boundary(s, |s| - |d|)
    && forall j: nat :: j < |s| - |d| && Boundary(s, j) ==> |s| - j > max
  }

  lemma TailIsLongest(s: Bytes, max: nat, d: Bytes)
    ensures d == LongestTail(s, max) <==> IsLongestTail(d, s, max)
  {
    var k := TailStart(s, max);
    if IsLongestTail(d, s, max) {
      var m := |s| - |d|;
      assert m == k by {
        assert Boundary(s, k) && |s| - k <= max;
        assert m >= if |s| > max then |s| - max else 0;
      }
    }
  }

  lemma WholeTail(s: Bytes, max: nat)
    requires WellFormed(s)
    ensures LongestTail(s, max) == s <==> |s| <= max
    ensures WellFormed(LongestTail(s, max)) && |LongestTail(s, max)| <= max
  {
    StartIsBoundary(s);
    CutWellFormed(s, TailStart(s, max));
  }

  /** A tail of the tail is the tail for the smaller budget. */
  lemma TailOfTail(s: Bytes, a: nat, b: nat)
    ensures LongestTail(LongestTail(s, a), b) == LongestTail(s, if a < b then a else b)
  {
    var t := LongestTail(s, a);
    var k := TailStart(s, a);
    var d := LongestTail(t, b);
    TailIsLongest(s, a, t);
    TailIsLongest(t, b, d);
    TailsCompose(s, t, d, a, b);
    TailIsLongest(s, if a < b then a else b, d);
  }

  lemma TailsCompose(s: Bytes, t: Bytes, d: Bytes, a: nat, b: nat)
    requires IsLongestTail(t, s, a) && IsLongestTail(d, t, b)
    ensures IsLongestTail(d, s, if a < b then a else b)
  {
    var k := |s| - |t|;
    assert d == s[|s| - |d|..];
    forall j: nat | j < |s| - |d| && Boundary(s, j) ensures |s| - j > if a < b then a else b {
      if k <= j {
        assert Boundary(t, j - k);
      }
    }
  }

  function LastBoundary(s: Bytes, upTo: nat): (r: nat)
    requires upTo <= |s|
    ensures r <= upTo && (r == 0 || Boundary(s, r))
    ensures forall j :: r < j <= upTo ==> !Boundary(s, j)
  {
    if upTo == 0 || Boundary(s, upTo) then upTo else LastBoundary(s, upTo - 1)
  }

  lemma LastBoundaryIs(s: Bytes, upTo: nat, r: nat)
    requires r <= upTo <= |s| && Boundary(s, r)
    requires forall j :: r < j <= upTo ==> !Boundary(s, j)
    ensures LastBoundary(s, upTo) == r
  {
  }

  /** Cutting at the last boundary within a budget that covers one character makes progress. */
  lemma HeadAdvances(s: Bytes, from: nat, upTo: nat)
    requires WellFormed(s) && from < upTo <= |s| && Boundary(s, from) && (upTo >= from + 4 || upTo == |s|)
    ensures from < LastBoundary(s, upTo) && Boundary(s, LastBoundary(s, upTo))
    ensures WellFormed(s[from..LastBoundary(s, upTo)])
  {
    var j := NextBoundary(s, from);
    SegmentWellFormed(s, from, LastBoundary(s, upTo));
  }
}
