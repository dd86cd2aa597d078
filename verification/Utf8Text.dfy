/**
 Strings as UTF-8 bytes, and the two cuts the repository makes in them:
 `truncate_bytes` (crates/harness-context/src/lib.rs) and
 `truncate_history_text` (crates/harness-agent/src/lib.rs).
 */
module Utf8Text {

  newtype byte = x: int | 0 <= x < 256

  type Bytes = seq<byte>

  // ----- UTF-8, RFC 3629 section 4 -----

  predicate IsTail(b: byte) {
    0x80 <= b <= 0xBF
  }

  predicate Tails(s: Bytes, n: nat) {
    n <= |s| && forall i :: 1 <= i < n ==> IsTail(s[i])
  }

  /** The second byte the leading byte allows. */
  predicate SecondByte(lead: byte, b: byte) {
    match lead
    case 0xE0 => 0xA0 <= b <= 0xBF
    case 0xED => 0x80 <= b <= 0x9F
    case 0xF0 => 0x90 <= b <= 0xBF
    case 0xF4 => 0x80 <= b <= 0x8F
    case _ => IsTail(b)
  }

  function LeadWidth(lead: byte): nat {
    if lead < 0x80 then 1
    else if 0xC2 <= lead <= 0xDF then 2
    else if 0xE0 <= lead <= 0xEF then 3
    else if 0xF0 <= lead <= 0xF4 then 4
    else 0
  }

  /** The width of the character `s` starts with; 0 when it starts with none. */
  function CharWidth(s: Bytes): (w: nat)
    requires s != []
    ensures w <= |s|
    ensures w > 0 ==> !IsTail(s[0]) && Tails(s, w)
  {
    var w := LeadWidth(s[0]);
    if Tails(s, w) && (w >= 2 ==> SecondByte(s[0], s[1])) then w else 0
  }

  predicate ValidUtf8(s: Bytes)
    decreases |s|
  {
    s == [] || (CharWidth(s) > 0 && ValidUtf8(s[CharWidth(s)..]))
  }

  /** Rust's `str::is_char_boundary`. */
  predicate IsBoundary(s: Bytes, i: nat) {
    i == 0 || i == |s| || (i < |s| && !IsTail(s[i]))
  }

  /** The width depends on the character's own bytes only. */
  lemma SameWidth(s: Bytes, t: Bytes)
    requires s != [] && CharWidth(s) > 0
    requires CharWidth(s) <= |t| && t[..CharWidth(s)] == s[..CharWidth(s)]
    ensures CharWidth(t) == CharWidth(s)
  {
  }

  /** Cutting at a boundary leaves two valid strings. */
  lemma {:induction false} CutAtBoundary(s: Bytes, i: nat)
    requires ValidUtf8(s) && IsBoundary(s, i)
    ensures i <= |s| && ValidUtf8(s[..i]) && ValidUtf8(s[i..])
    decreases |s|
  {
    if i == 0 || i == |s| {
      assert s[..|s|] == s && s[0..] == s;
    } else {
      var w := CharWidth(s);
      assert w <= i;
      CutAtBoundary(s[w..], i - w);
      assert s[i..] == s[w..][i - w..];
      SameWidth(s, s[..i]);
      assert s[..i][w..] == s[w..][..i - w];
    }
  }

  lemma {:induction false} JoinValid(a: Bytes, b: Bytes)
    requires ValidUtf8(a) && ValidUtf8(b)
    ensures ValidUtf8(a + b)
    decreases |a|
  {
    if a == [] {
      assert a + b == b;
    } else {
      var w := CharWidth(a);
      JoinValid(a[w..], b);
      SameWidth(a, a + b);
      assert (a + b)[w..] == a[w..] + b;
    }
  }

  /** An ASCII string as bytes. */
  function Ascii(s: string): (b: Bytes)
    requires forall i :: 0 <= i < |s| ==> s[i] < '\U{80}'
    ensures |b| == |s| && forall i :: 0 <= i < |b| ==> b[i] < 0x80
  {
    seq(|s|, i requires 0 <= i < |s| => s[i] as int as byte)
  }

  lemma {:induction false} AsciiValid(b: Bytes)
    requires forall i :: 0 <= i < |b| ==> b[i] < 0x80
    ensures ValidUtf8(b)
    decreases |b|
  {
    if b != [] {
      AsciiValid(b[1..]);
      assert CharWidth(b) == 1;
    }
  }

  // ----- the nearest boundaries -----

  /** The greatest boundary that is not after `end`. */
  function FloorBoundary(s: Bytes, end: nat): (i: nat)
    requires end <= |s|
    ensures i <= end && IsBoundary(s, i)
  {
    if IsBoundary(s, end) then end else FloorBoundary(s, end - 1)
  }

  /** The least boundary that is not before `start`. */
  function CeilBoundary(s: Bytes, start: nat): (i: nat)
    requires start <= |s|
    ensures start <= i <= |s| && IsBoundary(s, i)
    decreases |s| - start
  {
    if IsBoundary(s, start) then start else CeilBoundary(s, start + 1)
  }

  /** Both searches stop at the first boundary they meet. */
  lemma {:induction false} FloorIsNearest(s: Bytes, end: nat, j: nat)
    requires end <= |s| && FloorBoundary(s, end) < j <= end
    ensures !IsBoundary(s, j)
    decreases end
  {
    if j < end { FloorIsNearest(s, end - 1, j); }
  }

  lemma {:induction false} CeilIsNearest(s: Bytes, start: nat, j: nat)
    requires start <= |s| && start <= j < CeilBoundary(s, start)
    ensures !IsBoundary(s, j)
    decreases |s| - start
  {
    if start < j { CeilIsNearest(s, start + 1, j); }
  }

  method FindFloorBoundary(s: Bytes, end: nat) returns (i: nat)
    requires end <= |s|
    ensures i == FloorBoundary(s, end)
  {
    i := end;
    while !IsBoundary(s, i)
      invariant i <= end && FloorBoundary(s, i) == FloorBoundary(s, end)
      decreases i
    {
      i := i - 1;
    }
  }

  method FindCeilBoundary(s: Bytes, start: nat) returns (i: nat)
    requires start <= |s|
    ensures i == CeilBoundary(s, start)
  {
    i := start;
    while !IsBoundary(s, i)
      invariant start <= i <= |s| && CeilBoundary(s, i) == CeilBoundary(s, start)
      decreases |s| - i
    {
      i := i + 1;
    }
  }

  // ----- truncate_bytes -----

  const TRUNCATED_MARKER: Bytes := Ascii("\n[truncated]")

  function Truncated(value: Bytes, max: nat): Bytes {
    if |value| <= max then value
    else if max <= |TRUNCATED_MARKER| then value[..FloorBoundary(value, max)]
    else value[..FloorBoundary(value, max - |TRUNCATED_MARKER|)] + TRUNCATED_MARKER
  }

  method TruncateBytes(value: Bytes, max: nat) returns (cut: Bytes)
    ensures cut == Truncated(value, max)
  {
    if |value| <= max {
      return value;
    }
    if max <= |TRUNCATED_MARKER| {
      var end := FindFloorBoundary(value, max);
      return value[..end];
    }
    var end := FindFloorBoundary(value, max - |TRUNCATED_MARKER|);
    cut := value[..end] + TRUNCATED_MARKER;
  }

  /** The cut fits, is still a string, keeps a prefix, and leaves short strings alone. */
  lemma TruncatedFits(value: Bytes, max: nat)
    ensures |Truncated(value, max)| <= max
    ensures ValidUtf8(value) ==> ValidUtf8(Truncated(value, max))
    ensures |value| <= max <==> Truncated(value, max) == value
    ensures |value| > max ==>
              exists k :: 0 <= k <= |value|
                && (Truncated(value, max) == value[..k] || Truncated(value, max) == value[..k] + TRUNCATED_MARKER)
  {
    if |value| > max {
      var limit := if max <= |TRUNCATED_MARKER| then max else max - |TRUNCATED_MARKER|;
      var end := FloorBoundary(value, limit);
      if ValidUtf8(value) {
        CutAtBoundary(value, end);
        AsciiValid(TRUNCATED_MARKER);
        JoinValid(value[..end], TRUNCATED_MARKER);
      }
      assert Truncated(value, max) == value[..end] || Truncated(value, max) == value[..end] + TRUNCATED_MARKER;
    }
  }

  // ----- truncate_history_text -----

  const HISTORY_MARKER: Bytes := Ascii("\n[tool history trimmed]")

  function SubOrZero(a: nat, b: nat): nat {
    if a <= b then 0 else a - b
  }

  /** Head and tail of the text around the marker, before the final cut. */
  function HeadAndTail(value: Bytes, max: nat): Bytes
    requires |value| > max
  {
    var payload := SubOrZero(max, |HISTORY_MARKER|);
    var head := payload / 2;
    var tail := payload - head;
    value[..FloorBoundary(value, head)] + HISTORY_MARKER + value[CeilBoundary(value, |value| - tail)..]
  }

  function HistoryTrimmed(value: Bytes, max: nat): Bytes {
    if |value| <= max then value
    else if max == 0 then []
    else
      var result := HeadAndTail(value, max);
      if |result| > max then result[..FloorBoundary(result, max)] else result
  }

  method TruncateHistoryText(value: Bytes, max: nat) returns (cut: Bytes)
    ensures cut == HistoryTrimmed(value, max)
  {
    if |value| <= max {
      return value;
    }
    if max == 0 {
      return [];
    }
    var payload := SubOrZero(max, |HISTORY_MARKER|);
    var head := payload / 2;
    var tail := payload - head;
    var headEnd := FindFloorBoundary(value, head);
    var tailStart := FindCeilBoundary(value, |value| - tail);
    cut := value[..headEnd] + HISTORY_MARKER + value[tailStart..];
    assert cut == HeadAndTail(value, max);
    if |cut| > max {
      var end := FindFloorBoundary(cut, max);
      cut := cut[..end];
    }
  }

  /** The trimmed text fits and is still a string; with room for the marker, both ends of the text stay. */
  lemma HistoryTrimmedFits(value: Bytes, max: nat)
    ensures |HistoryTrimmed(value, max)| <= max
    ensures ValidUtf8(value) ==> ValidUtf8(HistoryTrimmed(value, max))
    ensures |value| <= max <==> HistoryTrimmed(value, max) == value
    ensures |value| > max >= |HISTORY_MARKER| ==>
              exists head, tail :: 0 <= head <= tail <= |value|
                && HistoryTrimmed(value, max) == value[..head] + HISTORY_MARKER + value[tail..]
  {
    if |value| > max > 0 {
      var result := HeadAndTail(value, max);
      var payload := SubOrZero(max, |HISTORY_MARKER|);
      var head := FloorBoundary(value, payload / 2);
      var tail := CeilBoundary(value, |value| - (payload - payload / 2));
      assert result == value[..head] + HISTORY_MARKER + value[tail..];
      if ValidUtf8(value) {
        CutAtBoundary(value, head);
        CutAtBoundary(value, tail);
        AsciiValid(HISTORY_MARKER);
        JoinValid(value[..head], HISTORY_MARKER);
        JoinValid(value[..head] + HISTORY_MARKER, value[tail..]);
        if |result| > max { CutAtBoundary(result, FloorBoundary(result, max)); }
      }
    }
  }

}
