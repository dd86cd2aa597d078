/**
 Redaction of registered credentials (crates/harness-core/src/redaction.rs).

 Text is a sequence of Unicode scalar values.  `Replace` is the leftmost, non-overlapping
 replacement pass; redaction folds one pass per registered value, in registration order.

 Each pass inserts the marker "[redacted]", and the inserted marker may itself take part in a
 new occurrence of a registered value.  The module proves exactly which values that can happen
 to: those that overlap the marker.
 */
module Redaction {
  import opened Text

  const MARKER: string := "[redacted]"
  const MIN_SECRET_BYTES: nat := 8

  // ----- occurrences -----

  predicate OccursAt(text: string, value: string, i: nat) {
    i + |value| <= |text| && text[i..i + |value|] == value
  }

  predicate Contains(text: string, value: string) {
    exists i :: 0 <= i <= |text| && OccursAt(text, value, i)
  }

  // ----- one pass, and the fold of passes -----

  /** Replaces every leftmost, non-overlapping occurrence of `value` by the marker. */
  function Replace(text: string, value: string): string
    requires value != ""
    decreases |text|
  {
    if text == "" then ""
    else if OccursAt(text, value, 0) then MARKER + Replace(text[|value|..], value)
    else [text[0]] + Replace(text[1..], value)
  }

  predicate Registrable(values: seq<string>) {
    forall i :: 0 <= i < |values| ==> values[i] != ""
  }

  function RedactAll(values: seq<string>, text: string): string
    requires Registrable(values)
    decreases |values|
  {
    if values == [] then text
    else RedactAll(values[1..], Replace(text, values[0]))
  }

  // ----- overlap with the marker -----

  /** Laid side by side, the two strings do not differ before one of them ends. */
  predicate Agree(a: string, b: string) {
    a <= b || b <= a
  }

  predicate RunsIntoMarker(value: string) {
    exists j :: 0 <= j < |value| && Agree(value[j..], MARKER)
  }

  predicate StartsInMarker(value: string) {
    exists i :: 0 <= i < |MARKER| && Agree(MARKER[i..], value)
  }

  /** Some occurrence of `value` can share a character with an inserted marker. */
  predicate OverlapsMarker(value: string) {
    RunsIntoMarker(value) || StartsInMarker(value)
  }

  // ----- one pass -----

  /** Prepending a character keeps a collision with the marker. */
  lemma RunsIntoMarkerTail(w: string)
    requires w != "" && RunsIntoMarker(w[1..])
    ensures RunsIntoMarker(w)
  {
  }

  /** A prefix of a redacted text is either a prefix of the original text, or runs into a marker. */
  lemma {:induction false} PrefixRunsIntoMarker(text: string, value: string, w: string)
    requires value != "" && w <= Replace(text, value)
    ensures w <= text || RunsIntoMarker(w)
    decreases |text|
  {
    if w == "" || text == "" {
    } else if OccursAt(text, value, 0) {
      assert w[0..] == w;
      PrefixesAgree(w, MARKER, Replace(text[|value|..], value));
    } else {
      PrefixRunsIntoMarker(text[1..], value, w[1..]);
      if RunsIntoMarker(w[1..]) {
        RunsIntoMarkerTail(w);
      } else {
        assert text == [text[0]] + text[1..];
      }
    }
  }

  /** A prefix of a + b agrees with a. */
  lemma PrefixesAgree(w: string, a: string, b: string)
    requires w <= a + b
    ensures Agree(w, a)
  {
  }

  /** An occurrence that starts inside an inserted marker overlaps the marker. */
  lemma OccurrenceStartingInMarker(tail: string, v: string, i: nat)
    requires i < |MARKER| && OccursAt(MARKER + tail, v, i)
    ensures StartsInMarker(v)
  {
    var out := MARKER + tail;
    assert out[i..] == MARKER[i..] + tail;
    assert v == out[i..i + |v|] == out[i..][..|v|];
    PrefixesAgree(v, MARKER[i..], tail);
    assert Agree(MARKER[i..], v);
  }

  /** Dropping a prefix of the text cannot create an occurrence. */
  lemma SuffixContains(text: string, n: nat, v: string)
    requires n <= |text| && Contains(text[n..], v)
    ensures Contains(text, v)
  {
    var i :| 0 <= i <= |text[n..]| && OccursAt(text[n..], v, i);
    assert text[n..][i..i + |v|] == text[i + n..i + n + |v|];
    assert OccursAt(text, v, i + n);
  }

  /** An occurrence in a + b either starts in a or lies in b. */
  lemma OccurrenceSplits(a: string, b: string, v: string)
    requires Contains(a + b, v)
    ensures Contains(b, v) || exists i :: 0 <= i < |a| && OccursAt(a + b, v, i)
  {
    var i :| 0 <= i <= |a + b| && OccursAt(a + b, v, i);
    if |a| <= i {
      assert (a + b)[i..i + |v|] == b[i - |a|..i - |a| + |v|];
      assert OccursAt(b, v, i - |a|);
    }
  }

  /**
   One pass for `value` leaves no occurrence of a marker-free `v` that was not in the text already,
   and none at all when `v` is the value being replaced.
   */
  lemma {:induction false} PassCreatesNoOccurrence(text: string, value: string, v: string)
    requires value != "" && v != "" && !OverlapsMarker(v)
    requires v == value || !Contains(text, v)
    ensures !Contains(Replace(text, value), v)
    decreases |text|
  {
    if text == "" {
    } else if OccursAt(text, value, 0) {
      var rest := text[|value|..];
      if v != value && Contains(rest, v) { SuffixContains(text, |value|, v); }
      PassCreatesNoOccurrence(rest, value, v);
      if Contains(Replace(text, value), v) {
        OccurrenceSplits(MARKER, Replace(rest, value), v);
        var i :| 0 <= i < |MARKER| && OccursAt(MARKER + Replace(rest, value), v, i);
        OccurrenceStartingInMarker(Replace(rest, value), v, i);
      }
    } else {
      var rest := text[1..];
      if v != value && Contains(rest, v) { SuffixContains(text, 1, v); }
      PassCreatesNoOccurrence(rest, value, v);
      if Contains(Replace(text, value), v) {
        OccurrenceSplits([text[0]], Replace(rest, value), v);
        HeadOccurrence(text, value, v);
      }
    }
  }

  /** The case of a kept first character: an occurrence at position 0 is old or overlaps a marker. */
  lemma HeadOccurrence(text: string, value: string, v: string)
    requires value != "" && v != "" && text != "" && !OccursAt(text, value, 0)
    requires OccursAt(Replace(text, value), v, 0)
    ensures OccursAt(text, v, 0) || RunsIntoMarker(v)
  {
    var rest := text[1..];
    assert v == Replace(text, value)[..|v|];
    assert v[1..] <= Replace(rest, value);
    PrefixRunsIntoMarker(rest, value, v[1..]);
    if RunsIntoMarker(v[1..]) {
      RunsIntoMarkerTail(v);
    } else {
      assert text == [text[0]] + rest;
    }
  }

  /** A pass for an absent value changes nothing. */
  lemma {:induction false} ReplaceAbsent(text: string, value: string)
    requires value != "" && !Contains(text, value)
    ensures Replace(text, value) == text
    decreases |text|
  {
    if text != "" {
      if Contains(text[1..], value) { SuffixContains(text, 1, value); }
      assert !OccursAt(text, value, 0);
      ReplaceAbsent(text[1..], value);
    }
  }

  // ----- the fold -----

  /**
   A value that does not overlap the marker never survives, wherever it stands in the
   registration order and whatever else is registered.
   */
  lemma {:induction false} RegisteredValueRemoved(values: seq<string>, text: string, v: string)
    requires Registrable(values) && v != "" && !OverlapsMarker(v)
    requires v in values || !Contains(text, v)
    ensures !Contains(RedactAll(values, text), v)
    decreases |values|
  {
    if values != [] {
      var next := Replace(text, values[0]);
      if v == values[0] || !Contains(text, v) {
        PassCreatesNoOccurrence(text, values[0], v);
      }
      RegisteredValueRemoved(values[1..], next, v);
    }
  }

  lemma {:induction false} RedactAllAbsent(values: seq<string>, text: string)
    requires Registrable(values)
    requires forall v :: v in values ==> !Contains(text, v)
    ensures RedactAll(values, text) == text
    decreases |values|
  {
    if values != [] {
      ReplaceAbsent(text, values[0]);
      RedactAllAbsent(values[1..], text);
    }
  }

  /** Main result: no registered value is left, and redacting again changes nothing. */
  lemma RedactionIsCompleteAndIdempotent(values: seq<string>, text: string)
    requires Registrable(values)
    requires forall v :: v in values ==> !OverlapsMarker(v)
    ensures forall v :: v in values ==> !Contains(RedactAll(values, text), v)
    ensures RedactAll(values, RedactAll(values, text)) == RedactAll(values, text)
  {
    forall v | v in values ensures !Contains(RedactAll(values, text), v) {
      RegisteredValueRemoved(values, text, v);
    }
    RedactAllAbsent(values, RedactAll(values, text));
  }

  // ----- what registration lets in -----

  /** Registration ignores values whose trimmed text is shorter than eight bytes. */
  predicate LongEnough(secret: string) {
    Utf8Length(Trim(secret)) >= MIN_SECRET_BYTES
  }

  /** The lists registration can build: long enough values, each once. */
  predicate Registered(values: seq<string>)
    ensures Registered(values) ==> Registrable(values)
  {
    && (forall i :: 0 <= i < |values| ==> LongEnough(values[i]))
    && (forall i, j :: 0 <= i < j < |values| ==> values[i] != values[j])
  }

  // ----- exactly which values are safe to register -----

  /** `v` is removed from every text, whatever else registration accepts before and after it. */
  ghost predicate SafeToRegister(v: string)
    requires LongEnough(v)
  {
    forall before: seq<string>, after: seq<string>, text: string ::
      Registered(before + [v] + after) ==>
        !Contains(RedactAll(before + [v] + after, text), v)
  }

  /** A run of one ordinary character. */
  function Filler(c: char, n: nat): (f: string)
    ensures |f| == n
    ensures forall i :: 0 <= i < n ==> f[i] == c
  {
    seq(n, _ => c)
  }

  /** An ordinary character that `left` does not end with. */
  function FillerChar(left: string): char {
    if left != "" && left[|left| - 1] == 'z' then 'y' else 'z'
  }

  /** Longer than `v` and its neighbours in the text, and long enough to be registered. */
  function FillerLength(v: string): (n: nat)
    ensures n > |v| && n >= MIN_SECRET_BYTES
  {
    if 2 * |v| < MIN_SECRET_BYTES then MIN_SECRET_BYTES else 2 * |v|
  }

  lemma FillerIsLongEnough(c: char, n: nat)
    requires c == 'y' || c == 'z'
    requires n >= MIN_SECRET_BYTES
    ensures LongEnough(Filler(c, n))
  {
    AsciiLength(Filler(c, n));
  }

  lemma TailOfConcat(left: string, mid: string, right: string)
    requires left != ""
    ensures var text := left + mid + right;
            && text[0] == left[0] && text[1..] == left[1..] + mid + right
            && [left[0]] + (left[1..] + mid + right) == text
  {
  }

  /** The filler does not start before its place. */
  lemma FillerStartsLater(left: string, c: char, n: nat, right: string)
    requires 0 < |left| < n && left[|left| - 1] != c
    ensures !OccursAt(left + Filler(c, n) + right, Filler(c, n), 0)
  {
    var text := left + Filler(c, n) + right;
    assert text[..n][|left| - 1] == left[|left| - 1] != Filler(c, n)[|left| - 1];
  }

  /** The filler's own pass puts the marker between left and right. */
  lemma {:induction false} ReplaceFiller(left: string, c: char, n: nat, right: string)
    requires |left| < n && |right| < n && (left == "" || left[|left| - 1] != c)
    ensures Replace(left + Filler(c, n) + right, Filler(c, n)) == left + MARKER + right
    decreases |left|
  {
    var filler := Filler(c, n);
    var text := left + filler + right;
    if left == "" {
      assert text == filler + right && text[n..] == right;
      ReplaceAbsent(right, filler);
      assert left + MARKER + right == MARKER + right;
    } else {
      FillerStartsLater(left, c, n, right);
      TailOfConcat(left, filler, right);
      ReplaceFiller(left[1..], c, n, right);
      TailOfConcat(left, MARKER, right);
    }
  }

  /** A text that `v`'s pass leaves alone and a later, ordinary registration turns into one with `v`. */
  lemma FillerWitness(v: string, left: string, right: string)
    requires LongEnough(v) && |left| <= |v| && |right| <= |v|
    requires !Contains(left + Filler(FillerChar(left), FillerLength(v)) + right, v)
    requires Contains(left + MARKER + right, v)
    ensures !SafeToRegister(v)
  {
    var filler := Filler(FillerChar(left), FillerLength(v));
    var text := left + filler + right;
    var values := [] + [v] + [filler];
    FillerIsLongEnough(FillerChar(left), FillerLength(v));
    assert Registered(values);
    ReplaceAbsent(text, v);
    ReplaceFiller(left, FillerChar(left), FillerLength(v), right);
    assert values[1..] == [filler] && values[1..][1..] == [];
    calc {
      RedactAll(values, text);
      RedactAll(values[1..], text);
      RedactAll([], Replace(text, filler));
      left + MARKER + right;
    }
  }

  lemma AgreeAt(a: string, b: string, p: nat)
    requires Agree(a, b) && p < |a| && p < |b|
    ensures a[p] == b[p]
  {
  }

  lemma DiffersEverywhere(text: string, v: string, p: nat)
    requires p < |v| && forall k :: p <= k && k - p + |v| <= |text| ==> text[k] != v[p]
    ensures !Contains(text, v)
  {
    forall i | 0 <= i <= |text| ensures !OccursAt(text, v, i) {
      if i + |v| <= |text| { assert text[i..i + |v|][p] == text[i + p] != v[p]; }
    }
  }

  /** What of `v` lies behind the marker that starts at its position `j`. */
  function AfterMarker(v: string, j: nat): string
    requires j < |v|
  {
    if |v| - j <= |MARKER| then "" else v[j + |MARKER|..]
  }

  /** The '[' of `v` would have to be one of the filler's characters. */
  lemma FillerHasNoBracket(v: string, j: nat, c: char, n: nat)
    requires j < |v| < n && v[j] == '[' != c
    ensures !Contains(v[..j] + Filler(c, n) + AfterMarker(v, j), v)
  {
    var text := v[..j] + Filler(c, n) + AfterMarker(v, j);
    forall k | j <= k && k - j + |v| <= |text| ensures text[k] != v[j] {
      assert k - j < n && text[k] == Filler(c, n)[k - j];
    }
    DiffersEverywhere(text, v, j);
  }

  lemma MarkerHasBracket(v: string, j: nat)
    requires j < |v| && Agree(v[j..], MARKER)
    ensures Contains(v[..j] + MARKER + AfterMarker(v, j), v)
  {
    var text := v[..j] + MARKER + AfterMarker(v, j);
    assert text == v[..j] + (MARKER + AfterMarker(v, j));
    assert v == v[..j] + v[j..];
    assert OccursAt(text, v, 0);
  }

  /** `v` runs into the marker from the left. */
  lemma RunsIntoMarkerUnsafe(v: string, j: nat)
    requires LongEnough(v) && j < |v| && Agree(v[j..], MARKER)
    ensures !SafeToRegister(v)
  {
    AgreeAt(v[j..], MARKER, 0);
    FillerHasNoBracket(v, j, FillerChar(v[..j]), FillerLength(v));
    MarkerHasBracket(v, j);
    FillerWitness(v, v[..j], AfterMarker(v, j));
  }

  /** What of `v` lies behind a marker at whose position `i` it starts. */
  function BehindMarker(v: string, i: nat): string
    requires i < |MARKER|
  {
    if |v| <= |MARKER| - i then "" else v[|MARKER| - i..]
  }

  lemma FillerHasNoStart(v: string, i: nat, n: nat)
    requires v != "" && i < |MARKER| && Agree(MARKER[i..], v)
    ensures !Contains(Filler('z', n) + BehindMarker(v, i), v)
  {
    var k := |MARKER| - i;
    var p := if |v| <= k then 0 else k - 1;
    AgreeAt(MARKER[i..], v, p);
    assert v[p] == MARKER[i + p] != 'z';
    DiffersEverywhere(Filler('z', n) + BehindMarker(v, i), v, p);
  }

  lemma MarkerHasStart(v: string, i: nat)
    requires v != "" && i < |MARKER| && Agree(MARKER[i..], v)
    ensures Contains(MARKER + BehindMarker(v, i), v)
  {
    var text := MARKER + BehindMarker(v, i);
    assert text[i..] == MARKER[i..] + BehindMarker(v, i);
    assert text[i..i + |v|] == text[i..][..|v|] == v;
    assert OccursAt(text, v, i);
  }

  /** `v` starts inside the marker. */
  lemma StartsInMarkerUnsafe(v: string, i: nat)
    requires LongEnough(v) && i < |MARKER| && Agree(MARKER[i..], v)
    ensures !SafeToRegister(v)
  {
    var right := BehindMarker(v, i);
    FillerHasNoStart(v, i, FillerLength(v));
    MarkerHasStart(v, i);
    assert "" + Filler('z', FillerLength(v)) + right == Filler('z', FillerLength(v)) + right;
    assert "" + MARKER + right == MARKER + right;
    FillerWitness(v, "", right);
  }

  /**
   Main result: the registered values that are removed whatever else is registered are exactly those
   clear of the marker.
   */
  lemma SafeExactlyWhenClearOfMarker(v: string)
    requires LongEnough(v)
    ensures SafeToRegister(v) <==> !OverlapsMarker(v)
  {
    if OverlapsMarker(v) {
      if RunsIntoMarker(v) {
        var j :| 0 <= j < |v| && Agree(v[j..], MARKER);
        RunsIntoMarkerUnsafe(v, j);
      } else {
        var i :| 0 <= i < |MARKER| && Agree(MARKER[i..], v);
        StartsInMarkerUnsafe(v, i);
      }
    } else {
      forall before: seq<string>, after: seq<string>, text: string | Registered(before + [v] + after)
        ensures !Contains(RedactAll(before + [v] + after, text), v)
      {
        assert (before + [v] + after)[|before|] == v;
        RegisteredValueRemoved(before + [v] + after, text, v);
      }
    }
  }

  // ----- values without brackets -----

  /**
   A registered value with no bracket in it, other than the word "redacted" itself, is clear of the
   marker.
   */
  lemma BracketFreeIsClear(v: string)
    requires LongEnough(v) && '[' !in v && ']' !in v && v != "redacted"
    ensures v != "" && !OverlapsMarker(v)
  {
    assert v != "" by {
      var at := TrimIsInfix(v);
    }
    forall j | 0 <= j < |v| ensures !Agree(v[j..], MARKER) {
      assert v[j] != '[';
    }
    forall i | 0 <= i < |MARKER| ensures !Agree(MARKER[i..], v) {
      BracketFreeNotInMarker(v, i);
    }
  }

  lemma BracketFreeNotInMarker(v: string, i: nat)
    requires LongEnough(v) && '[' !in v && ']' !in v && v != "redacted" && i < |MARKER|
    ensures !Agree(MARKER[i..], v)
  {
    if |MARKER| - i <= |v| {
      assert v[|MARKER| - i - 1] != MARKER[i..][|MARKER| - i - 1];
    } else if v == MARKER[i..i + |v|] {
      BracketFreePiece(i, |v|);
    }
  }

  lemma MarkerIsAscii()
    ensures forall k :: 0 <= k < |MARKER| ==> MARKER[k] < '\U{80}'
  {
  }

  lemma BracketFreePiece(i: nat, n: nat)
    requires i + n < |MARKER| && LongEnough(MARKER[i..i + n]) && '[' !in MARKER[i..i + n]
    ensures MARKER[i..i + n] == "redacted"
  {
    var v := MARKER[i..i + n];
    MarkerIsAscii();
    TrimmedAsciiLength(v);
    assert v[0] == MARKER[i];
    assert v == MARKER[1..9] == "redacted";
  }

  /** The one bracket-free value registration accepts and redaction cannot remove. */
  lemma MarkerWordIsAcceptedButUnsafe()
    ensures LongEnough("redacted") && !SafeToRegister("redacted")
  {
    MarkerWordIsLongEnough();
    MarkerWordOverlaps();
    SafeExactlyWhenClearOfMarker("redacted");
  }

  lemma MarkerWordIsLongEnough()
    ensures LongEnough("redacted")
  {
  }

  lemma MarkerWordOverlaps()
    ensures OverlapsMarker("redacted")
  {
    assert MARKER[1..] == "redacted]" && "redacted" <= "redacted]";
    assert Agree(MARKER[1..], "redacted");
  }

  // ----- the registry -----

  /** The process-wide list of registered values, in registration order. */
  class SecretRegistry {
    var secrets: seq<string>

    ghost predicate Valid()
      reads this
    {
      Registered(secrets)
    }

    constructor ()
      ensures Valid() && secrets == []
    {
      secrets := [];
    }

    /** Appends a value that is long enough and not yet listed; otherwise does nothing. */
    method Register(secret: string)
      requires Valid()
      modifies this
      ensures Valid()
      ensures secrets == if LongEnough(secret) && secret !in old(secrets)
                         then old(secrets) + [secret] else old(secrets)
    {
      if Utf8Length(Trim(secret)) < MIN_SECRET_BYTES {
        return;
      }
      if secret !in secrets {
        secrets := secrets + [secret];
      }
    }

    /** Folds one replacement pass per registered value over the text. */
    method Redact(text: string) returns (redacted: string)
      requires Valid()
      ensures Registrable(secrets) && redacted == RedactAll(secrets, text)
      ensures forall v :: v in secrets && !OverlapsMarker(v) ==> !Contains(redacted, v)
    {
      redacted := text;
      var i := 0;
      while i < |secrets|
        invariant 0 <= i <= |secrets|
        invariant RedactAll(secrets[i..], redacted) == RedactAll(secrets, text)
      {
        redacted := Replace(redacted, secrets[i]);
        assert secrets[i..][1..] == secrets[i + 1..];
        i := i + 1;
      }
      forall v | v in secrets && !OverlapsMarker(v) ensures !Contains(redacted, v) {
        RegisteredValueRemoved(secrets, text, v);
      }
    }
  }

}
