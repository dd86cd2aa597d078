/**
 What several modules need of Rust's `str`: byte lengths, white space and trimming, on strings of
 Unicode scalar values.
 */
module Text {

  function Utf8Width(c: char): nat {
    if c < '\U{80}' then 1 else if c < '\U{800}' then 2 else if c < '\U{10000}' then 3 else 4
  }

  function Utf8Length(s: string): nat {
    if s == "" then 0 else Utf8Width(s[0]) + Utf8Length(s[1..])
  }

  /** Unicode White_Space. */
  predicate IsWhitespace(c: char) {
    || '\U{9}' <= c <= '\U{D}' || c == ' ' || c == '\U{85}' || c == '\U{A0}' || c == '\U{1680}'
    || '\U{2000}' <= c <= '\U{200A}' || c == '\U{2028}' || c == '\U{2029}' || c == '\U{202F}'
    || c == '\U{205F}' || c == '\U{3000}'
  }

  function TrimStart(s: string): string {
    if s != "" && IsWhitespace(s[0]) then TrimStart(s[1..]) else s
  }

  function TrimEnd(s: string): string {
    if s != "" && IsWhitespace(s[|s| - 1]) then TrimEnd(s[..|s| - 1]) else s
  }

  function Trim(s: string): string {
    TrimEnd(TrimStart(s))
  }

  predicate IsBlank(s: string) {
    Trim(s) == ""
  }

  lemma TrimIsInfix(s: string) returns (i: nat)
    ensures i + |Trim(s)| <= |s| && Trim(s) == s[i..i + |Trim(s)|]
  {
    i := TrimStartIsSuffix(s);
    TrimEndIsPrefix(TrimStart(s));
  }

  lemma {:induction false} TrimStartIsSuffix(s: string) returns (i: nat)
    ensures i <= |s| && TrimStart(s) == s[i..]
  {
    if s != "" && IsWhitespace(s[0]) {
      i := TrimStartIsSuffix(s[1..]);
      i := i + 1;
    } else {
      i := 0;
    }
  }

  lemma {:induction false} TrimEndIsPrefix(s: string)
    ensures TrimEnd(s) <= s
    decreases |s|
  {
    if s != "" && IsWhitespace(s[|s| - 1]) {
      TrimEndIsPrefix(s[..|s| - 1]);
    }
  }

  lemma {:induction false} AsciiLength(s: string)
    requires forall i :: 0 <= i < |s| ==> s[i] < '\U{80}'
    ensures Utf8Length(s) == |s|
  {
    if s != "" { AsciiLength(s[1..]); }
  }

  lemma TrimmedAsciiLength(s: string)
    requires forall i :: 0 <= i < |s| ==> s[i] < '\U{80}'
    ensures Utf8Length(Trim(s)) <= |s|
  {
    var at := TrimIsInfix(s);
    forall i | 0 <= i < |Trim(s)| ensures Trim(s)[i] < '\U{80}' {
      assert Trim(s)[i] == s[at + i];
    }
    AsciiLength(Trim(s));
  }

  /** The longest prefix of at most `bytes` bytes. */
  function PrefixWithin(s: string, bytes: nat): string {
    if s == "" || Utf8Width(s[0]) > bytes then ""
    else [s[0]] + PrefixWithin(s[1..], bytes - Utf8Width(s[0]))
  }

  /** `bounded_summary`: at most 240 bytes, marked when cut. */
  function BoundedSummary(s: string): string {
    if Utf8Length(s) <= 240 then s else PrefixWithin(s, 240) + "\U{2026}"
  }

  function Decimal(n: nat): string {
    if n < 10 then [['0', '1', '2', '3', '4', '5', '6', '7', '8', '9'][n]]
    else Decimal(n / 10) + Decimal(n % 10)
  }

  // ----- bounded lists -----

  function PushBounded<T>(values: seq<T>, value: T, limit: nat): (r: seq<T>)
    ensures |values| <= limit ==> |r| <= limit
    ensures limit > 0 ==> r != [] && r[|r| - 1] == value
  {
    var pushed := values + [value];
    if |pushed| > limit then pushed[|pushed| - limit..] else pushed
  }

  function PushUniqueBounded<T(==)>(values: seq<T>, value: T, limit: nat): (r: seq<T>)
    ensures |values| <= limit ==> |r| <= limit
    ensures limit > 0 ==> value in r
  {
    if value in values then values else PushBounded(values, value, limit)
  }

  function PushAllUnique<T(==)>(values: seq<T>, more: seq<T>, limit: nat): seq<T>
    decreases |more|
  {
    if more == [] then values else PushAllUnique(PushUniqueBounded(values, more[0], limit), more[1..], limit)
  }

}
