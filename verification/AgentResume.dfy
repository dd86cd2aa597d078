/**
 How unresolved errors survive from one run of a task to the next
 (crates/harness-agent/src/lib.rs, where `run` reads the stored error list back and where it
 rebuilds the list from the map).  The map is stored as a list of its values; a value written in a
 run starts with its key, a value read back does not.
 */
module AgentResume {
  import opened Wrappers
  import opened Text
  import opened AgentMachine
  import Plan = ExecutionPlan

  const SEPARATOR: string := " :: "

  function KeyText(key: Key): string {
    match key
    case Provider => "runtime:provider"
    case Guard => "runtime:guard:tool_call"
    case Tool(name) => "tool:" + name
    case Check(suffix) => "verification:" + suffix
    case Other(text) => text
  }

  function KeyOf(text: string): Key {
    if text == "runtime:provider" then Provider
    else if text == "runtime:guard:tool_call" then Guard
    else if "tool:" <= text then Tool(text[5..])
    else if "verification:" <= text then Check(text[13..])
    else Other(text)
  }

  lemma KeyOfText(text: string)
    ensures KeyText(KeyOf(text)) == text
  {
  }

  lemma TextOfKey(key: Key)
    requires !key.Other?
    ensures KeyOf(KeyText(key)) == key
  {
    match key
    case Tool(name) => assert ("tool:" + name)[0] == 't' && ("tool:" + name)[5..] == name;
    case Check(suffix) =>
      var text := "verification:" + suffix;
      assert text[0] == 'v' && text[13..] == suffix;
    case _ =>
  }

  /** The message of an entry, as it is listed. */
  function MessageOf(e: Entry): string {
    match e
    case Summary(message) => BoundedSummary(message)
    case RepeatedCall(attempts, tool) =>
      "Stopped a repeated identical tool call after " + Decimal(attempts) + " attempts: " + tool
    case DiffMissing =>
      "A final diff could not be assembled for the changed files. Inspect the latest file edits before finishing."
    case CheckMissing =>
      "No successful relevant verification has run since the most recent edit. "
      + "Run the appropriate test, build, lint, format, or typecheck command before finishing."
    case Bare(text) => text
  }

  function LineOf(key: Key, e: Entry): string {
    if e.Bare? then e.text else KeyText(key) + SEPARATOR + MessageOf(e)
  }

  /** `lines` lists the values of the map, each once, in some order. */
  ghost predicate Renders(lines: seq<string>, keys: seq<Key>, errors: Errors) {
    && |lines| == |keys|
    && (forall i, j :: 0 <= i < j < |keys| ==> keys[i] != keys[j])
    && (forall key :: key in keys <==> key in errors)
    && forall i :: 0 <= i < |keys| ==> keys[i] in errors && lines[i] == LineOf(keys[i], errors[keys[i]])
  }

  function LineText(l: Line): string {
    match l
    case Stored(text) => text
    case ProviderFailure(message) => KeyText(Provider) + SEPARATOR + BoundedSummary(message)
    case HookFailure(error) => "SessionEnd hook failed: " + error
  }

  /** The stored list of a listing: the values of its map in some order, then the lines pushed since. */
  ghost predicate RendersListing(lines: seq<string>, keys: seq<Key>, listing: Listing) {
    && |lines| == |keys| + |listing.pushed|
    && Renders(lines[..|keys|], keys, listing.rebuilt)
    && forall i :: 0 <= i < |listing.pushed| ==> lines[|keys| + i] == LineText(listing.pushed[i])
  }

  // ----- reading a list back -----

  /** The index of the first separator, or the length. */
  function SeparatorIndex(s: string): (i: nat)
    ensures i <= |s|
    decreases |s|
  {
    if s == "" || SEPARATOR <= s then 0 else 1 + SeparatorIndex(s[1..])
  }

  predicate HasSeparator(s: string) { SeparatorIndex(s) < |s| }

  /** The key and the message of a listed error; none without a separator. */
  function Split(s: string): Option<(string, string)> {
    var i := SeparatorIndex(s);
    if SEPARATOR <= s[i..] then Some((s[..i], s[i + 4..])) else None
  }

  function WithLine(errors: Errors, line: string): Errors {
    match Split(line)
    case None => errors
    case Some((key, message)) => errors[KeyOf(key) := Bare(message)]
  }

  /** The map read back from a stored list; lines without a separator are dropped. */
  function ParseErrors(lines: seq<string>): Errors
    decreases |lines|
  {
    if lines == [] then map[] else WithLine(ParseErrors(lines[..|lines| - 1]), lines[|lines| - 1])
  }

  lemma {:induction false} SplitExactlyWhenSeparated(s: string)
    ensures Split(s).Some? <==> HasSeparator(s)
    ensures HasSeparator(s) <==> exists i :: 0 <= i < |s| && SEPARATOR <= s[i..]
    decreases |s|
  {
    if s != "" && !(SEPARATOR <= s) {
      SplitExactlyWhenSeparated(s[1..]);
      assert s[SeparatorIndex(s)..] == s[1..][SeparatorIndex(s[1..])..];
      if i :| 0 <= i < |s| && SEPARATOR <= s[i..] {
        assert i > 0 && s[1..][i - 1..] == s[i..];
      }
      if i :| 0 <= i < |s| - 1 && SEPARATOR <= s[1..][i..] {
        assert s[i + 1..] == s[1..][i..];
      }
    } else if s != "" {
      assert s[0..] == s;
    }
  }

  /** Neither in the key nor across its end does another separator start. */
  predicate Separable(key: string) { SeparatorIndex(key + SEPARATOR) == |key| }

  lemma {:induction false} FirstSeparatorIsInTheKey(key: string, message: string)
    ensures SeparatorIndex(key + SEPARATOR + message) == SeparatorIndex(key + SEPARATOR) <= |key|
    decreases |key|
  {
    var short := key + SEPARATOR;
    var long := short + message;
    if key == "" {
      assert short == SEPARATOR;
      assert SEPARATOR <= long;
    } else {
      assert SEPARATOR <= short <==> SEPARATOR <= long;
      assert short[1..] == key[1..] + SEPARATOR;
      assert long[1..] == key[1..] + SEPARATOR + message;
      FirstSeparatorIsInTheKey(key[1..], message);
    }
  }

  /** A line written in a run gives back its key exactly when no separator starts inside the key. */
  lemma LineSplitsExactlyWhen(key: Key, e: Entry)
    requires !e.Bare?
    ensures Split(LineOf(key, e)) == Some((KeyText(key), MessageOf(e))) <==> Separable(KeyText(key))
  {
    TextSplitsExactlyWhen(KeyText(key), MessageOf(e));
  }

  lemma TextSplitsExactlyWhen(text: string, message: string)
    ensures Split(text + SEPARATOR + message) == Some((text, message)) <==> Separable(text)
  {
    var line := text + SEPARATOR + message;
    FirstSeparatorIsInTheKey(text, message);
    if Separable(text) {
      assert line[|text|..] == SEPARATOR + message;
      assert line[..|text|] == text && line[|text| + 4..] == message;
    }
  }

  const GUARD_PREFIX: string := "runtime:guard:"

  /** Guard errors do not outlive their run. */
  function WithoutGuards(lines: seq<string>): (r: seq<string>)
    decreases |lines|
  {
    if lines == [] then []
    else if GUARD_PREFIX <= lines[|lines| - 1] then WithoutGuards(lines[..|lines| - 1])
    else WithoutGuards(lines[..|lines| - 1]) + [lines[|lines| - 1]]
  }

  /** The map a resumed run starts with. */
  function ReadErrors(lines: seq<string>): Errors { ParseErrors(WithoutGuards(lines)) }

  function ReadOne(before: Errors, line: string): Errors {
    if GUARD_PREFIX <= line then before else WithLine(before, line)
  }

  lemma ReadStep(lines: seq<string>)
    requires lines != []
    ensures ReadErrors(lines) == ReadOne(ReadErrors(lines[..|lines| - 1]), lines[|lines| - 1])
  {
    var n := |lines| - 1;
    var kept := WithoutGuards(lines[..n]);
    assert (kept + [lines[n]])[..|kept|] == kept;
  }

  /** What a run finds in the map after the list of an earlier run has been read back. */
  function ReadBack(errors: Errors): Errors { map key | key in errors :: Bare(MessageOf(errors[key])) }

  lemma ReadBackWithout(errors: Errors, a: Key, b: Key)
    ensures ReadBack(errors) - {a} - {b} == ReadBack(errors - {a} - {b})
  {
  }

  lemma NothingReadBack(errors: Errors)
    ensures ReadBack(errors) == map[] <==> errors == map[]
  {
    if key :| key in errors { assert key in ReadBack(errors); }
  }

  /** An entry as a run writes it, under a key that can be found again. */
  predicate Fresh(key: Key, e: Entry) { !key.Other? && !e.Bare? && Separable(KeyText(key)) }

  lemma SplitLineParses(before: Errors, line: string, text: string, message: string)
    requires Split(line) == Some((text, message))
    ensures WithLine(before, line) == before[KeyOf(text) := Bare(message)]
  {
  }

  lemma ProviderLine(rest: string)
    ensures !(GUARD_PREFIX <= KeyText(Provider) + rest)
  {
    assert (KeyText(Provider) + rest)[8] == KeyText(Provider)[8] == 'p' && GUARD_PREFIX[8] == 'g';
  }

  lemma GuardLine(rest: string)
    ensures GUARD_PREFIX <= KeyText(Guard) + rest
  {
    assert KeyText(Guard) == GUARD_PREFIX + "tool_call";
    assert KeyText(Guard) + rest == GUARD_PREFIX + ("tool_call" + rest);
  }

  lemma OtherLine(text: string, rest: string)
    requires text != "" && text[0] != 'r'
    ensures !(GUARD_PREFIX <= text + rest)
  {
    assert (text + rest)[0] == text[0] && GUARD_PREFIX[0] == 'r';
  }

  /** Only the guard's own line is taken for a guard line. */
  lemma GuardLines(key: Key, rest: string)
    requires !key.Other?
    ensures GUARD_PREFIX <= KeyText(key) + rest <==> key == Guard
  {
    match key
    case Provider => ProviderLine(rest);
    case Guard => GuardLine(rest);
    case Tool(name) => OtherLine(KeyText(key), rest);
    case Check(suffix) => OtherLine(KeyText(key), rest);
  }

  /** Reading the line adds the key with the message, unless the key is the guard's. */
  ghost predicate ReadsAs(line: string, key: Key, message: string) {
    forall before :: ReadOne(before, line) == if key == Guard then before else before[key := Bare(message)]
  }

  lemma TextReadsAs(text: string, message: string, key: Key)
    requires Separable(text) && KeyOf(text) == key
    requires GUARD_PREFIX <= text + (SEPARATOR + message) <==> key == Guard
    ensures ReadsAs(text + SEPARATOR + message, key, message)
  {
    var line := text + SEPARATOR + message;
    assert line == text + (SEPARATOR + message);
    TextSplitsExactlyWhen(text, message);
    forall before ensures ReadOne(before, line) == if key == Guard then before else before[key := Bare(message)] {
      SplitLineParses(before, line, text, message);
    }
  }

  lemma LineReadsAs(key: Key, e: Entry)
    requires Fresh(key, e)
    ensures ReadsAs(LineOf(key, e), key, MessageOf(e))
  {
    TextOfKey(key);
    GuardLines(key, SEPARATOR + MessageOf(e));
    TextReadsAs(KeyText(key), MessageOf(e), key);
  }

  /** The map with the given keys only. */
  function Restricted(errors: Errors, keys: seq<Key>): Errors { map key | key in keys && key in errors :: errors[key] }

  lemma {:induction false} ReadKeys(lines: seq<string>, keys: seq<Key>, messages: map<Key, string>, read: Errors)
    requires |lines| == |keys|
    requires forall i :: 0 <= i < |keys| ==> keys[i] in messages && ReadsAs(lines[i], keys[i], messages[keys[i]])
    requires read == map key | key in messages && key != Guard :: Bare(messages[key])
    ensures ReadErrors(lines) == Restricted(read, keys)
    decreases |lines|
  {
    if lines == [] {
      assert Restricted(read, keys) == map[];
    } else {
      var n := |lines| - 1;
      ReadStep(lines);
      ReadKeys(lines[..n], keys[..n], messages, read);
      RestrictedStep(read, keys, n);
      assert ReadsAs(lines[n], keys[n], messages[keys[n]]);
    }
  }

  lemma RestrictedStep(read: Errors, keys: seq<Key>, n: nat)
    requires |keys| == n + 1
    ensures Restricted(read, keys)
            == if keys[n] in read then Restricted(read, keys[..n])[keys[n] := read[keys[n]]]
               else Restricted(read, keys[..n])
  {
    assert keys == keys[..n] + [keys[n]];
  }

  function Messages(errors: Errors): map<Key, string> { map key | key in errors :: MessageOf(errors[key]) }

  lemma ReadBackIs(errors: Errors, messages: map<Key, string>)
    requires messages == Messages(errors)
    ensures ReadBack(errors) - {Guard} == map key | key in messages && key != Guard :: Bare(messages[key])
  {
  }

  lemma RenderedReads(lines: seq<string>, keys: seq<Key>, errors: Errors, messages: map<Key, string>)
    requires Renders(lines, keys, errors) && forall key :: key in errors ==> Fresh(key, errors[key])
    requires messages == Messages(errors)
    ensures forall i :: 0 <= i < |keys| ==> keys[i] in messages && ReadsAs(lines[i], keys[i], messages[keys[i]])
  {
    forall i | 0 <= i < |keys| ensures keys[i] in messages && ReadsAs(lines[i], keys[i], messages[keys[i]]) {
      var key := keys[i];
      var e := errors[key];
      LineReadsAs(key, e);
      assert lines[i] == LineOf(key, e);
    }
  }

  /**
   The first resume: whatever the order of the stored list, every key of the earlier run but the guard's
   is found again, with its message, when no key contains a separator.
   */
  lemma FirstResumeKeepsEveryKey(lines: seq<string>, keys: seq<Key>, errors: Errors)
    requires Renders(lines, keys, errors)
    requires forall key :: key in errors ==> Fresh(key, errors[key])
    ensures ReadErrors(lines) == ReadBack(errors) - {Guard}
  {
    var read := ReadBack(errors) - {Guard};
    var messages := Messages(errors);
    RenderedReads(lines, keys, errors, messages);
    ReadBackIs(errors, messages);
    ReadKeys(lines, keys, messages, read);
    AllKeys(read, keys);
  }

  lemma AllKeys(read: Errors, keys: seq<Key>)
    requires forall key :: key in read ==> key in keys
    ensures Restricted(read, keys) == read
  {
  }

  /** A line that a resume does not find again. */
  predicate Lost(line: string) { GUARD_PREFIX <= line || !HasSeparator(line) }

  lemma {:induction false} NothingReadExactlyWhen(lines: seq<string>)
    ensures ReadErrors(lines) == map[] <==> forall i :: 0 <= i < |lines| ==> Lost(lines[i])
    decreases |lines|
  {
    if lines != [] {
      var n := |lines| - 1;
      ReadStep(lines);
      NothingReadExactlyWhen(lines[..n]);
      SplitExactlyWhenSeparated(lines[n]);
      if !Lost(lines[n]) {
        assert KeyOf(Split(lines[n]).value.0) in ReadErrors(lines);
      } else {
        assert forall i :: 0 <= i < n ==> lines[..n][i] == lines[i];
      }
    }
  }

  /**
   The second resume: a map that was itself read back is forgotten completely, whatever the order,
   exactly when each of its messages is without a separator, or happens to start like a guard line.
   */
  lemma SecondResumeForgetsExactlyWhen(lines: seq<string>, keys: seq<Key>, errors: Errors)
    requires Renders(lines, keys, ReadBack(errors))
    ensures ReadErrors(lines) == map[] <==> forall key :: key in errors ==> Lost(MessageOf(errors[key]))
  {
    var read := ReadBack(errors);
    NothingReadExactlyWhen(lines);
    forall i | 0 <= i < |keys| ensures lines[i] == MessageOf(errors[keys[i]]) {
      assert read[keys[i]] == Bare(MessageOf(errors[keys[i]]));
    }
    forall key | key in errors ensures exists i :: 0 <= i < |keys| && keys[i] == key {
      assert key in read && key in keys;
    }
  }

  // ----- where a run starts -----

  /**
   What a session has stored of a task: the last reported task run, and, over all its runs, the log of
   edits and inspections and the operations on the plan, which began as `origin`.  `source` is the plan
   text of a session older than execution plans.
   */
  datatype Stored = Stored(
    errors: seq<string>, changed: seq<string>, results: seq<CheckResult>, inspected: bool, review: seq<ReviewEvent>,
    structured: bool, source: Option<(seq<string>, Plan.Context)>, origin: Plan.State, planOps: seq<Plan.Op>)

  function AsLines(lines: seq<string>): (r: seq<Line>)
    ensures |r| == |lines| && forall i :: 0 <= i < |r| ==> r[i] == Line.Stored(lines[i])
  {
    seq(|lines|, i requires 0 <= i < |lines| => Line.Stored(lines[i]))
  }

  /** The stored plan text becomes the plan where there is none; then the plan is advanced. */
  function StartOps(stored: Stored): seq<Plan.Op> {
    match stored.source
    case None => [Plan.Resume]
    case Some((steps, context)) => [Plan.Restore(steps, context), Plan.Resume]
  }

  function StartListing(stored: Stored): Listing { Listing(map[], AsLines(WithoutGuards(stored.errors))) }

  /** The run is in progress again and reported; what was inspected stays inspected. */
  function Start(cfg: Config, stored: Stored): State {
    var ops := stored.planOps + StartOps(stored);
    State(Budget(0, 0, 0, Some(0), map[], multiset{}), map[], multiset{},
          ReadErrors(stored.errors), StartListing(stored),
          Stall(0, 0, 0), cfg.mode != Code || stored.changed == [], stored.inspected, stored.review,
          stored.changed, stored.results, stored.structured, ops,
          Snapshot(StartListing(stored), stored.changed, stored.results, stored.inspected, stored.structured, ops))
  }

}
