/**
 Greedy, prioritised packing of context candidates into a token budget
 (crates/harness-context/src/lib.rs).

 Token counts are 32-bit: `estimate_tokens` truncates the byte length to 32 bits and the running
 total wraps around, as unchecked Rust arithmetic does.  The module proves for exactly which
 budgets the wrap-around cannot be reached.
 */
module ContextPacking {
  import opened Wrappers
  import opened Utf8Text

  const U32_LIMIT: nat := 0x1_0000_0000
  const U32_MAX: nat := 0xFFFF_FFFF
  const CONTEXT_FRACTION_PERCENT: nat := 75
  const MAX_RECENT_CONVERSATION_MESSAGES: nat := 8
  const MAX_RECENT_TOOL_RESULTS: nat := 24

  function Min(a: nat, b: nat): nat { if a <= b then a else b }

  function Max(a: nat, b: nat): nat { if a <= b then b else a }

  function SaturatingAdd(a: nat, b: nat): nat { Min(a + b, U32_MAX) }

  function SaturatingMul(a: nat, b: nat): nat { Min(a * b, U32_MAX) }

  function WrappingAdd(a: nat, b: nat): nat { (a + b) % U32_LIMIT }

  // ----- budgets -----

  datatype Budget = Budget(
    fileBytes: nat, toolBytes: nat, shellBytes: nat, diffBytes: nat, summaryBytes: nat, tokens: nat)

  /** The configured budget, capped at 75 percent of a known context window. */
  function BudgetForWindow(base: Budget, window: Option<nat>): Budget {
    match window
    case None => base
    case Some(w) =>
      base.(tokens := Min(base.tokens, Max(SaturatingMul(w, CONTEXT_FRACTION_PERCENT) / 100, 1)))
  }

  /** What is left for packing once other parts of the request have reserved their share. */
  function Reserve(budget: Budget, reserved: nat): Budget {
    budget.(tokens := Max(SubOrZero(budget.tokens, reserved), 1))
  }

  // ----- candidates and items -----

  datatype ContextLimit =
    FileSize | ToolResultSize | ShellOutputSize | GitDiffSize | CompactionSummarySize | WorkingBudget

  /**
   `summary` is the line selection `summarize_shell_output` makes of the content before its byte
   cut; which lines it selects is left open.
   */
  datatype Candidate = Candidate(
    id: string, content: Bytes, summary: Bytes, required: bool, limit: Option<ContextLimit>)

  datatype Item = Item(
    id: string, content: Bytes, originalBytes: nat, tokens: nat,
    included: bool, truncated: bool, limits: seq<ContextLimit>)

  datatype Packing = Packing(items: seq<Item>, used: nat)

  function EstimateTokens(value: Bytes): (t: nat)
    ensures t < 0x4000_0000
    ensures 4 * t <= |value| + 3
  {
    (|value| + 3) % U32_LIMIT / 4
  }

  function SummarizedShellOutput(content: Bytes, summary: Bytes, max: nat): Bytes {
    if |content| <= max then content else Truncated(summary, max)
  }

  /** The byte limit of the candidate's kind, if it has one. */
  function KindLimit(budget: Budget, limit: ContextLimit): Option<nat> {
    match limit
    case FileSize => Some(budget.fileBytes)
    case ToolResultSize => Some(budget.toolBytes)
    case ShellOutputSize => Some(budget.shellBytes)
    case GitDiffSize => Some(budget.diffBytes)
    case CompactionSummarySize => Some(budget.summaryBytes)
    case WorkingBudget => None
  }

  /** The content after the kind's own byte limit, and whether that limit cut it. */
  function Bounded(budget: Budget, c: Candidate): (Bytes, bool) {
    if c.limit.Some? && KindLimit(budget, c.limit.value).Some?
       && |c.content| > KindLimit(budget, c.limit.value).value then
      var max := KindLimit(budget, c.limit.value).value;
      (if c.limit.value.ShellOutputSize? then SummarizedShellOutput(c.content, c.summary, max)
       else Truncated(c.content, max), true)
    else (c.content, false)
  }

  /** The item a candidate becomes when `used` tokens are taken, and the new running total. */
  function Fit(used: nat, budget: Budget, c: Candidate): Option<(Item, nat)> {
    var (content, cut) := Bounded(budget, c);
    var limits := if cut then [c.limit.value] else [];
    var tokens := EstimateTokens(content);
    if WrappingAdd(used, tokens) > budget.tokens then
      if c.required then
        var rest := Truncated(content, SaturatingMul(SubOrZero(budget.tokens, used), 4));
        if EstimateTokens(rest) > 0 || rest == [] then
          Some((Item(c.id, rest, |c.content|, EstimateTokens(rest), true, true, limits + [WorkingBudget]),
                SaturatingAdd(used, EstimateTokens(rest))))
        else None
      else
        Some((Item(c.id, [], |c.content|, tokens, false, false, [WorkingBudget]), used))
    else
      Some((Item(c.id, content, |c.content|, tokens, true, cut, limits), WrappingAdd(used, tokens)))
  }

  function PackOne(p: Packing, budget: Budget, c: Candidate): Packing {
    match Fit(p.used, budget, c)
    case None => p
    case Some((item, used)) => Packing(p.items + [item], used)
  }

  function Pack(p: Packing, budget: Budget, cs: seq<Candidate>): Packing
    decreases |cs|
  {
    if cs == [] then p else Pack(PackOne(p, budget, cs[0]), budget, cs[1..])
  }

  const EMPTY: Packing := Packing([], 0)

  function IncludedTokens(items: seq<Item>): nat
    decreases |items|
  {
    if items == [] then 0
    else
      var last := items[|items| - 1];
      IncludedTokens(items[..|items| - 1]) + if last.included then last.tokens else 0
  }

  // ----- the packing theorem -----

  /** The largest budget whose running total cannot wrap: 2^32 less the largest estimate plus one. */
  const SAFE_BUDGET: nat := 0xC000_0000

  /** What holds of a packing of the candidates `cs`. */
  ghost predicate Packed(p: Packing, budget: Budget, cs: seq<Candidate>) {
    && p.used == IncludedTokens(p.items) <= budget.tokens
    && |p.items| == |cs|
    && forall i :: 0 <= i < |cs| ==> ItemFor(p.items[i], p.used, budget, cs[i])
  }

  /** The item is the candidate's, has the right estimate, is included if required, and is left out only if too big. */
  ghost predicate ItemFor(item: Item, used: nat, budget: Budget, c: Candidate) {
    && item.id == c.id && item.originalBytes == |c.content|
    && (item.included ==> item.tokens == EstimateTokens(item.content))
    && (c.required ==> item.included)
    && (!item.included ==>
          item.tokens == EstimateTokens(Bounded(budget, c).0) && used + item.tokens > budget.tokens)
    && (item.included && WorkingBudget !in item.limits ==> item.content == Bounded(budget, c).0)
  }

  lemma FitIsSound(used: nat, budget: Budget, c: Candidate)
    requires used <= budget.tokens <= SAFE_BUDGET
    ensures var fit := Fit(used, budget, c);
            && fit.Some?
            && ItemFor(fit.value.0, fit.value.1, budget, c)
            && fit.value.1 == used + (if fit.value.0.included then fit.value.0.tokens else 0) <= budget.tokens
  {
    var content := Bounded(budget, c).0;
    var room := budget.tokens - used;
    assert WrappingAdd(used, EstimateTokens(content)) == used + EstimateTokens(content);
    if EstimateTokens(content) > room && c.required { CutFits(content, room); }
  }

  /** What is cut to the room that is left fits it. */
  lemma CutFits(content: Bytes, room: nat)
    requires EstimateTokens(content) > room
    ensures var rest := Truncated(content, SaturatingMul(room, 4));
            EstimateTokens(rest) <= room && (EstimateTokens(rest) > 0 || rest == [])
  {
  }

  lemma PackOneKeeps(p: Packing, budget: Budget, cs: seq<Candidate>, c: Candidate)
    requires budget.tokens <= SAFE_BUDGET && Packed(p, budget, cs)
    ensures Packed(PackOne(p, budget, c), budget, cs + [c])
  {
    FitIsSound(p.used, budget, c);
    var next := PackOne(p, budget, c);
    assert next.items[..|p.items|] == p.items;
    forall i | 0 <= i < |cs + [c]| ensures ItemFor(next.items[i], next.used, budget, (cs + [c])[i]) {
      if i < |cs| {
        assert ItemFor(p.items[i], p.used, budget, cs[i]);
      }
    }
  }

  lemma {:induction false} PackKeeps(p: Packing, budget: Budget, done: seq<Candidate>, cs: seq<Candidate>)
    requires budget.tokens <= SAFE_BUDGET && Packed(p, budget, done)
    ensures Packed(Pack(p, budget, cs), budget, done + cs)
    decreases |cs|
  {
    if cs == [] {
      assert done + cs == done;
    } else {
      PackOneKeeps(p, budget, done, cs[0]);
      PackKeeps(PackOne(p, budget, cs[0]), budget, done + [cs[0]], cs[1..]);
      assert done + [cs[0]] + cs[1..] == done + cs;
    }
  }

  /**
   Main result: with a safe budget the total is the sum over the included items and within the
   budget, every candidate has exactly one item, required ones are included, and no excluded one
   would have fitted in what is left at the end.
   */
  lemma PackingIsSound(budget: Budget, cs: seq<Candidate>)
    requires budget.tokens <= SAFE_BUDGET
    ensures Packed(Pack(EMPTY, budget, cs), budget, cs)
  {
    PackKeeps(EMPTY, budget, [], cs);
    assert [] + cs == cs;
  }

  /** An optional candidate of the given size and no limit of its own. */
  predicate IsBlock(c: Candidate, tokens: nat) {
    !c.required && c.limit == None && EstimateTokens(c.content) == tokens
  }

  lemma PackBlock(p: Packing, budget: Budget, c: Candidate, tokens: nat, more: seq<Candidate>) returns (next: Packing)
    requires IsBlock(c, tokens) && WrappingAdd(p.used, tokens) <= budget.tokens
    ensures Pack(p, budget, [c] + more) == Pack(next, budget, more)
    ensures next.used == WrappingAdd(p.used, tokens)
    ensures IncludedTokens(next.items) == IncludedTokens(p.items) + tokens
  {
    next := PackOne(p, budget, c);
    assert ([c] + more)[1..] == more;
    assert next.items[..|p.items|] == p.items;
  }

  /** Four large candidates and a small one make the running total of a larger budget wrap to zero. */
  lemma FiveBlocksWrap(budget: Budget, big: Candidate, small: Candidate)
    requires budget.tokens > SAFE_BUDGET && IsBlock(big, 0x3FFF_FFFF) && IsBlock(small, 4)
    ensures var cs := [big] + ([big] + ([big] + ([small] + ([big] + []))));
            !Packed(Pack(EMPTY, budget, cs), budget, cs)
  {
    var p := PackBlock(EMPTY, budget, big, 0x3FFF_FFFF, [big] + ([big] + ([small] + ([big] + []))));
    p := PackBlock(p, budget, big, 0x3FFF_FFFF, [big] + ([small] + ([big] + [])));
    p := PackBlock(p, budget, big, 0x3FFF_FFFF, [small] + ([big] + []));
    p := PackBlock(p, budget, small, 4, [big] + []);
    p := PackBlock(p, budget, big, 0x3FFF_FFFF, []);
    assert p.used == 0;
  }

  function Zeros(n: nat): (z: Bytes)
    ensures |z| == n
  {
    seq(n, _ => 0)
  }

  lemma LargeBudgetWraps(budget: Budget)
    requires budget.tokens > SAFE_BUDGET
    ensures exists cs :: !Packed(Pack(EMPTY, budget, cs), budget, cs)
  {
    FiveBlocksWrap(budget, Candidate("big", Zeros(4 * 0x3FFF_FFFF), [], false, None),
                   Candidate("small", Zeros(16), [], false, None));
  }

  /** Packing is sound for every candidate list exactly when the budget is at most 0xC0000000. */
  lemma PackingSoundExactlyForSafeBudgets(budget: Budget)
    ensures (forall cs :: Packed(Pack(EMPTY, budget, cs), budget, cs)) <==> budget.tokens <= SAFE_BUDGET
  {
    if budget.tokens <= SAFE_BUDGET {
      forall cs ensures Packed(Pack(EMPTY, budget, cs), budget, cs) {
        PackingIsSound(budget, cs);
      }
    } else {
      LargeBudgetWraps(budget);
    }
  }

  /** A later candidate never changes what happened to an earlier one. */
  lemma EarlierCandidatesComeFirst(p: Packing, budget: Budget, cs: seq<Candidate>, more: seq<Candidate>)
    ensures Pack(p, budget, cs).items <= Pack(p, budget, cs + more).items
  {
    PackInTurn(p, budget, cs, more);
    PackOnlyAppends(Pack(p, budget, cs), budget, more);
  }

  lemma {:induction false} PackInTurn(p: Packing, budget: Budget, cs: seq<Candidate>, more: seq<Candidate>)
    ensures Pack(p, budget, cs + more) == Pack(Pack(p, budget, cs), budget, more)
    decreases |cs|
  {
    if cs == [] {
      assert cs + more == more;
    } else {
      assert (cs + more)[1..] == cs[1..] + more;
      PackInTurn(PackOne(p, budget, cs[0]), budget, cs[1..], more);
    }
  }

  lemma {:induction false} PackOnlyAppends(p: Packing, budget: Budget, cs: seq<Candidate>)
    ensures p.items <= Pack(p, budget, cs).items
    decreases |cs|
  {
    if cs != [] {
      PackOnlyAppends(PackOne(p, budget, cs[0]), budget, cs[1..]);
    }
  }

  // ----- the order of candidates -----

  /** A candidate with its sort key: lower priority numbers and lower recency come first. */
  datatype Keyed = Keyed(priority: nat, recency: nat, candidate: Candidate)

  predicate Before(a: Keyed, b: Keyed) {
    a.priority < b.priority || (a.priority == b.priority && a.recency <= b.recency)
  }

  predicate SameKey(a: Keyed, b: Keyed) {
    a.priority == b.priority && a.recency == b.recency
  }

  /** Inserts before the first element that sorts strictly after `k`... */
  function Insert(k: Keyed, sorted: seq<Keyed>): seq<Keyed>
    decreases |sorted|
  {
    if sorted == [] then [k]
    else if Before(k, sorted[0]) then [k] + sorted
    else [sorted[0]] + Insert(k, sorted[1..])
  }

  /** ...so inserting from the back keeps equal keys in their given order. */
  function SortByKey(ks: seq<Keyed>): seq<Keyed>
    decreases |ks|
  {
    if ks == [] then [] else Insert(ks[0], SortByKey(ks[1..]))
  }

  ghost predicate Sorted(ks: seq<Keyed>) {
    forall i, j :: 0 <= i < j < |ks| ==> Before(ks[i], ks[j])
  }

  /** The candidates with the given key, in order. */
  function WithKey(ks: seq<Keyed>, key: Keyed): seq<Keyed>
    decreases |ks|
  {
    if ks == [] then []
    else (if SameKey(ks[0], key) then [ks[0]] else []) + WithKey(ks[1..], key)
  }

  lemma {:induction false} InsertSorted(k: Keyed, sorted: seq<Keyed>)
    requires Sorted(sorted)
    ensures Sorted(Insert(k, sorted))
    ensures forall x :: x in Insert(k, sorted) <==> x == k || x in sorted
    decreases |sorted|
  {
    if sorted != [] {
      InsertSorted(k, sorted[1..]);
      assert sorted == [sorted[0]] + sorted[1..];
      if !Before(k, sorted[0]) {
        var rest := Insert(k, sorted[1..]);
        forall j | 0 <= j < |rest| ensures Before(sorted[0], rest[j]) {
          assert rest[j] in rest;
        }
      }
    }
  }

  lemma {:induction false} InsertWithKey(k: Keyed, sorted: seq<Keyed>, key: Keyed)
    requires Sorted(sorted)
    ensures WithKey(Insert(k, sorted), key) == WithKey([k] + sorted, key)
    decreases |sorted|
  {
    assert ([k] + sorted)[1..] == sorted;
    if sorted != [] && !Before(k, sorted[0]) {
      InsertWithKey(k, sorted[1..], key);
      assert ([k] + sorted[1..])[1..] == sorted[1..];
      var inserted := Insert(k, sorted);
      assert inserted[1..] == Insert(k, sorted[1..]);
    }
  }

  /** The sort is a stable permutation: sorted, and per key the very same sequence as before. */
  lemma {:induction false} SortIsStable(ks: seq<Keyed>, key: Keyed)
    ensures Sorted(SortByKey(ks))
    ensures WithKey(SortByKey(ks), key) == WithKey(ks, key)
    decreases |ks|
  {
    if ks != [] {
      SortIsStable(ks[1..], key);
      InsertSorted(ks[0], SortByKey(ks[1..]));
      InsertWithKey(ks[0], SortByKey(ks[1..]), key);
      assert ([ks[0]] + SortByKey(ks[1..]))[1..] == SortByKey(ks[1..]);
    }
  }

  // ----- the candidates of one request -----

  datatype ToolResult = ToolResult(
    name: string, output: Bytes, summary: Bytes, isError: bool, isShell: bool, reportsFailure: bool,
    inModelHistory: bool)

  datatype Instruction = Instruction(precedence: nat, content: Bytes)

  datatype ContextInput = ContextInput(
    system: Bytes, userRequest: Bytes, compacted: Option<Bytes>, diff: Option<Bytes>,
    instructions: seq<Instruction>, gitStatus: Option<Bytes>, workspace: Option<Bytes>,
    conversation: seq<Bytes>, files: seq<Bytes>, toolResults: seq<ToolResult>)

  function IsRetrieval(name: string): bool {
    name in ["search_files", "search_text", "find_symbol", "find_references", "goto_definition",
             "get_diagnostics", "get_file_outline", "get_repo_tree"]
  }

  predicate IsFailure(r: ToolResult) {
    r.isError || r.name == "task_completion_check" || (r.name == "verification" && r.reportsFailure)
  }

  function ToolPriority(r: ToolResult): (p: nat)
    ensures p >= 1
  {
    if IsFailure(r) then 1
    else if r.name == "read_file" then 2
    else if r.isShell then 5
    else if IsRetrieval(r.name) then 3
    else 4
  }

  function ToolCandidate(r: ToolResult, budget: Budget): Candidate {
    Candidate(
      "tool",
      if r.isShell then SummarizedShellOutput(r.output, r.summary, budget.shellBytes) else r.output,
      r.summary, IsFailure(r), Some(if r.isShell then ShellOutputSize else ToolResultSize))
  }

  function Visible(rs: seq<ToolResult>): seq<ToolResult>
    decreases |rs|
  {
    if rs == [] then []
    else (if rs[0].inModelHistory then [] else [rs[0]]) + Visible(rs[1..])
  }

  /** Everything but the two required candidates sorts behind them. */
  predicate Late(ks: seq<Keyed>) {
    forall i :: 0 <= i < |ks| ==> ks[i].priority >= 1
  }

  function ToolKeyed(r: ToolResult, age: nat, budget: Budget): (k: Keyed)
    ensures k.priority >= 1
  {
    Keyed(ToolPriority(r), age + 1, ToolCandidate(r, budget))
  }

  /** The newest visible tool results, newest first. */
  function ToolCandidates(visible: seq<ToolResult>, budget: Budget): (ks: seq<Keyed>)
    ensures |ks| == Min(|visible|, MAX_RECENT_TOOL_RESULTS) && Late(ks)
  {
    seq(Min(|visible|, MAX_RECENT_TOOL_RESULTS), i requires 0 <= i < |visible| =>
      ToolKeyed(visible[|visible| - 1 - i], i, budget))
  }

  /** The newest messages, oldest of them first. */
  function ConversationCandidates(conversation: seq<Bytes>): (ks: seq<Keyed>)
    ensures |ks| == Min(|conversation|, MAX_RECENT_CONVERSATION_MESSAGES) && Late(ks)
  {
    var n := Min(|conversation|, MAX_RECENT_CONVERSATION_MESSAGES);
    seq(n, i requires 0 <= i < n =>
      Keyed(3, n - i, Candidate("conversation", conversation[|conversation| - n + i], [], false, None)))
  }

  /** Project instructions keyed by precedence alone, as their own sort sees them. */
  function ByPrecedence(instructions: seq<Instruction>): (ks: seq<Keyed>)
    ensures |ks| == |instructions|
    ensures forall i :: 0 <= i < |ks| ==> ks[i].priority == instructions[i].precedence && ks[i].recency == 0
  {
    seq(|instructions|, i requires 0 <= i < |instructions| =>
      Keyed(instructions[i].precedence, 0, Candidate("instruction", instructions[i].content, [], false, None)))
  }

  /** Instructions are sorted by precedence, then numbered in that order. */
  function InstructionCandidates(instructions: seq<Instruction>): (ks: seq<Keyed>)
    ensures Late(ks)
  {
    var sorted := SortByKey(ByPrecedence(instructions));
    seq(|sorted|, i requires 0 <= i < |sorted| => Keyed(1, i, sorted[i].candidate))
  }

  function FileCandidates(files: seq<Bytes>): (ks: seq<Keyed>)
    ensures |ks| == |files| && Late(ks)
  {
    seq(|files|, i requires 0 <= i < |files| =>
      Keyed(2, i, Candidate("file", files[i], [], false, Some(FileSize))))
  }

  function Optional(k: Option<Bytes>, priority: nat, recency: nat, id: string, limit: Option<ContextLimit>)
    : (ks: seq<Keyed>)
    requires priority >= 1
    ensures Late(ks)
  {
    match k
    case None => []
    case Some(content) => [Keyed(priority, recency, Candidate(id, content, [], false, limit))]
  }

  /** Rust's usize::MAX, the recency of the compacted state. */
  const LAST: nat := 0xFFFF_FFFF_FFFF_FFFF

  function OptionalCandidates(input: ContextInput, budget: Budget): (ks: seq<Keyed>)
    ensures Late(ks)
  {
    Optional(input.compacted, 3, LAST, "compacted-state", Some(CompactionSummarySize))
    + Optional(input.diff, 1, 0, "current-git-diff", Some(GitDiffSize))
    + InstructionCandidates(input.instructions)
    + Optional(input.gitStatus, 1, |input.instructions| + 1, "git-status", None)
    + Optional(input.workspace, 3, 0, "workspace-metadata", None)
    + ConversationCandidates(input.conversation)
    + FileCandidates(input.files)
    + ToolCandidates(Visible(input.toolResults), budget)
  }

  function SystemCandidate(input: ContextInput): Keyed {
    Keyed(0, 0, Candidate("system-instructions", input.system, [], true, None))
  }

  function RequestCandidate(input: ContextInput): Keyed {
    Keyed(0, 1, Candidate("user-request", input.userRequest, [], true, None))
  }

  /** The candidates in the order they are added. */
  function Candidates(input: ContextInput, budget: Budget): seq<Keyed> {
    [SystemCandidate(input)] + ([RequestCandidate(input)] + OptionalCandidates(input, budget))
  }

  function Unkeyed(ks: seq<Keyed>): (cs: seq<Candidate>)
    ensures |cs| == |ks|
    ensures forall i :: 0 <= i < |ks| ==> cs[i] == ks[i].candidate
  {
    seq(|ks|, i requires 0 <= i < |ks| => ks[i].candidate)
  }

  /** The assembly for one request; None when the configured budget is zero. */
  function Assemble(input: ContextInput, base: Budget, window: Option<nat>, reserved: nat): Option<Packing> {
    var total := BudgetForWindow(base, window);
    if total.tokens == 0 then None
    else
      var budget := Reserve(total, reserved);
      Some(Pack(EMPTY, budget, Unkeyed(SortByKey(Candidates(input, budget)))))
  }

  lemma {:induction false} SortedHeadStays(k: Keyed, ks: seq<Keyed>)
    requires forall x :: x in ks ==> Before(k, x)
    ensures SortByKey([k] + ks) == [k] + SortByKey(ks)
  {
    assert ([k] + ks)[1..] == ks;
    SortMembers(ks);
    if ks != [] { assert SortByKey(ks)[0] in SortByKey(ks); }
  }

  lemma {:induction false} SortMembers(ks: seq<Keyed>)
    ensures forall x :: x in SortByKey(ks) <==> x in ks
    ensures |SortByKey(ks)| == |ks|
    decreases |ks|
  {
    if ks != [] {
      SortMembers(ks[1..]);
      InsertMembers(ks[0], SortByKey(ks[1..]));
      assert ks == [ks[0]] + ks[1..];
    }
  }

  lemma {:induction false} InsertMembers(k: Keyed, sorted: seq<Keyed>)
    ensures forall x :: x in Insert(k, sorted) <==> x == k || x in sorted
    ensures |Insert(k, sorted)| == |sorted| + 1
    decreases |sorted|
  {
    if sorted != [] {
      InsertMembers(k, sorted[1..]);
      assert sorted == [sorted[0]] + sorted[1..];
    }
  }

  /**
   The system instructions and the user request are packed first, so they are kept whole whenever
   they fit the budget on their own.
   */
  lemma SystemAndRequestComeFirst(input: ContextInput, base: Budget, window: Option<nat>, reserved: nat)
    requires BudgetForWindow(base, window).tokens > 0
    ensures var budget := Reserve(BudgetForWindow(base, window), reserved);
            var items := Assemble(input, base, window, reserved).value.items;
            budget.tokens <= SAFE_BUDGET ==>
              && |items| >= 2 && items[0].included && items[1].included
              && items[0].id == "system-instructions" && items[1].id == "user-request"
              && (EstimateTokens(input.system) + EstimateTokens(input.userRequest) <= budget.tokens ==>
                    items[0].content == input.system && items[1].content == input.userRequest)
  {
    var budget := Reserve(BudgetForWindow(base, window), reserved);
    if budget.tokens <= SAFE_BUDGET {
      var system := SystemCandidate(input);
      var request := RequestCandidate(input);
      var rest := OptionalCandidates(input, budget);
      SortedHeadStays(request, rest);
      SortedHeadStays(system, [request] + rest);
      var sorted := SortByKey(Candidates(input, budget));
      assert sorted == [system] + ([request] + SortByKey(rest));
      FirstTwoPacked(budget, Unkeyed(sorted));
    }
  }

  lemma FirstTwoPacked(budget: Budget, cs: seq<Candidate>)
    requires budget.tokens <= SAFE_BUDGET && |cs| >= 2
    requires cs[0].required && cs[0].limit == None && cs[1].required && cs[1].limit == None
    ensures var items := Pack(EMPTY, budget, cs).items;
            && |items| >= 2 && items[0].included && items[1].included
            && items[0].id == cs[0].id && items[1].id == cs[1].id
            && (EstimateTokens(cs[0].content) + EstimateTokens(cs[1].content) <= budget.tokens ==>
                  items[0].content == cs[0].content && items[1].content == cs[1].content)
  {
    PackingIsSound(budget, cs);
    assert ItemFor(Pack(EMPTY, budget, cs).items[0], Pack(EMPTY, budget, cs).used, budget, cs[0]);
    assert ItemFor(Pack(EMPTY, budget, cs).items[1], Pack(EMPTY, budget, cs).used, budget, cs[1]);
    if EstimateTokens(cs[0].content) + EstimateTokens(cs[1].content) <= budget.tokens {
      FirstTwoFit(budget, cs[0], cs[1]);
      var p := PackOne(PackOne(EMPTY, budget, cs[0]), budget, cs[1]);
      PackOnlyAppends(p, budget, cs[1..][1..]);
    }
  }

  lemma FirstTwoFit(budget: Budget, a: Candidate, b: Candidate)
    requires budget.tokens <= SAFE_BUDGET && a.required && a.limit == None && b.required && b.limit == None
    requires EstimateTokens(a.content) + EstimateTokens(b.content) <= budget.tokens
    ensures var items := PackOne(PackOne(EMPTY, budget, a), budget, b).items;
            |items| == 2 && items[0].content == a.content && items[1].content == b.content
  {
    WholeFits(EMPTY, budget, a);
    WholeFits(PackOne(EMPTY, budget, a), budget, b);
  }

  /** A candidate without a limit of its own that fits is packed whole. */
  lemma WholeFits(p: Packing, budget: Budget, c: Candidate)
    requires c.limit == None && p.used + EstimateTokens(c.content) <= budget.tokens <= SAFE_BUDGET
    ensures var next := PackOne(p, budget, c);
            && |next.items| == |p.items| + 1 && next.items[..|p.items|] == p.items
            && next.items[|p.items|].content == c.content
            && next.used == p.used + EstimateTokens(c.content)
  {
  }

  // ----- instruction precedence (crates/harness-core/src/workspace.rs) -----

  const MAX_PRECEDENCE: nat := 255

  /** The precedence of the index-th instruction file of the directory at `depth` below the root. */
  function Precedence(depth: nat, index: nat): nat {
    Min(Min(8 * depth + 16, MAX_PRECEDENCE) + index, MAX_PRECEDENCE)
  }

  /** A directory offers at most five files: five in the root, three below it. */
  predicate DiscoveryOrder(slots: seq<(nat, nat)>) {
    && (forall i :: 0 <= i < |slots| ==> slots[i].1 < 5)
    && (forall i, j :: 0 <= i < j < |slots| ==>
          slots[i].0 < slots[j].0 || (slots[i].0 == slots[j].0 && slots[i].1 < slots[j].1))
  }

  lemma {:induction false} SortedStays(ks: seq<Keyed>)
    requires Sorted(ks)
    ensures SortByKey(ks) == ks
    decreases |ks|
  {
    if ks != [] {
      SortedStays(ks[1..]);
      assert ks == [ks[0]] + ks[1..];
    }
  }

  /** Discovered parent-to-child order survives the sort by precedence, even where the cap at 255 levels it. */
  lemma ParentToChildOrderSurvives(slots: seq<(nat, nat)>, instructions: seq<Instruction>)
    requires DiscoveryOrder(slots) && |instructions| == |slots|
    requires forall i :: 0 <= i < |slots| ==>
               instructions[i].precedence == Precedence(slots[i].0, slots[i].1)
    ensures |InstructionCandidates(instructions)| == |instructions|
    ensures forall i :: 0 <= i < |instructions| ==>
              InstructionCandidates(instructions)[i].candidate.content == instructions[i].content
  {
    var ks := ByPrecedence(instructions);
    forall i, j | 0 <= i < j < |ks| ensures Before(ks[i], ks[j]) {
      assert Precedence(slots[i].0, slots[i].1) <= Precedence(slots[j].0, slots[j].1);
    }
    SortedStays(ks);
  }

  // ----- the assembly as the code builds it -----

  /** The growing item list and running total that `add_item` updates in place. */
  class ContextAssembly {
    var items: seq<Item>
    var usedTokens: nat

    function State(): Packing
      reads this
    {
      Packing(items, usedTokens)
    }

    constructor ()
      ensures State() == EMPTY
    {
      items := [];
      usedTokens := 0;
    }

    /** Adds one candidate: bounded by its kind, then whole, cut to the remaining budget, or left out. */
    method AddItem(budget: Budget, c: Candidate)
      modifies this
      ensures State() == PackOne(old(State()), budget, c)
    {
      var content := c.content;
      var truncated := false;
      var limits: seq<ContextLimit> := [];
      if c.limit.Some? {
        var max := KindLimit(budget, c.limit.value);
        if max.Some? && |c.content| > max.value {
          if c.limit.value.ShellOutputSize? {
            content := TruncateBytes(c.summary, max.value);
          } else {
            content := TruncateBytes(c.content, max.value);
          }
          truncated := true;
          limits := [c.limit.value];
        }
      }
      var tokens := EstimateTokens(content);
      if WrappingAdd(usedTokens, tokens) > budget.tokens {
        if c.required {
          var room := SaturatingMul(SubOrZero(budget.tokens, usedTokens), 4);
          content := TruncateBytes(content, room);
          tokens := EstimateTokens(content);
          if tokens > 0 || content == [] {
            limits := limits + [WorkingBudget];
            usedTokens := SaturatingAdd(usedTokens, tokens);
            items := items + [Item(c.id, content, |c.content|, tokens, true, true, limits)];
          }
        } else {
          items := items + [Item(c.id, [], |c.content|, tokens, false, false, [WorkingBudget])];
        }
        return;
      }
      usedTokens := WrappingAdd(usedTokens, tokens);
      items := items + [Item(c.id, content, |c.content|, tokens, true, truncated, limits)];
    }
  }

  method BuildForContextWindowReserving(input: ContextInput, base: Budget, window: Option<nat>, reserved: nat)
    returns (assembly: Option<Packing>)
    ensures assembly == Assemble(input, base, window, reserved)
    ensures assembly.None? <==> BudgetForWindow(base, window).tokens == 0
    ensures var budget := Reserve(BudgetForWindow(base, window), reserved);
            assembly.Some? && budget.tokens <= SAFE_BUDGET ==>
              Packed(assembly.value, budget, Unkeyed(SortByKey(Candidates(input, budget))))
  {
    var budget := BudgetForWindow(base, window);
    if budget.tokens == 0 {
      return None;
    }
    budget := Reserve(budget, reserved);
    var candidates := Unkeyed(SortByKey(Candidates(input, budget)));
    var assembled := new ContextAssembly();
    var i := 0;
    while i < |candidates|
      invariant 0 <= i <= |candidates|
      invariant Pack(assembled.State(), budget, candidates[i..]) == Pack(EMPTY, budget, candidates)
    {
      assembled.AddItem(budget, candidates[i]);
      assert candidates[i..][1..] == candidates[i + 1..];
      i := i + 1;
    }
    if budget.tokens <= SAFE_BUDGET {
      PackingIsSound(budget, candidates);
    }
    assembly := Some(assembled.State());
  }

}
