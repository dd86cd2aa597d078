/**
 The token budget of one model request (crates/harness-agent/src/lib.rs, the part of
 `AgentRunner::run` that trims the history, reserves its share and packs the context).
 */
module TurnBudget {
  import opened Wrappers
  import opened Utf8Text
  import opened ContextPacking
  import opened ModelHistory

  /** Tokens of the three parts of a request. */
  datatype Request = Request(packed: Packing, history: seq<Message>, attachmentTokens: nat)

  function TotalBudget(base: Budget, window: Option<nat>): nat {
    BudgetForWindow(base, window).tokens
  }

  /** A third of the total, at least one token, never more than the total. */
  function HistoryBudget(base: Budget, window: Option<nat>): nat {
    Min(Max(TotalBudget(base, window) / 3, 1), TotalBudget(base, window))
  }

  function Prepared(
    input: ContextInput, base: Budget, window: Option<nat>, history: seq<Message>, attachmentTokens: nat)
    : Option<Request>
  {
    var trimmed := Trimmed(history, HistoryBudget(base, window));
    match Assemble(input, base, window, SaturatingAdd(EstimateHistory(trimmed), attachmentTokens))
    case None => None
    case Some(packed) => Some(Request(packed, trimmed, attachmentTokens))
  }

  /** History and attachments, which the packed context has to leave room for. */
  function ReservedTokens(r: Request): nat {
    EstimateHistory(r.history) + r.attachmentTokens
  }

  function RequestTokens(r: Request): nat {
    r.packed.used + ReservedTokens(r)
  }

  /** The packed part never takes more than the reservation leaves, and never more than one token beyond it. */
  lemma PackedWithinReserve(
    input: ContextInput, base: Budget, window: Option<nat>, history: seq<Message>, attachmentTokens: nat)
    requires 0 < TotalBudget(base, window) <= SAFE_BUDGET
    ensures var r := Prepared(input, base, window, history, attachmentTokens);
            && r.Some?
            && r.value.packed.used <= Max(SubOrZero(TotalBudget(base, window), ReservedTokens(r.value)), 1)
  {
    var trimmed := Trimmed(history, HistoryBudget(base, window));
    var reserved := SaturatingAdd(EstimateHistory(trimmed), attachmentTokens);
    var budget := Reserve(BudgetForWindow(base, window), reserved);
    PackingIsSound(budget, Unkeyed(SortByKey(Candidates(input, budget))));
  }

  // ----- when nothing is packed -----

  /** A candidate that takes none of a budget of one token: empty, or larger and not cut to size. */
  predicate TakesNothing(budget: Budget, c: Candidate) {
    var content := Bounded(budget, c).0;
    EstimateTokens(content) == 0
    || (EstimateTokens(content) > 1 && (c.required ==> EstimateTokens(Truncated(content, 4)) == 0))
  }

  /** Nothing the input offers takes any of the single token that is left when the reservation uses the budget up. */
  ghost predicate OffersNothing(input: ContextInput, base: Budget, window: Option<nat>) {
    var budget := BudgetForWindow(base, window).(tokens := 1);
    forall k :: k in Candidates(input, budget) ==> TakesNothing(budget, k.candidate)
  }

  lemma {:induction false} NothingPackedExactlyWhen(p: Packing, budget: Budget, cs: seq<Candidate>)
    requires budget.tokens == 1 && p.used == 0
    ensures Pack(p, budget, cs).used == 0 <==> forall c :: c in cs ==> TakesNothing(budget, c)
    decreases |cs|
  {
    if cs != [] {
      FitIsSound(0, budget, cs[0]);
      var next := PackOne(p, budget, cs[0]);
      assert next.used == 0 <==> TakesNothing(budget, cs[0]);
      if next.used == 0 {
        NothingPackedExactlyWhen(next, budget, cs[1..]);
        assert cs == [cs[0]] + cs[1..];
      } else {
        UsedNeverShrinks(next, budget, cs[1..]);
        assert cs[0] in cs;
      }
    }
  }

  lemma {:induction false} UsedNeverShrinks(p: Packing, budget: Budget, cs: seq<Candidate>)
    requires p.used <= budget.tokens <= SAFE_BUDGET
    ensures Pack(p, budget, cs).used >= p.used
    decreases |cs|
  {
    if cs != [] {
      FitIsSound(p.used, budget, cs[0]);
      UsedNeverShrinks(PackOne(p, budget, cs[0]), budget, cs[1..]);
    }
  }

  /** When history and attachments use the whole budget up, nothing is packed exactly when nothing is offered. */
  lemma PackedWithoutRoomExactlyWhen(
    input: ContextInput, base: Budget, window: Option<nat>, history: seq<Message>, attachmentTokens: nat)
    requires 0 < TotalBudget(base, window) <= SAFE_BUDGET
    requires EstimateHistory(Trimmed(history, HistoryBudget(base, window))) + attachmentTokens
             == TotalBudget(base, window)
    ensures var r := Prepared(input, base, window, history, attachmentTokens);
            r.Some? && (r.value.packed.used == 0 <==> OffersNothing(input, base, window))
  {
    var budget := BudgetForWindow(base, window).(tokens := 1);
    var keyed := Candidates(input, budget);
    NothingPackedExactlyWhen(EMPTY, budget, Unkeyed(SortByKey(keyed)));
    SortingOffersTheSame(budget, keyed);
  }

  lemma SortingOffersTheSame(budget: Budget, ks: seq<Keyed>)
    ensures (forall c :: c in Unkeyed(SortByKey(ks)) ==> TakesNothing(budget, c))
            <==> (forall k :: k in ks ==> TakesNothing(budget, k.candidate))
  {
    SortMembers(ks);
    var cs := Unkeyed(SortByKey(ks));
    if forall c :: c in cs ==> TakesNothing(budget, c) {
      forall k | k in ks ensures TakesNothing(budget, k.candidate) {
        var i :| 0 <= i < |cs| && SortByKey(ks)[i] == k;
        assert cs[i] in cs;
      }
    }
  }

  /**
   Exactly when the whole request stays within its budget: history and attachments leave at least
   one token, or use the budget up while the input offers nothing that would take that token.
   */
  lemma RequestFitsExactlyWhen(
    input: ContextInput, base: Budget, window: Option<nat>, history: seq<Message>, attachmentTokens: nat)
    requires 0 < TotalBudget(base, window) <= SAFE_BUDGET
    ensures var r := Prepared(input, base, window, history, attachmentTokens);
            var reserved := EstimateHistory(Trimmed(history, HistoryBudget(base, window))) + attachmentTokens;
            r.Some?
            && (RequestTokens(r.value) <= TotalBudget(base, window)
                <==> reserved < TotalBudget(base, window)
                     || (reserved == TotalBudget(base, window) && OffersNothing(input, base, window)))
  {
    PackedWithinReserve(input, base, window, history, attachmentTokens);
    if EstimateHistory(Trimmed(history, HistoryBudget(base, window))) + attachmentTokens
       == TotalBudget(base, window)
    {
      PackedWithoutRoomExactlyWhen(input, base, window, history, attachmentTokens);
    }
  }

  /** A system text is required and is cut to its first character at least, so it always takes the token. */
  lemma SystemTextTakesTheToken(input: ContextInput, base: Budget, window: Option<nat>)
    requires ValidUtf8(input.system) && 0 < |input.system| < U32_LIMIT - 3
    ensures !OffersNothing(input, base, window)
  {
    var budget := BudgetForWindow(base, window).(tokens := 1);
    TextTakesTheToken(input.system);
    assert SystemCandidate(input) == Candidates(input, budget)[0];
  }

  lemma TextTakesTheToken(text: Bytes)
    requires ValidUtf8(text) && 0 < |text| < U32_LIMIT - 3
    ensures EstimateTokens(text) > 0
    ensures EstimateTokens(text) > 1 ==> EstimateTokens(Truncated(text, 4)) > 0
  {
    SomeTextIsSomeTokens(text);
    if EstimateTokens(text) > 1 {
      CutKeepsFirst(text);
      SomeTextIsSomeTokens(Truncated(text, 4));
    }
  }

  lemma SomeTextIsSomeTokens(text: Bytes)
    requires 0 < |text| < U32_LIMIT - 3
    ensures EstimateTokens(text) > 0
    ensures EstimateTokens(text) > 1 ==> |text| > 4
  {
  }

  lemma CutKeepsFirst(text: Bytes)
    requires ValidUtf8(text) && |text| > 4
    ensures 0 < |Truncated(text, 4)| <= 4
  {
    CutAfterFirst(text);
    if FloorBoundary(text, 4) < CharWidth(text) { FloorIsNearest(text, 4, CharWidth(text)); }
  }

  /** A valid text's first character, of at most four bytes, ends at a boundary. */
  lemma CutAfterFirst(s: Bytes)
    requires ValidUtf8(s) && s != []
    ensures 0 < CharWidth(s) <= 4 && IsBoundary(s, CharWidth(s))
  {
    var rest := s[CharWidth(s)..];
    if rest != [] { assert CharWidth(rest) > 0 && rest[0] == s[CharWidth(s)]; }
  }

  /** A known window keeps the budget small enough that no total can wrap. */
  lemma KnownWindowIsSafe(base: Budget, window: Option<nat>)
    ensures window.Some? ==> TotalBudget(base, window) <= SAFE_BUDGET
  {
  }

  /** The cap is three quarters of the window exactly when the window has at least two tokens. */
  lemma BudgetIsThreeQuartersExactlyWhen(base: Budget, window: nat)
    requires base.tokens > 0
    ensures 4 * TotalBudget(base, Some(window)) <= 3 * window <==> window >= 2
    ensures TotalBudget(base, Some(window)) <= base.tokens
  {
  }

  /**
   Main result for one turn: whenever the trimmed history and the attachments leave a token of the
   budget, the packed context, the history and the attachments together are within the configured
   budget and within 75 percent of the model's window.
   */
  lemma TurnFitsItsWindow(
    input: ContextInput, base: Budget, window: nat, history: seq<Message>, attachmentTokens: nat)
    requires base.tokens > 0 && window >= 2
    requires EstimateHistory(Trimmed(history, HistoryBudget(base, Some(window)))) + attachmentTokens
             < TotalBudget(base, Some(window))
    ensures var r := Prepared(input, base, Some(window), history, attachmentTokens);
            && r.Some?
            && RequestTokens(r.value) <= base.tokens
            && 4 * RequestTokens(r.value) <= 3 * window
  {
    KnownWindowIsSafe(base, Some(window));
    BudgetIsThreeQuartersExactlyWhen(base, window);
    RequestFitsExactlyWhen(input, base, Some(window), history, attachmentTokens);
  }

  /** The same from the untrimmed history: its fixed part fits the share, and the attachments fit beside the share. */
  lemma TurnFitsWhenTheFixedPartFits(
    input: ContextInput, base: Budget, window: nat, history: seq<Message>, attachmentTokens: nat)
    requires base.tokens > 0 && window >= 2 && ResultShapes(history)
    requires var share := HistoryBudget(base, Some(window));
             && (EstimateHistory(history) <= share || TokensOf(DropAllArguments(history), false) <= share)
             && share + attachmentTokens < TotalBudget(base, Some(window))
    ensures var r := Prepared(input, base, Some(window), history, attachmentTokens);
            && r.Some?
            && RequestTokens(r.value) <= base.tokens
            && 4 * RequestTokens(r.value) <= 3 * window
  {
    TrimmedFitsExactlyWhen(history, HistoryBudget(base, Some(window)));
    TurnFitsItsWindow(input, base, window, history, attachmentTokens);
  }

  /** Trims the history in place, reserves its share, and packs the context. */
  method PrepareRequest(
    input: ContextInput, base: Budget, window: Option<nat>, history: array<Message>, attachmentTokens: nat)
    returns (request: Option<Request>)
    modifies history
    ensures request == Prepared(input, base, window, old(history[..]), attachmentTokens)
    ensures history[..] == Trimmed(old(history[..]), HistoryBudget(base, window))
    ensures 0 < TotalBudget(base, window) <= SAFE_BUDGET ==>
              request.Some?
              && RequestTokens(request.value) <= Max(TotalBudget(base, window), ReservedTokens(request.value) + 1)
  {
    if 0 < TotalBudget(base, window) <= SAFE_BUDGET {
      PackedWithinReserve(input, base, window, history[..], attachmentTokens);
    }
    var total := TotalBudget(base, window);
    var share := Min(Max(total / 3, 1), total);
    TrimModelHistoryToBudget(history, share);
    var reserved := SaturatingAdd(EstimateHistory(history[..]), attachmentTokens);
    var packed := BuildForContextWindowReserving(input, base, window, reserved);
    if packed.None? {
      return None;
    }
    request := Some(Request(packed.value, history[..], attachmentTokens));
  }

}
