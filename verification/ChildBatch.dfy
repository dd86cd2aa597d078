/**
 Collecting the results of delegated children (crates/harness-agent/src/lib.rs,
 `AgentSubagentExecutor::execute_batch`).

 Each turn of the collecting loop sees whether the parent was cancelled, whether the deadline has
 passed, and what the channel delivered.  Waits are bounded, so when the given turns are used up
 the deadline has passed.
 */
module ChildBatch {
  import opened Wrappers

  datatype Outcome = Finished(report: string) | Failed(error: string)

  /** An index is whatever a child sent: it may be repeated or out of range. */
  datatype Received = Result(index: nat, outcome: Outcome) | TimedOut | Disconnected

  datatype Turn = Turn(cancelled: bool, expired: bool, received: Received)

  predicate Terminal(t: Turn) {
    t.cancelled || t.expired || t.received.Disconnected?
  }

  function TerminalError(turns: seq<Turn>, stop: nat): string
    requires stop <= |turns|
  {
    if stop == |turns| then "child exceeded delegation time budget"
    else if turns[stop].cancelled then "parent task was cancelled"
    else if turns[stop].expired then "child exceeded delegation time budget"
    else "child runtime stopped without a result"
  }

  /** The first result delivered for the child. */
  function FirstResult(turns: seq<Turn>, child: nat): Option<Outcome>
    decreases |turns|
  {
    if turns == [] then None
    else
      var earlier := FirstResult(turns[..|turns| - 1], child);
      var last := turns[|turns| - 1].received;
      if earlier.Some? then earlier
      else if last.Result? && last.index == child then Some(last.outcome)
      else None
  }

  ghost predicate AllDelivered(turns: seq<Turn>, children: nat) {
    forall child :: 0 <= child < children ==> FirstResult(turns, child).Some?
  }

  function EmptySlots(slots: seq<Option<Outcome>>): nat
    decreases |slots|
  {
    if slots == [] then 0 else (if slots[0].None? then 1 else 0) + EmptySlots(slots[1..])
  }

  lemma {:induction false} FillingASlot(slots: seq<Option<Outcome>>, i: nat, outcome: Outcome)
    requires i < |slots| && slots[i].None?
    ensures EmptySlots(slots[i := Some(outcome)]) == EmptySlots(slots) - 1
    decreases |slots|
  {
    if i == 0 {
      assert slots[i := Some(outcome)][1..] == slots[1..];
    } else {
      FillingASlot(slots[1..], i - 1, outcome);
      assert slots[i := Some(outcome)][1..] == slots[1..][i - 1 := Some(outcome)];
    }
  }

  lemma {:induction false} NoEmptySlots(slots: seq<Option<Outcome>>)
    ensures EmptySlots(slots) == 0 <==> forall i :: 0 <= i < |slots| ==> slots[i].Some?
    decreases |slots|
  {
    if slots != [] { NoEmptySlots(slots[1..]); }
  }

  lemma {:induction false} AllEmptySlots(slots: seq<Option<Outcome>>)
    requires forall i :: 0 <= i < |slots| ==> slots[i].None?
    ensures EmptySlots(slots) == |slots|
    decreases |slots|
  {
    if slots != [] { AllEmptySlots(slots[1..]); }
  }

  /**
   Main result: the loop stops at the first terminal turn or as soon as every child has reported,
   and the batch yields one outcome per started child, in start order: the first result delivered
   for it before the stop, or the terminal error.
   */
  method CollectOutcomes(children: nat, turns: seq<Turn>) returns (outcomes: seq<Outcome>, stop: nat)
    ensures stop <= |turns|
    ensures forall t :: 0 <= t < stop ==> !Terminal(turns[t]) && !AllDelivered(turns[..t], children)
    ensures AllDelivered(turns[..stop], children) || stop == |turns| || Terminal(turns[stop])
    ensures |outcomes| == children
    ensures forall child :: 0 <= child < children ==>
              outcomes[child] == match FirstResult(turns[..stop], child)
                                 case Some(outcome) => outcome
                                 case None => Failed(TerminalError(turns, stop))
  {
    var slots := new Option<Outcome>[children](_ => None);
    AllEmptySlots(slots[..]);
    var unfinished := children;
    var error := None;
    stop := 0;
    assert turns[..0] == [];
    while unfinished > 0
      invariant 0 <= stop <= |turns| && error == None
      invariant unfinished == EmptySlots(slots[..])
      invariant forall child :: 0 <= child < children ==> slots[child] == FirstResult(turns[..stop], child)
      invariant forall t :: 0 <= t < stop ==> !Terminal(turns[t]) && !AllDelivered(turns[..t], children)
      decreases |turns| - stop
    {
      NoEmptySlots(slots[..]);
      assert !AllDelivered(turns[..stop], children);
      if stop == |turns| || Terminal(turns[stop]) {
        error := Some(TerminalError(turns, stop));
        break;
      }
      assert turns[..stop + 1][..stop] == turns[..stop];
      var received := turns[stop].received;
      if received.Result? && received.index < children && slots[received.index].None? {
        FillingASlot(slots[..], received.index, received.outcome);
        ghost var filled := slots[..][received.index := Some(received.outcome)];
        slots[received.index] := Some(received.outcome);
        assert slots[..] == filled;
        unfinished := unfinished - 1;
      }
      stop := stop + 1;
    }
    NoEmptySlots(slots[..]);
    assert error == None ==> AllDelivered(turns[..stop], children);
    outcomes := ReportAll(slots, error);
  }

  /** Fills the empty slots with the terminal error and takes the outcomes in start order; none is missing. */
  method ReportAll(slots: array<Option<Outcome>>, error: Option<string>) returns (outcomes: seq<Outcome>)
    requires error == None ==> forall i :: 0 <= i < slots.Length ==> slots[i].Some?
    modifies slots
    ensures |outcomes| == slots.Length
    ensures forall i :: 0 <= i < slots.Length ==>
              outcomes[i] == match old(slots[i])
                             case Some(outcome) => outcome
                             case None => Failed(error.value)
  {
    if error.Some? {
      for i := 0 to slots.Length
        invariant forall k :: 0 <= k < i ==>
                    slots[k] == if old(slots[k]).None? then Some(Failed(error.value)) else old(slots[k])
        invariant forall k :: i <= k < slots.Length ==> slots[k] == old(slots[k])
      {
        if slots[i].None? {
          slots[i] := Some(Failed(error.value));
        }
      }
    }
    outcomes := [];
    for i := 0 to slots.Length
      invariant forall k :: 0 <= k < slots.Length ==>
                  slots[k].Some?
                  && slots[k] == if old(slots[k]).None? then Some(Failed(error.value)) else old(slots[k])
      invariant |outcomes| == i
      invariant forall k :: 0 <= k < i ==> outcomes[k] == slots[k].value
    {
      outcomes := outcomes + [slots[i].value];
    }
  }

}
