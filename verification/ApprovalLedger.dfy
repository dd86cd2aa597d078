/**
 One-shot user approvals (crates/harness-agent/src/lib.rs, `ApprovedPolicy`).

 A granted approval is a key in a set; evaluating an action the base policy would ask about
 consumes the key and allows the action once.
 */
module ApprovalLedger {

  type Key = string

  datatype Decision = Allow | Ask | Deny

  /** A grant made after the user agreed, or the evaluation of an action under the base policy. */
  datatype Event = Grant(key: Key) | Evaluate(key: Key, base: Decision)

  function Decide(approved: set<Key>, key: Key, base: Decision): Decision {
    if base == Ask && key in approved then Allow else base
  }

  function After(approved: set<Key>, e: Event): set<Key> {
    match e
    case Grant(key) => approved + {key}
    case Evaluate(key, base) => if base == Ask then approved - {key} else approved
  }

  function AfterAll(approved: set<Key>, events: seq<Event>): set<Key>
    decreases |events|
  {
    if events == [] then approved else AfterAll(After(approved, events[0]), events[1..])
  }

  function Grants(events: seq<Event>, key: Key): nat
    decreases |events|
  {
    if events == [] then 0 else (if events[0] == Grant(key) then 1 else 0) + Grants(events[1..], key)
  }

  /** The evaluations of `key` that an approval turned from Ask into Allow. */
  function Uses(approved: set<Key>, events: seq<Event>, key: Key): nat
    decreases |events|
  {
    if events == [] then 0
    else
      (if events[0] == Evaluate(key, Ask) && Decide(approved, key, Ask) == Allow then 1 else 0)
      + Uses(After(approved, events[0]), events[1..], key)
  }

  /** The grants of `key` made while an earlier grant was still unused. */
  function Merged(approved: set<Key>, events: seq<Event>, key: Key): nat
    decreases |events|
  {
    if events == [] then 0
    else
      (if events[0] == Grant(key) && key in approved then 1 else 0)
      + Merged(After(approved, events[0]), events[1..], key)
  }

  function One(b: bool): nat { if b then 1 else 0 }

  /**
   Main result: approvals are conserved.  For each exact action, what was granted is what was used,
   plus one if an approval is still pending, plus the grants that merged into a pending one.
   */
  lemma {:induction false} ApprovalsAreConserved(approved: set<Key>, events: seq<Event>, key: Key)
    ensures One(key in approved) + Grants(events, key)
            == Uses(approved, events, key) + One(key in AfterAll(approved, events)) + Merged(approved, events, key)
    decreases |events|
  {
    if events != [] {
      ApprovalsAreConserved(After(approved, events[0]), events[1..], key);
    }
  }

  /** So no action is allowed more often by approval than the user approved it. */
  lemma UsesNeverExceedGrants(events: seq<Event>, key: Key)
    ensures Uses({}, events, key) + One(key in AfterAll({}, events)) <= Grants(events, key)
  {
    ApprovalsAreConserved({}, events, key);
  }

  /** The wrapper around the base policy, with its shared set of unused approvals. */
  class ApprovedPolicy {
    var approved: set<Key>

    constructor ()
      ensures approved == {}
    {
      approved := {};
    }

    method Extend(keys: seq<Key>)
      modifies this
      ensures approved == old(approved) + set key | key in keys
      ensures approved == AfterAll(old(approved), seq(|keys|, i requires 0 <= i < |keys| => Grant(keys[i])))
    {
      ghost var grants := seq(|keys|, i requires 0 <= i < |keys| => Grant(keys[i]));
      var i := 0;
      while i < |keys|
        invariant 0 <= i <= |keys|
        invariant approved == old(approved) + set key | key in keys[..i]
        invariant AfterAll(approved, grants[i..]) == AfterAll(old(approved), grants)
      {
        assert grants[i..][1..] == grants[i + 1..];
        assert keys[..i + 1] == keys[..i] + [keys[i]];
        approved := approved + {keys[i]};
        i := i + 1;
      }
      assert keys[..i] == keys;
    }

    /** A base Deny or Allow stands and consumes nothing; a base Ask is answered by an approval, once. */
    method EvaluateRequest(key: Key, base: Decision) returns (decision: Decision)
      modifies this
      ensures decision == Decide(old(approved), key, base)
      ensures approved == After(old(approved), Evaluate(key, base))
      ensures base != Ask ==> decision == base && approved == old(approved)
      ensures base == Ask ==> key !in approved && (decision == Allow <==> key in old(approved))
    {
      decision := base;
      if base == Ask && key in approved {
        approved := approved - {key};
        decision := Allow;
      }
    }
  }

}
