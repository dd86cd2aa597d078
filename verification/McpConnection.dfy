/**
 One MCP connection entry under interleaved operations (crates/harness-mcp/src/lib.rs).

 Every operation holds the entry's lock while it runs, so one lock hold is one step.  Refresh,
 list and read release the lock after their first phase and, when that phase failed or was
 cancelled, take it again later to clean up; other operations may run in between.  Servers,
 cancellation and transport failures are inputs, so the results quantify over all of them.
 */
module McpConnection {
  import opened Wrappers
  import opened Text

  const MAX_TOOL_COUNT: nat := 500
  const MAX_TOOL_NAME_BYTES: nat := 256
  const MAX_TOOL_SCHEMA_BYTES: nat := 4096

  datatype ConnectionState = Disconnected | Connecting | Connected | Failed

  type Client = nat

  datatype Descriptor = Descriptor(name: string, schemaBytes: nat)

  datatype Entry = Entry(
    state: ConnectionState, client: Option<Client>, tools: seq<Descriptor>, resources: seq<string>,
    error: Option<string>)

  const INITIAL: Entry := Entry(Disconnected, None, [], [], None)

  /** How a cancellable part of an operation ended. */
  datatype Flow = Proceed | Fail(message: string) | Stop

  // ----- connecting -----

  datatype ConnectOutcome =
    | ConnectOk(client: Client)
    | ConnectError(message: string) // includes the connection timeout
    | CancelledConnecting

  /** `open`: the held transport still works; `cancelledClosing`: cancelled while a dead one is closed. */
  datatype Connect = Connect(open: bool, cancelledClosing: bool, outcome: ConnectOutcome)

  function EnsureConnected(e: Entry, c: Connect): (Entry, Flow) {
    if e.client.Some? && c.open then (e, Proceed)
    else if e.client.Some? && c.cancelledClosing then (e.(client := None), Stop)
    else
      var connecting := e.(client := None, state := Connecting, error := None);
      match c.outcome
      case ConnectOk(client) => (connecting.(client := Some(client), state := Connected), Proceed)
      case ConnectError(message) => (connecting.(state := Failed, error := Some(message)), Fail(message))
      case CancelledConnecting => (connecting, Stop)
  }

  // ----- discovery -----

  datatype Discovery =
    | Discovered(pages: seq<seq<Descriptor>>, found: seq<string>)
    | DiscoveryFailed(message: string)
    | CancelledDiscovering

  predicate Acceptable(d: Descriptor) {
    d.name != "" && Utf8Length(d.name) <= MAX_TOOL_NAME_BYTES && d.schemaBytes <= MAX_TOOL_SCHEMA_BYTES
  }

  function CollectPage(tools: seq<Descriptor>, page: seq<Descriptor>): seq<Descriptor>
    decreases |page|
  {
    if page == [] || |tools| >= MAX_TOOL_COUNT then tools
    else CollectPage(if Acceptable(page[0]) then tools + [page[0]] else tools, page[1..])
  }

  function CollectPages(tools: seq<Descriptor>, pages: seq<seq<Descriptor>>): seq<Descriptor>
    decreases |pages|
  {
    if pages == [] then tools
    else
      var more := CollectPage(tools, pages[0]);
      if |more| >= MAX_TOOL_COUNT then more else CollectPages(more, pages[1..])
  }

  function RefreshServer(e: Entry, d: Discovery): (Entry, Flow)
    requires e.client.Some?
  {
    match d
    case Discovered(pages, found) =>
      (Entry(Connected, e.client, CollectPages([], pages),
             if |found| <= MAX_TOOL_COUNT then found else found[..MAX_TOOL_COUNT], None), Proceed)
    case DiscoveryFailed(message) => (e, Fail(message))
    case CancelledDiscovering => (e, Stop)
  }

  // ----- first phases and clean-up -----

  /** What a failed or cancelled first phase does when it gets the lock again. */
  datatype Cleanup = Disconnecting | Failing(message: string)

  function CleanUp(e: Entry, c: Cleanup): Entry {
    match c
    case Disconnecting => e.(state := Disconnected, error := None, client := None)
    case Failing(message) => e.(state := Failed, error := Some(message), client := None)
  }

  function CleanupFor(flow: Flow): Option<Cleanup> {
    match flow
    case Proceed => None
    case Stop => Some(Disconnecting)
    case Fail(message) => Some(Failing(message))
  }

  /** Refresh and list-resources: connect, then discover. */
  datatype Refreshing = Refreshing(cancelledAtStart: bool, connect: Connect, discovery: Discovery)

  function RefreshPhase(e: Entry, r: Refreshing): (Entry, Flow) {
    if r.cancelledAtStart then (e, Stop)
    else
      var (connected, flow) := EnsureConnected(e, r.connect);
      if flow.Proceed? then RefreshServer(connected, r.discovery) else (connected, flow)
  }

  datatype ReadOutcome = ReadOk | ReadFailed(message: string) | CancelledReading

  datatype Reading = Reading(cancelledAtStart: bool, connect: Connect, outcome: ReadOutcome)

  function ReadPhase(e: Entry, r: Reading): (Entry, Flow) {
    if r.cancelledAtStart then (e, Stop)
    else
      var (connected, flow) := EnsureConnected(e, r.connect);
      if !flow.Proceed? then (connected, flow)
      else
        match r.outcome
        case ReadOk => (connected, Proceed)
        case ReadFailed(message) => (connected, Fail(message))
        case CancelledReading => (connected, Stop)
  }

  // ----- calling a tool, in one lock hold -----

  datatype CallOutcome = CallOk | CallFailed(message: string) | CancelledCalling

  datatype Calling = Calling(
    tooLarge: bool, tool: string, cancelledAtStart: bool, connect: Connect, discovery: Discovery,
    cancelledBeforeCall: bool, outcome: CallOutcome)

  datatype Response = TooLarge | Cancelled | ServerError(message: string) | UnknownTool | Result

  predicate Lists(tools: seq<Descriptor>, name: string) {
    exists i :: 0 <= i < |tools| && tools[i].name == name
  }

  function PrepareCall(e: Entry, c: Calling): (Entry, Flow) {
    if c.cancelledAtStart then (e, Stop)
    else
      var (connected, flow) := EnsureConnected(e, c.connect);
      if flow.Proceed? && !Lists(connected.tools, c.tool) then RefreshServer(connected, c.discovery)
      else (connected, flow)
  }

  /** The entry afterwards, the answer, and the number of remote tool calls issued. */
  function CallTool(e: Entry, c: Calling): (Entry, Response, nat) {
    if c.tooLarge then (e, TooLarge, 0)
    else
      var (prepared, flow) := PrepareCall(e, c);
      match flow
      case Stop => (CleanUp(prepared, Disconnecting), Cancelled, 0)
      case Fail(message) => (CleanUp(prepared, Failing(message)), ServerError(message), 0)
      case Proceed =>
        if !Lists(prepared.tools, c.tool) then (prepared, UnknownTool, 0)
        else if c.cancelledBeforeCall then (prepared, Cancelled, 0)
        else
          match c.outcome
          case CallOk => (prepared, Result, 1)
          case CallFailed(message) => (CleanUp(prepared, Failing(message)), ServerError(message), 1)
          case CancelledCalling => (prepared.(client := None, state := Disconnected), Cancelled, 1)
  }

  // ----- interleavings -----

  /** The entry, the clean-ups still to come, and the tool-call operations and remote calls so far. */
  datatype System = System(entry: Entry, pending: multiset<Cleanup>, callOps: nat, remoteCalls: nat)

  const START: System := System(INITIAL, multiset{}, 0, 0)

  datatype Action =
    | Refresh(refreshing: Refreshing) // refresh and list-resources share their phases
    | Read(reading: Reading)
    | Call(calling: Calling)
    | Disconnect
    | Finish(cleanup: Cleanup)        // a waiting operation takes the lock again

  function AfterPhase(s: System, entry: Entry, flow: Flow): System {
    s.(entry := entry,
       pending := s.pending + (match CleanupFor(flow) case None => multiset{} case Some(c) => multiset{c}))
  }

  function Step(s: System, a: Action): System {
    match a
    case Refresh(r) => AfterPhase(s, RefreshPhase(s.entry, r).0, RefreshPhase(s.entry, r).1)
    case Read(r) => AfterPhase(s, ReadPhase(s.entry, r).0, ReadPhase(s.entry, r).1)
    case Call(c) =>
      var (entry, _, calls) := CallTool(s.entry, c);
      System(entry, s.pending, s.callOps + 1, s.remoteCalls + calls)
    case Disconnect => s.(entry := INITIAL)
    case Finish(c) =>
      if c in s.pending then s.(entry := CleanUp(s.entry, c), pending := s.pending - multiset{c}) else s
  }

  function Run(s: System, actions: seq<Action>): System
    decreases |actions|
  {
    if actions == [] then s else Run(Step(s, actions[0]), actions[1..])
  }

  /** Connected exactly when a client is held, and not in the middle of connecting. */
  predicate Consistent(e: Entry) {
    (e.state == Connected <==> e.client.Some?) && e.state != Connecting
  }

  ghost predicate Inv(s: System) {
    && (s.entry.client.Some? ==> s.entry.state == Connected)
    && (s.pending == multiset{} ==> Consistent(s.entry))
    && |s.entry.tools| <= MAX_TOOL_COUNT && |s.entry.resources| <= MAX_TOOL_COUNT
    && s.remoteCalls <= s.callOps
  }

  lemma {:induction false} PageIsBounded(tools: seq<Descriptor>, page: seq<Descriptor>)
    requires |tools| <= MAX_TOOL_COUNT
    ensures |CollectPage(tools, page)| <= MAX_TOOL_COUNT
    decreases |page|
  {
    if page != [] && |tools| < MAX_TOOL_COUNT {
      PageIsBounded(if Acceptable(page[0]) then tools + [page[0]] else tools, page[1..]);
    }
  }

  lemma {:induction false} PagesAreBounded(tools: seq<Descriptor>, pages: seq<seq<Descriptor>>)
    requires |tools| <= MAX_TOOL_COUNT
    ensures |CollectPages(tools, pages)| <= MAX_TOOL_COUNT
    decreases |pages|
  {
    if pages != [] {
      PageIsBounded(tools, pages[0]);
      PagesAreBounded(CollectPage(tools, pages[0]), pages[1..]);
    }
  }

  /** What holds of an entry whenever its lock is free. */
  predicate Held(e: Entry) {
    && (e.client.Some? ==> e.state == Connected)
    && |e.tools| <= MAX_TOOL_COUNT && |e.resources| <= MAX_TOOL_COUNT
  }

  lemma ConnectKeeps(e: Entry, c: Connect)
    requires Held(e)
    ensures var (next, flow) := EnsureConnected(e, c);
            Held(next) && (flow.Proceed? ==> next.client.Some? && Consistent(next))
  {
  }

  lemma DiscoverKeeps(e: Entry, d: Discovery)
    requires Held(e) && e.client.Some?
    ensures var (next, flow) := RefreshServer(e, d);
            Held(next) && next.client.Some? && Consistent(next)
  {
    if d.Discovered? { PagesAreBounded([], d.pages); }
  }

  lemma CallKeeps(e: Entry, c: Calling)
    requires Held(e)
    ensures var (next, response, calls) := CallTool(e, c);
            && Held(next)
            && (response.TooLarge? || Consistent(next))
            && (response.TooLarge? ==> next == e)
            && calls <= 1
  {
    ConnectKeeps(e, c.connect);
    var connected := EnsureConnected(e, c.connect).0;
    if connected.client.Some? { DiscoverKeeps(connected, c.discovery); }
  }

  lemma RefreshKeeps(e: Entry, r: Refreshing)
    requires Held(e)
    ensures var (next, flow) := RefreshPhase(e, r);
            Held(next) && (flow.Proceed? ==> Consistent(next))
  {
    ConnectKeeps(e, r.connect);
    var connected := EnsureConnected(e, r.connect).0;
    if connected.client.Some? { DiscoverKeeps(connected, r.discovery); }
  }

  lemma ReadKeeps(e: Entry, r: Reading)
    requires Held(e)
    ensures var (next, flow) := ReadPhase(e, r);
            Held(next) && (flow.Proceed? ==> Consistent(next))
  {
  }

  lemma PhaseKeepsInv(s: System, entry: Entry, flow: Flow)
    requires Inv(s) && Held(entry) && (flow.Proceed? ==> Consistent(entry))
    ensures Inv(AfterPhase(s, entry, flow))
  {
  }

  lemma StepKeepsInv(s: System, a: Action)
    requires Inv(s)
    ensures Inv(Step(s, a))
  {
    match a
    case Refresh(r) =>
      RefreshKeeps(s.entry, r);
      PhaseKeepsInv(s, RefreshPhase(s.entry, r).0, RefreshPhase(s.entry, r).1);
    case Read(r) =>
      ReadKeeps(s.entry, r);
      PhaseKeepsInv(s, ReadPhase(s.entry, r).0, ReadPhase(s.entry, r).1);
    case Call(c) => CallKeeps(s.entry, c);
    case Disconnect =>
    case Finish(c) =>
  }

  /**
   Main result: under every interleaving a held client implies Connected whenever the lock is free;
   when no operation is between its two phases, Connected holds exactly when a client is held and
   Connecting never shows; and at most one remote call is issued per tool-call operation.
   */
  lemma {:induction false} InterleavingsKeepInv(s: System, actions: seq<Action>)
    requires Inv(s)
    ensures Inv(Run(s, actions))
    ensures Run(s, actions).callOps == s.callOps + CallsIn(actions)
    ensures s.remoteCalls <= Run(s, actions).remoteCalls <= s.remoteCalls + CallsIn(actions)
    decreases |actions|
  {
    if actions != [] {
      StepKeepsInv(s, actions[0]);
      InterleavingsKeepInv(Step(s, actions[0]), actions[1..]);
    }
  }

  /** How many of the actions are tool calls. */
  function CallsIn(actions: seq<Action>): nat
    decreases |actions|
  {
    if actions == [] then 0 else (if actions[0].Call? then 1 else 0) + CallsIn(actions[1..])
  }

  lemma EveryRunFromStart(actions: seq<Action>)
    ensures var end := Run(START, actions);
            && (end.entry.client.Some? ==> end.entry.state == Connected)
            && (end.pending == multiset{} ==>
                  (end.entry.state == Connected <==> end.entry.client.Some?) && end.entry.state != Connecting)
            && end.remoteCalls <= CallsIn(actions)
  {
    InterleavingsKeepInv(START, actions);
  }

  /**
   Exactly when a first phase leaves the entry inconsistent until its clean-up: it was cancelled
   while a dead client was being closed, or while connecting.
   */
  lemma PhaseLeavesInconsistentExactlyWhen(e: Entry, r: Refreshing)
    requires Held(e) && Consistent(e)
    ensures !Consistent(RefreshPhase(e, r).0)
            <==> !r.cancelledAtStart && !(e.client.Some? && r.connect.open)
                 && ((e.client.Some? && r.connect.cancelledClosing) || r.connect.outcome.CancelledConnecting?)
  {
  }

  // ----- what discovery collects -----

  function Flatten(pages: seq<seq<Descriptor>>): seq<Descriptor>
    decreases |pages|
  {
    if pages == [] then [] else pages[0] + Flatten(pages[1..])
  }

  function AcceptableOf(ds: seq<Descriptor>): seq<Descriptor> {
    if ds == [] then [] else (if Acceptable(ds[0]) then [ds[0]] else []) + AcceptableOf(ds[1..])
  }

  function FirstOf(ds: seq<Descriptor>, limit: nat): seq<Descriptor> {
    if |ds| <= limit then ds else ds[..limit]
  }

  lemma {:induction false} AcceptableOfJoin(a: seq<Descriptor>, b: seq<Descriptor>)
    ensures AcceptableOf(a + b) == AcceptableOf(a) + AcceptableOf(b)
    decreases |a|
  {
    if a == [] {
      assert a + b == b;
    } else {
      assert (a + b)[1..] == a[1..] + b;
      AcceptableOfJoin(a[1..], b);
    }
  }

  lemma {:induction false} PageCollectsFirst(tools: seq<Descriptor>, page: seq<Descriptor>)
    requires |tools| <= MAX_TOOL_COUNT
    ensures CollectPage(tools, page) == FirstOf(tools + AcceptableOf(page), MAX_TOOL_COUNT)
    decreases |page|
  {
    if page != [] && |tools| < MAX_TOOL_COUNT {
      var next := if Acceptable(page[0]) then tools + [page[0]] else tools;
      PageCollectsFirst(next, page[1..]);
      assert next + AcceptableOf(page[1..]) == tools + AcceptableOf(page);
    }
  }

  /** Page by page, with both early exits, the loop collects the first 500 acceptable descriptors of all pages. */
  lemma {:induction false} PagesCollectFirst(tools: seq<Descriptor>, pages: seq<seq<Descriptor>>)
    requires |tools| <= MAX_TOOL_COUNT
    ensures CollectPages(tools, pages) == FirstOf(tools + AcceptableOf(Flatten(pages)), MAX_TOOL_COUNT)
    decreases |pages|
  {
    if pages != [] {
      var more := CollectPage(tools, pages[0]);
      PageCollectsFirst(tools, pages[0]);
      AcceptableOfJoin(pages[0], Flatten(pages[1..]));
      var all := tools + AcceptableOf(pages[0]);
      assert tools + AcceptableOf(Flatten(pages)) == all + AcceptableOf(Flatten(pages[1..]));
      if |more| < MAX_TOOL_COUNT {
        PagesCollectFirst(more, pages[1..]);
      }
    }
  }

  // ----- a server that keeps sending pages -----

  /** Page by page, what a server sends that always names a next page. */
  type Stream = nat -> seq<Descriptor>

  function FirstPages(stream: Stream, n: nat): seq<seq<Descriptor>> { seq(n, i requires 0 <= i < n => stream(i)) }

  /** The loop has read n pages without reaching its limit on any of them, and asks for another one. */
  ghost predicate AsksAgain(stream: Stream, n: nat) {
    forall m: nat :: m <= n ==> |CollectPages([], FirstPages(stream, m))| < MAX_TOOL_COUNT
  }

  /** How many acceptable descriptors the first n pages hold. */
  function AcceptableWithin(stream: Stream, n: nat): nat { |AcceptableOf(Flatten(FirstPages(stream, n)))| }

  lemma {:induction false} FlattenJoin(a: seq<seq<Descriptor>>, b: seq<seq<Descriptor>>)
    ensures Flatten(a + b) == Flatten(a) + Flatten(b)
    decreases |a|
  {
    if a == [] {
      assert a + b == b;
    } else {
      assert (a + b)[1..] == a[1..] + b;
      FlattenJoin(a[1..], b);
    }
  }

  lemma MorePagesHoldMore(stream: Stream, m: nat, n: nat)
    requires m <= n
    ensures AcceptableWithin(stream, m) <= AcceptableWithin(stream, n)
  {
    var more := FirstPages(stream, n)[m..];
    assert FirstPages(stream, n) == FirstPages(stream, m) + more;
    FlattenJoin(FirstPages(stream, m), more);
    AcceptableOfJoin(Flatten(FirstPages(stream, m)), Flatten(more));
  }

  /** The loop asks again exactly as long as fewer than 500 acceptable descriptors were sent. */
  lemma AsksAgainExactlyWhen(stream: Stream, n: nat)
    ensures AsksAgain(stream, n) <==> AcceptableWithin(stream, n) < MAX_TOOL_COUNT
  {
    forall m: nat | m <= n
      ensures |CollectPages([], FirstPages(stream, m))| < MAX_TOOL_COUNT
              <==> AcceptableWithin(stream, m) < MAX_TOOL_COUNT
      ensures AcceptableWithin(stream, m) <= AcceptableWithin(stream, n)
    {
      PagesCollectFirst([], FirstPages(stream, m));
      MorePagesHoldMore(stream, m, n);
    }
  }

  /** So against a server that never sends 500 of them, by empty pages for instance, the loop asks forever. */
  lemma DiscoveryEndsExactlyWhen(stream: Stream)
    ensures (forall n: nat :: AsksAgain(stream, n)) <==> (forall n: nat :: AcceptableWithin(stream, n) < MAX_TOOL_COUNT)
    ensures (forall i: nat :: stream(i) == []) ==> forall n: nat :: AsksAgain(stream, n)
  {
    forall n: nat ensures AsksAgain(stream, n) <==> AcceptableWithin(stream, n) < MAX_TOOL_COUNT {
      AsksAgainExactlyWhen(stream, n);
    }
    if forall i: nat :: stream(i) == [] {
      forall n: nat ensures AcceptableWithin(stream, n) == 0 {
        EmptyPagesHoldNothing(FirstPages(stream, n));
      }
    }
  }

  lemma {:induction false} EmptyPagesHoldNothing(pages: seq<seq<Descriptor>>)
    requires forall i :: 0 <= i < |pages| ==> pages[i] == []
    ensures Flatten(pages) == []
    decreases |pages|
  {
    if pages != [] { EmptyPagesHoldNothing(pages[1..]); }
  }

  // ----- exactly when the remote call is made -----

  /** The held client is open, or nothing keeps a new one from being connected. */
  predicate GetsClient(e: Entry, c: Calling) {
    && !c.cancelledAtStart
    && ((e.client.Some? && c.connect.open)
        || (!(e.client.Some? && c.connect.cancelledClosing) && c.connect.outcome.ConnectOk?))
  }

  /** The entry lists the tool, or a discovery brings it within the first 500 acceptable descriptors. */
  predicate FindsTool(e: Entry, c: Calling) {
    || Lists(e.tools, c.tool)
    || (c.discovery.Discovered?
        && Lists(FirstOf(AcceptableOf(Flatten(c.discovery.pages)), MAX_TOOL_COUNT), c.tool))
  }

  lemma PreparedExactlyWhen(e: Entry, c: Calling)
    ensures PrepareCall(e, c).1.Proceed? && Lists(PrepareCall(e, c).0.tools, c.tool)
            <==> GetsClient(e, c) && FindsTool(e, c)
  {
    if c.discovery.Discovered? {
      PagesCollectFirst([], c.discovery.pages);
      assert [] + AcceptableOf(Flatten(c.discovery.pages)) == AcceptableOf(Flatten(c.discovery.pages));
    }
  }

  /**
   The remote call is issued exactly when a small enough call gets a client and finds its tool
   without being cancelled on the way.
   */
  lemma RemoteCallExactlyWhen(e: Entry, c: Calling)
    ensures CallTool(e, c).2 == 1
            <==> !c.tooLarge && GetsClient(e, c) && FindsTool(e, c) && !c.cancelledBeforeCall
    ensures CallTool(e, c).2 <= 1
  {
    PreparedExactlyWhen(e, c);
  }

  /**
   A call is cancelled and still keeps its client exactly when the cancellation is seen after the
   client and the tool were found and before the remote call.
   */
  lemma CancelledCallKeepsClientExactlyWhen(e: Entry, c: Calling)
    requires Held(e)
    ensures CallTool(e, c).1.Cancelled? && CallTool(e, c).0.client.Some?
            <==> !c.tooLarge && GetsClient(e, c) && FindsTool(e, c) && c.cancelledBeforeCall
    ensures CallTool(e, c).1.Cancelled? && CallTool(e, c).0.client.Some? ==>
              CallTool(e, c).0.state == Connected && CallTool(e, c).2 == 0
  {
    PreparedExactlyWhen(e, c);
    ConnectKeeps(e, c.connect);
  }

  /** The state a snapshot shows, given whether the held transport is closed. */
  function ShownState(e: Entry, transportClosed: bool): ConnectionState {
    if e.client.Some? && transportClosed then Failed else e.state
  }

  /** With no operation half done, a snapshot shows Connected exactly for a held, open client. */
  lemma SnapshotShowsConnectedExactlyWhen(actions: seq<Action>, transportClosed: bool)
    requires Run(START, actions).pending == multiset{}
    ensures var e := Run(START, actions).entry;
            && (ShownState(e, transportClosed) == Connected <==> e.client.Some? && !transportClosed)
            && ShownState(e, transportClosed) != Connecting
  {
    InterleavingsKeepInv(START, actions);
  }

  // ----- the entry, updated under its lock -----

  class ServerEntry {
    var state: ConnectionState
    var client: Option<Client>
    var tools: seq<Descriptor>
    var resources: seq<string>
    var error: Option<string>

    function Abstract(): Entry
      reads this
    {
      Entry(state, client, tools, resources, error)
    }

    constructor ()
      ensures Abstract() == INITIAL
    {
      state, client, tools, resources, error := Disconnected, None, [], [], None;
    }

    /** Keeps an open client; otherwise drops it and connects anew. */
    method Ensure(c: Connect) returns (flow: Flow)
      modifies this
      ensures (Abstract(), flow) == EnsureConnected(old(Abstract()), c)
    {
      if client.Some? && c.open {
        return Proceed;
      }
      if client.Some? {
        client := None;
        if c.cancelledClosing {
          return Stop;
        }
      }
      state := Connecting;
      error := None;
      match c.outcome {
        case ConnectOk(connected) =>
          client := Some(connected);
          state := Connected;
          flow := Proceed;
        case ConnectError(message) =>
          state := Failed;
          error := Some(message);
          flow := Fail(message);
        case CancelledConnecting =>
          flow := Stop;
      }
    }

    /** Collects the acceptable descriptors page by page, up to the limit. */
    method CollectTools(pages: seq<seq<Descriptor>>) returns (collected: seq<Descriptor>)
      ensures collected == CollectPages([], pages)
      ensures collected == FirstOf(AcceptableOf(Flatten(pages)), MAX_TOOL_COUNT)
    {
      PagesCollectFirst([], pages);
      assert [] + AcceptableOf(Flatten(pages)) == AcceptableOf(Flatten(pages));
      collected := [];
      var i := 0;
      while i < |pages|
        invariant 0 <= i <= |pages|
        invariant CollectPages(collected, pages[i..]) == CollectPages([], pages)
      {
        assert pages[i..][1..] == pages[i + 1..];
        var page := pages[i];
        ghost var before := collected;
        var j := 0;
        while j < |page| && |collected| < MAX_TOOL_COUNT
          invariant 0 <= j <= |page|
          invariant CollectPage(collected, page[j..]) == CollectPage(before, page)
        {
          assert page[j..][1..] == page[j + 1..];
          if Acceptable(page[j]) {
            collected := collected + [page[j]];
          }
          j := j + 1;
        }
        assert collected == CollectPage(before, page);
        if |collected| >= MAX_TOOL_COUNT {
          return;
        }
        i := i + 1;
      }
    }

    method Discover(d: Discovery) returns (flow: Flow)
      requires client.Some?
      modifies this
      ensures (Abstract(), flow) == RefreshServer(old(Abstract()), d)
    {
      match d {
        case Discovered(pages, found) =>
          var collected := CollectTools(pages);
          tools := collected;
          resources := if |found| <= MAX_TOOL_COUNT then found else found[..MAX_TOOL_COUNT];
          state := Connected;
          error := None;
          flow := Proceed;
        case DiscoveryFailed(message) =>
          flow := Fail(message);
        case CancelledDiscovering =>
          flow := Stop;
      }
    }

    method Close(c: Cleanup)
      modifies this
      ensures Abstract() == CleanUp(old(Abstract()), c)
    {
      state := if c.Disconnecting? then Disconnected else Failed;
      error := if c.Disconnecting? then None else Some(c.message);
      client := None;
    }

    /** The first phase of refresh and list-resources. */
    method RefreshFirstPhase(r: Refreshing) returns (flow: Flow)
      modifies this
      ensures (Abstract(), flow) == RefreshPhase(old(Abstract()), r)
    {
      if r.cancelledAtStart {
        return Stop;
      }
      flow := Ensure(r.connect);
      if flow.Proceed? {
        flow := Discover(r.discovery);
      }
    }

    method DisconnectServer()
      modifies this
      ensures Abstract() == INITIAL
    {
      client := None;
      state := Disconnected;
      error := None;
      tools := [];
      resources := [];
    }

    method CallToolOnce(c: Calling) returns (response: Response, calls: nat)
      modifies this
      ensures (Abstract(), response, calls) == CallTool(old(Abstract()), c)
      ensures calls <= 1
    {
      calls := 0;
      if c.tooLarge {
        return TooLarge, 0;
      }
      var flow := Stop;
      if !c.cancelledAtStart {
        flow := Ensure(c.connect);
        if flow.Proceed? && !Lists(tools, c.tool) {
          flow := Discover(c.discovery);
        }
      }
      match flow {
        case Stop =>
          Close(Disconnecting);
          return Cancelled, 0;
        case Fail(message) =>
          Close(Failing(message));
          return ServerError(message), 0;
        case Proceed =>
      }
      if !Lists(tools, c.tool) {
        return UnknownTool, 0;
      }
      if c.cancelledBeforeCall {
        return Cancelled, 0;
      }
      calls := 1;
      match c.outcome {
        case CallOk =>
          response := Result;
        case CallFailed(message) =>
          Close(Failing(message));
          response := ServerError(message);
        case CancelledCalling =>
          client := None;
          state := Disconnected;
          response := Cancelled;
      }
    }
  }

}
