/** The feed client of the lowdb version (src/index.ts): it subscribes to
    one chain, keeps the connection alive with pings, exits on any
    connection failure, and hands the decoded messages of each frame, in
    order, to the lowdb registry. It has no liveness timer, and it only
    logs node removals. */
module LowdbFeed {
  import opened Telemetry
  import opened Feed
  import LowdbTracker

  /** Everything a message can change: the connection and the registry. */
  datatype ClientView = ClientView(link: Link, tracker: LowdbTracker.LowdbState)

  /** The tags whose case calls into the registry (RemovedNode is not one). */
  predicate Forwarded(m: FeedMessage) {
    m.AddedNode? || m.LocatedNode? || m.ImportedBlock? || m.NodeStats?
  }

  /** One case of the switch in handleMessages. */
  function Dispatch(v: ClientView, m: FeedMessage): (r: ClientView)
    requires !v.link.fatal
    ensures r.link == if m.Pong? then OnPong(v.link, m.pingPayload) else v.link
    ensures !Forwarded(m) ==> r.tracker == v.tracker
    ensures m.AddedNode? ==> r.tracker == LowdbTracker.NewNode(v.tracker, m.payload)
    ensures m.LocatedNode? ==> r.tracker == LowdbTracker.UpdatedLocation(v.tracker, m.id, m.location)
    ensures m.ImportedBlock? ==> r.tracker == LowdbTracker.NewBlock(v.tracker, m.id, m.block)
    ensures m.NodeStats? ==> r.tracker == LowdbTracker.UpdatedNodeStats(v.tracker, m.id, m.gauges)
  {
    match m
    case AddedNode(p) => v.(tracker := LowdbTracker.NewNode(v.tracker, p))
    case LocatedNode(id, loc) => v.(tracker := LowdbTracker.UpdatedLocation(v.tracker, id, loc))
    case ImportedBlock(id, b) => v.(tracker := LowdbTracker.NewBlock(v.tracker, id, b))
    case NodeStats(id, g) => v.(tracker := LowdbTracker.UpdatedNodeStats(v.tracker, id, g))
    case Pong(payload) => v.(link := OnPong(v.link, payload))
    case _ => v
  }

  /** handleMessages on one frame: the messages in order, until one makes
      the process exit. */
  function Run(v: ClientView, msgs: seq<FeedMessage>): (r: ClientView)
    ensures v.link.fatal ==> r == v
    decreases |msgs|
  {
    if msgs == [] || v.link.fatal then v else Run(Dispatch(v, msgs[0]), msgs[1..])
  }

  /** The shape every reachable view has. */
  ghost predicate ViewOk(v: ClientView, chain: string) {
    LinkOk(v.link, chain) && LowdbTracker.Consistent(v.tracker)
  }

  // ---------------------------------------------------------------------
  // Properties

  lemma DispatchKeepsViewOk(v: ClientView, m: FeedMessage, chain: string)
    requires ViewOk(v, chain) && !v.link.fatal
    ensures ViewOk(Dispatch(v, m), chain)
  {
    match m
    case AddedNode(p) => LowdbTracker.NewNodeKeepsInvariants(v.tracker, p);
    case LocatedNode(id, loc) => LowdbTracker.UpdatedLocationKeepsInvariants(v.tracker, id, loc);
    case Pong(payload) => OnPongKeepsLinkOk(v.link, chain, payload);
    case _ =>
  }

  lemma {:induction false} RunKeepsViewOk(v: ClientView, msgs: seq<FeedMessage>, chain: string)
    requires ViewOk(v, chain)
    ensures ViewOk(Run(v, msgs), chain)
    decreases |msgs|
  {
    if msgs != [] && !v.link.fatal {
      DispatchKeepsViewOk(v, msgs[0], chain);
      RunKeepsViewOk(Dispatch(v, msgs[0]), msgs[1..], chain);
    }
  }

  /** Two frames handled one after the other have the effect of one frame
      holding both batches. */
  lemma {:induction false} RunAppend(v: ClientView, a: seq<FeedMessage>, b: seq<FeedMessage>)
    ensures Run(v, a + b) == Run(Run(v, a), b)
    decreases |a|
  {
    if a != [] && !v.link.fatal {
      assert (a + b)[1..] == a[1..] + b;
      RunAppend(Dispatch(v, a[0]), a[1..], b);
    } else if a == [] {
      assert a + b == b;
    }
  }

  /** A pong that does not carry the current id ends the process: none of
      the messages after it in the frame reach the registry. */
  lemma UnexpectedPongDropsRest(v: ClientView, a: seq<FeedMessage>, payload: string, b: seq<FeedMessage>)
    requires var u := Run(v, a); !u.link.fatal && ParseInt(payload) != Some(u.link.currentPingId)
    ensures var u := Run(v, a);
      Run(v, a + [Pong(payload)] + b) == u.(link := u.link.(fatal := true))
  {
    RunAppend(v, a, [Pong(payload)] + b);
    assert a + [Pong(payload)] + b == a + ([Pong(payload)] + b);
    UnexpectedPongStops(Run(v, a), payload, b);
  }

  lemma UnexpectedPongStops(u: ClientView, payload: string, b: seq<FeedMessage>)
    requires !u.link.fatal && ParseInt(payload) != Some(u.link.currentPingId)
    ensures Run(u, [Pong(payload)] + b) == u.(link := u.link.(fatal := true))
  {
    var rest := [Pong(payload)] + b;
    assert rest[0] == Pong(payload) && rest[1..] == b;
    var w := Dispatch(u, Pong(payload));
    assert w.link == u.link.(fatal := true);
  }

  /** A node that goes offline keeps its statistics entry: blocks it reports
      afterwards are still accumulated and written at the next flush. */
  lemma RemovedNodeKeepsAccumulating(v: ClientView, id: int, b: BlockDetails)
    requires !v.link.fatal && id in v.tracker.statsByNodeId
    ensures Run(v, [RemovedNode(id), ImportedBlock(id, b)]).tracker.statsByNodeId ==
      v.tracker.statsByNodeId[id := WithBlock(v.tracker.statsByNodeId[id], b)]
  {
    var u := Dispatch(v, RemovedNode(id));
    assert [RemovedNode(id), ImportedBlock(id, b)][1..] == [ImportedBlock(id, b)];
    assert Run(u, [ImportedBlock(id, b)]) == Run(Dispatch(u, ImportedBlock(id, b)), []);
  }

  // ---------------------------------------------------------------------
  // The process

  /** The state of main(): the connection's callbacks share these variables
      and the module's registry instance. */
  class Client {
    const chainName: string
    const tracker: LowdbTracker.NodeStatsTracker
    var isOpen: bool
    /** process.exit() has been called. */
    var fatal: bool
    var currentPingId: nat
    var currentPingTime: nat
    /** The commands sent over the connection so far. */
    var sent: seq<Outbound>

    function LinkOf(): Link
      reads this
    {
      Link(isOpen, fatal, currentPingId, currentPingTime, sent)
    }

    function View(): ClientView
      reads this, tracker
    {
      ClientView(LinkOf(), tracker.State())
    }

    ghost predicate Valid()
      reads this, tracker
    {
      ViewOk(View(), chainName)
    }

    /** main() after `client.connect`: the connection is being opened. */
    constructor (chain: string, t: LowdbTracker.NodeStatsTracker)
      requires t.Valid()
      ensures chainName == chain && tracker == t
      ensures View() == ClientView(InitialLink, t.State())
      ensures Valid()
    {
      chainName, tracker := chain, t;
      isOpen, fatal, currentPingId, currentPingTime, sent := false, false, 0, 0, [];
      InitialLinkOk(chain);
    }

    /** The "connect" callback: subscribe and start pinging. */
    method OnConnect()
      requires Valid() && !isOpen && !fatal
      modifies this
      ensures View() == old(View()).(link := Open(old(LinkOf()), chainName))
      ensures Valid()
    {
      OpenKeepsLinkOk(LinkOf(), chainName);
      sent := sent + [Subscribe(chainName)];
      isOpen := true;
    }

    /** The "connectFailed" callback, and the connection's "error" and
        "close" callbacks: the process exits. */
    method OnConnectionFailure()
      requires Valid() && !fatal
      modifies this
      ensures View() == old(View()).(link := old(LinkOf()).(fatal := true))
      ensures Valid()
    {
      fatal := true;
    }

    /** The ping interval fires at clock reading `now`. */
    method OnPingInterval(now: nat)
      requires Valid() && isOpen && !fatal && now > 0
      modifies this
      ensures View() == old(View()).(link := PingTick(old(LinkOf()), now))
      ensures Valid()
    {
      PingTickKeepsLinkOk(LinkOf(), chainName, now);
      if currentPingTime != 0 {
        fatal := true;
        return;
      }
      sent := sent + [Ping(currentPingId)];
      currentPingTime := now;
    }

    /** The tracking-stats interval fires at clock reading `timestamp`;
        `clock[i]` is the reading taken for the uptime of record `i`. */
    method OnSnapshotInterval(timestamp: int, clock: seq<int>)
      requires Valid() && !fatal && |clock| == |tracker.nodes|
      modifies tracker
      ensures View() == old(View()).(tracker := LowdbTracker.Snapshot(old(tracker.State()), timestamp, clock))
      ensures Valid()
    {
      tracker.SaveSnapshot(timestamp, clock);
    }

    /** One case of the switch. */
    method HandleMessage(m: FeedMessage)
      requires tracker.Valid() && !fatal
      modifies this, tracker
      ensures View() == Dispatch(old(View()), m)
    {
      if m.AddedNode? {
        tracker.HandleNewNode(m.payload);
      } else if m.LocatedNode? {
        tracker.HandleUpdatedLocation(m.id, m.location);
      } else if m.ImportedBlock? {
        tracker.HandleNewBlock(m.id, m.block);
      } else if m.NodeStats? {
        tracker.HandleUpdatedNodeStats(m.id, m.gauges);
      } else if m.Pong? {
        if ParseInt(m.pingPayload) != Some(currentPingId) {
          fatal := true;
        } else {
          currentPingId := currentPingId + 1;
          currentPingTime := 0;
        }
      }
    }

    /** handleMessages on the messages of one frame. */
    method HandleMessages(msgs: seq<FeedMessage>)
      requires Valid() && !fatal
      modifies this, tracker
      ensures View() == Run(old(View()), msgs)
      ensures Valid()
    {
      ghost var v0 := View();
      RunKeepsViewOk(v0, msgs, chainName);
      var i := 0;
      while i < |msgs| && !fatal
        invariant 0 <= i <= |msgs|
        invariant ViewOk(View(), chainName)
        invariant Run(v0, msgs) == Run(View(), msgs[i..])
      {
        DispatchKeepsViewOk(View(), msgs[i], chainName);
        HandleMessage(msgs[i]);
        assert msgs[i..][1..] == msgs[i + 1..];
        i := i + 1;
      }
    }
  }
}
