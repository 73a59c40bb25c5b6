/** The feed client of tracker/backend: it subscribes to one chain, keeps
    the connection alive with pings, exits when no node is announced within
    the liveness timeout, and hands the decoded messages of each frame, in
    order, to the Postgres registry. */
module BackendFeed {
  import opened Telemetry
  import opened Feed
  import BackendTracker

  /** Everything a message can change: the connection, whether the liveness
      timer (noNewNodeTimeout) is still pending, and the registry. */
  datatype ClientView = ClientView(link: Link, livenessArmed: bool, tracker: BackendTracker.TrackerState)

  /** The tags whose case calls into the registry. */
  predicate Forwarded(m: FeedMessage) {
    m.AddedNode? || m.RemovedNode? || m.LocatedNode? || m.ImportedBlock? || m.NodeStats?
  }

  /** One case of the switch in handleMessages. */
  function Dispatch(v: ClientView, m: FeedMessage): (r: ClientView)
    requires !v.link.fatal && BackendTracker.Consistent(v.tracker)
    ensures BackendTracker.Consistent(r.tracker)
    ensures r.link == if m.Pong? then OnPong(v.link, m.pingPayload) else v.link
    ensures r.livenessArmed == (v.livenessArmed && !m.AddedNode?)
    ensures !Forwarded(m) ==> r.tracker == v.tracker
    ensures m.AddedNode? ==> r.tracker == BackendTracker.NewNode(v.tracker, m.payload)
    ensures m.RemovedNode? ==> r.tracker == BackendTracker.RemovedNode(v.tracker, m.id)
    ensures m.LocatedNode? ==> r.tracker == BackendTracker.UpdatedLocation(v.tracker, m.id, m.location, 0)
    ensures m.ImportedBlock? ==> r.tracker == BackendTracker.NewBlock(v.tracker, m.id, m.block)
    ensures m.NodeStats? ==> r.tracker == BackendTracker.UpdatedNodeStats(v.tracker, m.id, m.gauges)
  {
    match m
    case AddedNode(p) => v.(livenessArmed := false, tracker := BackendTracker.NewNode(v.tracker, p))
    case RemovedNode(id) => v.(tracker := BackendTracker.RemovedNode(v.tracker, id))
    case LocatedNode(id, loc) => v.(tracker := BackendTracker.UpdatedLocation(v.tracker, id, loc, 0))
    case ImportedBlock(id, b) => v.(tracker := BackendTracker.NewBlock(v.tracker, id, b))
    case NodeStats(id, g) => v.(tracker := BackendTracker.UpdatedNodeStats(v.tracker, id, g))
    case Pong(payload) => v.(link := OnPong(v.link, payload))
    case _ => v
  }

  /** handleMessages on one frame: the messages in order, until one makes
      the process exit. */
  function Run(v: ClientView, msgs: seq<FeedMessage>): (r: ClientView)
    requires BackendTracker.Consistent(v.tracker)
    ensures BackendTracker.Consistent(r.tracker)
    ensures v.link.fatal ==> r == v
    decreases |msgs|
  {
    if msgs == [] || v.link.fatal then v else Run(Dispatch(v, msgs[0]), msgs[1..])
  }

  /** The shape every reachable view has. */
  ghost predicate ViewOk(v: ClientView, chain: string) {
    && LinkOk(v.link, chain)
    && BackendTracker.Consistent(v.tracker)
    && (v.livenessArmed ==> v.link.isOpen)
  }

  // ---------------------------------------------------------------------
  // Properties

  lemma {:induction false} RunKeepsViewOk(v: ClientView, msgs: seq<FeedMessage>, chain: string)
    requires ViewOk(v, chain)
    ensures ViewOk(Run(v, msgs), chain)
    decreases |msgs|
  {
    if msgs != [] && !v.link.fatal {
      if msgs[0].Pong? {
        OnPongKeepsLinkOk(v.link, chain, msgs[0].pingPayload);
      }
      RunKeepsViewOk(Dispatch(v, msgs[0]), msgs[1..], chain);
    }
  }

  /** Two frames handled one after the other have the effect of one frame
      holding both batches. */
  lemma {:induction false} RunAppend(v: ClientView, a: seq<FeedMessage>, b: seq<FeedMessage>)
    requires BackendTracker.Consistent(v.tracker)
    ensures Run(v, a + b) == Run(Run(v, a), b)
    decreases |a|
  {
    if a != [] && !v.link.fatal {
      assert (a + b)[1..] == a[1..] + b;
      RunAppend(Dispatch(v, a[0]), a[1..], b);
    } else if a == [] {
      assert a + b == b;
    }
  }

  /** A pong that does not carry the current id ends the process: none of
      the messages after it in the frame reach the registry. */
  lemma UnexpectedPongDropsRest(v: ClientView, a: seq<FeedMessage>, payload: string, b: seq<FeedMessage>)
    requires BackendTracker.Consistent(v.tracker)
    requires var u := Run(v, a); !u.link.fatal && ParseInt(payload) != Some(u.link.currentPingId)
    ensures var u := Run(v, a);
      Run(v, a + [Pong(payload)] + b) == u.(link := u.link.(fatal := true))
  {
    RunAppend(v, a, [Pong(payload)] + b);
    assert a + [Pong(payload)] + b == a + ([Pong(payload)] + b);
    UnexpectedPongStops(Run(v, a), payload, b);
  }

  lemma UnexpectedPongStops(u: ClientView, payload: string, b: seq<FeedMessage>)
    requires BackendTracker.Consistent(u.tracker)
    requires !u.link.fatal && ParseInt(payload) != Some(u.link.currentPingId)
    ensures Run(u, [Pong(payload)] + b) == u.(link := u.link.(fatal := true))
  {
    var rest := [Pong(payload)] + b;
    assert rest[0] == Pong(payload) && rest[1..] == b;
    var w := Dispatch(u, Pong(payload));
    assert w.link == u.link.(fatal := true);
  }

  /** A frame without pongs leaves the connection as it was and cannot end the process. */
  lemma {:induction false} NoPongKeepsLink(v: ClientView, msgs: seq<FeedMessage>)
    requires BackendTracker.Consistent(v.tracker)
    requires forall i :: 0 <= i < |msgs| ==> !msgs[i].Pong?
    ensures Run(v, msgs).link == v.link
    decreases |msgs|
  {
    if msgs != [] && !v.link.fatal {
      NoPongKeepsLink(Dispatch(v, msgs[0]), msgs[1..]);
    }
  }

  /** Once a node has been announced in a frame the process survives, the
      liveness timer is cancelled. */
  lemma {:induction false} AddedNodeDisarms(v: ClientView, msgs: seq<FeedMessage>, i: nat)
    requires BackendTracker.Consistent(v.tracker)
    requires i < |msgs| && msgs[i].AddedNode? && !Run(v, msgs).link.fatal
    ensures !Run(v, msgs).livenessArmed
    decreases |msgs|
  {
    var u := Dispatch(v, msgs[0]);
    if i > 0 {
      AddedNodeDisarms(u, msgs[1..], i - 1);
    } else {
      StaysDisarmed(u, msgs[1..]);
    }
  }

  lemma {:induction false} StaysDisarmed(v: ClientView, msgs: seq<FeedMessage>)
    requires BackendTracker.Consistent(v.tracker) && !v.livenessArmed
    ensures !Run(v, msgs).livenessArmed
    decreases |msgs|
  {
    if msgs != [] && !v.link.fatal {
      StaysDisarmed(Dispatch(v, msgs[0]), msgs[1..]);
    }
  }

  /** A node that goes offline loses its statistics entry: blocks it
      reports afterwards are dropped. */
  lemma RemovedNodeDropsLaterBlocks(v: ClientView, id: int, b: BlockDetails)
    requires !v.link.fatal && BackendTracker.Consistent(v.tracker)
    ensures Run(v, [RemovedNode(id), ImportedBlock(id, b)]).tracker == BackendTracker.RemovedNode(v.tracker, id)
  {
    var u := Dispatch(v, RemovedNode(id));
    assert [RemovedNode(id), ImportedBlock(id, b)][1..] == [ImportedBlock(id, b)];
    assert Run(u, [ImportedBlock(id, b)]) == Run(Dispatch(u, ImportedBlock(id, b)), []);
  }

  // ---------------------------------------------------------------------
  // The process

  /** The state of main(): the connection's callbacks share these variables
      and the module's registry instance. */
  class Client {
    const chainName: string
    const tracker: BackendTracker.NodeStatsTracker
    var isOpen: bool
    /** process.exit() has been called. */
    var fatal: bool
    var currentPingId: nat
    var currentPingTime: nat
    /** The commands sent over the connection so far. */
    var sent: seq<Outbound>
    /** noNewNodeTimeout is set and not yet cleared. */
    var livenessArmed: bool

    function LinkOf(): Link
      reads this
    {
      Link(isOpen, fatal, currentPingId, currentPingTime, sent)
    }

    function View(): ClientView
      reads this, tracker
    {
      ClientView(LinkOf(), livenessArmed, tracker.State())
    }

    ghost predicate Valid()
      reads this, tracker
    {
      ViewOk(View(), chainName)
    }

    /** main() after `tracker.init()`: the connection is being opened. */
    constructor (chain: string, t: BackendTracker.NodeStatsTracker)
      requires t.Valid()
      ensures chainName == chain && tracker == t
      ensures View() == ClientView(InitialLink, false, t.State())
      ensures Valid()
    {
      chainName, tracker := chain, t;
      isOpen, fatal, currentPingId, currentPingTime, sent := false, false, 0, 0, [];
      livenessArmed := false;
      InitialLinkOk(chain);
    }

    /** The "open" callback: arm the liveness timer, subscribe, start pinging. */
    method OnOpen()
      requires Valid() && !isOpen && !fatal
      modifies this
      ensures View() == old(View()).(link := Open(old(LinkOf()), chainName), livenessArmed := true)
      ensures Valid()
    {
      OpenKeepsLinkOk(LinkOf(), chainName);
      livenessArmed := true;
      sent := sent + [Subscribe(chainName)];
      isOpen := true;
    }

    /** The liveness timer fires: no node was announced in time, so the process exits. */
    method OnLivenessTimeout()
      requires Valid() && livenessArmed && !fatal
      modifies this
      ensures View() == old(View()).(link := old(LinkOf()).(fatal := true))
      ensures Valid()
    {
      fatal := true;
    }

    /** The "unexpected-response" callback: the process exits. */
    method OnUnexpectedResponse()
      requires Valid() && !fatal
      modifies this
      ensures View() == old(View()).(link := old(LinkOf()).(fatal := true))
      ensures Valid()
    {
      fatal := true;
    }

    /** The ping interval fires at clock reading `now`. */
    method OnPingInterval(now: nat)
      requires Valid() && isOpen && !fatal && now > 0
      modifies this
      ensures View() == old(View()).(link := PingTick(old(LinkOf()), now))
      ensures Valid()
    {
      PingTickKeepsLinkOk(LinkOf(), chainName, now);
      if currentPingTime != 0 {
        fatal := true;
        return;
      }
      sent := sent + [Ping(currentPingId)];
      currentPingTime := now;
    }

    /** The one-second timer of the earliest postponed location update fires. */
    method OnLocationRetry()
      requires Valid() && !fatal && tracker.retries != []
      modifies tracker
      ensures View() == old(View()).(tracker := BackendTracker.FireRetry(old(tracker.State())))
      ensures Valid()
    {
      tracker.FireLocationRetry();
    }

    /** The tracking-stats interval fires at clock reading `timestamp`. */
    method OnSnapshotInterval(timestamp: int)
      requires Valid() && !fatal
      modifies tracker
      ensures View() == old(View()).(tracker := BackendTracker.Snapshot(old(tracker.State()), timestamp))
      ensures Valid()
    {
      tracker.SaveSnapshot(timestamp);
    }

    /** One case of the switch. */
    method HandleMessage(m: FeedMessage)
      requires tracker.Valid() && !fatal
      modifies this, tracker
      ensures View() == Dispatch(old(View()), m)
    {
      ghost var v0 := View();
      if m.AddedNode? {
        livenessArmed := false;
        tracker.HandleNewNode(m.payload);
        assert View() == v0.(livenessArmed := false, tracker := BackendTracker.NewNode(v0.tracker, m.payload));
      } else if m.RemovedNode? {
        tracker.HandleRemovedNode(m.id);
        assert View() == v0.(tracker := BackendTracker.RemovedNode(v0.tracker, m.id));
      } else if m.LocatedNode? {
        tracker.HandleUpdatedLocation(m.id, m.location, 0);
        assert View() == v0.(tracker := BackendTracker.UpdatedLocation(v0.tracker, m.id, m.location, 0));
      } else if m.ImportedBlock? {
        tracker.HandleNewBlock(m.id, m.block);
        assert View() == v0.(tracker := BackendTracker.NewBlock(v0.tracker, m.id, m.block));
      } else if m.NodeStats? {
        tracker.HandleUpdatedNodeStats(m.id, m.gauges);
        assert View() == v0.(tracker := BackendTracker.UpdatedNodeStats(v0.tracker, m.id, m.gauges));
      } else if m.Pong? {
        if ParseInt(m.pingPayload) != Some(currentPingId) {
          fatal := true;
        } else {
          currentPingId := currentPingId + 1;
          currentPingTime := 0;
        }
      }
    }

    /** handleMessages on the messages of one frame. */
    method HandleMessages(msgs: seq<FeedMessage>)
      requires Valid() && !fatal
      modifies this, tracker
      ensures View() == Run(old(View()), msgs)
      ensures Valid()
    {
      ghost var v0 := View();
      RunKeepsViewOk(v0, msgs, chainName);
      var i := 0;
      while i < |msgs| && !fatal
        invariant 0 <= i <= |msgs|
        invariant BackendTracker.Consistent(tracker.State())
        invariant Run(v0, msgs) == Run(View(), msgs[i..])
      {
        HandleMessage(msgs[i]);
        assert msgs[i..][1..] == msgs[i + 1..];
        i := i + 1;
      }
    }
  }
}
