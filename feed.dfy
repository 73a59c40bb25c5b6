/** The feed protocol as both clients see it: the decoded message union, the
    two outbound text commands, JavaScript's `parseInt` as applied to a pong's
    payload, and the ping/pong keep-alive machine over `currentPingId` and
    `currentPingTime` (0 meaning no ping is outstanding). */
module Feed {
  import opened Telemetry

  /** One decoded feed message, by action tag. Only the payloads the trackers and clients read are kept. */
  datatype FeedMessage =
    | FeedVersion
    | BestBlock
    | BestFinalized
    | AddedNode(payload: AddedNodePayload)
    | RemovedNode(id: int)
    | StaleNode(id: int)
    | LocatedNode(id: int, location: NodeLocation)
    | ImportedBlock(id: int, block: BlockDetails)
    | FinalizedBlock
    | NodeStats(id: int, gauges: NodeGauges)
    | NodeHardware
    | NodeIO
    | TimeSync
    | AddedChain
    | RemovedChain
    | SubscribedTo
    | UnsubscribedFrom
    | Pong(pingPayload: string)
    | AfgFinalized
    | AfgReceivedPrevote
    | AfgReceivedPrecommit
    | AfgAuthoritySet
    | Unrecognized(action: nat)

  /** A command the client sends over the connection. */
  datatype Outbound = Subscribe(chain: string) | Ping(id: nat)

  // ---------------------------------------------------------------------
  // Number text

  function DigitChar(d: nat): char
    requires d < 10
  {
    (('0' as int) + d) as char
  }

  predicate AllDecimal(s: string) {
    forall i :: 0 <= i < |s| ==> '0' <= s[i] <= '9'
  }

  /** The values of a run of decimal digits. */
  function DecimalValues(s: string): (r: seq<nat>)
    requires AllDecimal(s)
    ensures |r| == |s|
  {
    seq(|s|, i requires 0 <= i < |s| => (s[i] as int) - ('0' as int))
  }

  /** The decimal text JavaScript's template literal gives a non-negative integer. */
  function Decimal(n: nat): (r: string)
    ensures |r| >= 1 && AllDecimal(r)
    ensures n > 0 ==> r[0] != '0'
  {
    if n < 10 then [DigitChar(n)] else Decimal(n / 10) + [DigitChar(n % 10)]
  }

  /** The wire text of an outbound command. */
  function Render(o: Outbound): (r: string)
    ensures o.Subscribe? ==> |r| >= 10 && r[..10] == "subscribe:" && r[10..] == o.chain
    ensures o.Ping? ==> |r| > 5 && r[..5] == "ping:" && ParseInt(r[5..]) == Some(o.id)
  {
    match o
    case Subscribe(chain) => "subscribe:" + chain
    case Ping(id) =>
      DecimalRoundTrip(id);
      var r := "ping:" + Decimal(id);
      assert r[5..] == Decimal(id);
      r
  }

  function DigitValue(c: char, radix: nat): Option<nat> {
    if '0' <= c <= '9' && (c as int) - ('0' as int) < radix then Some((c as int) - ('0' as int))
    else if radix == 16 && 'a' <= c <= 'f' then Some((c as int) - ('a' as int) + 10)
    else if radix == 16 && 'A' <= c <= 'F' then Some((c as int) - ('A' as int) + 10)
    else None
  }

  /** The digit values of the longest prefix of `s` made of digits of `radix`. */
  function DigitPrefix(s: string, radix: nat): seq<nat> {
    if s == [] then []
    else match DigitValue(s[0], radix)
      case Some(d) => [d] + DigitPrefix(s[1..], radix)
      case None => []
  }

  /** The number a run of digits denotes, most significant first. */
  function DigitsValue(ds: seq<nat>, radix: nat): nat {
    if ds == [] then 0 else DigitsValue(ds[..|ds| - 1], radix) * radix + ds[|ds| - 1]
  }

  predicate IsSpace(c: char) {
    c == ' ' || c == '\t' || c == '\n' || c == '\r' || c == '\U{000B}' || c == '\U{000C}'
  }

  function SkipSpace(s: string): (r: string)
    ensures |r| <= |s| && r == s[|s| - |r|..]
    ensures r != [] ==> !IsSpace(r[0])
    ensures forall i :: 0 <= i < |s| - |r| ==> IsSpace(s[i])
  {
    if s != [] && IsSpace(s[0]) then SkipSpace(s[1..]) else s
  }

  /** `parseInt(text)` without a radix: leading white space, an optional sign,
      a `0x` prefix selecting base 16, then the longest run of digits; no
      digits at all gives NaN, here `None`. */
  function ParseInt(text: string): (r: Option<int>)
    ensures SkipSpace(text) == [] ==> r.None?
    ensures r.Some? && r.value < 0 ==> SkipSpace(text)[0] == '-'
  {
    var t := SkipSpace(text);
    var negative := t != [] && t[0] == '-';
    var u := if t != [] && (t[0] == '-' || t[0] == '+') then t[1..] else t;
    match ParseUnsigned(u)
    case None => None
    case Some(v) => var w: int := v; Some(if negative then -w else w)
  }

  /** The part of `parseInt` after the sign: a `0x` prefix selects base 16,
      then the longest run of digits is read; no digits is NaN. */
  function ParseUnsigned(u: string): (r: Option<nat>)
    ensures u == [] ==> r.None?
  {
    var hex := |u| >= 2 && u[0] == '0' && (u[1] == 'x' || u[1] == 'X');
    var radix := if hex then 16 else 10;
    var ds := DigitPrefix(if hex then u[2..] else u, radix);
    if ds == [] then None else Some(DigitsValue(ds, radix))
  }

  lemma {:induction false} DigitPrefixOfDigits(s: string, rest: string)
    requires AllDecimal(s)
    requires rest == [] || DigitValue(rest[0], 10).None?
    ensures DigitPrefix(s + rest, 10) == DecimalValues(s)
  {
    if s == [] {
      assert s + rest == rest;
    } else {
      assert (s + rest)[1..] == s[1..] + rest;
      DigitPrefixOfDigits(s[1..], rest);
      assert DecimalValues(s) == [DecimalValues(s)[0]] + DecimalValues(s[1..]);
    }
  }

  lemma {:induction false} DecimalDigitsValue(n: nat)
    ensures DigitsValue(DecimalValues(Decimal(n)), 10) == n
  {
    var ds := DecimalValues(Decimal(n));
    if n < 10 {
      assert ds == [n];
      assert ds[..0] == [];
    } else {
      var q := Decimal(n / 10);
      assert Decimal(n) == q + [DigitChar(n % 10)];
      assert ds == DecimalValues(q) + [n % 10];
      assert ds[..|ds| - 1] == DecimalValues(q);
      DecimalDigitsValue(n / 10);
    }
  }

  /** Text starting with a decimal digit and no `0x` prefix parses as its
      longest decimal prefix. */
  lemma ParseIntDecimal(u: string)
    requires u != [] && '0' <= u[0] <= '9'
    requires |u| >= 2 && u[0] == '0' ==> u[1] != 'x' && u[1] != 'X'
    ensures ParseInt(u) == Some(DigitsValue(DigitPrefix(u, 10), 10))
  {
    assert !IsSpace(u[0]);
    assert SkipSpace(u) == u;
    assert u[0] != '-' && u[0] != '+';
    ParseUnsignedDecimal(u);
  }

  lemma ParseUnsignedDecimal(u: string)
    requires u != [] && '0' <= u[0] <= '9'
    requires |u| >= 2 && u[0] == '0' ==> u[1] != 'x' && u[1] != 'X'
    ensures ParseUnsigned(u) == Some(DigitsValue(DigitPrefix(u, 10), 10))
  {
    assert DigitValue(u[0], 10).Some?;
    assert DigitPrefix(u, 10) != [];
  }

  /** The pong the feed echoes for `ping:<n>` parses back to n. */
  lemma DecimalRoundTrip(n: nat)
    ensures ParseInt(Decimal(n)) == Some(n)
  {
    ParseIntStopsAtNonDigit(n, []);
    assert Decimal(n) + [] == Decimal(n);
  }

  /** parseInt reads the longest decimal prefix: text after the digits of n
      is ignored, unless it turns a lone "0" into a "0x" prefix. */
  lemma ParseIntStopsAtNonDigit(n: nat, rest: string)
    requires rest == [] || DigitValue(rest[0], 10).None?
    requires n == 0 && rest != [] ==> rest[0] != 'x' && rest[0] != 'X'
    ensures ParseInt(Decimal(n) + rest) == Some(n)
  {
    var r := Decimal(n);
    var u := r + rest;
    assert u[0] == r[0];
    assert |u| >= 2 && u[0] == '0' ==> u[1] != 'x' && u[1] != 'X' by {
      if |u| >= 2 && u[0] == '0' {
        assert n == 0 && r == "0";
        assert u[1] == rest[0];
      }
    }
    ParseIntDecimal(u);
    DigitPrefixOfDigits(r, rest);
    DecimalDigitsValue(n);
  }

  /** Distinct ping ids go out as distinct wire texts. */
  lemma PingTextsDistinct(a: nat, b: nat)
    requires a != b
    ensures Render(Ping(a)) != Render(Ping(b))
  {
    if Render(Ping(a)) == Render(Ping(b)) {
      assert Decimal(a) == Render(Ping(a))[5..];
      DecimalRoundTrip(a);
      DecimalRoundTrip(b);
    }
  }

  // ---------------------------------------------------------------------
  // The connection and its keep-alive state

  /** What a client knows about its connection: whether it is open, whether
      the process has exited (`fatal`), the ping counter and the time the
      outstanding ping was sent (0 when none is), and every command sent. */
  datatype Link = Link(isOpen: bool, fatal: bool, currentPingId: nat, currentPingTime: nat, sent: seq<Outbound>)

  const InitialLink := Link(false, false, 0, 0, [])

  /** The open (connect) callback: subscribe to the chain; the ping interval starts now. */
  function Open(l: Link, chain: string): (r: Link)
    requires !l.isOpen && !l.fatal
    ensures r.isOpen && !r.fatal && r.sent == l.sent + [Subscribe(chain)]
    ensures r.currentPingId == l.currentPingId && r.currentPingTime == l.currentPingTime
  {
    l.(isOpen := true, sent := l.sent + [Subscribe(chain)])
  }

  /** The ping interval's callback at clock reading `now`. */
  function PingTick(l: Link, now: nat): (r: Link)
    requires l.isOpen && !l.fatal && now > 0
    ensures r.fatal <==> l.currentPingTime != 0
    ensures r.fatal ==> r == l.(fatal := true)
    ensures !r.fatal ==> r == l.(sent := l.sent + [Ping(l.currentPingId)], currentPingTime := now)
  {
    if l.currentPingTime != 0 then l.(fatal := true)
    else l.(sent := l.sent + [Ping(l.currentPingId)], currentPingTime := now)
  }

  /** The Pong case: a pong whose parsed payload is not the current id is
      fatal; otherwise the id advances by one and no ping is outstanding. */
  function OnPong(l: Link, payload: string): (r: Link)
    requires !l.fatal
    ensures r.fatal <==> ParseInt(payload) != Some(l.currentPingId)
    ensures r.fatal ==> r == l.(fatal := true)
    ensures !r.fatal ==> r == l.(currentPingId := l.currentPingId + 1, currentPingTime := 0)
  {
    if ParseInt(payload) != Some(l.currentPingId) then l.(fatal := true)
    else l.(currentPingId := l.currentPingId + 1, currentPingTime := 0)
  }

  /** The shape every reachable link has: nothing is sent before the open
      callback, the subscription goes out first and only pings follow, ping
      ids strictly increase and never exceed the counter, and the last ping
      carries the counter exactly while it is outstanding. */
  ghost predicate LinkOk(l: Link, chain: string) {
    && (!l.isOpen ==> l.sent == [] && l.currentPingTime == 0)
    && (l.isOpen ==> |l.sent| >= 1 && l.sent[0] == Subscribe(chain))
    && (forall i :: 1 <= i < |l.sent| ==> l.sent[i].Ping? && l.sent[i].id <= l.currentPingId)
    && (forall i, j :: 1 <= i < j < |l.sent| ==> l.sent[i].id < l.sent[j].id)
    && (l.currentPingTime != 0 ==> |l.sent| >= 2 && l.sent[|l.sent| - 1] == Ping(l.currentPingId))
    && (l.currentPingTime == 0 ==> forall i :: 1 <= i < |l.sent| ==> l.sent[i].id < l.currentPingId)
  }

  lemma InitialLinkOk(chain: string)
    ensures LinkOk(InitialLink, chain)
  {
  }

  lemma OpenKeepsLinkOk(l: Link, chain: string)
    requires LinkOk(l, chain) && !l.isOpen && !l.fatal
    ensures LinkOk(Open(l, chain), chain)
  {
  }

  lemma PingTickKeepsLinkOk(l: Link, chain: string, now: nat)
    requires LinkOk(l, chain) && l.isOpen && !l.fatal && now > 0
    ensures LinkOk(PingTick(l, now), chain)
  {
  }

  lemma OnPongKeepsLinkOk(l: Link, chain: string, payload: string)
    requires LinkOk(l, chain) && !l.fatal
    ensures LinkOk(OnPong(l, payload), chain)
  {
  }

  /** The pings sent so far carry exactly the ids 0, 1, 2, ... in order,
      as many as were answered plus the outstanding one. */
  ghost predicate GapFree(l: Link) {
    l.isOpen ==>
      && |l.sent| == 1 + l.currentPingId + (if l.currentPingTime != 0 then 1 else 0)
      && forall i :: 1 <= i < |l.sent| ==> l.sent[i] == Ping(i - 1)
  }

  /** Opening the connection starts the chain: the subscription and no ping. */
  lemma OpenGapFree(chain: string)
    ensures GapFree(Open(InitialLink, chain))
  {
  }

  lemma PingTickKeepsGapFree(l: Link, now: nat)
    requires GapFree(l) && l.isOpen && !l.fatal && now > 0
    ensures GapFree(PingTick(l, now))
  {
  }

  /** A pong that answers the outstanding ping keeps the ids gap-free. */
  lemma AnsweredPongKeepsGapFree(l: Link, payload: string)
    requires GapFree(l) && !l.fatal && l.currentPingTime != 0
    ensures GapFree(OnPong(l, payload))
  {
  }

  /** The pong the feed sends back for the outstanding ping is accepted. */
  lemma EchoedPongAccepted(l: Link)
    requires !l.fatal
    ensures !OnPong(l, Decimal(l.currentPingId)).fatal
    ensures OnPong(l, Decimal(l.currentPingId)).currentPingId == l.currentPingId + 1
    ensures OnPong(l, Decimal(l.currentPingId)).currentPingTime == 0
  {
    DecimalRoundTrip(l.currentPingId);
  }

  /** The Pong case does not look at `currentPingTime`: a pong carrying the
      current id while no ping is outstanding is accepted too, and the next
      ping then skips that id. */
  lemma UnansweredIdSkipped(chain: string, now: nat)
    requires now > 0
    ensures var l := OnPong(Open(InitialLink, chain), "0");
      !l.fatal && PingTick(l, now).sent == [Subscribe(chain), Ping(1)]
  {
    DecimalRoundTrip(0);
    assert Decimal(0) == "0";
  }
}
