/**
 The in-process transport (src/net/loopback.cpp): links with a queue each way,
 shared by one server and any number of clients.
 */
module Loopback {

  datatype Event =
    | Connected(conn: nat)
    | Message(conn: nat, lane: nat, frame: string)
    | Disconnected(conn: nat, reason: string)

  datatype Link = Link(id: nat, toServer: seq<Event>, toClient: seq<Event>, closed: bool)

  datatype Hub = Hub(listening: bool, nextId: nat, links: seq<Link>)

  const NEW_HUB := Hub(false, 1, [])

  // ---------------------------------------------------- one operation on the hub

  /** Index of the first link with this id, or the number of links. */
  function IndexOf(links: seq<Link>, id: nat): (i: nat)
    ensures i <= |links| && (i < |links| ==> links[i].id == id)
    ensures forall j :: 0 <= j < i ==> links[j].id != id
  {
    if links == [] then 0 else if links[0].id == id then 0 else 1 + IndexOf(links[1..], id)
  }

  function Connecting(h: Hub): Hub {
    h.(nextId := h.nextId + 1, links := h.links + [Link(h.nextId, [Connected(h.nextId)], [Connected(h.nextId)], false)])
  }

  function Queue(l: Link, toServer: bool): seq<Event> {
    if toServer then l.toServer else l.toClient
  }

  function Pushed(l: Link, toServer: bool, e: Event): Link {
    if toServer then l.(toServer := l.toServer + [e]) else l.(toClient := l.toClient + [e])
  }

  function Sending(h: Hub, toServer: bool, id: nat, lane: nat, frame: string): Hub {
    var i := IndexOf(h.links, id);
    if i == |h.links| || h.links[i].closed then h
    else h.(links := h.links[i := Pushed(h.links[i], toServer, Message(id, lane, frame))])
  }

  function Closing(h: Hub, id: nat, reason: string): Hub {
    var i := IndexOf(h.links, id);
    if i == |h.links| || h.links[i].closed then h
    else
      var l := Pushed(Pushed(h.links[i], true, Disconnected(id, reason)), false, Disconnected(id, reason));
      h.(links := h.links[i := l.(closed := true)])
  }

  /** Whether this side's poll looks at a link: the server's at all of them, a
      client's at its own. */
  predicate Sees(server: bool, owned: seq<nat>, id: nat) {
    server || id in owned
  }

  function Drained(l: Link, server: bool): Link {
    if server then l.(toServer := []) else l.(toClient := [])
  }

  /** The links after a poll, and the events it returns. */
  function Polling(links: seq<Link>, server: bool, owned: seq<nat>): (seq<Link>, seq<Event>) {
    if links == [] then ([], [])
    else
      var (before, events) := Polling(links[..|links| - 1], server, owned);
      var l := links[|links| - 1];
      if Sees(server, owned, l.id) then (before + [Drained(l, server)], events + Queue(l, server))
      else (before + [l], events)
  }

  /** The links when the first i of them have been looked at. */
  function Halfway(links: seq<Link>, i: nat, server: bool, owned: seq<nat>): seq<Link>
    requires i <= |links|
  {
    Polling(links[..i], server, owned).0 + links[i..]
  }

  lemma {:induction false} PollingLength(links: seq<Link>, server: bool, owned: seq<nat>)
    ensures |Polling(links, server, owned).0| == |links|
    decreases |links|
  {
    if links != [] {
      PollingLength(links[..|links| - 1], server, owned);
    }
  }

  lemma NothingPolled(links: seq<Link>, before: seq<Event>, server: bool, owned: seq<nat>)
    ensures Halfway(links, 0, server, owned) == links && before + Polling(links[..0], server, owned).1 == before
  {
  }

  lemma AllPolled(links: seq<Link>, server: bool, owned: seq<nat>)
    ensures Halfway(links, |links|, server, owned) == Polling(links, server, owned).0 && links[..|links|] == links
  {
    assert links[..|links|] == links;
  }

  lemma OneMorePolled(links: seq<Link>, i: nat, server: bool, owned: seq<nat>)
    requires i < |links|
    ensures var (half, sees) := (Halfway(links, i, server, owned), Sees(server, owned, links[i].id));
            |half| == |links| && half[i] == links[i] &&
            Halfway(links, i + 1, server, owned) == (if sees then half[i := Drained(links[i], server)] else half) &&
            Polling(links[..i + 1], server, owned).1 ==
            Polling(links[..i], server, owned).1 + if sees then Queue(links[i], server) else []
  {
    hide Drained, Queue, Sees, Polling;
    PollingLength(links[..i], server, owned);
    PolledSnoc(links[..i], links[i], server, owned);
    assert links[..i + 1] == links[..i] + [links[i]];
  }

  lemma Regroup(x: seq<Event>, y: seq<Event>, z: seq<Event>)
    ensures x + (y + z) == x + y + z && x + (y + []) == x + y
  {
  }

  class SharedHub {
    var listening: bool
    var nextId: nat
    var links: seq<Link>

    constructor ()
      ensures Value() == NEW_HUB
    {
      listening, nextId, links := false, 1, [];
    }

    function Value(): Hub
      reads this
    {
      Hub(listening, nextId, links)
    }

    method Find(id: nat) returns (i: nat)
      ensures i == IndexOf(links, id)
    {
      i := 0;
      while i < |links| && links[i].id != id
        invariant 0 <= i <= |links|
        invariant IndexOf(links, id) == i + IndexOf(links[i..], id)
      {
        i := i + 1;
      }
    }
  }

  class Transport {
    const hub: SharedHub
    const server: bool
    var owned: seq<nat>

    constructor (hub: SharedHub, server: bool)
      ensures this.hub == hub && this.server == server && owned == []
    {
      this.hub, this.server, owned := hub, server, [];
    }

    method Listen() returns (ok: bool)
      modifies hub
      ensures ok == (server && !old(hub.listening))
      ensures hub.Value() == old(hub.Value()).(listening := old(hub.listening) || server)
    {
      if !server || hub.listening {
        return false;
      }
      hub.listening := true;
      return true;
    }

    method Connect() returns (ok: bool, id: nat)
      modifies this, hub
      ensures ok == (!server && old(hub.listening))
      ensures hub.Value() == if ok then Connecting(old(hub.Value())) else old(hub.Value())
      ensures owned == old(owned) + if ok then [id] else []
      ensures ok ==> id == old(hub.nextId)
    {
      id := hub.nextId;
      if server || !hub.listening {
        return false, id;
      }
      hub.links := hub.links + [Link(id, [Connected(id)], [Connected(id)], false)];
      hub.nextId := hub.nextId + 1;
      owned := owned + [id];
      return true, id;
    }

    method Send(id: nat, lane: nat, frame: string)
      modifies hub
      ensures hub.Value() == Sending(old(hub.Value()), !server, id, lane, frame)
    {
      var i := hub.Find(id);
      if i == |hub.links| || hub.links[i].closed {
        return;
      }
      hub.links := hub.links[i := Pushed(hub.links[i], !server, Message(id, lane, frame))];
    }

    method Close(id: nat, reason: string)
      modifies hub
      ensures hub.Value() == Closing(old(hub.Value()), id, reason)
    {
      var i := hub.Find(id);
      if i == |hub.links| || hub.links[i].closed {
        return;
      }
      var l := hub.links[i];
      l := l.(closed := true);
      l := Pushed(l, true, Disconnected(id, reason));
      l := Pushed(l, false, Disconnected(id, reason));
      hub.links := hub.links[i := l];
    }

    method Poll(before: seq<Event>) returns (out: seq<Event>)
      modifies hub
      ensures (hub.links, out) == var (links, events) := Polling(old(hub.links), server, owned); (links, before + events)
      ensures hub.listening == old(hub.listening) && hub.nextId == old(hub.nextId)
    {
      hide Drained, Queue, Sees, Halfway, Polling;
      out := before;
      ghost var was := hub.links;
      NothingPolled(was, before, server, owned);
      for i := 0 to |hub.links|
        invariant |hub.links| == |was|
        invariant hub.links == Halfway(was, i, server, owned)
        invariant out == before + Polling(was[..i], server, owned).1
        invariant hub.listening == old(hub.listening) && hub.nextId == old(hub.nextId)
      {
        OneMorePolled(was, i, server, owned);
        Regroup(before, Polling(was[..i], server, owned).1, Queue(was[i], server));
        if Sees(server, owned, hub.links[i].id) {
          out := Drain(i, out);
        }
      }
      AllPolled(was, server, owned);
    }

    /** Moves everything queued on link i to the end of `before`. */
    method Drain(i: nat, before: seq<Event>) returns (out: seq<Event>)
      requires i < |hub.links|
      modifies hub
      ensures out == before + Queue(old(hub.links)[i], server)
      ensures hub.links == old(hub.links)[i := Drained(old(hub.links)[i], server)]
      ensures hub.listening == old(hub.listening) && hub.nextId == old(hub.nextId)
    {
      out := before;
      while Queue(hub.links[i], server) != []
        invariant |hub.links| == |old(hub.links)|
        invariant hub.links == old(hub.links)[i := hub.links[i]]
        invariant Drained(hub.links[i], server) == Drained(old(hub.links)[i], server)
        invariant out + Queue(hub.links[i], server) == before + Queue(old(hub.links)[i], server)
        invariant hub.listening == old(hub.listening) && hub.nextId == old(hub.nextId)
        decreases |Queue(hub.links[i], server)|
      {
        var q := Queue(hub.links[i], server);
        out := out + [q[0]];
        assert out + q[1..] == before + Queue(old(hub.links)[i], server);
        hub.links := hub.links[i := if server then hub.links[i].(toServer := q[1..]) else hub.links[i].(toClient := q[1..])];
      }
    }
  }

  // ------------------------------------------------------------------- whole runs

  /** `client` numbers the client transports. */
  datatype Side = Server | Client(number: nat)

  datatype Operation =
    | Listen
    | Open(client: nat)
    | Send(from: Side, id: nat, lane: nat, frame: string)
    | Shut(id: nat, reason: string)
    | Poll(side: Side)

  datatype Delivery = Delivery(to: Side, event: Event)

  /** The hub, who opened each link (by id), and everything polled so far. */
  datatype Network = Network(hub: Hub, owners: seq<nat>, delivered: seq<Delivery>)

  const NEW_NETWORK := Network(NEW_HUB, [], [])

  function OwnedBy(owners: seq<nat>, client: nat): (r: seq<nat>)
    ensures forall id: nat :: id in r <==> 1 <= id <= |owners| && owners[id - 1] == client
  {
    if owners == [] then []
    else OwnedBy(owners[..|owners| - 1], client) + if owners[|owners| - 1] == client then [|owners|] else []
  }

  function To(side: Side, events: seq<Event>): (r: seq<Delivery>)
    ensures |r| == |events|
  {
    seq(|events|, i requires 0 <= i < |events| => Delivery(side, events[i]))
  }

  function Act(n: Network, op: Operation): Network {
    match op
    case Listen => n.(hub := n.hub.(listening := true))
    case Open(client) => if !n.hub.listening then n else n.(hub := Connecting(n.hub), owners := n.owners + [client])
    case Send(from, id, lane, frame) => n.(hub := Sending(n.hub, from.Client?, id, lane, frame))
    case Shut(id, reason) => n.(hub := Closing(n.hub, id, reason))
    case Poll(side) =>
      var (links, events) := Polling(n.hub.links, side.Server?, if side.Server? then [] else OwnedBy(n.owners, side.number));
      n.(hub := n.hub.(links := links), delivered := n.delivered + To(side, events))
  }

  function Run(ops: seq<Operation>): Network {
    if ops == [] then NEW_NETWORK else Act(Run(ops[..|ops| - 1]), ops[|ops| - 1])
  }

  // -------------------------------------------------- what each end should hear

  /** Number of links opened, the server having listened first. */
  function Opened(ops: seq<Operation>): nat {
    if ops == [] then 0
    else
      var front, last := ops[..|ops| - 1], ops[|ops| - 1];
      Opened(front) + if last.Open? && Listen in front then 1 else 0
  }

  predicate IsOpen(story: seq<Event>) {
    story != [] && !story[|story| - 1].Disconnected?
  }

  /** The story of link `id` towards one end, told without queues or polls: it
      opens, every message sent while it is open counts, it closes once. */
  function Story(ops: seq<Operation>, id: nat, toServer: bool): seq<Event> {
    if ops == [] then []
    else
      var front, last := ops[..|ops| - 1], ops[|ops| - 1];
      var before := Story(front, id, toServer);
      match last
      case Open(_) => if Listen in front && Opened(front) + 1 == id then [Connected(id)] else before
      case Send(from, i, lane, frame) =>
        if i == id && from.Client? == toServer && IsOpen(before) then before + [Message(id, lane, frame)] else before
      case Shut(i, reason) => if i == id && IsOpen(before) then before + [Disconnected(id, reason)] else before
      case _ => before
  }

  /** What was delivered about link `id` towards one end, in order. */
  function Heard(delivered: seq<Delivery>, id: nat, toServer: bool): seq<Event> {
    if delivered == [] then []
    else
      var last := delivered[|delivered| - 1];
      Heard(delivered[..|delivered| - 1], id, toServer) +
      if last.to.Server? == toServer && last.event.conn == id then [last.event] else []
  }

  lemma {:induction false} HeardAppend(a: seq<Delivery>, b: seq<Delivery>, id: nat, toServer: bool)
    ensures Heard(a + b, id, toServer) == Heard(a, id, toServer) + Heard(b, id, toServer)
    decreases |b|
  {
    if b == [] {
      assert a + b == a;
    } else {
      assert (a + b)[..|a + b| - 1] == a + b[..|b| - 1];
      HeardAppend(a, b[..|b| - 1], id, toServer);
    }
  }

  predicate Own(l: Link) {
    forall toServer, e :: e in Queue(l, toServer) ==> e.conn == l.id
  }

  /** Links are numbered from 1, and each carries only events of its own. */
  predicate Tidy(links: seq<Link>) {
    forall i :: 0 <= i < |links| ==> links[i].id == i + 1 && Own(links[i])
  }

  lemma IndexInTidy(links: seq<Link>, id: nat)
    requires Tidy(links)
    ensures IndexOf(links, id) == if 1 <= id <= |links| then id - 1 else |links|
  {
    if 1 <= id <= |links| {
      assert links[id - 1].id == id;
    }
  }

  lemma {:induction false} HeardOf(side: Side, events: seq<Event>, conn: nat, id: nat, toServer: bool)
    requires forall e :: e in events ==> e.conn == conn
    ensures Heard(To(side, events), id, toServer) == if side.Server? == toServer && conn == id then events else []
    decreases |events|
  {
    if events != [] {
      var front := events[..|events| - 1];
      assert To(side, events)[..|events| - 1] == To(side, front);
      assert forall e :: e in front ==> e in events;
      assert events[|events| - 1] in events;
      HeardOf(side, front, conn, id, toServer);
    }
  }

  lemma {:induction false} PolledLinks(links: seq<Link>, server: bool, owned: seq<nat>, i: nat)
    ensures |Polling(links, server, owned).0| == |links|
    ensures i < |links| ==> Polling(links, server, owned).0[i] == if Sees(server, owned, links[i].id) then Drained(links[i], server) else links[i]
    decreases |links|
  {
    if links != [] {
      PolledLinks(links[..|links| - 1], server, owned, i);
    }
  }

  /** A poll returns, about a link it sees, exactly the link's queue. */
  lemma {:induction false} PolledEvents(links: seq<Link>, side: Side, owned: seq<nat>, id: nat, toServer: bool)
    requires Tidy(links)
    ensures Heard(To(side, Polling(links, side.Server?, owned).1), id, toServer) ==
            if side.Server? == toServer && 1 <= id <= |links| && Sees(side.Server?, owned, id)
            then Queue(links[id - 1], toServer) else []
    decreases |links|
  {
    if links != [] {
      hide Heard, Own, Sees, Polling, To, Queue;
      var front, l := links[..|links| - 1], links[|links| - 1];
      assert links == front + [l] && l.id == |links|;
      PolledEvents(front, side, owned, id, toServer);
      PolledSnoc(front, l, side.Server?, owned);
      assert 1 <= id <= |front| ==> links[id - 1] == front[id - 1];
      if Sees(side.Server?, owned, l.id) {
        OneMoreHeard(side, Polling(front, side.Server?, owned).1, l, id, toServer);
        AppendNothing(Queue(l, toServer));
      }
    } else {
      NothingHeard(side, owned, id, toServer);
    }
  }

  lemma AppendNothing(queue: seq<Event>)
    ensures [] + queue == queue && queue + [] == queue
  {
  }

  lemma NothingHeard(side: Side, owned: seq<nat>, id: nat, toServer: bool)
    ensures Heard(To(side, Polling([], side.Server?, owned).1), id, toServer) == []
  {
  }

  lemma PolledSnoc(front: seq<Link>, l: Link, server: bool, owned: seq<nat>)
    ensures var (before, after) := (Polling(front, server, owned), Polling(front + [l], server, owned));
            if Sees(server, owned, l.id) then after == (before.0 + [Drained(l, server)], before.1 + Queue(l, server))
            else after == (before.0 + [l], before.1)
  {
    hide Sees, Queue, Drained;
    assert (front + [l])[..|front|] == front;
  }

  lemma OneMoreHeard(side: Side, events: seq<Event>, l: Link, id: nat, toServer: bool)
    requires Own(l)
    ensures Heard(To(side, events + Queue(l, side.Server?)), id, toServer) ==
            Heard(To(side, events), id, toServer) +
            if side.Server? == toServer && l.id == id then Queue(l, toServer) else []
  {
    hide Heard;
    var more := Queue(l, side.Server?);
    HeardOf(side, more, l.id, id, toServer);
    HeardAppend(To(side, events), To(side, more), id, toServer);
    assert To(side, events) + To(side, more) == To(side, events + more);
  }

  /** How the hub stands to the story of one link. */
  predicate Matches(n: Network, ops: seq<Operation>, id: nat, toServer: bool) {
    var story := Story(ops, id, toServer);
    if 1 <= id <= |n.hub.links| then
      && Heard(n.delivered, id, toServer) + Queue(n.hub.links[id - 1], toServer) == story
      && story != [] && n.hub.links[id - 1].closed == !IsOpen(story)
    else Heard(n.delivered, id, toServer) == [] && story == []
  }

  predicate WellKept(n: Network, ops: seq<Operation>) {
    && Tidy(n.hub.links) && n.hub.nextId == |n.hub.links| + 1 == Opened(ops) + 1
    && |n.owners| == |n.hub.links| && n.hub.listening == (Listen in ops)
  }

  lemma PushedIsOwn(l: Link, toServer: bool, e: Event)
    requires Own(l) && e.conn == l.id
    ensures Own(Pushed(l, toServer, e))
  {
    var r := Pushed(l, toServer, e);
    forall to, f | f in Queue(r, to)
      ensures f.conn == r.id
    {
      assert f == e || f in Queue(l, to);
    }
  }

  lemma Steps(ops: seq<Operation>, op: Operation)
    ensures (ops + [op])[..|ops + [op]| - 1] == ops && (ops + [op])[|ops + [op]| - 1] == op
  {
  }

  lemma SendKeeps(n: Network, ops: seq<Operation>, op: Operation)
    requires WellKept(n, ops) && op.Send?
    ensures WellKept(Act(n, op), ops + [op])
  {
    hide Own, Pushed;
    Steps(ops, op);
    IndexInTidy(n.hub.links, op.id);
    if 1 <= op.id <= |n.hub.links| {
      PushedIsOwn(n.hub.links[op.id - 1], op.from.Client?, Message(op.id, op.lane, op.frame));
      PushedSame(n.hub.links[op.id - 1], op.from.Client?, Message(op.id, op.lane, op.frame));
    }
  }

  lemma PushedSame(l: Link, toServer: bool, e: Event)
    ensures Pushed(l, toServer, e).id == l.id && Pushed(l, toServer, e).closed == l.closed
  {
  }

  lemma ShutKeeps(n: Network, ops: seq<Operation>, op: Operation)
    requires WellKept(n, ops) && op.Shut?
    ensures WellKept(Act(n, op), ops + [op])
  {
    hide Own, Pushed;
    Steps(ops, op);
    IndexInTidy(n.hub.links, op.id);
    if 1 <= op.id <= |n.hub.links| {
      var l, e := n.hub.links[op.id - 1], Disconnected(op.id, op.reason);
      PushedIsOwn(l, true, e);
      PushedSame(l, true, e);
      PushedIsOwn(Pushed(l, true, e), false, e);
      PushedSame(Pushed(l, true, e), false, e);
      ClosedIsOwn(Pushed(Pushed(l, true, e), false, e));
    }
  }

  lemma ClosedIsOwn(l: Link)
    requires Own(l)
    ensures Own(l.(closed := true))
  {
    assert forall toServer, e :: e in Queue(l.(closed := true), toServer) ==> e in Queue(l, toServer);
  }

  lemma DrainedIsOwn(l: Link, server: bool)
    requires Own(l)
    ensures Own(Drained(l, server))
  {
    assert forall toServer, e :: e in Queue(Drained(l, server), toServer) ==> e in Queue(l, toServer);
  }

  lemma PollKeeps(n: Network, ops: seq<Operation>, op: Operation)
    requires WellKept(n, ops) && op.Poll?
    ensures WellKept(Act(n, op), ops + [op])
  {
    hide Own, Polling;
    Steps(ops, op);
    var server, owned := op.side.Server?, if op.side.Server? then [] else OwnedBy(n.owners, op.side.number);
    PolledLinks(n.hub.links, server, owned, 0);
    var after := Polling(n.hub.links, server, owned).0;
    forall i | 0 <= i < |after|
      ensures after[i].id == i + 1 && Own(after[i])
    {
      PolledLinks(n.hub.links, server, owned, i);
      DrainedIsOwn(n.hub.links[i], server);
    }
  }

  lemma OpenKeeps(n: Network, ops: seq<Operation>, op: Operation)
    requires WellKept(n, ops) && (op.Open? || op.Listen?)
    ensures WellKept(Act(n, op), ops + [op])
  {
    hide Own;
    Steps(ops, op);
    var l := Link(n.hub.nextId, [Connected(n.hub.nextId)], [Connected(n.hub.nextId)], false);
    assert Own(l) by { NewIsOwn(n.hub.nextId); }
  }

  lemma NewIsOwn(id: nat)
    ensures Own(Link(id, [Connected(id)], [Connected(id)], false))
  {
  }

  lemma SendMatches(n: Network, ops: seq<Operation>, op: Operation, id: nat, toServer: bool)
    requires WellKept(n, ops) && Matches(n, ops, id, toServer) && op.Send?
    ensures Matches(Act(n, op), ops + [op], id, toServer)
  {
    hide Own, Heard, IndexOf;
    Steps(ops, op);
    IndexInTidy(n.hub.links, op.id);
  }

  lemma ShutMatches(n: Network, ops: seq<Operation>, op: Operation, id: nat, toServer: bool)
    requires WellKept(n, ops) && Matches(n, ops, id, toServer) && op.Shut?
    ensures Matches(Act(n, op), ops + [op], id, toServer)
  {
    hide Own, Heard, IndexOf;
    Steps(ops, op);
    IndexInTidy(n.hub.links, op.id);
  }

  lemma OpenMatches(n: Network, ops: seq<Operation>, op: Operation, id: nat, toServer: bool)
    requires WellKept(n, ops) && Matches(n, ops, id, toServer) && (op.Open? || op.Listen?)
    ensures Matches(Act(n, op), ops + [op], id, toServer)
  {
    hide Own, Heard;
    Steps(ops, op);
  }

  lemma PollMatches(n: Network, ops: seq<Operation>, op: Operation, id: nat, toServer: bool)
    requires WellKept(n, ops) && Matches(n, ops, id, toServer) && op.Poll?
    ensures Matches(Act(n, op), ops + [op], id, toServer)
  {
    hide Own, Polling, Heard, Story, OwnedBy;
    Steps(ops, op);
    StoryOfPoll(ops, op.side, id, toServer);
    var server, owned := op.side.Server?, if op.side.Server? then [] else OwnedBy(n.owners, op.side.number);
    PolledEvents(n.hub.links, op.side, owned, id, toServer);
    HeardAppend(n.delivered, To(op.side, Polling(n.hub.links, server, owned).1), id, toServer);
    if 1 <= id <= |n.hub.links| {
      PolledLinks(n.hub.links, server, owned, id - 1);
    } else {
      PolledLinks(n.hub.links, server, owned, 0);
    }
  }

  lemma StoryOfPoll(ops: seq<Operation>, side: Side, id: nat, toServer: bool)
    ensures Story(ops + [Poll(side)], id, toServer) == Story(ops, id, toServer)
  {
    Steps(ops, Poll(side));
  }

  lemma StepMatches(n: Network, ops: seq<Operation>, op: Operation, id: nat, toServer: bool)
    requires WellKept(n, ops) && Matches(n, ops, id, toServer)
    ensures WellKept(Act(n, op), ops + [op]) && Matches(Act(n, op), ops + [op], id, toServer)
  {
    hide Matches, WellKept, Act;
    match op
    case Send(_, _, _, _) => SendKeeps(n, ops, op); SendMatches(n, ops, op, id, toServer);
    case Shut(_, _) => ShutKeeps(n, ops, op); ShutMatches(n, ops, op, id, toServer);
    case Poll(_) => PollKeeps(n, ops, op); PollMatches(n, ops, op, id, toServer);
    case _ => OpenKeeps(n, ops, op); OpenMatches(n, ops, op, id, toServer);
  }

  lemma {:induction false} RunMatches(ops: seq<Operation>, id: nat, toServer: bool)
    ensures WellKept(Run(ops), ops) && Matches(Run(ops), ops, id, toServer)
    decreases |ops|
  {
    if ops != [] {
      var front, last := ops[..|ops| - 1], ops[|ops| - 1];
      assert ops == front + [last];
      RunMatches(front, id, toServer);
      hide Matches, WellKept, Act;
      StepMatches(Run(front), front, last, id, toServer);
    }
  }

  /** Every link is a FIFO channel each way: over any run, what an end has heard
      of a link, then what is still queued for it, is the link's story. */
  lemma {:induction false} LinksAreFifo(ops: seq<Operation>, id: nat, toServer: bool)
    ensures var n := Run(ops);
            Heard(n.delivered, id, toServer) <= Story(ops, id, toServer) &&
            (1 <= id <= |n.hub.links| ==>
               Heard(n.delivered, id, toServer) + Queue(n.hub.links[id - 1], toServer) == Story(ops, id, toServer))
  {
    RunMatches(ops, id, toServer);
  }

  /** And a poll leaves nothing behind: afterwards the side that polled has heard
      the whole story of every link it sees, its own ones or, for the server, all. */
  lemma PollHearsAll(ops: seq<Operation>, side: Side, id: nat)
    requires 1 <= id <= |Run(ops).owners| && (side.Client? ==> Run(ops).owners[id - 1] == side.number)
    ensures Heard(Run(ops + [Poll(side)]).delivered, id, side.Server?) == Story(ops, id, side.Server?)
  {
    hide Heard, Story, Polling, Own, Opened, OwnedBy;
    var n, op := Run(ops), Poll(side);
    var owned := if side.Server? then [] else OwnedBy(n.owners, side.number);
    Steps(ops, op);
    StoryOfPoll(ops, side, id, side.Server?);
    RunMatches(ops, id, side.Server?);
    RunMatches(ops + [op], id, side.Server?);
    PolledLinks(n.hub.links, side.Server?, owned, id - 1);
  }

  /** Connected comes first and once, Disconnected last and once, and nothing is
      heard of a link after it closed. */
  lemma {:induction false} StoryShape(ops: seq<Operation>, id: nat, toServer: bool)
    ensures var story := Story(ops, id, toServer);
            (story == [] <==> !(1 <= id <= Opened(ops))) &&
            (forall i :: 0 <= i < |story| ==> story[i].conn == id && (story[i].Connected? <==> i == 0)) &&
            (forall i :: 0 <= i < |story| - 1 ==> !story[i].Disconnected?)
    decreases |ops|
  {
    if ops != [] {
      StoryShape(ops[..|ops| - 1], id, toServer);
      OpenedNeedsListen(ops[..|ops| - 1]);
    }
  }

  lemma {:induction false} OpenedNeedsListen(ops: seq<Operation>)
    ensures Opened(ops) > 0 ==> Listen in ops
    decreases |ops|
  {
    if ops != [] {
      OpenedNeedsListen(ops[..|ops| - 1]);
    }
  }

  /** A client hears only of the links it opened. */
  lemma {:induction false} ClientsHearTheirOwn(ops: seq<Operation>, d: Delivery)
    requires d in Run(ops).delivered && d.to.Client?
    ensures var n := Run(ops);
            1 <= d.event.conn <= |n.owners| && n.owners[d.event.conn - 1] == d.to.number
    decreases |ops|
  {
    var front, last := ops[..|ops| - 1], ops[|ops| - 1];
    var n := Run(front);
    RunMatches(front, 0, true);
    if d in n.delivered {
      ClientsHearTheirOwn(front, d);
      hide Act;
      OwnersStay(n, last, d.event.conn);
    } else {
      hide Matches, Own, Run;
      NewlyHeard(n, last, d);
    }
  }

  lemma OwnersStay(n: Network, op: Operation, id: nat)
    requires 1 <= id <= |n.owners|
    ensures var r := Act(n, op); id <= |r.owners| && r.owners[id - 1] == n.owners[id - 1]
  {
    hide Polling, Sending, Closing, Connecting;
  }

  lemma NewlyHeard(n: Network, op: Operation, d: Delivery)
    requires Tidy(n.hub.links) && d in Act(n, op).delivered && d !in n.delivered && d.to.Client?
    ensures var r := Act(n, op);
            1 <= d.event.conn <= |r.owners| && r.owners[d.event.conn - 1] == d.to.number
  {
    hide Tidy, Polling;
    var owned := OwnedBy(n.owners, op.side.number);
    var events := Polling(n.hub.links, false, owned).1;
    var i :| 0 <= i < |events| && events[i] == d.event;
    PolledFromOwn(n.hub.links, owned, i);
  }

  lemma {:induction false} PolledFromOwn(links: seq<Link>, owned: seq<nat>, i: nat)
    requires Tidy(links) && i < |Polling(links, false, owned).1|
    ensures Polling(links, false, owned).1[i].conn in owned
    decreases |links|
  {
    var front, l := links[..|links| - 1], links[|links| - 1];
    var before := Polling(front, false, owned).1;
    if i < |before| {
      PolledFromOwn(front, owned, i);
    } else {
      var e := l.toClient[i - |before|];
      assert Own(l) && e in Queue(l, false);
    }
  }
}
