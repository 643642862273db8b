/**
 World replication (src/net/world_replicator.cpp): which chunks each player
 mirrors, at which revision, under a byte budget for every tick. A chunk is a
 coordinate with a revision that names its content, and the size of its
 encoded payload.
 */
module Replication {

  datatype Coord = Coord(x: int, y: int, z: int)

  type NetId = nat

  datatype ChunkData = ChunkData(revision: nat, bytes: nat)

  type World = map<Coord, ChunkData>

  /** A delta turns the content `from` of a chunk into the content `to`. */
  datatype Frame =
    | Add(coord: Coord, revision: nat, bytes: nat)
    | Delta(coord: Coord, from: nat, to: nat)
    | Remove(coord: Coord)

  /** What the server remembers about one player. */
  datatype Player = Player(lastSent: seq<Coord>, revs: map<Coord, nat>)

  const NEWCOMER := Player([], map[])

  function Visible(view: seq<Coord>, world: World): seq<Coord> {
    if view == [] then []
    else
      var front, c := Visible(view[..|view| - 1], world), view[|view| - 1];
      if c in world then front + [c] else front
  }

  /** Chunks of `before` no longer among `now`. */
  function Departed(before: seq<Coord>, now: seq<Coord>): seq<Coord> {
    if before == [] then []
    else
      var front, c := Departed(before[..|before| - 1], now), before[|before| - 1];
      if c in now then front else front + [c]
  }

  /** The variables of the send loop. */
  datatype Burst = Burst(frames: seq<Frame>, revs: map<Coord, nat>, sendBytes: nat, hit: bool)

  /** One round of the send loop; a budget of 0 is no budget. */
  function Offer(b: Burst, c: Coord, chunk: ChunkData, budget: nat): Burst {
    if b.hit || (c in b.revs && b.revs[c] == chunk.revision) then b
    else if budget > 0 && b.sendBytes > 0 && b.sendBytes + chunk.bytes > budget then b.(hit := true)
    else
      var bytes := b.sendBytes + chunk.bytes;
      Burst(b.frames + [Add(c, chunk.revision, chunk.bytes)], b.revs[c := chunk.revision], bytes,
            budget > 0 && bytes >= budget)
  }

  function Offered(visible: seq<Coord>, world: World, revs: map<Coord, nat>, budget: nat): Burst
    requires forall c :: c in visible ==> c in world
  {
    if visible == [] then Burst([], revs, 0, false)
    else
      var n := |visible| - 1;
      Offer(Offered(visible[..n], world, revs, budget), visible[n], world[visible[n]], budget)
  }

  function Removals(left: seq<Coord>): seq<Frame> {
    if left == [] then [] else Removals(left[..|left| - 1]) + [Remove(left[|left| - 1])]
  }

  function Elements(s: seq<Coord>): set<Coord> {
    set c | c in s
  }

  lemma {:induction false} VisibleElements(view: seq<Coord>, world: World)
    ensures forall c :: c in Visible(view, world) <==> c in view && c in world
    decreases |view|
  {
    if view != [] {
      VisibleElements(view[..|view| - 1], world);
      assert view == view[..|view| - 1] + [view[|view| - 1]];
    }
  }

  lemma {:induction false} DepartedElements(before: seq<Coord>, now: seq<Coord>)
    ensures forall c :: c in Departed(before, now) <==> c in before && c !in now
    decreases |before|
  {
    if before != [] {
      DepartedElements(before[..|before| - 1], now);
      assert before == before[..|before| - 1] + [before[|before| - 1]];
    }
  }

  /** One player's share of a tick. */
  function Served(p: Player, view: seq<Coord>, world: World, budget: nat): (r: (Player, seq<Frame>)) {
    VisibleElements(view, world);
    var visible := Visible(view, world);
    var burst := Offered(visible, world, p.revs, budget);
    var left := Departed(p.lastSent, visible);
    (Player(visible, burst.revs - Elements(left)), burst.frames + Removals(left))
  }

  function TickedAll(players: map<NetId, Player>, views: seq<(NetId, seq<Coord>)>, world: World, budget: nat)
    : (map<NetId, Player>, seq<(NetId, seq<Frame>)>)
  {
    if views == [] then (players, [])
    else
      var (before, out) := TickedAll(players, views[..|views| - 1], world, budget);
      var (id, view) := views[|views| - 1];
      var (p, frames) := Served(Get(before, id), view, world, budget);
      (before[id := p], if frames == [] then out else out + [(id, frames)])
  }

  // --------------------------------------------------------------- fan-out

  /** Players told about a relit chunk: everyone whose last visible set had it,
      and the editor in any case. */
  function Holders(players: map<NetId, Player>, coord: Coord): set<NetId> {
    set id | id in players && coord in players[id].lastSent
  }

  function Notified(players: map<NetId, Player>, coord: Coord, editor: NetId): set<NetId> {
    Holders(players, coord) + {editor}
  }

  function Get(players: map<NetId, Player>, id: NetId): Player {
    if id in players then players[id] else NEWCOMER
  }

  function Recorded(p: Player, coord: Coord, revision: nat): Player {
    p.(revs := p.revs[coord := revision])
  }

  function FannedOut(players: map<NetId, Player>, coord: Coord, to: nat, editor: NetId): map<NetId, Player> {
    var told := Notified(players, coord, editor);
    map id | id in players.Keys + told ::
      if id in told then Recorded(Get(players, id), coord, to) else players[id]
  }

  function HoldersTold(players: map<NetId, Player>, coord: Coord, to: nat): map<NetId, Player> {
    map id | id in players :: if id in Holders(players, coord) then Recorded(players[id], coord, to) else players[id]
  }

  lemma FannedOutInTwo(players: map<NetId, Player>, coord: Coord, to: nat, editor: NetId)
    ensures var told := HoldersTold(players, coord, to);
            FannedOut(players, coord, to, editor) ==
            if editor in Holders(players, coord) then told else told[editor := Recorded(Get(told, editor), coord, to)]
  {
    hide Recorded;
  }

  /** The send loop: chunks not yet sent at their current revision, until the
      budget is used up. */
  method SendMissing(visible: seq<Coord>, world: World, known: map<Coord, nat>, budget: nat)
    returns (frames: seq<Frame>, revs: map<Coord, nat>)
    requires forall c :: c in visible ==> c in world
    ensures var b := Offered(visible, world, known, budget);
            frames == b.frames && revs == b.revs
  {
    frames, revs := [], known;
    var sendBytes: nat, budgetHit, i := 0, false, 0;
    while i < |visible| && !budgetHit
      invariant 0 <= i <= |visible|
      invariant Burst(frames, revs, sendBytes, budgetHit) == Offered(visible[..i], world, known, budget)
      decreases |visible| - i
    {
      var c := visible[i];
      assert visible[..i + 1][..i] == visible[..i];
      i := i + 1;
      var rev := world[c].revision;
      if c in revs && revs[c] == rev {
        continue;  // already sent this exact revision
      }
      var frameBytes := world[c].bytes;
      if budget > 0 && sendBytes > 0 && sendBytes + frameBytes > budget {
        budgetHit := true;
        break;
      }
      frames := frames + [Add(c, rev, frameBytes)];
      revs := revs[c := rev];
      sendBytes := sendBytes + frameBytes;
      if budget > 0 && sendBytes >= budget {
        budgetHit := true;
      }
    }
    OfferedAfterHit(visible, i, world, known, budget);
  }

  lemma DepartedMore(before: seq<Coord>, c: Coord, now: seq<Coord>)
    ensures Departed(before + [c], now) == if c in now then Departed(before, now) else Departed(before, now) + [c]
  {
    assert (before + [c])[..|before|] == before;
  }

  lemma RemovalsMore(left: seq<Coord>, c: Coord)
    ensures Removals(left + [c]) == Removals(left) + [Remove(c)]
  {
    assert (left + [c])[..|left|] == left;
  }

  lemma ElementsMore(left: seq<Coord>, c: Coord)
    ensures Elements(left + [c]) == Elements(left) + {c}
  {
  }

  lemma NobodyDeparted(visible: seq<Coord>, sent: seq<Frame>, known: map<Coord, nat>)
    ensures Departed([], visible) == [] && sent + Removals([]) == sent && known - Elements([]) == known
  {
  }

  lemma WithoutMore<V>(m: map<Coord, V>, gone: set<Coord>, c: Coord)
    ensures m - gone - {c} == m - (gone + {c})
  {
  }

  method DropDeparted(lastSent: seq<Coord>, visible: seq<Coord>, sent: seq<Frame>, known: map<Coord, nat>)
    returns (frames: seq<Frame>, revs: map<Coord, nat>)
    ensures frames == sent + Removals(Departed(lastSent, visible))
    ensures revs == known - Elements(Departed(lastSent, visible))
  {
    frames, revs := sent, known;
    ghost var left: seq<Coord> := [];
    hide Departed, Removals, Elements;
    NobodyDeparted(visible, sent, known);
    assert lastSent[..0] == [];
    for j := 0 to |lastSent|
      invariant left == Departed(lastSent[..j], visible)
      invariant frames == sent + Removals(left) && revs == known - Elements(left)
    {
      var c := lastSent[j];
      assert lastSent[..j + 1] == lastSent[..j] + [c];
      DepartedMore(lastSent[..j], c, visible);
      if c !in visible {
        RemovalsMore(left, c);
        ElementsMore(left, c);
        WithoutMore(known, Elements(left), c);
        frames := frames + [Remove(c)];
        revs := revs - {c};
        left := left + [c];
      }
    }
    assert lastSent[..|lastSent|] == lastSent;
  }

  class WorldReplicator {
    var budget: nat
    var players: map<NetId, Player>

    constructor (budget: nat)
      ensures this.budget == budget && players == map[]
    {
      this.budget, players := budget, map[];
    }

    /** Serves one player: sends what is missing, then drops what left the view. */
    method Serve(id: NetId, view: seq<Coord>, world: World) returns (frames: seq<Frame>)
      modifies `players
      ensures var r := Served(Get(old(players), id), view, world, budget);
              frames == r.1 && players == old(players)[id := r.0]
    {
      var p := Get(players, id);
      var visible: seq<Coord> := [];
      for i := 0 to |view|
        invariant visible == Visible(view[..i], world)
      {
        assert view[..i + 1][..i] == view[..i];
        if view[i] in world {
          visible := visible + [view[i]];
        }
      }
      assert view[..|view|] == view;
      VisibleElements(view, world);
      var sent, revs := SendMissing(visible, world, p.revs, budget);
      frames, revs := DropDeparted(p.lastSent, visible, sent, revs);
      players := players[id := Player(visible, revs)];
    }

    /** One tick: every player in turn; a player with no news gets no entry. */
    method Tick(views: seq<(NetId, seq<Coord>)>, world: World) returns (out: seq<(NetId, seq<Frame>)>)
      modifies `players
      ensures var r := TickedAll(old(players), views, world, budget);
              players == r.0 && out == r.1
    {
      out := [];
      for i := 0 to |views|
        invariant (players, out) == TickedAll(old(players), views[..i], world, budget)
        modifies `players
      {
        assert views[..i + 1][..i] == views[..i];
        var (id, view) := views[i];
        var frames := Serve(id, view, world);
        if frames != [] {
          out := out + [(id, frames)];
        }
      }
      assert views[..|views|] == views;
    }

    /** Sends the delta to everyone who has the chunk and records it. */
    method NotifyHolders(coord: Coord, from: nat, to: nat) returns (out: map<NetId, Frame>)
      modifies `players
      ensures out == map id | id in Holders(old(players), coord) :: Delta(coord, from, to)
      ensures players == HoldersTold(old(players), coord, to)
    {
      out := map[];
      var todo := players.Keys;
      ghost var before := players;
      while todo != {}
        invariant todo <= before.Keys == players.Keys
        invariant forall id :: id in out <==> id in Holders(before, coord) && id !in todo
        invariant forall id :: id in out ==> out[id] == Delta(coord, from, to)
        invariant forall id :: id in players ==>
                    players[id] == if id in out then Recorded(before[id], coord, to) else before[id]
        decreases todo
      {
        var id :| id in todo;
        todo := todo - {id};
        if coord in players[id].lastSent {
          out := out[id := Delta(coord, from, to)];
          players := players[id := Recorded(players[id], coord, to)];
        }
      }
    }

    /** Tells every player whose visible set has the chunk, and the editor. */
    method FanOut(coord: Coord, from: nat, to: nat, editor: NetId) returns (out: map<NetId, Frame>)
      modifies `players
      ensures players == FannedOut(old(players), coord, to, editor)
      ensures out == map id | id in Notified(old(players), coord, editor) :: Delta(coord, from, to)
    {
      FannedOutInTwo(players, coord, to, editor);
      hide FannedOut, Recorded;
      out := NotifyHolders(coord, from, to);
      if editor !in out {
        out := out[editor := Delta(coord, from, to)];
        players := players[editor := Recorded(Get(players, editor), coord, to)];
      }
    }

    method ForgetPlayer(id: NetId)
      modifies `players
      ensures players == old(players) - {id}
    {
      players := players - {id};
    }
  }

  lemma {:induction false} OfferedAfterHit(visible: seq<Coord>, i: nat, world: World, revs: map<Coord, nat>, budget: nat)
    requires forall c :: c in visible ==> c in world
    requires i <= |visible| && (i == |visible| || Offered(visible[..i], world, revs, budget).hit)
    ensures Offered(visible, world, revs, budget) == Offered(visible[..i], world, revs, budget)
    decreases |visible|
  {
    if i == |visible| {
      assert visible[..i] == visible;
    } else {
      var n := |visible| - 1;
      assert visible[..n][..i] == visible[..i];
      if i < n {
        OfferedAfterHit(visible[..n], i, world, revs, budget);
      } else {
        assert visible[..n][..i] == visible[..n];
      }
    }
  }

  // ---------------------------------------------------------- client mirror

  /** Content the client holds for a chunk: a revision's content, or a mixture
      left by a delta applied to something else than it was made for. */
  datatype Held = At(revision: nat) | Torn

  type Mirror = map<Coord, Held>

  /** Effect of one frame on the client; a delta for a missing chunk is rejected. */
  function Applied(m: Mirror, f: Frame): Mirror {
    match f
    case Add(c, revision, _) => m[c := At(revision)]
    case Delta(c, from, to) => if c !in m then m else m[c := if m[c] == At(from) then At(to) else Torn]
    case Remove(c) => m - {c}
  }

  function AppliedAll(m: Mirror, frames: seq<Frame>): Mirror {
    if frames == [] then m else Applied(AppliedAll(m, frames[..|frames| - 1]), frames[|frames| - 1])
  }

  lemma {:induction false} AppliedAppend(m: Mirror, a: seq<Frame>, b: seq<Frame>)
    ensures AppliedAll(m, a + b) == AppliedAll(AppliedAll(m, a), b)
    decreases |b|
  {
    if b == [] {
      assert a + b == a;
    } else {
      assert (a + b)[..|a + b| - 1] == a + b[..|b| - 1];
      AppliedAppend(m, a, b[..|b| - 1]);
    }
  }

  function Holding(revs: map<Coord, nat>): Mirror {
    map c | c in revs :: At(revs[c])
  }

  /** The client holds exactly what the server recorded, all of it visible. */
  ghost predicate InSync(p: Player, m: Mirror) {
    m == Holding(p.revs) && p.revs.Keys <= Elements(p.lastSent)
  }

  lemma OfferMirrors(m: Mirror, b: Burst, c: Coord, chunk: ChunkData, budget: nat)
    requires AppliedAll(m, b.frames) == Holding(b.revs)
    ensures var r := Offer(b, c, chunk, budget);
            && AppliedAll(m, r.frames) == Holding(r.revs)
            && r.revs.Keys <= b.revs.Keys + {c}
  {
    var add := Add(c, chunk.revision, chunk.bytes);
    assert (b.frames + [add])[..|b.frames|] == b.frames;
    assert Holding(b.revs[c := chunk.revision]) == Holding(b.revs)[c := At(chunk.revision)];
  }

  lemma {:induction false} BurstMirrors(visible: seq<Coord>, world: World, revs: map<Coord, nat>, budget: nat)
    requires forall c :: c in visible ==> c in world
    ensures var b := Offered(visible, world, revs, budget);
            && AppliedAll(Holding(revs), b.frames) == Holding(b.revs)
            && b.revs.Keys <= revs.Keys + Elements(visible)
    decreases |visible|
  {
    if visible != [] {
      hide Offer, AppliedAll, Holding;
      var n := |visible| - 1;
      BurstMirrors(visible[..n], world, revs, budget);
      OfferMirrors(Holding(revs), Offered(visible[..n], world, revs, budget), visible[n], world[visible[n]], budget);
    }
  }

  lemma {:induction false} RemovalsMirror(revs: map<Coord, nat>, left: seq<Coord>)
    ensures AppliedAll(Holding(revs), Removals(left)) == Holding(revs - Elements(left))
    decreases |left|
  {
    if left == [] {
      assert revs - Elements(left) == revs;
    } else {
      var n := |left| - 1;
      RemovalsMirror(revs, left[..n]);
      var frames := Removals(left);
      assert frames[..|frames| - 1] == Removals(left[..n]);
      assert Elements(left) == Elements(left[..n]) + {left[n]};
    }
  }

  /** A tick keeps every served client in sync. */
  lemma ServedInSync(p: Player, m: Mirror, view: seq<Coord>, world: World, budget: nat)
    requires InSync(p, m)
    ensures var (p', frames) := Served(p, view, world, budget);
            InSync(p', AppliedAll(m, frames))
  {
    var visible := Visible(view, world);
    VisibleElements(view, world);
    var b := Offered(visible, world, p.revs, budget);
    var left := Departed(p.lastSent, visible);
    DepartedElements(p.lastSent, visible);
    BurstMirrors(visible, world, p.revs, budget);
    RemovalsMirror(b.revs, left);
    AppliedAppend(m, b.frames, Removals(left));
  }

  // -------------------------------------------------------------------- runs

  /** The world, what the server remembers, and what each client holds. */
  datatype System = System(world: World, players: map<NetId, Player>, mirrors: map<NetId, Mirror>)

  datatype Action =
    | Tick(views: seq<(NetId, seq<Coord>)>)
    | Relight(coord: Coord, to: nat, editor: NetId)
    | WorldMoves(world: World)
    | Forget(id: NetId)

  function MirrorOf(mirrors: map<NetId, Mirror>, id: NetId): Mirror {
    if id in mirrors then mirrors[id] else map[]
  }

  function Delivered(mirrors: map<NetId, Mirror>, out: seq<(NetId, seq<Frame>)>): map<NetId, Mirror> {
    if out == [] then mirrors
    else
      var before := Delivered(mirrors, out[..|out| - 1]);
      var (id, frames) := out[|out| - 1];
      before[id := AppliedAll(MirrorOf(before, id), frames)]
  }

  /** Delta frames are in order with all other frames of their client. */
  function DeltaDelivered(mirrors: map<NetId, Mirror>, told: set<NetId>, f: Frame): map<NetId, Mirror> {
    map id | id in mirrors.Keys + told :: if id in told then Applied(MirrorOf(mirrors, id), f) else mirrors[id]
  }

  function RevisionOf(world: World, c: Coord): nat {
    if c in world then world[c].revision else 0
  }

  function Act(s: System, a: Action, budget: nat): System {
    match a
    case Tick(views) =>
      var (players, out) := TickedAll(s.players, views, s.world, budget);
      System(s.world, players, Delivered(s.mirrors, out))
    case Relight(c, to, editor) =>
      if c !in s.world then s
      else
        var delta := Delta(c, s.world[c].revision, to);
        System(s.world[c := s.world[c].(revision := to)], FannedOut(s.players, c, to, editor),
               DeltaDelivered(s.mirrors, Notified(s.players, c, editor), delta))
    case WorldMoves(world) => s.(world := world)
    case Forget(id) => s.(players := s.players - {id}, mirrors := s.mirrors - {id})
  }

  function Run(world: World, acts: seq<Action>, budget: nat): System {
    if acts == [] then System(world, map[], map[])
    else Act(Run(world, acts[..|acts| - 1], budget), acts[|acts| - 1], budget)
  }

  ghost predicate AllInSync(players: map<NetId, Player>, mirrors: map<NetId, Mirror>) {
    forall id: NetId :: InSync(Get(players, id), MirrorOf(mirrors, id))
  }

  /** Every player told about a relit chunk has already been sent it, at the
      revision the delta starts from. */
  ghost predicate FanOutSafe(s: System, c: Coord, editor: NetId) {
    forall id :: id in Notified(s.players, c, editor) ==>
      var p := Get(s.players, id);
      c in p.lastSent && c in p.revs && p.revs[c] == RevisionOf(s.world, c)
  }

  lemma ServeKeepsSync(before: map<NetId, Player>, held: map<NetId, Mirror>, id: NetId, view: seq<Coord>, world: World, budget: nat)
    requires AllInSync(before, held)
    ensures var (p, frames) := Served(Get(before, id), view, world, budget);
            AllInSync(before[id := p], held[id := AppliedAll(MirrorOf(held, id), frames)]) &&
            (frames == [] ==> AllInSync(before[id := p], held))
  {
    hide InSync, Served, AppliedAll;
    ServedInSync(Get(before, id), MirrorOf(held, id), view, world, budget);
    var (p, frames) := Served(Get(before, id), view, world, budget);
    NothingApplied(MirrorOf(held, id), frames);
    var after, next := before[id := p], held[id := AppliedAll(MirrorOf(held, id), frames)];
    forall k: NetId
      ensures InSync(Get(after, k), MirrorOf(next, k)) && (frames == [] ==> InSync(Get(after, k), MirrorOf(held, k)))
    {
      if k != id {
        assert Get(after, k) == Get(before, k) && MirrorOf(next, k) == MirrorOf(held, k);
      }
    }
  }

  lemma {:induction false} TickInSync(players: map<NetId, Player>, mirrors: map<NetId, Mirror>,
                                      views: seq<(NetId, seq<Coord>)>, world: World, budget: nat)
    requires AllInSync(players, mirrors)
    ensures var (players', out) := TickedAll(players, views, world, budget);
            AllInSync(players', Delivered(mirrors, out))
    decreases |views|
  {
    if views != [] {
      hide AllInSync, Served, AppliedAll;
      var front := views[..|views| - 1];
      var (id, view) := views[|views| - 1];
      TickInSync(players, mirrors, front, world, budget);
      var (before, out) := TickedAll(players, front, world, budget);
      ServeKeepsSync(before, Delivered(mirrors, out), id, view, world, budget);
      var (p, frames) := Served(Get(before, id), view, world, budget);
      assert (out + [(id, frames)])[..|out|] == out;
    }
  }

  lemma NothingApplied(m: Mirror, frames: seq<Frame>)
    ensures frames == [] ==> AppliedAll(m, frames) == m
  {
  }

  /** A relight keeps the clients in sync precisely when its fan-out was safe:
      deferred chunks, outdated ones and an editor who does not mirror the chunk
      all break it. */
  lemma RelightInSyncIffSafe(s: System, c: Coord, to: nat, editor: NetId, budget: nat)
    requires AllInSync(s.players, s.mirrors) && c in s.world && s.world[c].revision != to
    ensures var t := Act(s, Relight(c, to, editor), budget);
            AllInSync(t.players, t.mirrors) <==> FanOutSafe(s, c, editor)
  {
    var t := Act(s, Relight(c, to, editor), budget);
    var told, from := Notified(s.players, c, editor), s.world[c].revision;
    forall id: NetId
      ensures InSync(Get(t.players, id), MirrorOf(t.mirrors, id)) <==>
              (id in told ==> c in Get(s.players, id).lastSent && c in Get(s.players, id).revs && Get(s.players, id).revs[c] == from)
    {
      hide InSync, Applied, Recorded;
      if id !in told {
        assert Get(t.players, id) == Get(s.players, id) && MirrorOf(t.mirrors, id) == MirrorOf(s.mirrors, id);
      } else {
        assert Get(t.players, id) == Recorded(Get(s.players, id), c, to);
        assert MirrorOf(t.mirrors, id) == Applied(MirrorOf(s.mirrors, id), Delta(c, from, to));
        DeltaInSyncIff(Get(s.players, id), MirrorOf(s.mirrors, id), c, from, to);
      }
    }
  }

  lemma DeltaInSyncIff(p: Player, m: Mirror, c: Coord, from: nat, to: nat)
    requires InSync(p, m) && from != to
    ensures InSync(Recorded(p, c, to), Applied(m, Delta(c, from, to))) <==>
            (c in p.lastSent && c in p.revs && p.revs[c] == from)
  {
    var m' := Applied(m, Delta(c, from, to));
    if c in p.revs {
      assert m[c] == At(p.revs[c]);
      assert m'[c] == At(to) <==> p.revs[c] == from;
      if p.revs[c] == from {
        assert m' == Holding(p.revs[c := to]);
      }
    } else {
      assert c !in m';
      assert c in Holding(p.revs[c := to]);
    }
  }

  /** Both chunks of a first view go out in one tick: nothing is deferred. */
  predicate FitTogether(first: ChunkData, second: ChunkData, budget: nat) {
    budget == 0 || first.bytes == 0 || (first.bytes < budget && first.bytes + second.bytes <= budget)
  }

  lemma FirstBurst(c: Coord, d: Coord, world: World, budget: nat)
    requires c != d && c in world && d in world
    ensures var view := [c, d];
            && Visible(view, world) == view
            && (d in Offered(view, world, map[], budget).revs <==> FitTogether(world[c], world[d], budget))
            && (d in Offered(view, world, map[], budget).revs ==>
                  Offered(view, world, map[], budget).revs[d] == world[d].revision)
  {
    var view := [c, d];
    assert view[..1] == [c] && [c][..0] == [];
    assert Visible([c], world) == [c];
    assert Offered([c], world, map[], budget) == Offer(Burst([], map[], 0, false), c, world[c], budget);
  }

  lemma FirstServed(world: World, id: NetId, c: Coord, d: Coord, budget: nat)
    requires c != d && c in world && d in world
    ensures TickedAll(map[], [(id, [c, d])], world, budget).0 ==
            map[id := Player([c, d], Offered([c, d], world, map[], budget).revs)]
  {
    var views := [(id, [c, d])];
    assert views[..|views| - 1] == [];
    assert TickedAll(map[], [], world, budget) == (map[], []);
    FirstBurst(c, d, world, budget);
    hide Offered, Visible;
    var revs := Offered([c, d], world, map[], budget).revs;
    assert Departed([], [c, d]) == [] && revs - Elements([]) == revs;
    assert Served(NEWCOMER, [c, d], world, budget).0 == Player([c, d], revs);
  }

  /** What the server remembers after the first tick of its first player. */
  lemma FirstTick(world: World, id: NetId, c: Coord, d: Coord, budget: nat)
    requires c != d && c in world && d in world
    ensures var s := Run(world, [Tick([(id, [c, d])])], budget);
            && s.world == world
            && AllInSync(s.players, s.mirrors)
            && s.players == map[id := Player([c, d], Offered([c, d], world, map[], budget).revs)]
  {
    hide TickedAll, Offered, AllInSync;
    var acts := [Tick([(id, [c, d])])];
    MirrorInvariant(world, acts, budget);
    FirstServed(world, id, c, d, budget);
    assert acts[..|acts| - 1] == [] && Run(world, [], budget) == System(world, map[], map[]);
    assert Run(world, acts, budget) == Act(System(world, map[], map[]), acts[0], budget);
  }

  /** Unsafe fan-outs are reached, by two steps from the start: once a player has
      been served two chunks, a relight of the second keeps everyone in sync
      exactly when the budget let both through and the editor is that player. A
      deferred chunk leaves a player recorded as holding what its client never
      received; so does an editor who does not mirror the chunk. */
  lemma FirstRelightInSyncIff(world: World, id: NetId, c: Coord, d: Coord, to: nat, editor: NetId, budget: nat)
    requires c != d && c in world && d in world && to != world[d].revision
    ensures var s := Run(world, [Tick([(id, [c, d])]), Relight(d, to, editor)], budget);
            AllInSync(s.players, s.mirrors) <==> FitTogether(world[c], world[d], budget) && editor == id
  {
    var acts := [Tick([(id, [c, d])]), Relight(d, to, editor)];
    assert acts[..1] == [Tick([(id, [c, d])])];
    var s := Run(world, acts[..1], budget);
    FirstTick(world, id, c, d, budget);
    FirstBurst(c, d, world, budget);
    hide Act, AllInSync, Offered, Visible, FitTogether;
    RelightInSyncIffSafe(s, d, to, editor, budget);
    assert d in [c, d] && Holders(s.players, d) == {id};
    assert Run(world, acts, budget) == Act(s, acts[1], budget);
    assert editor in Notified(s.players, d, editor) && id in Notified(s.players, d, editor);
  }

  /** Every relight of the run was safe and gave its chunk another revision. */
  ghost predicate SafeRun(world: World, acts: seq<Action>, budget: nat) {
    forall i :: 0 <= i < |acts| && acts[i].Relight? ==>
      var s := Run(world, acts[..i], budget);
      FanOutSafe(s, acts[i].coord, acts[i].editor) && RevisionOf(s.world, acts[i].coord) != acts[i].to
  }

  /** Mirror invariant: over all runs of ticks, world changes, departures and
      safe relights, every client holds exactly the chunks the server recorded
      for it, at exactly those revisions, all inside its last visible set. */
  lemma {:induction false} MirrorInvariant(world: World, acts: seq<Action>, budget: nat)
    requires SafeRun(world, acts, budget)
    ensures var s := Run(world, acts, budget);
            AllInSync(s.players, s.mirrors)
    decreases |acts|
  {
    if acts != [] {
      var front, a := acts[..|acts| - 1], acts[|acts| - 1];
      forall i | 0 <= i < |front| && front[i].Relight?
        ensures var s := Run(world, front[..i], budget);
                FanOutSafe(s, front[i].coord, front[i].editor) && RevisionOf(s.world, front[i].coord) != front[i].to
      {
        assert front[..i] == acts[..i] && front[i] == acts[i];
      }
      MirrorInvariant(world, front, budget);
      var s := Run(world, front, budget);
      match a
      case Tick(views) => TickInSync(s.players, s.mirrors, views, s.world, budget);
      case Relight(c, to, editor) =>
        if c in s.world {
          assert acts[..|acts| - 1] == front;
          RelightInSyncIffSafe(s, c, to, editor, budget);
        }
      case WorldMoves(_) =>
      case Forget(id) => ForgetInSync(s.players, s.mirrors, id);
    } else {
      assert Holding(NEWCOMER.revs) == map[];
    }
  }

  lemma ForgetInSync(players: map<NetId, Player>, mirrors: map<NetId, Mirror>, id: NetId)
    requires AllInSync(players, mirrors)
    ensures AllInSync(players - {id}, mirrors - {id})
  {
    assert Holding(NEWCOMER.revs) == map[];
    forall k: NetId
      ensures InSync(Get(players - {id}, k), MirrorOf(mirrors - {id}, k))
    {
      if k != id {
        assert InSync(Get(players, k), MirrorOf(mirrors, k));
      }
    }
  }

  // ----------------------------------------------------- progress and budget

  function Payload(frames: seq<Frame>): nat {
    if frames == [] then 0
    else Payload(frames[..|frames| - 1]) + (match frames[|frames| - 1] case Add(_, _, bytes) => bytes case _ => 0)
  }

  /** Each tick sends a player a payload within the budget, or one chunk that is
      larger and nothing else that weighs anything. */
  lemma {:induction false} WithinBudget(visible: seq<Coord>, world: World, revs: map<Coord, nat>, budget: nat)
    requires budget > 0 && forall c :: c in visible ==> c in world
    ensures var b := Offered(visible, world, revs, budget);
            && Payload(b.frames) == b.sendBytes
            && (b.sendBytes <= budget || Payload(b.frames[..|b.frames| - 1]) == 0)
            && (!b.hit ==> b.sendBytes < budget)
    decreases |visible|
  {
    if visible != [] {
      var n := |visible| - 1;
      WithinBudget(visible[..n], world, revs, budget);
      var a, b := Offered(visible[..n], world, revs, budget), Offered(visible, world, revs, budget);
      var add := Add(visible[n], world[visible[n]].revision, world[visible[n]].bytes);
      if b.frames != a.frames {
        assert (a.frames + [add])[..|a.frames|] == a.frames;
      }
    }
  }

  ghost predicate Current(p: Player, world: World, c: Coord) {
    c in world && c in p.revs && p.revs[c] == world[c].revision
  }

  /** Visible chunks the player does not have at their current revision. */
  ghost function Behind(p: Player, view: seq<Coord>, world: World): set<Coord> {
    set c | c in view && c in world && !Current(p, world, c)
  }

  lemma {:induction false} BurstProgress(visible: seq<Coord>, world: World, revs: map<Coord, nat>, budget: nat)
    requires forall c :: c in visible ==> c in world
    ensures var b := Offered(visible, world, revs, budget);
            && (forall c :: c in revs ==> c in b.revs)
            && (forall c :: c in b.revs ==> (c in revs && b.revs[c] == revs[c]) ||
                                            (c in visible && b.revs[c] == world[c].revision))
            && (b.frames == [] ==> b.sendBytes == 0 && !b.hit)
            && (b.frames != [] ==> exists c :: c in visible && !(c in revs && revs[c] == world[c].revision) &&
                                                c in b.revs && b.revs[c] == world[c].revision)
            && (b.frames == [] ==> b.revs == revs && forall c :: c in visible ==> c in revs && revs[c] == world[c].revision)
    decreases |visible|
  {
    if visible != [] {
      var n := |visible| - 1;
      assert visible == visible[..n] + [visible[n]];
      BurstProgress(visible[..n], world, revs, budget);
    }
  }

  /** With positions and world standing still, a tick brings at least one more
      visible chunk up to date and lets none fall behind. */
  lemma ServedProgress(p: Player, view: seq<Coord>, world: World, budget: nat)
    ensures var after := Served(p, view, world, budget).0;
            && Behind(after, view, world) <= Behind(p, view, world)
            && (Behind(p, view, world) != {} ==> |Behind(after, view, world)| < |Behind(p, view, world)|)
  {
    var visible := Visible(view, world);
    VisibleElements(view, world);
    DepartedElements(p.lastSent, visible);
    BurstProgress(visible, world, p.revs, budget);
    var b := Offered(visible, world, p.revs, budget);
    var after := Served(p, view, world, budget).0;
    assert forall c :: c in visible && c in b.revs ==> c in after.revs && after.revs[c] == b.revs[c];
    if Behind(p, view, world) != {} {
      var c :| c in Behind(p, view, world);
      assert c in visible;
      assert b.frames != [];
      var d :| d in visible && !(d in p.revs && p.revs[d] == world[d].revision) && d in b.revs && b.revs[d] == world[d].revision;
      assert d in Behind(p, view, world) && d !in Behind(after, view, world);
      Smaller(Behind(after, view, world), Behind(p, view, world));
    }
  }

  lemma Smaller(a: set<Coord>, b: set<Coord>)
    requires a < b
    ensures |a| < |b|
  {
    assert b == a + (b - a);
  }

  /** A player and its client after n ticks with the same view and world. */
  function ServedTimes(p: Player, m: Mirror, view: seq<Coord>, world: World, budget: nat, n: nat): (Player, Mirror) {
    if n == 0 then (p, m)
    else
      var (q, held) := ServedTimes(p, m, view, world, budget, n - 1);
      var (after, frames) := Served(q, view, world, budget);
      (after, AppliedAll(held, frames))
  }

  lemma {:induction false} BehindShrinks(p: Player, m: Mirror, view: seq<Coord>, world: World, budget: nat, n: nat)
    ensures |Behind(ServedTimes(p, m, view, world, budget, n).0, view, world)| <=
            if n <= |Behind(p, view, world)| then |Behind(p, view, world)| - n else 0
  {
    if n > 0 {
      BehindShrinks(p, m, view, world, budget, n - 1);
      ServedProgress(ServedTimes(p, m, view, world, budget, n - 1).0, view, world, budget);
    }
  }

  lemma {:induction false} ServedTimesInSync(p: Player, m: Mirror, view: seq<Coord>, world: World, budget: nat, n: nat)
    requires InSync(p, m)
    ensures var (q, held) := ServedTimes(p, m, view, world, budget, n);
            InSync(q, held)
  {
    if n > 0 {
      ServedTimesInSync(p, m, view, world, budget, n - 1);
      var (q, held) := ServedTimes(p, m, view, world, budget, n - 1);
      ServedInSync(q, held, view, world, budget);
    }
  }

  /** Under any budget, the client of a player who stands still in a world that
      stands still ends up holding exactly the visible chunks at their current
      revisions, after at most one tick for each chunk it lacked. */
  lemma CatchesUp(p: Player, m: Mirror, view: seq<Coord>, world: World, budget: nat, n: nat)
    requires InSync(p, m) && n >= 1 && n >= |Behind(p, view, world)|
    ensures ServedTimes(p, m, view, world, budget, n).1 == map c | c in view && c in world :: At(world[c].revision)
  {
    BehindShrinks(p, m, view, world, budget, n);
    ServedTimesInSync(p, m, view, world, budget, n);
    var (q, held) := ServedTimes(p, m, view, world, budget, n);
    VisibleElements(view, world);
    assert q.lastSent == Visible(view, world);
    assert Behind(q, view, world) == {};
    forall c | c in view && c in world
      ensures Current(q, world, c)
    {
      assert c !in Behind(q, view, world);
    }
    assert forall c :: c in q.revs ==> c in Elements(q.lastSent);
  }

  // ------------------------------------------- what is sent, and what is put off

  predicate Missing(revs: map<Coord, nat>, world: World, c: Coord) {
    c in world && !(c in revs && revs[c] == world[c].revision)
  }

  /** Only chunks the player sees and lacks are sent, as they are, and none twice. */
  lemma {:induction false} SentAreMissing(visible: seq<Coord>, world: World, revs: map<Coord, nat>, budget: nat)
    requires forall c :: c in visible ==> c in world
    ensures var b := Offered(visible, world, revs, budget);
            && (forall f :: f in b.frames ==>
                  f.Add? && f.coord in visible && Missing(revs, world, f.coord) &&
                  f.revision == world[f.coord].revision && f.bytes == world[f.coord].bytes)
            && (forall i, j :: 0 <= i < j < |b.frames| ==> b.frames[i].coord != b.frames[j].coord)
            && (forall f :: f in b.frames ==> f.coord in b.revs && b.revs[f.coord] == world[f.coord].revision)
            && (forall c :: c in b.revs ==> (c in revs && b.revs[c] == revs[c]) || !Missing(b.revs, world, c))
            && (forall c :: c in revs && !Missing(revs, world, c) ==> c in b.revs && b.revs[c] == revs[c])
    decreases |visible|
  {
    if visible != [] {
      var n := |visible| - 1;
      assert visible == visible[..n] + [visible[n]];
      SentAreMissing(visible[..n], world, revs, budget);
    }
  }

  /** Everything up to number k has arrived, and nothing after it was sent. */
  predicate SentUpTo(b: Burst, visible: seq<Coord>, world: World, k: nat) {
    && k <= |visible|
    && (forall c :: c in visible[..k] ==> !Missing(b.revs, world, c))
    && (forall f :: f in b.frames ==> f.coord in visible[..k])
  }

  /** The budget is used up, or the chunk that is next would exceed it. */
  predicate Full(b: Burst, visible: seq<Coord>, world: World, budget: nat, k: nat) {
    budget > 0 &&
    (b.sendBytes >= budget ||
     (k < |visible| && visible[k] in world && b.sendBytes > 0 && b.sendBytes + world[visible[k]].bytes > budget))
  }

  lemma OneMoreOffered(b: Burst, front: seq<Coord>, c: Coord, world: World, budget: nat) returns (k: nat)
    requires SentUpTo(b, front, world, |front|) && !b.hit && c in world
    ensures var (r, visible) := (Offer(b, c, world[c], budget), front + [c]);
            SentUpTo(r, visible, world, k) && if r.hit then Full(r, visible, world, budget, k) else k == |visible|
  {
    var visible, bytes := front + [c], world[c].bytes;
    assert front[..|front|] == front == visible[..|front|] && visible[..|visible|] == visible;
    var putOff := Missing(b.revs, world, c) && budget > 0 && b.sendBytes > 0 && b.sendBytes + bytes > budget;
    k := if putOff then |front| else |visible|;
  }

  lemma StillUpTo(b: Burst, front: seq<Coord>, c: Coord, world: World, budget: nat, k: nat)
    requires SentUpTo(b, front, world, k) && Full(b, front, world, budget, k)
    ensures SentUpTo(b, front + [c], world, k) && Full(b, front + [c], world, budget, k)
  {
    assert (front + [c])[..k] == front[..k];
  }

  /** And nothing is put off that fits: the chunks go out in the order given, up
      to number k, and the rest waits only once the budget is used up, or chunk k
      would exceed it. */
  lemma {:induction false} PutOffOnlyIfFull(visible: seq<Coord>, world: World, revs: map<Coord, nat>, budget: nat) returns (k: nat)
    requires forall c :: c in visible ==> c in world
    ensures var b := Offered(visible, world, revs, budget);
            SentUpTo(b, visible, world, k) && if b.hit then Full(b, visible, world, budget, k) else k == |visible|
    decreases |visible|
  {
    k := 0;
    if visible != [] {
      hide SentUpTo, Full, Offer;
      var n := |visible| - 1;
      var front, c := visible[..n], visible[n];
      assert visible == front + [c];
      k := PutOffOnlyIfFull(front, world, revs, budget);
      var a := Offered(front, world, revs, budget);
      if a.hit {
        StillUpTo(a, front, c, world, budget, k);
        assert Offer(a, c, world[c], budget) == a by { AfterHit(a, c, world[c], budget); }
      } else {
        k := OneMoreOffered(a, front, c, world, budget);
      }
    }
  }

  lemma AfterHit(b: Burst, c: Coord, chunk: ChunkData, budget: nat)
    requires b.hit
    ensures Offer(b, c, chunk, budget) == b
  {
  }

  // ---------------------------------------------------------- a tick serves all

  predicate DistinctIds(views: seq<(NetId, seq<Coord>)>) {
    forall i, j :: 0 <= i < j < |views| ==> views[i].0 != views[j].0
  }

  predicate Listed(views: seq<(NetId, seq<Coord>)>, id: NetId) {
    exists i :: 0 <= i < |views| && views[i].0 == id
  }

  lemma {:induction false} TickLeavesOthers(players: map<NetId, Player>, mirrors: map<NetId, Mirror>,
                                            views: seq<(NetId, seq<Coord>)>, world: World, budget: nat, id: NetId)
    requires !Listed(views, id)
    ensures var (after, out) := TickedAll(players, views, world, budget);
            Get(after, id) == Get(players, id) && MirrorOf(Delivered(mirrors, out), id) == MirrorOf(mirrors, id)
    decreases |views|
  {
    if views != [] {
      hide Served, AppliedAll;
      var front, last := views[..|views| - 1], views[|views| - 1];
      assert !Listed(front, id) && last.0 != id;
      TickLeavesOthers(players, mirrors, front, world, budget, id);
      var (before, out) := TickedAll(players, front, world, budget);
      var frames := Served(Get(before, last.0), last.1, world, budget).1;
      assert (out + [(last.0, frames)])[..|out|] == out;
    }
  }

  /** Each player listed is served once, whatever its place: its record and its
      client end as if it were alone. */
  lemma {:induction false} TickServesEach(players: map<NetId, Player>, mirrors: map<NetId, Mirror>,
                                          views: seq<(NetId, seq<Coord>)>, world: World, budget: nat, i: nat)
    requires DistinctIds(views) && i < |views|
    ensures var (after, out) := TickedAll(players, views, world, budget);
            var (id, view) := views[i];
            var (p, frames) := Served(Get(players, id), view, world, budget);
            Get(after, id) == p && MirrorOf(Delivered(mirrors, out), id) == AppliedAll(MirrorOf(mirrors, id), frames)
    decreases |views|
  {
    hide Served, AppliedAll;
    var front, last := views[..|views| - 1], views[|views| - 1];
    var (before, out) := TickedAll(players, front, world, budget);
    var frames := Served(Get(before, last.0), last.1, world, budget).1;
    assert (out + [(last.0, frames)])[..|out|] == out;
    if i < |front| {
      TickServesEach(players, mirrors, front, world, budget, i);
      assert front[i] == views[i] && last.0 != views[i].0;
    } else {
      assert !Listed(front, last.0);
      TickLeavesOthers(players, mirrors, front, world, budget, last.0);
      NothingApplied(MirrorOf(mirrors, last.0), frames);
    }
  }

  /** The system after n ticks with the same views. */
  function TicksLater(s: System, views: seq<(NetId, seq<Coord>)>, budget: nat, n: nat): System {
    if n == 0 then s else Act(TicksLater(s, views, budget, n - 1), Tick(views), budget)
  }

  lemma {:induction false} TicksAreServings(s: System, views: seq<(NetId, seq<Coord>)>, budget: nat, n: nat, i: nat)
    requires DistinctIds(views) && i < |views|
    ensures var (t, (id, view)) := (TicksLater(s, views, budget, n), views[i]);
            t.world == s.world &&
            (Get(t.players, id), MirrorOf(t.mirrors, id)) ==
            ServedTimes(Get(s.players, id), MirrorOf(s.mirrors, id), view, s.world, budget, n)
  {
    hide Served, AppliedAll, TickedAll, Delivered;
    if n > 0 {
      TicksAreServings(s, views, budget, n - 1, i);
      var t := TicksLater(s, views, budget, n - 1);
      TickServesEach(t.players, t.mirrors, views, t.world, budget, i);
    }
  }

  /** So under any budget and with any number of players, all standing still in a
      world that stands still, each client ends up holding exactly its visible
      chunks at their current revisions, after at most one tick for each it lacked. */
  lemma EveryoneCatchesUp(s: System, views: seq<(NetId, seq<Coord>)>, budget: nat, n: nat, i: nat)
    requires AllInSync(s.players, s.mirrors) && DistinctIds(views) && i < |views|
    requires n >= 1 && n >= |Behind(Get(s.players, views[i].0), views[i].1, s.world)|
    ensures MirrorOf(TicksLater(s, views, budget, n).mirrors, views[i].0) ==
            map c | c in views[i].1 && c in s.world :: At(s.world[c].revision)
  {
    hide TicksLater, ServedTimes, Behind, InSync;
    var (id, view) := views[i];
    TicksAreServings(s, views, budget, n, i);
    assert InSync(Get(s.players, id), MirrorOf(s.mirrors, id));
    CatchesUp(Get(s.players, id), MirrorOf(s.mirrors, id), view, s.world, budget, n);
  }

  // ------------------------------------------------------- a relight is heard of

  /** Whoever holds a relit chunk is sent the delta, and nobody else's client
      changes; the record says so of them, and of the editor in any case. */
  lemma RelightReachesHolders(s: System, c: Coord, to: nat, editor: NetId, budget: nat, id: NetId)
    requires c in s.world && InSync(Get(s.players, id), MirrorOf(s.mirrors, id))
    ensures var (t, from) := (Act(s, Relight(c, to, editor), budget), s.world[c].revision);
            var (p, q, m) := (Get(s.players, id), Get(t.players, id), MirrorOf(s.mirrors, id));
            && t.world == s.world[c := s.world[c].(revision := to)]
            && MirrorOf(t.mirrors, id) == (if c !in m then m else m[c := if m[c] == At(from) then At(to) else Torn])
            && q.lastSent == p.lastSent && q.revs == if c in p.lastSent || id == editor then p.revs[c := to] else p.revs
  {
    hide Applied;
    var m, delta := MirrorOf(s.mirrors, id), Delta(c, s.world[c].revision, to);
    assert Applied(m, delta) == (if c !in m then m else m[c := if m[c] == At(delta.from) then At(to) else Torn]) by {
      DeltaApplied(m, c, delta.from, to);
    }
    assert c in m ==> c in Elements(Get(s.players, id).lastSent);
  }

  lemma DeltaApplied(m: Mirror, c: Coord, from: nat, to: nat)
    ensures Applied(m, Delta(c, from, to)) == if c !in m then m else m[c := if m[c] == At(from) then At(to) else Torn]
  {
  }
}
