/**
 Client-side mirror of block damage (src/net/block_damage_tracker.cpp). Damage
 messages and block changes travel on lanes that are not ordered against each
 other; each carries a chunk revision.
 */
module DamageTracker {
  import opened Common

  datatype Voxel = Voxel(x: int, y: int, z: int)

  datatype Chunk = Chunk(x: int, y: int, z: int)

  const CHUNK_DIM := 32

  function ChunkOf(v: Voxel): (c: Chunk)
    ensures 32 * c.x <= v.x < 32 * c.x + 32 && 32 * c.y <= v.y < 32 * c.y + 32 && 32 * c.z <= v.z < 32 * c.z + 32
  {
    Chunk(v.x / CHUNK_DIM, v.y / CHUNK_DIM, v.z / CHUNK_DIM)
  }

  const FORGET_AFTER := 30.0

  datatype Change = Change(revision: nat, at: real)

  datatype State = State(
    punches: map<Voxel, nat>,
    damageRevision: map<Voxel, nat>,
    changes: map<Voxel, Change>,
    now: real,
    nextPrune: real)

  const INITIAL := State(map[], map[], map[], 0.0, FORGET_AFTER)

  function Damaged(s: State, pos: Voxel, punches: nat, revision: nat): State {
    if pos in s.changes && revision < s.changes[pos].revision then s
    else if pos in s.damageRevision && revision < s.damageRevision[pos] then s
    else if punches == 0 then s.(punches := s.punches - {pos}, damageRevision := s.damageRevision - {pos})
    else s.(punches := s.punches[pos := punches], damageRevision := s.damageRevision[pos := revision])
  }

  function BlockChanged(s: State, pos: Voxel, revision: nat): State {
    var known := if pos in s.changes then s.changes[pos] else Change(0, 0.0);
    var changes := s.changes[pos := if revision >= known.revision then Change(revision, s.now) else known];
    if pos in s.damageRevision && s.damageRevision[pos] < revision then
      s.(changes := changes, punches := s.punches - {pos}, damageRevision := s.damageRevision - {pos})
    else
      s.(changes := changes)
  }

  function InChunk(voxels: set<Voxel>, coord: Chunk): set<Voxel> {
    set p | p in voxels && ChunkOf(p) == coord
  }

  function ChunkRemoved(s: State, coord: Chunk): State {
    var gone := InChunk(s.punches.Keys, coord);
    s.(punches := s.punches - gone,
       damageRevision := s.damageRevision - gone,
       changes := s.changes - InChunk(s.changes.Keys, coord))
  }

  function Stale(changes: map<Voxel, Change>, now: real): set<Voxel> {
    set p | p in changes && now - changes[p].at > FORGET_AFTER
  }

  function Advanced(s: State, dt: real): State {
    var now := s.now + dt;
    if now < s.nextPrune then s.(now := now)
    else s.(now := now, nextPrune := now + FORGET_AFTER, changes := s.changes - Stale(s.changes, now))
  }

  class BlockDamageTracker {
    var punches: map<Voxel, nat>
    var damageRevision: map<Voxel, nat>
    var changes: map<Voxel, Change>
    var now: real
    var nextPrune: real

    constructor ()
      ensures Value() == INITIAL
    {
      punches, damageRevision, changes, now, nextPrune := map[], map[], map[], 0.0, FORGET_AFTER;
    }

    function Value(): State
      reads this
    {
      State(punches, damageRevision, changes, now, nextPrune)
    }

    method OnDamage(pos: Voxel, count: nat, revision: nat)
      modifies this
      ensures Value() == Damaged(old(Value()), pos, count, revision)
    {
      if pos in changes && revision < changes[pos].revision {
        return;  // sent before the block at pos was replaced
      }
      if pos in damageRevision && revision < damageRevision[pos] {
        return;
      }
      if count == 0 {
        punches := punches - {pos};
        damageRevision := damageRevision - {pos};
        return;
      }
      punches := punches[pos := count];
      damageRevision := damageRevision[pos := revision];
    }

    method OnBlockChanged(pos: Voxel, revision: nat)
      modifies this
      ensures Value() == BlockChanged(old(Value()), pos, revision)
    {
      if pos !in changes {
        changes := changes[pos := Change(0, 0.0)];
      }
      if revision >= changes[pos].revision {
        changes := changes[pos := Change(revision, now)];
      }
      if pos in damageRevision && damageRevision[pos] < revision {
        punches := punches - {pos};
        damageRevision := damageRevision - {pos};
      }
    }

    method OnChunkRemoved(coord: Chunk)
      modifies this
      ensures Value() == ChunkRemoved(old(Value()), coord)
    {
      var todo := punches.Keys;
      while todo != {}
        invariant todo <= old(punches).Keys
        invariant punches == old(punches) - InChunk(old(punches).Keys - todo, coord)
        invariant damageRevision == old(damageRevision) - InChunk(old(punches).Keys - todo, coord)
        decreases todo
        modifies `punches, `damageRevision
      {
        var p :| p in todo;
        ghost var seen := InChunk(old(punches).Keys - todo, coord);
        todo := todo - {p};
        assert InChunk(old(punches).Keys - todo, coord) == if ChunkOf(p) == coord then seen + {p} else seen;
        if ChunkOf(p) == coord {
          damageRevision := damageRevision - {p};
          punches := punches - {p};
        }
      }
      todo := changes.Keys;
      while todo != {}
        invariant todo <= old(changes).Keys
        invariant changes == old(changes) - InChunk(old(changes).Keys - todo, coord)
        decreases todo
        modifies `changes
      {
        var p :| p in todo;
        ghost var seen := InChunk(old(changes).Keys - todo, coord);
        todo := todo - {p};
        assert InChunk(old(changes).Keys - todo, coord) == if ChunkOf(p) == coord then seen + {p} else seen;
        if ChunkOf(p) == coord {
          changes := changes - {p};
        }
      }
      assert old(punches).Keys - {} == old(punches).Keys;
      assert old(changes).Keys - {} == old(changes).Keys;
    }

    method Advance(dt: real)
      modifies this
      ensures Value() == Advanced(old(Value()), dt)
    {
      now := now + dt;
      if now < nextPrune {
        return;
      }
      nextPrune := now + FORGET_AFTER;
      var todo := changes.Keys;
      while todo != {}
        invariant todo <= old(changes).Keys && todo <= changes.Keys
        invariant changes == old(changes) - (Stale(old(changes), now) - todo)
        decreases todo
        modifies `changes
      {
        var p :| p in todo;
        todo := todo - {p};
        if now - changes[p].at > FORGET_AFTER {
          changes := changes - {p};
        }
      }
      assert Stale(old(changes), now) - {} == Stale(old(changes), now);
    }
  }

  // -------------------------------------------------------------------- runs

  datatype Event =
    | Damage(pos: Voxel, punches: nat, revision: nat)
    | Changed(pos: Voxel, revision: nat)
    | Removed(coord: Chunk)
    | Elapse(dt: real)

  function Handle(s: State, e: Event): State {
    match e
    case Damage(pos, punches, revision) => Damaged(s, pos, punches, revision)
    case Changed(pos, revision) => BlockChanged(s, pos, revision)
    case Removed(coord) => ChunkRemoved(s, coord)
    case Elapse(dt) => Advanced(s, dt)
  }

  function Run(es: seq<Event>): State {
    if es == [] then INITIAL else Handle(Run(es[..|es| - 1]), es[|es| - 1])
  }

  /** Time passed during a run. */
  function Clock(es: seq<Event>): real {
    if es == [] then 0.0
    else
      var before := Clock(es[..|es| - 1]);
      match es[|es| - 1]
      case Elapse(dt) => before + dt
      case _ => before
  }

  /** Latest damage message about `pos` since its chunk was last removed. */
  function LastDamage(es: seq<Event>, pos: Voxel): Option<Event> {
    if es == [] then None
    else
      var e := es[|es| - 1];
      if e.Damage? && e.pos == pos then Some(e)
      else if e.Removed? && e.coord == ChunkOf(pos) then None
      else LastDamage(es[..|es| - 1], pos)
  }

  /** Highest change revision of `pos` since its chunk was last removed, and
      when a change last carried it. */
  function Newest(es: seq<Event>, pos: Voxel): Option<Change> {
    if es == [] then None
    else
      var front, e := es[..|es| - 1], es[|es| - 1];
      var before := Newest(front, pos);
      if e.Removed? && e.coord == ChunkOf(pos) then None
      else if e.Changed? && e.pos == pos && (before == None || e.revision >= before.value.revision) then
        Some(Change(e.revision, Clock(front)))
      else before
  }

  /** What should be shown: the last damage value, if it is nonzero and about
      the current block. It depends on each lane alone, not on the interleaving. */
  function Shown(es: seq<Event>, pos: Voxel): Option<nat> {
    match LastDamage(es, pos)
    case Some(Damage(_, punches, revision)) =>
      if punches > 0 && (Newest(es, pos) == None || revision >= Newest(es, pos).value.revision) then Some(punches) else None
    case _ => None
  }

  function Lookup<V>(m: map<Voxel, V>, pos: Voxel): Option<V> {
    if pos in m then Some(m[pos]) else None
  }

  /** The damage lane carries nondecreasing revisions for a block; time moves on. */
  ghost predicate InLane(before: seq<Event>, e: Event) {
    match e
    case Damage(pos, _, revision) =>
      LastDamage(before, pos).Some? ==> LastDamage(before, pos).value.Damage? && LastDamage(before, pos).value.revision <= revision
    case Elapse(dt) => dt >= 0.0
    case _ => true
  }

  /** A message about a block that has been replaced since it was sent. */
  predicate Overtaken(before: seq<Event>, e: Event) {
    e.Damage? && Newest(before, e.pos).Some? && e.revision < Newest(before, e.pos).value.revision
  }

  /** And a message overtaken arrives before the change that overtook it is forgotten. */
  ghost predicate Timely(before: seq<Event>, e: Event) {
    && InLane(before, e)
    && (Overtaken(before, e) ==> Clock(before) <= Newest(before, e.pos).value.at + FORGET_AFTER)
  }

  ghost predicate Ordered(es: seq<Event>) {
    forall i :: 0 <= i < |es| ==> InLane(es[..i], es[i])
  }

  ghost predicate Orderly(es: seq<Event>) {
    forall i :: 0 <= i < |es| ==> Timely(es[..i], es[i])
  }

  /** The tracker shows the right damage of one block, whatever it has forgotten. */
  ghost predicate Follows(s: State, es: seq<Event>, pos: Voxel) {
    && Lookup(s.punches, pos) == Shown(es, pos)
    && (pos in s.punches <==> pos in s.damageRevision)
    && (pos in s.punches ==> LastDamage(es, pos).Some? && LastDamage(es, pos).value.Damage? &&
                             s.damageRevision[pos] == LastDamage(es, pos).value.revision)
    && (pos in s.changes ==> Newest(es, pos).Some? && s.changes[pos].revision <= Newest(es, pos).value.revision)
  }

  /** It forgets a change only after a while. */
  ghost predicate Remembers(s: State, es: seq<Event>, pos: Voxel) {
    var newest := Newest(es, pos);
    && s.now == Clock(es)
    && (newest.Some? ==> Lookup(s.changes, pos) == newest || s.now > newest.value.at + FORGET_AFTER)
  }

  /** The test by which on_damage turns a message down. */
  predicate Refuses(s: State, e: Event)
    requires e.Damage?
  {
    e.pos in s.changes && e.revision < s.changes[e.pos].revision
  }

  lemma Snoc(es: seq<Event>, e: Event)
    ensures (es + [e])[..|es + [e]| - 1] == es && (es + [e])[|es + [e]| - 1] == e
  {
  }

  /** A damage message keeps the display right exactly unless it would show
      something, has been overtaken, and is not refused for it. */
  lemma DamageFollowsIff(s: State, es: seq<Event>, e: Event, pos: Voxel)
    requires Follows(s, es, pos) && InLane(es, e) && e.Damage?
    ensures Follows(Handle(s, e), es + [e], pos) <==> !(e.pos == pos && e.punches > 0 && Overtaken(es, e) && !Refuses(s, e))
    ensures Follows(Handle(s, e), es + [e], pos) <==> Lookup(Handle(s, e).punches, pos) == Shown(es + [e], pos)
  {
    Snoc(es, e);
  }

  lemma OthersFollow(s: State, es: seq<Event>, e: Event, pos: Voxel)
    requires Follows(s, es, pos) && !e.Damage?
    ensures Follows(Handle(s, e), es + [e], pos)
  {
    Snoc(es, e);
  }

  /** Every message about a block that was overtaken, and would show something,
      meets a change of that block still remembered with a later revision. */
  ghost predicate AllRefused(es: seq<Event>, pos: Voxel) {
    forall i :: 0 <= i < |es| ==> Harmless(Run(es[..i]), es[..i], es[i], pos)
  }

  predicate Harmless(s: State, before: seq<Event>, e: Event, pos: Voxel) {
    e.Damage? && e.pos == pos && e.punches > 0 && Overtaken(before, e) ==> Refuses(s, e)
  }

  ghost predicate AlwaysShown(es: seq<Event>, pos: Voxel) {
    forall k :: 0 <= k <= |es| ==> Lookup(Run(es[..k]).punches, pos) == Shown(es[..k], pos)
  }

  lemma OrderedFront(es: seq<Event>)
    requires es != [] && Ordered(es)
    ensures Ordered(es[..|es| - 1]) && InLane(es[..|es| - 1], es[|es| - 1])
  {
    var front := es[..|es| - 1];
    forall i | 0 <= i < |front|
      ensures InLane(front[..i], front[i])
    {
      assert front[..i] == es[..i];
      assert InLane(es[..i], es[i]);
    }
    assert InLane(es[..|es| - 1], es[|es| - 1]);
  }

  lemma RefusedSoFar(front: seq<Event>, e: Event, pos: Voxel)
    ensures AllRefused(front + [e], pos) <==> AllRefused(front, pos) && Harmless(Run(front), front, e, pos)
  {
    hide Run, Harmless;
    var es, n := front + [e], |front|;
    assert es[..n] == front && forall i :: 0 <= i < n ==> front[..i] == es[..i] && front[i] == es[i];
    if AllRefused(es, pos) {
      forall i | 0 <= i < n
        ensures Harmless(Run(front[..i]), front[..i], front[i], pos)
      {
        assert Harmless(Run(es[..i]), es[..i], es[i], pos);
      }
      assert Harmless(Run(es[..n]), es[..n], es[n], pos);
    }
  }

  lemma ShownSoFar(front: seq<Event>, e: Event, pos: Voxel)
    ensures AlwaysShown(front + [e], pos) <==>
            AlwaysShown(front, pos) && Lookup(Run(front + [e]).punches, pos) == Shown(front + [e], pos)
  {
    hide Run, Shown;
    var es, n := front + [e], |front|;
    assert es[..n + 1] == es && forall i :: 0 <= i <= n ==> front[..i] == es[..i];
    if AlwaysShown(es, pos) {
      forall k | 0 <= k <= n
        ensures Lookup(Run(front[..k]).punches, pos) == Shown(front[..k], pos)
      {
        assert Lookup(Run(es[..k]).punches, pos) == Shown(es[..k], pos);
      }
      assert Lookup(Run(es[..n + 1]).punches, pos) == Shown(es[..n + 1], pos);
    }
  }

  /** Exactly when the tracker is right: in every run whose damage lane is in
      order, removals and any delays included, a block always shows its last
      damage, if that is about the current block, precisely if every overtaken
      message meets the change that overtook it. */
  lemma {:induction false} RightIffRefused(es: seq<Event>, pos: Voxel)
    requires Ordered(es)
    ensures AlwaysShown(es, pos) <==> AllRefused(es, pos)
    ensures AllRefused(es, pos) ==> Follows(Run(es), es, pos)
    decreases |es|
  {
    if es == [] {
      assert Run(es[..0]) == INITIAL;
    } else {
      hide AllRefused, AlwaysShown, Follows, Handle, Shown, InLane;
      var front, e := es[..|es| - 1], es[|es| - 1];
      assert front + [e] == es;
      OrderedFront(es);
      RightIffRefused(front, pos);
      RefusedSoFar(front, e, pos);
      ShownSoFar(front, e, pos);
      RunSnoc(front, e);
      if AllRefused(front, pos) {
        StepFollowsIff(Run(front), front, e, pos);
      }
    }
  }

  lemma RunSnoc(front: seq<Event>, e: Event)
    ensures Run(front + [e]) == Handle(Run(front), e)
  {
    Snoc(front, e);
  }

  lemma StepFollowsIff(s: State, es: seq<Event>, e: Event, pos: Voxel)
    requires Follows(s, es, pos) && InLane(es, e)
    ensures Follows(Handle(s, e), es + [e], pos) <==> Harmless(s, es, e, pos)
    ensures Follows(Handle(s, e), es + [e], pos) <==> Lookup(Handle(s, e).punches, pos) == Shown(es + [e], pos)
  {
    hide Follows, Handle, Shown, InLane;
    if e.Damage? {
      DamageFollowsIff(s, es, e, pos);
    } else {
      OthersFollow(s, es, e, pos);
      FollowsShows(Handle(s, e), es + [e], pos);
    }
  }

  lemma FollowsShows(s: State, es: seq<Event>, pos: Voxel)
    requires Follows(s, es, pos)
    ensures Lookup(s.punches, pos) == Shown(es, pos)
  {
  }

  lemma HandleRemembers(s: State, es: seq<Event>, e: Event, pos: Voxel)
    requires Follows(s, es, pos) && Remembers(s, es, pos) && InLane(es, e)
    ensures Remembers(Handle(s, e), es + [e], pos)
  {
    Snoc(es, e);
  }

  lemma TimelyIsHarmless(s: State, es: seq<Event>, e: Event, pos: Voxel)
    requires Remembers(s, es, pos) && Timely(es, e)
    ensures Harmless(s, es, e, pos)
  {
  }

  /** Main invariant: in every orderly run, at every block. */
  lemma {:induction false} RunTracks(es: seq<Event>, pos: Voxel)
    requires Orderly(es)
    ensures Follows(Run(es), es, pos) && Remembers(Run(es), es, pos)
    decreases |es|
  {
    if es != [] {
      var front, e := es[..|es| - 1], es[|es| - 1];
      forall i | 0 <= i < |front|
        ensures Timely(front[..i], front[i])
      {
        assert front[..i] == es[..i];
        assert Timely(es[..i], es[i]);
      }
      assert Timely(es[..|es| - 1], e);
      RunTracks(front, pos);
      assert front + [e] == es;
      hide Follows, Remembers, Handle;
      HandleRemembers(Run(front), front, e, pos);
      TimelyIsHarmless(Run(front), front, e, pos);
      StepFollowsIff(Run(front), front, e, pos);
    }
  }

  // -------------------------------------------------------------- confluence

  /** The events since the block's chunk was last removed. */
  function Since(es: seq<Event>, pos: Voxel): seq<Event> {
    if es == [] then []
    else
      var e := es[|es| - 1];
      if e.Removed? && e.coord == ChunkOf(pos) then [] else Since(es[..|es| - 1], pos) + [e]
  }

  function DamageLane(es: seq<Event>): seq<Event> {
    if es == [] then []
    else
      var front, e := DamageLane(es[..|es| - 1]), es[|es| - 1];
      if e.Damage? then front + [e] else front
  }

  function ChangeSet(es: seq<Event>): set<Event> {
    set e | e in es && e.Changed?
  }

  lemma {:induction false} LastDamageOfLane(es: seq<Event>, pos: Voxel)
    ensures LastDamage(es, pos) == LastDamage(DamageLane(Since(es, pos)), pos)
    decreases |es|
  {
    if es != [] {
      var front, e := es[..|es| - 1], es[|es| - 1];
      LastDamageOfLane(front, pos);
      Snoc(Since(front, pos), e);
      Snoc(DamageLane(Since(front, pos)), e);
    }
  }

  /** Newest really is the largest change revision since the last removal. */
  lemma {:induction false} NewestIsLargest(es: seq<Event>, pos: Voxel)
    ensures Newest(es, pos) == None ==> forall r: nat :: Changed(pos, r) !in Since(es, pos)
    ensures Newest(es, pos).Some? ==>
              && Changed(pos, Newest(es, pos).value.revision) in Since(es, pos)
              && forall r: nat :: Changed(pos, r) in Since(es, pos) ==> r <= Newest(es, pos).value.revision
    decreases |es|
  {
    if es != [] {
      var front, e := es[..|es| - 1], es[|es| - 1];
      NewestIsLargest(front, pos);
      assert e in Since(front, pos) + [e];
    }
  }

  /** The result in closed form: the last damage value since the chunk was last
      removed, if it is nonzero and its revision reaches that of every change of
      the block since, otherwise nothing. */
  lemma FinalDamage(es: seq<Event>, pos: Voxel)
    requires Orderly(es)
    ensures
      var since := Since(es, pos);
      var last := LastDamage(DamageLane(since), pos);
      if last.Some? && last.value.Damage? && last.value.punches > 0 &&
         (forall r: nat :: Changed(pos, r) in since ==> r <= last.value.revision)
      then Lookup(Run(es).punches, pos) == Some(last.value.punches)
      else pos !in Run(es).punches
  {
    RunTracks(es, pos);
    LastDamageOfLane(es, pos);
    NewestIsLargest(es, pos);
  }

  /** Since the last removal of a block's chunk, the two runs carry the same
      damage lane and the same changes. */
  predicate SameSince(a: seq<Event>, b: seq<Event>, pos: Voxel) {
    DamageLane(Since(a, pos)) == DamageLane(Since(b, pos)) && ChangeSet(Since(a, pos)) == ChangeSet(Since(b, pos))
  }

  lemma ConfluentAt(a: seq<Event>, b: seq<Event>, pos: Voxel)
    requires Orderly(a) && Orderly(b) && SameSince(a, b, pos)
    ensures Lookup(Run(a).punches, pos) == Lookup(Run(b).punches, pos)
  {
    var x, y := Since(a, pos), Since(b, pos);
    assert forall r: nat :: Changed(pos, r) in x <==> Changed(pos, r) in ChangeSet(x);
    assert forall r: nat :: Changed(pos, r) in y <==> Changed(pos, r) in ChangeSet(y);
    FinalDamage(a, pos);
    FinalDamage(b, pos);
  }

  /** Confluence: two runs that carry, since each block's last removal, the same
      damage lane and the same block changes, interleaved and timed in any
      orderly way, end with the same damage. */
  lemma Confluent(a: seq<Event>, b: seq<Event>)
    requires Orderly(a) && Orderly(b) && forall pos :: SameSince(a, b, pos)
    ensures Run(a).punches == Run(b).punches
  {
    var x, y := Run(a).punches, Run(b).punches;
    forall pos
      ensures Lookup(x, pos) == Lookup(y, pos)
    {
      ConfluentAt(a, b, pos);
    }
    assert forall pos :: pos in x ==> Lookup(x, pos) == Lookup(y, pos);
    assert forall pos :: pos in y ==> Lookup(x, pos) == Lookup(y, pos);
  }

  lemma {:induction false} NothingRemovedSince(es: seq<Event>, pos: Voxel)
    requires forall e :: e in es ==> !e.Removed?
    ensures Since(es, pos) == es
    decreases |es|
  {
    if es != [] {
      var front, e := es[..|es| - 1], es[|es| - 1];
      assert e in es && forall f :: f in front ==> f in es;
      NothingRemovedSince(front, pos);
    }
  }

  /** So runs without removals need only agree lane by lane. */
  lemma ConfluentWithoutRemovals(a: seq<Event>, b: seq<Event>)
    requires Orderly(a) && Orderly(b) && forall e :: e in a + b ==> !e.Removed?
    requires DamageLane(a) == DamageLane(b) && ChangeSet(a) == ChangeSet(b)
    ensures Run(a).punches == Run(b).punches
  {
    assert forall e :: (e in a ==> e in a + b) && (e in b ==> e in a + b);
    forall pos
      ensures SameSince(a, b, pos)
    {
      NothingRemovedSince(a, pos);
      NothingRemovedSince(b, pos);
    }
    Confluent(a, b);
  }

  // ------------------------------------------- exactly when lateness and removal matter

  /** When the tracker will next look for changes to forget, from the run alone. */
  function NextLook(es: seq<Event>): real {
    if es == [] then FORGET_AFTER
    else
      var before := NextLook(es[..|es| - 1]);
      if es[|es| - 1].Elapse? && Clock(es) >= before then Clock(es) + FORGET_AFTER else before
  }

  lemma {:induction false} RunClock(es: seq<Event>)
    ensures Run(es).now == Clock(es) && Run(es).nextPrune == NextLook(es)
    decreases |es|
  {
    if es != [] {
      RunClock(es[..|es| - 1]);
    }
  }

  lemma {:induction false} ClockGoesOn(es: seq<Event>, k: nat)
    requires Ordered(es) && k <= |es|
    ensures Clock(es[..k]) <= Clock(es)
    decreases |es|
  {
    if k == |es| {
      assert es[..k] == es;
    } else {
      OrderedFront(es);
      assert es[..|es| - 1][..k] == es[..k];
      ClockGoesOn(es[..|es| - 1], k);
    }
  }

  /** What is remembered of a block is some change since its chunk was removed. */
  predicate EntryBelow(s: State, es: seq<Event>, pos: Voxel) {
    pos in s.changes ==> Newest(es, pos).Some? && s.changes[pos].revision <= Newest(es, pos).value.revision
  }

  lemma {:induction false} EntryStaysBelow(es: seq<Event>, pos: Voxel)
    ensures EntryBelow(Run(es), es, pos)
    decreases |es|
  {
    if es != [] {
      EntryStaysBelow(es[..|es| - 1], pos);
    }
  }

  /** Event k makes the tracker look for changes to forget. */
  predicate Looks(es: seq<Event>, k: nat)
    requires k < |es|
  {
    es[k].Elapse? && Clock(es[..k + 1]) >= NextLook(es[..k])
  }

  /** A look came more than the limit after the newest change of the block. */
  predicate Outlived(es: seq<Event>, pos: Voxel, newest: Change) {
    exists k :: 0 <= k < |es| && OutlivedAt(es, pos, newest, k)
  }

  predicate OutlivedAt(es: seq<Event>, pos: Voxel, newest: Change, k: nat)
    requires k < |es|
  {
    Looks(es, k) && Newest(es[..k], pos) == Some(newest) && Clock(es[..k + 1]) > newest.at + FORGET_AFTER
  }

  lemma OutlivedSoFar(front: seq<Event>, e: Event, pos: Voxel, newest: Change)
    ensures Outlived(front + [e], pos, newest) <==>
            Outlived(front, pos, newest) || OutlivedAt(front + [e], pos, newest, |front|)
  {
    hide Looks, Newest, Clock;
    var es, n := front + [e], |front|;
    forall k | 0 <= k < n
      ensures OutlivedAt(es, pos, newest, k) <==> OutlivedAt(front, pos, newest, k)
    {
      assert front[..k] == es[..k] && front[..k + 1] == es[..k + 1] && front[k] == es[k];
      assert Looks(es, k) <==> Looks(front, k) by { LooksAlike(front, e, k); }
    }
  }

  lemma LooksAlike(front: seq<Event>, e: Event, k: nat)
    requires k < |front|
    ensures Looks(front + [e], k) <==> Looks(front, k)
  {
    assert front[..k] == (front + [e])[..k] && front[..k + 1] == (front + [e])[..k + 1];
  }

  lemma NotYetOutlived(es: seq<Event>, pos: Voxel, newest: Change)
    requires Ordered(es) && Clock(es) <= newest.at + FORGET_AFTER
    ensures !Outlived(es, pos, newest)
  {
    if k :| 0 <= k < |es| && OutlivedAt(es, pos, newest, k) {
      ClockGoesOn(es, k + 1);
    }
  }

  /** Exactly how long the newest change of a block is remembered, in every run:
      until the first look that comes more than the limit after it. Looks are a
      limit apart, so that is when it is between one and two limits old. */
  lemma {:induction false} NewestKeptIff(es: seq<Event>, pos: Voxel)
    requires Ordered(es) && Newest(es, pos).Some?
    ensures var newest := Newest(es, pos).value;
            Lookup(Run(es).changes, pos) == Some(newest) <==> !Outlived(es, pos, newest)
    decreases |es|
  {
    hide Run, Ordered, Outlived, OutlivedAt, NextLook, Handle;
    var front, e := es[..|es| - 1], es[|es| - 1];
    assert es == front + [e];
    var newest := Newest(es, pos).value;
    OrderedFront(es);
    RunClock(front);
    EntryStaysBelow(front, pos);
    OutlivedSoFar(front, e, pos, newest);
    RunSnoc(front, e);
    assert es[..|front|] == front && es[..|front| + 1] == es;
    if e.Changed? && e.pos == pos && newest == Change(e.revision, Clock(front)) {
      NotYetOutlived(front, pos, newest);
      NewChangeKept(Run(front), front, e, pos);
      assert !OutlivedAt(es, pos, newest, |front|) by { NoLook(es, pos, newest, |front|); }
    } else {
      assert Newest(front, pos) == Some(newest);
      NewestKeptIff(front, pos);
      OldChangeKept(Run(front), front, e, pos, newest);
    }
  }

  lemma NoLook(es: seq<Event>, pos: Voxel, newest: Change, k: nat)
    requires k < |es| && !es[k].Elapse?
    ensures !OutlivedAt(es, pos, newest, k)
  {
  }

  lemma NewChangeKept(s: State, front: seq<Event>, e: Event, pos: Voxel)
    requires EntryBelow(s, front, pos) && s.now == Clock(front) && e.Changed? && e.pos == pos
    requires Newest(front, pos).Some? ==> e.revision >= Newest(front, pos).value.revision
    ensures Lookup(Handle(s, e).changes, pos) == Some(Change(e.revision, s.now))
  {
  }

  lemma OldChangeKept(s: State, front: seq<Event>, e: Event, pos: Voxel, newest: Change)
    requires EntryBelow(s, front, pos) && s.now == Clock(front) && s.nextPrune == NextLook(front)
    requires Newest(front, pos) == Newest(front + [e], pos) == Some(newest)
    requires e.Changed? && e.pos == pos ==> e.revision < newest.revision
    ensures Lookup(Handle(s, e).changes, pos) == Some(newest) <==>
            Lookup(s.changes, pos) == Some(newest) && !OutlivedAt(front + [e], pos, newest, |front|)
  {
    Snoc(front, e);
    assert (front + [e])[..|front| + 1] == front + [e];
  }

  /** Every change remembered is less than two limits old. */
  lemma {:induction false} EntriesAreYoung(es: seq<Event>, pos: Voxel)
    requires Ordered(es)
    ensures var s := Run(es);
            && s.now < s.nextPrune <= s.now + FORGET_AFTER
            && (pos in s.changes ==> s.nextPrune <= s.changes[pos].at + 2.0 * FORGET_AFTER)
    decreases |es|
  {
    if es != [] {
      OrderedFront(es);
      EntriesAreYoung(es[..|es| - 1], pos);
    }
  }

  /** So a newest change is remembered for one limit, and not for two. */
  lemma KeptOneLimitNotTwo(es: seq<Event>, pos: Voxel)
    requires Ordered(es) && Newest(es, pos).Some?
    ensures var newest := Newest(es, pos).value;
            && (Clock(es) <= newest.at + 30.0 ==> Lookup(Run(es).changes, pos) == Some(newest))
            && (Clock(es) >= newest.at + 60.0 ==> Lookup(Run(es).changes, pos) != Some(newest))
  {
    hide Run, Ordered;
    NewestKeptIff(es, pos);
    EntriesAreYoung(es, pos);
    RunClock(es);
    if Clock(es) <= Newest(es, pos).value.at + FORGET_AFTER {
      NotYetOutlived(es, pos, Newest(es, pos).value);
    }
  }

  /** Event k makes the tracker forget what it remembers of the block. */
  predicate Forgets(es: seq<Event>, k: nat, pos: Voxel)
    requires k < |es|
  {
    && Looks(es, k) && pos in Run(es[..k]).changes
    && Clock(es[..k + 1]) - Run(es[..k]).changes[pos].at > FORGET_AFTER
  }

  /** The tracker has forgotten every change of the block above `revision`: one
      of its looks dropped what it remembered, and none of these came after. */
  predicate ForgottenAt(es: seq<Event>, k: nat, pos: Voxel, revision: nat)
    requires k < |es|
  {
    Forgets(es, k, pos) && forall i :: k < i < |es| && es[i].Changed? && es[i].pos == pos ==> es[i].revision <= revision
  }

  predicate Forgotten(es: seq<Event>, pos: Voxel, revision: nat) {
    exists k :: 0 <= k < |es| && ForgottenAt(es, k, pos, revision)
  }

  lemma ForgottenSoFar(front: seq<Event>, e: Event, pos: Voxel, revision: nat)
    ensures Forgotten(front + [e], pos, revision) <==>
            Forgets(front + [e], |front|, pos) ||
            (Forgotten(front, pos, revision) && (e.Changed? && e.pos == pos ==> e.revision <= revision))
  {
    hide Looks, Run, Clock, Forgets;
    var es, n := front + [e], |front|;
    assert es[n] == e;
    forall k | 0 <= k < n
      ensures ForgottenAt(es, k, pos, revision) <==>
              ForgottenAt(front, k, pos, revision) && (e.Changed? && e.pos == pos ==> e.revision <= revision)
    {
      ForgetsAlike(front, e, k, pos);
      assert forall i :: k < i < n ==> es[i] == front[i];
    }
    assert ForgottenAt(es, n, pos, revision) <==> Forgets(es, n, pos);
  }

  lemma ForgetsAlike(front: seq<Event>, e: Event, k: nat, pos: Voxel)
    requires k < |front|
    ensures Forgets(front + [e], k, pos) <==> Forgets(front, k, pos)
  {
    hide Looks, Run, Clock;
    LooksAlike(front, e, k);
    assert front[..k] == (front + [e])[..k] && front[..k + 1] == (front + [e])[..k + 1];
  }

  /** An overtaken message is let through exactly if every change that overtook
      it has been forgotten. */
  lemma {:induction false} RefusedUnlessForgotten(es: seq<Event>, e: Event)
    requires Overtaken(es, e)
    ensures Refuses(Run(es), e) <==> !Forgotten(es, e.pos, e.revision)
    decreases |es|
  {
    hide Run, Forgotten, Handle, Looks, Forgets, NextLook;
    var front, last := es[..|es| - 1], es[|es| - 1];
    assert es == front + [last];
    RunSnoc(front, last);
    RunClock(front);
    ForgottenSoFar(front, last, e.pos, e.revision);
    if last.Changed? && last.pos == e.pos && last.revision > e.revision {
      assert !Forgets(es, |front|, e.pos) by { OnlyTimeForgets(es, |front|, e.pos); }
      ChangeRefuses(Run(front), last, e);
    } else {
      RefusedUnlessForgotten(front, e);
      RefusesOn(Run(front), front, last, e);
    }
  }

  lemma OnlyTimeForgets(es: seq<Event>, k: nat, pos: Voxel)
    requires k < |es| && !es[k].Elapse?
    ensures !Forgets(es, k, pos)
  {
  }

  lemma ChangeRefuses(s: State, change: Event, e: Event)
    requires change.Changed? && e.Damage? && change.pos == e.pos && change.revision > e.revision
    ensures Refuses(Handle(s, change), e)
  {
  }

  lemma RefusesOn(s: State, front: seq<Event>, last: Event, e: Event)
    requires s == Run(front) && s.now == Clock(front) && s.nextPrune == NextLook(front)
    requires e.Damage? && !(last.Removed? && last.coord == ChunkOf(e.pos))
    requires last.Changed? && last.pos == e.pos ==> last.revision <= e.revision
    ensures Refuses(Handle(s, last), e) <==> Refuses(s, e) && !Forgets(front + [last], |front|, e.pos)
  {
    hide Run;
    Snoc(front, last);
    assert (front + [last])[..|front| + 1] == front + [last] && (front + [last])[..|front|] == front;
  }

  /** What the tracker knows of a block's damage is from the lane, and not newer. */
  predicate LaneBelow(s: State, es: seq<Event>, pos: Voxel) {
    && (pos in s.punches <==> pos in s.damageRevision)
    && (pos in s.damageRevision ==>
          LastDamage(es, pos).Some? && LastDamage(es, pos).value.Damage? &&
          s.damageRevision[pos] <= LastDamage(es, pos).value.revision)
  }

  lemma {:induction false} LaneStaysBelow(es: seq<Event>, pos: Voxel)
    requires Ordered(es)
    ensures LaneBelow(Run(es), es, pos)
    decreases |es|
  {
    if es != [] {
      OrderedFront(es);
      LaneStaysBelow(es[..|es| - 1], pos);
    }
  }

  /** How late is too late, in every run: a message overtaken by a change of its
      block shows on the new block exactly if all such changes are forgotten. */
  lemma LateMessageCracks(es: seq<Event>, e: Event)
    requires Ordered(es) && InLane(es, e) && Overtaken(es, e) && e.punches > 0
    ensures Run(es + [e]).punches ==
            if Forgotten(es, e.pos, e.revision) then Run(es).punches[e.pos := e.punches] else Run(es).punches
    ensures Shown(es + [e], e.pos) == None
  {
    hide Run, Forgotten, Ordered;
    RefusedUnlessForgotten(es, e);
    LaneStaysBelow(es, e.pos);
    RunSnoc(es, e);
    Snoc(es, e);
  }

  /** So the tracker is right exactly if no message that would show something
      comes after every change that overtook it has been forgotten. */
  lemma RightIffNoneForgotten(es: seq<Event>, pos: Voxel)
    requires Ordered(es)
    ensures AlwaysShown(es, pos) <==>
            forall i :: 0 <= i < |es| && es[i].Damage? && es[i].pos == pos && es[i].punches > 0 && Overtaken(es[..i], es[i]) ==>
              !Forgotten(es[..i], pos, es[i].revision)
  {
    hide AlwaysShown, Ordered, Run, Overtaken, Refuses, Forgotten;
    RightIffRefused(es, pos);
    forall i | 0 <= i < |es| && es[i].Damage? && es[i].pos == pos && Overtaken(es[..i], es[i])
      ensures Refuses(Run(es[..i]), es[i]) <==> !Forgotten(es[..i], pos, es[i].revision)
    {
      RefusedUnlessForgotten(es[..i], es[i]);
    }
    if AllRefused(es, pos) {
      forall i | 0 <= i < |es| && es[i].Damage? && es[i].pos == pos && es[i].punches > 0 && Overtaken(es[..i], es[i])
        ensures !Forgotten(es[..i], pos, es[i].revision)
      {
        assert Harmless(Run(es[..i]), es[..i], es[i], pos);
      }
    }
  }

  /** One pause between the change and the message: one tick past the limit. */
  lemma LateAfterOnePause(pos: Voxel, n: nat, older: nat, newer: nat, wait: real)
    requires n > 0 && older < newer && wait >= 0.0
    ensures
      var es := [Changed(pos, newer), Elapse(wait), Damage(pos, n, older)];
      Ordered(es) && Shown(es, pos) == None &&
      Lookup(Run(es).punches, pos) == if wait > 30.0 then Some(n) else None
  {
    var change, pause, late := Changed(pos, newer), Elapse(wait), Damage(pos, n, older);
    var es := [change, pause, late];
    Snoc([change, pause], late);
    Snoc([change], pause);
    Snoc([], change);
    assert [change, pause] + [late] == es && [change] + [pause] == [change, pause] && [] + [change] == [change];
    assert Run([change]) == INITIAL.(changes := map[pos := Change(newer, 0.0)]);
    assert Newest([], pos) == None && Clock([]) == 0.0;
    assert Newest([change], pos) == Some(Change(newer, 0.0));
    assert Newest([change, pause], pos) == Newest([change], pos);
    assert LastDamage([change, pause], pos) == LastDamage([change], pos) == None;
    assert es[..0] == [] && es[..1] == [change] && es[..2] == [change, pause];
    var s := Run([change, pause]);
    assert s == Advanced(Run([change]), wait);
    assert pos in s.changes <==> wait <= FORGET_AFTER;
  }

  /** Between one limit and two the delay alone does not decide: this message
      comes as late as one that shows after one pause, and is refused, because
      the tracker looked shortly before the change was old enough. */
  lemma PhaseDecides(pos: Voxel, n: nat, older: nat, newer: nat, wait: real, lead: real)
    requires n > 0 && older < newer && FORGET_AFTER < wait < 2.0 * FORGET_AFTER
    requires lead == (2.0 * FORGET_AFTER - wait) / 2.0
    ensures
      var early := [Elapse(lead), Changed(pos, newer), Elapse(FORGET_AFTER - lead)];
      var late := [Elapse(wait - (FORGET_AFTER - lead)), Damage(pos, n, older)];
      Clock(early + late) == lead + wait && Run(early + late).punches == map[]
  {
    var e1, e2, e3: Event := Elapse(lead), Changed(pos, newer), Elapse(FORGET_AFTER - lead);
    var e4, e5: Event := Elapse(wait - (FORGET_AFTER - lead)), Damage(pos, n, older);
    RunOf5(e1, e2, e3, e4, e5);
    var s := Handle(Handle(INITIAL, e1), e2);
    assert s == State(map[], map[], map[pos := Change(newer, lead)], lead, FORGET_AFTER);
    assert Handle(s, e3).changes == s.changes && Handle(s, e3).nextPrune == 2.0 * FORGET_AFTER;
    RunClock([e1, e2, e3] + [e4, e5]);
  }

  lemma RunOf5(a: Event, b: Event, c: Event, d: Event, e: Event)
    ensures Run([a, b, c] + [d, e]) == Handle(Handle(Handle(Handle(Handle(INITIAL, a), b), c), d), e)
  {
    hide Handle;
    assert [] + [a] == [a] && [a] + [b] == [a, b] && [a, b] + [c] == [a, b, c];
    assert [a, b, c] + [d] + [e] == [a, b, c] + [d, e];
    RunSnoc([], a);
    RunSnoc([a], b);
    RunSnoc([a, b], c);
    RunSnoc([a, b, c], d);
    RunSnoc([a, b, c] + [d], e);
  }

  /** A damage message and the removal of its chunk commute exactly if the
      message only clears: what overtakes a removal is gone, what a removal
      overtakes stays. */
  lemma RemovalCommutesIff(s: State, pos: Voxel, n: nat, revision: nat)
    requires pos in s.punches <==> pos in s.damageRevision
    ensures var (hit, gone) := (Damage(pos, n, revision), Removed(ChunkOf(pos)));
            Handle(Handle(s, hit), gone).punches == Handle(Handle(s, gone), hit).punches <==> n == 0
  {
    var (hit, gone) := (Damage(pos, n, revision), Removed(ChunkOf(pos)));
    var first, last := Handle(Handle(s, hit), gone).punches, Handle(Handle(s, gone), hit).punches;
    var rest := s.punches - InChunk(s.punches.Keys, ChunkOf(pos));
    assert first == rest by { HitThenGone(s, pos, n, revision); }
    GoneThenHit(s, pos, n, revision);
    assert pos !in rest;
    if n == 0 {
      assert rest - {pos} == rest;
    }
  }

  lemma HitThenGone(s: State, pos: Voxel, n: nat, revision: nat)
    ensures ChunkRemoved(Damaged(s, pos, n, revision), ChunkOf(pos)).punches == s.punches - InChunk(s.punches.Keys, ChunkOf(pos))
  {
    var t := Damaged(s, pos, n, revision).punches;
    assert forall p :: p != pos ==> (p in t <==> p in s.punches) && (p in t ==> t[p] == s.punches[p]);
  }

  lemma GoneThenHit(s: State, pos: Voxel, n: nat, revision: nat)
    requires pos in s.punches <==> pos in s.damageRevision
    ensures var rest := s.punches - InChunk(s.punches.Keys, ChunkOf(pos));
            Damaged(ChunkRemoved(s, ChunkOf(pos)), pos, n, revision).punches == if n == 0 then rest - {pos} else rest[pos := n]
  {
    var t := ChunkRemoved(s, ChunkOf(pos));
    assert pos !in t.changes && pos !in t.damageRevision;
  }

  /** Both orders occur in orderly runs. */
  lemma BothOrdersOccur(pos: Voxel, n: nat, revision: nat)
    ensures
      var early := [Damage(pos, n, revision), Removed(ChunkOf(pos))];
      var late := [Removed(ChunkOf(pos)), Damage(pos, n, revision)];
      && Orderly(early) && Orderly(late) && (Run(early).punches == Run(late).punches <==> n == 0)
  {
    var hit, gone := Damage(pos, n, revision), Removed(ChunkOf(pos));
    Snoc([hit], gone);
    Snoc([gone], hit);
    Snoc([], hit);
    Snoc([], gone);
    assert [hit] + [gone] == [hit, gone] && [gone] + [hit] == [gone, hit];
    assert [] + [hit] == [hit] && [] + [gone] == [gone];
    assert [hit, gone][..1] == [hit] && [gone, hit][..1] == [gone];
    assert [hit, gone][..0] == [] && [gone, hit][..0] == [];
    assert Timely([], hit) && Timely([], gone) && Timely([hit], gone) && Timely([gone], hit);
    assert Run([]) == INITIAL;
    RemovalCommutesIff(INITIAL, pos, n, revision);
  }
}
