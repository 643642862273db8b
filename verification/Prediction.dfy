/**
 Client-side prediction and server reconciliation of player input
 (src/net/session.cpp: ServerSession::handle_input_batch,
 ClientSession::push_input, ClientSession::reconcile).

 The movement step, the "is the ground loaded" test and the pack's input hook
 are parameters: both peers call the same functions, so nothing here depends
 on what they compute.
 */
module Prediction {
  import opened Common

  /** One input command; `num` is the client's counter, the first one being 1. */
  datatype InputCmd<+C> = InputCmd(num: nat, controls: C)

  datatype HookResult<+C> = Pass | Veto | Replace(controls: C)

  /** What both peers share: the movement step over a state S and controls C,
      the test that the ground under a state is loaded, the server's input hook,
      and the narrowing a state suffers inside a snapshot. */
  datatype Rules<!S, !C> = Rules(
    step: (S, C) -> S,
    loaded: S -> bool,
    hook: InputCmd<C> -> HookResult<C>,
    narrow: S -> S)

  // ---------------------------------------------------------------- server

  /** Authoritative movement of one player; `look` is the last controls taken
      for rotation and hotbar slot. */
  datatype ServerSim<+S, +C> = ServerSim(move: S, lastSeq: nat, look: Option<C>)

  /** Effect of one command that the sequence guard let through. */
  function Simulate<S, C>(rules: Rules<S, C>, s: ServerSim<S, C>, cmd: InputCmd<C>): ServerSim<S, C> {
    match rules.hook(cmd)
    case Veto => s.(lastSeq := cmd.num)
    case Pass => Drive(rules, s, cmd.num, cmd.controls)
    case Replace(controls) => Drive(rules, s, cmd.num, controls)
  }

  function Drive<S, C>(rules: Rules<S, C>, s: ServerSim<S, C>, seqNo: nat, controls: C): ServerSim<S, C> {
    ServerSim(if rules.loaded(s.move) then rules.step(s.move, controls) else s.move, seqNo, Some(controls))
  }

  /** What a snapshot tells a client about itself: its state and the newest
      command taken. */
  datatype Snapshot<+S> = Snapshot(state: S, acked: nat)

  /** Nothing before the first batch has been handled. */
  function LocalState<S, C>(rules: Rules<S, C>, s: ServerSim<S, C>, driven: bool): Option<Snapshot<S>> {
    if driven then Some(Snapshot(rules.narrow(s.move), s.lastSeq)) else None
  }

  /** Replays a log of commands, no guard. */
  function SimulateAll<S, C>(rules: Rules<S, C>, s: ServerSim<S, C>, log: seq<InputCmd<C>>): ServerSim<S, C> {
    if log == [] then s
    else Simulate(rules, SimulateAll(rules, s, log[..|log| - 1]), log[|log| - 1])
  }

  /** Highest sequence number known after a batch, given the highest before it. */
  function Newest<C>(lastSeq: nat, batch: seq<InputCmd<C>>): (r: nat)
    ensures r >= lastSeq
    decreases |batch|
  {
    if batch == [] then lastSeq
    else
      var before := Newest(lastSeq, batch[..|batch| - 1]);
      if batch[|batch| - 1].num <= before then before else batch[|batch| - 1].num
  }

  /** The commands of a batch that are newer than everything before them. */
  function Fresh<C>(lastSeq: nat, batch: seq<InputCmd<C>>): seq<InputCmd<C>>
    decreases |batch|
  {
    if batch == [] then []
    else
      var front, cmd := batch[..|batch| - 1], batch[|batch| - 1];
      if cmd.num <= Newest(lastSeq, front) then Fresh(lastSeq, front)
      else Fresh(lastSeq, front) + [cmd]
  }

  lemma {:induction false} SimulateAllAppend<S, C>(rules: Rules<S, C>, s: ServerSim<S, C>,
                                                   a: seq<InputCmd<C>>, b: seq<InputCmd<C>>)
    ensures SimulateAll(rules, s, a + b) == SimulateAll(rules, SimulateAll(rules, s, a), b)
    decreases |b|
  {
    if b == [] {
      assert a + b == a;
    } else {
      var front := b[..|b| - 1];
      assert (a + b)[..|a + b| - 1] == a + front;
      SimulateAllAppend(rules, s, a, front);
    }
  }

  class ServerPlayer<S, C> {
    const rules: Rules<S, C>
    var move: S
    var lastSeq: nat
    var look: Option<C>
    var inputDriven: bool

    constructor (rules: Rules<S, C>, spawn: S)
      ensures this.rules == rules && State() == ServerSim(spawn, 0, None) && !inputDriven
    {
      this.rules, move, lastSeq, look, inputDriven := rules, spawn, 0, None, false;
    }

    function State(): ServerSim<S, C>
      reads this
    {
      ServerSim(move, lastSeq, look)
    }

    /** Any batch, from any client: only commands newer than everything seen so
        far have an effect, each exactly once and in order. */
    method HandleInputBatch(cmds: seq<InputCmd<C>>)
      modifies this
      ensures State() == SimulateAll(rules, old(State()), Fresh(old(lastSeq), cmds))
      ensures lastSeq == Newest(old(lastSeq), cmds)
      ensures inputDriven
    {
      for i := 0 to |cmds|
        invariant State() == SimulateAll(rules, old(State()), Fresh(old(lastSeq), cmds[..i]))
        invariant lastSeq == Newest(old(lastSeq), cmds[..i])
      {
        var cmd := cmds[i];
        assert cmds[..i + 1][..i] == cmds[..i];
        ghost var done := Fresh(old(lastSeq), cmds[..i]);
        assert (done + [cmd])[..|done|] == done;
        if cmd.num <= lastSeq {
          continue;  // already simulated
        }
        var effective := cmd.controls;
        var result := rules.hook(cmd);
        if result.Veto? {
          lastSeq := cmd.num;
          continue;
        }
        if result.Replace? {
          effective := result.controls;
        }
        if rules.loaded(move) {
          move := rules.step(move, effective);
        }
        lastSeq := cmd.num;
        look := Some(effective);
      }
      assert cmds[..|cmds|] == cmds;
      inputDriven := true;
    }

    /** The player's own part of a snapshot. */
    method Report() returns (snap: Option<Snapshot<S>>)
      ensures snap == LocalState(rules, State(), inputDriven)
    {
      snap := None;
      if inputDriven {
        snap := Some(Snapshot(rules.narrow(move), lastSeq));
      }
    }
  }

  // ---------------------------------------------------------------- client

  /** The client's prediction: the predicted state and the commands it still
      resends because no snapshot has acknowledged them. */
  datatype ClientSim<+S, +C> = ClientSim(predicted: S, history: seq<InputCmd<C>>, lastAcked: nat)

  function Replay<S, C>(rules: Rules<S, C>, s: S, cmds: seq<InputCmd<C>>): S {
    if cmds == [] then s
    else rules.step(Replay(rules, s, cmds[..|cmds| - 1]), cmds[|cmds| - 1].controls)
  }

  /** Like Replay, but standing still wherever the ground is not loaded. */
  function March<S, C>(rules: Rules<S, C>, s: S, cmds: seq<InputCmd<C>>): S {
    if cmds == [] then s
    else
      var before := March(rules, s, cmds[..|cmds| - 1]);
      if rules.loaded(before) then rules.step(before, cmds[|cmds| - 1].controls) else before
  }

  function Unacked<C>(history: seq<InputCmd<C>>, acked: nat): seq<InputCmd<C>> {
    if history == [] then []
    else
      var front, cmd := history[..|history| - 1], history[|history| - 1];
      if cmd.num <= acked then Unacked(front, acked) else Unacked(front, acked) + [cmd]
  }

  function Pushed<S, C>(rules: Rules<S, C>, cap: nat, c: ClientSim<S, C>, cmd: InputCmd<C>): ClientSim<S, C> {
    var longer := c.history + [cmd];
    c.(predicted := if rules.loaded(c.predicted) then rules.step(c.predicted, cmd.controls) else c.predicted,
       history := if |longer| > cap then longer[|longer| - cap..] else longer)
  }

  function Reconciled<S, C>(rules: Rules<S, C>, c: ClientSim<S, C>, state: S, acked: nat): ClientSim<S, C> {
    var rest := Unacked(c.history, acked);
    ClientSim(Replay(rules, state, rest), rest, acked)
  }

  class ClientPredictor<S, C> {
    const rules: Rules<S, C>
    const cap: nat
    var joined: bool
    var predicted: S
    var history: seq<InputCmd<C>>
    var lastAcked: nat

    constructor (rules: Rules<S, C>, cap: nat, spawn: S)
      ensures this.rules == rules && this.cap == cap && !joined
      ensures State() == ClientSim(spawn, [], 0)
    {
      this.rules, this.cap, joined := rules, cap, false;
      predicted, history, lastAcked := spawn, [], 0;
    }

    function State(): ClientSim<S, C>
      reads this
    {
      ClientSim(predicted, history, lastAcked)
    }

    /** Predicts one command and returns the batch that goes on the wire, if any. */
    method PushInput(cmd: InputCmd<C>) returns (batch: Option<seq<InputCmd<C>>>)
      modifies this
      ensures joined == old(joined)
      ensures !joined ==> batch == None && State() == old(State())
      ensures joined ==> State() == Pushed(rules, cap, old(State()), cmd) && batch == Some(history)
    {
      if !joined {
        return None;
      }
      if rules.loaded(predicted) {
        predicted := rules.step(predicted, cmd.controls);
      }
      history := history + [cmd];
      ghost var longer := history;
      while |history| > cap
        invariant |history| == |longer| || |history| >= cap
        invariant |history| <= |longer| && history == longer[|longer| - |history|..]
        modifies `history
      {
        history := history[1..];
      }
      return Some(history);
    }

    /** Rewinds to the acknowledged state and replays what the server has not seen. */
    method Reconcile(state: S, acked: nat)
      modifies this
      ensures joined == old(joined)
      ensures State() == Reconciled(rules, old(State()), state, acked)
    {
      lastAcked := acked;
      predicted := state;
      var kept: seq<InputCmd<C>> := [];
      for i := 0 to |history|
        invariant kept == Unacked(history[..i], acked)
        modifies {}
      {
        assert history[..i + 1][..i] == history[..i];
        if history[i].num > acked {
          kept := kept + [history[i]];
        }
      }
      assert history[..|history|] == history;
      history := kept;
      for i := 0 to |history|
        invariant predicted == Replay(rules, state, history[..i])
        modifies `predicted
      {
        assert history[..i + 1][..i] == history[..i];
        predicted := rules.step(predicted, history[i].controls);
      }
      assert history[..|history|] == history;
    }

    /** A snapshot without local state moves nobody. */
    method OnSnapshot(local: Option<Snapshot<S>>)
      modifies this
      ensures joined == old(joined)
      ensures State() == if local == None then old(State()) else Reconciled(rules, old(State()), local.value.state, local.value.acked)
    {
      if local.Some? {
        Reconcile(local.value.state, local.value.acked);
      }
    }
  }

  // ------------------------------------------- the two peers and the network

  /** Both peers, every batch ever put on the wire, the snapshots in flight that
      carry local state, and two histories kept for the proofs: the controls the
      client pushed and the commands the server took. */
  datatype Net<S, C(==)> = Net(
    server: ServerSim<S, C>,
    driven: bool,
    client: ClientSim<S, C>,
    sent: set<seq<InputCmd<C>>>,
    snapshots: seq<Snapshot<S>>,
    pushed: seq<C>,
    log: seq<InputCmd<C>>)

  /** A batch may be delivered at any later time, any number of times or never:
      loss, duplication and reordering. Snapshots may be lost, not reordered. */
  datatype Action<C> =
    | Push(controls: C)
    | Deliver(batch: seq<InputCmd<C>>)
    | Broadcast
    | Receive
    | Lose(index: nat)

  ghost function Start<S, C>(spawn: S): Net<S, C> {
    Net(ServerSim(spawn, 0, None), false, ClientSim(spawn, [], 0), {}, [], [], [])
  }

  ghost function Act<S, C>(rules: Rules<S, C>, cap: nat, n: Net<S, C>, a: Action<C>): Net<S, C> {
    match a
    case Push(controls) =>
      var client := Pushed(rules, cap, n.client, InputCmd(|n.pushed| + 1, controls));
      n.(client := client, sent := n.sent + {client.history}, pushed := n.pushed + [controls])
    case Deliver(batch) =>
      if batch !in n.sent then n
      else
        var taken := Fresh(n.server.lastSeq, batch);
        n.(server := SimulateAll(rules, n.server, taken), driven := true, log := n.log + taken)
    case Broadcast =>
      var local := LocalState(rules, n.server, n.driven);
      if local == None then n else n.(snapshots := n.snapshots + [local.value])
    case Receive =>
      if n.snapshots == [] then n
      else
        var snap := n.snapshots[0];
        n.(client := Reconciled(rules, n.client, snap.state, snap.acked), snapshots := n.snapshots[1..])
    case Lose(i) =>
      if i >= |n.snapshots| then n else n.(snapshots := n.snapshots[..i] + n.snapshots[i + 1..])
  }

  ghost function Run<S, C>(rules: Rules<S, C>, cap: nat, spawn: S, acts: seq<Action<C>>): Net<S, C> {
    if acts == [] then Start(spawn)
    else Act(rules, cap, Run(rules, cap, spawn, acts[..|acts| - 1]), acts[|acts| - 1])
  }

  // --------------------------------------------------- ranges of commands

  /** Commands number lo+1 to hi, as the client numbered them. */
  function Range<C>(pushed: seq<C>, lo: nat, hi: nat): (r: seq<InputCmd<C>>)
    requires hi <= |pushed|
    ensures |r| == if lo <= hi then hi - lo else 0
  {
    if lo < hi then Range(pushed, lo, hi - 1) + [InputCmd(hi, pushed[hi - 1])] else []
  }

  function Max(a: int, b: int): int {
    if a < b then b else a
  }

  lemma {:induction false} RangeElements<C>(pushed: seq<C>, lo: nat, hi: nat)
    requires hi <= |pushed|
    ensures forall i :: 0 <= i < |Range(pushed, lo, hi)| ==>
              Range(pushed, lo, hi)[i] == InputCmd(lo + i + 1, pushed[lo + i])
    decreases hi
  {
    if lo < hi {
      RangeElements(pushed, lo, hi - 1);
    }
  }

  lemma {:induction false} RangeGrow<C>(pushed: seq<C>, c: C, lo: nat, hi: nat)
    requires hi <= |pushed|
    ensures Range(pushed + [c], lo, hi) == Range(pushed, lo, hi)
    decreases hi
  {
    if lo < hi {
      RangeGrow(pushed, c, lo, hi - 1);
    }
  }

  lemma {:induction false} RangeConcat<C>(pushed: seq<C>, lo: nat, mid: nat, hi: nat)
    requires lo <= mid <= hi <= |pushed|
    ensures Range(pushed, lo, mid) + Range(pushed, mid, hi) == Range(pushed, lo, hi)
    decreases hi
  {
    if mid < hi {
      RangeConcat(pushed, lo, mid, hi - 1);
      assert Range(pushed, lo, mid) + (Range(pushed, mid, hi - 1) + [InputCmd(hi, pushed[hi - 1])])
          == (Range(pushed, lo, mid) + Range(pushed, mid, hi - 1)) + [InputCmd(hi, pushed[hi - 1])];
    } else {
      assert Range(pushed, lo, mid) + [] == Range(pushed, lo, mid);
    }
  }

  lemma RangeFront<C>(pushed: seq<C>, lo: nat, hi: nat)
    requires lo < hi <= |pushed|
    ensures var r := Range(pushed, lo, hi);
            r[..|r| - 1] == Range(pushed, lo, hi - 1) && r[|r| - 1] == InputCmd(hi, pushed[hi - 1])
  {
  }

  lemma {:induction false} UnackedRange<C>(pushed: seq<C>, lo: nat, hi: nat, acked: nat)
    requires lo <= hi <= |pushed|
    ensures Unacked(Range(pushed, lo, hi), acked) == Range(pushed, Max(lo, acked), hi)
    decreases hi
  {
    if lo < hi {
      RangeFront(pushed, lo, hi);
      UnackedRange(pushed, lo, hi - 1, acked);
    }
  }

  lemma NewestLast<C>(lastSeq: nat, batch: seq<InputCmd<C>>)
    requires batch != []
    ensures var front, cmd := batch[..|batch| - 1], batch[|batch| - 1];
            Newest(lastSeq, batch) == (if cmd.num <= Newest(lastSeq, front) then Newest(lastSeq, front) else cmd.num) &&
            Fresh(lastSeq, batch) == Fresh(lastSeq, front) + if cmd.num <= Newest(lastSeq, front) then [] else [cmd]
  {
    assert Fresh(lastSeq, batch[..|batch| - 1]) + [] == Fresh(lastSeq, batch[..|batch| - 1]);
  }

  lemma RangeStep<C>(pushed: seq<C>, lo: nat, hi: nat)
    requires 0 < hi <= |pushed|
    ensures lo < hi ==> Range(pushed, lo, hi) == Range(pushed, lo, hi - 1) + [InputCmd(hi, pushed[hi - 1])]
    ensures lo >= hi ==> Range(pushed, lo, hi) == Range(pushed, lo, hi - 1) == []
  {
  }

  lemma {:induction false} FreshRange<C>(pushed: seq<C>, lastSeq: nat, lo: nat, hi: nat)
    requires lo <= hi <= |pushed|
    ensures Newest(lastSeq, Range(pushed, lo, hi)) == if lo < hi then Max(lastSeq, hi) else lastSeq
    ensures Fresh(lastSeq, Range(pushed, lo, hi)) == Range(pushed, Max(lo, lastSeq), hi)
    decreases hi
  {
    if lo < hi {
      RangeFront(pushed, lo, hi);
      FreshRange(pushed, lastSeq, lo, hi - 1);
      NewestLast(lastSeq, Range(pushed, lo, hi));
      RangeStep(pushed, Max(lo, lastSeq), hi);
      hide Newest, Fresh, Range;
      if hi <= lastSeq {
        assert Range(pushed, Max(lo, lastSeq), hi - 1) + [] == Range(pushed, Max(lo, lastSeq), hi);
      }
    }
  }

  lemma {:induction false} SimulatedSeq<S, C>(rules: Rules<S, C>, s: ServerSim<S, C>, batch: seq<InputCmd<C>>)
    ensures SimulateAll(rules, s, Fresh(s.lastSeq, batch)).lastSeq == Newest(s.lastSeq, batch)
    decreases |batch|
  {
    if batch != [] {
      var front, cmd := batch[..|batch| - 1], batch[|batch| - 1];
      SimulatedSeq(rules, s, front);
      var done := Fresh(s.lastSeq, front);
      assert (done + [cmd])[..|done|] == done;
    }
  }

  // ------------------------------------------------------------ invariants

  ghost predicate Increasing<C>(log: seq<InputCmd<C>>) {
    forall i, j :: 0 <= i < j < |log| ==> log[i].num < log[j].num
  }

  /** Every logged command is the one the client pushed under that number. */
  ghost predicate Genuine<C>(pushed: seq<C>, log: seq<InputCmd<C>>) {
    forall i :: 0 <= i < |log| ==> 1 <= log[i].num <= |pushed| && log[i].controls == pushed[log[i].num - 1]
  }

  ghost predicate IsRange<C>(pushed: seq<C>, batch: seq<InputCmd<C>>, lo: nat, hi: nat) {
    lo <= hi <= |pushed| && batch == Range(pushed, lo, hi)
  }

  /** The server took each logged command once, in order, and nothing else. */
  ghost predicate ServerConsistent<S, C>(rules: Rules<S, C>, spawn: S, server: ServerSim<S, C>,
                                         pushed: seq<C>, log: seq<InputCmd<C>>) {
    && Increasing(log) && Genuine(pushed, log)
    && (forall i :: 0 <= i < |log| ==> log[i].num <= server.lastSeq)
    && server == SimulateAll(rules, ServerSim(spawn, 0, None), log)
  }

  ghost predicate ClientConsistent<S, C>(cap: nat, client: ClientSim<S, C>, pushed: seq<C>) {
    && client.lastAcked <= |pushed|
    && client.history == Range(pushed, Max(client.lastAcked, |pushed| - cap), |pushed|)
  }

  ghost predicate SentConsistent<C>(pushed: seq<C>, sent: set<seq<InputCmd<C>>>) {
    forall b :: b in sent ==> exists lo, hi :: IsRange(pushed, b, lo, hi)
  }

  /** Snapshots in flight acknowledge ever newer commands. */
  ghost predicate SnapshotsOrdered<S>(snapshots: seq<Snapshot<S>>, lo: nat, hi: nat) {
    && lo <= hi
    && (forall i :: 0 <= i < |snapshots| ==> lo <= snapshots[i].acked <= hi)
    && (forall i, j :: 0 <= i < j < |snapshots| ==> snapshots[i].acked <= snapshots[j].acked)
  }

  ghost predicate Consistent<S, C>(rules: Rules<S, C>, cap: nat, spawn: S, n: Net<S, C>) {
    && ServerConsistent(rules, spawn, n.server, n.pushed, n.log)
    && n.server.lastSeq <= |n.pushed|
    && ClientConsistent(cap, n.client, n.pushed)
    && SentConsistent(n.pushed, n.sent)
    && SnapshotsOrdered(n.snapshots, n.client.lastAcked, n.server.lastSeq)
  }

  lemma PushKeepsClient<S, C>(rules: Rules<S, C>, cap: nat, client: ClientSim<S, C>, pushed: seq<C>, controls: C)
    requires cap >= 1 && ClientConsistent(cap, client, pushed)
    ensures ClientConsistent(cap, Pushed(rules, cap, client, InputCmd(|pushed| + 1, controls)), pushed + [controls])
  {
    var lo, hi, longer := Max(client.lastAcked, |pushed| - cap), |pushed| + 1, pushed + [controls];
    RangeGrow(pushed, controls, lo, |pushed|);
    var drop := Max(0, hi - lo - cap);
    assert Pushed(rules, cap, client, InputCmd(hi, controls)).history == Range(longer, lo, hi)[drop..];
    RangeConcat(longer, lo, lo + drop, hi);
  }

  lemma PushKeepsServer<S, C>(rules: Rules<S, C>, spawn: S, server: ServerSim<S, C>, pushed: seq<C>,
                              log: seq<InputCmd<C>>, controls: C)
    requires ServerConsistent(rules, spawn, server, pushed, log)
    ensures ServerConsistent(rules, spawn, server, pushed + [controls], log)
  {
  }

  lemma PushKeepsSent<C>(pushed: seq<C>, sent: set<seq<InputCmd<C>>>, batch: seq<InputCmd<C>>, lo: nat, controls: C)
    requires SentConsistent(pushed, sent) && IsRange(pushed + [controls], batch, lo, |pushed| + 1)
    ensures SentConsistent(pushed + [controls], sent + {batch})
  {
    var longer := pushed + [controls];
    forall b | b in sent
      ensures exists lo, hi :: IsRange(longer, b, lo, hi)
    {
      var lo: nat, hi: nat :| IsRange(pushed, b, lo, hi);
      RangeGrow(pushed, controls, lo, hi);
      assert IsRange(longer, b, lo, hi);
    }
  }

  lemma IncreasingSnoc<C>(log: seq<InputCmd<C>>, cmd: InputCmd<C>)
    requires Increasing(log) && forall c :: c in log ==> c.num < cmd.num
    ensures Increasing(log + [cmd])
  {
    forall i, j | 0 <= i < j < |log + [cmd]|
      ensures (log + [cmd])[i].num < (log + [cmd])[j].num
    {
      assert log[i] in log;
    }
  }

  /** Of any batch at all, what the server takes is newer than all before it
      and strictly increasing. */
  lemma {:induction false} FreshIncreasing<C>(lastSeq: nat, batch: seq<InputCmd<C>>)
    ensures Increasing(Fresh(lastSeq, batch))
    ensures forall c :: c in Fresh(lastSeq, batch) ==> c in batch && lastSeq < c.num <= Newest(lastSeq, batch)
    decreases |batch|
  {
    if batch != [] {
      var front, cmd := batch[..|batch| - 1], batch[|batch| - 1];
      FreshIncreasing(lastSeq, front);
      NewestLast(lastSeq, batch);
      hide Newest, Fresh, Increasing;
      assert batch == front + [cmd];
      if cmd.num <= Newest(lastSeq, front) {
        assert Fresh(lastSeq, front) + [] == Fresh(lastSeq, front);
      } else {
        IncreasingSnoc(Fresh(lastSeq, front), cmd);
      }
    }
  }

  lemma ServerTakes<S, C>(rules: Rules<S, C>, spawn: S, server: ServerSim<S, C>, pushed: seq<C>,
                          log: seq<InputCmd<C>>, taken: seq<InputCmd<C>>, after: ServerSim<S, C>)
    requires ServerConsistent(rules, spawn, server, pushed, log)
    requires Increasing(taken) && Genuine(pushed, taken)
    requires forall c :: c in taken ==> server.lastSeq < c.num <= after.lastSeq
    requires after == SimulateAll(rules, server, taken)
    requires server.lastSeq <= after.lastSeq
    ensures ServerConsistent(rules, spawn, after, pushed, log + taken)
  {
    hide SimulateAll;
    SimulateAllAppend(rules, ServerSim(spawn, 0, None), log, taken);
    assert forall i :: 0 <= i < |taken| ==> taken[i] in taken;
  }

  lemma DeliverKeepsServer<S, C>(rules: Rules<S, C>, spawn: S, server: ServerSim<S, C>, pushed: seq<C>,
                                 log: seq<InputCmd<C>>, batch: seq<InputCmd<C>>, lo: nat, hi: nat)
    requires ServerConsistent(rules, spawn, server, pushed, log) && server.lastSeq <= |pushed| && IsRange(pushed, batch, lo, hi)
    ensures
      var taken := Fresh(server.lastSeq, batch);
      var after := SimulateAll(rules, server, taken);
      ServerConsistent(rules, spawn, after, pushed, log + taken) && server.lastSeq <= after.lastSeq <= |pushed|
  {
    hide ServerConsistent, SimulateAll, Fresh, Newest;
    RangeElements(pushed, lo, hi);
    FreshRange(pushed, server.lastSeq, lo, hi);
    SimulatedSeq(rules, server, batch);
    FreshIncreasing(server.lastSeq, batch);
    var taken := Fresh(server.lastSeq, batch);
    forall i | 0 <= i < |taken|
      ensures 1 <= taken[i].num <= |pushed| && taken[i].controls == pushed[taken[i].num - 1]
    {
      assert taken[i] in batch;
    }
    ServerTakes(rules, spawn, server, pushed, log, taken, SimulateAll(rules, server, taken));
  }

  lemma SnapshotsWithout<S>(snapshots: seq<Snapshot<S>>, lo: nat, hi: nat, i: nat)
    requires SnapshotsOrdered(snapshots, lo, hi) && i < |snapshots|
    ensures SnapshotsOrdered(snapshots[..i] + snapshots[i + 1..], lo, hi)
    ensures i == 0 ==> SnapshotsOrdered(snapshots[1..], snapshots[0].acked, hi)
  {
  }

  lemma PushConsistent<S, C>(rules: Rules<S, C>, cap: nat, spawn: S, n: Net<S, C>, controls: C)
    requires cap >= 1 && Consistent(rules, cap, spawn, n)
    ensures Consistent(rules, cap, spawn, Act(rules, cap, n, Push(controls)))
  {
    hide ServerConsistent, SentConsistent;
    var m := Act(rules, cap, n, Push(controls));
    PushKeepsClient(rules, cap, n.client, n.pushed, controls);
    PushKeepsSent(n.pushed, n.sent, m.client.history, Max(n.client.lastAcked, |m.pushed| - cap), controls);
    PushKeepsServer(rules, spawn, n.server, n.pushed, n.log, controls);
  }

  lemma DeliverConsistent<S, C>(rules: Rules<S, C>, cap: nat, spawn: S, n: Net<S, C>, batch: seq<InputCmd<C>>)
    requires Consistent(rules, cap, spawn, n)
    ensures Consistent(rules, cap, spawn, Act(rules, cap, n, Deliver(batch)))
  {
    hide ServerConsistent, ClientConsistent;
    if batch in n.sent {
      var lo, hi :| IsRange(n.pushed, batch, lo, hi);
      DeliverKeepsServer(rules, spawn, n.server, n.pushed, n.log, batch, lo, hi);
    }
  }

  lemma SnapshotConsistent<S, C>(rules: Rules<S, C>, cap: nat, spawn: S, n: Net<S, C>, a: Action<C>)
    requires Consistent(rules, cap, spawn, n) && (a.Broadcast? || a.Lose?)
    ensures Consistent(rules, cap, spawn, Act(rules, cap, n, a))
  {
    hide ServerConsistent, SentConsistent, ClientConsistent;
    if a.Lose? && a.index < |n.snapshots| {
      SnapshotsWithout(n.snapshots, n.client.lastAcked, n.server.lastSeq, a.index);
    }
  }

  lemma ReceiveConsistent<S, C>(rules: Rules<S, C>, cap: nat, spawn: S, n: Net<S, C>)
    requires Consistent(rules, cap, spawn, n)
    ensures Consistent(rules, cap, spawn, Act(rules, cap, n, Receive))
  {
    hide ServerConsistent, SentConsistent;
    if n.snapshots != [] {
      UnackedRange(n.pushed, Max(n.client.lastAcked, |n.pushed| - cap), |n.pushed|, n.snapshots[0].acked);
      SnapshotsWithout(n.snapshots, n.client.lastAcked, n.server.lastSeq, 0);
    }
  }

  lemma ActConsistent<S, C>(rules: Rules<S, C>, cap: nat, spawn: S, n: Net<S, C>, a: Action<C>)
    requires cap >= 1 && Consistent(rules, cap, spawn, n)
    ensures Consistent(rules, cap, spawn, Act(rules, cap, n, a))
  {
    match a
    case Push(controls) => PushConsistent(rules, cap, spawn, n, controls);
    case Deliver(batch) => DeliverConsistent(rules, cap, spawn, n, batch);
    case Receive => ReceiveConsistent(rules, cap, spawn, n);
    case _ => SnapshotConsistent(rules, cap, spawn, n, a);
  }

  lemma {:induction false} RunConsistent<S, C>(rules: Rules<S, C>, cap: nat, spawn: S, acts: seq<Action<C>>)
    requires cap >= 1
    ensures Consistent(rules, cap, spawn, Run(rules, cap, spawn, acts))
  {
    if acts != [] {
      RunConsistent(rules, cap, spawn, acts[..|acts| - 1]);
      ActConsistent(rules, cap, spawn, Run(rules, cap, spawn, acts[..|acts| - 1]), acts[|acts| - 1]);
    }
  }

  lemma RunStep<S, C>(rules: Rules<S, C>, cap: nat, spawn: S, acts: seq<Action<C>>, a: Action<C>)
    ensures Run(rules, cap, spawn, acts + [a]) == Act(rules, cap, Run(rules, cap, spawn, acts), a)
  {
    assert (acts + [a])[..|acts|] == acts;
  }

  // -------------------------------------------------------------- theorems

  // ------------------------------------------------- what the hook decides

  /** The commands that drive the player: those not vetoed, with the controls
      that the hook let stand or put in their place. */
  function Effective<S, C>(rules: Rules<S, C>, log: seq<InputCmd<C>>): seq<InputCmd<C>> {
    if log == [] then []
    else
      var front, cmd := Effective(rules, log[..|log| - 1]), log[|log| - 1];
      var answer := rules.hook(cmd);
      if answer.Veto? then front else front + [if answer.Replace? then cmd.(controls := answer.controls) else cmd]
  }

  /** For every hook: the player has marched the effective commands and looks as
      the last of them says; a vetoed command is numbered like any other. */
  lemma {:induction false} HookDecides<S, C>(rules: Rules<S, C>, s: ServerSim<S, C>, log: seq<InputCmd<C>>)
    ensures var (r, taken) := (SimulateAll(rules, s, log), Effective(rules, log));
            && r.move == March(rules, s.move, taken)
            && r.look == (if taken == [] then s.look else Some(taken[|taken| - 1].controls))
            && r.lastSeq == if log == [] then s.lastSeq else log[|log| - 1].num
    decreases |log|
  {
    if log != [] {
      HookDecides(rules, s, log[..|log| - 1]);
      var front, cmd := Effective(rules, log[..|log| - 1]), log[|log| - 1];
      MarchSnoc(rules, s.move, front, cmd);
      if rules.hook(cmd).Replace? {
        MarchSnoc(rules, s.move, front, cmd.(controls := rules.hook(cmd).controls));
      }
    }
  }

  lemma MarchSnoc<S, C>(rules: Rules<S, C>, s: S, cmds: seq<InputCmd<C>>, cmd: InputCmd<C>)
    ensures var before := March(rules, s, cmds);
            March(rules, s, cmds + [cmd]) == if rules.loaded(before) then rules.step(before, cmd.controls) else before
  {
    assert (cmds + [cmd])[..|cmds|] == cmds;
  }

  lemma {:induction false} NothingEffective<S, C>(rules: Rules<S, C>, log: seq<InputCmd<C>>)
    ensures Effective(rules, log) == [] <==> forall c :: c in log ==> rules.hook(c).Veto?
    decreases |log|
  {
    if log != [] {
      var front := log[..|log| - 1];
      NothingEffective(rules, front);
      assert log == front + [log[|log| - 1]];
    }
  }

  /** One batch, from any client: the player marches exactly the commands newer
      than all before them that the hook does not veto; all of them are used up. */
  lemma {:induction false} BatchDrives<S, C>(rules: Rules<S, C>, s: ServerSim<S, C>, batch: seq<InputCmd<C>>)
    ensures var (taken, r) := (Fresh(s.lastSeq, batch), SimulateAll(rules, s, Fresh(s.lastSeq, batch)));
            && r.move == March(rules, s.move, Effective(rules, taken))
            && r.lastSeq >= s.lastSeq && (forall c :: c in batch ==> c.num <= r.lastSeq)
            && (r.lastSeq == s.lastSeq || exists c :: c in batch && c.num == r.lastSeq)
            && ((forall c :: c in taken ==> rules.hook(c).Veto?) ==> r.move == s.move && r.look == s.look)
  {
    var taken := Fresh(s.lastSeq, batch);
    HookDecides(rules, s, taken);
    NothingEffective(rules, taken);
    SimulatedSeq(rules, s, batch);
    NewestOfAll(s.lastSeq, batch);
  }

  lemma {:induction false} NewestOfAll<C>(lastSeq: nat, batch: seq<InputCmd<C>>)
    ensures forall c :: c in batch ==> c.num <= Newest(lastSeq, batch)
    ensures Newest(lastSeq, batch) == lastSeq || exists c :: c in batch && c.num == Newest(lastSeq, batch)
    decreases |batch|
  {
    if batch != [] {
      var front, cmd := batch[..|batch| - 1], batch[|batch| - 1];
      NewestOfAll(lastSeq, front);
      assert batch == front + [cmd];
    }
  }

  /** What is taken of a batch: the commands above the last one taken and above
      every command before them in the batch. */
  lemma {:induction false} FreshIff<C>(lastSeq: nat, batch: seq<InputCmd<C>>, cmd: InputCmd<C>)
    ensures cmd in Fresh(lastSeq, batch) <==>
            exists i :: 0 <= i < |batch| && batch[i] == cmd && cmd.num > lastSeq && forall j :: 0 <= j < i ==> batch[j].num < cmd.num
    decreases |batch|
  {
    if batch != [] {
      var front, last := batch[..|batch| - 1], batch[|batch| - 1];
      FreshIff(lastSeq, front, cmd);
      NewestOfAll(lastSeq, front);
      NewestLast(lastSeq, batch);
      assert batch == front + [last];
      hide Fresh, Newest;
      if cmd in Fresh(lastSeq, front) {
        var i :| 0 <= i < |front| && front[i] == cmd && cmd.num > lastSeq && forall j :: 0 <= j < i ==> front[j].num < cmd.num;
        assert batch[i] == cmd;
      }
      if last.num > Newest(lastSeq, front) && cmd == last {
        assert forall j :: 0 <= j < |front| ==> batch[j] in front;
        assert batch[|front|] == cmd;
      }
      if i :| 0 <= i < |batch| && batch[i] == cmd && cmd.num > lastSeq && forall j :: 0 <= j < i ==> batch[j].num < cmd.num {
        FreshOnlyIf(lastSeq, front, last, cmd, i);
      }
    }
  }

  lemma FreshOnlyIf<C>(lastSeq: nat, front: seq<InputCmd<C>>, last: InputCmd<C>, cmd: InputCmd<C>, i: nat)
    requires i <= |front| && (front + [last])[i] == cmd && cmd.num > lastSeq
    requires forall j :: 0 <= j < i ==> (front + [last])[j].num < cmd.num
    ensures if i < |front| then front[i] == cmd && forall j :: 0 <= j < i ==> front[j].num < cmd.num
            else cmd == last && cmd.num > Newest(lastSeq, front)
  {
    if i < |front| {
      forall j | 0 <= j < i
        ensures front[j].num < cmd.num
      {
        assert (front + [last])[j] == front[j];
      }
    } else {
      NewestOfAll(lastSeq, front);
      if Newest(lastSeq, front) > lastSeq {
        var c :| c in front && c.num == Newest(lastSeq, front);
        var j :| 0 <= j < |front| && front[j] == c;
        assert (front + [last])[j] == c;
      }
    }
  }

  /** Whatever the network loses, repeats or reorders, the server takes each
      command at most once, in the order and with the controls the client
      pushed, and its state is the replay of exactly those. */
  lemma AtMostOnce<S, C>(rules: Rules<S, C>, cap: nat, spawn: S, acts: seq<Action<C>>)
    requires cap >= 1
    ensures
      var n := Run(rules, cap, spawn, acts);
      && Increasing(n.log) && Genuine(n.pushed, n.log)
      && n.server == SimulateAll(rules, ServerSim(spawn, 0, None), n.log)
      && n.server.move == March(rules, spawn, Effective(rules, n.log))
  {
    RunConsistent(rules, cap, spawn, acts);
    HookDecides(rules, ServerSim(spawn, 0, None), Run(rules, cap, spawn, acts).log);
  }

  /** A report of the player as it was after the first k commands taken. */
  predicate ReportsAt<S(==), C>(rules: Rules<S, C>, spawn: S, log: seq<InputCmd<C>>, snap: Snapshot<S>, k: nat) {
    && k <= |log|
    && snap.state == rules.narrow(March(rules, spawn, Effective(rules, log[..k])))
    && snap.acked == if k == 0 then 0 else log[k - 1].num
  }

  ghost predicate Reports<S, C>(rules: Rules<S, C>, spawn: S, log: seq<InputCmd<C>>, snap: Snapshot<S>) {
    exists k: nat :: ReportsAt(rules, spawn, log, snap, k)
  }

  lemma ReportsLater<S, C>(rules: Rules<S, C>, spawn: S, log: seq<InputCmd<C>>, more: seq<InputCmd<C>>, snap: Snapshot<S>)
    requires Reports(rules, spawn, log, snap)
    ensures Reports(rules, spawn, log + more, snap)
  {
    var k: nat :| ReportsAt(rules, spawn, log, snap, k);
    assert (log + more)[..k] == log[..k];
    assert ReportsAt(rules, spawn, log + more, snap, k);
  }

  ghost predicate AllReport<S, C>(rules: Rules<S, C>, spawn: S, log: seq<InputCmd<C>>, snapshots: seq<Snapshot<S>>) {
    forall i :: 0 <= i < |snapshots| ==> Reports(rules, spawn, log, snapshots[i])
  }

  lemma AllReportLater<S, C>(rules: Rules<S, C>, spawn: S, log: seq<InputCmd<C>>, more: seq<InputCmd<C>>, snapshots: seq<Snapshot<S>>)
    requires AllReport(rules, spawn, log, snapshots)
    ensures AllReport(rules, spawn, log + more, snapshots)
  {
    hide Reports;
    forall i | 0 <= i < |snapshots|
      ensures Reports(rules, spawn, log + more, snapshots[i])
    {
      ReportsLater(rules, spawn, log, more, snapshots[i]);
    }
  }

  lemma ActsReport<S, C>(rules: Rules<S, C>, cap: nat, spawn: S, n: Net<S, C>, a: Action<C>)
    requires AllReport(rules, spawn, n.log, n.snapshots)
    requires Reports(rules, spawn, n.log, Snapshot(rules.narrow(n.server.move), n.server.lastSeq))
    ensures var m := Act(rules, cap, n, a); AllReport(rules, spawn, m.log, m.snapshots)
  {
    hide Reports, SimulateAll, Fresh, Reconciled, Pushed;
    if a.Deliver? && a.batch in n.sent {
      AllReportLater(rules, spawn, n.log, Fresh(n.server.lastSeq, a.batch), n.snapshots);
    }
  }

  /** In every run each snapshot carries the player as it was, narrowed, together
      with the newest command it had taken then. */
  lemma {:induction false} SnapshotsReport<S, C>(rules: Rules<S, C>, cap: nat, spawn: S, acts: seq<Action<C>>)
    requires cap >= 1
    ensures var n := Run(rules, cap, spawn, acts); AllReport(rules, spawn, n.log, n.snapshots)
    decreases |acts|
  {
    hide AllReport, Act;
    if acts == [] {
      NothingToReport(rules, spawn);
    } else {
      var front, a := acts[..|acts| - 1], acts[|acts| - 1];
      SnapshotsReport(rules, cap, spawn, front);
      NewReport(rules, cap, spawn, front);
      ActsReport(rules, cap, spawn, Run(rules, cap, spawn, front), a);
    }
  }

  lemma NothingToReport<S, C>(rules: Rules<S, C>, spawn: S)
    ensures AllReport<S, C>(rules, spawn, [], [])
  {
  }

  lemma NewReport<S, C>(rules: Rules<S, C>, cap: nat, spawn: S, acts: seq<Action<C>>)
    requires cap >= 1
    ensures var n := Run(rules, cap, spawn, acts);
            Reports(rules, spawn, n.log, Snapshot(rules.narrow(n.server.move), n.server.lastSeq))
  {
    hide Run, March, Effective, SimulateAll;
    AtMostOnce(rules, cap, spawn, acts);
    var n := Run(rules, cap, spawn, acts);
    HookDecides(rules, ServerSim(spawn, 0, None), n.log);
    assert n.log[..|n.log|] == n.log;
    assert ReportsAt(rules, spawn, n.log, Snapshot(rules.narrow(n.server.move), n.server.lastSeq), |n.log|);
  }

  /** After a snapshot the prediction is the snapshot's state advanced by
      exactly the commands it does not acknowledge (the newest `cap` of them). */
  lemma {:induction false} ReconcileReplaysUnacked<S, C>(rules: Rules<S, C>, cap: nat, spawn: S, acts: seq<Action<C>>)
    requires cap >= 1 && Run(rules, cap, spawn, acts).snapshots != []
    ensures
      var n := Run(rules, cap, spawn, acts);
      var snap := n.snapshots[0];
      var m := Act(rules, cap, n, Receive);
      && snap.acked <= |n.pushed|
      && m.client.history == Range(n.pushed, Max(snap.acked, |n.pushed| - cap), |n.pushed|)
      && m.client.predicted == Replay(rules, snap.state, m.client.history)
  {
    hide Run, Replay, Range, ClientConsistent;
    var n := Run(rules, cap, spawn, acts);
    RunClientConsistent(rules, cap, spawn, acts);
    var snap := n.snapshots[0];
    ReceiveReplays(rules, cap, n.client, n.pushed, snap.state, snap.acked);
  }

  lemma RunClientConsistent<S, C>(rules: Rules<S, C>, cap: nat, spawn: S, acts: seq<Action<C>>)
    requires cap >= 1
    ensures
      var n := Run(rules, cap, spawn, acts);
      && ClientConsistent(cap, n.client, n.pushed)
      && SnapshotsOrdered(n.snapshots, n.client.lastAcked, n.server.lastSeq)
      && n.server.lastSeq <= |n.pushed|
  {
    hide Run, ClientConsistent, ServerConsistent, SentConsistent, SnapshotsOrdered;
    RunConsistent(rules, cap, spawn, acts);
  }

  lemma ReceiveReplays<S, C>(rules: Rules<S, C>, cap: nat, client: ClientSim<S, C>, pushed: seq<C>, state: S, acked: nat)
    requires ClientConsistent(cap, client, pushed) && client.lastAcked <= acked <= |pushed|
    ensures
      var m := Reconciled(rules, client, state, acked);
      && m.history == Range(pushed, Max(acked, |pushed| - cap), |pushed|)
      && m.predicted == Replay(rules, state, m.history)
  {
    hide Replay, Range, Unacked;
    UnackedRange(pushed, Max(client.lastAcked, |pushed| - cap), |pushed|, acked);
  }

  /** No hook interferes and a snapshot carries the state without loss. */
  ghost predicate Plain<S(!new), C(!new)>(rules: Rules<S, C>) {
    (forall c :: rules.hook(c) == Pass) && (forall s :: rules.narrow(s) == s)
  }

  /** Replaying `cmds` from `s` only ever stands on loaded ground. */
  ghost predicate GroundLoaded<S, C>(rules: Rules<S, C>, s: S, cmds: seq<InputCmd<C>>) {
    cmds == [] ||
    (GroundLoaded(rules, s, cmds[..|cmds| - 1]) && rules.loaded(Replay(rules, s, cmds[..|cmds| - 1])))
  }

  /** At most `cap` commands await acknowledgement, and the next snapshot, if
      any, will be replayed over loaded ground. */
  ghost predicate Gentle<S, C>(rules: Rules<S, C>, cap: nat, n: Net<S, C>) {
    && |n.pushed| - n.client.lastAcked <= cap
    && (n.snapshots != [] ==> GroundLoaded(rules, n.snapshots[0].state, Unacked(n.client.history, n.snapshots[0].acked)))
  }

  lemma {:induction false} ReplayIsMarch<S, C>(rules: Rules<S, C>, s: S, cmds: seq<InputCmd<C>>)
    requires GroundLoaded(rules, s, cmds)
    ensures Replay(rules, s, cmds) == March(rules, s, cmds)
    decreases |cmds|
  {
    if cmds != [] {
      ReplayIsMarch(rules, s, cmds[..|cmds| - 1]);
    }
  }

  lemma {:induction false} MarchRange<S, C>(rules: Rules<S, C>, s: S, pushed: seq<C>, mid: nat, hi: nat)
    requires mid <= hi <= |pushed|
    ensures March(rules, s, Range(pushed, 0, hi)) == March(rules, March(rules, s, Range(pushed, 0, mid)), Range(pushed, mid, hi))
    decreases hi
  {
    if mid < hi {
      MarchRange(rules, s, pushed, mid, hi - 1);
      RangeFront(pushed, 0, hi);
      RangeFront(pushed, mid, hi);
    }
  }

  lemma {:induction false} SimulateIsMarch<S(!new), C(!new)>(rules: Rules<S, C>, s: ServerSim<S, C>, log: seq<InputCmd<C>>)
    requires Plain(rules)
    ensures SimulateAll(rules, s, log).move == March(rules, s.move, log)
    decreases |log|
  {
    if log != [] {
      SimulateIsMarch(rules, s, log[..|log| - 1]);
    }
  }

  ghost predicate SnapshotsOnCourse<S, C>(rules: Rules<S, C>, spawn: S, pushed: seq<C>, snapshots: seq<Snapshot<S>>) {
    forall i :: 0 <= i < |snapshots| ==>
      snapshots[i].acked <= |pushed| && snapshots[i].state == March(rules, spawn, Range(pushed, 0, snapshots[i].acked))
  }

  /** No batch on the wire starts beyond what the server already took. */
  ghost predicate SentOverlaps<C>(pushed: seq<C>, sent: set<seq<InputCmd<C>>>, taken: nat) {
    forall b :: b in sent ==> exists lo: nat, hi: nat :: IsRange(pushed, b, lo, hi) && lo <= taken
  }

  /** Both peers sit on the same trajectory: the server after the commands it
      acknowledges, the client after all of them. */
  ghost predicate OnCourse<S, C>(rules: Rules<S, C>, spawn: S, n: Net<S, C>)
    requires n.server.lastSeq <= |n.pushed|
  {
    && n.log == Range(n.pushed, 0, n.server.lastSeq)
    && n.client.predicted == March(rules, spawn, Range(n.pushed, 0, |n.pushed|))
    && SnapshotsOnCourse(rules, spawn, n.pushed, n.snapshots)
    && SentOverlaps(n.pushed, n.sent, n.server.lastSeq)
  }

  lemma PushKeepsSnapshots<S, C>(rules: Rules<S, C>, spawn: S, pushed: seq<C>, snapshots: seq<Snapshot<S>>, controls: C)
    requires SnapshotsOnCourse(rules, spawn, pushed, snapshots)
    ensures SnapshotsOnCourse(rules, spawn, pushed + [controls], snapshots)
  {
    forall i | 0 <= i < |snapshots|
      ensures snapshots[i].state == March(rules, spawn, Range(pushed + [controls], 0, snapshots[i].acked))
    {
      RangeGrow(pushed, controls, 0, snapshots[i].acked);
    }
  }

  lemma PushKeepsOverlap<C>(pushed: seq<C>, sent: set<seq<InputCmd<C>>>, batch: seq<InputCmd<C>>, lo: nat, controls: C, taken: nat)
    requires SentOverlaps(pushed, sent, taken) && IsRange(pushed + [controls], batch, lo, |pushed| + 1) && lo <= taken
    ensures SentOverlaps(pushed + [controls], sent + {batch}, taken)
  {
    var longer := pushed + [controls];
    forall b | b in sent
      ensures exists lo: nat, hi: nat :: IsRange(longer, b, lo, hi) && lo <= taken
    {
      var lo: nat, hi: nat :| IsRange(pushed, b, lo, hi) && lo <= taken;
      RangeGrow(pushed, controls, lo, hi);
      assert IsRange(longer, b, lo, hi);
    }
  }

  lemma PushOnCourse<S, C>(rules: Rules<S, C>, cap: nat, spawn: S, n: Net<S, C>, controls: C)
    requires cap >= 1 && Consistent(rules, cap, spawn, n) && OnCourse(rules, spawn, n)
    requires |n.pushed| + 1 - n.client.lastAcked <= cap
    ensures OnCourse(rules, spawn, Act(rules, cap, n, Push(controls)))
  {
    hide ServerConsistent, SentConsistent, SentOverlaps, SnapshotsOnCourse;
    var m := Act(rules, cap, n, Push(controls));
    PushKeepsClient(rules, cap, n.client, n.pushed, controls);
    PushKeepsSnapshots(rules, spawn, n.pushed, n.snapshots, controls);
    PushKeepsOverlap(n.pushed, n.sent, m.client.history, n.client.lastAcked, controls, n.server.lastSeq);
    RangeGrow(n.pushed, controls, 0, n.server.lastSeq);
    PushMarches(rules, spawn, n.pushed, controls);
  }

  lemma PushMarches<S, C>(rules: Rules<S, C>, spawn: S, pushed: seq<C>, controls: C)
    ensures
      var before := March(rules, spawn, Range(pushed, 0, |pushed|));
      March(rules, spawn, Range(pushed + [controls], 0, |pushed| + 1)) ==
      if rules.loaded(before) then rules.step(before, controls) else before
  {
    RangeFront(pushed + [controls], 0, |pushed| + 1);
    RangeGrow(pushed, controls, 0, |pushed|);
  }

  lemma DeliverOnCourse<S, C>(rules: Rules<S, C>, cap: nat, spawn: S, n: Net<S, C>, batch: seq<InputCmd<C>>)
    requires Consistent(rules, cap, spawn, n) && OnCourse(rules, spawn, n) && batch in n.sent
    ensures var m := Act(rules, cap, n, Deliver(batch));
            m.server.lastSeq <= |m.pushed| && OnCourse(rules, spawn, m)
  {
    hide ServerConsistent, SentConsistent, ClientConsistent;
    var lo: nat, hi: nat :| IsRange(n.pushed, batch, lo, hi) && lo <= n.server.lastSeq;
    TakenExtends(rules, n.server, n.pushed, batch, lo, hi);
  }

  lemma TakenExtends<S, C>(rules: Rules<S, C>, server: ServerSim<S, C>, pushed: seq<C>,
                           batch: seq<InputCmd<C>>, lo: nat, hi: nat)
    requires IsRange(pushed, batch, lo, hi) && lo <= server.lastSeq <= |pushed|
    ensures
      var taken := Fresh(server.lastSeq, batch);
      var after := SimulateAll(rules, server, taken);
      && server.lastSeq <= after.lastSeq <= |pushed|
      && Range(pushed, 0, server.lastSeq) + taken == Range(pushed, 0, after.lastSeq)
  {
    FreshRange(pushed, server.lastSeq, lo, hi);
    SimulatedSeq(rules, server, batch);
    var last := SimulateAll(rules, server, Fresh(server.lastSeq, batch)).lastSeq;
    assert last == if hi <= server.lastSeq then server.lastSeq else hi;
    RangeConcat(pushed, 0, server.lastSeq, last);
  }

  lemma BroadcastOnCourse<S(!new), C(!new)>(rules: Rules<S, C>, cap: nat, spawn: S, n: Net<S, C>)
    requires Plain(rules) && Consistent(rules, cap, spawn, n) && OnCourse(rules, spawn, n)
    ensures OnCourse(rules, spawn, Act(rules, cap, n, Broadcast))
  {
    hide ClientConsistent, SentConsistent, SentOverlaps, March, SimulateAll;
    SimulateIsMarch(rules, ServerSim(spawn, 0, None), n.log);
  }

  lemma ReceiveOnCourse<S, C>(rules: Rules<S, C>, cap: nat, spawn: S, n: Net<S, C>)
    requires Consistent(rules, cap, spawn, n) && OnCourse(rules, spawn, n) && Gentle(rules, cap, n)
    ensures Act(rules, cap, n, Receive).client.predicted == n.client.predicted
    ensures OnCourse(rules, spawn, Act(rules, cap, n, Receive))
  {
    hide ServerConsistent, SentConsistent, SentOverlaps, March, Replay;
    if n.snapshots != [] {
      var snap := n.snapshots[0];
      UnackedRange(n.pushed, n.client.lastAcked, |n.pushed|, snap.acked);
      ReplayIsMarch(rules, snap.state, Unacked(n.client.history, snap.acked));
      MarchRange(rules, spawn, n.pushed, snap.acked, |n.pushed|);
    }
  }

  lemma ActOnCourse<S(!new), C(!new)>(rules: Rules<S, C>, cap: nat, spawn: S, n: Net<S, C>, a: Action<C>)
    requires cap >= 1 && Plain(rules) && Consistent(rules, cap, spawn, n) && OnCourse(rules, spawn, n)
    requires Gentle(rules, cap, n) && Gentle(rules, cap, Act(rules, cap, n, a))
    ensures var m := Act(rules, cap, n, a);
            m.server.lastSeq <= |m.pushed| && OnCourse(rules, spawn, m)
  {
    hide ServerConsistent, SentConsistent, ClientConsistent, SentOverlaps, March, GroundLoaded;
    match a
    case Push(controls) => PushOnCourse(rules, cap, spawn, n, controls);
    case Deliver(batch) => if batch in n.sent { DeliverOnCourse(rules, cap, spawn, n, batch); }
    case Broadcast => BroadcastOnCourse(rules, cap, spawn, n);
    case Receive => ReceiveOnCourse(rules, cap, spawn, n);
    case Lose(i) =>
  }

  lemma {:induction false} RunOnCourse<S(!new), C(!new)>(rules: Rules<S, C>, cap: nat, spawn: S, acts: seq<Action<C>>)
    requires cap >= 1 && Plain(rules)
    requires forall i :: 0 <= i <= |acts| ==> Gentle(rules, cap, Run(rules, cap, spawn, acts[..i]))
    ensures var n := Run(rules, cap, spawn, acts);
            Consistent(rules, cap, spawn, n) && OnCourse(rules, spawn, n)
    decreases |acts|
  {
    RunConsistent(rules, cap, spawn, acts);
    if acts != [] {
      var before, a := acts[..|acts| - 1], acts[|acts| - 1];
      forall i | 0 <= i <= |before|
        ensures Gentle(rules, cap, Run(rules, cap, spawn, before[..i]))
      {
        assert before[..i] == acts[..i];
      }
      assert Gentle(rules, cap, Run(rules, cap, spawn, acts[..|acts|])) && acts[..|acts|] == acts;
      RunOnCourse(rules, cap, spawn, before);
      var n := Run(rules, cap, spawn, before);
      assert before[..|before|] == before;
      ActOnCourse(rules, cap, spawn, n, a);
    }
  }

  /** Prediction simulates the server: with no veto, at most `cap` commands
      outstanding and loaded ground, no snapshot ever moves the player, and a
      client whose commands have all been taken agrees with the server. */
  lemma {:induction false} ReconcileIsInvisible<S(!new), C(!new)>(rules: Rules<S, C>, cap: nat, spawn: S, acts: seq<Action<C>>)
    requires cap >= 1 && Plain(rules)
    requires forall i :: 0 <= i <= |acts| ==> Gentle(rules, cap, Run(rules, cap, spawn, acts[..i]))
    ensures var n := Run(rules, cap, spawn, acts);
            Act(rules, cap, n, Receive).client.predicted == n.client.predicted
    ensures var n := Run(rules, cap, spawn, acts);
            n.server.lastSeq == |n.pushed| ==> n.client.predicted == n.server.move
  {
    RunOnCourse(rules, cap, spawn, acts);
    var n := Run(rules, cap, spawn, acts);
    assert acts[..|acts|] == acts;
    ReceiveOnCourse(rules, cap, spawn, n);
    SimulateIsMarch(rules, ServerSim(spawn, 0, None), n.log);
  }

  // --------------------------- exactly when loaded ground and the history cap matter

  /** Wherever the player would be held, the step would not have moved it either. */
  predicate HeldForNothing<S(==), C>(rules: Rules<S, C>, s: S, cmds: seq<InputCmd<C>>) {
    forall k :: 0 <= k < |cmds| ==>
      var at := March(rules, s, cmds[..k]); rules.loaded(at) || rules.step(at, cmds[k].controls) == at
  }

  predicate ReplaysAlike<S(==), C>(rules: Rules<S, C>, s: S, cmds: seq<InputCmd<C>>) {
    forall k :: 0 <= k <= |cmds| ==> Replay(rules, s, cmds[..k]) == March(rules, s, cmds[..k])
  }

  lemma MarchStep<S, C>(rules: Rules<S, C>, s: S, cmds: seq<InputCmd<C>>, k: nat)
    requires k < |cmds|
    ensures var at := March(rules, s, cmds[..k]);
            March(rules, s, cmds[..k + 1]) == if rules.loaded(at) then rules.step(at, cmds[k].controls) else at
    ensures Replay(rules, s, cmds[..k + 1]) == rules.step(Replay(rules, s, cmds[..k]), cmds[k].controls)
  {
    assert cmds[..k + 1][..k] == cmds[..k];
  }

  /** Reconcile's replay follows the marching both peers do, at every command,
      exactly if every command met on unloaded ground leaves its state alone. */
  lemma {:induction false} ReplaysAlikeIff<S, C>(rules: Rules<S, C>, s: S, cmds: seq<InputCmd<C>>)
    ensures ReplaysAlike(rules, s, cmds) <==> HeldForNothing(rules, s, cmds)
  {
    assert Replay(rules, s, cmds[..0]) == March(rules, s, cmds[..0]) == s;
    hide March, Replay;
    if ReplaysAlike(rules, s, cmds) {
      forall k | 0 <= k < |cmds|
        ensures var at := March(rules, s, cmds[..k]); rules.loaded(at) || rules.step(at, cmds[k].controls) == at
      {
        MarchStep(rules, s, cmds, k);
        assert Replay(rules, s, cmds[..k]) == March(rules, s, cmds[..k]);
        assert Replay(rules, s, cmds[..k + 1]) == March(rules, s, cmds[..k + 1]);
      }
    }
    if HeldForNothing(rules, s, cmds) {
      AlikeUpTo(rules, s, cmds, |cmds|);
    }
  }

  lemma {:induction false} AlikeUpTo<S, C>(rules: Rules<S, C>, s: S, cmds: seq<InputCmd<C>>, n: nat)
    requires n <= |cmds| && HeldForNothing(rules, s, cmds)
    ensures forall k :: 0 <= k <= n ==> Replay(rules, s, cmds[..k]) == March(rules, s, cmds[..k])
    decreases n
  {
    if n > 0 {
      AlikeUpTo(rules, s, cmds, n - 1);
      MarchStep(rules, s, cmds, n - 1);
      var at := March(rules, s, cmds[..n - 1]);
      assert rules.loaded(at) || rules.step(at, cmds[n - 1].controls) == at;
    }
  }

  lemma OneCommand<S, C>(rules: Rules<S, C>, s: S, cmd: InputCmd<C>)
    ensures Replay(rules, s, [cmd]) == rules.step(s, cmd.controls)
    ensures March(rules, s, [cmd]) == if rules.loaded(s) then rules.step(s, cmd.controls) else s
  {
    assert [cmd][..0] == [];
  }

  /** One command outstanding: a snapshot the prediction agrees with moves the
      player exactly if the ground there is missing and the command would move it. */
  lemma ReceiveMovesIff<S, C>(rules: Rules<S, C>, cap: nat, n: Net<S, C>, cmd: InputCmd<C>)
    requires n.snapshots != [] && Unacked(n.client.history, n.snapshots[0].acked) == [cmd]
    requires n.client.predicted == March(rules, n.snapshots[0].state, [cmd])
    ensures var (s, after) := (n.snapshots[0].state, Act(rules, cap, n, Receive).client.predicted);
            && after == rules.step(s, cmd.controls)
            && (after == n.client.predicted <==> rules.loaded(s) || rules.step(s, cmd.controls) == s)
  {
    hide March, Replay, Unacked;
    OneCommand(rules, n.snapshots[0].state, cmd);
  }

  /** Where the server puts the player for its first command. */
  function AfterFirst<S, C>(rules: Rules<S, C>, spawn: S, first: C): S {
    if rules.loaded(spawn) then rules.step(spawn, first) else spawn
  }

  lemma OneTaken<S, C>(rules: Rules<S, C>, server: ServerSim<S, C>, cmd: InputCmd<C>)
    requires cmd.num > server.lastSeq
    ensures Fresh(server.lastSeq, [cmd]) == [cmd] && SimulateAll(rules, server, [cmd]) == Simulate(rules, server, cmd)
  {
    hide Simulate;
    assert [cmd][..0] == [] && [] + [cmd] == [cmd];
  }

  lemma FirstTaken<S(!new), C(!new)>(rules: Rules<S, C>, server: ServerSim<S, C>, first: C)
    requires Plain(rules) && server.lastSeq == 0
    ensures var batch := [InputCmd(1, first)];
            Fresh(server.lastSeq, batch) == batch &&
            SimulateAll(rules, server, batch) == ServerSim(AfterFirst(rules, server.move, first), 1, Some(first))
  {
    hide Fresh, SimulateAll;
    OneTaken(rules, server, InputCmd(1, first));
  }

  lemma FirstPushed<S, C>(rules: Rules<S, C>, cap: nat, spawn: S, first: C)
    requires cap >= 1
    ensures var n := Run(rules, cap, spawn, [Push(first)]);
            n == Net(ServerSim(spawn, 0, None), false, ClientSim(AfterFirst(rules, spawn, first), [InputCmd(1, first)], 0),
                     {[InputCmd(1, first)]}, [], [first], [])
  {
    var push: Action<C> := Push(first);
    RunStep(rules, cap, spawn, [], push);
    assert [] + [push] == [push];
    assert [] + [InputCmd(1, first)] == [InputCmd(1, first)] && [] + [first] == [first];
  }

  /** The first command, delivered and reported back. */
  lemma FirstReported<S(!new), C(!new)>(rules: Rules<S, C>, cap: nat, spawn: S, first: C)
    requires cap >= 1 && Plain(rules)
    ensures var n := Run(rules, cap, spawn, [Push(first), Deliver([InputCmd(1, first)]), Broadcast]);
            var at := AfterFirst(rules, spawn, first);
            n == Net(ServerSim(at, 1, Some(first)), true, ClientSim(at, [InputCmd(1, first)], 0),
                     {[InputCmd(1, first)]}, [Snapshot(at, 1)], [first], [InputCmd(1, first)])
  {
    hide Fresh, SimulateAll, AfterFirst, Run, Pushed;
    var cmd := InputCmd(1, first);
    var push: Action<C>, deliver: Action<C>, broadcast: Action<C> := Push(first), Deliver([cmd]), Broadcast;
    FirstPushed(rules, cap, spawn, first);
    FirstTaken(rules, ServerSim(spawn, 0, None), first);
    RunStep(rules, cap, spawn, [push], deliver);
    RunStep(rules, cap, spawn, [push, deliver], broadcast);
    assert [push] + [deliver] == [push, deliver] && [push, deliver] + [broadcast] == [push, deliver, broadcast];
  }

  lemma UnackedSnoc<C>(history: seq<InputCmd<C>>, cmd: InputCmd<C>, acked: nat)
    ensures Unacked(history + [cmd], acked) ==
            if cmd.num <= acked then Unacked(history, acked) else Unacked(history, acked) + [cmd]
  {
    assert (history + [cmd])[..|history|] == history;
  }

  /** Whether or not the cap lets the first command stay, the second is unacknowledged. */
  lemma OneUnacked<C>(one: InputCmd<C>, two: InputCmd<C>, acked: nat)
    requires one.num <= acked < two.num
    ensures Unacked([one, two], acked) == Unacked([two], acked) == [two]
  {
    assert Unacked<C>([], acked) == [];
    hide Unacked;
    UnackedSnoc([], one, acked);
    UnackedSnoc([one], two, acked);
    UnackedSnoc([], two, acked);
    assert [] + [one] == [one] && [one] + [two] == [one, two] && [] + [two] == [two];
  }

  lemma HistoryOfTwo<S, C>(rules: Rules<S, C>, cap: nat, at: S, one: InputCmd<C>, two: InputCmd<C>)
    requires cap >= 1
    ensures var history := Pushed(rules, cap, ClientSim(at, [one], 0), two).history;
            history == [two] || history == [one, two]
  {
    assert [one] + [two] == [one, two] && [one, two][1..] == [two];
  }

  /** The next command pushed before that report is received. */
  lemma SecondPushed<S, C>(rules: Rules<S, C>, cap: nat, n: Net<S, C>, at: S, first: C, controls: C)
    requires cap >= 1 && n.client == ClientSim(at, [InputCmd(1, first)], 0) && n.pushed == [first]
    ensures var m := Act(rules, cap, n, Push(controls));
            && m.server == n.server && m.snapshots == n.snapshots && |m.pushed| == 2 && m.client.lastAcked == 0
            && m.client.predicted == March(rules, at, [InputCmd(2, controls)])
            && (rules.loaded(at) || m.client.predicted == at)
            && Unacked(m.client.history, 1) == [InputCmd(2, controls)]
  {
    hide March, Unacked;
    var one, two := InputCmd(1, first), InputCmd(2, controls);
    OneCommand(rules, at, two);
    OneUnacked(one, two, 1);
    HistoryOfTwo(rules, cap, at, one, two);
  }

  /** And that arises in a run, for every movement, spawn and pair of commands:
      a player pushes twice and then hears that the first was taken. */
  lemma FrozenPlayerDrifts<S(!new), C(!new)>(rules: Rules<S, C>, cap: nat, spawn: S, first: C, controls: C)
    requires cap >= 1 && Plain(rules)
    ensures
      var before := Run(rules, cap, spawn, [Push(first), Deliver([InputCmd(1, first)]), Broadcast, Push(controls)]);
      var at := AfterFirst(rules, spawn, first);
      && |before.pushed| - before.client.lastAcked == 2 && before.server.move == at
      && (rules.loaded(at) || before.client.predicted == at)
      && Act(rules, cap, before, Receive).client.predicted == rules.step(at, controls)
      && (Act(rules, cap, before, Receive).client.predicted == before.client.predicted <==>
          rules.loaded(at) || rules.step(at, controls) == at)
  {
    hide *;
    var three: seq<Action<C>>, push: Action<C> := [Push(first), Deliver([InputCmd(1, first)]), Broadcast], Push(controls);
    var at := AfterFirst(rules, spawn, first);
    FirstReported(rules, cap, spawn, first);
    var n := Run(rules, cap, spawn, three);
    SecondPushed(rules, cap, n, at, first, controls);
    RunStep(rules, cap, spawn, three, push);
    assert three + [push] == [Push(first), Deliver([InputCmd(1, first)]), Broadcast, Push(controls)];
    ReceiveMovesIff(rules, cap, Act(rules, cap, n, push), InputCmd(2, controls));
  }

  /** Exactly when a batch leaves a gap: a server that has taken 1..lastSeq and
      gets a numbered batch lo+1..hi with something new in it. */
  lemma NoGapIff<S, C>(rules: Rules<S, C>, server: ServerSim<S, C>, pushed: seq<C>, log: seq<InputCmd<C>>, lo: nat, hi: nat)
    requires server.lastSeq < hi <= |pushed| && lo < hi && log == Range(pushed, 0, server.lastSeq)
    ensures var taken := Fresh(server.lastSeq, Range(pushed, lo, hi));
            SimulateAll(rules, server, taken).lastSeq == hi &&
            (log + taken == Range(pushed, 0, hi) <==> lo <= server.lastSeq)
  {
    FreshRange(pushed, server.lastSeq, lo, hi);
    SimulatedSeq(rules, server, Range(pushed, lo, hi));
    RangeConcat(pushed, 0, server.lastSeq, hi);
    hide Fresh, Newest, Range, SimulateAll;
    if lo > server.lastSeq {
      assert |log + Range(pushed, lo, hi)| < |Range(pushed, 0, hi)|;
    }
  }

  /** One numbered batch delivered to a server without gaps. */
  lemma GapAfterDelivery<S, C>(rules: Rules<S, C>, cap: nat, m: Net<S, C>, lo: nat)
    requires m.client.history == Range(m.pushed, lo, |m.pushed|) && m.client.history in m.sent && lo < |m.pushed|
    requires m.server.lastSeq < |m.pushed| && m.log == Range(m.pushed, 0, m.server.lastSeq)
    ensures var d := Act(rules, cap, m, Deliver(m.client.history));
            d.pushed == m.pushed && d.server.lastSeq == |d.pushed| &&
            (d.log == Range(d.pushed, 0, |d.pushed|) <==> lo <= m.server.lastSeq)
  {
    hide Range, Fresh, SimulateAll, Newest;
    NoGapIff(rules, m.server, m.pushed, m.log, lo, |m.pushed|);
  }

  lemma GapAfterPush<S, C>(rules: Rules<S, C>, cap: nat, n: Net<S, C>, controls: C)
    requires cap >= 1 && ClientConsistent(cap, n.client, n.pushed) && n.client.lastAcked <= n.server.lastSeq <= |n.pushed|
    requires n.log == Range(n.pushed, 0, n.server.lastSeq)
    ensures var m := Act(rules, cap, n, Push(controls));
            var d := Act(rules, cap, m, Deliver(m.client.history));
            d.server.lastSeq == |d.pushed| &&
            (d.log == Range(d.pushed, 0, |d.pushed|) <==> |m.pushed| - cap <= m.server.lastSeq)
  {
    var m := Act(rules, cap, n, Push(controls));
    PushKeepsClient(rules, cap, n.client, n.pushed, controls);
    RangeGrow(n.pushed, controls, 0, n.server.lastSeq);
    hide Range;
    GapAfterDelivery(rules, cap, m, Max(m.client.lastAcked, |m.pushed| - cap));
    hide *;
  }

  /** In any run: if the next batch is the first to arrive, the server misses a
      command exactly if more than `cap` of them were outstanding when it was
      sent, counting from what the server has taken. */
  lemma {:induction false} OverflowLeavesGapIff<S, C>(rules: Rules<S, C>, cap: nat, spawn: S, acts: seq<Action<C>>, controls: C)
    requires cap >= 1
    requires var n := Run(rules, cap, spawn, acts);
             n.server.lastSeq <= |n.pushed| && n.log == Range(n.pushed, 0, n.server.lastSeq)
    ensures var m := Act(rules, cap, Run(rules, cap, spawn, acts), Push(controls));
            var d := Act(rules, cap, m, Deliver(m.client.history));
            d.server.lastSeq == |d.pushed| &&
            (d.log == Range(d.pushed, 0, |d.pushed|) <==> |m.pushed| - cap <= m.server.lastSeq)
  {
    hide Run, Range, Act, ClientConsistent;
    RunClientConsistent(rules, cap, spawn, acts);
    AckedNotAhead(rules, cap, spawn, acts);
    GapAfterPush(rules, cap, Run(rules, cap, spawn, acts), controls);
  }

  lemma {:induction false} OrderedBounds<S>(snapshots: seq<Snapshot<S>>, lo: nat, hi: nat)
    requires SnapshotsOrdered(snapshots, lo, hi)
    ensures lo <= hi
  {
  }

  lemma AckedNotAhead<S, C>(rules: Rules<S, C>, cap: nat, spawn: S, acts: seq<Action<C>>)
    requires cap >= 1
    ensures Run(rules, cap, spawn, acts).client.lastAcked <= Run(rules, cap, spawn, acts).server.lastSeq
  {
    hide Run;
    RunClientConsistent(rules, cap, spawn, acts);
    var n := Run(rules, cap, spawn, acts);
    OrderedBounds(n.snapshots, n.client.lastAcked, n.server.lastSeq);
  }

  function Pushes<C>(cs: seq<C>): seq<Action<C>> {
    if cs == [] then [] else Pushes(cs[..|cs| - 1]) + [Push(cs[|cs| - 1])]
  }

  /** A client nobody has heard of yet, having pushed `cs`. */
  ghost predicate Unheard<S, C>(rules: Rules<S, C>, spawn: S, n: Net<S, C>, cs: seq<C>) {
    && n.server == ServerSim(spawn, 0, None) && n.snapshots == [] && n.pushed == cs
    && n.client.predicted == March(rules, spawn, Range(cs, 0, |cs|)) && n.client.lastAcked == 0
    && (cs != [] ==> n.client.history in n.sent)
  }

  lemma PushUnheard<S, C>(rules: Rules<S, C>, cap: nat, spawn: S, n: Net<S, C>, cs: seq<C>, controls: C)
    requires Unheard(rules, spawn, n, cs)
    ensures Unheard(rules, spawn, Act(rules, cap, n, Push(controls)), cs + [controls])
  {
    PushMarches(rules, spawn, cs, controls);
    hide March, Range;
  }

  lemma NothingPushed<S, C>(rules: Rules<S, C>, cap: nat, spawn: S, cs: seq<C>)
    requires cs == []
    ensures Unheard(rules, spawn, Run(rules, cap, spawn, Pushes(cs)), cs)
  {
  }

  lemma OneMorePushed<S, C>(rules: Rules<S, C>, cap: nat, spawn: S, cs: seq<C>)
    requires cs != []
    ensures var (front, last) := (cs[..|cs| - 1], cs[|cs| - 1]);
            cs == front + [last] &&
            Run(rules, cap, spawn, Pushes(cs)) == Act(rules, cap, Run(rules, cap, spawn, Pushes(front)), Push(last))
  {
    hide Run, Act;
    RunStep(rules, cap, spawn, Pushes(cs[..|cs| - 1]), Push(cs[|cs| - 1]));
  }

  /** The client alone: any number of commands pushed, none delivered. */
  lemma {:induction false} OnlyPushed<S, C>(rules: Rules<S, C>, cap: nat, spawn: S, cs: seq<C>)
    ensures Unheard(rules, spawn, Run(rules, cap, spawn, Pushes(cs)), cs)
    decreases |cs|
  {
    hide Run, Act, Unheard, Pushes;
    if cs == [] {
      NothingPushed(rules, cap, spawn, cs);
    } else {
      var front, last := cs[..|cs| - 1], cs[|cs| - 1];
      OnlyPushed(rules, cap, spawn, front);
      OneMorePushed(rules, cap, spawn, cs);
      PushUnheard(rules, cap, spawn, Run(rules, cap, spawn, Pushes(front)), front, last);
    }
  }

  lemma PushedHistory<S, C>(rules: Rules<S, C>, cap: nat, spawn: S, cs: seq<C>)
    requires cap >= 1
    ensures Run(rules, cap, spawn, Pushes(cs)).client.history == Range(cs, Max(0, |cs| - cap), |cs|)
  {
    hide Run, Range, March, Pushes;
    OnlyPushed(rules, cap, spawn, cs);
    RunClientConsistent(rules, cap, spawn, Pushes(cs));
  }

  lemma {:induction false} AllAcked<C>(pushed: seq<C>, lo: nat, hi: nat)
    requires lo <= hi <= |pushed|
    ensures Unacked(Range(pushed, lo, hi), hi) == []
  {
    UnackedRange(pushed, lo, hi, hi);
  }

  lemma FirstDelivery<S(!new), C(!new)>(rules: Rules<S, C>, server: ServerSim<S, C>, cs: seq<C>, lo: nat)
    requires Plain(rules) && lo < |cs| && server.lastSeq == 0
    ensures var history := Range(cs, lo, |cs|);
            var after := SimulateAll(rules, server, history);
            Fresh(0, history) == history && after.lastSeq == |cs| && after.move == March(rules, server.move, history)
  {
    FreshRange(cs, 0, lo, |cs|);
    hide Fresh, Newest, Range, SimulateAll, March;
    SimulatedSeq(rules, server, Range(cs, lo, |cs|));
    SimulateIsMarch(rules, server, Range(cs, lo, |cs|));
  }

  lemma AckedReceive<S(!new), C(!new)>(rules: Rules<S, C>, cap: nat, n: Net<S, C>)
    requires Plain(rules) && n.driven && n.snapshots == [] && Unacked(n.client.history, n.server.lastSeq) == []
    ensures var before := Act(rules, cap, n, Broadcast);
            before.client == n.client && Act(rules, cap, before, Receive).client.predicted == n.server.move
  {
    hide Unacked;
    NothingReplayed(rules, n.server.move);
  }

  /** A server that has taken nothing gets the newest commands, broadcasts, and
      the client hears of it. */
  lemma OneDelivery<S(!new), C(!new)>(rules: Rules<S, C>, cap: nat, n: Net<S, C>, cs: seq<C>, lo: nat, spawn: S)
    requires Plain(rules) && lo < |cs| && n.server == ServerSim(spawn, 0, None) && n.snapshots == []
    requires n.client.history == Range(cs, lo, |cs|) && n.client.history in n.sent
    ensures
      var before := Act(rules, cap, Act(rules, cap, n, Deliver(n.client.history)), Broadcast);
      && before.client == n.client
      && Act(rules, cap, before, Receive).client.predicted == March(rules, spawn, Range(cs, lo, |cs|))
  {
    hide March, Range, Fresh, SimulateAll, Unacked, Newest, Plain, Reconciled, Pushed;
    FirstDelivery(rules, n.server, cs, lo);
    AllAcked(cs, lo, |cs|);
    AckedReceive(rules, cap, Act(rules, cap, n, Deliver(n.client.history)));
  }

  /** The bound on outstanding commands is needed, for every cap and movement:
      when only the last of the batches arrives, the snapshot moves the player to
      where it would be without the commands dropped from history. */
  lemma {:induction false} OverflowDrifts<S(!new), C(!new)>(rules: Rules<S, C>, cap: nat, spawn: S, cs: seq<C>)
    requires cap >= 1 && Plain(rules) && cs != []
    ensures
      var n := Run(rules, cap, spawn, Pushes(cs));
      var before := Act(rules, cap, Act(rules, cap, n, Deliver(n.client.history)), Broadcast);
      && before == Run(rules, cap, spawn, Pushes(cs) + [Deliver(n.client.history)] + [Broadcast])
      && before.client.predicted == March(rules, spawn, Range(cs, 0, |cs|))
      && Act(rules, cap, before, Receive).client.predicted == March(rules, spawn, Range(cs, Max(0, |cs| - cap), |cs|))
  {
    hide Run, March, Range, Act, Pushes;
    OnlyPushed(rules, cap, spawn, cs);
    PushedHistory(rules, cap, spawn, cs);
    var n := Run(rules, cap, spawn, Pushes(cs));
    var deliver: Action<C>, last: Action<C> := Deliver(n.client.history), Broadcast;
    RunStep(rules, cap, spawn, Pushes(cs), deliver);
    RunStep(rules, cap, spawn, Pushes(cs) + [deliver], last);
    OneDelivery(rules, cap, n, cs, Max(0, |cs| - cap), spawn);
  }

  lemma NothingReplayed<S, C>(rules: Rules<S, C>, s: S)
    ensures Replay(rules, s, []) == s
  {
  }

  function Summing(): Rules<int, int> {
    Rules((s: int, c: int) => s + c, s => true, (c: InputCmd<int>) => Pass, s => s)
  }

  function Sum(cs: seq<int>): int {
    if cs == [] then 0 else Sum(cs[..|cs| - 1]) + cs[|cs| - 1]
  }

  lemma {:induction false} SummingMarches(spawn: int, cs: seq<int>, lo: nat, hi: nat)
    requires lo <= hi <= |cs|
    ensures March(Summing(), spawn, Range(cs, lo, hi)) == spawn + Sum(cs[lo..hi])
    decreases hi
  {
    if lo < hi {
      SummingMarches(spawn, cs, lo, hi - 1);
      RangeFront(cs, lo, hi);
      assert cs[lo..hi][..hi - lo - 1] == cs[lo..hi - 1];
    }
  }

  lemma {:induction false} SumSplits(cs: seq<int>, k: nat)
    requires k <= |cs|
    ensures Sum(cs) == Sum(cs[..k]) + Sum(cs[k..])
    decreases |cs|
  {
    if k < |cs| {
      var front := cs[..|cs| - 1];
      SumSplits(front, k);
      assert front[..k] == cs[..k] && front[k..] == cs[k..][..|cs| - k - 1];
    } else {
      assert cs[..k] == cs && cs[k..] == [];
    }
  }

  /** Where commands add up, the player is moved by exactly what was dropped. */
  lemma OverflowDriftsBy(cap: nat, spawn: int, cs: seq<int>)
    requires cap >= 1 && cs != []
    ensures
      var n := Run(Summing(), cap, spawn, Pushes(cs));
      var before := Act(Summing(), cap, Act(Summing(), cap, n, Deliver(n.client.history)), Broadcast);
      before.client.predicted - Act(Summing(), cap, before, Receive).client.predicted == Sum(cs[..Max(0, |cs| - cap)])
  {
    var lo := Max(0, |cs| - cap);
    OverflowDrifts(Summing(), cap, spawn, cs);
    SummingMarches(spawn, cs, 0, |cs|);
    SummingMarches(spawn, cs, lo, |cs|);
    SumSplits(cs, lo);
    assert cs[0..|cs|] == cs && cs[lo..|cs|] == cs[lo..];
  }
}
