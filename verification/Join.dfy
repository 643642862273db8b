/**
 Joining a server: the two handshake machines, run by their sessions, over a
 FIFO queue each way (src/net/session.cpp dispatches the frames). Every
 interleaving of ticks, verdict delays and chunk budgets is a run of `Act`.
 */
module Join {
  import opened AssetCache
  import opened Common
  import opened Handshake

  // ------------------------------------------------------ the client's session

  const MAX_EARLY_FRAMES: nat := 8192

  /** `held` are frames that came before JoinAccept, `played` the gameplay
      frames applied so far, `overflow` the failure over too many held ones. */
  datatype Session = Session(client: Client, held: seq<ToClient>, played: seq<nat>, overflow: bool)

  datatype World = World(server: ServerConfig, client: ClientConfig, store: Store)

  type SessionStep = (Session, seq<ToServer>)

  function Contents(frames: seq<ToClient>): seq<nat> {
    if frames == [] then []
    else
      var last := frames[|frames| - 1];
      Contents(frames[..|frames| - 1]) + if last.Gameplay? then [last.content] else []
  }

  /** One frame: setup frames never reach the handshake, gameplay is applied
      once joined, anything but JoinAccept is held while syncing. */
  function Received(w: World, s: Session, msg: ToClient, poll: Option<TokenPoll>): SessionStep {
    if msg.Setup? then (s, [])
    else if s.client.status == Joined && msg.Gameplay? then (s.(played := s.played + [msg.content]), [])
    else if s.client.status == Syncing && !msg.JoinAccept? then
      if |s.held| >= MAX_EARLY_FRAMES then (s.(overflow := true), []) else (s.(held := s.held + [msg]), [])
    else
      var (c, out) := OnClientFrame(w.client, s.client, w.store, msg, poll);
      if c.status == Joined then (Session(c, [], s.played + Contents(s.held), s.overflow), out)
      else (s.(client := c), out)
  }

  class ClientSession {
    const handshake: ClientHandshake
    var held: seq<ToClient>
    var played: seq<nat>
    var overflow: bool

    constructor (handshake: ClientHandshake)
      ensures this.handshake == handshake && held == [] && played == [] && !overflow
    {
      this.handshake, held, played, overflow := handshake, [], [], false;
    }

    function Value(): Session
      reads this, handshake, handshake.cache
    {
      Session(handshake.Value(), held, played, overflow)
    }

    /** Releases the held frames; those that are not gameplay are ignored. */
    method Release()
      modifies `held, `played
      ensures held == [] && played == old(played) + Contents(old(held))
    {
      for i := 0 to |held|
        invariant held == old(held)
        invariant played == old(played) + Contents(held[..i])
        modifies `played
      {
        assert held[..i + 1][..i] == held[..i];
        if held[i].Gameplay? {
          played := played + [held[i].content];
        }
      }
      assert held[..|held|] == held;
      held := [];
    }

    method OnMessage(w: World, msg: ToClient, poll: Option<TokenPoll>, now: int) returns (send: seq<ToServer>)
      requires w.client == handshake.cfg && w.store == handshake.Storage(now)
      modifies this, handshake, handshake.cache
      ensures (Value(), send) == Received(w, old(Value()), msg, poll)
    {
      hide OnClientFrame;
      send := [];
      if msg.Setup? {
        return;
      }
      if handshake.status == Joined && msg.Gameplay? {
        played := played + [msg.content];
        return;
      }
      if handshake.status == Syncing && !msg.JoinAccept? {
        if |held| >= MAX_EARLY_FRAMES {
          overflow := true;
          return;
        }
        held := held + [msg];
        return;
      }
      send := handshake.OnFrame(msg, poll, now);
      if handshake.status == Joined {
        Release();
      }
    }
  }

  // ------------------------------------- gameplay frames that overtake JoinAccept

  /** Frames in order, until the session gives up over too many early ones. */
  function Delivered(w: World, s: Session, frames: seq<ToClient>): Session {
    if frames == [] then s
    else
      var before := Delivered(w, s, frames[..|frames| - 1]);
      if before.overflow then before else Received(w, before, frames[|frames| - 1], None).0
  }

  predicate InGame(frames: seq<ToClient>) {
    forall f :: f in frames ==> f.Gameplay? || f.Setup?
  }

  lemma {:induction false} DeliveredAppend(w: World, s: Session, a: seq<ToClient>, b: seq<ToClient>)
    requires !Delivered(w, s, a).overflow
    ensures Delivered(w, s, a + b) == Delivered(w, Delivered(w, s, a), b)
    decreases |b|
  {
    if b == [] {
      assert a + b == a;
    } else {
      assert (a + b)[..|a + b| - 1] == a + b[..|b| - 1];
      DeliveredAppend(w, s, a, b[..|b| - 1]);
    }
  }

  function Games(frames: seq<ToClient>): seq<ToClient> {
    if frames == [] then []
    else
      var last := frames[|frames| - 1];
      Games(frames[..|frames| - 1]) + if last.Gameplay? then [last] else []
  }

  lemma {:induction false} GamesHaveTheContents(frames: seq<ToClient>)
    ensures Contents(Games(frames)) == Contents(frames) && |Games(frames)| == |Contents(frames)|
  {
    if frames != [] {
      GamesHaveTheContents(frames[..|frames| - 1]);
      var front, last := Games(frames[..|frames| - 1]), frames[|frames| - 1];
      if last.Gameplay? {
        assert (front + [last])[..|front|] == front;
      } else {
        assert front + [] == front;
      }
    }
  }

  lemma {:induction false} EarlyAreHeld(w: World, s: Session, frames: seq<ToClient>)
    requires s.client.status == Syncing && s.held == [] && !s.overflow && InGame(frames)
    ensures var r := Delivered(w, s, frames);
            r.overflow == (|Contents(frames)| > MAX_EARLY_FRAMES) &&
            (!r.overflow ==> r == s.(held := Games(frames)))
    decreases |frames|
  {
    if frames != [] {
      var front, last := frames[..|frames| - 1], frames[|frames| - 1];
      assert last in frames && forall f :: f in front ==> f in frames;
      EarlyAreHeld(w, s, front);
      GamesHaveTheContents(front);
    }
  }

  lemma {:induction false} LateArePlayed(w: World, s: Session, frames: seq<ToClient>)
    requires s.client.status == Joined && !s.overflow && InGame(frames)
    ensures Delivered(w, s, frames) == s.(played := s.played + Contents(frames))
    decreases |frames|
  {
    if frames == [] {
      assert s.played + [] == s.played;
    } else {
      var front, last := frames[..|frames| - 1], frames[|frames| - 1];
      assert last in frames && forall f :: f in front ==> f in frames;
      LateArePlayed(w, s, front);
    }
  }

  lemma InOrder(w: World, s: Session, frames: seq<ToClient>)
    requires s.client.status == Syncing && s.held == [] && !s.overflow && InGame(frames)
    ensures Delivered(w, s, [JoinAccept] + frames) ==
            Session(s.client.(status := Joined), [], s.played + Contents(frames), false)
  {
    JoinsWith(w, s, []);
    assert s.(held := []) == s && s.played + Contents([]) == s.played;
    DeliveredAppend(w, s, [JoinAccept], frames);
    LateArePlayed(w, s.(client := s.client.(status := Joined)), frames);
  }

  lemma Overtaken(w: World, s: Session, early: seq<ToClient>, late: seq<ToClient>)
    requires s.client.status == Syncing && s.held == [] && !s.overflow && InGame(early) && InGame(late)
    requires |Contents(early)| <= MAX_EARLY_FRAMES
    ensures Delivered(w, s, early + ([JoinAccept] + late)) ==
            Session(s.client.(status := Joined), [], s.played + Contents(early) + Contents(late), false)
  {
    hide Received, Games, Contents, Delivered;
    EarlyAreHeld(w, s, early);
    GamesHaveTheContents(early);
    DeliveredAppend(w, s, early, [JoinAccept] + late);
    JoinsWith(w, s, Games(early));
    DeliveredAppend(w, s.(held := Games(early)), [JoinAccept], late);
    LateArePlayed(w, Session(s.client.(status := Joined), [], s.played + Contents(early), false), late);
  }

  /** However many frames overtake JoinAccept, the session ends exactly as if
      none had, precisely while they are no more than it may hold. */
  lemma EarlySameAsLate(w: World, s: Session, early: seq<ToClient>, late: seq<ToClient>)
    requires s.client.status == Syncing && s.held == [] && !s.overflow && InGame(early) && InGame(late)
    ensures var inOrder := Delivered(w, s, [JoinAccept] + (early + late));
            inOrder == Session(s.client.(status := Joined), [], s.played + Contents(early + late), false) &&
            (Delivered(w, s, early + ([JoinAccept] + late)) == inOrder <==> |Contents(early)| <= 8192)
  {
    hide Received, Contents, Delivered;
    InOrder(w, s, early + late);
    if |Contents(early)| <= MAX_EARLY_FRAMES {
      Overtaken(w, s, early, late);
      ContentsAppend(early, late);
      assert s.played + Contents(early) + Contents(late) == s.played + Contents(early + late);
    } else {
      EarlyAreHeld(w, s, early);
      StaysOverflown(w, s, early, [JoinAccept] + late);
    }
  }

  lemma JoinsWith(w: World, s: Session, held: seq<ToClient>)
    requires s.client.status == Syncing && !s.overflow
    ensures Delivered(w, s.(held := held), [JoinAccept]) ==
            Session(s.client.(status := Joined), [], s.played + Contents(held), false)
  {
    assert [JoinAccept][..0] == [];
  }

  lemma {:induction false} ContentsAppend(a: seq<ToClient>, b: seq<ToClient>)
    ensures Contents(a + b) == Contents(a) + Contents(b)
    decreases |b|
  {
    if b == [] {
      assert a + b == a;
    } else {
      assert (a + b)[..|a + b| - 1] == a + b[..|b| - 1];
      ContentsAppend(a, b[..|b| - 1]);
    }
  }

  lemma {:induction false} StaysOverflown(w: World, s: Session, a: seq<ToClient>, b: seq<ToClient>)
    requires Delivered(w, s, a).overflow
    ensures Delivered(w, s, a + b).overflow
    decreases |b|
  {
    if b == [] {
      assert a + b == a;
    } else {
      assert (a + b)[..|a + b| - 1] == a + b[..|b| - 1];
      StaysOverflown(w, s, a, b[..|b| - 1]);
    }
  }

  // ------------------------------------------------------------------ the network

  datatype Net = Net(server: Server, session: Session, toServer: seq<ToServer>, toClient: seq<ToClient>)

  const NEW_CLIENT := Client(Connecting, false, false, Transfer(map[], map[]), None)

  const START := Net(NEW_SERVER, Session(NEW_CLIENT, [], [], false), [], [])

  /** One thing that can happen. Connect is the link's first event to the
      client, Verdict the server's poll of the sign-in it is waiting for, SignIn
      the client's own; Play is any gameplay frame of the server's. */
  datatype Action =
    | Connect
    | ToServerArrives(host: Host)
    | Pump(budget: nat)
    | Verdict(verdict: Option<AuthOutcome>, host: Host)
    | TimeOut
    | ToClientArrives(poll: Option<TokenPoll>)
    | SignedIn(poll: Option<TokenPoll>)
    | Cancel
    | Play(content: nat)

  function ByServer(n: Net, step: ServerStep): Net {
    n.(server := step.0, toClient := n.toClient + step.1)
  }

  function ByClient(n: Net, step: SessionStep): Net {
    n.(session := step.0, toServer := n.toServer + step.1)
  }

  function InSession(s: Session, step: ClientStep): SessionStep {
    (s.(client := step.0), step.1)
  }

  /** A closed connection is forgotten and a playing one takes only gameplay;
      the client hears nothing before the link's Connected event. */
  function Act(w: World, n: Net, a: Action): Net {
    match a
    case Connect => ByClient(n, InSession(n.session, Begin(w.client, n.session.client)))
    case ToServerArrives(host) =>
      if n.toServer == [] then n
      else
        var rest := n.(toServer := n.toServer[1..]);
        if n.server.state == Closed || n.server.state == Playing then rest
        else ByServer(rest, OnServerFrame(w.server, n.server, n.toServer[0], host))
    case Pump(budget) => ByServer(n, Pumped(w.server.files, n.server, budget))
    case Verdict(verdict, host) => ByServer(n, PollAuth(n.server, verdict, host))
    case TimeOut => ByServer(n, OnTimeout(n.server))
    case ToClientArrives(poll) =>
      if n.toClient == [] || !n.session.client.started then n
      else ByClient(n.(toClient := n.toClient[1..]), Received(w, n.session, n.toClient[0], poll))
    case SignedIn(poll) => ByClient(n, InSession(n.session, PollSignIn(w.client, n.session.client, poll)))
    case Cancel => ByClient(n, InSession(n.session, CancelSignIn(n.session.client)))
    case Play(content) => if n.server.state == Playing then n.(toClient := n.toClient + [Gameplay(content)]) else n
  }

  function Run(w: World, actions: seq<Action>): Net {
    if actions == [] then START
    else Act(w, Run(w, actions[..|actions| - 1]), actions[|actions| - 1])
  }

  // ------------------------------------------------------- a conforming pair

  function Entries(w: World): seq<Entry> {
    if w.server.manifest.Some? then w.server.manifest.value.entries else []
  }

  /** A manifest with distinct paths and files within the cap, a server that
      has those files, and a client whose cache and memory of manifests are genuine. */
  ghost predicate Conforming(w: World) {
    && DistinctPaths(Entries(w)) && Sized(Entries(w)) && Sound(w.store.disk, w.store.hash)
    && (forall e :: e in Entries(w) ==> e.hash in w.server.files && w.store.hash(w.server.files[e.hash]) == e.hash &&
                                        |w.server.files[e.hash]| <= MAX_FILE_BYTES)
    && (w.server.manifest.Some? ==> Genuine(w, w.server.manifest.value))
  }

  predicate Genuine(w: World, m: Manifest) {
    && m.hash != ZERO_HASH
    && (m.hash in w.store.manifests ==> w.store.manifests[m.hash] == m.entries)
    && (w.client.known == m.hash ==> m.hash in w.store.manifests)
  }

  function FirstScan(w: World): Scan {
    Scanned(Entries(w), w.store.index, w.store.disk, w.store.now)
  }

  /** Every frame the transfer takes. */
  function AllFrames(w: World): seq<AssetData> {
    Stream(w.server.files, FirstScan(w).missing)
  }

  function Datas(frames: seq<AssetData>): (r: seq<ToClient>)
    ensures |r| == |frames|
  {
    seq(|frames|, i requires 0 <= i < |frames| => Data(frames[i]))
  }

  // ------------------------------------------------------- the server's stream

  /** What a stream cursor still has to send. */
  function Remaining(files: Disk, st: AssetStream): seq<AssetData> {
    if st.idx >= |st.pending| then []
    else
      var h, rest := st.pending[st.idx], Stream(files, st.pending[st.idx + 1..]);
      if h !in files then rest
      else if !st.loaded then FramesFrom(h, files[h], 0) + rest
      else if st.chunkIdx <= ChunkCount(|files[h]|) then FramesFrom(h, files[h], st.chunkIdx) + rest
      else rest
  }

  predicate GoodStream(files: Disk, st: AssetStream) {
    && (forall h :: h in st.pending ==> h in files)
    && st.idx < |st.pending|
    && (st.loaded ==>
          var file := files[st.pending[st.idx]];
          st.current == file && st.totalChunks == ChunkCount(|file|) && st.chunkIdx < st.totalChunks)
  }

  lemma SliceIsFrame(h: AssetHash, file: Bytes, k: nat)
    requires k < ChunkCount(|file|)
    ensures AssetData(h, k, ChunkCount(|file|), Slice(file, k * CHUNK_BYTES)) == FrameOf(h, file, k)
  {
    assert k * CHUNK_BYTES <= (ChunkCount(|file|) - 1) * CHUNK_BYTES;
  }

  lemma RemainingNext(files: Disk, st: AssetStream)
    requires st.idx < |st.pending| && st.pending[st.idx] in files && !st.loaded
    ensures Remaining(files, st) == Stream(files, st.pending[st.idx..])
  {
    var left := st.pending[st.idx..];
    assert left[1..] == st.pending[st.idx + 1..];
  }

  /** The number of the frame the cursor is at. */
  function At(st: AssetStream): nat {
    if st.loaded then st.chunkIdx else 0
  }

  /** The cursor after that frame. */
  function Advanced(file: Bytes, st: AssetStream): AssetStream {
    var n := ChunkCount(|file|);
    if At(st) + 1 < n then AssetStream(st.pending, st.idx, file, At(st) + 1, n, true)
    else AssetStream(st.pending, st.idx + 1, [], At(st) + 1, n, false)
  }

  lemma PumpOneAdvances(files: Disk, s: Server)
    requires s.state == StreamingAssets && GoodStream(files, s.stream)
    ensures var st := s.stream;
            var file := files[st.pending[st.idx]];
            var next := Advanced(file, st);
            At(st) < ChunkCount(|file|) &&
            PumpOne(files, s) == (s.(stream := next, state := if next.idx >= |st.pending| then AwaitingReady else StreamingAssets),
                                  [Data(FrameOf(st.pending[st.idx], file, At(st)))])
  {
    var st := s.stream;
    var h := st.pending[st.idx];
    assert h in st.pending;
    SliceIsFrame(h, files[h], At(st));
  }

  lemma NextFileWaits(files: Disk, st: AssetStream)
    requires (forall h :: h in st.pending ==> h in files) && !st.loaded
    ensures st.idx < |st.pending| ==> GoodStream(files, st) && Remaining(files, st) != []
    ensures st.idx <= |st.pending| ==> Remaining(files, st) == Stream(files, st.pending[st.idx..])
  {
    if st.idx < |st.pending| {
      assert st.pending[st.idx] in st.pending;
      RemainingNext(files, st);
      assert FramesFrom(st.pending[st.idx], files[st.pending[st.idx]], 0) != [];
    } else if st.idx == |st.pending| {
      assert st.pending[st.idx..] == [];
    }
  }

  lemma RemainingSplits(files: Disk, st: AssetStream)
    requires GoodStream(files, st)
    ensures var h := st.pending[st.idx];
            var file := files[h];
            At(st) < ChunkCount(|file|) &&
            Remaining(files, st) == [FrameOf(h, file, At(st))] + FramesFrom(h, file, At(st) + 1) + Stream(files, st.pending[st.idx + 1..])
  {
    hide Stream, FrameOf;
    assert st.pending[st.idx] in st.pending;
  }

  lemma AdvancedRemaining(files: Disk, st: AssetStream)
    requires GoodStream(files, st)
    ensures var h := st.pending[st.idx];
            var file := files[h];
            var next := Advanced(file, st);
            At(st) < ChunkCount(|file|) &&
            Remaining(files, st) == [FrameOf(h, file, At(st))] + Remaining(files, next) &&
            (next.idx < |st.pending| ==> GoodStream(files, next) && Remaining(files, next) != []) &&
            (next.idx >= |st.pending| ==> Remaining(files, next) == [])
  {
    hide Stream, FrameOf, FramesFrom;
    var h := st.pending[st.idx];
    assert h in st.pending;
    var file := files[h];
    var k, rest, next := At(st), Stream(files, st.pending[st.idx + 1..]), Advanced(file, st);
    RemainingSplits(files, st);
    assert [FrameOf(h, file, k)] + FramesFrom(h, file, k + 1) + rest == [FrameOf(h, file, k)] + (FramesFrom(h, file, k + 1) + rest);
    if k + 1 == ChunkCount(|file|) {
      assert FramesFrom(h, file, k + 1) + rest == rest;
      NextFileWaits(files, next);
    }
  }

  /** A round of the pump sends the next frame, and ends the streaming state
      with the very last one. */
  lemma {:induction false} PumpSendsNext(files: Disk, s: Server)
    requires s.state == StreamingAssets && GoodStream(files, s.stream)
    ensures Remaining(files, s.stream) != []
    ensures var (r, sent) := PumpOne(files, s);
            sent == [Data(Remaining(files, s.stream)[0])] &&
            Remaining(files, r.stream) == Remaining(files, s.stream)[1..] &&
            (if Remaining(files, r.stream) == [] then r == s.(stream := r.stream, state := AwaitingReady)
             else r == s.(stream := r.stream) && GoodStream(files, r.stream))
  {
    hide PumpOne, Remaining, FrameOf;
    PumpOneAdvances(files, s);
    AdvancedRemaining(files, s.stream);
  }

  /** `step` has sent the first m of the frames that were left, in order. */
  predicate HasSent(files: Disk, s: Server, m: nat, step: ServerStep) {
    var (r, sent) := step;
    var all := Remaining(files, s.stream);
    && m <= |all|
    && sent == Datas(all[..m])
    && (if m == |all| then r == s.(stream := r.stream, state := AwaitingReady)
        else r == s.(stream := r.stream) && GoodStream(files, r.stream) && Remaining(files, r.stream) == all[m..])
  }

  lemma SendsOneMore(files: Disk, s: Server, m: nat, step: ServerStep)
    requires s.state == StreamingAssets && HasSent(files, s, m, step) && step.0.state == StreamingAssets
    ensures var (after, more) := PumpOne(files, step.0);
            after.state != Closed && HasSent(files, s, m + 1, (after, step.1 + more))
  {
    hide GoodStream, Remaining, PumpOne;
    PumpSendsNext(files, step.0);
    var all := Remaining(files, s.stream);
    assert all[m..][0] == all[m] && all[m..][1..] == all[m + 1..];
    assert Datas(all[..m]) + [Data(all[m])] == Datas(all[..m + 1]);
  }

  /** Any budget sends that many of the frames left, in order, and leaves the
      streaming state with the last of them. */
  lemma {:induction false} PumpedSendsPrefix(files: Disk, s: Server, budget: nat)
    requires s.state == StreamingAssets && GoodStream(files, s.stream)
    ensures HasSent(files, s, Min(budget, |Remaining(files, s.stream)|), Pumped(files, s, budget))
    decreases budget
  {
    hide PumpOne;
    var all := Remaining(files, s.stream);
    PumpSendsNext(files, s);
    if budget == 0 {
      assert all[..0] == [] && all[0..] == all;
    } else {
      hide GoodStream, Remaining;
      PumpedSendsPrefix(files, s, budget - 1);
      var before := Pumped(files, s, budget - 1);
      if before.0.state == StreamingAssets {
        SendsOneMore(files, s, budget - 1, before);
      } else {
        PumpedStays(files, s, budget - 1, budget);
      }
    }
  }

  // ------------------------------------------------------------ the invariant

  predicate Legitimate(reason: Reason) {
    reason != Unexpected && reason != AssetNotFound
  }

  /** Causes the client has by itself, before it has authenticated. */
  predicate OwnCause(f: Option<Failure>) {
    f == Some(PackVersion) || f == Some(NoSignIn) || f == Some(SignInFailed) || f == Some(TokenTooLarge)
  }

  /** A Setup prefix, JoinAccept at j, then gameplay only. */
  predicate WelcomeAt(q: seq<ToClient>, j: nat) {
    && j < |q| && q[j] == JoinAccept
    && (forall i :: 0 <= i < j ==> q[i] == Setup)
    && (forall i :: j < i < |q| ==> q[i].Gameplay?)
  }

  /** The client has taken k of the frames, the server has sent m of them. */
  ghost predicate InFlight(w: World, n: Net, k: nat, m: nat) {
    var all := AllFrames(w);
    && k <= m <= |all| && k < |all|
    && n.toClient == Datas(all[k..m])
    && IngestRun(FirstScan(w).transfer, all[..k], w.store.hash) == (n.session.client.transfer, true)
    && (if m < |all| then
          n.server.state == StreamingAssets && GoodStream(w.server.files, n.server.stream) &&
          Remaining(w.server.files, n.server.stream) == all[m..]
        else n.server.state == AwaitingReady)
  }

  predicate Greeting(w: World, n: Net) {
    if n.server.state == AwaitingHello then
      n.toClient == [] &&
      n.toServer == if n.session.client.started then [Hello(w.client.version, w.client.automation)] else []
    else
      && n.session.client.started && n.server.state == AwaitingAuth && n.toServer == []
      && w.server.version == w.client.version
      && |n.toClient| == (if w.server.external then 2 else 1)
      && n.toClient[0] == ServerInfo(w.server.version, w.server.external, w.server.packReq)
      && (w.server.external ==> n.toClient[1].Challenge?)
  }

  predicate SigningOn(n: Net) {
    match n.server.state
    case AwaitingAuth => |n.toServer| == 1 && n.toServer[0].Auth? && n.toClient == []
    case VerifyingAuth => n.server.ticket && n.toServer == [] && n.toClient == []
    case AwaitingManifestRequest => n.toServer == [] && |n.toClient| == 1 && n.toClient[0].AuthResult? && n.toClient[0].ok
    case _ => false
  }

  predicate Asking(w: World, n: Net) {
    match n.server.state
    case AwaitingManifestRequest => n.toServer == [ManifestRequest(w.client.known)] && n.toClient == []
    case AwaitingAssetRequest => n.toServer == [] && n.toClient == [ManifestFor(w.server, w.client.known)]
    case _ => false
  }

  ghost predicate Transferring(w: World, n: Net) {
    if n.server.state == AwaitingAssetRequest then
      && n.toServer == [AssetRequest(FirstScan(w).missing)] && FirstScan(w).missing != [] && n.toClient == []
      && n.session.client.transfer == FirstScan(w).transfer
    else
      && (n.server.state == StreamingAssets || n.server.state == AwaitingReady)
      && n.toServer == [] && exists k, m :: InFlight(w, n, k, m)
  }

  ghost predicate Entering(w: World, n: Net) {
    && Exact(Entries(w), n.session.client.transfer.virtualFs, w.store.hash)
    && match n.server.state
       case AwaitingAssetRequest => n.toServer == [AssetRequest([]), Ready] && n.toClient == []
       case AwaitingReady => n.toServer == [Ready] && n.toClient == []
       case Playing => n.toServer == [] && exists j :: WelcomeAt(n.toClient, j)
       case _ => false
  }

  /** What server, client and queues hold together while nobody has refused. */
  ghost predicate InStep(w: World, n: Net) {
    var c := n.session.client;
    && (c.status != Connecting ==> c.started)
    && match c.status
       case Connecting => Greeting(w, n)
       case AwaitingChallenge => n.server.state == AwaitingAuth && n.toServer == [] && |n.toClient| == 1 && n.toClient[0].Challenge?
       case SigningIn => n.server.state == AwaitingAuth && n.toServer == [] && n.toClient == [] && c.ticket
       case Authenticating => SigningOn(n)
       case AwaitingManifest => Asking(w, n)
       case SyncingAssets => Transferring(w, n)
       case Syncing => Entering(w, n)
       case Joined =>
         && Exact(Entries(w), c.transfer.virtualFs, w.store.hash)
         && n.server.state == Playing && n.toServer == [] && forall f :: f in n.toClient ==> f.Gameplay?
       case Failed =>
         n.server.state == AwaitingAuth && n.toServer == [] &&
         (n.toClient == [] || (|n.toClient| == 1 && n.toClient[0].Challenge?))
  }

  ghost predicate Live(w: World, n: Net) {
    && InStep(w, n)
    && n.session.held == [] && !n.session.overflow && n.server.state != Closed && n.server.refusal == None
    && (if n.session.client.status == Failed then OwnCause(n.session.client.failure) else n.session.client.failure == None)
  }

  /** What a refusing server sends last. */
  predicate Farewell(tail: seq<ToClient>) {
    && 1 <= |tail| <= 2
    && tail[|tail| - 1].Disconnect? && Legitimate(tail[|tail| - 1].reason)
    && (|tail| == 2 ==> tail[0].AuthResult? && !tail[0].ok)
  }

  /** The server has refused, but the client still sees the pair `n0`. */
  ghost predicate Shadow(w: World, n: Net, n0: Net, tail: seq<ToClient>) {
    && Live(w, n0) && n0.server.state != Playing && n0.session == n.session
    && Farewell(tail) && n.toClient == n0.toClient + tail
    && (|tail| == 2 ==> n0.session.client.status == Authenticating && n0.toClient == [])
  }

  /** The client knows, or holds the news until a JoinAccept that never comes. */
  predicate Over(n: Net) {
    var c := n.session.client;
    && c.started && !n.session.overflow
    && if c.status == Failed then
         && (OwnCause(c.failure) || c.failure == Some(AuthRejected) ||
             (c.failure.Some? && c.failure.value.Disconnected? && Legitimate(c.failure.value.reason)))
         && (n.toClient == [] || (|n.toClient| == 1 && Farewell(n.toClient)))
       else c.status == Syncing && c.failure == None && n.toClient == [] && |n.session.held| == 1 && Farewell(n.session.held)
  }

  ghost predicate Refused(w: World, n: Net) {
    && n.server.state == Closed && n.server.refusal.Some? && Legitimate(n.server.refusal.value)
    && (Over(n) || exists n0, tail :: Shadow(w, n, n0, tail))
  }

  ghost predicate Agree(w: World, n: Net) {
    Live(w, n) || Refused(w, n)
  }

  lemma GoneNow(w: World, n: Net, s: Server, tail: seq<ToClient>, toServer: seq<ToServer>)
    requires Live(w, n) && n.server.state != Playing && Farewell(tail)
    requires |tail| == 2 ==> n.session.client.status == Authenticating && n.toClient == []
    requires s.state == Closed && s.refusal.Some? && Legitimate(s.refusal.value)
    ensures Refused(w, Net(s, n.session, toServer, n.toClient + tail))
  {
    assert Shadow(w, Net(s, n.session, toServer, n.toClient + tail), n, tail);
  }

  // --------------------------------------------------- the server's own steps

  lemma TimeOutAgrees(w: World, n: Net)
    requires Live(w, n)
    ensures Agree(w, Act(w, n, TimeOut))
  {
    hide InStep;
    if n.server.state == Playing {
      assert n.toClient + [] == n.toClient;
    } else {
      GoneNow(w, n, OnTimeout(n.server).0, [Disconnect(TimedOut)], n.toServer);
    }
  }

  lemma PlayAgrees(w: World, n: Net, content: nat)
    requires Live(w, n)
    ensures Live(w, Act(w, n, Play(content)))
  {
    hide Exact, InFlight, GoodStream;
    if n.server.state == Playing && n.session.client.status == Syncing {
      var j :| WelcomeAt(n.toClient, j);
      assert WelcomeAt(n.toClient + [Gameplay(content)], j);
    }
  }

  lemma AcceptedOrGone(w: World, n: Net, s: Server, outcome: AuthOutcome)
    requires Live(w, n) && n.session.client.status == Authenticating && n.toClient == []
    requires n.server.state != Playing && s.refusal == None
    ensures Agree(w, ByServer(n.(toServer := []), FinishAuth(s, outcome)))
  {
    var (r, sent) := FinishAuth(s, outcome);
    if !outcome.ok {
      GoneNow(w, n, r, sent, []);
    }
  }

  lemma VerdictAgrees(w: World, n: Net, verdict: Option<AuthOutcome>, host: Host)
    requires Live(w, n)
    ensures Agree(w, Act(w, n, Verdict(verdict, host)))
  {
    hide InFlight, Exact, FinishAuth;
    if n.server.state == VerifyingAuth && verdict.Some? {
      assert n.session.client.status == Authenticating;
      var s := n.server.(ticket := false);
      var o := verdict.value;
      if !o.ok {
        AcceptedOrGone(w, n, s, o);
      } else if o.login == None || !host.admits {
        AcceptedOrGone(w, n, s, REJECTED);
      } else {
        var given := o.login.value;
        var name := host.resolveName(if o.resolvedName == "" then given.name else o.resolvedName, given);
        AcceptedOrGone(w, n, s.(login := Some(given.(name := name))), o.(resolvedName := name));
      }
    } else {
      assert n.toClient + [] == n.toClient;
    }
  }

  lemma AuthAgrees(w: World, n: Net, host: Host)
    requires Live(w, n) && n.server.state == AwaitingAuth && n.session.client.status == Authenticating
    ensures Agree(w, Act(w, n, ToServerArrives(host)))
  {
    hide InFlight, Exact, FinishAuth;
    var msg := n.toServer[0];
    var named := n.server.(requestedName := msg.name);
    assert n.toServer[1..] == [];
    if host.playerCount >= w.server.maxPlayers {
      GoneNow(w, n, Fail(n.server, ServerFull).0, [Disconnect(ServerFull)], []);
    } else if !w.server.external {
      AcceptedOrGone(w, n, named, host.authenticate);
    } else if !host.begins {
      GoneNow(w, n, Fail(named, CannotAuthenticate).0, [Disconnect(CannotAuthenticate)], []);
    } else if host.verdict == None {
      assert n.toClient + [] == n.toClient;
    } else {
      var o := host.verdict.value;
      var s := named.(state := VerifyingAuth, ticket := false);
      if !o.ok {
        AcceptedOrGone(w, n, s, o);
      } else if o.login == None || !host.admits {
        AcceptedOrGone(w, n, s, REJECTED);
      } else {
        var given := o.login.value;
        var name := host.resolveName(if o.resolvedName == "" then given.name else o.resolvedName, given);
        AcceptedOrGone(w, n, s.(login := Some(given.(name := name))), o.(resolvedName := name));
      }
    }
  }

  lemma HelloAgrees(w: World, n: Net, host: Host)
    requires Live(w, n) && n.server.state == AwaitingHello
    ensures Agree(w, Act(w, n, ToServerArrives(host)))
  {
    hide InFlight, Exact;
    if n.toServer != [] {
      assert n.toServer[1..] == [];
      var (s, sent) := OnHello(w.server, n.server, n.toServer[0], host);
      if s.state == Closed {
        GoneNow(w, n, s, sent, []);
      }
    }
  }

  lemma RequestAgrees(w: World, n: Net, host: Host)
    requires Live(w, n) && Conforming(w)
    requires n.server.state == AwaitingManifestRequest || n.server.state == AwaitingAssetRequest
    ensures Live(w, Act(w, n, ToServerArrives(host)))
  {
    hide Exact, AllFrames, Stream, ScannedEntry, IngestRun;
    var r := Act(w, n, ToServerArrives(host));
    if n.session.client.status == SyncingAssets && n.server.state == AwaitingAssetRequest {
      assert n.toServer[1..] == [];
      assert n.toClient + [] == n.toClient;
      StreamBegins(w, r);
    } else if n.session.client.status == Syncing {
      assert n.toServer[1..] == [Ready];
      assert n.toClient + [] == n.toClient;
    }
  }

  lemma StreamBegins(w: World, n: Net)
    requires Conforming(w) && FirstScan(w).missing != []
    requires n.server.state == StreamingAssets && n.server.stream == NO_STREAM.(pending := FirstScan(w).missing)
    requires n.toClient == [] && n.session.client.transfer == FirstScan(w).transfer
    ensures InFlight(w, n, 0, 0)
  {
    var files, missing := w.server.files, FirstScan(w).missing;
    ScannedSound(Entries(w), w.store.index, w.store.disk, w.store.now, w.store.hash);
    forall h | h in missing
      ensures h in files
    {
      var e :| e in Entries(w) && e.hash == h;
    }
    assert missing[0] in missing && missing[0..] == missing;
    RemainingNext(files, n.server.stream);
    assert FramesFrom(missing[0], files[missing[0]], 0) != [];
    assert AllFrames(w)[..0] == [] && AllFrames(w)[0..] == AllFrames(w) && Datas(AllFrames(w)[0..0]) == [];
  }

  lemma {:induction false} RepeatsSetup(k: nat)
    ensures forall f :: f in Repeat(k) ==> f == Setup
  {
    if k > 0 {
      RepeatsSetup(k - 1);
    }
  }

  lemma ReadyAgrees(w: World, n: Net, host: Host)
    requires Live(w, n) && n.server.state == AwaitingReady
    ensures Live(w, Act(w, n, ToServerArrives(host)))
  {
    hide Exact, InFlight;
    if n.session.client.status == Syncing {
      assert n.toServer[1..] == [];
      var r := Act(w, n, ToServerArrives(host));
      RepeatsSetup(w.server.setupFrames);
      assert forall i :: 0 <= i < w.server.setupFrames ==> r.toClient[i] in Repeat(w.server.setupFrames);
      assert WelcomeAt(r.toClient, w.server.setupFrames);
    }
  }

  lemma ArrivalAgrees(w: World, n: Net, host: Host)
    requires Live(w, n) && Conforming(w)
    ensures Agree(w, Act(w, n, ToServerArrives(host)))
  {
    if n.server.state == AwaitingHello {
      HelloAgrees(w, n, host);
    } else if n.server.state == AwaitingAuth && n.session.client.status == Authenticating {
      AuthAgrees(w, n, host);
    } else if n.server.state == AwaitingManifestRequest || n.server.state == AwaitingAssetRequest {
      RequestAgrees(w, n, host);
    } else if n.server.state == AwaitingReady {
      ReadyAgrees(w, n, host);
    } else {
      hide InFlight, Exact, OnServerFrame;
      assert n.toServer == [];
    }
  }

  lemma PumpAgrees(w: World, n: Net, budget: nat)
    requires Live(w, n)
    ensures Live(w, Act(w, n, Pump(budget)))
  {
    hide Exact, IngestRun, Pumped, InFlight, GoodStream;
    if n.server.state != StreamingAssets {
      NothingPumped(w.server.files, n.server, budget);
      assert n.toClient + [] == n.toClient;
    } else {
      var k: nat, m: nat :| InFlight(w, n, k, m);
      FramesPumped(w, n, k, m, budget);
    }
  }

  lemma FramesPumped(w: World, n: Net, k: nat, m: nat, budget: nat)
    requires InFlight(w, n, k, m) && n.server.state == StreamingAssets
    ensures var r := Act(w, n, Pump(budget));
            var sent := Min(budget, |Remaining(w.server.files, n.server.stream)|);
            InFlight(w, r, k, m + sent) && r.server == n.server.(state := r.server.state, stream := r.server.stream) &&
            (r.server.state == StreamingAssets || r.server.state == AwaitingReady)
  {
    hide IngestRun, Pumped, GoodStream, Remaining, AllFrames;
    var all, rest := AllFrames(w), Remaining(w.server.files, n.server.stream);
    var sent := Min(budget, |rest|);
    PumpedSendsPrefix(w.server.files, n.server, budget);
    assert rest == all[m..];
    assert rest[sent..] == all[m + sent..];
    assert Datas(all[k..m]) + Datas(rest[..sent]) == Datas(all[k..m + sent]);
  }

  lemma NothingPumped(files: Disk, s: Server, budget: nat)
    requires s.state != StreamingAssets
    ensures Pumped(files, s, budget) == (s, [])
  {
    PumpedStays(files, s, 0, budget);
  }

  // --------------------------------------------------- the client's own steps

  lemma ClientActsAlone(w: World, n: Net, a: Action)
    requires Live(w, n) && (a.Connect? || a.SignedIn? || a.Cancel?)
    ensures Live(w, Act(w, n, a))
  {
    hide InFlight, Exact, Transferring, Entering, GoodStream;
    assert n.toServer + [] == n.toServer;
    assert [] + Act(w, n, a).toServer == Act(w, n, a).toServer;
  }

  lemma ManifestStarts(w: World, c: Client)
    requires Conforming(w)
    ensures OnManifest(c, w.store, ManifestFor(w.server, w.client.known)) ==
            var s := FirstScan(w);
            if s.missing == [] then (c.(transfer := s.transfer, status := Syncing), [AssetRequest([]), Ready])
            else (c.(transfer := s.transfer, status := SyncingAssets), [AssetRequest(s.missing)])
  {
    hide Scanned;
    var msg := ManifestFor(w.server, w.client.known);
    assert EntryList(msg.entries, msg.hash, w.store.manifests) == Entries(w);
  }

  lemma EmptyScanIsExact(w: World)
    requires Conforming(w) && FirstScan(w).missing == []
    ensures Exact(Entries(w), FirstScan(w).transfer.virtualFs, w.store.hash)
  {
    TransferExact(Entries(w), w.store.index, w.store.disk, w.server.files, w.store.now, 0, w.store.hash);
    assert Stream(w.server.files, []) == [];
    assert IngestRun(FirstScan(w).transfer, [], w.store.hash) == (FirstScan(w).transfer, true);
  }

  lemma ManifestArrives(w: World, n: Net, poll: Option<TokenPoll>)
    requires Live(w, n) && Conforming(w) && n.session.client.status == AwaitingManifest
    ensures Live(w, Act(w, n, ToClientArrives(poll)))
  {
    hide Exact, OnManifest, Scanned;
    if n.toClient != [] {
      assert n.toClient[1..] == [];
      ManifestStarts(w, n.session.client);
      if FirstScan(w).missing == [] {
        EmptyScanIsExact(w);
      }
      assert [] + [AssetRequest([]), Ready] == [AssetRequest([]), Ready];
    }
  }

  /** The client accepts the k-th frame, and is done exactly if it is the last. */
  lemma FrameTaken(w: World, n: Net, k: nat, m: nat)
    requires Conforming(w) && InFlight(w, n, k, m) && k < m
    ensures n.toClient != [] && n.toClient[0] == Data(AllFrames(w)[k])
    ensures var (t, ok) := Ingested(n.session.client.transfer, AllFrames(w)[k], w.store.hash);
            ok && (t, true) == IngestRun(FirstScan(w).transfer, AllFrames(w)[..k + 1], w.store.hash) &&
            (AllReceived(t) <==> k + 1 == |AllFrames(w)|) &&
            (k + 1 == |AllFrames(w)| ==> Exact(Entries(w), t.virtualFs, w.store.hash))
  {
    hide Exact, AllReceived, Ingested;
    var all := AllFrames(w);
    TransferExact(Entries(w), w.store.index, w.store.disk, w.server.files, w.store.now, k + 1, w.store.hash);
    assert all[..k + 1][..k] == all[..k];
    assert n.toClient[0] == Data(all[k..m][0]);
  }

  lemma DataArrives(w: World, n: Net, poll: Option<TokenPoll>)
    requires Live(w, n) && Conforming(w) && n.session.client.status == SyncingAssets
    ensures Live(w, Act(w, n, ToClientArrives(poll)))
  {
    hide Exact, AllReceived, Ingested, GoodStream, Remaining, IngestRun, AllFrames;
    if n.toClient != [] {
      var k: nat, m: nat :| InFlight(w, n, k, m);
      assert k < m;
      FrameTaken(w, n, k, m);
      assert n.toClient[1..] == Datas(AllFrames(w)[k + 1..m]);
      var r := Act(w, n, ToClientArrives(poll));
      assert n.toServer + [] == n.toServer;
      if k + 1 < |AllFrames(w)| {
        assert InFlight(w, r, k + 1, m);
      } else {
        assert r.toServer == [Ready];
      }
    }
  }

  lemma PlayingMeansIn(w: World, n: Net)
    requires Live(w, n) && n.server.state == Playing
    ensures n.session.client.status == Syncing || n.session.client.status == Joined
  {
    hide Exact, InFlight;
  }

  lemma WelcomeArrives(w: World, n: Net, poll: Option<TokenPoll>)
    requires Live(w, n) && n.session.client.status == Syncing && n.server.state == Playing && n.toClient != []
    ensures Live(w, Act(w, n, ToClientArrives(poll)))
  {
    hide Exact, Transferring, Greeting, SigningOn, Asking, OnData, OnManifest, OnServerInfo, OnChallenge, OnAuthResult, Contents;
    var r := Act(w, n, ToClientArrives(poll));
    assert n.toServer + [] == n.toServer;
    var j: nat :| WelcomeAt(n.toClient, j);
    if j > 0 {
      assert WelcomeAt(r.toClient, j - 1);
    }
  }

  lemma GameplayArrives(w: World, n: Net, poll: Option<TokenPoll>)
    requires Live(w, n) && n.session.client.status == Joined && n.toClient != []
    ensures Live(w, Act(w, n, ToClientArrives(poll)))
  {
    hide Exact, Transferring, Entering, Greeting, SigningOn, Asking, OnClientFrame, Contents;
    assert n.toServer + [] == n.toServer;
  }

  lemma GreetingArrives(w: World, n: Net, poll: Option<TokenPoll>)
    requires Live(w, n) && n.toClient != [] && n.session.client.status == Connecting
    ensures Live(w, Act(w, n, ToClientArrives(poll)))
  {
    hide Transferring, Entering, Asking, OnData, OnManifest, OnAuthResult, OnChallenge, Contents, Exact, Entries;
    assert n.toServer + [] == n.toServer;
    assert |n.toClient[1..]| == |n.toClient| - 1;
  }

  lemma ChallengeArrives(w: World, n: Net, poll: Option<TokenPoll>)
    requires Live(w, n) && n.toClient != [] && n.session.client.status == AwaitingChallenge
    ensures Live(w, Act(w, n, ToClientArrives(poll)))
  {
    hide Transferring, Entering, Asking, Greeting, OnData, OnManifest, OnAuthResult, OnServerInfo, Contents, Exact, Entries;
    assert n.toClient[1..] == [];
    assert n.toServer == [];
  }

  lemma ResultArrives(w: World, n: Net, poll: Option<TokenPoll>)
    requires Live(w, n) && n.toClient != []
    requires n.session.client.status == SigningIn || n.session.client.status == Authenticating || n.session.client.status == Failed
    ensures Live(w, Act(w, n, ToClientArrives(poll)))
  {
    hide Transferring, Entering, OnData, OnManifest, OnChallenge, OnServerInfo, Contents, Exact, Entries, Greeting;
    assert n.toServer + [] == n.toServer;
    assert |n.toClient[1..]| == |n.toClient| - 1;
  }

  lemma ClientArrivalAgrees(w: World, n: Net, poll: Option<TokenPoll>)
    requires Live(w, n) && Conforming(w)
    ensures Live(w, Act(w, n, ToClientArrives(poll)))
  {
    if n.toClient != [] && n.session.client.started {
      if n.server.state == Playing {
        PlayingMeansIn(w, n);
        if n.session.client.status == Syncing {
          WelcomeArrives(w, n, poll);
        } else {
          GameplayArrives(w, n, poll);
        }
      } else if n.session.client.status == AwaitingManifest {
        ManifestArrives(w, n, poll);
      } else if n.session.client.status == SyncingAssets {
        DataArrives(w, n, poll);
      } else if n.session.client.status == Connecting {
        GreetingArrives(w, n, poll);
      } else if n.session.client.status == AwaitingChallenge {
        ChallengeArrives(w, n, poll);
      } else {
        ResultArrives(w, n, poll);
      }
    }
  }

  predicate ByTheClient(a: Action) {
    a.Connect? || a.SignedIn? || a.Cancel? || a.ToClientArrives?
  }

  lemma ClientStepStaysLive(w: World, n: Net, a: Action)
    requires Live(w, n) && Conforming(w) && ByTheClient(a)
    ensures Live(w, Act(w, n, a)) && Act(w, n, a).server == n.server
  {
    hide Live;
    if a.ToClientArrives? {
      ClientArrivalAgrees(w, n, a.poll);
    } else {
      ClientActsAlone(w, n, a);
    }
  }

  // ------------------------------------------------------ after a refusal

  lemma ServerIsGone(w: World, n: Net, a: Action)
    requires n.server.state == Closed && !ByTheClient(a)
    ensures var r := Act(w, n, a); r == n.(toServer := r.toServer)
  {
    if a.Pump? {
      NothingPumped(w.server.files, n.server, a.budget);
    }
    assert n.toClient + [] == n.toClient;
  }

  /** The client's next step is its step against the pair it still sees. */
  lemma SameAsShadow(w: World, n: Net, n0: Net, tail: seq<ToClient>, a: Action)
    requires n0.session == n.session && n.toClient == n0.toClient + tail && ByTheClient(a)
    requires a.ToClientArrives? ==> n0.toClient != [] || !n.session.client.started
    ensures var (r, r0) := (Act(w, n, a), Act(w, n0, a));
            r.session == r0.session && r.toClient == r0.toClient + tail && r.server == n.server
  {
    hide Received;
    if a.ToClientArrives? && n0.toClient != [] {
      assert n.toClient[0] == n0.toClient[0];
      assert n.toClient[1..] == n0.toClient[1..] + tail;
    }
  }

  /** What a client is like to whom only a farewell is on its way. */
  predicate Unaware(n: Net) {
    var c := n.session.client;
    && c.started && n.session.held == [] && !n.session.overflow && c.status != Joined
    && (if c.status == Failed then OwnCause(c.failure) else c.failure == None)
    && Farewell(n.toClient) && (|n.toClient| == 2 ==> c.status == Authenticating)
  }

  lemma ShadowIsUnaware(w: World, n: Net, n0: Net, tail: seq<ToClient>)
    requires Shadow(w, n, n0, tail) && n0.toClient == [] && n.session.client.started
    ensures Unaware(n)
  {
    hide Transferring, Entering, Greeting, SigningOn, Asking, Exact;
    assert n.toClient == tail;
  }

  lemma FarewellTaken(w: World, n: Net, poll: Option<TokenPoll>)
    requires Unaware(n)
    ensures Over(Act(w, n, ToClientArrives(poll)))
  {
    hide OnServerInfo, OnChallenge, OnData, OnManifest, Contents;
    if |n.toClient| == 1 {
      assert n.toClient[1..] == [];
    } else {
      assert n.toClient[1..] == [n.toClient[1]];
    }
  }

  lemma FarewellArrives(w: World, n: Net, n0: Net, tail: seq<ToClient>, poll: Option<TokenPoll>)
    requires Shadow(w, n, n0, tail) && n0.toClient == [] && n.session.client.started
    ensures Over(Act(w, n, ToClientArrives(poll)))
  {
    hide *;
    ShadowIsUnaware(w, n, n0, tail);
    FarewellTaken(w, n, poll);
  }

  lemma AfterRefusal(w: World, n: Net, a: Action)
    requires Refused(w, n) && Conforming(w)
    ensures Refused(w, Act(w, n, a))
  {
    hide Live, Farewell, Legitimate;
    var r := Act(w, n, a);
    if !ByTheClient(a) {
      ServerIsGone(w, n, a);
      if !Over(n) {
        var n0, tail :| Shadow(w, n, n0, tail);
        assert Shadow(w, r, n0, tail);
      }
    } else if Over(n) {
      OverStays(w, n, a);
    } else {
      var n0, tail :| Shadow(w, n, n0, tail);
      if a.ToClientArrives? && n0.toClient == [] && n.session.client.started {
        FarewellArrives(w, n, n0, tail, a.poll);
      } else {
        SameAsShadow(w, n, n0, tail, a);
        ClientStepStaysLive(w, n0, a);
        ShadowMoves(w, n, n0, tail, a);
      }
    }
  }

  lemma ShadowMoves(w: World, n: Net, n0: Net, tail: seq<ToClient>, a: Action)
    requires Shadow(w, n, n0, tail) && ByTheClient(a) && Live(w, Act(w, n0, a)) && Act(w, n0, a).server == n0.server
    requires Act(w, n, a).session == Act(w, n0, a).session && Act(w, n, a).toClient == Act(w, n0, a).toClient + tail
    ensures Shadow(w, Act(w, n, a), Act(w, n0, a), tail)
  {
    hide Live, Received;
    if |tail| == 2 {
      assert n0.toClient == [] && n0.session.client.status == Authenticating;
      AuthenticatingWaits(w, n0, a);
    }
  }

  lemma AuthenticatingWaits(w: World, n: Net, a: Action)
    requires Live(w, n) && ByTheClient(a) && n.session.client.status == Authenticating && n.toClient == []
    ensures Act(w, n, a) == n
  {
    assert n.session.client.started;
    assert n.toServer + [] == n.toServer;
  }

  lemma OverStays(w: World, n: Net, a: Action)
    requires Over(n) && ByTheClient(a)
    ensures Over(Act(w, n, a)) && Act(w, n, a).server == n.server
  {
    assert n.toServer + [] == n.toServer;
  }

  // ---------------------------------------------------------- over whole runs

  lemma {:induction false} StepAgrees(w: World, n: Net, a: Action)
    requires Agree(w, n) && Conforming(w)
    ensures Agree(w, Act(w, n, a))
  {
    hide Live, Refused, Conforming;
    if Refused(w, n) {
      AfterRefusal(w, n, a);
    } else if ByTheClient(a) {
      ClientStepStaysLive(w, n, a);
    } else {
      match a
      case ToServerArrives(host) => ArrivalAgrees(w, n, host);
      case Pump(budget) => PumpAgrees(w, n, budget);
      case Verdict(verdict, host) => VerdictAgrees(w, n, verdict, host);
      case TimeOut => TimeOutAgrees(w, n);
      case Play(content) => PlayAgrees(w, n, content);
    }
  }

  lemma {:induction false} RunAgrees(w: World, actions: seq<Action>)
    requires Conforming(w)
    ensures Agree(w, Run(w, actions))
    decreases |actions|
  {
    if actions == [] {
      assert Live(w, START);
    } else {
      hide Agree, Act, Conforming;
      RunAgrees(w, actions[..|actions| - 1]);
      StepAgrees(w, Run(w, actions[..|actions| - 1]), actions[|actions| - 1]);
    }
  }

  /** No "expected X", no unknown asset, no rejected frame, no protocol mismatch
      found by the client, no overflow, at either end or in a farewell. */
  predicate Clean(n: Net) {
    var f := n.session.client.failure;
    && (n.server.refusal.Some? ==> Legitimate(n.server.refusal.value))
    && f != Some(OutOfTurn) && f != Some(TransferFailed) && f != Some(ProtocolVersion)
    && (f.Some? && f.value.Disconnected? ==> Legitimate(f.value.reason))
    && !n.session.overflow
  }

  lemma AgreeIsClean(w: World, n: Net)
    requires Agree(w, n)
    ensures Clean(n)
    ensures n.server.state == StreamingAssets ==> n.toServer == []
    ensures n.session.client.status == Joined ==>
              n.server.state == Playing && Exact(Entries(w), n.session.client.transfer.virtualFs, w.store.hash)
  {
    hide InFlight, Exact;
    if !Live(w, n) && !Over(n) {
      var n0, tail :| Shadow(w, n, n0, tail);
    }
  }

  /** Join never misfires: in every run of a conforming pair neither end ever
      sees a message out of turn, and a joined client has exactly the manifest's files. */
  lemma {:induction false} NeverMisfires(w: World, actions: seq<Action>)
    requires Conforming(w)
    ensures var n := Run(w, actions);
            Clean(n) && (n.session.client.status == Joined ==>
              n.server.state == Playing && Exact(Entries(w), n.session.client.transfer.virtualFs, w.store.hash))
  {
    RunAgrees(w, actions);
    AgreeIsClean(w, Run(w, actions));
  }

  /** While the server streams, nothing is on its way to it: Ready cannot
      arrive before the last frame is queued. */
  lemma ReadyNeverMeetsStreaming(w: World, actions: seq<Action>)
    requires Conforming(w) && Run(w, actions).server.state == StreamingAssets
    ensures Run(w, actions).toServer == []
  {
    RunAgrees(w, actions);
    AgreeIsClean(w, Run(w, actions));
  }

  // ------------------------------------------------------------------ progress

  /** Frames up to and including JoinAccept. */
  function Ahead(q: seq<ToClient>): nat {
    if q == [] then 0 else if q[0] == JoinAccept then 1 else 1 + Ahead(q[1..])
  }

  lemma {:induction false} AheadIs(q: seq<ToClient>, j: nat)
    requires WelcomeAt(q, j)
    ensures Ahead(q) == j + 1
  {
    if j > 0 {
      assert WelcomeAt(q[1..], j - 1);
      AheadIs(q[1..], j - 1);
    }
  }

  function Unsent(w: World, n: Net): nat {
    if n.server.state == StreamingAssets then |Remaining(w.server.files, n.server.stream)| else 0
  }

  /** How far the join still is from its end. */
  function Rank(w: World, n: Net): nat {
    var setup := w.server.setupFrames;
    var asking := setup + 2 * |AllFrames(w)| + 10;
    match n.session.client.status
    case Connecting =>
      asking + (if n.server.state != AwaitingHello then 7 else if n.session.client.started then 9 else 10)
    case AwaitingChallenge => asking + 6
    case SigningIn => asking + 5
    case Authenticating =>
      asking + (if n.server.state == AwaitingAuth then 4 else if n.server.state == VerifyingAuth then 3 else 2)
    case AwaitingManifest => asking + (if n.server.state == AwaitingManifestRequest then 1 else 0)
    case SyncingAssets =>
      setup + (if n.server.state == AwaitingAssetRequest then 2 * |AllFrames(w)| + 6 else 5 + 2 * Unsent(w, n) + |n.toClient|)
    case Syncing =>
      if n.server.state == AwaitingAssetRequest then setup + 4
      else if n.server.state == AwaitingReady then setup + 3
      else Ahead(n.toClient)
    case _ => 0
  }

  /** The join has ended: the client is in, or one of the two has given up. */
  predicate Settled(n: Net) {
    n.session.client.status == Joined || n.session.client.status == Failed || n.server.state == Closed
  }

  lemma VerdictAdvances(w: World, n: Net, a: Action)
    requires Live(w, n) && Live(w, Act(w, n, a)) && (a.Verdict? || a.TimeOut?)
    ensures Act(w, n, a) == n || Rank(w, Act(w, n, a)) < Rank(w, n)
  {
    hide Exact, InFlight, AllFrames, FirstScan, GoodStream, Ahead, Unsent, WelcomeAt;
    assert n.toClient + [] == n.toClient;
  }

  lemma EarlyFrameAdvances(w: World, n: Net, host: Host)
    requires Live(w, n) && Live(w, Act(w, n, ToServerArrives(host)))
    requires n.session.client.status != SyncingAssets && n.session.client.status != Syncing && n.session.client.status != Joined
    ensures var r := Act(w, n, ToServerArrives(host)); r == n || Rank(w, r) < Rank(w, n)
  {
    hide Exact, InFlight, AllFrames, FirstScan, GoodStream, Ahead, Unsent, Repeat, WelcomeAt, Transferring, Entering;
    assert n.toClient + [] == n.toClient;
  }

  lemma LateFrameAdvances(w: World, n: Net, host: Host)
    requires Live(w, n) && Live(w, Act(w, n, ToServerArrives(host)))
    requires (n.session.client.status == SyncingAssets && n.server.state != AwaitingAssetRequest) ||
             (n.session.client.status == Syncing && n.server.state != AwaitingReady) || n.session.client.status == Joined
    ensures var r := Act(w, n, ToServerArrives(host)); r == n || Rank(w, r) < Rank(w, n)
  {
    hide Exact, InFlight, AllFrames, FirstScan, GoodStream, Ahead, Unsent, Repeat, WelcomeAt, Greeting, Asking, SigningOn;
    assert n.toClient + [] == n.toClient;
  }

  lemma ServerStepAdvances(w: World, n: Net, a: Action)
    requires Live(w, n) && !Settled(n) && Conforming(w) && Live(w, Act(w, n, a))
    requires a.ToServerArrives? || a.Verdict? || a.TimeOut?
    ensures Act(w, n, a) == n || Rank(w, Act(w, n, a)) < Rank(w, n)
  {
    hide Live, Rank, Act, Conforming;
    var status := n.session.client.status;
    if !a.ToServerArrives? {
      VerdictAdvances(w, n, a);
    } else if n.server.state == AwaitingAssetRequest && status == SyncingAssets {
      RequestAdvances(w, n, a.host);
    } else if n.server.state == AwaitingReady && status == Syncing {
      ReadyAdvances(w, n, a.host);
    } else if status == SyncingAssets || status == Syncing || status == Joined {
      LateFrameAdvances(w, n, a.host);
    } else {
      EarlyFrameAdvances(w, n, a.host);
    }
  }

  lemma RequestAdvances(w: World, n: Net, host: Host)
    requires Live(w, n) && Conforming(w) && n.server.state == AwaitingAssetRequest && n.session.client.status == SyncingAssets
    ensures Rank(w, Act(w, n, ToServerArrives(host))) < Rank(w, n)
  {
    hide Exact, IngestRun, Scanned, Stream, GoodStream, Ahead, Remaining;
    assert n.toClient + [] == n.toClient;
    StreamBegins(w, Act(w, n, ToServerArrives(host)));
  }

  lemma ReadyAdvances(w: World, n: Net, host: Host)
    requires Live(w, n) && n.server.state == AwaitingReady && n.session.client.status == Syncing
    ensures Rank(w, Act(w, n, ToServerArrives(host))) < Rank(w, n)
  {
    hide Exact, InFlight, AllFrames, FirstScan, Ahead;
    var r := Act(w, n, ToServerArrives(host));
    RepeatsSetup(w.server.setupFrames);
    assert forall i :: 0 <= i < w.server.setupFrames ==> r.toClient[i] in Repeat(w.server.setupFrames);
    assert WelcomeAt(r.toClient, w.server.setupFrames);
    AheadIs(r.toClient, w.server.setupFrames);
  }

  lemma PumpAdvances(w: World, n: Net, budget: nat)
    requires Live(w, n) && !Settled(n)
    ensures var r := Act(w, n, Pump(budget)); r == n || Rank(w, r) < Rank(w, n)
    ensures n.server.state == StreamingAssets && budget > 0 ==> Act(w, n, Pump(budget)) != n
  {
    hide Exact, IngestRun, Pumped, GoodStream, Remaining, AllFrames;
    assert n.toClient + [] == n.toClient;
    if n.server.state != StreamingAssets {
      NothingPumped(w.server.files, n.server, budget);
    } else if budget == 0 {
      PumpedNone(w.server.files, n.server);
    } else {
      assert n.session.client.status == SyncingAssets;
      var k: nat, m: nat :| InFlight(w, n, k, m);
      FramesPumped(w, n, k, m, budget);
    }
  }

  lemma PumpedNone(files: Disk, s: Server)
    ensures Pumped(files, s, 0) == (s, [])
  {
  }

  lemma ClientAdvances(w: World, n: Net, a: Action)
    requires Live(w, n) && !Settled(n) && (a.Connect? || a.SignedIn? || a.Cancel?)
    ensures Act(w, n, a) == n || Rank(w, Act(w, n, a)) < Rank(w, n)
  {
    hide InFlight, Exact, AllFrames, Ahead, Remaining, GoodStream;
    assert n.toServer + [] == n.toServer;
  }

  lemma DataAdvances(w: World, n: Net, poll: Option<TokenPoll>)
    requires Live(w, n) && Conforming(w) && n.session.client.status == SyncingAssets && n.toClient != []
    ensures Rank(w, Act(w, n, ToClientArrives(poll))) < Rank(w, n)
  {
    hide Exact, AllReceived, Ingested, GoodStream, Remaining, IngestRun, AllFrames, Contents, Conforming, Ahead;
    var k: nat, m: nat :| InFlight(w, n, k, m);
    FrameTaken(w, n, k, m);
    hide InFlight, FirstScan;
  }

  lemma GreetingAdvances(w: World, n: Net, poll: Option<TokenPoll>)
    requires Live(w, n) && n.toClient != []
    requires n.session.client.status == Connecting || n.session.client.status == AwaitingChallenge ||
             n.session.client.status == SigningIn || n.session.client.status == Authenticating
    ensures n.session.client.started ==> Rank(w, Act(w, n, ToClientArrives(poll))) < Rank(w, n)
  {
    hide InFlight, Exact, AllFrames, Remaining, GoodStream, OnData, OnManifest, Ahead, Contents;
  }

  lemma WelcomeAdvances(w: World, n: Net, poll: Option<TokenPoll>)
    requires Live(w, n) && n.session.client.status == Syncing && n.toClient != []
    ensures Rank(w, Act(w, n, ToClientArrives(poll))) < Rank(w, n)
  {
    hide InFlight, Exact, AllFrames, Remaining, GoodStream, OnData, OnManifest, WelcomeAt, Contents;
    assert n.server.state == Playing;
    WelcomeFront(w, n);
  }

  lemma ManifestAdvances(w: World, n: Net, poll: Option<TokenPoll>)
    requires Live(w, n) && Conforming(w) && n.session.client.status == AwaitingManifest && n.toClient != []
    ensures Rank(w, Act(w, n, ToClientArrives(poll))) < Rank(w, n)
  {
    hide Exact, Scanned, OnManifest, AllFrames, Ahead, Unsent, Contents;
    ManifestStarts(w, n.session.client);
  }

  lemma ArrivalAdvances(w: World, n: Net, poll: Option<TokenPoll>)
    requires Live(w, n) && !Settled(n) && Conforming(w) && n.toClient != [] && n.session.client.started
    ensures Rank(w, Act(w, n, ToClientArrives(poll))) < Rank(w, n)
  {
    hide Live, Rank, Act, Conforming;
    match n.session.client.status
    case AwaitingManifest => ManifestAdvances(w, n, poll);
    case SyncingAssets => DataAdvances(w, n, poll);
    case Syncing => WelcomeAdvances(w, n, poll);
    case _ => GreetingAdvances(w, n, poll);
  }

  lemma WelcomeFront(w: World, n: Net)
    requires Live(w, n) && n.session.client.status == Syncing && n.server.state == Playing
    ensures n.toClient != [] && (n.toClient[0] == Setup || n.toClient[0] == JoinAccept)
  {
    var j: nat :| WelcomeAt(n.toClient, j);
    assert n.toClient[0] == if j == 0 then JoinAccept else Setup;
  }

  /** Until the join settles, every step that changes anything and does not
      settle it lowers the rank. */
  lemma {:induction false} StepAdvances(w: World, n: Net, a: Action)
    requires Live(w, n) && !Settled(n) && Conforming(w) && !Settled(Act(w, n, a)) && Act(w, n, a) != n && !a.Play?
    ensures Live(w, Act(w, n, a)) && Rank(w, Act(w, n, a)) < Rank(w, n)
  {
    hide InStep, Rank, Conforming;
    StepAgrees(w, n, a);
    match a
    case Pump(budget) => PumpAdvances(w, n, budget);
    case ToClientArrives(poll) => ArrivalAdvances(w, n, poll);
    case Connect => ClientAdvances(w, n, a);
    case SignedIn(_) => ClientAdvances(w, n, a);
    case Cancel => ClientAdvances(w, n, a);
    case _ => ServerStepAdvances(w, n, a);
  }

  lemma {:induction false} AheadKeeps(q: seq<ToClient>, j: nat, content: nat)
    requires WelcomeAt(q, j)
    ensures Ahead(q + [Gameplay(content)]) == Ahead(q)
  {
    assert WelcomeAt(q + [Gameplay(content)], j);
    AheadIs(q, j);
    AheadIs(q + [Gameplay(content)], j);
  }

  lemma PlayKeepsRank(w: World, n: Net, content: nat)
    requires Live(w, n) && !Settled(n)
    ensures Rank(w, Act(w, n, Play(content))) == Rank(w, n)
  {
    hide Exact, Ahead, AllFrames;
    if n.server.state == Playing {
      assert n.session.client.status == Syncing;
      var j: nat :| WelcomeAt(n.toClient, j);
      AheadKeeps(n.toClient, j, content);
    }
  }

  // ------------------------------------------------------- join never deadlocks

  /** The steps the two ends take by themselves, with what the host and the
      sign-in happen to answer. */
  function Moves(host: Host, budget: nat, verdict: AuthOutcome, poll: TokenPoll): seq<Action> {
    [Connect, ToServerArrives(host), Pump(budget), Verdict(Some(verdict), host), ToClientArrives(None), SignedIn(Some(poll))]
  }

  lemma QuietTransferStreams(w: World, n: Net)
    requires Live(w, n) && n.session.client.status == SyncingAssets && n.toServer == [] && n.toClient == []
    ensures n.server.state == StreamingAssets
  {
    hide GoodStream, Remaining, IngestRun;
    var k: nat, m: nat :| InFlight(w, n, k, m);
  }

  lemma NeverStuck(w: World, n: Net, host: Host, budget: nat, verdict: AuthOutcome, poll: TokenPoll) returns (a: Action)
    requires Live(w, n) && !Settled(n) && budget > 0
    ensures a in Moves(host, budget, verdict, poll) && Act(w, n, a) != n
  {
    if !n.session.client.started {
      a := Connect;
    } else if n.toServer != [] {
      a := ToServerArrives(host);
      assert |Act(w, n, a).toServer| < |n.toServer|;
    } else if n.toClient != [] {
      a := ToClientArrives(None);
      assert |Act(w, n, a).toClient| < |n.toClient|;
    } else if n.server.state == StreamingAssets {
      a := Pump(budget);
      PumpAdvances(w, n, budget);
    } else if n.server.state == VerifyingAuth {
      a := Verdict(Some(verdict), host);
    } else {
      hide Exact, InFlight;
      a := SignedIn(Some(poll));
      if n.session.client.status == SyncingAssets {
        QuietTransferStreams(w, n);
      }
    }
  }

  function RunFrom(w: World, n: Net, actions: seq<Action>): Net
    decreases |actions|
  {
    if actions == [] then n else RunFrom(w, Act(w, n, actions[0]), actions[1..])
  }

  /** From wherever a run stands, whatever host and sign-in answer and however
      small the pump's budget, the ends' own steps settle the join, in at most
      Rank of them. */
  lemma {:induction false} AlwaysSettles(w: World, n: Net, host: Host, budget: nat, verdict: AuthOutcome, poll: TokenPoll)
    returns (actions: seq<Action>)
    requires Live(w, n) && Conforming(w) && budget > 0
    ensures |actions| <= Rank(w, n) + 1 && forall a :: a in actions ==> a in Moves(host, budget, verdict, poll)
    ensures Agree(w, RunFrom(w, n, actions)) && Settled(RunFrom(w, n, actions))
    decreases Rank(w, n)
  {
    hide Live, Rank, Act, Moves, Conforming, Refused;
    if Settled(n) {
      actions := [];
    } else {
      var a := NeverStuck(w, n, host, budget, verdict, poll);
      StepAgrees(w, n, a);
      var r := Act(w, n, a);
      var more := [];
      assert !a.Play? by { MovesArePlayless(a, host, budget, verdict, poll); }
      if !Settled(r) {
        StepAdvances(w, n, a);
        more := AlwaysSettles(w, r, host, budget, verdict, poll);
      }
      actions := [a] + more;
      assert actions[1..] == more;
    }
  }

  lemma MovesArePlayless(a: Action, host: Host, budget: nat, verdict: AuthOutcome, poll: TokenPoll)
    requires a in Moves(host, budget, verdict, poll)
    ensures !a.Play?
  {
  }

  /** Steps of a run that change anything before the join settles, gameplay aside. */
  function Effective(w: World, n: Net, actions: seq<Action>): nat
    decreases |actions|
  {
    if actions == [] || Settled(n) then 0
    else
      var r := Act(w, n, actions[0]);
      (if r != n && !actions[0].Play? then 1 else 0) + Effective(w, r, actions[1..])
  }

  /** No run can keep a join unsettled: whatever is scheduled, delayed or
      polled, at most Rank steps have an effect before it settles. */
  lemma {:induction false} BusyRunsAreShort(w: World, n: Net, actions: seq<Action>)
    requires Agree(w, n) && Conforming(w)
    ensures Effective(w, n, actions) <= Rank(w, n) + 1
    decreases |actions|
  {
    hide Rank, Act, Conforming, InStep;
    if actions != [] && !Settled(n) {
      var a := actions[0];
      StepAgrees(w, n, a);
      BusyRunsAreShort(w, Act(w, n, a), actions[1..]);
      if !Settled(Act(w, n, a)) && Act(w, n, a) != n {
        if a.Play? {
          PlayKeepsRank(w, n, a.content);
        } else {
          StepAdvances(w, n, a);
        }
      }
    }
  }

  lemma {:induction false} RunFromStart(w: World, before: seq<Action>, after: seq<Action>)
    ensures RunFrom(w, Run(w, before), after) == Run(w, before + after)
    decreases |after|
  {
    hide Act;
    if after == [] {
      assert before + after == before;
    } else {
      var longer := before + [after[0]];
      assert longer[..|longer| - 1] == before;
      assert longer + after[1..] == before + after;
      RunFromStart(w, longer, after[1..]);
    }
  }

  /** Join never deadlocks: every run of a conforming pair goes on, by the
      ends' own steps, to one where the client has joined a playing server with
      exactly the manifest's files, or one end has given up for a cause of its
      own: version, pack, capacity, sign-in, time. */
  lemma {:induction false} JoinEnds(w: World, sofar: seq<Action>, host: Host, budget: nat, verdict: AuthOutcome, poll: TokenPoll)
    returns (more: seq<Action>)
    requires Conforming(w) && budget > 0
    ensures |more| <= Rank(w, Run(w, sofar)) + 1 && forall a :: a in more ==> a in Moves(host, budget, verdict, poll)
    ensures var n := Run(w, sofar + more);
            Clean(n) &&
            (n.session.client.status == Failed || n.server.state == Closed ||
             (n.session.client.status == Joined && n.server.state == Playing &&
              Exact(Entries(w), n.session.client.transfer.virtualFs, w.store.hash)))
  {
    hide Live, Rank, Act, Moves, Conforming, Exact;
    RunAgrees(w, sofar);
    more := [];
    if Live(w, Run(w, sofar)) {
      more := AlwaysSettles(w, Run(w, sofar), host, budget, verdict, poll);
      RunFromStart(w, sofar, more);
    } else {
      assert sofar + more == sofar;
    }
    AgreeIsClean(w, Run(w, sofar + more));
  }

  // ------------------------------------------- nothing but a refusal prevents it

  predicate FriendlyOutcome(o: AuthOutcome) {
    o.ok && o.login.Some?
  }

  /** Room for the player, and the player welcome: to a server that leaves
      sign-in to others, after a challenge at hand and an accepted verification. */
  predicate FriendlyHost(w: World, host: Host) {
    && host.playerCount < w.server.maxPlayers
    && if w.server.external then
         && host.challenge.Some? && host.challenge.value != "" && host.begins && host.admits
         && (host.verdict.Some? ==> FriendlyOutcome(host.verdict.value))
       else host.authenticate.ok
  }

  predicate FriendlyPoll(poll: TokenPoll) {
    poll.error == "" && poll.token != "" && |poll.token| <= MAX_TOKEN_BYTES
  }

  predicate CanSignIn(w: World) {
    match w.client.signIn
    case Async(available) => available
    case Direct(token) => token.Some? && token.value != "" && |token.value| <= MAX_TOKEN_BYTES
  }

  predicate FriendlyWorld(w: World) {
    && w.server.version == w.client.version
    && (w.client.automation ==> w.server.acceptAutomation)
    && (w.server.packReq != "" ==> w.client.packAccepts(w.server.packReq))
    && (w.server.external ==> CanSignIn(w))
  }

  predicate Friendly(w: World, a: Action) {
    match a
    case ToServerArrives(host) => FriendlyHost(w, host)
    case Verdict(verdict, host) =>
      w.server.external ==> FriendlyHost(w, host) && (verdict.Some? ==> FriendlyOutcome(verdict.value))
    case ToClientArrives(poll) => w.server.external && poll.Some? ==> FriendlyPoll(poll.value)
    case SignedIn(poll) => w.server.external && poll.Some? ==> FriendlyPoll(poll.value)
    case TimeOut => false
    case Cancel => false
    case _ => true
  }

  /** Nobody signs in with a server that authenticates by itself. */
  predicate Unchallenged(w: World, n: Net) {
    w.server.external ||
    (n.server.state != VerifyingAuth && n.session.client.status != AwaitingChallenge && n.session.client.status != SigningIn)
  }

  lemma ServerStaysUnchallenged(w: World, n: Net, a: Action)
    requires Unchallenged(w, n) && !ByTheClient(a) && !a.Pump?
    ensures Unchallenged(w, Act(w, n, a))
  {
  }

  lemma {:induction false} PumpedUnchallenged(files: Disk, s: Server, rounds: nat)
    requires s.state != VerifyingAuth
    ensures Pumped(files, s, rounds).0.state != VerifyingAuth
  {
    if rounds > 0 {
      PumpedUnchallenged(files, s, rounds - 1);
    }
  }

  lemma ClientStaysUnchallenged(w: World, n: Net, a: Action)
    requires Live(w, n) && Unchallenged(w, n) && ByTheClient(a)
    ensures Unchallenged(w, Act(w, n, a))
  {
    hide Entering, Transferring, Asking, SigningOn, Contents, Scanned, Ingested, OnChallenge;
  }

  lemma StaysUnchallenged(w: World, n: Net, a: Action)
    requires Live(w, n) && Unchallenged(w, n)
    ensures Unchallenged(w, Act(w, n, a))
  {
    if ByTheClient(a) {
      hide *;
      ClientStaysUnchallenged(w, n, a);
    } else if a.Pump? {
      if !w.server.external {
        PumpedUnchallenged(w.server.files, n.server, a.budget);
      }
    } else {
      ServerStaysUnchallenged(w, n, a);
    }
  }

  lemma FriendlyServer(w: World, n: Net, a: Action)
    requires Live(w, n) && n.session.client.status != Failed && FriendlyWorld(w) && Friendly(w, a) && Unchallenged(w, n)
    requires a.ToServerArrives? || a.Verdict?
    ensures Act(w, n, a).server.state != Closed && Act(w, n, a).session == n.session
  {
    hide Exact, InFlight, AllFrames, GoodStream, Scanned;
  }

  lemma FriendlyGreeting(w: World, n: Net, poll: Option<TokenPoll>)
    requires Live(w, n) && FriendlyWorld(w) && Friendly(w, ToClientArrives(poll)) && Unchallenged(w, n)
    requires n.session.client.status == Connecting || n.session.client.status == AwaitingChallenge
    ensures Act(w, n, ToClientArrives(poll)).session.client.status != Failed
  {
    hide Entering, Transferring, Asking, SigningOn, Contents, Scanned, Ingested;
  }

  lemma FriendlyReply(w: World, n: Net, poll: Option<TokenPoll>)
    requires Live(w, n)
    requires n.session.client.status == SigningIn || n.session.client.status == Authenticating || n.session.client.status == AwaitingManifest
    ensures Act(w, n, ToClientArrives(poll)).session.client.status != Failed
  {
    hide Entering, Transferring, Greeting, Contents, Scanned, Ingested;
  }

  lemma FriendlyData(w: World, n: Net, poll: Option<TokenPoll>)
    requires Live(w, n) && Conforming(w) && n.session.client.status == SyncingAssets
    ensures Act(w, n, ToClientArrives(poll)).session.client.status != Failed
  {
    hide Exact, Ingested, Remaining, AllFrames, GoodStream, IngestRun, Contents, Conforming;
    if n.toClient != [] {
      var k: nat, m: nat :| InFlight(w, n, k, m);
      FrameTaken(w, n, k, m);
    }
  }

  lemma FriendlyWelcome(w: World, n: Net, poll: Option<TokenPoll>)
    requires Live(w, n) && (n.session.client.status == Syncing || n.session.client.status == Joined)
    ensures Act(w, n, ToClientArrives(poll)).session.client.status != Failed
  {
    hide Exact, Transferring, Greeting, Asking, SigningOn, Contents, Scanned, Ingested;
  }

  lemma FriendlyClient(w: World, n: Net, a: Action)
    requires Live(w, n) && Conforming(w) && n.session.client.status != Failed && FriendlyWorld(w) && Friendly(w, a)
    requires Unchallenged(w, n) && ByTheClient(a)
    ensures Act(w, n, a).session.client.status != Failed
  {
    if a.ToClientArrives? {
      hide *;
      match n.session.client.status {
        case Connecting => FriendlyGreeting(w, n, a.poll);
        case AwaitingChallenge => FriendlyGreeting(w, n, a.poll);
        case SyncingAssets => FriendlyData(w, n, a.poll);
        case Syncing => FriendlyWelcome(w, n, a.poll);
        case Joined => FriendlyWelcome(w, n, a.poll);
        case SigningIn => FriendlyReply(w, n, a.poll);
        case Authenticating => FriendlyReply(w, n, a.poll);
        case AwaitingManifest => FriendlyReply(w, n, a.poll);
        case Failed =>
      }
    } else {
      hide Live, Conforming;
    }
  }

  lemma FriendlyStep(w: World, n: Net, a: Action)
    requires Live(w, n) && Conforming(w) && n.session.client.status != Failed && FriendlyWorld(w) && Friendly(w, a)
    requires Unchallenged(w, n)
    ensures Live(w, Act(w, n, a)) && Act(w, n, a).session.client.status != Failed && Unchallenged(w, Act(w, n, a))
  {
    hide InStep, Conforming, FriendlyWorld, Unchallenged;
    StepAgrees(w, n, a);
    StaysUnchallenged(w, n, a);
    if ByTheClient(a) {
      ClientStepStaysLive(w, n, a);
      FriendlyClient(w, n, a);
    } else if a.Pump? {
      PumpAgrees(w, n, a.budget);
    } else if a.ToServerArrives? || a.Verdict? {
      FriendlyServer(w, n, a);
    }
  }

  lemma {:induction false} FriendlyRun(w: World, actions: seq<Action>)
    requires Conforming(w) && FriendlyWorld(w) && forall a :: a in actions ==> Friendly(w, a)
    ensures Live(w, Run(w, actions)) && Run(w, actions).session.client.status != Failed && Unchallenged(w, Run(w, actions))
    decreases |actions|
  {
    if actions == [] {
      assert Live(w, START);
    } else {
      hide Live, Act, Conforming, FriendlyWorld, Friendly, Unchallenged;
      var front, last := actions[..|actions| - 1], actions[|actions| - 1];
      assert last in actions && forall a :: a in front ==> a in actions;
      FriendlyRun(w, front);
      FriendlyStep(w, Run(w, front), last);
    }
  }

  lemma FriendlyMove(w: World, a: Action, host: Host, budget: nat, verdict: AuthOutcome, poll: TokenPoll)
    requires a in Moves(host, budget, verdict, poll) && FriendlyHost(w, host)
    requires w.server.external ==> FriendlyOutcome(verdict) && FriendlyPoll(poll)
    ensures Friendly(w, a)
  {
  }

  /** With versions that match, room, time and an accepted sign-in, no run of a
      conforming pair is refused, and every one goes on to a joined client. */
  lemma {:induction false} JoinSucceeds(w: World, sofar: seq<Action>, host: Host, budget: nat, verdict: AuthOutcome, poll: TokenPoll)
    returns (more: seq<Action>)
    requires Conforming(w) && FriendlyWorld(w) && (forall a :: a in sofar ==> Friendly(w, a)) && budget > 0
    requires FriendlyHost(w, host) && (w.server.external ==> FriendlyOutcome(verdict) && FriendlyPoll(poll))
    ensures var n := Run(w, sofar + more);
            n.session.client.status == Joined && n.server.state == Playing &&
            Exact(Entries(w), n.session.client.transfer.virtualFs, w.store.hash)
  {
    more := JoinEnds(w, sofar, host, budget, verdict, poll);
    forall a | a in sofar + more
      ensures Friendly(w, a)
    {
      if a in more {
        FriendlyMove(w, a, host, budget, verdict, poll);
      }
    }
    hide Exact, Live, Conforming, Friendly, FriendlyWorld, Run, Clean;
    FriendlyRun(w, sofar + more);
  }

  // ---------------------------------------------- a refusal the client never reports

  /** A farewell is understood exactly unless it meets a client that waits for
      JoinAccept: that client takes it for an early frame and holds it. */
  lemma FarewellHeardIff(w: World, n: Net, poll: Option<TokenPoll>)
    requires Unaware(n) && |n.toClient| == 1
    ensures var (r, bye) := (Act(w, n, ToClientArrives(poll)), n.toClient[0]);
            && r.toClient == []
            && (r.session.client.failure == Some(Disconnected(bye.reason)) <==> n.session.client.status != Syncing)
            && (n.session.client.status == Syncing ==> r.session == n.session.(held := [bye]))
  {
    hide OnServerInfo, OnChallenge, OnData, OnManifest, Contents;
    assert n.toClient[1..] == [];
  }

  /** In every run: once nothing is on its way any more, the client of a server
      that has refused has failed, or holds the farewell without having read it. */
  lemma RefusalHeardOrHeld(w: World, actions: seq<Action>)
    requires Conforming(w)
    requires var n := Run(w, actions); n.server.state == Closed && n.toClient == [] && n.session.client.started
    ensures var s := Run(w, actions).session;
            s.client.status == Failed ||
            (s.client.status == Syncing && s.client.failure == None && |s.held| == 1 && s.held[0].Disconnect?)
  {
    hide Run, InStep, Conforming;
    RunAgrees(w, actions);
    var n := Run(w, actions);
    if n0, tail :| Shadow(w, n, n0, tail) {
      ShadowIsAhead(w, n, n0, tail);
    }
  }

  lemma ShadowIsAhead(w: World, n: Net, n0: Net, tail: seq<ToClient>)
    requires Shadow(w, n, n0, tail)
    ensures n.toClient != []
  {
    hide Live;
    assert |n.toClient| == |n0.toClient| + |tail|;
  }

  /** And it never reads it: nothing moves that client any more, short of the
      closing of the link. */
  lemma {:induction false} HeldForever(w: World, n: Net, actions: seq<Action>)
    requires n.server.state == Closed && n.toClient == [] && n.session.client.started && n.session.client.status == Syncing
    ensures RunFrom(w, n, actions).session == n.session
    decreases |actions|
  {
    if actions != [] {
      NothingMoves(w, n, actions[0]);
      hide Act;
      HeldForever(w, Act(w, n, actions[0]), actions[1..]);
    }
  }

  lemma NothingMoves(w: World, n: Net, a: Action)
    requires n.server.state == Closed && n.toClient == [] && n.session.client.started && n.session.client.status == Syncing
    ensures var r := Act(w, n, a);
            r.session == n.session && r.server.state == Closed && r.toClient == []
  {
    if !ByTheClient(a) {
      ServerIsGone(w, n, a);
    }
  }

  /** On its way into the game the client waits for JoinAccept while the server
      does not play yet, and nothing is on its way to it. */
  ghost predicate Exposed(n: Net) {
    n.session.client.status == Syncing && n.server.state != Playing && n.toClient == []
  }

  lemma BecomesExposed(w: World, n: Net, a: Action)
    requires Live(w, n) && Live(w, Act(w, n, a))
    requires n.session.client.status != Syncing && n.session.client.status != Joined && n.session.client.status != Failed
    requires Act(w, n, a).session.client.status == Syncing || Act(w, n, a).session.client.status == Joined
    ensures Exposed(Act(w, n, a))
  {
    hide Exact, InFlight, Contents, Scanned, Ingested;
  }

  /** Every run that joins without a refusal passes through such a state. */
  lemma {:induction false} PassesExposed(w: World, actions: seq<Action>) returns (front: seq<Action>)
    requires Conforming(w) && FriendlyWorld(w) && forall a :: a in actions ==> Friendly(w, a)
    requires Run(w, actions).session.client.status == Syncing || Run(w, actions).session.client.status == Joined
    ensures front <= actions && Exposed(Run(w, front)) && Live(w, Run(w, front))
    decreases |actions|
  {
    hide Live, Act, Conforming, FriendlyWorld, Friendly, Unchallenged, Exposed;
    var before, a := actions[..|actions| - 1], actions[|actions| - 1];
    assert forall a :: a in before ==> a in actions;
    FriendlyRun(w, before);
    FriendlyRun(w, actions);
    var n := Run(w, before);
    if n.session.client.status == Syncing || n.session.client.status == Joined {
      front := PassesExposed(w, before);
    } else {
      front := actions;
      BecomesExposed(w, n, a);
    }
  }

  lemma TimesOutExposed(w: World, n: Net)
    requires Live(w, n) && Exposed(n)
    ensures var r := Act(w, Act(w, n, TimeOut), ToClientArrives(None));
            && r.server.state == Closed && r.server.refusal == Some(TimedOut) && r.toClient == []
            && r.session == n.session.(held := [Disconnect(TimedOut)])
  {
    hide InStep;
    assert n.session.client.started by { SyncingHasStarted(w, n); }
    var t := Act(w, n, TimeOut);
    assert t.toClient == [Disconnect(TimedOut)];
    FarewellHeardIff(w, t, None);
  }

  lemma SyncingHasStarted(w: World, n: Net)
    requires Live(w, n) && n.session.client.status == Syncing
    ensures n.session.client.started
  {
    hide Exact;
  }

  /** It happens wherever a join can succeed: the server times out on a client
      that is ready, and the client is left waiting without having read why. */
  lemma {:induction false} FarewellLostInARun(w: World, host: Host, budget: nat, verdict: AuthOutcome, poll: TokenPoll)
    returns (actions: seq<Action>)
    requires Conforming(w) && FriendlyWorld(w) && budget > 0
    requires FriendlyHost(w, host) && (w.server.external ==> FriendlyOutcome(verdict) && FriendlyPoll(poll))
    ensures var n := Run(w, actions);
            && n.server.refusal == Some(TimedOut) && n.toClient == []
            && n.session.client.status == Syncing && n.session.client.failure == None
            && n.session.held == [Disconnect(TimedOut)]
  {
    hide Live, Act, Conforming, FriendlyWorld, Friendly, Exact, Exposed, Run;
    var all := JoinEnds(w, [], host, budget, verdict, poll);
    assert [] + all == all;
    forall a | a in all
      ensures Friendly(w, a)
    {
      FriendlyMove(w, a, host, budget, verdict, poll);
    }
    JoinedAtTheEnd(w, all);
    var front := PassesExposed(w, all);
    TimesOutExposed(w, Run(w, front));
    RunTwo(w, front, TimeOut, ToClientArrives(None));
    actions := front + [TimeOut] + [ToClientArrives(None)];
    ExposedIsSyncing(w, Run(w, front));
  }

  lemma JoinedAtTheEnd(w: World, all: seq<Action>)
    requires Conforming(w) && FriendlyWorld(w) && forall a :: a in all ==> Friendly(w, a)
    requires var n := Run(w, all);
             n.session.client.status == Failed || n.server.state == Closed || n.session.client.status == Joined
    ensures Run(w, all).session.client.status == Joined
  {
    hide Run, InStep, Conforming, FriendlyWorld, Friendly, Unchallenged;
    FriendlyRun(w, all);
  }

  lemma ExposedIsSyncing(w: World, n: Net)
    requires Exposed(n) && Live(w, n)
    ensures n.session.client.status == Syncing && n.session.client.failure == None
  {
  }

  lemma RunTwo(w: World, front: seq<Action>, a: Action, b: Action)
    ensures Run(w, front + [a] + [b]) == Act(w, Act(w, Run(w, front), a), b)
  {
    hide Act;
    assert (front + [a])[..|front|] == front && (front + [a] + [b])[..|front + [a]|] == front + [a];
  }
}
