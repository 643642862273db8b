/**
 The two handshake state machines (src/net/handshake.cpp). Messages are
 datatypes; what the host's hooks answer is passed to each call.
 */
module Handshake {
  import opened AssetCache
  import opened Common

  datatype Login = Login(issuer: string, subject: string, name: string, claims: string)

  /** Verdict on a sign-in; `login` is the verified identity. */
  datatype AuthOutcome = AuthOutcome(ok: bool, resolvedName: string, login: Option<Login>)

  datatype Manifest = Manifest(entries: seq<Entry>, hash: AssetHash)

  datatype ToServer =
    | Hello(version: nat, automation: bool)
    | Auth(name: string, token: string)
    | ManifestRequest(known: AssetHash)
    | AssetRequest(missing: seq<AssetHash>)
    | Ready

  datatype ToClient =
    | ServerInfo(version: nat, external: bool, packReq: string)
    | Challenge(nonce: string)
    | AuthResult(ok: bool, name: string)
    | ManifestReply(hash: AssetHash, entries: seq<Entry>)
    | Data(chunk: AssetData)
    | Setup
    | JoinAccept
    | Disconnect(reason: Reason)
    | Gameplay(content: nat)

  /** Why a server closed; Unexpected stands for every message out of turn. */
  datatype Reason =
    | ProtocolMismatch | AutomationRefused | CannotAuthenticate | ServerFull | AuthFailed | TimedOut
    | Unexpected | AssetNotFound

  // ------------------------------------------------------------------ server

  datatype ServerState =
    | AwaitingHello | AwaitingAuth | VerifyingAuth | AwaitingManifestRequest | AwaitingAssetRequest
    | StreamingAssets | AwaitingReady | Playing | Closed

  datatype ServerConfig = ServerConfig(
    version: nat, external: bool, acceptAutomation: bool, maxPlayers: nat, packReq: string,
    manifest: Option<Manifest>, files: Disk, setupFrames: nat)

  /** What the hooks answer while one event is handled. `begins` says whether
      verification can start, `verdict` is the first answer of its ticket, `netId`
      the id a join is granted. */
  datatype Host = Host(
    challenge: Option<string>, playerCount: nat, begins: bool, verdict: Option<AuthOutcome>,
    authenticate: AuthOutcome, resolveName: (string, Login) -> string, admits: bool,
    netId: nat)

  datatype AssetStream = AssetStream(
    pending: seq<AssetHash>, idx: nat, current: Bytes, chunkIdx: nat, totalChunks: nat, loaded: bool)

  const NO_STREAM := AssetStream([], 0, [], 0, 0, false)

  /** `refusal` is why the server closed, once it has. */
  datatype Server = Server(
    state: ServerState, requestedName: string, nonce: string, ticket: bool, login: Option<Login>,
    playerName: string, stream: AssetStream, refusal: Option<Reason>)

  const NEW_SERVER := Server(AwaitingHello, "", "", false, None, "", NO_STREAM, None)

  type ServerStep = (Server, seq<ToClient>)

  function Fail(s: Server, reason: Reason): ServerStep {
    (s.(state := Closed, refusal := if s.state == Closed then s.refusal else Some(reason)), [Disconnect(reason)])
  }

  function OnTimeout(s: Server): ServerStep {
    if s.state == Playing || s.state == Closed then (s, []) else Fail(s, TimedOut)
  }

  function FinishAuth(s: Server, outcome: AuthOutcome): ServerStep {
    var name := if outcome.ok && outcome.resolvedName != "" then outcome.resolvedName else s.requestedName;
    if !outcome.ok then
      (s.(state := Closed, refusal := Some(AuthFailed)), [AuthResult(false, name), Disconnect(AuthFailed)])
    else
      (s.(playerName := name, state := AwaitingManifestRequest), [AuthResult(true, name)])
  }

  const REJECTED := AuthOutcome(false, "", None)

  /** An accepted token without an identity, or one the pack vetoes, is a rejection. */
  function FinishExternalAuth(s: Server, outcome: AuthOutcome, host: Host): ServerStep {
    if !outcome.ok then FinishAuth(s, outcome)
    else if outcome.login == None then FinishAuth(s, REJECTED)
    else
      var given := outcome.login.value;
      var name := host.resolveName(if outcome.resolvedName == "" then given.name else outcome.resolvedName, given);
      if !host.admits then FinishAuth(s, REJECTED)
      else FinishAuth(s.(login := Some(given.(name := name))), outcome.(resolvedName := name))
  }

  function PollAuth(s: Server, verdict: Option<AuthOutcome>, host: Host): ServerStep {
    if s.state != VerifyingAuth || !s.ticket || verdict == None then (s, [])
    else FinishExternalAuth(s.(ticket := false), verdict.value, host)
  }

  function OnHello(cfg: ServerConfig, s: Server, msg: ToServer, host: Host): ServerStep {
    if !msg.Hello? then Fail(s, Unexpected)
    else if msg.version != cfg.version then Fail(s, ProtocolMismatch)
    else if msg.automation && !cfg.acceptAutomation then Fail(s, AutomationRefused)
    else
      var info := ServerInfo(cfg.version, cfg.external, cfg.packReq);
      if !cfg.external then (s.(state := AwaitingAuth), [info])
      else if host.challenge == None || host.challenge.value == "" then Fail(s, CannotAuthenticate)
      else (s.(state := AwaitingAuth, nonce := host.challenge.value), [info, Challenge(host.challenge.value)])
  }

  function OnAuth(cfg: ServerConfig, s: Server, msg: ToServer, host: Host): ServerStep {
    if !msg.Auth? then Fail(s, Unexpected)
    else if host.playerCount >= cfg.maxPlayers then Fail(s, ServerFull)
    else
      var named := s.(requestedName := msg.name);
      if !cfg.external then FinishAuth(named, host.authenticate)
      else if !host.begins then Fail(named, CannotAuthenticate)
      else PollAuth(named.(ticket := true, state := VerifyingAuth), host.verdict, host)
  }

  function ManifestFor(cfg: ServerConfig, known: AssetHash): ToClient {
    match cfg.manifest
    case None => ManifestReply(ZERO_HASH, [])
    case Some(m) => ManifestReply(m.hash, if known != m.hash then m.entries else [])
  }

  function OnManifestRequest(cfg: ServerConfig, s: Server, msg: ToServer): ServerStep {
    if !msg.ManifestRequest? then Fail(s, Unexpected)
    else (s.(state := AwaitingAssetRequest), [ManifestFor(cfg, msg.known)])
  }

  function OnAssetRequest(s: Server, msg: ToServer): ServerStep {
    if !msg.AssetRequest? then Fail(s, Unexpected)
    else
      (s.(stream := NO_STREAM.(pending := msg.missing),
          state := if msg.missing == [] then AwaitingReady else StreamingAssets), [])
  }

  function Repeat(n: nat): (r: seq<ToClient>)
    ensures |r| == n
  {
    if n == 0 then [] else Repeat(n - 1) + [Setup]
  }

  function OnReady(cfg: ServerConfig, s: Server, msg: ToServer): ServerStep {
    if !msg.Ready? then Fail(s, Unexpected)
    else (s.(state := Playing), Repeat(cfg.setupFrames) + [JoinAccept])
  }

  function OnServerFrame(cfg: ServerConfig, s: Server, msg: ToServer, host: Host): ServerStep {
    match s.state
    case AwaitingHello => OnHello(cfg, s, msg, host)
    case AwaitingAuth => OnAuth(cfg, s, msg, host)
    case AwaitingManifestRequest => OnManifestRequest(cfg, s, msg)
    case AwaitingAssetRequest => OnAssetRequest(s, msg)
    case AwaitingReady => OnReady(cfg, s, msg)
    case _ => Fail(s, Unexpected)
  }

  /** The stream cursor once the file it points at is loaded. */
  function Loaded(st: AssetStream, file: Bytes): AssetStream {
    if st.loaded then st else st.(current := file, chunkIdx := 0, totalChunks := ChunkCount(|file|), loaded := true)
  }

  function Slice(bytes: Bytes, offset: nat): Bytes {
    if offset > |bytes| then [] else bytes[offset..Min(offset + CHUNK_BYTES, |bytes|)]
  }

  /** One round of the pump loop. */
  function PumpOne(files: Disk, s: Server): ServerStep {
    var st := s.stream;
    if s.state != StreamingAssets then (s, [])
    else if st.idx >= |st.pending| then (s.(state := AwaitingReady), [])
    else if !st.loaded && st.pending[st.idx] !in files then Fail(s, AssetNotFound)
    else
      var h := st.pending[st.idx];
      var cur := if st.loaded then st else Loaded(st, files[h]);
      var data := Data(AssetData(h, cur.chunkIdx, cur.totalChunks, Slice(cur.current, cur.chunkIdx * CHUNK_BYTES)));
      if cur.chunkIdx + 1 < cur.totalChunks then (s.(stream := cur.(chunkIdx := cur.chunkIdx + 1)), [data])
      else
        var next := cur.(chunkIdx := cur.chunkIdx + 1, idx := cur.idx + 1, current := [], loaded := false);
        (s.(stream := next, state := if next.idx >= |next.pending| then AwaitingReady else StreamingAssets), [data])
  }

  function Pumped(files: Disk, s: Server, rounds: nat): ServerStep {
    if rounds == 0 then (s, [])
    else
      var (before, sent) := Pumped(files, s, rounds - 1);
      var (after, more) := PumpOne(files, before);
      // a refusal replaces what this call had queued so far
      (after, if before.state == StreamingAssets && after.state == Closed then more else sent + more)
  }

  lemma {:induction false} PumpedStays(files: Disk, s: Server, done: nat, rounds: nat)
    requires done <= rounds && Pumped(files, s, done).0.state != StreamingAssets
    ensures Pumped(files, s, rounds) == Pumped(files, s, done)
  {
    if done < rounds {
      PumpedStays(files, s, done, rounds - 1);
      assert Pumped(files, s, done).1 + [] == Pumped(files, s, done).1;
    }
  }

  // ------------------------------------------------ what every server run keeps

  /** What the session hands to a server handshake. */
  datatype ServerEvent =
    | FrameCame(msg: ToServer, host: Host)
    | VerdictCame(verdict: Option<AuthOutcome>, host: Host)
    | PumpedFor(rounds: nat)
    | TimeUp

  function Handled(cfg: ServerConfig, s: Server, e: ServerEvent): ServerStep {
    match e
    case FrameCame(msg, host) => OnServerFrame(cfg, s, msg, host)
    case VerdictCame(verdict, host) => PollAuth(s, verdict, host)
    case PumpedFor(rounds) => Pumped(cfg.files, s, rounds)
    case TimeUp => OnTimeout(s)
  }

  /** Nothing reopens or alters a closed handshake, or changes why it closed; any
      frame it is still handed it answers with another Disconnect. */
  lemma ClosedIsFinal(cfg: ServerConfig, s: Server, e: ServerEvent)
    requires s.state == Closed
    ensures Handled(cfg, s, e) == (s, if e.FrameCame? then [Disconnect(Unexpected)] else [])
  {
    if e.PumpedFor? {
      PumpedStays(cfg.files, s, 0, e.rounds);
    }
  }

  /** A step that closes ends with one Disconnect giving the reason it records;
      a step that does not close sends none. */
  predicate SaysFarewell(s: Server, step: ServerStep) {
    var (r, sent) := step;
    if r.state == Closed then
      && sent != [] && r.refusal.Some? && sent[|sent| - 1] == Disconnect(r.refusal.value)
      && (forall f :: f in sent[..|sent| - 1] ==> !f.Disconnect?)
    else r.refusal == s.refusal && forall f :: f in sent ==> !f.Disconnect?
  }

  lemma {:induction false} RepeatIsSetup(n: nat)
    ensures forall f :: f in Repeat(n) ==> f.Setup?
  {
    if n > 0 {
      RepeatIsSetup(n - 1);
    }
  }

  lemma PollSaysFarewell(s: Server, verdict: Option<AuthOutcome>, host: Host)
    requires s.state != Closed
    ensures SaysFarewell(s, PollAuth(s, verdict, host))
  {
  }

  lemma FrameSaysFarewell(cfg: ServerConfig, s: Server, msg: ToServer, host: Host)
    requires s.state != Closed
    ensures SaysFarewell(s, OnServerFrame(cfg, s, msg, host))
  {
    hide PollAuth, Repeat;
    RepeatIsSetup(cfg.setupFrames);
    var named := s.(requestedName := match msg case Auth(name, _) => name case _ => "");
    PollSaysFarewell(named.(ticket := true, state := VerifyingAuth), host.verdict, host);
  }

  lemma PumpOneSaysFarewell(files: Disk, s: Server)
    requires s.state != Closed
    ensures SaysFarewell(s, PumpOne(files, s))
  {
  }

  lemma {:induction false} PumpSaysFarewell(files: Disk, s: Server, rounds: nat)
    requires s.state != Closed
    ensures SaysFarewell(s, Pumped(files, s, rounds))
  {
    if rounds > 0 {
      hide PumpOne;
      PumpSaysFarewell(files, s, rounds - 1);
      var before := Pumped(files, s, rounds - 1).0;
      if before.state == StreamingAssets {
        PumpOneSaysFarewell(files, before);
      } else {
        PumpedStays(files, s, rounds - 1, rounds);
      }
    }
  }

  /** A Disconnect is sent exactly when the handshake closes, once, as the last
      frame, with the recorded reason. */
  lemma FarewellOnClosing(cfg: ServerConfig, s: Server, e: ServerEvent)
    requires s.state != Closed
    ensures SaysFarewell(s, Handled(cfg, s, e))
  {
    hide OnServerFrame, PollAuth, Pumped;
    match e
    case FrameCame(msg, host) => FrameSaysFarewell(cfg, s, msg, host);
    case VerdictCame(verdict, host) => PollSaysFarewell(s, verdict, host);
    case PumpedFor(rounds) => PumpSaysFarewell(cfg.files, s, rounds);
    case TimeUp =>
  }

  /** State and all frames sent after these events; a closed handshake is
      handed no more. */
  function Served(cfg: ServerConfig, events: seq<ServerEvent>): ServerStep {
    if events == [] then (NEW_SERVER, [])
    else
      var (s, sent) := Served(cfg, events[..|events| - 1]);
      if s.state == Closed then (s, sent)
      else
        var (r, more) := Handled(cfg, s, events[|events| - 1]);
        (r, sent + more)
  }

  /** Over every run the frames sent hold one Disconnect, at the end, if the
      handshake is closed, and none otherwise. */
  lemma {:induction false} RunSaysFarewell(cfg: ServerConfig, events: seq<ServerEvent>)
    ensures SaysFarewell(NEW_SERVER, Served(cfg, events))
    decreases |events|
  {
    if events != [] {
      hide Handled;
      var front, e := events[..|events| - 1], events[|events| - 1];
      RunSaysFarewell(cfg, front);
      var (s, sent) := Served(cfg, front);
      if s.state != Closed {
        FarewellOnClosing(cfg, s, e);
        var (r, more) := Handled(cfg, s, e);
        if r.state == Closed {
          assert (sent + more)[..|sent + more| - 1] == sent + more[..|more| - 1];
        }
      }
    }
  }

  /** The verdict an event brings for a ticket, if any. */
  function VerdictOf(e: ServerEvent): Option<AuthOutcome> {
    match e
    case FrameCame(_, host) => host.verdict
    case VerdictCame(verdict, _) => verdict
    case _ => None
  }

  /** The event's verdict accepted this identity, under the name the host gives it. */
  predicate Vouches(e: ServerEvent, login: Login) {
    var verdict := VerdictOf(e);
    && verdict.Some? && verdict.value.ok && verdict.value.login.Some? && e.host.admits
    && var given := verdict.value.login.value;
       var asked := if verdict.value.resolvedName == "" then given.name else verdict.value.resolvedName;
       login == given.(name := e.host.resolveName(asked, given))
  }

  predicate Unsigned(s: Server) {
    s.state == AwaitingHello || s.state == AwaitingAuth || s.state == VerifyingAuth
  }

  lemma {:induction false} PumpKeepsLogin(files: Disk, s: Server, rounds: nat)
    ensures var r := Pumped(files, s, rounds).0;
            r.login == s.login && (s.state != StreamingAssets ==> r == s) && (Unsigned(r) ==> r == s)
  {
    if rounds > 0 {
      PumpKeepsLogin(files, s, rounds - 1);
    }
  }

  /** A step sets the login only from the verdict it is handed, on the way from
      waiting for one to an accepted sign-in. */
  lemma LoginFromVerdict(cfg: ServerConfig, s: Server, e: ServerEvent)
    requires s.state != Closed
    ensures var r := Handled(cfg, s, e).0;
            && (r.login != s.login ==> r.login.Some? && Vouches(e, r.login.value) && Unsigned(s) && r.state == AwaitingManifestRequest)
            && (cfg.external && Unsigned(s) && !Unsigned(r) && r.state != Closed ==>
                  r.login.Some? && Vouches(e, r.login.value))
            && (!Unsigned(s) ==> !Unsigned(r))
  {
    if e.PumpedFor? {
      PumpKeepsLogin(cfg.files, s, e.rounds);
    }
  }

  /** Whoever gets past sign-in on a server that leaves it to others does so
      under an identity that a verdict of this run accepted; nobody else has one. */
  lemma {:induction false} SignedInWasVouched(cfg: ServerConfig, events: seq<ServerEvent>)
    ensures var s := Served(cfg, events).0;
            && (s.login.Some? ==> exists e :: e in events && Vouches(e, s.login.value))
            && (cfg.external && !Unsigned(s) && s.state != Closed ==> s.login.Some?)
    decreases |events|
  {
    if events != [] {
      hide Handled, Vouches;
      var front, e := events[..|events| - 1], events[|events| - 1];
      SignedInWasVouched(cfg, front);
      assert e in events && forall f :: f in front ==> f in events;
      var s := Served(cfg, front).0;
      if s.state != Closed {
        LoginFromVerdict(cfg, s, e);
      }
    }
  }

  /** Frames only a signed-in client is sent. */
  predicate Inside(f: ToClient) {
    f.ManifestReply? || f.Data? || f.Setup? || f.JoinAccept?
  }

  predicate Accepted(sent: seq<ToClient>) {
    exists f :: f in sent && f.AuthResult? && f.ok
  }

  /** No step from before sign-in sends such a frame, and leaving it tells the
      client of its acceptance. */
  lemma InsideAfterSignIn(cfg: ServerConfig, s: Server, e: ServerEvent)
    requires Unsigned(s)
    ensures var (r, sent) := Handled(cfg, s, e);
            && (forall f :: f in sent ==> !Inside(f))
            && (Unsigned(r) || r.state == Closed || Accepted(sent))
  {
    if e.PumpedFor? {
      PumpedStays(cfg.files, s, 0, e.rounds);
    } else {
      var (r, sent) := Handled(cfg, s, e);
      if !Unsigned(r) && r.state != Closed {
        assert |sent| == 1 && sent[0].AuthResult? && sent[0].ok;
      }
    }
  }

  lemma StaysSignedIn(cfg: ServerConfig, s: Server, e: ServerEvent)
    requires !Unsigned(s)
    ensures !Unsigned(Handled(cfg, s, e).0)
  {
    if e.PumpedFor? {
      PumpKeepsLogin(cfg.files, s, e.rounds);
    }
  }

  /** No manifest, asset, setup or join frame leaves the server before the
      client was told that its sign-in succeeded. */
  lemma {:induction false} NothingBeforeSignIn(cfg: ServerConfig, events: seq<ServerEvent>)
    ensures var (s, sent) := Served(cfg, events);
            && (Unsigned(s) ==> forall f :: f in sent ==> !Inside(f))
            && (!Unsigned(s) && s.state != Closed ==> Accepted(sent))
            && forall i :: 0 <= i < |sent| && Inside(sent[i]) ==> Accepted(sent[..i])
    decreases |events|
  {
    if events != [] {
      hide Handled, Inside;
      var front, e := events[..|events| - 1], events[|events| - 1];
      NothingBeforeSignIn(cfg, front);
      var (s, sent) := Served(cfg, front);
      if s.state != Closed {
        var (r, more) := Handled(cfg, s, e);
        if Unsigned(s) {
          InsideAfterSignIn(cfg, s, e);
        } else {
          StaysSignedIn(cfg, s, e);
        }
        AcceptedBefore(sent, more, Unsigned(s));
      }
    }
  }

  lemma AcceptedBefore(sent: seq<ToClient>, more: seq<ToClient>, unsigned: bool)
    requires forall i :: 0 <= i < |sent| && Inside(sent[i]) ==> Accepted(sent[..i])
    requires if unsigned then forall f :: f in more ==> !Inside(f) else Accepted(sent)
    ensures Accepted(sent) || Accepted(more) ==> Accepted(sent + more)
    ensures forall i :: 0 <= i < |sent + more| && Inside((sent + more)[i]) ==> Accepted((sent + more)[..i])
  {
    hide Inside;
    var all := sent + more;
    if Accepted(sent) {
      var f :| f in sent && f.AuthResult? && f.ok;
      assert f in all;
    }
    if Accepted(more) {
      var f :| f in more && f.AuthResult? && f.ok;
      assert f in all;
    }
    forall i | 0 <= i < |all| && Inside(all[i])
      ensures Accepted(all[..i])
    {
      if i < |sent| {
        assert all[..i] == sent[..i];
      } else {
        assert all[i] in more;
        var f :| f in sent && f.AuthResult? && f.ok;
        assert all[..i] == sent + more[..i - |sent|] && f in all[..i];
      }
    }
  }

  // --------------------------------------------- what a server refuses, and why

  /** A Hello this server takes. */
  predicate Welcome(cfg: ServerConfig, msg: ToServer) {
    msg.Hello? && msg.version == cfg.version && (msg.automation ==> cfg.acceptAutomation)
  }

  predicate HasChallenge(host: Host) {
    host.challenge.Some? && host.challenge.value != ""
  }

  predicate HasRoom(cfg: ServerConfig, host: Host) {
    host.playerCount < cfg.maxPlayers
  }

  /** A verdict of the key service that lets the player in. */
  predicate Accepts(outcome: AuthOutcome, host: Host) {
    outcome.ok && outcome.login.Some? && host.admits
  }

  /** The one kind of frame a state waits for. */
  predicate InTurn(state: ServerState, msg: ToServer) {
    match msg
    case Hello(_, _) => state == AwaitingHello
    case Auth(_, _) => state == AwaitingAuth
    case ManifestRequest(_) => state == AwaitingManifestRequest
    case AssetRequest(_) => state == AwaitingAssetRequest
    case Ready => state == AwaitingReady
  }

  /** Every reason for which a frame is refused, with its exact condition. */
  lemma RefusedFor(cfg: ServerConfig, s: Server, msg: ToServer, host: Host)
    requires s.state != Closed && s.refusal == None
    ensures var refusal, turn := OnServerFrame(cfg, s, msg, host).0.refusal, InTurn(s.state, msg);
            && (refusal == Some(Unexpected) <==> !turn)
            && (refusal == Some(ProtocolMismatch) <==> turn && msg.Hello? && msg.version != cfg.version)
            && (refusal == Some(AutomationRefused) <==>
                  turn && msg.Hello? && msg.version == cfg.version && msg.automation && !cfg.acceptAutomation)
            && (refusal == Some(ServerFull) <==> turn && msg.Auth? && !HasRoom(cfg, host))
            && (refusal == Some(CannotAuthenticate) <==>
                  turn && cfg.external &&
                  ((Welcome(cfg, msg) && !HasChallenge(host)) || (msg.Auth? && HasRoom(cfg, host) && !host.begins)))
            && (refusal == Some(AuthFailed) <==>
                  turn && msg.Auth? && HasRoom(cfg, host) &&
                  if cfg.external then host.begins && host.verdict.Some? && !Accepts(host.verdict.value, host)
                  else !host.authenticate.ok)
            && refusal != Some(TimedOut) && refusal != Some(AssetNotFound)
  {
  }

  /** The name a signed-in player gets: the one resolved, or else the one asked for. */
  function NameFor(requested: string, resolved: string): string {
    if resolved == "" then requested else resolved
  }

  function ResolvedName(outcome: AuthOutcome, host: Host): string
    requires outcome.login.Some?
  {
    var given := outcome.login.value;
    host.resolveName(if outcome.resolvedName == "" then given.name else outcome.resolvedName, given)
  }

  /** And where a frame that is not refused leads, with the answer it gets. */
  lemma FrameAdvances(cfg: ServerConfig, s: Server, msg: ToServer, host: Host)
    requires s.state != Closed && s.refusal == None && OnServerFrame(cfg, s, msg, host).0.refusal == None
    ensures
      var (r, sent) := OnServerFrame(cfg, s, msg, host);
      match msg
      case Hello(_, _) =>
        && r.state == AwaitingAuth && (cfg.external ==> r.nonce == host.challenge.value)
        && sent == [ServerInfo(cfg.version, cfg.external, cfg.packReq)] +
                   (if cfg.external then [Challenge(host.challenge.value)] else [])
      case Auth(name, _) =>
        && r.requestedName == name
        && (if cfg.external && host.verdict == None then r.state == VerifyingAuth && r.ticket && sent == []
            else
              var resolved := if cfg.external then ResolvedName(host.verdict.value, host) else host.authenticate.resolvedName;
              r.state == AwaitingManifestRequest && r.playerName == NameFor(name, resolved) && sent == [AuthResult(true, r.playerName)])
      case ManifestRequest(known) =>
        && r.state == AwaitingAssetRequest
        && sent == (if cfg.manifest == None then [ManifestReply(ZERO_HASH, [])]
                    else if cfg.manifest.value.hash == known then [ManifestReply(known, [])]
                    else [ManifestReply(cfg.manifest.value.hash, cfg.manifest.value.entries)])
      case AssetRequest(missing) =>
        && (r.state == AwaitingReady <==> missing == []) && (r.state == StreamingAssets <==> missing != [])
        && r.stream == AssetStream(missing, 0, [], 0, 0, false) && sent == []
      case Ready =>
        && r.state == Playing && |sent| == cfg.setupFrames + 1 && sent[cfg.setupFrames] == JoinAccept
        && forall i :: 0 <= i < cfg.setupFrames ==> sent[i] == Setup
  {
    hide Repeat;
    RepeatIsSetup(cfg.setupFrames);
    assert forall i :: 0 <= i < cfg.setupFrames ==> Repeat(cfg.setupFrames)[i] in Repeat(cfg.setupFrames);
  }

  /** A pump refuses exactly when it comes to a file the server does not have. */
  lemma PumpRefusesIff(files: Disk, s: Server)
    requires s.state != Closed && s.refusal == None
    ensures var st, r := s.stream, PumpOne(files, s).0;
            && (r.state == Closed <==>
                  s.state == StreamingAssets && st.idx < |st.pending| && !st.loaded && st.pending[st.idx] !in files)
            && (r.state == Closed ==> r.refusal == Some(AssetNotFound))
  {
  }

  /** A verdict ends the wait of the connection it is for: admitted under the
      name resolved, or refused. */
  lemma VerdictEndsWait(s: Server, verdict: Option<AuthOutcome>, host: Host)
    requires s.state != Closed && s.refusal == None
    ensures
      var (r, sent) := PollAuth(s, verdict, host);
      if s.state != VerifyingAuth || !s.ticket || verdict == None then r == s && sent == []
      else if Accepts(verdict.value, host) then
        && r.state == AwaitingManifestRequest && !r.ticket
        && r.playerName == NameFor(s.requestedName, ResolvedName(verdict.value, host)) && sent == [AuthResult(true, r.playerName)]
      else r.refusal == Some(AuthFailed) && !r.ticket && |sent| == 2 && sent[0].AuthResult? && !sent[0].ok
  {
  }

  lemma TimesOutIff(s: Server)
    requires s.state != Closed && s.refusal == None
    ensures OnTimeout(s).0.refusal == Some(TimedOut) <==> s.state != Playing
    ensures s.state == Playing ==> OnTimeout(s) == (s, [])
  {
  }

  predicate Greeted(cfg: ServerConfig, events: seq<ServerEvent>, i: nat) {
    i < |events| && events[i].FrameCame? && Welcome(cfg, events[i].msg) && (cfg.external ==> HasChallenge(events[i].host))
  }

  predicate Seated(cfg: ServerConfig, events: seq<ServerEvent>, j: nat) {
    && j < |events| && events[j].FrameCame? && events[j].msg.Auth? && HasRoom(cfg, events[j].host)
    && if cfg.external then events[j].host.begins else events[j].host.authenticate.ok
  }

  ghost predicate WasGreeted(cfg: ServerConfig, events: seq<ServerEvent>) {
    exists i: nat :: Greeted(cfg, events, i)
  }

  ghost predicate WasSeated(cfg: ServerConfig, events: seq<ServerEvent>) {
    exists i: nat, j: nat :: i < j && Greeted(cfg, events, i) && Seated(cfg, events, j)
  }

  lemma StillSeated(cfg: ServerConfig, front: seq<ServerEvent>, e: ServerEvent)
    ensures WasGreeted(cfg, front) ==> WasGreeted(cfg, front + [e])
    ensures WasSeated(cfg, front) ==> WasSeated(cfg, front + [e])
    ensures WasGreeted(cfg, front) && Seated(cfg, front + [e], |front|) ==> WasSeated(cfg, front + [e])
  {
    var es := front + [e];
    assert forall i: nat :: i < |front| ==> es[i] == front[i];
    if i: nat :| Greeted(cfg, front, i) {
      assert Greeted(cfg, es, i);
    }
    if i: nat, j: nat :| i < j && Greeted(cfg, front, i) && Seated(cfg, front, j) {
      assert Greeted(cfg, es, i) && Seated(cfg, es, j);
    }
  }

  /** Nobody gets past sign-in but by a Hello of the server's version, automated
      only where that is accepted, and later an Auth while there is room. */
  lemma {:induction false} SeatedInOrder(cfg: ServerConfig, events: seq<ServerEvent>)
    ensures var s := Served(cfg, events).0;
            && (s.state == AwaitingAuth ==> WasGreeted(cfg, events))
            && (s.state == VerifyingAuth || (!Unsigned(s) && s.state != Closed) ==> WasSeated(cfg, events))
            && (s.state != Closed ==> s.refusal == None)
    decreases |events|
  {
    if events != [] {
      var front, e := events[..|events| - 1], events[|events| - 1];
      assert events == front + [e];
      hide Handled, WasGreeted, WasSeated, Greeted, Seated;
      SeatedInOrder(cfg, front);
      StillSeated(cfg, front, e);
      var s := Served(cfg, front).0;
      if s.state != Closed {
        StepSeats(cfg, s, e, events);
      }
    }
  }

  lemma StepSeats(cfg: ServerConfig, s: Server, e: ServerEvent, events: seq<ServerEvent>)
    requires s.state != Closed && s.refusal == None && events != [] && events[|events| - 1] == e
    ensures var r := Handled(cfg, s, e).0;
            && (r.state != Closed ==> r.refusal == None)
            && (r.state == AwaitingAuth ==> s.state == AwaitingAuth || WasGreeted(cfg, events))
            && (s.state == AwaitingHello ==> r.state == AwaitingHello || r.state == AwaitingAuth || r.state == Closed)
            && (s.state == AwaitingAuth ==> r.state == AwaitingAuth || r.state == Closed || Seated(cfg, events, |events| - 1))
            && (!(s.state == AwaitingHello || s.state == AwaitingAuth) ==> r.state != AwaitingAuth && r.state != AwaitingHello)
  {
    hide Pumped, Repeat;
    if e.PumpedFor? {
      PumpKeepsLogin(cfg.files, s, e.rounds);
      PumpSaysFarewell(cfg.files, s, e.rounds);
    } else if s.state == AwaitingHello && e.FrameCame? && Handled(cfg, s, e).0.state == AwaitingAuth {
      assert Greeted(cfg, events, |events| - 1);
    }
  }

  class ServerHandshake {
    const cfg: ServerConfig
    var state: ServerState
    var requestedName: string
    var nonce: string
    var ticket: bool
    var login: Option<Login>
    var playerName: string
    var stream: AssetStream
    var refusal: Option<Reason>

    constructor (cfg: ServerConfig)
      ensures this.cfg == cfg && Value() == NEW_SERVER
    {
      this.cfg := cfg;
      state, requestedName, nonce, ticket := AwaitingHello, "", "", false;
      login, playerName, stream, refusal := None, "", NO_STREAM, None;
    }

    function Value(): Server
      reads this
    {
      Server(state, requestedName, nonce, ticket, login, playerName, stream, refusal)
    }

    method Refuse(reason: Reason) returns (send: seq<ToClient>)
      modifies this
      ensures (Value(), send) == Fail(old(Value()), reason)
    {
      if state != Closed {
        refusal := Some(reason);
      }
      state := Closed;
      send := [Disconnect(reason)];
    }

    method TimeOut() returns (send: seq<ToClient>)
      modifies this
      ensures (Value(), send) == OnTimeout(old(Value()))
    {
      if state == Playing || state == Closed {
        return [];
      }
      send := Refuse(TimedOut);
    }

    method Finish(outcome: AuthOutcome) returns (send: seq<ToClient>)
      modifies this
      ensures (Value(), send) == FinishAuth(old(Value()), outcome)
    {
      var name := if outcome.ok && outcome.resolvedName != "" then outcome.resolvedName else requestedName;
      send := [AuthResult(outcome.ok, name)];
      if !outcome.ok {
        send := [send[0], Disconnect(AuthFailed)];
        refusal := Some(AuthFailed);
        state := Closed;
        return;
      }
      playerName := name;
      state := AwaitingManifestRequest;
    }

    method Poll(verdict: Option<AuthOutcome>, host: Host) returns (send: seq<ToClient>)
      modifies this
      ensures (Value(), send) == PollAuth(old(Value()), verdict, host)
    {
      if state != VerifyingAuth || !ticket || verdict == None {
        return [];
      }
      ticket := false;
      var outcome := verdict.value;
      if outcome.ok {
        if outcome.login == None {
          send := Finish(REJECTED);
          return;
        }
        var given := outcome.login.value;
        var name := host.resolveName(if outcome.resolvedName == "" then given.name else outcome.resolvedName, given);
        if !host.admits {
          send := Finish(REJECTED);
          return;
        }
        login := Some(given.(name := name));
        outcome := outcome.(resolvedName := name);
      }
      send := Finish(outcome);
    }

    method OnFrame(msg: ToServer, host: Host) returns (send: seq<ToClient>)
      modifies this
      ensures (Value(), send) == OnServerFrame(cfg, old(Value()), msg, host)
    {
      match state {
        case AwaitingHello =>
          if !msg.Hello? {
            send := Refuse(Unexpected);
            return;
          }
          if msg.version != cfg.version {
            send := Refuse(ProtocolMismatch);
            return;
          }
          if msg.automation && !cfg.acceptAutomation {
            send := Refuse(AutomationRefused);
            return;
          }
          send := [ServerInfo(cfg.version, cfg.external, cfg.packReq)];
          if cfg.external {
            if host.challenge == None || host.challenge.value == "" {
              send := Refuse(CannotAuthenticate);
              return;
            }
            nonce := host.challenge.value;
            send := [send[0], Challenge(nonce)];
          }
          state := AwaitingAuth;
        case AwaitingAuth =>
          if !msg.Auth? {
            send := Refuse(Unexpected);
            return;
          }
          if host.playerCount >= cfg.maxPlayers {
            send := Refuse(ServerFull);
            return;
          }
          requestedName := msg.name;
          if !cfg.external {
            send := Finish(host.authenticate);
            return;
          }
          if !host.begins {
            send := Refuse(CannotAuthenticate);
            return;
          }
          ticket := true;
          state := VerifyingAuth;
          send := Poll(host.verdict, host);
        case AwaitingManifestRequest =>
          if !msg.ManifestRequest? {
            send := Refuse(Unexpected);
            return;
          }
          var hash, entries := ZERO_HASH, [];
          if cfg.manifest.Some? {
            hash := cfg.manifest.value.hash;
            if msg.known != hash {
              entries := cfg.manifest.value.entries;
            }
          }
          state := AwaitingAssetRequest;
          send := [ManifestReply(hash, entries)];
        case AwaitingAssetRequest =>
          if !msg.AssetRequest? {
            send := Refuse(Unexpected);
            return;
          }
          stream := NO_STREAM.(pending := msg.missing);
          state := if stream.pending == [] then AwaitingReady else StreamingAssets;
          send := [];
        case AwaitingReady =>
          if !msg.Ready? {
            send := Refuse(Unexpected);
            return;
          }
          state := Playing;
          send := Repeat(cfg.setupFrames) + [JoinAccept];
        case _ =>
          send := Refuse(Unexpected);
      }
    }

    /** One round of the pump loop: at most one frame. */
    method PumpRound() returns (send: seq<ToClient>)
      requires state == StreamingAssets
      modifies this
      ensures (Value(), send) == PumpOne(cfg.files, old(Value()))
    {
      if stream.idx >= |stream.pending| {
        state := AwaitingReady;
        return [];
      }
      var h := stream.pending[stream.idx];
      if !stream.loaded {
        if h !in cfg.files {
          send := Refuse(AssetNotFound);
          return;
        }
        stream := stream.(current := cfg.files[h], chunkIdx := 0,
                          totalChunks := ChunkCount(|cfg.files[h]|), loaded := true);
      }
      var bytes := Slice(stream.current, stream.chunkIdx * CHUNK_BYTES);
      send := [Data(AssetData(h, stream.chunkIdx, stream.totalChunks, bytes))];
      stream := stream.(chunkIdx := stream.chunkIdx + 1);
      if stream.chunkIdx >= stream.totalChunks {
        stream := stream.(idx := stream.idx + 1, current := [], loaded := false);
        if stream.idx >= |stream.pending| {
          state := AwaitingReady;
        }
      }
    }

    /** Sends up to `maxChunks` more frames; leaves StreamingAssets the moment
        the last one is queued. */
    method PumpAssets(maxChunks: nat) returns (send: seq<ToClient>)
      modifies this
      ensures (Value(), send) == Pumped(cfg.files, old(Value()), maxChunks)
    {
      hide PumpOne;
      send := [];
      ghost var was := Value();
      var sent := 0;
      while sent < maxChunks && state == StreamingAssets
        invariant 0 <= sent <= maxChunks
        invariant (Value(), send) == Pumped(cfg.files, was, sent)
      {
        var frames := PumpRound();
        sent := sent + 1;
        if state == Closed {
          send := frames;
        } else {
          send := send + frames;
        }
      }
      if sent < maxChunks {
        PumpedStays(cfg.files, was, sent, maxChunks);
      }
    }
  }

  // ------------------------------------------------------------------ client

  datatype ClientStatus =
    | Connecting | AwaitingChallenge | SigningIn | Authenticating | AwaitingManifest | SyncingAssets
    | Syncing | Joined | Failed

  /** Why a client failed; OutOfTurn stands for every "expected X". */
  datatype Failure =
    | OutOfTurn | ProtocolVersion | PackVersion | NoSignIn | SignInFailed | TokenTooLarge | AuthRejected
    | TransferFailed | Disconnected(reason: Reason)

  datatype TokenPoll = TokenPoll(token: string, error: string)

  /** How the client obtains a token: an asynchronous sign-in, which may be
      unavailable, or at once. */
  datatype SignIn = Async(available: bool) | Direct(token: Option<string>)

  datatype ClientConfig = ClientConfig(
    name: string, token: string, version: nat, automation: bool, packAccepts: string -> bool,
    signIn: SignIn, known: AssetHash)

  /** What the cache offers when the manifest arrives. */
  datatype Store = Store(index: Index, disk: Disk, manifests: map<AssetHash, seq<Entry>>, now: int, hash: Bytes -> AssetHash)

  const MAX_TOKEN_BYTES: nat := 16 * 1024

  datatype Client = Client(
    status: ClientStatus, started: bool, ticket: bool, transfer: Transfer, failure: Option<Failure>)

  type ClientStep = (Client, seq<ToServer>)

  function Abandon(c: Client, failure: Failure): ClientStep {
    (c.(status := Failed, failure := Some(failure)), [])
  }

  function Begin(cfg: ClientConfig, c: Client): ClientStep {
    if c.started then (c, [])
    else (c.(started := true, status := Connecting), [Hello(cfg.version, cfg.automation)])
  }

  function SendAuth(cfg: ClientConfig, c: Client, token: string): ClientStep {
    if |token| > MAX_TOKEN_BYTES then Abandon(c, TokenTooLarge)
    else (c.(status := Authenticating), [Auth(cfg.name, token)])
  }

  function PollSignIn(cfg: ClientConfig, c: Client, poll: Option<TokenPoll>): ClientStep {
    if c.status != SigningIn || !c.ticket || poll == None then (c, [])
    else if poll.value.error != "" || poll.value.token == "" then Abandon(c.(ticket := false), SignInFailed)
    else SendAuth(cfg, c.(ticket := false), poll.value.token)
  }

  function CancelSignIn(c: Client): ClientStep {
    if c.status != SigningIn then (c, []) else Abandon(c.(ticket := false), SignInFailed)
  }

  function OnServerInfo(cfg: ClientConfig, c: Client, msg: ToClient): ClientStep {
    if !msg.ServerInfo? then Abandon(c, OutOfTurn)
    else if msg.version != cfg.version then Abandon(c, ProtocolVersion)
    else if msg.packReq != "" && !cfg.packAccepts(msg.packReq) then Abandon(c, PackVersion)
    else if msg.external then (c.(status := AwaitingChallenge), [])
    else (c.(status := Authenticating), [Auth(cfg.name, cfg.token)])
  }

  function OnChallenge(cfg: ClientConfig, c: Client, msg: ToClient, poll: Option<TokenPoll>): ClientStep {
    if !msg.Challenge? then Abandon(c, OutOfTurn)
    else
      match cfg.signIn
      case Async(available) =>
        if !available then Abandon(c, NoSignIn)
        else PollSignIn(cfg, c.(ticket := true, status := SigningIn), poll)
      case Direct(token) =>
        if token == None || token.value == "" then Abandon(c, NoSignIn) else SendAuth(cfg, c, token.value)
  }

  function OnAuthResult(cfg: ClientConfig, c: Client, msg: ToClient): ClientStep {
    if !msg.AuthResult? then Abandon(c, OutOfTurn)
    else if !msg.ok then Abandon(c, AuthRejected)
    else (c.(status := AwaitingManifest), [ManifestRequest(cfg.known)])
  }

  function OnManifest(c: Client, store: Store, msg: ToClient): ClientStep {
    if !msg.ManifestReply? then Abandon(c, OutOfTurn)
    else
      var s := Scanned(EntryList(msg.entries, msg.hash, store.manifests), store.index, store.disk, store.now);
      if s.missing == [] then (c.(transfer := s.transfer, status := Syncing), [AssetRequest([]), Ready])
      else (c.(transfer := s.transfer, status := SyncingAssets), [AssetRequest(s.missing)])
  }

  function OnData(c: Client, store: Store, msg: ToClient): ClientStep {
    if !msg.Data? then Abandon(c, OutOfTurn)
    else
      var (t, ok) := Ingested(c.transfer, msg.chunk, store.hash);
      if !ok then Abandon(c.(transfer := t), TransferFailed)
      else if !AllReceived(t) then (c.(transfer := t), [])
      else (c.(transfer := t, status := Syncing), [Ready])
  }

  function OnClientFrame(cfg: ClientConfig, c: Client, store: Store, msg: ToClient, poll: Option<TokenPoll>): ClientStep {
    if msg.Disconnect? then Abandon(c, Disconnected(msg.reason))
    else
      match c.status
      case Connecting => OnServerInfo(cfg, c, msg)
      case AwaitingChallenge => OnChallenge(cfg, c, msg, poll)
      case SigningIn => Abandon(c, OutOfTurn)
      case Authenticating => OnAuthResult(cfg, c, msg)
      case AwaitingManifest => OnManifest(c, store, msg)
      case SyncingAssets => OnData(c, store, msg)
      case Syncing => if msg.JoinAccept? then (c.(status := Joined), []) else Abandon(c, OutOfTurn)
      case _ => (c, [])
  }

  // -------------------------------------------- when a client gives up, and why

  /** The one kind of frame a client waits for; one that has joined or failed
      takes any. */
  predicate Awaits(status: ClientStatus, msg: ToClient) {
    match status
    case Connecting => msg.ServerInfo?
    case AwaitingChallenge => msg.Challenge?
    case SigningIn => false
    case Authenticating => msg.AuthResult?
    case AwaitingManifest => msg.ManifestReply?
    case SyncingAssets => msg.Data?
    case Syncing => msg.JoinAccept?
    case _ => true
  }

  predicate FitsPack(cfg: ClientConfig, msg: ToClient) {
    msg.ServerInfo? && (msg.packReq == "" || cfg.packAccepts(msg.packReq))
  }

  /** The token at hand when a challenge comes, if the sign-in has given one. */
  function TokenAtHand(cfg: ClientConfig, poll: Option<TokenPoll>): Option<string> {
    match cfg.signIn
    case Async(available) =>
      if available && poll.Some? && poll.value.error == "" && poll.value.token != "" then Some(poll.value.token) else None
    case Direct(token) => if token.Some? && token.value != "" then token else None
  }

  predicate SignInFails(poll: Option<TokenPoll>) {
    poll.Some? && (poll.value.error != "" || poll.value.token == "")
  }

  /** Every reason for which a frame makes a client fail, with its exact condition. */
  lemma FailsFor(cfg: ClientConfig, c: Client, store: Store, msg: ToClient, poll: Option<TokenPoll>)
    requires c.failure == None && c.status != Failed
    ensures
      var failure, turn := OnClientFrame(cfg, c, store, msg, poll).0.failure, !msg.Disconnect? && Awaits(c.status, msg);
      var challenged := turn && c.status == AwaitingChallenge;
      && (failure.Some? && failure.value.Disconnected? <==> msg.Disconnect?)
      && (msg.Disconnect? ==> failure == Some(Disconnected(msg.reason)))
      && (failure == Some(OutOfTurn) <==> !msg.Disconnect? && !Awaits(c.status, msg))
      && (failure == Some(ProtocolVersion) <==> turn && c.status == Connecting && msg.version != cfg.version)
      && (failure == Some(PackVersion) <==>
            turn && c.status == Connecting && msg.version == cfg.version && !FitsPack(cfg, msg))
      && (failure == Some(NoSignIn) <==>
            challenged && match cfg.signIn case Async(available) => !available case Direct(_) => TokenAtHand(cfg, poll) == None)
      && (failure == Some(SignInFailed) <==> challenged && cfg.signIn == Async(true) && SignInFails(poll))
      && (failure == Some(TokenTooLarge) <==>
            challenged && TokenAtHand(cfg, poll).Some? && |TokenAtHand(cfg, poll).value| > 16384)
      && (failure == Some(AuthRejected) <==> turn && c.status == Authenticating && !msg.ok)
      && (failure == Some(TransferFailed) <==>
            turn && c.status == SyncingAssets && !Ingested(c.transfer, msg.chunk, store.hash).1)
  {
    hide Scanned, Ingested, EntryList, AllReceived;
  }

  /** And where a frame that is no such reason leads, with what is sent back. */
  lemma ClientAdvances(cfg: ClientConfig, c: Client, store: Store, msg: ToClient, poll: Option<TokenPoll>)
    requires c.failure == None && c.status != Failed && OnClientFrame(cfg, c, store, msg, poll).0.failure == None
    ensures
      var (r, sent) := OnClientFrame(cfg, c, store, msg, poll);
      match c.status
      case Connecting =>
        if msg.external then r.status == AwaitingChallenge && sent == []
        else r.status == Authenticating && sent == [Auth(cfg.name, cfg.token)]
      case AwaitingChallenge =>
        var token := TokenAtHand(cfg, poll);
        if token == None then r.status == SigningIn && r.ticket && sent == []
        else r.status == Authenticating && sent == [Auth(cfg.name, token.value)]
      case SigningIn => false
      case Authenticating => r.status == AwaitingManifest && sent == [ManifestRequest(cfg.known)]
      case AwaitingManifest =>
        var s := Scanned(EntryList(msg.entries, msg.hash, store.manifests), store.index, store.disk, store.now);
        && r.transfer == s.transfer
        && (if s.missing == [] then r.status == Syncing && sent == [AssetRequest([]), Ready]
            else r.status == SyncingAssets && sent == [AssetRequest(s.missing)])
      case SyncingAssets =>
        && r.transfer == Ingested(c.transfer, msg.chunk, store.hash).0
        && (if AllReceived(r.transfer) then r.status == Syncing && sent == [Ready] else r.status == SyncingAssets && sent == [])
      case Syncing => r.status == Joined && sent == []
      case _ => r == c && sent == []
  {
    hide Scanned, Ingested, EntryList, AllReceived;
  }

  /** A sign-in that resolves is sent on, under the player's name, or fails. */
  lemma SignInResolves(cfg: ClientConfig, c: Client, poll: Option<TokenPoll>)
    requires c.failure == None
    ensures
      var (r, sent) := PollSignIn(cfg, c, poll);
      if c.status != SigningIn || !c.ticket || poll == None then r == c && sent == []
      else
        && !r.ticket
        && (r.failure == Some(SignInFailed) <==> SignInFails(poll))
        && (r.failure == Some(TokenTooLarge) <==> !SignInFails(poll) && |poll.value.token| > 16384)
        && (r.failure == None ==> r.status == Authenticating && sent == [Auth(cfg.name, poll.value.token)])
        && (r.failure != None ==> r.status == Failed && sent == [])
  {
  }

  class ClientHandshake {
    const cfg: ClientConfig
    const cache: ClientAssetCache
    var status: ClientStatus
    var started: bool
    var ticket: bool
    var failure: Option<Failure>

    constructor (cfg: ClientConfig, cache: ClientAssetCache)
      ensures this.cfg == cfg && this.cache == cache
      ensures Value() == Client(Connecting, false, false, cache.Value(), None)
    {
      this.cfg, this.cache := cfg, cache;
      status, started, ticket, failure := Connecting, false, false, None;
    }

    function Value(): Client
      reads this, cache
    {
      Client(status, started, ticket, cache.Value(), failure)
    }

    function Storage(now: int): Store
      reads cache
    {
      Store(cache.index, cache.disk, cache.manifests, now, cache.hash)
    }

    method Quit(reason: Failure) returns (send: seq<ToServer>)
      modifies `status, `failure
      ensures (Value(), send) == Abandon(old(Value()), reason)
    {
      status := Failed;
      failure := Some(reason);
      send := [];
    }

    method Start() returns (send: seq<ToServer>)
      modifies `status, `started
      ensures (Value(), send) == Begin(cfg, old(Value()))
    {
      if started {
        return [];
      }
      started := true;
      status := Connecting;
      send := [Hello(cfg.version, cfg.automation)];
    }

    method Authenticate(token: string) returns (send: seq<ToServer>)
      modifies `status, `failure
      ensures (Value(), send) == SendAuth(cfg, old(Value()), token)
    {
      if |token| > MAX_TOKEN_BYTES {
        send := Quit(TokenTooLarge);
        return;
      }
      status := Authenticating;
      send := [Auth(cfg.name, token)];
    }

    method Poll(poll: Option<TokenPoll>) returns (send: seq<ToServer>)
      modifies `status, `failure, `ticket
      ensures (Value(), send) == PollSignIn(cfg, old(Value()), poll)
    {
      if status != SigningIn || !ticket || poll == None {
        return [];
      }
      ticket := false;
      if poll.value.error != "" || poll.value.token == "" {
        send := Quit(SignInFailed);
        return;
      }
      send := Authenticate(poll.value.token);
    }

    method Cancel() returns (send: seq<ToServer>)
      modifies `status, `failure, `ticket
      ensures (Value(), send) == CancelSignIn(old(Value()))
    {
      if status != SigningIn {
        return [];
      }
      ticket := false;
      send := Quit(SignInFailed);
    }

    method ReceiveChallenge(msg: ToClient, poll: Option<TokenPoll>) returns (send: seq<ToServer>)
      modifies `status, `failure, `ticket
      ensures (Value(), send) == OnChallenge(cfg, old(Value()), msg, poll)
    {
      if !msg.Challenge? {
        send := Quit(OutOfTurn);
        return;
      }
      if cfg.signIn.Async? {
        if !cfg.signIn.available {
          send := Quit(NoSignIn);
          return;
        }
        ticket := true;
        status := SigningIn;
        send := Poll(poll);
      } else if cfg.signIn.token == None || cfg.signIn.token.value == "" {
        send := Quit(NoSignIn);
      } else {
        send := Authenticate(cfg.signIn.token.value);
      }
    }

    method ReceiveManifest(msg: ToClient, now: int) returns (send: seq<ToServer>)
      modifies `status, `failure, cache
      ensures (Value(), send) == OnManifest(old(Value()), old(Storage(now)), msg)
    {
      if !msg.ManifestReply? {
        send := Quit(OutOfTurn);
        return;
      }
      var missing := cache.ComputeMissing(msg.entries, msg.hash, now);
      send := [AssetRequest(missing)];
      if missing == [] {
        status := Syncing;
        send := [send[0], Ready];
      } else {
        status := SyncingAssets;
      }
    }

    method ReceiveData(msg: ToClient, now: int) returns (send: seq<ToServer>)
      modifies `status, `failure, cache
      ensures (Value(), send) == OnData(old(Value()), old(Storage(now)), msg)
    {
      if !msg.Data? {
        send := Quit(OutOfTurn);
        return;
      }
      var ok, _ := cache.IngestChunk(msg.chunk, now);
      if !ok {
        send := Quit(TransferFailed);
        return;
      }
      var all := cache.EverythingReceived();
      if !all {
        return [];  // more frames expected
      }
      status := Syncing;
      send := [Ready];
    }

    method ReceiveServerInfo(msg: ToClient) returns (send: seq<ToServer>)
      modifies `status, `failure
      ensures (Value(), send) == OnServerInfo(cfg, old(Value()), msg)
    {
      if !msg.ServerInfo? {
        send := Quit(OutOfTurn);
      } else if msg.version != cfg.version {
        send := Quit(ProtocolVersion);
      } else if msg.packReq != "" && !cfg.packAccepts(msg.packReq) {
        send := Quit(PackVersion);
      } else if msg.external {
        status := AwaitingChallenge;
        send := [];
      } else {
        status := Authenticating;
        send := [Auth(cfg.name, cfg.token)];
      }
    }

    method ReceiveAuthResult(msg: ToClient) returns (send: seq<ToServer>)
      modifies `status, `failure
      ensures (Value(), send) == OnAuthResult(cfg, old(Value()), msg)
    {
      if !msg.AuthResult? {
        send := Quit(OutOfTurn);
      } else if !msg.ok {
        send := Quit(AuthRejected);
      } else {
        status := AwaitingManifest;
        send := [ManifestRequest(cfg.known)];
      }
    }

    method OnFrame(msg: ToClient, poll: Option<TokenPoll>, now: int) returns (send: seq<ToServer>)
      modifies this, cache
      ensures (Value(), send) == OnClientFrame(cfg, old(Value()), old(Storage(now)), msg, poll)
    {
      hide OnServerInfo, OnChallenge, OnAuthResult, OnManifest, OnData;
      if msg.Disconnect? {
        send := Quit(Disconnected(msg.reason));
        return;
      }
      match status {
        case Connecting =>
          send := ReceiveServerInfo(msg);
        case AwaitingChallenge =>
          send := ReceiveChallenge(msg, poll);
        case SigningIn =>
          send := Quit(OutOfTurn);
        case Authenticating =>
          send := ReceiveAuthResult(msg);
        case AwaitingManifest =>
          send := ReceiveManifest(msg, now);
        case SyncingAssets =>
          send := ReceiveData(msg, now);
        case Syncing =>
          if !msg.JoinAccept? {
            send := Quit(OutOfTurn);
          } else {
            status := Joined;
            send := [];
          }
        case _ =>
          send := [];
      }
    }
  }
}
