/**
 Who is connected to a server under external authentication
 (src/net/session.cpp): sign-in, the kick of an older session of the same
 identity, and periodic re-authentication, over every run of the session's
 systems. Handshakes are those of the Handshake module.
 */
module Identity {
  import opened Common
  import opened Handshake
  import opened PlayerNames

  type Seconds = r: real | 0.0 <= r witness 0.0

  datatype Reauth = Reauth(timer: real, pending: bool, remaining: real, sentAt: int, ticket: bool)

  const NO_REAUTH := Reauth(0.0, false, 0.0, 0, false)

  /** What happened to a connection, for the record: the verdict its own ticket
      gave, the time since the last re-auth request, requests sent and
      verifications started. */
  datatype History = History(verdict: Option<AuthOutcome>, waited: real, requests: nat, verifications: nat)

  /** `changes` are the renewed logins whose claims differed, not yet taken. */
  datatype Conn = Conn(hs: Server, open: bool, playing: bool, netId: nat, login: Option<Login>, reauth: Reauth,
                       changes: seq<Login>, past: History)

  const NEW_CONN := Conn(NEW_SERVER, true, false, 0, None, NO_REAUTH, [], History(None, 0.0, 0, 0))

  type Conns = map<nat, Conn>

  /** `interval` and `grace` are in seconds, no re-auth if the first is 0;
      `rename` is the host's own naming of a verified player. */
  datatype Config = Config(server: ServerConfig, interval: nat, grace: nat, rename: (string, Login) -> string)

  // ------------------------------------------------------------------- sign-in

  function Players(conns: Conns): map<nat, Player> {
    map c | c in conns :: Player(conns[c].hs.login, conns[c].hs.playerName)
  }

  /** The host with the session's naming around its own. */
  function Naming(cfg: Config, conns: Conns, host: Host): Host {
    host.(resolveName := (name, login) => Resolved(Players(conns), login, cfg.rename(name, login)))
  }

  predicate SameLogin(a: Option<Login>, b: Option<Login>) {
    a.Some? && b.Some? && SameIdentity(a.value, b.value)
  }

  function Kicked(conns: Conns, newcomer: nat, c: nat): Conn
    requires c in conns
  {
    if newcomer in conns && c != newcomer && SameLogin(conns[c].hs.login, conns[newcomer].hs.login)
    then conns[c].(open := false) else conns[c]
  }

  /** Closes every other connection of the newcomer's identity. */
  function KickOthers(conns: Conns, newcomer: nat): Conns {
    map c | c in conns :: Kicked(conns, newcomer, c)
  }

  function KickAll(conns: Conns, newcomers: seq<nat>): Conns {
    if newcomers == [] then conns
    else KickOthers(KickAll(conns, newcomers[..|newcomers| - 1]), newcomers[|newcomers| - 1])
  }

  /** Whether this frame starts a verification that may answer at once. */
  predicate Asks(cfg: Config, s: Server, msg: ToServer, host: Host) {
    s.state == AwaitingAuth && msg.Auth? && cfg.server.external && host.playerCount < cfg.server.maxPlayers && host.begins
  }

  const HASH: nat := 2654435761

  function Bucket(id: nat): (r: nat)
    ensures r < 1000
  {
    ((id * HASH) % 0x1_0000_0000) % 1000
  }

  function RenewalInterval(interval: nat, id: nat): real {
    interval as real * (0.9 + 0.2 * (Bucket(id) as real / 1000.0))
  }

  /** A connection after one handshake frame. */
  function AfterFrame(cfg: Config, conns: Conns, id: nat, msg: ToServer, host: Host): Conn
    requires id in conns
  {
    var c := conns[id];
    var s := OnServerFrame(cfg.server, c.hs, msg, Naming(cfg, conns, host)).0;
    var d := c.(hs := s, open := c.open && s.state != Closed,
                past := if Asks(cfg, c.hs, msg, host) && host.verdict.Some? then c.past.(verdict := host.verdict) else c.past);
    if c.hs.state == AwaitingReady && s.state == Playing then
      d.(playing := true, netId := host.netId, login := s.login,
          reauth := NO_REAUTH.(timer := RenewalInterval(cfg.interval, host.netId)))
    else d
  }

  /** A frame of a connection that is not playing. */
  function Framed(cfg: Config, conns: Conns, id: nat, msg: ToServer, host: Host): Conns {
    if id !in conns || conns[id].playing then conns
    else
      var d := AfterFrame(cfg, conns, id, msg, host);
      if conns[id].hs.state == AwaitingAuth && d.hs.state == AwaitingManifestRequest
      then KickOthers(conns[id := d], id) else conns[id := d]
  }

  /** What the tick's pass over unfinished handshakes finds for one of them. */
  datatype Finding = Finding(verdict: Option<AuthOutcome>, host: Host, expires: bool)

  /** Every connection so far looked at, and those whose sign-in just succeeded. */
  datatype Pass = Pass(conns: Conns, verified: seq<nat>)

  function AfterPoll(cfg: Config, conns: Conns, id: nat, f: Finding): Conn
    requires id in conns
  {
    var c := conns[id];
    var s := PollAuth(c.hs, f.verdict, Naming(cfg, conns, f.host)).0;
    var asked := c.hs.state == VerifyingAuth && c.hs.ticket && f.verdict.Some?;
    var d := c.(hs := s, open := c.open && s.state != Closed, past := if asked then c.past.(verdict := f.verdict) else c.past);
    if s.state == Closed || !f.expires then d else d.(hs := OnTimeout(s).0, open := false)
  }

  function Looked(cfg: Config, p: Pass, id: nat, f: Finding): Pass {
    if id !in p.conns || p.conns[id].playing then p
    else
      var c := p.conns[id];
      var polled := PollAuth(c.hs, f.verdict, Naming(cfg, p.conns, f.host)).0;
      Pass(p.conns[id := AfterPoll(cfg, p.conns, id, f)],
           if c.hs.state == VerifyingAuth && polled.state == AwaitingManifestRequest then p.verified + [id] else p.verified)
  }

  function LookedAt(cfg: Config, conns: Conns, order: seq<nat>, found: nat -> Finding): Pass {
    if order == [] then Pass(conns, [])
    else Looked(cfg, LookedAt(cfg, conns, order[..|order| - 1], found), order[|order| - 1], found(order[|order| - 1]))
  }

  function Passed(cfg: Config, conns: Conns, order: seq<nat>, found: nat -> Finding): Conns {
    var p := LookedAt(cfg, conns, order, found);
    KickAll(p.conns, p.verified)
  }

  // --------------------------------------------------------- re-authentication

  /** The outcome of verifying a re-auth answer. */
  datatype Answer = Answer(ok: bool, login: Option<Login>, issuedAt: int)

  datatype Circumstance = Circumstance(challenge: bool, now: int, answer: Option<Answer>)

  const CLOCK_SKEW := 60
  const RETRY := 10.0

  predicate Acceptable(c: Conn, a: Answer) {
    a.ok && SameLogin(a.login, c.login) && a.issuedAt >= c.reauth.sentAt - CLOCK_SKEW
  }

  function Renewing(cfg: Config, c: Conn, dt: Seconds, now: Circumstance): Conn {
    var r := c.reauth;
    if cfg.interval == 0 || !cfg.server.external || !c.playing || c.login == None then c
    else if !r.pending then
      if r.timer - dt > 0.0 then c.(reauth := r.(timer := r.timer - dt))
      else if !now.challenge then c.(reauth := r.(timer := RETRY))
      else
        c.(reauth := Reauth(r.timer - dt, true, cfg.grace as real, now.now, false),
           past := c.past.(waited := 0.0, requests := c.past.requests + 1))
    else
      var w := c.(reauth := r.(remaining := r.remaining - dt), past := c.past.(waited := c.past.waited + dt));
      if r.ticket && now.answer.Some? then
        if !Acceptable(c, now.answer.value) then w.(open := false)
        else
          var login := now.answer.value.login.value.(name := c.login.value.name);  // the name is fixed for the session
          w.(login := Some(login),
             reauth := w.reauth.(pending := false, ticket := false, timer := RenewalInterval(cfg.interval, c.netId)),
             changes := if login.claims != c.login.value.claims then c.changes + [login] else c.changes)
      else if r.remaining - dt <= 0.0 then w.(open := false)
      else w
  }

  function Renewed(cfg: Config, conns: Conns, dt: Seconds, now: nat -> Circumstance): Conns {
    map c | c in conns :: Renewing(cfg, conns[c], dt, now(c))
  }

  /** A re-auth answer counts once, and only while one is awaited. */
  function Answered(conns: Conns, id: nat, begins: bool): Conns {
    if id in conns && conns[id].playing && conns[id].reauth.pending && !conns[id].reauth.ticket && begins then
      var c := conns[id];
      conns[id := c.(reauth := c.reauth.(ticket := true), past := c.past.(verifications := c.past.verifications + 1))]
    else conns
  }

  // -------------------------------------------------------------- the session

  class ServerSession {
    const cfg: Config
    var conns: Conns

    constructor (cfg: Config)
      ensures this.cfg == cfg && conns == map[]
    {
      this.cfg, conns := cfg, map[];
    }

    method KickDuplicateLogin(newcomer: nat)
      modifies `conns
      ensures conns == KickOthers(old(conns), newcomer)
    {
      if newcomer !in conns || conns[newcomer].hs.login == None {
        assert conns == KickOthers(conns, newcomer);
        return;
      }
      var login := conns[newcomer].hs.login;
      var todo := conns.Keys;
      while todo != {}
        invariant todo <= old(conns).Keys && conns.Keys == old(conns).Keys
        invariant forall c :: c in old(conns) ==> conns[c] == if c in todo then old(conns)[c] else Kicked(old(conns), newcomer, c)
        decreases todo
      {
        var c :| c in todo;
        todo := todo - {c};
        if c != newcomer && SameLogin(conns[c].hs.login, login) {
          conns := conns[c := conns[c].(open := false)];
        }
      }
    }

    method HandleFrame(id: nat, msg: ToServer, host: Host)
      modifies `conns
      ensures conns == Framed(cfg, old(conns), id, msg, host)
    {
      if id !in conns || conns[id].playing {
        return;
      }
      var before := conns[id].hs.state;
      conns := conns[id := AfterFrame(cfg, conns, id, msg, host)];
      if before == AwaitingAuth && conns[id].hs.state == AwaitingManifestRequest {
        KickDuplicateLogin(id);
      }
    }

    /** The pass over handshakes; `order` lists the connections as the map does. */
    method PassOverHandshakes(order: seq<nat>, found: nat -> Finding)
      modifies `conns
      ensures conns == Passed(cfg, old(conns), order, found)
    {
      var verified: seq<nat> := [];
      for i := 0 to |order|
        invariant Pass(conns, verified) == LookedAt(cfg, old(conns), order[..i], found)
      {
        var id := order[i];
        assert order[..i + 1][..i] == order[..i];
        if id in conns && !conns[id].playing {
          var polled := PollAuth(conns[id].hs, found(id).verdict, Naming(cfg, conns, found(id).host)).0;
          if conns[id].hs.state == VerifyingAuth && polled.state == AwaitingManifestRequest {
            verified := verified + [id];
          }
          conns := conns[id := AfterPoll(cfg, conns, id, found(id))];
        }
      }
      assert order[..|order|] == order;
      ghost var looked := conns;
      for i := 0 to |verified|
        invariant conns == KickAll(looked, verified[..i])
      {
        assert verified[..i + 1][..i] == verified[..i];
        KickDuplicateLogin(verified[i]);
      }
      assert verified[..|verified|] == verified;
    }

    /** A re-auth answer from a playing connection. */
    method HandleReauth(id: nat, begins: bool)
      modifies `conns
      ensures conns == Answered(old(conns), id, begins)
    {
      if id !in conns || !conns[id].playing {
        return;
      }
      var c := conns[id];
      if c.reauth.pending && !c.reauth.ticket && begins {
        conns := conns[id := c.(reauth := c.reauth.(ticket := true),
                                past := c.past.(verifications := c.past.verifications + 1))];
      }
    }

    method RenewLogins(dt: Seconds, now: nat -> Circumstance)
      modifies `conns
      ensures conns == Renewed(cfg, old(conns), dt, now)
    {
      var todo := conns.Keys;
      while todo != {}
        invariant todo <= old(conns).Keys && conns.Keys == old(conns).Keys
        invariant forall c :: c in old(conns) ==>
                    conns[c] == if c in todo then old(conns)[c] else Renewing(cfg, old(conns)[c], dt, now(c))
        decreases todo
      {
        var c :| c in todo;
        todo := todo - {c};
        conns := conns[c := Renewing(cfg, conns[c], dt, now(c))];
      }
    }
  }

  // ------------------------------------------------------------------ whole runs

  datatype Action =
    | Opened(id: nat)
    | Frame(id: nat, msg: ToServer, host: Host)
    | ReauthFrame(id: nat, begins: bool)
    | HandshakePass(order: seq<nat>, found: nat -> Finding)
    | ReauthPass(dt: Seconds, now: nat -> Circumstance)
    | Gone(id: nat)

  function Act(cfg: Config, conns: Conns, a: Action): Conns {
    match a
    case Opened(id) => if id in conns then conns else conns[id := NEW_CONN]
    case Frame(id, msg, host) => Framed(cfg, conns, id, msg, host)
    case ReauthFrame(id, begins) => Answered(conns, id, begins)
    case HandshakePass(order, found) => Passed(cfg, conns, order, found)
    case ReauthPass(dt, now) => Renewed(cfg, conns, dt, now)
    case Gone(id) => conns - {id}
  }

  function Run(cfg: Config, conns: Conns, actions: seq<Action>): Conns {
    if actions == [] then conns
    else Act(cfg, Run(cfg, conns, actions[..|actions| - 1]), actions[|actions| - 1])
  }

  // -------------------------------------------- playing only after one's own ok

  predicate Verified(s: ServerState) {
    s == AwaitingManifestRequest || s == AwaitingAssetRequest || s == StreamingAssets || s == AwaitingReady || s == Playing
  }

  predicate Vouched(verdict: Option<AuthOutcome>, login: Option<Login>) {
    verdict.Some? && verdict.value.ok && SameLogin(verdict.value.login, login)
  }

  /** What a connection's handshake says of its identity. */
  predicate SoundHandshake(s: Server, verdict: Option<AuthOutcome>) {
    && (Verified(s.state) ==> s.login.Some?)
    && (s.login.Some? ==> Vouched(verdict, s.login) && s.state != VerifyingAuth && s.state != AwaitingAuth && s.state != AwaitingHello)
    && (s.state == VerifyingAuth || s.state == AwaitingAuth || s.state == AwaitingHello ==> s.playerName == "")
  }

  predicate SoundConn(c: Conn) {
    && SoundHandshake(c.hs, c.past.verdict)
    && (c.playing ==> c.hs.state == Playing && SameLogin(c.login, c.hs.login))
    && (c.hs.state == Playing ==> c.playing)
  }

  lemma PollIsSound(s: Server, before: Option<AuthOutcome>, verdict: Option<AuthOutcome>, host: Host)
    requires SoundHandshake(s, before)
    ensures SoundHandshake(PollAuth(s, verdict, host).0,
                           if s.state == VerifyingAuth && s.ticket && verdict.Some? then verdict else before)
    ensures s.state != VerifyingAuth ==> PollAuth(s, verdict, host).0 == s
  {
  }

  lemma FrameIsSound(cfg: Config, s: Server, before: Option<AuthOutcome>, msg: ToServer, host: Host)
    requires cfg.server.external && SoundHandshake(s, before)
    ensures SoundHandshake(OnServerFrame(cfg.server, s, msg, host).0,
                           if Asks(cfg, s, msg, host) && host.verdict.Some? then host.verdict else before)
    ensures OnServerFrame(cfg.server, s, msg, host).0.state == Playing ==> s.state == AwaitingReady
  {
    if Asks(cfg, s, msg, host) {
      PollIsSound(s.(requestedName := msg.name, ticket := true, state := VerifyingAuth), before, host.verdict, host);
    }
  }

  predicate Sound(conns: Conns) {
    forall c :: c in conns ==> SoundConn(conns[c])
  }

  lemma AfterFrameIsSound(cfg: Config, conns: Conns, id: nat, msg: ToServer, host: Host)
    requires cfg.server.external && id in conns && SoundConn(conns[id]) && !conns[id].playing
    ensures SoundConn(AfterFrame(cfg, conns, id, msg, host))
  {
    hide OnServerFrame;
    FrameIsSound(cfg, conns[id].hs, conns[id].past.verdict, msg, Naming(cfg, conns, host));
  }

  lemma AfterPollIsSound(cfg: Config, conns: Conns, id: nat, f: Finding)
    requires id in conns && SoundConn(conns[id]) && !conns[id].playing
    ensures SoundConn(AfterPoll(cfg, conns, id, f))
  {
    PollIsSound(conns[id].hs, conns[id].past.verdict, f.verdict, Naming(cfg, conns, f.host));
    PollNeverPlays(conns[id].hs, f.verdict, Naming(cfg, conns, f.host));
    hide PollAuth;
  }

  lemma PollNeverPlays(s: Server, verdict: Option<AuthOutcome>, host: Host)
    ensures PollAuth(s, verdict, host).0.state == Playing ==> s.state == Playing
  {
  }

  lemma {:induction false} KickAllIs(conns: Conns, newcomers: seq<nat>, c: nat)
    ensures KickAll(conns, newcomers).Keys == conns.Keys
    ensures c in conns ==> KickAll(conns, newcomers)[c] == conns[c].(open := KickAll(conns, newcomers)[c].open)
    ensures c in conns && KickAll(conns, newcomers)[c].open ==> conns[c].open
    decreases |newcomers|
  {
    if newcomers != [] {
      KickAllIs(conns, newcomers[..|newcomers| - 1], c);
    }
  }

  lemma {:induction false} LookedAtIsSound(cfg: Config, conns: Conns, order: seq<nat>, found: nat -> Finding)
    requires Sound(conns)
    ensures Sound(LookedAt(cfg, conns, order, found).conns)
    decreases |order|
  {
    if order != [] {
      var id := order[|order| - 1];
      LookedAtIsSound(cfg, conns, order[..|order| - 1], found);
      var p := LookedAt(cfg, conns, order[..|order| - 1], found);
      hide SoundConn, AfterPoll;
      if id in p.conns && !p.conns[id].playing {
        AfterPollIsSound(cfg, p.conns, id, found(id));
      }
    }
  }

  lemma RenewingIsSound(cfg: Config, c: Conn, dt: Seconds, now: Circumstance)
    requires SoundConn(c)
    ensures SoundConn(Renewing(cfg, c, dt, now))
  {
    hide RenewalInterval;
  }

  lemma ActIsSound(cfg: Config, conns: Conns, a: Action)
    requires cfg.server.external && Sound(conns)
    ensures Sound(Act(cfg, conns, a))
  {
    hide SoundHandshake, AfterFrame;
    match a
    case Frame(id, msg, host) =>
      if id in conns && !conns[id].playing {
        AfterFrameIsSound(cfg, conns, id, msg, host);
      }
    case HandshakePass(order, found) =>
      LookedAtIsSound(cfg, conns, order, found);
      var p := LookedAt(cfg, conns, order, found);
      forall c | c in KickAll(p.conns, p.verified)
        ensures SoundConn(KickAll(p.conns, p.verified)[c])
      {
        KickAllIs(p.conns, p.verified, c);
      }
      KickAllIs(p.conns, p.verified, 0);
    case ReauthPass(dt, now) =>
      forall c | c in conns
        ensures SoundConn(Renewing(cfg, conns[c], dt, now(c)))
      {
        RenewingIsSound(cfg, conns[c], dt, now(c));
      }
    case Opened(id) => assert SoundConn(NEW_CONN) by { NewIsSound(); }
    case _ =>
  }

  lemma NewIsSound()
    ensures SoundConn(NEW_CONN)
  {
  }

  lemma {:induction false} RunIsSound(cfg: Config, actions: seq<Action>)
    requires cfg.server.external
    ensures Sound(Run(cfg, map[], actions))
    decreases |actions|
  {
    if actions != [] {
      hide Act, SoundConn;
      RunIsSound(cfg, actions[..|actions| - 1]);
      ActIsSound(cfg, Run(cfg, map[], actions[..|actions| - 1]), actions[|actions| - 1]);
    }
  }

  /** Under external authentication whoever plays has had an ok with a login
      from its own ticket, and is that login's identity still. */
  lemma PlayingWasVouchedFor(cfg: Config, actions: seq<Action>, id: nat)
    requires cfg.server.external && id in Run(cfg, map[], actions) && Run(cfg, map[], actions)[id].playing
    ensures var c := Run(cfg, map[], actions)[id];
            c.past.verdict.Some? && c.past.verdict.value.ok && SameLogin(c.past.verdict.value.login, c.login)
  {
    RunIsSound(cfg, actions);
  }

  // ------------------------------------------------------ identities are fixed

  /** Once known, a connection's identity does not change. */
  predicate KeepsIdentity(c: Conn, d: Conn) {
    && (c.hs.login.Some? ==> SameLogin(c.hs.login, d.hs.login))
    && (c.playing && c.login.Some? ==> d.playing && SameLogin(c.login, d.login))
  }

  lemma FrameKeepsLogin(cfg: Config, s: Server, msg: ToServer, host: Host)
    requires s.login.Some? && s.state != AwaitingAuth
    ensures OnServerFrame(cfg.server, s, msg, host).0.login == s.login
  {
  }

  lemma PollKeepsLogin(s: Server, verdict: Option<AuthOutcome>, host: Host)
    requires s.state != VerifyingAuth
    ensures PollAuth(s, verdict, host).0 == s
  {
  }

  lemma LookKeeps(cfg: Config, p: Pass, id: nat, f: Finding, c: nat)
    requires c in p.conns && SoundConn(p.conns[c])
    ensures var q := Looked(cfg, p, id, f);
            q.conns.Keys == p.conns.Keys && KeepsIdentity(p.conns[c], q.conns[c]) && (p.conns[c].playing ==> q.conns[c] == p.conns[c])
  {
    if id == c && !p.conns[c].playing && p.conns[c].hs.login.Some? {
      PollKeepsLogin(p.conns[c].hs, f.verdict, Naming(cfg, p.conns, f.host));
    }
    hide PollAuth, Naming;
  }

  lemma {:induction false} LookedAtKeeps(cfg: Config, conns: Conns, order: seq<nat>, found: nat -> Finding, c: nat)
    requires c in conns && Sound(conns)
    ensures var p := LookedAt(cfg, conns, order, found);
            p.conns.Keys == conns.Keys && KeepsIdentity(conns[c], p.conns[c]) && (conns[c].playing ==> p.conns[c] == conns[c])
    decreases |order|
  {
    if order == [] {
      KeepingIsReflexive(conns[c]);
    } else {
      hide KeepsIdentity, SoundConn, Looked;
      var front := order[..|order| - 1];
      LookedAtKeeps(cfg, conns, front, found, c);
      LookedAtIsSound(cfg, conns, front, found);
      var p, id := LookedAt(cfg, conns, front, found), order[|order| - 1];
      LookKeeps(cfg, p, id, found(id), c);
      KeepingIsTransitive(conns[c], p.conns[c], Looked(cfg, p, id, found(id)).conns[c]);
    }
  }

  lemma FrameKeepsIdentity(cfg: Config, conns: Conns, id: nat, msg: ToServer, host: Host, c: nat)
    requires c in conns && SoundConn(conns[c])
    ensures c in Framed(cfg, conns, id, msg, host) && KeepsIdentity(conns[c], Framed(cfg, conns, id, msg, host)[c])
  {
    hide OnServerFrame, RenewalInterval, Naming, Asks;
    if id == c && !conns[c].playing && conns[c].hs.login.Some? {
      FrameKeepsLogin(cfg, conns[c].hs, msg, Naming(cfg, conns, host));
    }
  }

  lemma ActKeepsIdentity(cfg: Config, conns: Conns, a: Action, c: nat)
    requires Sound(conns) && c in conns && a != Gone(c)
    ensures c in Act(cfg, conns, a) && KeepsIdentity(conns[c], Act(cfg, conns, a)[c])
  {
    hide Framed, RenewalInterval, SoundConn;
    match a
    case Frame(id, msg, host) => FrameKeepsIdentity(cfg, conns, id, msg, host, c);
    case HandshakePass(order, found) =>
      LookedAtKeeps(cfg, conns, order, found, c);
      var p := LookedAt(cfg, conns, order, found);
      KickAllIs(p.conns, p.verified, c);
    case _ =>
  }

  lemma {:induction false} RunFromSound(cfg: Config, conns: Conns, actions: seq<Action>)
    requires cfg.server.external && Sound(conns)
    ensures Sound(Run(cfg, conns, actions))
    decreases |actions|
  {
    if actions != [] {
      hide Act, SoundConn;
      RunFromSound(cfg, conns, actions[..|actions| - 1]);
      ActIsSound(cfg, Run(cfg, conns, actions[..|actions| - 1]), actions[|actions| - 1]);
    }
  }

  /** Through any further run, re-authentications included, a connection that
      has not gone keeps its issuer and subject. */
  lemma {:induction false} IdentityIsConstant(cfg: Config, conns: Conns, more: seq<Action>, c: nat)
    requires cfg.server.external && Sound(conns) && c in conns && Gone(c) !in more
    ensures c in Run(cfg, conns, more) && KeepsIdentity(conns[c], Run(cfg, conns, more)[c])
    decreases |more|
  {
    if more != [] {
      hide Act, Sound, KeepsIdentity;
      var front, last := more[..|more| - 1], more[|more| - 1];
      assert last in more && forall a :: a in front ==> a in more;
      IdentityIsConstant(cfg, conns, front, c);
      RunFromSound(cfg, conns, front);
      ActKeepsIdentity(cfg, Run(cfg, conns, front), last, c);
      KeepingIsTransitive(conns[c], Run(cfg, conns, front)[c], Run(cfg, conns, more)[c]);
    } else {
      KeepingIsReflexive(conns[c]);
    }
  }

  lemma KeepingIsTransitive(a: Conn, b: Conn, c: Conn)
    requires KeepsIdentity(a, b) && KeepsIdentity(b, c)
    ensures KeepsIdentity(a, c)
  {
  }

  lemma KeepingIsReflexive(c: Conn)
    ensures KeepsIdentity(c, c)
  {
  }

  // -------------------------------------- one open connection for each identity

  /** Two open connections never have one identity, those in `recent` aside. */
  predicate AloneBut(conns: Conns, recent: seq<nat>) {
    forall a, b :: a in conns && b in conns && a != b && a !in recent && b !in recent && conns[a].open && conns[b].open ==>
      !SameLogin(conns[a].hs.login, conns[b].hs.login)
  }

  lemma NewLoginIsVerified(cfg: Config, s: Server, msg: ToServer, host: Host)
    requires OnServerFrame(cfg.server, s, msg, host).0.login != s.login
    ensures s.state == AwaitingAuth && OnServerFrame(cfg.server, s, msg, host).0.state == AwaitingManifestRequest
  {
  }

  lemma PolledLoginIsVerified(s: Server, verdict: Option<AuthOutcome>, host: Host)
    requires PollAuth(s, verdict, host).0.login != s.login
    ensures s.state == VerifyingAuth && PollAuth(s, verdict, host).0.state == AwaitingManifestRequest
  {
  }

  /** A newcomer closes every other connection of its identity, other newcomers
      of the same pass included. */
  lemma {:induction false} NewcomersCloseOthers(conns: Conns, newcomers: seq<nat>, a: nat, b: nat)
    requires a in newcomers && a != b && a in conns && b in conns && SameLogin(conns[a].hs.login, conns[b].hs.login)
    ensures b in KickAll(conns, newcomers) && !KickAll(conns, newcomers)[b].open
    decreases |newcomers|
  {
    var front, last := newcomers[..|newcomers| - 1], newcomers[|newcomers| - 1];
    KickAllIs(conns, front, a);
    KickAllIs(conns, front, b);
    if last != a {
      assert a in front;
      NewcomersCloseOthers(conns, front, a, b);
    }
  }

  lemma KickAllLeavesOne(conns: Conns, newcomers: seq<nat>)
    requires AloneBut(conns, newcomers)
    ensures AloneBut(KickAll(conns, newcomers), [])
  {
    var after := KickAll(conns, newcomers);
    forall a, b | a in after && b in after && a != b && after[a].open && after[b].open
      ensures !SameLogin(after[a].hs.login, after[b].hs.login)
    {
      KickAllIs(conns, newcomers, a);
      KickAllIs(conns, newcomers, b);
      if SameLogin(after[a].hs.login, after[b].hs.login) {
        if a in newcomers {
          NewcomersCloseOthers(conns, newcomers, a, b);
        } else if b in newcomers {
          NewcomersCloseOthers(conns, newcomers, b, a);
        }
      }
    }
  }

  /** Replacing a connection by one no more open keeps the others apart, if its
      login is the old one or it counts as recent. */
  lemma ReplacedStaysAlone(conns: Conns, recent: seq<nat>, id: nat, d: Conn, after: seq<nat>)
    requires id in conns && AloneBut(conns, recent) && (d.open ==> conns[id].open)
    requires after == recent + [id] || (after == recent && d.hs.login == conns[id].hs.login)
    ensures AloneBut(conns[id := d], after)
  {
    assert forall x :: x in recent ==> x in after;
  }

  lemma {:induction false} LookedAtStaysAlone(cfg: Config, conns: Conns, order: seq<nat>, found: nat -> Finding)
    requires AloneBut(conns, [])
    ensures AloneBut(LookedAt(cfg, conns, order, found).conns, LookedAt(cfg, conns, order, found).verified)
    decreases |order|
  {
    if order != [] {
      hide AloneBut, PollAuth;
      var id := order[|order| - 1];
      LookedAtStaysAlone(cfg, conns, order[..|order| - 1], found);
      var p := LookedAt(cfg, conns, order[..|order| - 1], found);
      if id in p.conns && !p.conns[id].playing {
        var host := Naming(cfg, p.conns, found(id).host);
        if PollAuth(p.conns[id].hs, found(id).verdict, host).0.login != p.conns[id].hs.login {
          PolledLoginIsVerified(p.conns[id].hs, found(id).verdict, host);
        }
        ReplacedStaysAlone(p.conns, p.verified, id, AfterPoll(cfg, p.conns, id, found(id)), Looked(cfg, p, id, found(id)).verified);
      }
    }
  }

  lemma NewcomerStaysAlone(cfg: Config, conns: Conns, id: nat, d: Conn)
    requires AloneBut(conns, []) && id in conns && (d.open ==> conns[id].open)
    ensures AloneBut(KickAll(conns[id := d], [id]), [])
  {
    hide AloneBut;
    ReplacedStaysAlone(conns, [], id, d, [id]);
    KickAllLeavesOne(conns[id := d], [id]);
  }

  lemma FrameStaysAlone(cfg: Config, conns: Conns, id: nat, msg: ToServer, host: Host)
    requires AloneBut(conns, []) && id in conns && !conns[id].playing
    ensures AloneBut(Framed(cfg, conns, id, msg, host), [])
  {
    hide OnServerFrame, AloneBut, Naming, RenewalInterval, Asks;
    var d := AfterFrame(cfg, conns, id, msg, host);
    if d.hs.login != conns[id].hs.login {
      NewLoginIsVerified(cfg, conns[id].hs, msg, Naming(cfg, conns, host));
    }
    if conns[id].hs.state == AwaitingAuth && d.hs.state == AwaitingManifestRequest {
      NewcomerStaysAlone(cfg, conns, id, d);
      assert KickAll(conns[id := d], [id][..0]) == conns[id := d];
    } else {
      ReplacedStaysAlone(conns, [], id, d, []);
    }
  }

  lemma ActStaysAlone(cfg: Config, conns: Conns, a: Action)
    requires AloneBut(conns, [])
    ensures AloneBut(Act(cfg, conns, a), [])
  {
    match a
    case Frame(id, msg, host) =>
      if id in conns && !conns[id].playing {
        FrameStaysAlone(cfg, conns, id, msg, host);
      }
    case HandshakePass(order, found) =>
      LookedAtStaysAlone(cfg, conns, order, found);
      KickAllLeavesOne(LookedAt(cfg, conns, order, found).conns, LookedAt(cfg, conns, order, found).verified);
    case _ =>
      hide RenewalInterval;
  }

  /** Whenever the session is between two events, at most one open connection
      has any given identity. */
  lemma {:induction false} OneOpenPerIdentity(cfg: Config, actions: seq<Action>)
    ensures AloneBut(Run(cfg, map[], actions), [])
    decreases |actions|
  {
    if actions != [] {
      hide Act, AloneBut;
      OneOpenPerIdentity(cfg, actions[..|actions| - 1]);
      ActStaysAlone(cfg, Run(cfg, map[], actions[..|actions| - 1]), actions[|actions| - 1]);
    }
  }

  /** Nobody of another identity is touched. */
  lemma {:induction false} KickAllSpares(conns: Conns, newcomers: seq<nat>, a: nat)
    requires a in conns && conns[a].open
    requires forall b :: b in newcomers && b in conns && b != a ==> !SameLogin(conns[b].hs.login, conns[a].hs.login)
    ensures a in KickAll(conns, newcomers) && KickAll(conns, newcomers)[a].open
    decreases |newcomers|
  {
    if newcomers != [] {
      var front, last := newcomers[..|newcomers| - 1], newcomers[|newcomers| - 1];
      assert last in newcomers && forall b :: b in front ==> b in newcomers;
      KickAllSpares(conns, front, a);
      KickAllIs(conns, front, a);
      KickAllIs(conns, front, last);
    }
  }

  /** Exactly when a newcomer keeps its seat: one whose sign-in succeeds in a
      pass, and is not thrown out for time, stays open precisely if no other of
      its identity succeeded in the same pass. The newest does not always win. */
  lemma NewcomerStaysIff(cfg: Config, conns: Conns, order: seq<nat>, found: nat -> Finding, a: nat)
    requires var p := LookedAt(cfg, conns, order, found); a in p.verified && a in p.conns && p.conns[a].open
    ensures var p := LookedAt(cfg, conns, order, found);
            a in Passed(cfg, conns, order, found) &&
            (Passed(cfg, conns, order, found)[a].open <==>
               forall b :: b in p.verified && b in p.conns && b != a ==>
                 !SameLogin(p.conns[a].hs.login, p.conns[b].hs.login))
  {
    var p := LookedAt(cfg, conns, order, found);
    KickAllIs(p.conns, p.verified, a);
    if b :| b in p.verified && b in p.conns && b != a && SameLogin(p.conns[a].hs.login, p.conns[b].hs.login) {
      NewcomersCloseOthers(p.conns, p.verified, b, a);
    } else {
      KickAllSpares(p.conns, p.verified, a);
    }
  }

  /** A newcomer verified at once, by its own frame, always stays. */
  lemma LoneNewcomerStays(cfg: Config, conns: Conns, id: nat, msg: ToServer, host: Host)
    requires id in conns && !conns[id].playing && conns[id].open
    requires AfterFrame(cfg, conns, id, msg, host).hs.state == AwaitingManifestRequest
    ensures id in Framed(cfg, conns, id, msg, host) && Framed(cfg, conns, id, msg, host)[id].open
  {
    hide OnServerFrame, Naming, Asks, RenewalInterval;
  }

  /** Two that sign in as one identity in the same pass close each other. */
  lemma SamePassClosesBoth(cfg: Config, conns: Conns, order: seq<nat>, found: nat -> Finding, a: nat, b: nat)
    requires var p := LookedAt(cfg, conns, order, found);
             a != b && a in p.verified && b in p.verified && a in p.conns && b in p.conns &&
             SameLogin(p.conns[a].hs.login, p.conns[b].hs.login)
    ensures a in Passed(cfg, conns, order, found) && b in Passed(cfg, conns, order, found)
    ensures !Passed(cfg, conns, order, found)[a].open && !Passed(cfg, conns, order, found)[b].open
  {
    var p := LookedAt(cfg, conns, order, found);
    NewcomersCloseOthers(p.conns, p.verified, a, b);
    NewcomersCloseOthers(p.conns, p.verified, b, a);
  }

  // ---- a run from the empty server in which that happens

  /** A host that challenges, has room, starts verifications that answer later,
      and admits everyone. */
  function OpenHost(names: (string, Login) -> string): Host {
    Host(Some("n"), 0, true, None, REJECTED, names, true, 0)
  }

  function Accepting(login: Login, names: (string, Login) -> string): Finding {
    Finding(Some(AuthOutcome(true, "", Some(login))), OpenHost(names), false)
  }

  /** What connection `id` does up to the wait for its verdict. */
  function SigningIn(cfg: Config, id: nat, auth: ToServer, names: (string, Login) -> string): seq<Action> {
    [Opened(id), Frame(id, Hello(cfg.server.version, false), OpenHost(names)), Frame(id, auth, OpenHost(names))]
  }

  lemma RunAppend(cfg: Config, conns: Conns, a: seq<Action>, b: seq<Action>)
    ensures Run(cfg, conns, a + b) == Run(cfg, Run(cfg, conns, a), b)
    decreases |b|
  {
    hide Act;
    if b == [] {
      assert a + b == a;
    } else {
      assert (a + b)[..|a + b| - 1] == a + b[..|b| - 1];
      RunAppend(cfg, conns, a, b[..|b| - 1]);
    }
  }

  /** A connection whose sign-in is being verified. */
  predicate Waits(c: Conn) {
    c.open && !c.playing && c.hs.state == VerifyingAuth && c.hs.ticket && c.hs.login == None && c.hs.playerName == ""
  }

  lemma OneFrame(cfg: Config, conns: Conns, id: nat, msg: ToServer, host: Host)
    requires id in conns && !conns[id].playing
    requires AfterFrame(cfg, conns, id, msg, host).hs.state != AwaitingManifestRequest
    ensures Run(cfg, conns, [Frame(id, msg, host)]) == conns[id := AfterFrame(cfg, conns, id, msg, host)]
  {
    hide AfterFrame;
    assert [Frame(id, msg, host)][..0] == [];
  }

  lemma SignsIn(cfg: Config, conns: Conns, id: nat, auth: ToServer, names: (string, Login) -> string)
    requires auth.Auth? && cfg.server.external && cfg.server.maxPlayers > 0 && id !in conns
    ensures exists c :: Waits(c) && Run(cfg, conns, SigningIn(cfg, id, auth, names)) == conns[id := c]
  {
    var host, hello := OpenHost(names), Hello(cfg.server.version, false);
    var started: Conns := conns[id := NEW_CONN];
    assert Run(cfg, conns, [Opened(id)]) == started by {
      assert [Opened(id)][..0] == [];
    }
    var greeted := AfterFrame(cfg, started, id, hello, host);
    assert greeted.hs.state == AwaitingAuth && greeted.open && !greeted.playing;
    OneFrame(cfg, started, id, hello, host);
    var c := AfterFrame(cfg, started[id := greeted], id, auth, host);
    OneFrame(cfg, started[id := greeted], id, auth, host);
    RunAppend(cfg, conns, [Opened(id)], [Frame(id, hello, host)]);
    RunAppend(cfg, conns, [Opened(id), Frame(id, hello, host)], [Frame(id, auth, host)]);
    assert [Opened(id)] + [Frame(id, hello, host)] == [Opened(id), Frame(id, hello, host)];
    assert [Opened(id), Frame(id, hello, host)] + [Frame(id, auth, host)] == SigningIn(cfg, id, auth, names);
    var welcomed: Conns := started[id := greeted];
    assert welcomed[id := c] == conns[id := c];
    assert Waits(c);
  }

  /** An accepted verdict ends the wait with the login, in either place of the pass. */
  lemma WaitEnds(cfg: Config, p: Pass, id: nat, login: Login, names: (string, Login) -> string)
    requires id in p.conns && Waits(p.conns[id])
    ensures var q := Looked(cfg, p, id, Accepting(login, names));
            q.conns.Keys == p.conns.Keys && q.verified == p.verified + [id] &&
            SameLogin(q.conns[id].hs.login, Some(login)) && q.conns[id].open &&
            forall c :: c in p.conns && c != id ==> q.conns[c] == p.conns[c]
  {
  }

  /** From the empty server: two connections sign in, with any names and tokens,
      both are verified as `login`, both verdicts arrive in one pass, and both
      connections end closed. */
  lemma BothCloseInARun(cfg: Config, a: nat, b: nat, first: ToServer, second: ToServer, login: Login,
                        names: (string, Login) -> string)
    requires first.Auth? && second.Auth? && cfg.server.external && cfg.server.maxPlayers > 0 && a != b
    ensures var found := (id: nat) => Accepting(login, names);
            var after := Run(cfg, map[], SigningIn(cfg, a, first, names) + SigningIn(cfg, b, second, names) + [HandshakePass([a, b], found)]);
            a in after && b in after && !after[a].open && !after[b].open
  {
    var found := (id: nat) => Accepting(login, names);
    var one, two := SigningIn(cfg, a, first, names), SigningIn(cfg, b, second, names);
    var both := one + two;
    SignsIn(cfg, map[], a, first, names);
    var conns := Run(cfg, map[], both);
    RunAppend(cfg, map[], one, two);
    SignsIn(cfg, Run(cfg, map[], one), b, second, names);
    assert a in conns && b in conns && Waits(conns[a]) && Waits(conns[b]);
    hide Looked, KickAll, Act, Waits, SigningIn;
    var p0 := Pass(conns, []);
    var p1 := Looked(cfg, p0, a, found(a));
    WaitEnds(cfg, p0, a, login, names);
    WaitEnds(cfg, p1, b, login, names);
    BothLooked(cfg, conns, a, b, found);
    SamePassClosesBoth(cfg, conns, [a, b], found, a, b);
    RunAppend(cfg, map[], both, [HandshakePass([a, b], found)]);
    OnePass(cfg, conns, [a, b], found);
  }

  lemma BothLooked(cfg: Config, conns: Conns, a: nat, b: nat, found: nat -> Finding)
    ensures LookedAt(cfg, conns, [a, b], found) == Looked(cfg, Looked(cfg, Pass(conns, []), a, found(a)), b, found(b))
  {
    hide Looked;
    assert [a, b][..1] == [a] && [a][..0] == [];
    assert LookedAt(cfg, conns, [a], found) == Looked(cfg, LookedAt(cfg, conns, [], found), a, found(a));
  }

  lemma OnePass(cfg: Config, conns: Conns, order: seq<nat>, found: nat -> Finding)
    ensures Run(cfg, conns, [HandshakePass(order, found)]) == Passed(cfg, conns, order, found)
  {
    hide Passed;
    assert [HandshakePass(order, found)][..0] == [];
  }

  // ----------------------------------------------------------- distinct names

  predicate Distinct(s: Server, t: Server) {
    s.login.Some? && t.login.Some? && !SameLogin(s.login, t.login) ==> s.playerName != t.playerName
  }

  /** Different identities have different names. */
  predicate NamesApart(conns: Conns) {
    forall a, b :: a in conns && b in conns ==> Distinct(conns[a].hs, conns[b].hs)
  }

  ghost predicate NonEmptyNames(cfg: Config) {
    forall name, login :: cfg.rename(name, login) != ""
  }

  /** A name goes with an identity, and is nobody else's. */
  predicate Named(conns: Conns) {
    NamesApart(conns) && forall c :: c in conns && conns[c].hs.login.Some? ==> conns[c].hs.playerName != ""
  }

  predicate Other(s: Server, login: Login) {
    s.login.Some? && s.playerName != "" && !SameIdentity(s.login.value, login)
  }

  /** The name a verified connection gets is none of the others'. */
  lemma NewNameIsFree(cfg: Config, conns: Conns, id: nat, name: string, login: Login)
    requires NonEmptyNames(cfg) && id in conns && conns[id].hs.playerName == "" && |conns| <= 9998
    ensures var given := Resolved(Players(conns), login, cfg.rename(name, login));
            given != "" &&
            forall c :: c in conns && Other(conns[c].hs, login) ==> conns[c].hs.playerName != given
  {
    var players, base := Players(conns), cfg.rename(name, login);
    assert |conns.Keys - {id}| == |conns.Keys| - 1;
    ResolvedIsFree(players, conns.Keys - {id}, login, base);
    var given := Resolved(players, login, base);
    forall c | c in conns && Other(conns[c].hs, login)
      ensures conns[c].hs.playerName != given
    {
      assert c in players && !Holds(players[c], login, given);
    }
  }

  /** The state's login came with this identity, and its name from the resolver. */
  ghost predicate GivenName(cfg: Config, conns: Conns, s: Server, name: string, login: Login) {
    s.login.Some? && SameIdentity(s.login.value, login) && s.playerName == Resolved(Players(conns), login, cfg.rename(name, login))
  }

  /** Login and name are the old ones, or both new. */
  ghost predicate NameFits(cfg: Config, conns: Conns, before: Server, after: Server) {
    (after.login == before.login && after.playerName == before.playerName) ||
    (before.playerName == "" && exists name, login :: GivenName(cfg, conns, after, name, login))
  }

  lemma PolledNameFits(cfg: Config, conns: Conns, id: nat, s: Server, verdict: Option<AuthOutcome>, host: Host)
    requires NonEmptyNames(cfg) && id in conns && conns[id].hs.playerName == "" == s.playerName && |conns| <= 9998
    ensures NameFits(cfg, conns, s, PollAuth(s, verdict, Naming(cfg, conns, host)).0)
  {
    hide Resolved, Players;
    var r := PollAuth(s, verdict, Naming(cfg, conns, host)).0;
    if r.login != s.login {
      var given := verdict.value.login.value;
      var name := if verdict.value.resolvedName == "" then given.name else verdict.value.resolvedName;
      NewNameIsFree(cfg, conns, id, name, given);
      assert GivenName(cfg, conns, r, name, given);
    } else if r.playerName != s.playerName {
      var given := verdict.value.login.value;
      var name := if verdict.value.resolvedName == "" then given.name else verdict.value.resolvedName;
      NewNameIsFree(cfg, conns, id, name, given);
      assert GivenName(cfg, conns, r, name, given);
    }
  }

  lemma FrameNameFits(cfg: Config, conns: Conns, id: nat, msg: ToServer, host: Host)
    requires NonEmptyNames(cfg) && cfg.server.external && id in conns && SoundConn(conns[id]) && |conns| <= 9998
    ensures NameFits(cfg, conns, conns[id].hs, OnServerFrame(cfg.server, conns[id].hs, msg, Naming(cfg, conns, host)).0)
  {
    hide NonEmptyNames, Resolved, Players;
    var s := conns[id].hs;
    if Asks(cfg, s, msg, host) {
      PolledNameFits(cfg, conns, id, s.(requestedName := msg.name, ticket := true, state := VerifyingAuth), host.verdict, host);
    }
  }

  /** Giving a connection such a name keeps all names apart. */
  lemma ReplacedStaysNamed(cfg: Config, conns: Conns, id: nat, d: Conn)
    requires NonEmptyNames(cfg) && id in conns && Named(conns) && NameFits(cfg, conns, conns[id].hs, d.hs) && |conns| <= 9998
    ensures Named(conns[id := d])
  {
    hide NonEmptyNames, Resolved, Players;
    if d.hs.login != conns[id].hs.login || d.hs.playerName != conns[id].hs.playerName {
      var name, login :| GivenName(cfg, conns, d.hs, name, login);
      NewNameIsFree(cfg, conns, id, name, login);
    }
  }

  lemma KickAllStaysNamed(conns: Conns, newcomers: seq<nat>)
    requires Named(conns)
    ensures Named(KickAll(conns, newcomers))
  {
    var after := KickAll(conns, newcomers);
    forall c | c in after
      ensures c in conns && after[c].hs == conns[c].hs
    {
      KickAllIs(conns, newcomers, c);
    }
  }

  lemma PollFits(cfg: Config, conns: Conns, id: nat, f: Finding)
    requires NonEmptyNames(cfg) && id in conns && SoundConn(conns[id]) && !conns[id].playing && |conns| <= 9998
    ensures NameFits(cfg, conns, conns[id].hs, AfterPoll(cfg, conns, id, f).hs)
  {
    hide NonEmptyNames, Resolved, Players;
    var c := conns[id];
    var host := Naming(cfg, conns, f.host);
    if c.hs.state == VerifyingAuth {
      PolledNameFits(cfg, conns, id, c.hs, f.verdict, f.host);
      var r := PollAuth(c.hs, f.verdict, host).0;
      var t := AfterPoll(cfg, conns, id, f).hs;
      assert t.login == r.login && t.playerName == r.playerName;
      hide PollAuth;
      if exists name, login :: GivenName(cfg, conns, r, name, login) {
        var name, login :| GivenName(cfg, conns, r, name, login);
        assert GivenName(cfg, conns, t, name, login);
      }
    } else {
      PollKeepsLogin(c.hs, f.verdict, host);
    }
  }

  lemma {:induction false} LookedAtStaysNamed(cfg: Config, conns: Conns, order: seq<nat>, found: nat -> Finding)
    requires NonEmptyNames(cfg) && Sound(conns) && Named(conns) && |conns| <= 9998
    ensures Named(LookedAt(cfg, conns, order, found).conns) && |LookedAt(cfg, conns, order, found).conns| == |conns|
    decreases |order|
  {
    if order != [] {
      hide NonEmptyNames, Named, NameFits, SoundConn, AfterPoll;
      var id := order[|order| - 1];
      LookedAtStaysNamed(cfg, conns, order[..|order| - 1], found);
      LookedAtIsSound(cfg, conns, order[..|order| - 1], found);
      var p := LookedAt(cfg, conns, order[..|order| - 1], found);
      if id in p.conns && !p.conns[id].playing {
        PollStaysNamed(cfg, p.conns, id, found(id));
      }
    }
  }

  lemma PollStaysNamed(cfg: Config, conns: Conns, id: nat, f: Finding)
    requires NonEmptyNames(cfg) && Sound(conns) && Named(conns) && |conns| <= 9998
    requires id in conns && !conns[id].playing
    ensures var after := conns[id := AfterPoll(cfg, conns, id, f)]; Named(after) && |after| == |conns|
  {
    hide NonEmptyNames, Named, NameFits, SoundConn, AfterPoll;
    PollFits(cfg, conns, id, f);
    ReplacedStaysNamed(cfg, conns, id, AfterPoll(cfg, conns, id, f));
    assert conns[id := AfterPoll(cfg, conns, id, f)].Keys == conns.Keys;
    SameSize(conns, conns[id := AfterPoll(cfg, conns, id, f)]);
  }

  lemma SameSize(a: Conns, b: Conns)
    requires a.Keys == b.Keys
    ensures |a| == |b|
  {
    assert |a| == |a.Keys| && |b| == |b.Keys|;
  }

  lemma FrameStaysNamed(cfg: Config, conns: Conns, id: nat, msg: ToServer, host: Host)
    requires NonEmptyNames(cfg) && cfg.server.external && id in conns && SoundConn(conns[id]) && !conns[id].playing
    requires Named(conns) && |conns| <= 9998
    ensures Named(Framed(cfg, conns, id, msg, host))
  {
    FrameNameFits(cfg, conns, id, msg, host);
    hide NonEmptyNames, NameFits, Named, SoundHandshake, RenewalInterval, OnServerFrame, Asks;
    var d := AfterFrame(cfg, conns, id, msg, host);
    ReplacedStaysNamed(cfg, conns, id, d);
    KickAllStaysNamed(conns[id := d], [id]);
    assert KickAll(conns[id := d], [id][..0]) == conns[id := d];
  }

  lemma ActStaysNamed(cfg: Config, conns: Conns, a: Action)
    requires NonEmptyNames(cfg) && cfg.server.external && Sound(conns) && Named(conns) && |conns| <= 9998
    ensures Named(Act(cfg, conns, a))
  {
    hide NonEmptyNames, SoundConn, RenewalInterval, AfterFrame;
    match a
    case Frame(id, msg, host) =>
      if id in conns && !conns[id].playing {
        FrameStaysNamed(cfg, conns, id, msg, host);
      }
    case HandshakePass(order, found) =>
      LookedAtStaysNamed(cfg, conns, order, found);
      KickAllStaysNamed(LookedAt(cfg, conns, order, found).conns, LookedAt(cfg, conns, order, found).verified);
    case ReauthPass(dt, now) =>
      forall c | c in conns
        ensures Renewing(cfg, conns[c], dt, now(c)).hs == conns[c].hs
      {
      }
    case _ =>
  }

  /** While there are never more than 9998 connections and the host names nobody
      with the empty string, different identities always have different names. */
  lemma {:induction false} NamesStayApart(cfg: Config, actions: seq<Action>)
    requires NonEmptyNames(cfg) && cfg.server.external
    requires forall k :: 0 <= k < |actions| ==> |Run(cfg, map[], actions[..k])| <= 9998
    ensures Named(Run(cfg, map[], actions))
    decreases |actions|
  {
    if actions != [] {
      hide Act, Named, Sound, NonEmptyNames;
      var front := actions[..|actions| - 1];
      assert forall k :: 0 <= k < |front| ==> front[..k] == actions[..k];
      NamesStayApart(cfg, front);
      RunIsSound(cfg, front);
      ActStaysNamed(cfg, Run(cfg, map[], front), actions[|actions| - 1]);
    }
  }

  // ------------------------------------------------------ the re-auth deadline

  /** Every renewal interval is within a tenth of the configured one. */
  lemma {:induction false} IntervalWithinTenth(interval: nat, id: nat)
    ensures 0.9 * interval as real <= RenewalInterval(interval, id) <= 1.1 * interval as real
  {
    hide Bucket;
    var x, f := interval as real, 0.9 + 0.2 * (Bucket(id) as real / 1000.0);
    assert 0.9 <= f <= 1.1;
    assert RenewalInterval(interval, id) == x * f;
    Scaled(x, f);
  }

  lemma Scaled(x: real, f: real)
    requires 0.0 <= x && 0.9 <= f <= 1.1
    ensures 0.9 * x <= x * f <= 1.1 * x
  {
    assert x * (f - 0.9) >= 0.0 && x * (1.1 - f) >= 0.0;
  }

  /** A request that waits has its time counted, and no more verifications than
      requests are ever started. */
  predicate Timely(cfg: Config, c: Conn) {
    && c.past.verifications <= c.past.requests
    && (c.playing && c.reauth.pending && !c.reauth.ticket ==> c.past.verifications < c.past.requests)
    && (c.reauth.pending ==> c.reauth.remaining == cfg.grace as real - c.past.waited && 0.0 <= c.past.waited)
    && (c.reauth.pending && c.open ==> c.past.waited == 0.0 || c.past.waited < cfg.grace as real)
  }

  lemma RenewingIsTimely(cfg: Config, c: Conn, dt: Seconds, now: Circumstance)
    requires Timely(cfg, c)
    ensures Timely(cfg, Renewing(cfg, c, dt, now))
  {
    hide RenewalInterval;
  }

  predicate AllTimely(cfg: Config, conns: Conns) {
    forall c :: c in conns ==> Timely(cfg, conns[c])
  }

  lemma {:induction false} LookedAtIsTimely(cfg: Config, conns: Conns, order: seq<nat>, found: nat -> Finding)
    requires AllTimely(cfg, conns)
    ensures AllTimely(cfg, LookedAt(cfg, conns, order, found).conns)
    decreases |order|
  {
    if order != [] {
      hide PollAuth, OnTimeout;
      LookedAtIsTimely(cfg, conns, order[..|order| - 1], found);
    }
  }

  lemma ActIsTimely(cfg: Config, conns: Conns, a: Action)
    requires AllTimely(cfg, conns)
    ensures AllTimely(cfg, Act(cfg, conns, a))
  {
    hide OnServerFrame, Asks, RenewalInterval, Renewing, Naming;
    match a
    case HandshakePass(order, found) =>
      LookedAtIsTimely(cfg, conns, order, found);
      var p := LookedAt(cfg, conns, order, found);
      forall c | c in p.conns
        ensures c in KickAll(p.conns, p.verified) && Timely(cfg, KickAll(p.conns, p.verified)[c])
      {
        KickAllIs(p.conns, p.verified, c);
      }
      KickAllIs(p.conns, p.verified, 0);
    case ReauthPass(dt, now) =>
      forall c | c in conns
        ensures Timely(cfg, Renewing(cfg, conns[c], dt, now(c)))
      {
        RenewingIsTimely(cfg, conns[c], dt, now(c));
      }
    case _ =>
  }

  /** In every run, an open connection whose re-auth request is outstanding has
      waited less than the grace period (a request just sent aside), and each
      request has started at most one verification: answers unasked or repeated
      start none. */
  lemma {:induction false} RunIsTimely(cfg: Config, actions: seq<Action>)
    ensures AllTimely(cfg, Run(cfg, map[], actions))
    decreases |actions|
  {
    if actions != [] {
      hide Act, AllTimely;
      RunIsTimely(cfg, actions[..|actions| - 1]);
      ActIsTimely(cfg, Run(cfg, map[], actions[..|actions| - 1]), actions[|actions| - 1]);
    }
  }

  /** The renewal of a session: an accepted answer of its own identity, issued no
      more than a minute of clock skew before the request at `sentAt`. */
  predicate RenewedBy(cfg: Config, before: Conn, after: Conn, a: Answer, sentAt: int) {
    && a.ok && SameLogin(a.login, before.login) && a.issuedAt >= sentAt - 60
    && after.open == before.open && !after.reauth.pending && SameLogin(after.login, before.login)
    && 0.9 * cfg.interval as real <= after.reauth.timer <= 1.1 * cfg.interval as real
  }

  /** The time the re-auth passes of a run add up to. */
  function Elapsed(actions: seq<Action>): real {
    if actions == [] then 0.0
    else
      var last := actions[|actions| - 1];
      Elapsed(actions[..|actions| - 1]) + if last.ReauthPass? then last.dt else 0.0
  }

  ghost predicate HasPass(actions: seq<Action>) {
    exists a :: a in actions && a.ReauthPass?
  }

  /** Still waiting for the answer to the request of `asked`, for `time` so far;
      `due` says that a pass has looked at it since. */
  predicate StillWaits(cfg: Config, asked: Conn, c: Conn, time: real, due: bool) {
    && c.playing && c.open && c.login.Some? && c.login == asked.login
    && c.reauth.pending && c.reauth.sentAt == asked.reauth.sentAt
    && c.past.waited == time && c.reauth.remaining == cfg.grace as real - time
    && (due ==> time < cfg.grace as real)
  }

  /** The action at which a wait ends. */
  ghost predicate EndsAt(cfg: Config, asked: Conn, conns: Conns, a: Action, id: nat)
    requires id in conns
  {
    var after := Act(cfg, conns, a);
    id in after && (!after[id].open ||
      (a.ReauthPass? && a.now(id).answer.Some? && SameLogin(conns[id].login, asked.login) &&
       RenewedBy(cfg, conns[id], after[id], a.now(id).answer.value, asked.reauth.sentAt)))
  }

  lemma PassDecides(cfg: Config, asked: Conn, c: Conn, time: real, due: bool, dt: Seconds, now: Circumstance)
    requires cfg.interval > 0 && cfg.server.external && StillWaits(cfg, asked, c, time, due)
    ensures var d := Renewing(cfg, c, dt, now);
            || !d.open
            || (now.answer.Some? && RenewedBy(cfg, c, d, now.answer.value, asked.reauth.sentAt))
            || StillWaits(cfg, asked, d, time + dt, true)
  {
    IntervalWithinTenth(cfg.interval, c.netId);
    hide RenewalInterval;
  }

  /** A pass over handshakes does nothing to a player but perhaps close it. */
  lemma PassKeepsPlayer(cfg: Config, conns: Conns, order: seq<nat>, found: nat -> Finding, id: nat)
    requires Sound(conns) && id in conns && conns[id].playing
    ensures var after := Passed(cfg, conns, order, found);
            id in after && after[id] == conns[id].(open := after[id].open) && (after[id].open ==> conns[id].open)
  {
    hide SoundConn;
    LookedAtKeeps(cfg, conns, order, found, id);
    var p := LookedAt(cfg, conns, order, found);
    KickAllIs(p.conns, p.verified, id);
  }

  /** Whatever else happens to a session that waits, it is closed, renewed, or
      waits on for exactly as long as the passes say. */
  lemma WaitStep(cfg: Config, asked: Conn, conns: Conns, a: Action, id: nat, time: real, due: bool)
    requires cfg.interval > 0 && cfg.server.external && Sound(conns) && a != Gone(id)
    requires id in conns && StillWaits(cfg, asked, conns[id], time, due)
    ensures id in Act(cfg, conns, a)
    ensures EndsAt(cfg, asked, conns, a, id) ||
            StillWaits(cfg, asked, Act(cfg, conns, a)[id], if a.ReauthPass? then time + a.dt else time, due || a.ReauthPass?)
  {
    match a
    case ReauthPass(dt, now) =>
      hide Renewing, RenewalInterval;
      PassDecides(cfg, asked, conns[id], time, due, dt, now(id));
    case HandshakePass(order, found) =>
      hide Passed, Sound;
      PassKeepsPlayer(cfg, conns, order, found, id);
    case _ =>
      hide AfterFrame, RenewalInterval, Passed;
  }

  lemma PassSoFar(more: seq<Action>)
    requires more != []
    ensures HasPass(more) <==> HasPass(more[..|more| - 1]) || more[|more| - 1].ReauthPass?
  {
    var front, last := more[..|more| - 1], more[|more| - 1];
    assert more == front + [last];
    if HasPass(front) {
      var a :| a in front && a.ReauthPass?;
      assert a in more;
    }
    assert last in more;
  }

  /** Somewhere in the run it did. */
  ghost predicate Ended(cfg: Config, conns: Conns, more: seq<Action>, id: nat)
    requires id in conns
  {
    exists k :: 0 <= k < |more| && id in Run(cfg, conns, more[..k]) &&
                EndsAt(cfg, conns[id], Run(cfg, conns, more[..k]), more[k], id)
  }

  lemma EndedMore(cfg: Config, conns: Conns, front: seq<Action>, last: Action, id: nat)
    requires id in conns && id in Run(cfg, conns, front)
    ensures Ended(cfg, conns, front, id) || EndsAt(cfg, conns[id], Run(cfg, conns, front), last, id) ==>
              Ended(cfg, conns, front + [last], id)
  {
    hide Run, EndsAt;
    var more := front + [last];
    assert more[..|front|] == front;
    if Ended(cfg, conns, front, id) {
      var k :| 0 <= k < |front| && id in Run(cfg, conns, front[..k]) && EndsAt(cfg, conns[id], Run(cfg, conns, front[..k]), front[k], id);
      assert front[..k] == more[..k] && front[k] == more[k];
    }
  }

  lemma RunSnoc(cfg: Config, conns: Conns, front: seq<Action>, last: Action)
    ensures Run(cfg, conns, front + [last]) == Act(cfg, Run(cfg, conns, front), last)
    ensures Elapsed(front + [last]) == Elapsed(front) + if last.ReauthPass? then last.dt else 0.0
    ensures HasPass(front + [last]) <==> HasPass(front) || last.ReauthPass?
  {
    hide Act;
    assert (front + [last])[..|front|] == front;
    PassSoFar(front + [last]);
  }

  /** Over a run: the wait has ended at some action, or the counter agrees with
      the time of the run's passes and is short of the grace period. */
  lemma {:induction false} WaitOverRun(cfg: Config, conns: Conns, more: seq<Action>, id: nat)
    requires cfg.interval > 0 && cfg.server.external && Sound(conns) && Gone(id) !in more
    requires id in conns && StillWaits(cfg, conns[id], conns[id], 0.0, false)
    ensures id in Run(cfg, conns, more)
    ensures Ended(cfg, conns, more, id) || StillWaits(cfg, conns[id], Run(cfg, conns, more)[id], Elapsed(more), HasPass(more))
    decreases |more|
  {
    hide Act, Ended, EndsAt, StillWaits, Sound, Elapsed, HasPass;
    if more == [] {
      assert Elapsed(more) == 0.0 && !HasPass(more) by { NoPass(); }
    } else {
      var front, last := more[..|more| - 1], more[|more| - 1];
      assert last in more && forall a :: a in front ==> a in more;
      assert more == front + [last];
      WaitOverRun(cfg, conns, front, id);
      RunFromSound(cfg, conns, front);
      RunSnoc(cfg, conns, front, last);
      EndedMore(cfg, conns, front, last, id);
      hide Run;
      if Ended(cfg, conns, front, id) {
        IdentityIsConstant(cfg, conns, more, id);
      } else {
        WaitStep(cfg, conns[id], Run(cfg, conns, front), last, id, Elapsed(front), HasPass(front));
      }
    }
  }

  lemma NoPass()
    ensures Elapsed([]) == 0.0 && !HasPass([])
  {
  }

  /** A pass that sends connection `id` a re-auth request. */
  predicate SendsRequest(cfg: Config, conns: Conns, pass: Action, id: nat) {
    pass.ReauthPass? && id in conns && conns[id].open && !conns[id].reauth.pending &&
    id in Act(cfg, conns, pass) && Act(cfg, conns, pass)[id].reauth.pending
  }

  lemma RequestStartsWait(cfg: Config, conns: Conns, pass: Action, id: nat)
    requires SendsRequest(cfg, conns, pass, id)
    ensures var asked := Act(cfg, conns, pass)[id];
            cfg.interval > 0 && cfg.server.external && StillWaits(cfg, asked, asked, 0.0, false)
  {
    hide RenewalInterval;
  }

  lemma AfterRequest(cfg: Config, sofar: seq<Action>, pass: Action, more: seq<Action>, id: nat)
    requires cfg.server.external && SendsRequest(cfg, Run(cfg, map[], sofar), pass, id) && Gone(id) !in more
    ensures var asked := Act(cfg, Run(cfg, map[], sofar), pass);
            id in asked && id in Run(cfg, asked, more) &&
            (Ended(cfg, asked, more, id)
             || StillWaits(cfg, asked[id], Run(cfg, asked, more)[id], Elapsed(more), HasPass(more)))
  {
    hide Run, Sound, Act, StillWaits, Ended, HasPass, Elapsed;
    var before := Run(cfg, map[], sofar);
    RequestStartsWait(cfg, before, pass, id);
    RunIsSound(cfg, sofar);
    ActIsSound(cfg, before, pass);
    WaitOverRun(cfg, Act(cfg, before, pass), more, id);
  }

  /** The deadline holds over whole runs: once the passes after a request add up
      to the grace period, the session has been closed, has been renewed by an
      answer of the same identity issued no more than a minute before the
      request, or has gone. */
  lemma {:induction false} DeadlineDecides(cfg: Config, sofar: seq<Action>, pass: Action, more: seq<Action>, id: nat)
    requires cfg.server.external && SendsRequest(cfg, Run(cfg, map[], sofar), pass, id)
    requires HasPass(more) && Elapsed(more) >= cfg.grace as real
    ensures var asked := Act(cfg, Run(cfg, map[], sofar), pass);
            id in asked && (Gone(id) in more || Ended(cfg, asked, more, id))
  {
    hide Run, Act, Ended, HasPass, Elapsed;
    if Gone(id) !in more {
      AfterRequest(cfg, sofar, pass, more, id);
    }
  }

  /** Until then the counter the session keeps is the time that has really passed. */
  lemma {:induction false} WaitedIsElapsed(cfg: Config, sofar: seq<Action>, pass: Action, more: seq<Action>, id: nat)
    requires cfg.server.external && SendsRequest(cfg, Run(cfg, map[], sofar), pass, id) && Gone(id) !in more
    ensures var asked := Act(cfg, Run(cfg, map[], sofar), pass);
            id in asked && id in Run(cfg, asked, more) &&
            (Ended(cfg, asked, more, id) ||
             (Run(cfg, asked, more)[id].past.waited == Elapsed(more) &&
              Run(cfg, asked, more)[id].reauth.remaining == cfg.grace as real - Elapsed(more)))
  {
    hide Run, Act, Ended, HasPass, Elapsed;
    AfterRequest(cfg, sofar, pass, more, id);
  }

  // --------------------------------------------------- when a request is sent

  /** A session that counts down to its next request, `base` seconds from where
      the count began, `time` of which have passed. */
  predicate Counts(c: Conn, from: Conn, base: real, time: real) {
    && c.playing && c.login == from.login && c.login.Some? && c.netId == from.netId
    && !c.reauth.pending && c.reauth.timer == base - time && c.past.requests == from.past.requests
  }

  /** Becoming a player, and being renewed, starts the count at the renewal
      interval of the player's own id; nothing else makes a player or ends a request. */
  lemma CountStarts(cfg: Config, conns: Conns, a: Action, id: nat)
    requires Sound(conns)
    requires id in Act(cfg, conns, a)
    requires var d := Act(cfg, conns, a)[id];
             d.playing && !d.reauth.pending && (id !in conns || !conns[id].playing || conns[id].reauth.pending)
    ensures var d := Act(cfg, conns, a)[id];
            d.reauth.timer == RenewalInterval(cfg.interval, d.netId)
  {
    hide RenewalInterval, OnServerFrame, Naming, Asks, Passed, Sound;
    match a
    case HandshakePass(order, found) => PassMakesNoPlayer(cfg, conns, order, found, id);
    case _ =>
  }

  lemma PassMakesNoPlayer(cfg: Config, conns: Conns, order: seq<nat>, found: nat -> Finding, id: nat)
    requires Sound(conns)
    ensures var after := Passed(cfg, conns, order, found);
            id in after && after[id].playing ==> id in conns && conns[id].playing && after[id].reauth == conns[id].reauth
  {
    hide SoundConn;
    var p := LookedAt(cfg, conns, order, found);
    KickAllIs(p.conns, p.verified, id);
    LookedAtHas(cfg, conns, order, found, id);
    if id in conns {
      LookedAtKeeps(cfg, conns, order, found, id);
      if !conns[id].playing {
        LookedAtMakesNoPlayer(cfg, conns, order, found, id);
      }
    }
  }

  lemma {:induction false} LookedAtHas(cfg: Config, conns: Conns, order: seq<nat>, found: nat -> Finding, id: nat)
    ensures id in LookedAt(cfg, conns, order, found).conns <==> id in conns
    decreases |order|
  {
    if order != [] {
      hide AfterPoll;
      LookedAtHas(cfg, conns, order[..|order| - 1], found, id);
    }
  }

  lemma {:induction false} LookedAtMakesNoPlayer(cfg: Config, conns: Conns, order: seq<nat>, found: nat -> Finding, id: nat)
    requires id in conns && !conns[id].playing
    ensures var p := LookedAt(cfg, conns, order, found).conns; id in p ==> !p[id].playing
    decreases |order|
  {
    if order != [] {
      hide PollAuth, Naming;
      LookedAtHas(cfg, conns, order[..|order| - 1], found, id);
      LookedAtMakesNoPlayer(cfg, conns, order[..|order| - 1], found, id);
    }
  }

  /** Only re-auth passes move the count. */
  lemma CountKeeps(cfg: Config, conns: Conns, from: Conn, a: Action, id: nat, base: real, time: real)
    requires Sound(conns) && id in conns && Counts(conns[id], from, base, time) && a != Gone(id) && !a.ReauthPass?
    ensures id in Act(cfg, conns, a) && Counts(Act(cfg, conns, a)[id], from, base, time)
  {
    match a
    case HandshakePass(order, found) =>
      hide Passed, Sound;
      PassKeepsPlayer(cfg, conns, order, found, id);
    case _ =>
      hide AfterFrame, RenewalInterval, Passed;
  }

  /** A pass over it: while the count lasts it goes on; when it is over a request
      is sent if a challenge is at hand, and tried again after ten seconds if not. */
  lemma CountPass(cfg: Config, conns: Conns, from: Conn, dt: Seconds, now: nat -> Circumstance, id: nat, base: real, time: real)
    requires cfg.interval > 0 && cfg.server.external && id in conns && Counts(conns[id], from, base, time)
    ensures var (c, after) := (conns[id], Act(cfg, conns, ReauthPass(dt, now)));
            id in after &&
            if time + dt < base then Counts(after[id], from, base, time + dt)
            else if now(id).challenge then
              && after[id].reauth.pending && after[id].past.requests == c.past.requests + 1
              && after[id].reauth.sentAt == now(id).now && after[id].reauth.remaining == cfg.grace as real
              && !after[id].reauth.ticket && after[id].open == c.open
            else Counts(after[id], from, 10.0, 0.0)
  {
    hide RenewalInterval;
  }

  /** Over a run: as long as the passes add up to less than the count began with,
      no request is sent, and the timer is what is left. */
  lemma {:induction false} CountsOverRun(cfg: Config, conns: Conns, more: seq<Action>, id: nat)
    requires cfg.interval > 0 && cfg.server.external && Sound(conns) && Gone(id) !in more
    requires id in conns && Counts(conns[id], conns[id], conns[id].reauth.timer, 0.0)
    requires Elapsed(more) < conns[id].reauth.timer || !HasPass(more)
    ensures id in Run(cfg, conns, more) && Counts(Run(cfg, conns, more)[id], conns[id], conns[id].reauth.timer, Elapsed(more))
    decreases |more|
  {
    hide Act, Counts, Sound, HasPass;
    if more != [] {
      var front, last := more[..|more| - 1], more[|more| - 1];
      assert last in more && forall a :: a in front ==> a in more;
      assert more == front + [last];
      RunSnoc(cfg, conns, front, last);
      CountsOverRun(cfg, conns, front, id);
      RunFromSound(cfg, conns, front);
      hide Run, Elapsed;
      if last.ReauthPass? {
        CountPass(cfg, Run(cfg, conns, front), conns[id], last.dt, last.now, id, conns[id].reauth.timer, Elapsed(front));
      } else {
        CountKeeps(cfg, Run(cfg, conns, front), conns[id], last, id, conns[id].reauth.timer, Elapsed(front));
      }
    }
  }

  /** Exactly when a request is sent, over whole runs: a session that counts, by
      the first pass at which the time counted is up, if a challenge is at hand;
      without one the count starts again at ten seconds. */
  lemma RequestWhenDue(cfg: Config, sofar: seq<Action>, more: seq<Action>, pass: Action, id: nat)
    requires cfg.interval > 0 && cfg.server.external && Gone(id) !in more && pass.ReauthPass?
    requires var conns := Run(cfg, map[], sofar);
             id in conns && conns[id].playing && conns[id].login.Some? && !conns[id].reauth.pending &&
             (Elapsed(more) < conns[id].reauth.timer || !HasPass(more))
    ensures var c := Run(cfg, map[], sofar)[id];
            var before := Run(cfg, Run(cfg, map[], sofar), more);
            var after := Act(cfg, before, pass);
            var left := c.reauth.timer - Elapsed(more) - pass.dt;
            && id in before && id in after && before[id].past.requests == c.past.requests
            && (after[id].reauth.pending <==> left <= 0.0 && pass.now(id).challenge)
            && after[id].past.requests == c.past.requests + (if after[id].reauth.pending then 1 else 0)
            && (!after[id].reauth.pending ==> after[id].reauth.timer == if left > 0.0 then left else 10.0)
  {
    hide Run, Act, HasPass, Sound, Elapsed;
    var conns := Run(cfg, map[], sofar);
    RunIsSound(cfg, sofar);
    CountsOverRun(cfg, conns, more, id);
    CountPass(cfg, Run(cfg, conns, more), conns[id], pass.dt, pass.now, id, conns[id].reauth.timer, Elapsed(more));
  }

  // ----------------------------------------------------- what an answer achieves

  /** The answer whose verification this pass finds finished. */
  function Heard(c: Conn, now: Circumstance): Option<Answer> {
    if c.reauth.ticket then now.answer else None
  }

  /** Of the session's own identity, and issued no more than a minute of clock
      skew before the request. */
  predicate Fits(c: Conn, a: Answer) {
    a.ok && SameLogin(a.login, c.login) && a.issuedAt >= c.reauth.sentAt - 60
  }

  /** Exactly what a pass does to a session whose request is outstanding: an
      answer that fits renews it, one that does not closes it, and so does the end
      of the grace period without an answer. */
  lemma PassSettles(cfg: Config, conns: Conns, dt: Seconds, now: nat -> Circumstance, id: nat)
    requires cfg.interval > 0 && cfg.server.external && id in conns
    requires var c := conns[id]; c.playing && c.open && c.login.Some? && c.reauth.pending
    ensures
      var (c, d, heard) := (conns[id], Act(cfg, conns, ReauthPass(dt, now))[id], Heard(conns[id], now(id)));
      && (!d.open <==> if heard.Some? then !Fits(c, heard.value) else c.reauth.remaining - dt <= 0.0)
      && (!d.reauth.pending <==> heard.Some? && Fits(c, heard.value))
      && (if d.reauth.pending then d.login == c.login && d.changes == c.changes && d.reauth.remaining == c.reauth.remaining - dt
          else
            && d.login == Some(heard.value.login.value.(name := c.login.value.name))
            && d.changes == (if d.login.value.claims != c.login.value.claims then c.changes + [d.login.value] else c.changes)
            && !d.reauth.ticket && d.reauth.timer == RenewalInterval(cfg.interval, c.netId))
  {
    hide RenewalInterval;
  }

  /** An answer starts a verification exactly if a request is outstanding and has
      none yet; otherwise it changes nothing, and never another connection. */
  lemma AnswerStartsIff(conns: Conns, id: nat, begins: bool)
    ensures var after := Answered(conns, id, begins);
            var wanted := id in conns && conns[id].playing && conns[id].reauth.pending && !conns[id].reauth.ticket && begins;
            && after.Keys == conns.Keys && (!wanted ==> after == conns)
            && (wanted ==> after[id].reauth.ticket && after[id].past.verifications == conns[id].past.verifications + 1)
            && forall c :: c in conns && c != id ==> after[c] == conns[c]
  {
  }

  // ---------------------------------------- what a sign-in comes to, exactly

  /** Refused and closed go together: a handshake that has refused belongs to a
      connection that has been closed, and no other has a reason on record. */
  predicate ShutIfRefused(c: Conn) {
    if c.hs.state == Closed then !c.open else c.hs.refusal == None
  }

  predicate AllShutIfRefused(conns: Conns) {
    forall c :: c in conns ==> ShutIfRefused(conns[c])
  }

  lemma FrameShuts(cfg: Config, conns: Conns, id: nat, msg: ToServer, host: Host)
    requires id in conns && ShutIfRefused(conns[id])
    ensures ShutIfRefused(AfterFrame(cfg, conns, id, msg, host))
  {
    var c, named := conns[id], Naming(cfg, conns, host);
    if c.hs.state != Closed {
      FrameSaysFarewell(cfg.server, c.hs, msg, named);
    }
    hide OnServerFrame, Naming, RenewalInterval, Asks;
  }

  lemma LookShuts(cfg: Config, conns: Conns, id: nat, f: Finding)
    requires id in conns && ShutIfRefused(conns[id])
    ensures ShutIfRefused(AfterPoll(cfg, conns, id, f))
  {
    var c, named := conns[id], Naming(cfg, conns, f.host);
    if c.hs.state != Closed {
      PollSaysFarewell(c.hs, f.verdict, named);
    }
    hide PollAuth, Naming;
  }

  lemma {:induction false} LookedAtShuts(cfg: Config, conns: Conns, order: seq<nat>, found: nat -> Finding)
    requires AllShutIfRefused(conns)
    ensures AllShutIfRefused(LookedAt(cfg, conns, order, found).conns)
    decreases |order|
  {
    if order != [] {
      hide ShutIfRefused, AfterPoll;
      var id := order[|order| - 1];
      LookedAtShuts(cfg, conns, order[..|order| - 1], found);
      var p := LookedAt(cfg, conns, order[..|order| - 1], found);
      if id in p.conns && !p.conns[id].playing {
        LookShuts(cfg, p.conns, id, found(id));
      }
    }
  }

  lemma KickAllShuts(conns: Conns, newcomers: seq<nat>)
    requires AllShutIfRefused(conns)
    ensures AllShutIfRefused(KickAll(conns, newcomers))
  {
    forall c | c in KickAll(conns, newcomers)
      ensures ShutIfRefused(KickAll(conns, newcomers)[c])
    {
      KickAllIs(conns, newcomers, c);
    }
  }

  lemma ActShuts(cfg: Config, conns: Conns, a: Action)
    requires AllShutIfRefused(conns)
    ensures AllShutIfRefused(Act(cfg, conns, a))
  {
    hide AfterFrame, RenewalInterval;
    match a
    case Frame(id, msg, host) =>
      if id in conns && !conns[id].playing {
        FrameShuts(cfg, conns, id, msg, host);
      }
    case HandshakePass(order, found) =>
      LookedAtShuts(cfg, conns, order, found);
      KickAllShuts(LookedAt(cfg, conns, order, found).conns, LookedAt(cfg, conns, order, found).verified);
    case _ =>
  }

  /** In every run, a connection still open has not been refused. */
  lemma {:induction false} RefusedAreShut(cfg: Config, actions: seq<Action>)
    ensures AllShutIfRefused(Run(cfg, map[], actions))
    decreases |actions|
  {
    if actions != [] {
      hide Act, AllShutIfRefused;
      RefusedAreShut(cfg, actions[..|actions| - 1]);
      ActShuts(cfg, Run(cfg, map[], actions[..|actions| - 1]), actions[|actions| - 1]);
    }
  }

  /** The verdict this look finds, if the connection waits for one. */
  function VerdictHeard(s: Server, f: Finding): Option<AuthOutcome> {
    if s.state == VerifyingAuth && s.ticket then f.verdict else None
  }

  /** The name a verified player is given among these connections. */
  function NameAmong(cfg: Config, conns: Conns, outcome: AuthOutcome): string
    requires outcome.login.Some?
  {
    var given := outcome.login.value;
    Resolved(Players(conns), given, cfg.rename(if outcome.resolvedName == "" then given.name else outcome.resolvedName, given))
  }

  /** What the pass over handshakes makes of one of them: closed for a verdict that
      does not let it in, or else for its time being up; a newcomer, under its own
      identity and the name resolved, for one that does; and as it was without. */
  lemma LookSettles(cfg: Config, p: Pass, id: nat, f: Finding)
    requires id in p.conns && !p.conns[id].playing && SoundConn(p.conns[id])
    requires ShutIfRefused(p.conns[id]) && p.conns[id].hs.state != Closed
    ensures
      var (c, q) := (p.conns[id], Looked(cfg, p, id, f));
      var heard := VerdictHeard(c.hs, f);
      var (d, accepted) := (q.conns[id], heard.Some? && Accepts(heard.value, f.host));
      var refused := heard.Some? && !accepted;
      && (d.open <==> c.open && !refused && !f.expires) && !d.playing
      && d.hs.refusal == (if refused then Some(AuthFailed) else if f.expires then Some(TimedOut) else None)
      && q.verified == (if accepted then p.verified + [id] else p.verified)
      && (if accepted then
            var name := NameAmong(cfg, p.conns, heard.value);
            d.hs.login == Some(heard.value.login.value.(name := name)) && d.hs.playerName == NameFor(c.hs.requestedName, name)
          else d.hs.login == c.hs.login && d.hs.playerName == c.hs.playerName)
      && q.conns.Keys == p.conns.Keys && forall k :: k in p.conns && k != id ==> q.conns[k] == p.conns[k]
  {
    hide Resolved, Players;
  }

  /** What a frame makes of the connection it came on: closed if refused; a player
      by Ready in its turn, under the id granted and the login it signed in with;
      and nothing else of it changes but its handshake. */
  lemma FrameSettles(cfg: Config, conns: Conns, id: nat, msg: ToServer, host: Host)
    requires id in conns && !conns[id].playing && SoundConn(conns[id])
    requires ShutIfRefused(conns[id]) && conns[id].hs.state != Closed
    ensures
      var (c, d) := (conns[id], AfterFrame(cfg, conns, id, msg, host));
      && (d.open <==> c.open && d.hs.refusal == None)
      && (d.playing <==> c.hs.state == AwaitingReady && msg.Ready?)
      && (if d.playing then
            && d.netId == host.netId && d.login == d.hs.login == c.hs.login
            && !d.reauth.pending && d.reauth.timer == RenewalInterval(cfg.interval, host.netId)
          else d.netId == c.netId && d.login == c.login && d.reauth == c.reauth)
      && d.changes == c.changes
  {
    FrameShuts(cfg, conns, id, msg, host);
    ReadyPlays(cfg.server, conns[id].hs, msg, Naming(cfg, conns, host));
    hide OnServerFrame, Naming, RenewalInterval, Asks;
    FrameRefuses(cfg.server, conns[id].hs, msg, Naming(cfg, conns, host));
  }

  lemma ReadyPlays(cfg: ServerConfig, s: Server, msg: ToServer, host: Host)
    ensures var r := OnServerFrame(cfg, s, msg, host).0;
            && (s.state == AwaitingReady && r.state == Playing <==> s.state == AwaitingReady && msg.Ready?)
            && (s.state == AwaitingReady ==> r.login == s.login)
  {
  }

  lemma FrameRefuses(cfg: ServerConfig, s: Server, msg: ToServer, host: Host)
    requires s.state != Closed && s.refusal == None
    ensures var r := OnServerFrame(cfg, s, msg, host).0; r.state == Closed <==> r.refusal.Some?
  {
    FrameSaysFarewell(cfg, s, msg, host);
  }

  /** And of all the others: once its sign-in has succeeded, those of its identity
      are closed, and nothing else happens to anybody. */
  lemma FrameTouchesOthers(cfg: Config, conns: Conns, id: nat, msg: ToServer, host: Host, k: nat)
    requires id in conns && !conns[id].playing && k in conns && k != id
    ensures
      var (d, after) := (AfterFrame(cfg, conns, id, msg, host), Framed(cfg, conns, id, msg, host));
      var signedIn := conns[id].hs.state == AwaitingAuth && d.hs.state == AwaitingManifestRequest;
      && after.Keys == conns.Keys && after[id] == d
      && after[k] == if signedIn && SameLogin(conns[k].hs.login, d.hs.login) then conns[k].(open := false) else conns[k]
  {
    hide AfterFrame;
  }

  /** The renewal intervals spread evenly over the tenth either way: one thousand
      of them, by the id's bucket, each a fifth of a thousandth from the next. */
  lemma IntervalsSpread(interval: nat, a: nat, b: nat)
    ensures 5000.0 * (RenewalInterval(interval, a) - RenewalInterval(interval, b)) ==
            interval as real * (Bucket(a) - Bucket(b)) as real
    ensures RenewalInterval(interval, 0) == 0.9 * interval as real
  {
    hide Bucket;
    var x := interval as real;
    var f, g := Bucket(a) as real, Bucket(b) as real;
    assert RenewalInterval(interval, a) == x * (0.9 + 0.2 * (f / 1000.0));
    assert RenewalInterval(interval, b) == x * (0.9 + 0.2 * (g / 1000.0));
    Spread(x, f, g);
    assert Bucket(0) == 0 by { BucketOfZero(); }
  }

  lemma Spread(x: real, f: real, g: real)
    ensures 5000.0 * (x * (0.9 + 0.2 * (f / 1000.0)) - x * (0.9 + 0.2 * (g / 1000.0))) == x * (f - g)
  {
    assert 0.2 * (f / 1000.0) == f / 5000.0 && 0.2 * (g / 1000.0) == g / 5000.0;
    assert x * (f / 5000.0) * 5000.0 == x * f && x * (g / 5000.0) * 5000.0 == x * g;
  }

  lemma BucketOfZero()
    ensures Bucket(0) == 0 && Bucket(1) == 761 && Bucket(2) == 226
  {
  }
}
