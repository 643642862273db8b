/**
 The key service (src/auth/service.cpp): a cached key set, a worker that
 fetches it, and verifications that wait for it. A lock makes each critical
 section one step; the clock is read where the code reads it, which for the
 worker is before it takes the lock. Parsing and signatures are parameters.
 */
module KeyService {
  import opened Common

  type KeySet = map<string, string>

  datatype Verdict = Accepted(login: string) | Rejected(why: string)

  /** Checking a token: either its key is not in the set, or the outcome is known. */
  datatype Checked = UnknownKid | Known(verdict: Verdict)

  /** `check` is the check of one token against a key set at a time. */
  datatype Options = Options(interval: nat, wait: nat, check: (KeySet, nat) -> Checked)

  datatype Work = NoWork | Discovery | Jwks

  /** What a response means: the keys' address if it is a usable discovery
      document, the usable keys if it is a key set. */
  datatype Reply = Reply(uri: string, keys: KeySet)

  datatype Service = Service(
    uri: string, keys: KeySet, generation: nat, refreshRequested: bool, fetching: bool,
    lastAttempt: int, nextRetry: nat, backoff: nat)

  /** `uri` is empty unless the provider's address is built in. */
  function NewService(uri: string): Service {
    Service(uri, map[], 0, false, false, -1, 0, 10)
  }

  const MAX_BACKOFF: nat := 300

  // ---------------------------------------------------------- critical sections

  function Requesting(o: Options, s: Service, now: nat): (Service, bool) {
    if s.fetching || s.refreshRequested then (s, true)
    else if s.lastAttempt >= 0 && now < s.lastAttempt + o.interval then (s, false)
    else (s.(refreshRequested := true), true)
  }

  function WorkFor(s: Service, t: nat): Work {
    if s.fetching then NoWork
    else if s.uri == "" then if t >= s.nextRetry then Discovery else NoWork
    else if s.keys == map[] then if t >= s.nextRetry then Jwks else NoWork
    else if s.refreshRequested then Jwks else NoWork
  }

  function Beginning(s: Service, t: nat): (Service, Work) {
    match WorkFor(s, t)
    case NoWork => (s, NoWork)
    case Discovery => (s.(fetching := true), Discovery)
    case Jwks => (s.(fetching := true, lastAttempt := t), Jwks)
  }

  predicate Useful(work: Work, r: Reply) {
    if work == Discovery then r.uri != "" else r.keys != map[]  // a key set without usable keys is an error
  }

  function Ending(s: Service, work: Work, t: nat, r: Reply): Service {
    var timed := if Useful(work, r) then s.(fetching := false, backoff := 10, nextRetry := 0)
                 else s.(fetching := false, nextRetry := t + s.backoff, backoff := Min(s.backoff * 2, MAX_BACKOFF));
    if work == Discovery then if Useful(work, r) then timed.(uri := r.uri) else timed
    else
      timed.(refreshRequested := false, generation := s.generation + 1,
             keys := if Useful(work, r) then r.keys else s.keys)
  }

  class AuthService {
    const options: Options
    var uri: string
    var keys: KeySet
    var generation: nat
    var refreshRequested: bool
    var fetching: bool
    var lastAttempt: int
    var nextRetry: nat
    var backoff: nat

    constructor (options: Options, uri: string)
      ensures this.options == options && Value() == NewService(uri)
    {
      this.options, this.uri := options, uri;
      keys, generation, refreshRequested, fetching := map[], 0, false, false;
      lastAttempt, nextRetry, backoff := -1, 0, 10;
    }

    function Value(): Service
      reads this
    {
      Service(uri, keys, generation, refreshRequested, fetching, lastAttempt, nextRetry, backoff)
    }

    method RequestRefresh(now: nat) returns (coming: bool)
      modifies `refreshRequested
      ensures (Value(), coming) == Requesting(options, old(Value()), now)
    {
      if fetching || refreshRequested {
        return true;
      }
      if lastAttempt >= 0 && now < lastAttempt + options.interval {
        return false;
      }
      refreshRequested := true;
      return true;
    }

    /** The section of a pump before its fetch; `t` was read before the lock. */
    method BeginPump(t: nat) returns (work: Work)
      modifies `fetching, `lastAttempt
      ensures (Value(), work) == Beginning(old(Value()), t)
    {
      if fetching {
        return NoWork;
      }
      work := NoWork;
      if uri == "" {
        if t >= nextRetry {
          work := Discovery;
        }
      } else if keys == map[] {
        if t >= nextRetry {
          work := Jwks;
        }
      } else if refreshRequested {
        work := Jwks;
      }
      if work == NoWork {
        return;
      }
      fetching := true;
      if work == Jwks {
        lastAttempt := t;
      }
    }

    /** The section after it. */
    method EndPump(work: Work, t: nat, reply: Reply)
      requires work != NoWork
      modifies this
      ensures Value() == Ending(old(Value()), work, t, reply)
    {
      fetching := false;
      if Useful(work, reply) {
        if work == Discovery {
          uri := reply.uri;
        } else {
          keys := reply.keys;
        }
        backoff, nextRetry := 10, 0;
      } else {
        nextRetry := t + backoff;
        backoff := Min(backoff * 2, MAX_BACKOFF);
      }
      if work == Jwks {
        refreshRequested := false;
        generation := generation + 1;
      }
    }
  }

  // ------------------------------------------------------- a waiting verification

  /** Where a verification stands between two of its sections: between polls it
      is New or Waiting. */
  datatype Stage = New | Asking | Marking | Arming | Waiting | Rechecking | Timing | Resolved(verdict: Verdict)

  /** `checks` counts the token checks made so far. */
  datatype Pending = Pending(stage: Stage, generationAtWait: nat, deadline: nat, checks: nat)

  const NEW_PENDING := Pending(New, 0, 0, 0)

  const NO_KEY := Rejected("no key with that kid")
  const TIMED_OUT := Rejected("timed out waiting for the key set")

  function VerdictOf(c: Checked): Verdict {
    if c.Known? then c.verdict else NO_KEY
  }

  /** One section of poll: it looks at the service at most once. */
  function Polled(o: Options, s: Service, p: Pending, now: nat): (Service, Pending) {
    match p.stage
    case New =>
      var c := o.check(s.keys, now);
      var q := p.(checks := p.checks + 1);
      if c.Known? then (s, q.(stage := Resolved(c.verdict)))
      else (s, q.(stage := if s.keys == map[] then Marking else Asking))
    case Asking =>
      var (r, coming) := Requesting(o, s, now);
      (r, p.(stage := if coming then Marking else Resolved(NO_KEY)))
    case Marking => (s, p.(generationAtWait := s.generation, stage := Arming))
    case Arming => (s, p.(deadline := now + o.wait, stage := Waiting))
    case Waiting => (s, p.(stage := if s.generation > p.generationAtWait then Rechecking else Timing))
    case Rechecking => (s, p.(checks := p.checks + 1, stage := Resolved(VerdictOf(o.check(s.keys, now)))))
    case Timing => (s, p.(stage := if now > p.deadline then Resolved(TIMED_OUT) else Waiting))
    case Resolved(_) => (s, p)
  }

  predicate BetweenPolls(p: Pending) {
    p.stage == Waiting || p.stage.Resolved?
  }

  function SectionsLeft(s: Stage): nat {
    match s
    case New => 4
    case Asking => 3
    case Marking => 2
    case Waiting => 2
    case Resolved(_) => 0
    case _ => 1
  }

  /** A poll nobody interrupts. */
  function WholePoll(o: Options, s: Service, p: Pending, now: nat): (r: (Service, Pending))
    ensures BetweenPolls(r.1)
    decreases SectionsLeft(p.stage)
  {
    var (t, q) := Polled(o, s, p, now);
    if BetweenPolls(q) then (t, q)
    else if q.stage == Rechecking || q.stage == Timing then Polled(o, t, q, now)
    else WholePoll(o, t, q, now)
  }

  lemma FirstPollWaits(o: Options, s: Service, p: Pending, now: nat)
    requires p.stage == New && o.check(s.keys, now).UnknownKid?
    ensures var (r, coming) := if s.keys == map[] then (s, true) else Requesting(o, s, now);
            WholePoll(o, s, p, now) ==
            if coming then (r, Pending(Waiting, r.generation, now + o.wait, p.checks + 1))
            else (r, p.(stage := Resolved(NO_KEY), checks := p.checks + 1))
  {
    var (_, q) := Polled(o, s, p, now);
    if q.stage == Asking {
      var (r, q2) := Polled(o, s, q, now);
      MarksAndArms(o, r, q2, now);
    } else {
      MarksAndArms(o, s, q, now);
    }
  }

  lemma MarksAndArms(o: Options, s: Service, p: Pending, now: nat)
    ensures p.stage == Marking ==>
              WholePoll(o, s, p, now) == (s, Pending(Waiting, s.generation, now + o.wait, p.checks))
  {
    if p.stage == Marking {
      var (_, q) := Polled(o, s, p, now);
      assert WholePoll(o, s, q, now) == Polled(o, s, q, now);
    }
  }

  class Verification {
    const svc: AuthService
    var waiting: bool
    var verdict: Checked
    var generationAtWait: nat
    var deadline: nat
    ghost var checks: nat

    constructor (svc: AuthService)
      ensures this.svc == svc && Value() == NEW_PENDING
    {
      this.svc, waiting, verdict := svc, false, UnknownKid;
      generationAtWait, deadline, checks := 0, 0, 0;
    }

    ghost function Value(): Pending
      reads this
    {
      Pending(if verdict.Known? then Resolved(verdict.verdict) else if waiting then Waiting else New,
              generationAtWait, deadline, checks)
    }

    /** A poll, the service left alone meanwhile; UnknownKid means still waiting. */
    method Poll(now: nat) returns (answer: Checked)
      requires verdict == UnknownKid
      modifies this, svc
      ensures (svc.Value(), Value()) == WholePoll(svc.options, old(svc.Value()), old(Value()), now)
      ensures answer == verdict
    {
      if !waiting {
        if svc.options.check(svc.keys, now).UnknownKid? {
          FirstPollWaits(svc.options, svc.Value(), Value(), now);
        }
        verdict := svc.options.check(svc.keys, now);
        checks := checks + 1;
        if verdict.Known? {
          return verdict;
        }
        if svc.keys != map[] {
          var coming := svc.RequestRefresh(now);
          if !coming {
            verdict := Known(NO_KEY);
            return verdict;
          }
        }
        waiting := true;
        generationAtWait := svc.generation;
        deadline := now + svc.options.wait;
        return UnknownKid;
      }
      if svc.generation > generationAtWait {
        verdict := Known(VerdictOf(svc.options.check(svc.keys, now)));
        checks := checks + 1;
        return verdict;
      }
      if now > deadline {
        verdict := Known(TIMED_OUT);
      }
      return verdict;
    }
  }

  // ------------------------------------------------------------------ whole runs

  /** A pump that has read the clock, or is fetching. */
  datatype Pump = Primed(t: nat) | Fetching(work: Work, t: nat)

  /** A fetch: why, the clock reading it goes by, when it really started, and,
      once it is over, whether it succeeded. */
  datatype Fetch = Fetch(work: Work, refresh: bool, stamp: nat, start: nat, ended: bool, ok: bool)

  datatype World = World(now: nat, svc: Service, pumps: map<nat, Pump>, log: seq<Fetch>, pending: Pending)

  /** Any number of threads may pump; Request is another verification's. */
  datatype Action = Tick(seconds: nat) | ReadClock(p: nat) | Begin(p: nat) | End(p: nat, reply: Reply) | Request | Poll

  function Act(o: Options, w: World, a: Action): World {
    match a
    case Tick(seconds) => w.(now := w.now + seconds)
    case ReadClock(p) => if p in w.pumps then w else w.(pumps := w.pumps[p := Primed(w.now)])
    case Begin(p) =>
      if p !in w.pumps || !w.pumps[p].Primed? then w
      else
        var t := w.pumps[p].t;
        var (s, work) := Beginning(w.svc, t);
        if work == NoWork then w.(pumps := w.pumps - {p})
        else
          w.(svc := s, pumps := w.pumps[p := Fetching(work, t)],
             log := w.log + [Fetch(work, w.svc.uri != "" && w.svc.keys != map[], t, w.now, false, false)])
    case End(p, reply) =>
      if p !in w.pumps || !w.pumps[p].Fetching? then w
      else
        var (work, t) := (w.pumps[p].work, w.pumps[p].t);
        w.(svc := Ending(w.svc, work, t, reply), pumps := w.pumps - {p},
           log := Closed(w.log, Useful(work, reply)))
    case Request => w.(svc := Requesting(o, w.svc, w.now).0)
    case Poll =>
      var (s, p) := Polled(o, w.svc, w.pending, w.now);
      w.(svc := s, pending := p)
  }

  function Closed(log: seq<Fetch>, ok: bool): seq<Fetch> {
    if log == [] then [] else log[|log| - 1 := log[|log| - 1].(ended := true, ok := ok)]
  }

  function Start(uri: string, now: nat): World {
    World(now, NewService(uri), map[], [], NEW_PENDING)
  }

  function Run(o: Options, w: World, actions: seq<Action>): World {
    if actions == [] then w else Act(o, Run(o, w, actions[..|actions| - 1]), actions[|actions| - 1])
  }

  // ------------------------------------------------------------------- backoff

  function Pow2(n: nat): nat {
    if n == 0 then 1 else 2 * Pow2(n - 1)
  }

  /** The wait after the k-th failure in a row. */
  function Wait(k: nat): nat
    requires k > 0
  {
    Min(10 * Pow2(k - 1), MAX_BACKOFF)
  }

  lemma WaitDoubles(k: nat)
    requires k > 0
    ensures Min(Wait(k) * 2, MAX_BACKOFF) == Wait(k + 1)
  {
    assert 10 * Pow2(k) == 2 * (10 * Pow2(k - 1));
  }

  /** Failures in a row at the end of the log, an unfinished fetch aside. */
  function Failures(log: seq<Fetch>): nat {
    if log == [] then 0
    else
      var last := log[|log| - 1];
      if !last.ended then Failures(log[..|log| - 1])
      else if last.ok then 0
      else 1 + Failures(log[..|log| - 1])
  }

  /** The stamp of the last finished fetch. */
  function LastEnd(log: seq<Fetch>): nat {
    if log == [] then 0
    else if log[|log| - 1].ended then log[|log| - 1].stamp
    else LastEnd(log[..|log| - 1])
  }

  function EarliestRetry(log: seq<Fetch>): nat {
    if Failures(log) == 0 then 0 else LastEnd(log) + Wait(Failures(log))
  }

  function LastJwks(log: seq<Fetch>): int {
    if log == [] then -1
    else if log[|log| - 1].work == Jwks then log[|log| - 1].stamp
    else LastJwks(log[..|log| - 1])
  }

  /** What the log owes its latest fetch: a refresh starts an interval after the
      reading of the key fetch before it, any other fetch when its wait is over. */
  predicate Spaced(o: Options, log: seq<Fetch>) {
    log == [] ||
    var before, f := log[..|log| - 1], log[|log| - 1];
    && f.stamp <= f.start
    && if f.refresh then f.work == Jwks && LastJwks(before) >= 0 && f.start >= LastJwks(before) + o.interval
       else f.stamp >= EarliestRetry(before)
  }

  // ------------------------------------------------------------ the invariant

  predicate InFlight(pumps: map<nat, Pump>, p: nat) {
    p in pumps && pumps[p].Fetching?
  }

  /** The pumps agree with the log: the one fetch not ended is the one in flight. */
  ghost predicate PumpsKept(w: World) {
    && (w.svc.fetching <==> w.log != [] && !w.log[|w.log| - 1].ended)
    && (forall i :: 0 <= i < |w.log| - 1 ==> w.log[i].ended)
    && (forall p :: p in w.pumps ==> w.pumps[p].t <= w.now)
    && (forall p :: InFlight(w.pumps, p) ==>
          w.svc.fetching && var f := w.log[|w.log| - 1]; w.pumps[p].work == f.work != NoWork && w.pumps[p].t == f.stamp)
    && (forall p, q :: InFlight(w.pumps, p) && InFlight(w.pumps, q) ==> p == q)
  }

  predicate TimesKept(o: Options, w: World) {
    var s := w.svc;
    && s.nextRetry == EarliestRetry(w.log) && s.backoff == Wait(Failures(w.log) + 1)
    && s.lastAttempt == LastJwks(w.log) <= w.now
    && (s.refreshRequested && !(s.fetching && w.log != [] && w.log[|w.log| - 1].work == Jwks) ==>
          s.lastAttempt < 0 || w.now >= s.lastAttempt + o.interval)
    && (s.keys != map[] ==> LastJwks(w.log) >= 0)
  }

  ghost predicate Kept(o: Options, w: World) {
    PumpsKept(w) && TimesKept(o, w) && forall k :: 0 <= k <= |w.log| ==> Spaced(o, w.log[..k])
  }

  lemma EndedLog(log: seq<Fetch>, ok: bool)
    requires log != [] && !log[|log| - 1].ended
    ensures var after := Closed(log, ok);
            Failures(after) == (if ok then 0 else 1 + Failures(log)) &&
            LastEnd(after) == log[|log| - 1].stamp && LastJwks(after) == LastJwks(log)
  {
    assert Closed(log, ok)[..|log| - 1] == log[..|log| - 1];
  }

  lemma SpacedAfterEnd(o: Options, log: seq<Fetch>, ok: bool, k: nat)
    requires log != [] && k <= |log| && Spaced(o, log[..k])
    ensures Spaced(o, Closed(log, ok)[..k])
  {
    var after := Closed(log, ok);
    if k < |log| {
      assert after[..k] == log[..k];
    } else {
      assert after[..k] == after && log[..k] == log;
      assert after[..k - 1] == log[..k - 1];
    }
  }

  lemma EndKeepsPumps(o: Options, w: World, p: nat, reply: Reply)
    requires PumpsKept(w) && InFlight(w.pumps, p)
    ensures PumpsKept(Act(o, w, End(p, reply)))
  {
    var r := Act(o, w, End(p, reply));
    assert forall q :: InFlight(r.pumps, q) ==> InFlight(w.pumps, q) && q != p;
  }

  lemma EndKeepsTimes(o: Options, w: World, p: nat, reply: Reply)
    requires PumpsKept(w) && TimesKept(o, w) && InFlight(w.pumps, p)
    ensures TimesKept(o, Act(o, w, End(p, reply)))
  {
    EndedLog(w.log, Useful(w.pumps[p].work, reply));
    WaitDoubles(Failures(w.log) + 1);
    hide Pow2, Wait, Failures, LastEnd, LastJwks;
  }

  lemma EndKeeps(o: Options, w: World, p: nat, reply: Reply)
    requires Kept(o, w) && InFlight(w.pumps, p)
    ensures Kept(o, Act(o, w, End(p, reply)))
  {
    EndKeepsPumps(o, w, p, reply);
    EndKeepsTimes(o, w, p, reply);
    hide PumpsKept, TimesKept, Spaced;
    var ok := Useful(w.pumps[p].work, reply);
    forall k | 0 <= k <= |w.log|
      ensures Spaced(o, Closed(w.log, ok)[..k])
    {
      SpacedAfterEnd(o, w.log, ok, k);
    }
  }

  lemma BeginKeepsPumps(o: Options, w: World, p: nat)
    requires PumpsKept(w)
    ensures PumpsKept(Act(o, w, Begin(p)))
  {
    var r := Act(o, w, Begin(p));
    if w.svc.fetching {
      assert r.log == w.log;
    }
    assert forall q :: InFlight(r.pumps, q) ==> InFlight(w.pumps, q) || (q == p && !w.svc.fetching);
  }

  lemma UnendedLog(log: seq<Fetch>, f: Fetch)
    requires !f.ended
    ensures Failures(log + [f]) == Failures(log) && LastEnd(log + [f]) == LastEnd(log)
    ensures LastJwks(log + [f]) == if f.work == Jwks then f.stamp else LastJwks(log)
    ensures EarliestRetry(log + [f]) == EarliestRetry(log)
  {
    assert (log + [f])[..|log|] == log;
  }

  lemma IdleBeginKeepsTimes(o: Options, w: World, p: nat)
    requires Kept(o, w) && Act(o, w, Begin(p)).log == w.log
    ensures var r := Act(o, w, Begin(p)); TimesKept(o, r) && Spaced(o, r.log)
  {
    hide Wait, Failures, LastEnd, LastJwks, EarliestRetry, Spaced, PumpsKept;
    var r := Act(o, w, Begin(p));
    assert w.log[..|w.log|] == w.log;
    assert r.svc == w.svc && r.now == w.now;
  }

  /** The fetch a pump begins, and the state it leaves. */
  lemma BeginsFetch(o: Options, w: World, p: nat)
    requires Kept(o, w) && Act(o, w, Begin(p)).log != w.log
    ensures var r := Act(o, w, Begin(p));
            && |r.log| == |w.log| + 1 && r.log[..|w.log|] == w.log && r.now == w.now
            && var f := r.log[|w.log|];
               && f.stamp <= f.start == w.now && !f.ended
               && !w.svc.fetching && (r.svc, f.work) == Beginning(w.svc, f.stamp)
               && f.refresh == (w.svc.uri != "" && w.svc.keys != map[])
  {
    hide Wait, Failures, LastEnd, LastJwks, EarliestRetry, Spaced, TimesKept;
  }

  lemma FetchIsSpaced(o: Options, w: World, p: nat)
    requires Kept(o, w) && Act(o, w, Begin(p)).log != w.log
    ensures Spaced(o, Act(o, w, Begin(p)).log)
  {
    BeginsFetch(o, w, p);
    hide Wait, Failures, LastEnd, LastJwks, EarliestRetry, Act, PumpsKept;
    var r := Act(o, w, Begin(p));
    assert r.log[..|r.log| - 1] == w.log;
  }

  lemma FetchKeepsTimes(o: Options, w: World, p: nat)
    requires Kept(o, w) && Act(o, w, Begin(p)).log != w.log
    ensures TimesKept(o, Act(o, w, Begin(p)))
  {
    BeginsFetch(o, w, p);
    hide Wait, Failures, LastEnd, LastJwks, EarliestRetry, Act, PumpsKept, Spaced;
    var r := Act(o, w, Begin(p));
    assert r.log == w.log + [r.log[|w.log|]];
    UnendedLog(w.log, r.log[|w.log|]);
  }

  lemma BeginKeepsTimes(o: Options, w: World, p: nat)
    requires Kept(o, w)
    ensures var r := Act(o, w, Begin(p)); TimesKept(o, r) && Spaced(o, r.log)
  {
    hide *;
    if Act(o, w, Begin(p)).log == w.log {
      IdleBeginKeepsTimes(o, w, p);
    } else {
      FetchIsSpaced(o, w, p);
      FetchKeepsTimes(o, w, p);
    }
  }

  lemma BeginKeeps(o: Options, w: World, p: nat)
    requires Kept(o, w)
    ensures Kept(o, Act(o, w, Begin(p)))
  {
    var r := Act(o, w, Begin(p));
    BeginKeepsPumps(o, w, p);
    BeginKeepsTimes(o, w, p);
    hide Spaced, PumpsKept, TimesKept;
    forall k | 0 <= k <= |r.log|
      ensures Spaced(o, r.log[..k])
    {
      if k == |r.log| {
        assert r.log[..k] == r.log;
      } else {
        assert r.log[..k] == w.log[..k];
      }
    }
  }

  /** A request changes nothing but its flag, and only when it is due. */
  lemma RequestKeeps(o: Options, w: World, s: Service)
    requires TimesKept(o, w) && s == Requesting(o, w.svc, w.now).0
    ensures TimesKept(o, w.(svc := s)) && s == w.svc.(refreshRequested := s.refreshRequested)
  {
    hide Failures, EarliestRetry, LastJwks, Wait;
  }

  lemma ReadClockKeeps(o: Options, w: World, p: nat)
    requires Kept(o, w)
    ensures Kept(o, Act(o, w, ReadClock(p)))
  {
    hide Spaced, Failures, EarliestRetry, LastJwks, Wait;
    var r := Act(o, w, ReadClock(p));
    assert TimesKept(o, r);
    assert forall q :: InFlight(r.pumps, q) ==> InFlight(w.pumps, q) && r.pumps[q] == w.pumps[q];
  }

  lemma OthersKeep(o: Options, w: World, a: Action)
    requires Kept(o, w) && (a.Tick? || a.Request? || a.Poll?)
    ensures Kept(o, Act(o, w, a))
  {
    hide Spaced, Failures, EarliestRetry, LastJwks, Wait, Requesting;
    RequestKeeps(o, w, Requesting(o, w.svc, w.now).0);
    var r := Act(o, w, a);
    assert r.pumps == w.pumps && r.log == w.log && r.svc.fetching == w.svc.fetching && w.now <= r.now;
    assert PumpsKept(r);
  }

  lemma {:induction false} RunKeeps(o: Options, w: World, actions: seq<Action>)
    requires Kept(o, w)
    ensures Kept(o, Run(o, w, actions))
    decreases |actions|
  {
    if actions != [] {
      hide Kept, Act;
      var before, a := Run(o, w, actions[..|actions| - 1]), actions[|actions| - 1];
      RunKeeps(o, w, actions[..|actions| - 1]);
      match a
      case Begin(p) => BeginKeeps(o, before, p);
      case End(p, reply) =>
        if InFlight(before.pumps, p) {
          EndKeeps(o, before, p, reply);
        } else {
          EndElsewhere(o, before, p, reply);
        }
      case ReadClock(p) => ReadClockKeeps(o, before, p);
      case _ => OthersKeep(o, before, a);
    }
  }

  lemma EndElsewhere(o: Options, w: World, p: nat, reply: Reply)
    requires !InFlight(w.pumps, p)
    ensures Act(o, w, End(p, reply)) == w
  {
  }

  lemma StartIsKept(o: Options, uri: string, now: nat)
    ensures Kept(o, Start(uri, now))
  {
    assert Pow2(0) == 1;
  }

  // ------------------------------------------------------------ what holds always

  /** At most one fetch is ever in flight, however many threads pump. */
  lemma OneFetchAtATime(o: Options, uri: string, now: nat, actions: seq<Action>, p: nat, q: nat)
    requires InFlight(Run(o, Start(uri, now), actions).pumps, p) && InFlight(Run(o, Start(uri, now), actions).pumps, q)
    ensures p == q
  {
    StartIsKept(o, uri, now);
    RunKeeps(o, Start(uri, now), actions);
  }

  /** Fetch k of a run: a refresh starts at least the interval after the clock
      reading of the last key fetch before it; any other fetch waits
      min(10 * 2^(n-1), 300) seconds after n failures in a row. */
  lemma FetchesAreSpaced(o: Options, uri: string, now: nat, actions: seq<Action>, k: nat)
    requires k < |Run(o, Start(uri, now), actions).log|
    ensures var log := Run(o, Start(uri, now), actions).log;
            var (before, f, n) := (log[..k], log[k], Failures(log[..k]));
            (f.refresh ==> f.work == Jwks && LastJwks(before) >= 0 && f.start >= LastJwks(before) + o.interval) &&
            (!f.refresh && n > 0 ==> log[k - 1].ended && f.stamp >= log[k - 1].stamp + Min(10 * Pow2(n - 1), 300))
  {
    StartIsKept(o, uri, now);
    RunKeeps(o, Start(uri, now), actions);
    var log := Run(o, Start(uri, now), actions).log;
    assert Spaced(o, log[..k + 1]);
    assert log[..k + 1][..k] == log[..k];
  }

  /** Every fetch in flight is for something. */
  ghost predicate Purposeful(w: World) {
    forall p :: InFlight(w.pumps, p) ==> w.pumps[p].work != NoWork
  }

  lemma KeysStayNow(o: Options, w: World, a: Action)
    requires w.svc.keys != map[] && Purposeful(w)
    ensures Act(o, w, a).svc.keys != map[] && Purposeful(Act(o, w, a))
  {
    var r := Act(o, w, a);
    forall p | InFlight(r.pumps, p)
      ensures r.pumps[p].work != NoWork
    {
      if !(a.Begin? && a.p == p) {
        assert InFlight(w.pumps, p);
      }
    }
  }

  /** Once keys are loaded there are always keys. */
  lemma {:induction false} KeysStay(o: Options, w: World, actions: seq<Action>)
    requires w.svc.keys != map[] && Purposeful(w)
    ensures Run(o, w, actions).svc.keys != map[] && Purposeful(Run(o, w, actions))
    decreases |actions|
  {
    if actions != [] {
      hide Act, Purposeful;
      KeysStay(o, w, actions[..|actions| - 1]);
      KeysStayNow(o, Run(o, w, actions[..|actions| - 1]), actions[|actions| - 1]);
    }
  }

  lemma RunOf2(o: Options, w: World, a: Action, b: Action)
    ensures Run(o, w, [a, b]) == Act(o, Act(o, w, a), b)
  {
    assert [a, b][..1] == [a] && [a][..0] == [];
    assert Run(o, w, [a]) == Act(o, w, a);
  }

  lemma RunOf4(o: Options, w: World, a: Action, b: Action, c: Action, d: Action)
    ensures Run(o, w, [a, b, c, d]) == Act(o, Act(o, Act(o, Act(o, w, a), b), c), d)
  {
    hide Act;
    RunOf2(o, w, a, b);
    assert [a, b, c, d][..3] == [a, b, c] && [a, b, c][..2] == [a, b];
  }

  /** Fetch j is the last key fetch before fetch k. */
  predicate LastBefore(log: seq<Fetch>, j: nat, k: nat) {
    j < k < |log| && log[j].work == Jwks && forall i :: j < i < k ==> log[i].work != Jwks
  }

  lemma {:induction false} LastJwksIs(log: seq<Fetch>, j: nat, k: nat)
    requires j < k <= |log| && log[j].work == Jwks && forall i :: j < i < k ==> log[i].work != Jwks
    ensures LastJwks(log[..k]) == log[j].stamp
    decreases k
  {
    assert log[..k][..k - 1] == log[..k - 1];
    if j < k - 1 {
      LastJwksIs(log, j, k - 1);
    }
  }

  /** From start to start a refresh keeps the interval less what the pump before
      it lingered between its clock reading and its fetch; so all of it if that
      pump did not linger. */
  lemma StartsAreSpaced(o: Options, uri: string, now: nat, actions: seq<Action>, j: nat, k: nat)
    requires var log := Run(o, Start(uri, now), actions).log; LastBefore(log, j, k) && log[k].refresh
    ensures var log := Run(o, Start(uri, now), actions).log;
            log[k].start - log[j].start >= o.interval - (log[j].start - log[j].stamp) &&
            (log[j].start == log[j].stamp ==> log[k].start >= log[j].start + o.interval)
  {
    FetchesAreSpaced(o, uri, now, actions, k);
    LastJwksIs(Run(o, Start(uri, now), actions).log, j, k);
  }

  /** That much can be lost, whatever the interval: a pump that lingers for all
      of it but a second lets two key fetches begin one second apart. */
  lemma StaleReadingShortens(o: Options, reply: Reply)
    requires o.interval >= 1 && reply.keys != map[]
    ensures var first := Run(o, Start("u", 0), [ReadClock(1), Tick(o.interval - 1), Begin(1), End(1, reply)]);
            var log := Run(o, Run(o, first, [Tick(1), Request]), [ReadClock(2), Begin(2)]).log;
            |log| == 2 && log[0].stamp == 0 && log[1].refresh && LastBefore(log, 0, 1) && log[1].start == log[0].start + 1
  {
    var w0, wait := Start("u", 0), o.interval - 1;
    var f := Fetch(Jwks, false, 0, wait, true, true);
    RunOf4(o, w0, ReadClock(1), Tick(wait), Begin(1), End(1, reply));
    var first := Run(o, w0, [ReadClock(1), Tick(wait), Begin(1), End(1, reply)]);
    LoadsKeys(o, "u", wait, reply);
    RunOf2(o, first, Tick(1), Request);
    var asked := Run(o, first, [Tick(1), Request]);
    RunOf2(o, asked, ReadClock(2), Begin(2));
    assert asked.now == o.interval && asked.svc == first.svc.(refreshRequested := true) && asked.pumps == map[] && asked.log == [f];
  }

  /** The first load by a pump that lingers for `wait` seconds. */
  lemma LoadsKeys(o: Options, uri: string, wait: nat, reply: Reply)
    requires reply.keys != map[] && uri != ""
    ensures Act(o, Act(o, Act(o, Act(o, Start(uri, 0), ReadClock(1)), Tick(wait)), Begin(1)), End(1, reply)) ==
            World(wait, Service(uri, reply.keys, 1, false, false, 0, 0, 10), map[],
                  [Fetch(Jwks, false, 0, wait, true, true)], NEW_PENDING)
  {
    var w1 := Act(o, Act(o, Start(uri, 0), ReadClock(1)), Tick(wait));
    assert w1 == World(wait, NewService(uri), map[1 := Primed(0)], [], NEW_PENDING);
    var w2 := Act(o, w1, Begin(1));
    assert w2.pumps == map[1 := Fetching(Jwks, 0)];
    assert w2.pumps - {1} == map[];
  }

  // ------------------------------------------------------- verifications end

  /** Whoever is waiting has checked once, and nobody checks more than twice. */
  predicate PendingKept(p: Pending) {
    match p.stage
    case New => p.checks == 0
    case Resolved(_) => p.checks <= 2
    case _ => p.checks == 1
  }

  /** Through any run a verification checks its token at most twice, and a
      verdict, once given, stands. */
  lemma {:induction false} ChecksAtMostTwice(o: Options, w: World, actions: seq<Action>)
    requires PendingKept(w.pending)
    ensures var p := Run(o, w, actions).pending;
            PendingKept(p) && p.checks <= 2 && (w.pending.stage.Resolved? ==> p == w.pending)
    decreases |actions|
  {
    if actions != [] {
      ChecksAtMostTwice(o, w, actions[..|actions| - 1]);
    }
  }

  /** The sections of one poll by a waiting verification, with anything at all
      going on in between: its two steps, the run between them, what follows. */
  function OnePoll(o: Options, w: World, between: seq<Action>): World {
    Act(o, Run(o, Act(o, w, Poll), between), Poll)
  }

  predicate PollFree(actions: seq<Action>) {
    forall a :: a in actions ==> !a.Poll?
  }

  lemma {:induction false} QuietRun(o: Options, w: World, actions: seq<Action>)
    requires PollFree(actions)
    ensures Run(o, w, actions).pending == w.pending && Run(o, w, actions).now >= w.now
    decreases |actions|
  {
    if actions != [] {
      var front := actions[..|actions| - 1];
      assert actions[|actions| - 1] in actions && forall a :: a in front ==> a in actions;
      QuietRun(o, w, front);
    }
  }

  /** A poll of a waiting verification answers if the key set was tried again
      since it began to wait, or if its deadline is past; otherwise it keeps
      waiting. Whatever else goes on, the first poll after the deadline answers. */
  lemma PollAnswers(o: Options, w: World, between: seq<Action>)
    requires w.pending.stage == Waiting && PollFree(between)
    ensures var r := OnePoll(o, w, between);
            (r.pending.stage.Resolved? <==>
               w.svc.generation > w.pending.generationAtWait || Run(o, Act(o, w, Poll), between).now > w.pending.deadline) &&
            (w.now > w.pending.deadline ==> r.pending.stage.Resolved?) &&
            (!r.pending.stage.Resolved? ==> r.pending == w.pending)
  {
    QuietRun(o, Act(o, w, Poll), between);
  }

  /** Past its arming, a verification's deadline is within `wait` of the clock. */
  predicate DeadlineNear(o: Options, w: World) {
    w.pending.stage == Waiting || w.pending.stage == Rechecking || w.pending.stage == Timing ==>
      w.pending.deadline <= w.now + o.wait
  }

  lemma {:induction false} DeadlineStaysNear(o: Options, w: World, actions: seq<Action>)
    requires DeadlineNear(o, w)
    ensures DeadlineNear(o, Run(o, w, actions))
    decreases |actions|
  {
    if actions != [] {
      DeadlineStaysNear(o, w, actions[..|actions| - 1]);
    }
  }

  /** What a verification remembers of the generation is not ahead of it. */
  predicate GenerationKept(w: World) {
    w.pending.generationAtWait <= w.svc.generation
  }

  lemma {:induction false} GenerationStaysKept(o: Options, w: World, actions: seq<Action>)
    requires GenerationKept(w)
    ensures GenerationKept(Run(o, w, actions))
    decreases |actions|
  {
    if actions != [] {
      GenerationStaysKept(o, w, actions[..|actions| - 1]);
    }
  }

  /** Nothing but clocks, starting pumps and requests. */
  predicate Calm(actions: seq<Action>) {
    forall a :: a in actions ==> !a.Poll? && !a.End?
  }

  lemma {:induction false} CalmRun(o: Options, w: World, actions: seq<Action>)
    requires Calm(actions)
    ensures var r := Run(o, w, actions);
            r.pending == w.pending && r.svc.generation == w.svc.generation && r.now >= w.now
    decreases |actions|
  {
    if actions != [] {
      var front := actions[..|actions| - 1];
      assert actions[|actions| - 1] in actions && forall a :: a in front ==> a in actions;
      CalmRun(o, w, front);
    }
  }

  /** The rest of the poll under way, in calm: as many sections as it still takes
      for the verification to wait. */
  function Settle(o: Options, w: World, a: seq<Action>, b: seq<Action>, c: seq<Action>): World {
    var w1 := Run(o, w, a);
    if w1.pending.stage == Waiting then w1
    else
      var w2 := Run(o, Act(o, w1, Poll), b);
      if w2.pending.stage == Waiting then w2 else Run(o, Act(o, w2, Poll), c)
  }

  /** Exactly when a key fetch wakes a verification: if it ends while the
      verification waits, or is about to, the next poll answers, in time or not;
      but not if it ends between the request and the reading of the generation,
      when it is counted as already seen. */
  lemma WakesIff(o: Options, w: World, p: nat, reply: Reply,
                 a: seq<Action>, b: seq<Action>, c: seq<Action>, d: seq<Action>)
    requires GenerationKept(w) && p in w.pumps && w.pumps[p].Fetching? && w.pumps[p].work == Jwks
    requires w.pending.stage == Marking || w.pending.stage == Arming || w.pending.stage == Waiting
    requires Calm(a) && Calm(b) && Calm(c) && PollFree(d)
    requires var r := Settle(o, Act(o, w, End(p, reply)), a, b, c);
             Run(o, Act(o, r, Poll), d).now <= r.pending.deadline
    ensures var r := Settle(o, Act(o, w, End(p, reply)), a, b, c);
            r.pending.stage == Waiting && (OnePoll(o, r, d).pending.stage.Resolved? <==> w.pending.stage != Marking)
  {
    var e := Act(o, w, End(p, reply));
    var r := Settle(o, e, a, b, c);
    assert e.pending == w.pending && e.svc.generation == w.svc.generation + 1;
    SettledGeneration(o, e, a, b, c);
    PollAnswers(o, r, d);
  }

  lemma SettledGeneration(o: Options, w: World, a: seq<Action>, b: seq<Action>, c: seq<Action>)
    requires w.pending.stage == Marking || w.pending.stage == Arming || w.pending.stage == Waiting
    requires Calm(a) && Calm(b) && Calm(c)
    ensures var r := Settle(o, w, a, b, c);
            r.pending.stage == Waiting && r.svc.generation == w.svc.generation &&
            r.pending.generationAtWait == if w.pending.stage == Marking then w.svc.generation else w.pending.generationAtWait
  {
    hide Run;
    CalmRun(o, w, a);
    var w1 := Run(o, w, a);
    CalmRun(o, Act(o, w1, Poll), b);
    var w2 := Run(o, Act(o, w1, Poll), b);
    CalmRun(o, Act(o, w2, Poll), c);
  }

  /** Only time passes, and pumps look at the clock. */
  predicate OnlyTime(actions: seq<Action>) {
    forall a :: a in actions ==> a.Tick? || a.ReadClock?
  }

  lemma {:induction false} TimeRun(o: Options, w: World, actions: seq<Action>)
    requires OnlyTime(actions)
    ensures Run(o, w, actions).svc == w.svc && Run(o, w, actions).pending == w.pending
    decreases |actions|
  {
    if actions != [] {
      var front := actions[..|actions| - 1];
      assert actions[|actions| - 1] in actions && forall a :: a in front ==> a in actions;
      TimeRun(o, w, front);
    }
  }

  /** A key fetch in flight is the last attempt on record. */
  lemma InFlightIsLastAttempt(o: Options, w: World, p: nat)
    requires Kept(o, w) && InFlight(w.pumps, p) && w.pumps[p].work == Jwks
    ensures w.svc.lastAttempt == w.pumps[p].t
  {
  }

  /** If the fetch ends before the verification asks, it never wakes it: while
      the interval since that very fetch lasts the request is refused, and the
      verification is rejected at once although the keys may be there. */
  lemma AskingTooLate(o: Options, w: World, p: nat, reply: Reply, a: seq<Action>)
    requires Kept(o, w) && InFlight(w.pumps, p) && w.pumps[p].work == Jwks && w.pending.stage == Asking && OnlyTime(a)
    ensures var asks := Run(o, Act(o, w, End(p, reply)), a);
            && asks.svc.keys == (if reply.keys != map[] then reply.keys else w.svc.keys)
            && Act(o, asks, Poll).pending.stage ==
               if asks.now < w.pumps[p].t + o.interval then Resolved(NO_KEY) else Marking
  {
    InFlightIsLastAttempt(o, w, p);
    TimeRun(o, Act(o, w, End(p, reply)), a);
    hide Run, Kept;
  }

  /** And whatever others do meanwhile, it is rejected, or waits for the next fetch. */
  lemma AskingIsNotWoken(o: Options, w: World, p: nat, reply: Reply,
                         before: seq<Action>, a: seq<Action>, b: seq<Action>, c: seq<Action>, d: seq<Action>)
    requires w.pending.stage == Asking && Calm(before) && Calm(a) && Calm(b) && Calm(c) && PollFree(d)
    ensures var asked := Act(o, Run(o, Act(o, w, End(p, reply)), before), Poll);
            asked.pending.stage == Resolved(NO_KEY) ||
            (var r := Settle(o, asked, a, b, c);
             asked.pending.stage == Marking && r.pending.stage == Waiting &&
             (Run(o, Act(o, r, Poll), d).now <= r.pending.deadline ==> !OnePoll(o, r, d).pending.stage.Resolved?))
  {
    hide Run, Settle, OnePoll;
    CalmRun(o, Act(o, w, End(p, reply)), before);
    var asked := Act(o, Run(o, Act(o, w, End(p, reply)), before), Poll);
    if asked.pending.stage == Marking {
      SettledGeneration(o, asked, a, b, c);
      PollAnswers(o, Settle(o, asked, a, b, c), d);
    }
  }

  /** A fetch missed: the verification asks while it is under way, it ends before
      the generation is read, and the verification times out although the set it
      was waiting for is there. */
  lemma MissedWakeup(o: Options, w: World, p: nat, reply: Reply)
    requires w.pending.stage == Asking && w.svc.fetching && reply.keys != map[]
    requires p in w.pumps && w.pumps[p].Fetching? && w.pumps[p].work == Jwks
    ensures var r := Run(o, w, [Poll, End(p, reply), Poll, Poll]);
            r.svc.keys == reply.keys && r.pending.stage == Waiting &&
            OnePoll(o, r, [Tick(o.wait + 1)]).pending.stage == Resolved(TIMED_OUT)
  {
    RunOf4(o, w, Poll, End(p, reply), Poll, Poll);
    var r := Run(o, w, [Poll, End(p, reply), Poll, Poll]);
    assert r.svc.generation == r.pending.generationAtWait && r.pending.deadline == r.now + o.wait;
    assert [Tick(o.wait + 1)][..0] == [];
    assert Run(o, Act(o, r, Poll), [Tick(o.wait + 1)]).now > r.pending.deadline;
    assert PollFree([Tick(o.wait + 1)]);
    QuietRun(o, Act(o, r, Poll), [Tick(o.wait + 1)]);
  }

  /** It happens from a fresh start: a first set without the key, a refresh under
      way for someone else, and a new set that has it. */
  lemma MissedWakeupInARun(o: Options, first: Reply, second: Reply)
    requires first.keys != map[] && second.keys != map[] && o.check(first.keys, o.interval).UnknownKid?
    ensures var loaded := Run(o, Start("u", 0), [ReadClock(1), Tick(0), Begin(1), End(1, first)]);
            var asking := Run(o, Run(o, loaded, [Tick(o.interval), Request]), [ReadClock(2), Begin(2), Poll]);
            var r := Run(o, asking, [Poll, End(2, second), Poll, Poll]);
            r.svc.keys == second.keys && r.pending.stage == Waiting &&
            OnePoll(o, r, [Tick(o.wait + 1)]).pending.stage == Resolved(TIMED_OUT)
  {
    RunOf4(o, Start("u", 0), ReadClock(1), Tick(0), Begin(1), End(1, first));
    LoadsKeys(o, "u", 0, first);
    var loaded := Run(o, Start("u", 0), [ReadClock(1), Tick(0), Begin(1), End(1, first)]);
    RunOf2(o, loaded, Tick(o.interval), Request);
    var asked := Run(o, loaded, [Tick(o.interval), Request]);
    AsksDuringFetch(o, asked);
    hide Run, OnePoll;
    MissedWakeup(o, Run(o, asked, [ReadClock(2), Begin(2), Poll]), 2, second);
  }

  /** From the same start: had that set come one section earlier, the
      verification would have been rejected on the spot. */
  lemma RejectedInARun(o: Options, first: Reply, second: Reply)
    requires o.interval >= 1 && first.keys != map[] && second.keys != map[] && o.check(first.keys, o.interval).UnknownKid?
    ensures var loaded := Run(o, Start("u", 0), [ReadClock(1), Tick(0), Begin(1), End(1, first)]);
            var asking := Run(o, Run(o, loaded, [Tick(o.interval), Request]), [ReadClock(2), Begin(2), Poll]);
            var r := Run(o, asking, [End(2, second), Poll]);
            r.svc.keys == second.keys && r.pending.stage == Resolved(NO_KEY)
  {
    RunOf4(o, Start("u", 0), ReadClock(1), Tick(0), Begin(1), End(1, first));
    LoadsKeys(o, "u", 0, first);
    var loaded := Run(o, Start("u", 0), [ReadClock(1), Tick(0), Begin(1), End(1, first)]);
    RunOf2(o, loaded, Tick(o.interval), Request);
    var asked := Run(o, loaded, [Tick(o.interval), Request]);
    AsksDuringFetch(o, asked);
    RunOf2(o, Run(o, asked, [ReadClock(2), Begin(2), Poll]), End(2, second), Poll);
    hide Run;
  }

  lemma AsksDuringFetch(o: Options, w: World)
    requires w.svc.uri != "" && w.svc.keys != map[] && w.svc.refreshRequested && !w.svc.fetching && w.pumps == map[]
    requires w.pending == NEW_PENDING && o.check(w.svc.keys, w.now).UnknownKid?
    ensures var r := Run(o, w, [ReadClock(2), Begin(2), Poll]);
            r.pending.stage == Asking && r.svc.fetching && 2 in r.pumps && r.pumps[2] == Fetching(Jwks, w.now) &&
            r.svc.lastAttempt == r.now == w.now
  {
    RunOf2(o, w, ReadClock(2), Begin(2));
    assert [ReadClock(2), Begin(2), Poll][..2] == [ReadClock(2), Begin(2)];
  }

  // --------------------------------------------- what each section does, exactly

  /** The fetch under way, if the last one on the log has not ended. */
  predicate UnderWay(log: seq<Fetch>) {
    log != [] && !log[|log| - 1].ended
  }

  /** A fetch is due: for want of keys or of their address once the wait after
      failures is over, and otherwise if one was requested. */
  predicate Due(w: World, t: nat) {
    if w.svc.uri == "" || w.svc.keys == map[] then t >= EarliestRetry(w.log) else w.svc.refreshRequested
  }

  /** In every run, a pump begins a fetch exactly if none is under way and one is
      due by its reading of the clock: the discovery document while the address
      of the keys is unknown, the keys from then on. */
  lemma BeginsIff(o: Options, uri: string, now: nat, actions: seq<Action>, p: nat)
    requires var w := Run(o, Start(uri, now), actions); p in w.pumps && w.pumps[p].Primed?
    ensures var w := Run(o, Start(uri, now), actions);
            var (r, t) := (Act(o, w, Begin(p)), w.pumps[p].t);
            if !UnderWay(w.log) && Due(w, t) then
              var work := if w.svc.uri == "" then Discovery else Jwks;
              && r.log == w.log + [Fetch(work, w.svc.uri != "" && w.svc.keys != map[], t, w.now, false, false)]
              && r.pumps == w.pumps[p := Fetching(work, t)] && LastJwks(r.log) == r.svc.lastAttempt
            else r == w.(pumps := w.pumps - {p})
  {
    StartIsKept(o, uri, now);
    RunKeeps(o, Start(uri, now), actions);
    var w := Run(o, Start(uri, now), actions);
    WorkIsDue(o, w, w.pumps[p].t);
    hide Kept, UnderWay, Due, WorkFor, LastJwks, Run, Start;
    if WorkFor(w.svc, w.pumps[p].t) != NoWork {
      LatestIsLast(w.log, Fetch(WorkFor(w.svc, w.pumps[p].t), w.svc.uri != "" && w.svc.keys != map[], w.pumps[p].t, w.now, false, false));
    }
  }

  lemma WorkIsDue(o: Options, w: World, t: nat)
    requires Kept(o, w)
    ensures WorkFor(w.svc, t) ==
            if UnderWay(w.log) || !Due(w, t) then NoWork else if w.svc.uri == "" then Discovery else Jwks
    ensures LastJwks(w.log) == w.svc.lastAttempt
  {
    hide EarliestRetry, Spaced, Wait, Failures, LastJwks;
  }

  lemma LatestIsLast(log: seq<Fetch>, f: Fetch)
    ensures LastJwks(log + [f]) == if f.work == Jwks then f.stamp else LastJwks(log)
  {
    assert (log + [f])[..|log|] == log;
  }

  /** And what its end leaves: a usable reply is taken up, one that is not changes
      neither the address nor the keys; a key fetch, whatever came of it, counts as
      a try and answers the request for one. Then the next wait begins. */
  lemma EndSettles(o: Options, uri: string, now: nat, actions: seq<Action>, p: nat, reply: Reply)
    requires InFlight(Run(o, Start(uri, now), actions).pumps, p)
    ensures var w := Run(o, Start(uri, now), actions);
            var (r, keyFetch) := (Act(o, w, End(p, reply)), w.pumps[p].work == Jwks);
            var ok := if keyFetch then reply.keys != map[] else reply.uri != "";
            && r.svc.uri == (if !keyFetch && ok then reply.uri else w.svc.uri)
            && r.svc.keys == (if keyFetch && ok then reply.keys else w.svc.keys)
            && r.svc.generation == w.svc.generation + (if keyFetch then 1 else 0)
            && r.svc.refreshRequested == (w.svc.refreshRequested && !keyFetch)
            && !UnderWay(r.log) && Failures(r.log) == (if ok then 0 else 1 + Failures(w.log))
            && r.svc.nextRetry == (if ok then 0 else w.pumps[p].t + Min(10 * Pow2(Failures(w.log)), 300))
            && p !in r.pumps && r.svc.lastAttempt == w.svc.lastAttempt
  {
    StartIsKept(o, uri, now);
    RunKeeps(o, Start(uri, now), actions);
    var w := Run(o, Start(uri, now), actions);
    EndedLog(w.log, Useful(w.pumps[p].work, reply));
    hide Pow2, Failures, LastEnd, LastJwks, Spaced, EarliestRetry, Run, Start;
  }

  /** A request is taken exactly if a fetch is under way or requested already, or
      the interval since the last key fetch is over; and it does nothing else. */
  lemma RequestedIff(o: Options, uri: string, now: nat, actions: seq<Action>)
    ensures var w := Run(o, Start(uri, now), actions);
            var (s, coming) := Requesting(o, w.svc, w.now);
            && (coming <==> UnderWay(w.log) || w.svc.refreshRequested || LastJwks(w.log) < 0 || w.now >= LastJwks(w.log) + o.interval)
            && s == w.svc.(refreshRequested := w.svc.refreshRequested || (coming && !UnderWay(w.log)))
  {
    StartIsKept(o, uri, now);
    RunKeeps(o, Start(uri, now), actions);
    hide Run, Start, LastJwks, EarliestRetry, Spaced, Failures;
  }

  /** What a whole poll answers: the first one the verdict of the keys at hand, a
      rejection if the token's key is not among them and no fetch can be had; a
      later one the verdict of the keys then at hand once they were tried again,
      and a rejection past the deadline. Otherwise the verification waits. */
  lemma PollSettles(o: Options, s: Service, p: Pending, now: nat)
    requires p.stage == New || p.stage == Waiting
    ensures var (q, c) := (WholePoll(o, s, p, now).1, o.check(s.keys, now));
            if p.stage == New then
              if c.Known? then q.stage == Resolved(c.verdict)
              else if s.keys != map[] && !Requesting(o, s, now).1 then q.stage == Resolved(NO_KEY)
              else q.stage == Waiting && q.deadline == now + o.wait && q.generationAtWait == s.generation
            else if s.generation > p.generationAtWait then
              q.stage == Resolved(if c.Known? then c.verdict else NO_KEY)
            else if now > p.deadline then q.stage == Resolved(TIMED_OUT)
            else q == p
    ensures WholePoll(o, s, p, now).0 ==
            if p.stage == New && o.check(s.keys, now).UnknownKid? && s.keys != map[] then Requesting(o, s, now).0 else s
  {
    if p.stage == New && o.check(s.keys, now).UnknownKid? {
      FirstPollWaits(o, s, p, now);
    }
  }
}
