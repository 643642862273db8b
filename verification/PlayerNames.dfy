/**
 Unique player names (src/net/session.cpp, the resolve_name wrapper): a name
 someone else has gets a number, "alex#2", within 32 characters.
 */
module PlayerNames {
  import opened Common
  import opened Decimal
  import opened Handshake

  const MAX_NAME: nat := 32
  const LAST_NUMBER: nat := 10000

  /** Who is connected: a verified identity, once there is one, and the name in use. */
  datatype Player = Player(login: Option<Login>, name: string)

  predicate SameIdentity(a: Login, b: Login) {
    a.issuer == b.issuer && a.subject == b.subject
  }

  /** Someone else has this name; the same identity's older session does not count. */
  predicate Holds(p: Player, login: Login, candidate: string) {
    !(p.login.Some? && SameIdentity(p.login.value, login)) && p.name != "" && p.name == candidate
  }

  predicate Taken(players: map<nat, Player>, login: Login, candidate: string) {
    exists c :: c in players && Holds(players[c], login, candidate)
  }

  function Candidate(base: string, n: nat): string
    requires n < LAST_NUMBER
  {
    var suffix := "#" + Digits(n);
    (if |base| + |suffix| > MAX_NAME then base[..MAX_NAME - |suffix|] else base) + suffix
  }

  function FirstFree(players: map<nat, Player>, login: Login, base: string, n: nat): string
    decreases LAST_NUMBER - n
  {
    if n >= LAST_NUMBER then base
    else if !Taken(players, login, Candidate(base, n)) then Candidate(base, n)
    else FirstFree(players, login, base, n + 1)
  }

  function Resolved(players: map<nat, Player>, login: Login, base: string): string {
    if !Taken(players, login, base) then base else FirstFree(players, login, base, 2)
  }

  class NameBook {
    var players: map<nat, Player>

    constructor ()
      ensures players == map[]
    {
      players := map[];
    }

    method IsTaken(login: Login, candidate: string) returns (taken: bool)
      ensures taken == Taken(players, login, candidate)
    {
      var todo := players.Keys;
      while todo != {}
        invariant todo <= players.Keys
        invariant forall c :: c in players && c !in todo ==> !Holds(players[c], login, candidate)
        decreases todo
      {
        var c :| c in todo;
        todo := todo - {c};
        var other := players[c];
        if other.login.Some? && SameIdentity(other.login.value, login) {
          continue;
        }
        if other.name != "" && other.name == candidate {
          return true;
        }
      }
      return false;
    }

    method Resolve(login: Login, base: string) returns (name: string)
      ensures name == Resolved(players, login, base)
    {
      hide Candidate, Taken;
      var taken := IsTaken(login, base);
      if !taken {
        return base;
      }
      for n := 2 to LAST_NUMBER
        invariant FirstFree(players, login, base, 2) == FirstFree(players, login, base, n)
      {
        name := Candidate(base, n);
        taken := IsTaken(login, name);
        if !taken {
          return;
        }
      }
      return base;
    }
  }

  // ---------------------------------------------------- candidates are distinct

  /** What follows the last '#' decides. */
  lemma SuffixDecides(x: string, d: string, y: string, e: string)
    requires x + "#" + d == y + "#" + e && '#' !in d && '#' !in e
    ensures d == e
  {
    var s := x + "#" + d;
    assert s[|x|] == '#' && s[|y|] == '#';
    assert s[|x| + 1..] == d && s[|y| + 1..] == e;
    assert forall i :: |x| < i < |s| ==> s[i] == d[i - |x| - 1];
    assert forall i :: |y| < i < |s| ==> s[i] == e[i - |y| - 1];
  }

  lemma CandidatesDistinct(base: string, m: nat, n: nat)
    requires m < LAST_NUMBER && n < LAST_NUMBER && Candidate(base, m) == Candidate(base, n)
    ensures m == n
  {
    hide Digits;
    var k, l := Candidate(base, m), Candidate(base, n);
    var x, y := k[..|k| - |Digits(m)| - 1], l[..|l| - |Digits(n)| - 1];
    assert k == x + "#" + Digits(m) && l == y + "#" + Digits(n);
    SuffixDecides(x, Digits(m), y, Digits(n));
    DigitsInjective(m, n);
  }

  function Candidates(base: string, n: nat): set<string>
    requires n <= LAST_NUMBER
  {
    set i | 2 <= i < n :: Candidate(base, i)
  }

  lemma {:induction false} CandidatesCount(base: string, n: nat)
    requires 2 <= n <= LAST_NUMBER
    ensures |Candidates(base, n)| == n - 2
  {
    hide Candidate;
    if n == 2 {
      assert Candidates(base, n) == {};
    } else {
      CandidatesCount(base, n - 1);
      assert Candidates(base, n) == Candidates(base, n - 1) + {Candidate(base, n - 1)};
      forall i | 2 <= i < n - 1
        ensures Candidate(base, i) != Candidate(base, n - 1)
      {
        if Candidate(base, i) == Candidate(base, n - 1) {
          CandidatesDistinct(base, i, n - 1);
        }
      }
    }
  }

  // --------------------------------------------------------------- pigeonhole

  lemma {:induction false} HolderOfEach(players: map<nat, Player>, among: set<nat>, login: Login, names: set<string>)
    requires among <= players.Keys
    requires forall s :: s in names ==> exists c :: c in among && Holds(players[c], login, s)
    ensures |names| <= |among|
    decreases |among|
  {
    if among == {} {
      assert names == {};
    } else {
      var c :| c in among;
      var fewer := names - {players[c].name};
      forall s | s in fewer
        ensures exists d :: d in among - {c} && Holds(players[d], login, s)
      {
        var d :| d in among && Holds(players[d], login, s);
        assert d in among - {c};
      }
      HolderOfEach(players, among - {c}, login, fewer);
      assert names <= fewer + {players[c].name};
      assert |names| <= |fewer + {players[c].name}| by { SmallerSet(names, fewer + {players[c].name}); }
    }
  }

  lemma {:induction false} SmallerSet<T>(a: set<T>, b: set<T>)
    requires a <= b
    ensures |a| <= |b|
    decreases |a|
  {
    if a != {} {
      var x :| x in a;
      SmallerSet(a - {x}, b - {x});
    }
  }

  lemma {:induction false} FirstFreeIs(players: map<nat, Player>, login: Login, base: string, n: nat)
    requires 2 <= n <= LAST_NUMBER
    requires exists i :: n <= i < LAST_NUMBER && !Taken(players, login, Candidate(base, i))
    ensures !Taken(players, login, FirstFree(players, login, base, n)) && FirstFree(players, login, base, n) != ""
    decreases LAST_NUMBER - n
  {
    hide Candidate, Taken;
    if Taken(players, login, Candidate(base, n)) {
      FirstFreeIs(players, login, base, n + 1);
    } else {
      CandidateNonEmpty(base, n);
    }
  }

  lemma CandidateNonEmpty(base: string, n: nat)
    requires n < LAST_NUMBER
    ensures 0 < |Candidate(base, n)| && (|Candidate(base, n)| <= MAX_NAME || |Candidate(base, n)| <= |base|)
  {
  }

  /** With fewer than 9998 other connections the resolved name is nobody else's. */
  lemma ResolvedIsFree(players: map<nat, Player>, others: set<nat>, login: Login, base: string)
    requires forall c :: c in players && c !in others ==> players[c].name == ""
    requires others <= players.Keys && |others| < 9998
    ensures !Taken(players, login, Resolved(players, login, base))
    ensures base != "" ==> Resolved(players, login, base) != ""
  {
    if Taken(players, login, base) {
      if forall i :: 2 <= i < LAST_NUMBER ==> Taken(players, login, Candidate(base, i)) {
        var names := Candidates(base, LAST_NUMBER);
        forall s | s in names
          ensures exists c :: c in others && Holds(players[c], login, s)
        {
          var i :| 2 <= i < LAST_NUMBER && s == Candidate(base, i);
          var c :| c in players && Holds(players[c], login, s);
          assert c in others;
        }
        CandidatesCount(base, LAST_NUMBER);
        HolderOfEach(players, others, login, names);
        assert false;
      }
      FirstFreeIs(players, login, base, 2);
    }
  }

  /** A taken name is given out, and so shared, exactly when every candidate is
      taken as well. */
  lemma AllCandidatesTaken(players: map<nat, Player>, login: Login, base: string)
    requires Taken(players, login, base)
    ensures Taken(players, login, Resolved(players, login, base)) <==>
            forall i :: 2 <= i < LAST_NUMBER ==> Taken(players, login, Candidate(base, i))
  {
    hide Candidate, Taken;
    if forall i :: 2 <= i < LAST_NUMBER ==> Taken(players, login, Candidate(base, i)) {
      FallsBack(players, login, base, 2);
    } else {
      FirstFreeIs(players, login, base, 2);
    }
  }

  lemma {:induction false} FallsBack(players: map<nat, Player>, login: Login, base: string, n: nat)
    requires 2 <= n && forall i :: n <= i < LAST_NUMBER ==> Taken(players, login, Candidate(base, i))
    ensures FirstFree(players, login, base, n) == base
    decreases LAST_NUMBER - n
  {
    hide Candidate, Taken;
    if n < LAST_NUMBER {
      FallsBack(players, login, base, n + 1);
    }
  }

  // ------------------------------------------------------- which name it is

  /** Whoever has the name already is this identity itself, in another session. */
  predicate OnlyOwn(players: map<nat, Player>, login: Login, name: string) {
    forall c :: c in players && players[c].name == name && name != "" ==>
      players[c].login.Some? && SameIdentity(players[c].login.value, login)
  }

  /** Exactly which name is given: the one asked for, unless another identity has
      it; then the first numbered one that no other identity has; and the one
      asked for again if there is none. */
  lemma {:induction false} FirstFreeIsGiven(players: map<nat, Player>, login: Login, base: string)
    ensures
      var name := Resolved(players, login, base);
      if OnlyOwn(players, login, base) then name == base
      else
        || (exists n :: 2 <= n < LAST_NUMBER && name == Candidate(base, n) && OnlyOwn(players, login, name) &&
                        forall i :: 2 <= i < n ==> !OnlyOwn(players, login, Candidate(base, i)))
        || (name == base && forall i :: 2 <= i < LAST_NUMBER ==> !OnlyOwn(players, login, Candidate(base, i)))
  {
    hide Candidate, OnlyOwn, Taken;
    TakenUnlessOwn(players, login, base);
    if Taken(players, login, base) {
      FirstFreeFrom(players, login, base, 2);
    }
  }

  lemma TakenUnlessOwn(players: map<nat, Player>, login: Login, name: string)
    ensures Taken(players, login, name) <==> !OnlyOwn(players, login, name)
  {
    if Taken(players, login, name) {
      var c :| c in players && Holds(players[c], login, name);
      assert players[c].name == name;
    } else {
      forall c | c in players && players[c].name == name && name != ""
        ensures players[c].login.Some? && SameIdentity(players[c].login.value, login)
      {
        assert !Holds(players[c], login, name);
      }
    }
  }

  lemma {:induction false} FirstFreeFrom(players: map<nat, Player>, login: Login, base: string, n: nat)
    requires 2 <= n <= LAST_NUMBER
    ensures
      var name := FirstFree(players, login, base, n);
      || (exists k :: n <= k < LAST_NUMBER && name == Candidate(base, k) && OnlyOwn(players, login, name) &&
                      forall i :: n <= i < k ==> !OnlyOwn(players, login, Candidate(base, i)))
      || (name == base && forall i :: n <= i < LAST_NUMBER ==> !OnlyOwn(players, login, Candidate(base, i)))
    decreases LAST_NUMBER - n
  {
    hide Candidate, OnlyOwn, Taken;
    if n < LAST_NUMBER {
      TakenUnlessOwn(players, login, Candidate(base, n));
      if Taken(players, login, Candidate(base, n)) {
        FirstFreeFrom(players, login, base, n + 1);
      }
    }
  }

  /** A numbered name is the name asked for, as much of it as leaves room within
      32 characters, with its number: nothing is cut off a name that fits. */
  lemma CandidateIsNumbered(base: string, n: nat)
    requires n < LAST_NUMBER
    ensures
      var (name, number) := (Candidate(base, n), "#" + Digits(n));
      && |number| <= |name| && name[|name| - |number|..] == number && name[..|name| - |number|] <= base
      && |name| == if |base| + |number| <= 32 then |base| + |number| else 32
  {
    hide Digits;
  }
}
