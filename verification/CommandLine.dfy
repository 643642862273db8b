/**
 Windows command lines (src/cli/process.cpp): quoting arguments so that the
 Microsoft C runtime's splitting rules give them back.
 */
module CommandLine {

  const TAB := '\t'
  const VERTICAL_TAB := '\U{000B}'
  const NUL := '\0'

  predicate NeedsQuotes(a: string) {
    a == "" || ' ' in a || TAB in a || '\n' in a || VERTICAL_TAB in a || '"' in a
  }

  function Backslashes(n: nat): (r: string)
    ensures |r| == n
  {
    if n == 0 then "" else "\\" + Backslashes(n - 1)
  }

  /** A character after a run of backslashes: a quote needs the run doubled and
      one more. */
  function EscapedChar(slashes: nat, c: char): string {
    if c == '"' then Backslashes(2 * slashes + 1) + "\"" else Backslashes(slashes) + [c]
  }

  /** The inside of a quoted argument, `slashes` backslashes having been read
      already; a final run doubles for the closing quote. */
  function EscapedAfter(slashes: nat, a: string): string
    decreases |a|
  {
    if a == "" then Backslashes(2 * slashes)
    else if a[0] == '\\' then EscapedAfter(slashes + 1, a[1..])
    else EscapedChar(slashes, a[0]) + EscapedAfter(0, a[1..])
  }

  function Escaped(a: string): string {
    EscapedAfter(0, a)
  }

  function Quoted(a: string): string {
    if NeedsQuotes(a) then "\"" + Escaped(a) + "\"" else a
  }

  /** The part of a command line after the program. */
  function Tail(args: seq<string>): string {
    if args == [] then "" else Tail(args[..|args| - 1]) + " " + Quoted(args[|args| - 1])
  }

  method NeedsQuoting(a: string) returns (needs: bool)
    ensures needs == NeedsQuotes(a)
  {
    if a == "" {
      return true;
    }
    for i := 0 to |a|
      invariant forall j :: 0 <= j < i ==> a[j] !in [' ', TAB, '\n', VERTICAL_TAB, '"']
    {
      if a[i] in [' ', TAB, '\n', VERTICAL_TAB, '"'] {
        return true;
      }
    }
    return false;
  }

  method Append(out: string, n: nat) returns (longer: string)
    ensures longer == out + Backslashes(n)
  {
    longer := out;
    var left := n;
    while left > 0
      invariant 0 <= left <= n && longer + Backslashes(left) == out + Backslashes(n)
    {
      longer := longer + "\\";
      left := left - 1;
    }
  }

  lemma Regroup(x: string, y: string, z: string)
    ensures x + (y + z) == x + y + z
  {
  }

  lemma FirstOf(a: string, i: nat)
    requires i < |a|
    ensures a[i..] != "" && a[i..][0] == a[i] && a[i..][1..] == a[i + 1..]
  {
  }

  method QuoteArg(a: string) returns (quoted: string)
    ensures quoted == Quoted(a)
  {
    var needs := NeedsQuoting(a);
    if !needs {
      return a;
    }
    hide Backslashes;
    var out, i := "\"", 0;
    assert a[0..] == a;
    while true
      invariant 0 <= i <= |a|
      invariant out + EscapedAfter(0, a[i..]) == "\"" + Escaped(a)
      decreases |a| - i
    {
      var slashes := 0;
      while i < |a| && a[i] == '\\'
        invariant 0 <= i <= |a|
        invariant out + EscapedAfter(slashes, a[i..]) == "\"" + Escaped(a)
        decreases |a| - i
      {
        FirstOf(a, i);
        slashes := slashes + 1;
        i := i + 1;
      }
      if i == |a| {
        out := Append(out, slashes * 2);
        break;
      }
      FirstOf(a, i);
      Regroup(out, EscapedChar(slashes, a[i]), EscapedAfter(0, a[i + 1..]));
      out := AppendEscaped(out, slashes, a[i]);
      i := i + 1;
    }
    return out + "\"";
  }

  method AppendEscaped(out: string, slashes: nat, c: char) returns (longer: string)
    ensures longer == out + EscapedChar(slashes, c)
  {
    if c == '"' {
      longer := Append(out, slashes * 2 + 1);
    } else {
      longer := Append(out, slashes);
    }
    longer := longer + [c];
  }

  method BuildCommandLine(exe: string, args: seq<string>) returns (cmd: string)
    ensures cmd == Quoted(exe) + Tail(args)
  {
    cmd := QuoteArg(exe);
    for i := 0 to |args|
      invariant cmd == Quoted(exe) + Tail(args[..i])
    {
      var quoted := QuoteArg(args[i]);
      cmd := cmd + " " + quoted;
      assert args[..i + 1][..i] == args[..i];
    }
    assert args[..|args|] == args;
  }

  // ------------------------------------------------- the C runtime's splitting

  predicate Blank(c: char) {
    c == ' ' || c == TAB
  }

  /** Number of backslashes `s` begins with. */
  function Slashes(s: string): (n: nat)
    ensures n <= |s| && (n < |s| ==> s[n] != '\\')
  {
    if s == "" || s[0] != '\\' then 0 else 1 + Slashes(s[1..])
  }

  /** One argument's text and what follows it, inside quotes or not: 2n
      backslashes and a quote are n backslashes and the quote, 2n+1 are n
      backslashes and a plain quote character, other backslashes are plain. */
  function TakeArgument(s: string, quoted: bool): (r: (string, string))
    ensures |r.1| <= |s|
    decreases |s|, 1
  {
    if s == "" || (!quoted && Blank(s[0])) then ("", s)
    else
      var k := Slashes(s);
      if k == |s| then (Backslashes(k), "")
      else if s[k] == '"' then
        if k % 2 == 0 then
          var (arg, rest) := TakeQuote(s[k..], quoted);
          (Backslashes(k / 2) + arg, rest)
        else
          var (arg, rest) := TakeArgument(s[k..][1..], quoted);
          (Backslashes(k / 2) + "\"" + arg, rest)
      else if k > 0 then
        var (arg, rest) := TakeArgument(s[k..], quoted);
        (Backslashes(k) + arg, rest)
      else
        var (arg, rest) := TakeArgument(s[1..], quoted);
        ([s[0]] + arg, rest)
  }

  /** At a quote: it opens or closes a quoted part; doubled in one, it is plain. */
  function TakeQuote(s: string, quoted: bool): (r: (string, string))
    requires s != "" && s[0] == '"'
    ensures |r.1| < |s|
    decreases |s|, 0
  {
    if quoted && |s| > 1 && s[1] == '"' then
      var (arg, rest) := TakeArgument(s[2..], true);
      ("\"" + arg, rest)
    else TakeArgument(s[1..], !quoted)
  }

  function SkipBlanks(s: string): (r: string)
    ensures |r| <= |s| && (r == "" || !Blank(r[0])) && (s != "" && !Blank(s[0]) ==> r == s)
  {
    if s != "" && Blank(s[0]) then SkipBlanks(s[1..]) else s
  }

  lemma TakesSomething(s: string)
    requires s != "" && !Blank(s[0])
    ensures |TakeArgument(s, false).1| < |s|
  {
  }

  function Split(s: string): seq<string>
    decreases |s|
  {
    var t := SkipBlanks(s);
    if t == "" then []
    else
      TakesSomething(t);
      var (arg, rest) := TakeArgument(t, false);
      [arg] + Split(rest)
  }

  /** The program's name ends at the next quote if it starts with one, and at
      the first blank otherwise; backslashes in it are plain. */
  function UpTo(s: string, stop: char -> bool): (n: nat)
    ensures n <= |s| && (forall i :: 0 <= i < n ==> !stop(s[i])) && (n < |s| ==> stop(s[n]))
  {
    if s == "" || stop(s[0]) then 0 else 1 + UpTo(s[1..], stop)
  }

  function Program(cmd: string): (string, string) {
    if cmd != "" && cmd[0] == '"' then
      var n := UpTo(cmd[1..], c => c == '"');
      (cmd[1..n + 1], if n + 2 <= |cmd| then cmd[n + 2..] else "")
    else
      var n := UpTo(cmd, c => Blank(c));
      (cmd[..n], cmd[n..])
  }

  /** The process receives the command line up to its first NUL. */
  function UpToNul(s: string): string {
    s[..UpTo(s, c => c == NUL)]
  }

  // -------------------------------------------------------- quoting is undone

  predicate Boundary(rest: string) {
    rest == "" || Blank(rest[0])
  }

  lemma TakeEven(n: nat, more: string, quoted: bool)
    ensures TakeArgument(Backslashes(2 * n) + ("\"" + more), quoted) ==
            var (arg, rest) := TakeQuote("\"" + more, quoted); (Backslashes(n) + arg, rest)
  {
    hide TakeQuote;
    var end := "\"" + more;
    var s := Backslashes(2 * n) + end;
    SlashesThen(2 * n, end);
    assert s[2 * n..] == end;
  }

  lemma TakeOdd(n: nat, more: string, quoted: bool)
    ensures TakeArgument(Backslashes(2 * n + 1) + ("\"" + more), quoted) ==
            var (arg, rest) := TakeArgument(more, quoted); (Backslashes(n) + "\"" + arg, rest)
  {
    hide TakeQuote;
    var end := "\"" + more;
    var s := Backslashes(2 * n + 1) + end;
    SlashesThen(2 * n + 1, end);
    assert s[2 * n + 1..] == end && end[1..] == more;
  }

  lemma TakeOne(c: char, more: string, quoted: bool)
    requires c != '\\' && c != '"' && (quoted || !Blank(c))
    ensures TakeArgument([c] + more, quoted) == var (arg, rest) := TakeArgument(more, quoted); ([c] + arg, rest)
  {
    assert ([c] + more)[1..] == more;
  }

  lemma TakePlain(n: nat, c: char, more: string, quoted: bool)
    requires c != '\\' && c != '"' && (quoted || !Blank(c))
    ensures TakeArgument(Backslashes(n) + ([c] + more), quoted) ==
            var (arg, rest) := TakeArgument(more, quoted); (Backslashes(n) + ([c] + arg), rest)
  {
    hide TakeQuote;
    TakeOne(c, more, quoted);
    var end := [c] + more;
    var s := Backslashes(n) + end;
    if n == 0 {
      assert s == end && Backslashes(n) + ([c] + TakeArgument(more, quoted).0) == [c] + TakeArgument(more, quoted).0;
    } else {
      SlashesThen(n, end);
      assert s[n..] == end && s[n] == c;
    }
  }

  /** A run of backslashes at the end of a plain argument. */
  lemma TakeRun(n: nat, rest: string)
    requires Boundary(rest)
    ensures TakeArgument(Backslashes(n) + rest, false) == (Backslashes(n), rest)
  {
    hide TakeQuote;
    var s := Backslashes(n) + rest;
    SlashesThen(n, rest);
    if n == 0 {
      assert s == rest && Backslashes(0) == "";
    } else if rest == "" {
      assert s == Backslashes(n);
    } else {
      assert s[n..] == rest && Backslashes(n) + "" == Backslashes(n);
    }
  }

  lemma {:induction false} SlashesAre(s: string)
    ensures s[..Slashes(s)] == Backslashes(Slashes(s))
    decreases |s|
  {
    if s != "" && s[0] == '\\' {
      SlashesAre(s[1..]);
      assert s[..Slashes(s)] == "\\" + s[1..][..Slashes(s[1..])];
    }
  }

  lemma {:induction false} SlashesThen(n: nat, s: string)
    requires s == "" || s[0] != '\\'
    ensures Slashes(Backslashes(n) + s) == n
    decreases n
  {
    var t := Backslashes(n) + s;
    if n == 0 {
      assert t == s;
    } else {
      assert t[1..] == Backslashes(n - 1) + s;
      SlashesThen(n - 1, s);
    }
  }

  lemma SplitsAt(a: string)
    ensures var k := Slashes(a);
            a[..k] == Backslashes(k) && (k < |a| ==> a == Backslashes(k) + ([a[k]] + a[k + 1..]) && a[k] in a)
  {
    SlashesAre(a);
    hide Backslashes, Slashes;
    var k := Slashes(a);
    if k < |a| {
      AroundIndex(a, k);
    }
  }

  lemma AroundIndex(a: string, k: nat)
    requires k < |a|
    ensures a == a[..k] + ([a[k]] + a[k + 1..])
  {
  }

  lemma {:induction false} OneMore(n: nat, s: string)
    ensures Backslashes(n) + ("\\" + s) == Backslashes(n + 1) + s
    decreases n
  {
    if n > 0 {
      OneMore(n - 1, s);
      Regroup("\\", Backslashes(n - 1), "\\" + s);
      Regroup("\\", Backslashes(n), s);
    } else {
      assert Backslashes(1) == "\\" + "" && Backslashes(0) == "";
    }
  }

  /** A quoted argument's inside and its closing quote are taken whole. */
  lemma {:induction false} EscapedTaken(slashes: nat, a: string, rest: string)
    requires Boundary(rest)
    ensures TakeArgument(EscapedAfter(slashes, a) + ("\"" + rest), true) == (Backslashes(slashes) + a, rest)
    decreases |a|
  {
    hide TakeArgument, Backslashes, TakeQuote;
    if a == "" {
      TakeEven(slashes, rest, true);
      ClosingQuote(rest);
    } else if a[0] == '\\' {
      EscapedTaken(slashes + 1, a[1..], rest);
      OneMore(slashes, a[1..]);
      assert a == "\\" + a[1..];
    } else {
      var more := EscapedAfter(0, a[1..]) + ("\"" + rest);
      EscapedTaken(0, a[1..], rest);
      assert Backslashes(0) + a[1..] == a[1..] by { NoBackslashes(a[1..]); }
      assert a == [a[0]] + a[1..];
      if a[0] == '"' {
        Regroup(Backslashes(2 * slashes + 1), "\"", more);
        Regroup(EscapedChar(slashes, a[0]), EscapedAfter(0, a[1..]), "\"" + rest);
        TakeOdd(slashes, more, true);
        Regroup(Backslashes(slashes), "\"", a[1..]);
      } else {
        Regroup(Backslashes(slashes), [a[0]], more);
        Regroup(EscapedChar(slashes, a[0]), EscapedAfter(0, a[1..]), "\"" + rest);
        TakePlain(slashes, a[0], more, true);
      }
    }
  }

  lemma NoBackslashes(s: string)
    ensures Backslashes(0) + s == s
  {
  }

  lemma ClosingQuote(rest: string)
    requires Boundary(rest)
    ensures TakeQuote("\"" + rest, true) == ("", rest)
  {
    var s := "\"" + rest;
    assert s[1..] == rest;
    assert rest != "" ==> s[1] == rest[0];
  }

  /** An argument that needs no quotes is taken whole as it stands. */
  lemma {:induction false} PlainTaken(a: string, rest: string)
    requires Boundary(rest) && '"' !in a && ' ' !in a && TAB !in a
    ensures TakeArgument(a + rest, false) == (a, rest)
    decreases |a|
  {
    hide TakeArgument, Backslashes, Slashes;
    var k := Slashes(a);
    SplitsAt(a);
    if k == |a| {
      TakeRun(k, rest);
      assert a == a[..k];
    } else {
      PlainTaken(a[k + 1..], rest);
      assert a + rest == Backslashes(k) + ([a[k]] + (a[k + 1..] + rest));
      TakePlain(k, a[k], a[k + 1..] + rest, false);
    }
  }

  lemma QuotedTaken(a: string, rest: string)
    requires Boundary(rest)
    ensures TakeArgument(Quoted(a) + rest, false) == (a, rest)
    ensures Quoted(a) != "" && !Blank(Quoted(a)[0])
  {
    hide TakeArgument, Backslashes, Slashes, EscapedAfter;
    if NeedsQuotes(a) {
      var inside := Escaped(a) + ("\"" + rest);
      EscapedTaken(0, a, rest);
      TakeEven(0, inside, false);
      NoBackslashes(a);
      NoBackslashes("\"" + inside);
      assert Quoted(a) + rest == Backslashes(0) + ("\"" + inside);
      assert ("\"" + inside)[1..] == inside;
    } else {
      PlainTaken(a, rest);
      assert a[0] in a;
    }
  }

  /** Splitting any quoted list gives the list back, empty arguments and
      backslash runs included. */
  lemma {:induction false} SplitTail(args: seq<string>, more: string)
    requires Boundary(more)
    ensures Split(Tail(args) + more) == args + Split(more)
    decreases |args|
  {
    hide TakeArgument, Quoted, Split;
    if args == [] {
      assert Tail(args) + more == more && args + Split(more) == Split(more);
    } else {
      var front, last := args[..|args| - 1], args[|args| - 1];
      var rest := " " + Quoted(last) + more;
      assert Tail(args) + more == Tail(front) + rest;
      SplitTail(front, rest);
      SplitOne(last, more);
      assert args + Split(more) == front + ([last] + Split(more));
    }
  }

  lemma SplitOne(arg: string, more: string)
    requires Boundary(more)
    ensures Split(" " + Quoted(arg) + more) == [arg] + Split(more)
  {
    hide TakeArgument, Quoted;
    QuotedTaken(arg, more);
    var t := Quoted(arg) + more;
    var s := " " + Quoted(arg) + more;
    assert s[1..] == t && SkipBlanks(s) == SkipBlanks(t) == t;
  }

  // -------------------------------------------------------------- NUL characters

  lemma {:induction false} OnlyBackslashes(n: nat, c: char)
    requires c != '\\'
    ensures c !in Backslashes(n)
  {
    if n > 0 {
      OnlyBackslashes(n - 1, c);
    }
  }

  lemma {:induction false} TakenHasNoNul(s: string, quoted: bool)
    requires NUL !in s
    ensures NUL !in TakeArgument(s, quoted).0 && NUL !in TakeArgument(s, quoted).1
    decreases |s|, 1
  {
    if s != "" && (quoted || !Blank(s[0])) {
      var k := Slashes(s);
      OnlyBackslashes(k, NUL);
      OnlyBackslashes(k / 2, NUL);
      if k < |s| {
        if s[k] == '"' {
          if k % 2 == 0 {
            if quoted && |s[k..]| > 1 && s[k..][1] == '"' {
              TakenHasNoNul(s[k..][2..], true);
            } else {
              TakenHasNoNul(s[k..][1..], !quoted);
            }
          } else {
            TakenHasNoNul(s[k..][1..], quoted);
          }
        } else {
          TakenHasNoNul(if k > 0 then s[k..] else s[1..], quoted);
        }
      }
    }
  }

  lemma {:induction false} SkippedHasNoNul(s: string)
    requires NUL !in s
    ensures NUL !in SkipBlanks(s)
    decreases |s|
  {
    if s != "" && Blank(s[0]) {
      SkippedHasNoNul(s[1..]);
    }
  }

  lemma {:induction false} SplitHasNoNul(s: string, arg: string)
    requires NUL !in s && arg in Split(s)
    ensures NUL !in arg
    decreases |s|
  {
    SkippedHasNoNul(s);
    var t := SkipBlanks(s);
    TakenHasNoNul(t, false);
    TakesSomething(t);
    var (first, rest) := TakeArgument(t, false);
    if arg != first {
      SplitHasNoNul(rest, arg);
    }
  }

  lemma {:induction false} EscapedHasNo(c: char, slashes: nat, a: string)
    requires c !in a && c != '\\'
    ensures c !in EscapedAfter(slashes, a)
    decreases |a|
  {
    OnlyBackslashes(slashes, c);
    OnlyBackslashes(2 * slashes, c);
    OnlyBackslashes(2 * slashes + 1, c);
    if a != "" {
      assert a[0] in a;
      EscapedHasNo(c, if a[0] == '\\' then slashes + 1 else 0, a[1..]);
    }
  }

  lemma {:induction false} TailHasNoNul(args: seq<string>)
    requires forall a :: a in args ==> NUL !in a
    ensures NUL !in Tail(args)
    decreases |args|
  {
    if args != [] {
      var front, last := args[..|args| - 1], args[|args| - 1];
      assert last in args && forall a :: a in front ==> a in args;
      TailHasNoNul(front);
      EscapedHasNo(NUL, 0, last);
    }
  }

  lemma NoNulIsWhole(s: string)
    ensures NUL !in UpToNul(s) && (NUL !in s ==> UpToNul(s) == s)
  {
    var n := UpTo(s, c => c == NUL);
    if n < |s| {
      assert s[n] == NUL;
    }
  }

  /** The started process gets exactly the arguments it was given, for every
      list of arguments a command line can carry: those without a NUL. */
  lemma ArgumentsArrive(args: seq<string>)
    ensures Split(UpToNul(Tail(args))) == args <==> forall a :: a in args ==> NUL !in a
  {
    var s := UpToNul(Tail(args));
    NoNulIsWhole(Tail(args));
    if forall a :: a in args ==> NUL !in a {
      TailHasNoNul(args);
      SplitTail(args, "");
      assert Tail(args) + "" == Tail(args) && args + Split("") == args;
    } else {
      var a :| a in args && NUL in a;
      if Split(s) == args {
        SplitHasNoNul(s, a);
        assert false;
      }
    }
  }

  lemma {:induction false} EscapingAdds(slashes: nat, a: string)
    ensures |EscapedAfter(slashes, a)| >= slashes + |a|
    decreases |a|
  {
    if a != "" {
      EscapingAdds(if a[0] == '\\' then slashes + 1 else 0, a[1..]);
    }
  }

  /** An argument is passed as it is exactly if it is not empty and holds no
      white space and no quote; any other one stands between quotes. */
  lemma PlainStaysIff(a: string)
    ensures Quoted(a) == a <==>
            a != "" && forall i :: 0 <= i < |a| ==> a[i] !in [' ', '\t', '\n', '\U{000B}', '"']
    ensures Quoted(a) != a ==> |Quoted(a)| >= |a| + 2 && Quoted(a)[0] == '"' && Quoted(a)[|Quoted(a)| - 1] == '"'
  {
    EscapingAdds(0, a);
    hide EscapedAfter;
    if !NeedsQuotes(a) {
      assert forall i :: 0 <= i < |a| ==> a[i] in a;
    }
  }

  // ---------------------------------------------------------- the program's name

  lemma {:induction false} EscapedPlain(slashes: nat, a: string)
    requires '"' !in a && (if a == "" then slashes == 0 else a[|a| - 1] != '\\')
    ensures EscapedAfter(slashes, a) == Backslashes(slashes) + a
    decreases |a|
  {
    if a != "" {
      assert a[0] in a && a == [a[0]] + a[1..];
      hide Backslashes;
      if a[0] == '\\' {
        EscapedPlain(slashes + 1, a[1..]);
        OneMore(slashes, a[1..]);
      } else {
        EscapedPlain(0, a[1..]);
        NoBackslashes(a[1..]);
        Regroup(Backslashes(slashes), [a[0]], a[1..]);
      }
    }
  }

  lemma {:induction false} UpToIs(s: string, stop: char -> bool, n: nat)
    requires n <= |s| && (forall i :: 0 <= i < n ==> !stop(s[i])) && (n < |s| ==> stop(s[n]))
    ensures UpTo(s, stop) == n
  {
  }

  /** The program's name is read back too, for a path without quotes that does
      not both need quoting and end in a backslash. */
  lemma ProgramArrives(exe: string, args: seq<string>)
    requires exe != "" && '"' !in exe && !(NeedsQuotes(exe) && exe[|exe| - 1] == '\\')
    ensures Program(Quoted(exe) + Tail(args)) == (exe, Tail(args))
  {
    hide EscapedAfter, Tail, Backslashes;
    var tail := Tail(args);
    TailIsBoundary(args);
    if NeedsQuotes(exe) {
      EscapedPlain(0, exe);
      NoBackslashes(exe);
      QuotedProgram(exe, tail);
      assert Quoted(exe) + tail == "\"" + exe + "\"" + tail;
    } else {
      PlainProgram(exe, tail);
    }
  }

  lemma QuotedProgram(name: string, tail: string)
    requires '"' !in name
    ensures Program("\"" + name + "\"" + tail) == (name, tail)
  {
    hide UpTo;
    var cmd := "\"" + name + "\"" + tail;
    assert cmd[1..] == name + ("\"" + tail);
    UpToIs(cmd[1..], c => c == '"', |name|);
    assert cmd[1..|name| + 1] == name && cmd[|name| + 2..] == tail;
  }

  lemma PlainProgram(name: string, tail: string)
    requires name != "" && '"' !in name && ' ' !in name && TAB !in name && Boundary(tail)
    ensures Program(name + tail) == (name, tail)
  {
    hide UpTo;
    var cmd := name + tail;
    UpToIs(cmd, c => Blank(c), |name|);
    assert cmd[0] == name[0] && name[0] in name;
    assert cmd[..|name|] == name && cmd[|name|..] == tail;
  }

  lemma {:induction false} TailIsBoundary(args: seq<string>)
    ensures Boundary(Tail(args))
    decreases |args|
  {
    if args != [] {
      TailIsBoundary(args[..|args| - 1]);
    }
  }

  /** That path is the exception: the doubling of a final backslash, right for
      an argument, is not undone in the program's name. */
  lemma TrailingSlashDoubles(exe: string)
    requires '"' !in exe && NeedsQuotes(exe) && exe != "" && exe[|exe| - 1] == '\\'
    ensures Program(Quoted(exe)).0 != exe
  {
    EscapedLonger(0, exe);
    EscapedHasNo('"', 0, exe);
    QuotedProgram(Escaped(exe), "");
    assert Quoted(exe) == "\"" + Escaped(exe) + "\"" + "";
  }

  lemma {:induction false} EscapedLonger(slashes: nat, a: string)
    requires '"' !in a
    ensures |EscapedAfter(slashes, a)| >= slashes + |a|
    ensures a != "" && a[|a| - 1] == '\\' ==> |EscapedAfter(slashes, a)| > slashes + |a|
    decreases |a|
  {
    if a != "" {
      EscapedLonger(if a[0] == '\\' then slashes + 1 else 0, a[1..]);
    }
  }
}
