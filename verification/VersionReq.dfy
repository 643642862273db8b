/**
 Engine version requirements of content packs (src/core/version_req.cpp):
 comma-separated comparators, with ^ and ~ as shorthands for two each.
 */
module VersionReq {
  import opened Common
  import opened Decimal

  datatype SemVer = SemVer(major: int, minor: int, patch: int)

  datatype Op = Ge | Gt | Le | Lt | Eq

  datatype Comparator = Comparator(op: Op, version: SemVer)

  /** Component by component, the first difference deciding. */
  predicate Less(a: SemVer, b: SemVer) {
    a.major < b.major || (a.major == b.major && (a.minor < b.minor || (a.minor == b.minor && a.patch < b.patch)))
  }

  // ------------------------------------------------------------------ reading text

  const MAX_PART: nat := 6

  predicate Blank(c: char) {
    c == ' ' || c == '\t'
  }

  function TrimFront(s: string): (r: string)
    ensures |r| <= |s|
  {
    if s != "" && Blank(s[0]) then TrimFront(s[1..]) else s
  }

  function TrimBack(s: string): (r: string)
    ensures |r| <= |s|
  {
    if s != "" && Blank(s[|s| - 1]) then TrimBack(s[..|s| - 1]) else s
  }

  function Trim(s: string): (r: string)
    ensures |r| <= |s|
  {
    TrimBack(TrimFront(s))
  }

  /** Where `c` first occurs, or the length. */
  function Cut(s: string, c: char): (i: nat)
    ensures i <= |s| && (i < |s| ==> s[i] == c)
  {
    if s == "" || s[0] == c then 0 else 1 + Cut(s[1..], c)
  }

  /** A number of at most six characters, a minus sign included. */
  function Part(s: string): Option<int> {
    if s == "" || |s| > MAX_PART || !Read(s).0 then None else Some(Read(s).1)
  }

  /** The components written in `text`, after those in `done`; at most three. */
  function Parts(done: seq<int>, text: string): (r: Option<seq<int>>)
    ensures r.Some? ==> |done| < |r.value| <= 3
    decreases |text|
  {
    if |done| >= 3 then None
    else
      var d := Cut(text, '.');
      match Part(text[..d])
      case None => None
      case Some(n) => if d == |text| then Some(done + [n]) else Parts(done + [n], text[d + 1..])
  }

  function Partial(text: string): (r: Option<seq<int>>)
    ensures r.Some? ==> 1 <= |r.value| <= 3
  {
    var t := Trim(text);
    var u := if t != "" && t[0] == 'v' then t[1..] else t;
    if u == "" then None else Parts([], u)
  }

  function Component(parts: seq<int>, k: nat): int {
    if k < |parts| then parts[k] else 0
  }

  /** Missing components count as zero. */
  function Version(parts: seq<int>): SemVer {
    SemVer(Component(parts, 0), Component(parts, 1), Component(parts, 2))
  }

  datatype Prefix = Plain(op: Op) | Caret | Tilde

  /** The comparator sign at the start, and its length. */
  function Sign(item: string): Option<(Prefix, nat)> {
    if |item| >= 2 && item[..2] == ">=" then Some((Plain(Ge), 2))
    else if |item| >= 2 && item[..2] == "<=" then Some((Plain(Le), 2))
    else if item == "" then None
    else if item[0] == '>' then Some((Plain(Gt), 1))
    else if item[0] == '<' then Some((Plain(Lt), 1))
    else if item[0] == '=' then Some((Plain(Eq), 1))
    else if item[0] == '^' then Some((Caret, 1))
    else if item[0] == '~' then Some((Tilde, 1))
    else None
  }

  function TildeUpper(parts: seq<int>): SemVer {
    var v := Version(parts);
    if |parts| == 1 then SemVer(v.major + 1, 0, 0) else SemVer(v.major, v.minor + 1, 0)
  }

  function CaretUpper(parts: seq<int>): SemVer {
    var v := Version(parts);
    if v.major > 0 || |parts| == 1 then SemVer(v.major + 1, 0, 0)
    else if v.minor > 0 || |parts| == 2 then SemVer(0, v.minor + 1, 0)
    else SemVer(0, 0, v.patch + 1)
  }

  function Meaning(prefix: Prefix, parts: seq<int>): seq<Comparator> {
    match prefix
    case Plain(op) => [Comparator(op, Version(parts))]
    case Caret => [Comparator(Ge, Version(parts)), Comparator(Lt, CaretUpper(parts))]
    case Tilde => [Comparator(Ge, Version(parts)), Comparator(Lt, TildeUpper(parts))]
  }

  function ParsedItem(item: string): Option<seq<Comparator>> {
    match Sign(item)
    case None => None
    case Some(sign) =>
      match Partial(item[sign.1..])
      case None => None
      case Some(parts) => Some(Meaning(sign.0, parts))
  }

  function ParsedItems(done: seq<Comparator>, text: string): Option<seq<Comparator>>
    decreases |text|
  {
    var c := Cut(text, ',');
    match ParsedItem(Trim(text[..c]))
    case None => None
    case Some(more) => if c == |text| then Some(done + more) else ParsedItems(done + more, text[c + 1..])
  }

  /** The comparators of a requirement; none for "*". */
  function Parsed(text: string): Option<seq<Comparator>> {
    var t := Trim(text);
    if t == "" then None else if t == "*" then Some([]) else ParsedItems([], t)
  }

  method TrimBlanks(s: string) returns (r: string)
    ensures r == Trim(s)
  {
    r := s;
    while r != "" && Blank(r[0])
      invariant TrimFront(r) == TrimFront(s)
      decreases |r|
    {
      r := r[1..];
    }
    while r != "" && Blank(r[|r| - 1])
      invariant TrimBack(r) == Trim(s)
      decreases |r|
    {
      r := r[..|r| - 1];
    }
  }

  method FindFrom(s: string, c: char, from: nat) returns (i: nat)
    requires from <= |s|
    ensures i == from + Cut(s[from..], c)
  {
    i := from;
    while i < |s| && s[i] != c
      invariant from <= i <= |s|
      invariant from + Cut(s[from..], c) == i + Cut(s[i..], c)
    {
      assert s[i..][0] == s[i] && s[i..][1..] == s[i + 1..];
      i := i + 1;
    }
  }

  lemma Slices(s: string, from: nat, n: nat)
    requires from + n <= |s|
    ensures s[from..][..n] == s[from..from + n]
    ensures from + n < |s| ==> s[from..][n + 1..] == s[from + n + 1..]
  {
  }

  lemma PartsStep(done: seq<int>, text: string)
    ensures Parts(done, text) ==
            if |done| >= 3 then None
            else
              var d := Cut(text, '.');
              match Part(text[..d])
              case None => None
              case Some(n) => if d == |text| then Some(done + [n]) else Parts(done + [n], text[d + 1..])
  {
    hide Cut, Part;
  }

  method ParsePartial(text: string) returns (r: Option<seq<int>>)
    ensures r == Partial(text)
  {
    var u := TrimBlanks(text);
    if u != "" && u[0] == 'v' {
      u := u[1..];
    }
    if u == "" {
      return None;
    }
    r := ParseParts(u);
  }

  method ParseParts(u: string) returns (r: Option<seq<int>>)
    ensures r == Parts([], u)
  {
    hide Cut, Part, Parts;
    var parts: seq<int> := [];
    var pos := 0;
    assert u[0..] == u;
    while true
      invariant pos <= |u| && Parts(parts, u[pos..]) == Parts([], u)
      decreases |u| - pos
    {
      PartsStep(parts, u[pos..]);
      if |parts| >= 3 {
        return None;
      }
      var dot := FindFrom(u, '.', pos);
      Slices(u, pos, dot - pos);
      var part := Part(u[pos..dot]);
      if part == None {
        return None;
      }
      parts := parts + [part.value];
      if dot == |u| {
        return Some(parts);
      }
      pos := dot + 1;
    }
  }

  lemma ItemsStep(done: seq<Comparator>, text: string)
    ensures ParsedItems(done, text) ==
            var c := Cut(text, ',');
            match ParsedItem(Trim(text[..c]))
            case None => None
            case Some(more) => if c == |text| then Some(done + more) else ParsedItems(done + more, text[c + 1..])
  {
    hide Cut, ParsedItem, Trim;
  }

  method ParseItem(item: string) returns (r: Option<seq<Comparator>>)
    ensures r == ParsedItem(item)
  {
    var sign := Sign(item);
    if sign == None {
      return None;
    }
    var parts := ParsePartial(item[sign.value.1..]);
    if parts == None {
      return None;
    }
    return Some(Meaning(sign.value.0, parts.value));
  }

  method Parse(text: string) returns (r: Option<seq<Comparator>>)
    ensures r == Parsed(text)
  {
    var t := TrimBlanks(text);
    if t == "" {
      return None;
    }
    if t == "*" {
      return Some([]);
    }
    r := ParseItems(t);
  }

  method ParseItems(t: string) returns (r: Option<seq<Comparator>>)
    ensures r == ParsedItems([], t)
  {
    hide Cut, ParsedItem, ParsedItems, Trim;
    var req: seq<Comparator> := [];
    var pos := 0;
    assert t[0..] == t;
    while true
      invariant pos <= |t| && ParsedItems(req, t[pos..]) == ParsedItems([], t)
      decreases |t| - pos
    {
      ItemsStep(req, t[pos..]);
      var comma := FindFrom(t, ',', pos);
      Slices(t, pos, comma - pos);
      var item := TrimBlanks(t[pos..comma]);
      var more := ParseItem(item);
      if more == None {
        return None;
      }
      req := req + more.value;
      if comma == |t| {
        return Some(req);
      }
      pos := comma + 1;
    }
  }

  // ------------------------------------------------------------------- matching

  predicate Satisfies(v: SemVer, c: Comparator) {
    match c.op
    case Ge => !Less(v, c.version)
    case Gt => Less(c.version, v)
    case Le => !Less(c.version, v)
    case Lt => Less(v, c.version)
    case Eq => v == c.version
  }

  predicate Admits(cs: seq<Comparator>, v: SemVer) {
    forall i :: 0 <= i < |cs| ==> Satisfies(v, cs[i])
  }

  method Matches(cs: seq<Comparator>, v: SemVer) returns (ok: bool)
    ensures ok == Admits(cs, v)
  {
    for i := 0 to |cs|
      invariant forall j :: 0 <= j < i ==> Satisfies(v, cs[j])
    {
      if !Satisfies(v, cs[i]) {
        return false;
      }
    }
    return true;
  }

  /** The same components up to number k. */
  predicate AgreeThrough(v: SemVer, w: SemVer, k: nat)
    requires k < 3
  {
    v.major == w.major && (k >= 1 ==> v.minor == w.minor) && (k >= 2 ==> v.patch == w.patch)
  }

  /** The leftmost written component that is not zero, or the last written one. */
  function Leading(parts: seq<int>): (k: nat)
    requires 1 <= |parts| <= 3
    ensures k < |parts|
  {
    if parts[0] != 0 || |parts| == 1 then 0 else if parts[1] != 0 || |parts| == 2 then 1 else 2
  }

  function At(v: SemVer, k: nat): int
    requires k < 3
  {
    if k == 0 then v.major else if k == 1 then v.minor else v.patch
  }

  /** Past component k by one, yet below the zeros that follow: only a version
      with a negative component can be. */
  predicate Spills(v: SemVer, w: SemVer, k: nat)
    requires k < 3
  {
    && (k > 0 ==> AgreeThrough(v, w, k - 1)) && At(v, k) == At(w, k) + 1
    && (if k == 0 then v.minor < 0 || (v.minor == 0 && v.patch < 0) else k == 1 && v.patch < 0)
  }

  /** What ^ is meant to admit: no older, and the same through the leading
      component: 1.2.3 up to 2.0.0, 0.5 up to 0.6.0, 0 up to 1.0.0, 0.0.3 alone. */
  predicate Compatible(parts: seq<int>, v: SemVer)
    requires 1 <= |parts| <= 3
  {
    var (w, k) := (Version(parts), Leading(parts));
    !Less(v, w) && (AgreeThrough(v, w, k) || Spills(v, w, k))
  }

  /** The leading component is not negative where ^ takes it for zero. */
  predicate Usual(parts: seq<int>)
    requires 1 <= |parts| <= 3
  {
    |parts| == 1 || parts[0] > 0 || (parts[0] == 0 && (|parts| == 2 || parts[1] >= 0))
  }

  /** Negative leading components whose bound comes out right all the same. */
  predicate Lucky(parts: seq<int>)
    requires 1 <= |parts| <= 3
  {
    parts[Leading(parts)] == -1 && parts[|parts| - 1] == -1 && (|parts| == 3 ==> parts[1] <= 0)
  }

  /** The first version past every one that agrees through component k. */
  function Bumped(w: SemVer, k: nat): SemVer
    requires k < 3
  {
    if k == 0 then SemVer(w.major + 1, 0, 0)
    else if k == 1 then SemVer(w.major, w.minor + 1, 0)
    else SemVer(w.major, w.minor, w.patch + 1)
  }

  lemma CompatibleIsBelow(parts: seq<int>, v: SemVer)
    requires 1 <= |parts| <= 3
    ensures Compatible(parts, v) <==> !Less(v, Version(parts)) && Less(v, Bumped(Version(parts), Leading(parts)))
  {
  }

  lemma CaretIsBelow(parts: seq<int>, v: SemVer)
    requires 1 <= |parts| <= 3
    ensures Admits(Meaning(Caret, parts), v) <==> !Less(v, Version(parts)) && Less(v, CaretUpper(parts))
  {
    TwoComparators(Comparator(Ge, Version(parts)), Comparator(Lt, CaretUpper(parts)), v);
  }

  lemma CaretUpperIsBumped(parts: seq<int>)
    requires 1 <= |parts| <= 3
    ensures CaretUpper(parts) == Bumped(Version(parts), Leading(parts)) <==> Usual(parts) || Lucky(parts)
  {
  }

  /** Exactly when ^ admits what it is meant to: for every requirement without
      negative components, however many are written, and for one with them
      unless ^ looks past the negative one for the component that leads. */
  lemma CaretAdmitsIff(parts: seq<int>)
    requires 1 <= |parts| <= 3
    ensures (forall v :: Admits(Meaning(Caret, parts), v) <==> Compatible(parts, v)) <==> Usual(parts) || Lucky(parts)
  {
    hide CaretUpper, Bumped, Version, Leading, Usual, Lucky, Admits, Compatible, Meaning;
    CaretUpperIsBumped(parts);
    var w, written, meant := Version(parts), CaretUpper(parts), Bumped(Version(parts), Leading(parts));
    forall v
      ensures Admits(Meaning(Caret, parts), v) <==> !Less(v, w) && Less(v, written)
      ensures Compatible(parts, v) <==> !Less(v, w) && Less(v, meant)
    {
      CaretIsBelow(parts, v);
      CompatibleIsBelow(parts, v);
    }
    if written != meant {
      // somewhere between the bound written and the bound meant
      var v := if Less(meant, written) then meant else if Less(written, w) then w else written;
      assert Less(w, meant) by { CompatibleItself(parts); }
      assert Admits(Meaning(Caret, parts), v) <==> !Compatible(parts, v);
    }
  }

  lemma CompatibleItself(parts: seq<int>)
    requires 1 <= |parts| <= 3
    ensures Less(Version(parts), Bumped(Version(parts), Leading(parts)))
  {
  }

  /** ~ keeps the major component, and the minor one too if it is written. */
  lemma TildeAdmits(parts: seq<int>, v: SemVer)
    requires 1 <= |parts| <= 3
    ensures var (w, k) := (Version(parts), if |parts| == 1 then 0 else 1);
            Admits(Meaning(Tilde, parts), v) <==> !Less(v, w) && (AgreeThrough(v, w, k) || Spills(v, w, k))
  {
    TwoComparators(Comparator(Ge, Version(parts)), Comparator(Lt, TildeUpper(parts)), v);
  }

  predicate NonNegative(v: SemVer) {
    v.major >= 0 && v.minor >= 0 && v.patch >= 0
  }

  lemma NothingSpills(v: SemVer, w: SemVer, k: nat)
    requires k < 3 && NonNegative(v)
    ensures !Spills(v, w, k)
  {
  }

  lemma TwoComparators(c: Comparator, d: Comparator, v: SemVer)
    ensures Admits([c, d], v) <==> Satisfies(v, c) && Satisfies(v, d)
  {
    var cs := [c, d];
    assert cs[0] == c && cs[1] == d;
  }

  /** The order is by the first component that differs, and the five signs are
      that order's. */
  lemma OperatorsAgree(v: SemVer, w: SemVer)
    ensures Satisfies(v, Comparator(Lt, w)) <==>
            exists k: nat :: k < 3 && (k > 0 ==> AgreeThrough(v, w, k - 1)) && At(v, k) < At(w, k)
    ensures Satisfies(v, Comparator(Gt, w)) <==> Satisfies(w, Comparator(Lt, v))
    ensures Satisfies(v, Comparator(Ge, w)) <==> !Satisfies(v, Comparator(Lt, w))
    ensures Satisfies(v, Comparator(Le, w)) <==> !Satisfies(v, Comparator(Gt, w))
    ensures Satisfies(v, Comparator(Eq, w)) <==> Satisfies(v, Comparator(Ge, w)) && Satisfies(v, Comparator(Le, w))
  {
    if Less(v, w) {
      var k: nat := if v.major != w.major then 0 else if v.minor != w.minor then 1 else 2;
      assert At(v, k) < At(w, k);
    }
  }

  /** The version of the first comparator that bounds from below. */
  function LowerBound(cs: seq<Comparator>): Option<SemVer> {
    if cs == [] then None
    else if cs[0].op == Ge || cs[0].op == Eq || cs[0].op == Gt then Some(cs[0].version)
    else LowerBound(cs[1..])
  }

  method FindLowerBound(cs: seq<Comparator>) returns (r: Option<SemVer>)
    ensures r == LowerBound(cs)
  {
    assert cs[0..] == cs;
    for i := 0 to |cs|
      invariant LowerBound(cs) == LowerBound(cs[i..])
    {
      assert cs[i..][0] == cs[i] && cs[i..][1..] == cs[i + 1..];
      if cs[i].op == Ge || cs[i].op == Eq || cs[i].op == Gt {
        return Some(cs[i].version);
      }
    }
    return None;
  }

  /** Nothing admitted is below it. */
  lemma {:induction false} LowerBoundHolds(cs: seq<Comparator>, v: SemVer)
    requires Admits(cs, v) && LowerBound(cs).Some?
    ensures !Less(v, LowerBound(cs).value)
    decreases |cs|
  {
    assert Satisfies(v, cs[0]);
    if !(cs[0].op == Ge || cs[0].op == Eq || cs[0].op == Gt) {
      forall i | 0 <= i < |cs[1..]|
        ensures Satisfies(v, cs[1..][i])
      {
        assert cs[1..][i] == cs[i + 1];
      }
      LowerBoundHolds(cs[1..], v);
    }
  }

  ghost predicate IsLeast(cs: seq<Comparator>, v: SemVer) {
    Admits(cs, v) && forall w :: Admits(cs, w) ==> !Less(w, v)
  }

  /** It is the smallest version admitted, as its comment has it, exactly if it
      is itself admitted, which a caller can check. */
  lemma {:induction false} LowerBoundIsLeastIff(cs: seq<Comparator>)
    requires LowerBound(cs).Some?
    ensures IsLeast(cs, LowerBound(cs).value) <==> Admits(cs, LowerBound(cs).value)
  {
    forall w | Admits(cs, w)
      ensures !Less(w, LowerBound(cs).value)
    {
      LowerBoundHolds(cs, w);
    }
  }

  lemma {:induction false} BoundsFromAbove(cs: seq<Comparator>)
    requires LowerBound(cs) == None
    ensures forall i :: 0 <= i < |cs| ==> cs[i].op == Le || cs[i].op == Lt
    decreases |cs|
  {
    if cs != [] {
      BoundsFromAbove(cs[1..]);
      forall i | 0 <= i < |cs|
        ensures cs[i].op == Le || cs[i].op == Lt
      {
        assert i > 0 ==> cs[i] == cs[1..][i - 1];
      }
    }
  }

  /** And without one the requirement is open below. */
  lemma {:induction false} NoLowerBoundIsOpen(cs: seq<Comparator>, v: SemVer, w: SemVer)
    requires LowerBound(cs) == None && Admits(cs, v) && Less(w, v)
    ensures Admits(cs, w)
  {
    BoundsFromAbove(cs);
    forall i | 0 <= i < |cs|
      ensures Satisfies(w, cs[i])
    {
      assert Satisfies(v, cs[i]);
    }
  }

  // ------------------------------------------------------------------- printing

  function VersionText(v: SemVer): string {
    Text(v.major) + "." + Text(v.minor) + "." + Text(v.patch)
  }

  function OpText(op: Op): string {
    match op
    case Ge => ">="
    case Gt => ">"
    case Le => "<="
    case Lt => "<"
    case Eq => "="
  }

  function ItemText(c: Comparator): string {
    OpText(c.op) + VersionText(c.version)
  }

  function Listed(cs: seq<Comparator>): string {
    if cs == [] then ""
    else
      var front := Listed(cs[..|cs| - 1]);
      (if front == "" then "" else front + ", ") + ItemText(cs[|cs| - 1])
  }

  function Printed(cs: seq<Comparator>): string {
    if cs == [] then "*" else Listed(cs)
  }

  lemma Regroup(x: string, y: string, z: string)
    ensures x + (y + z) == x + y + z
  {
  }

  method Print(cs: seq<Comparator>) returns (out: string)
    ensures out == Printed(cs)
  {
    if cs == [] {
      return "*";
    }
    hide OpText, VersionText;
    out := "";
    for i := 0 to |cs|
      invariant out == Listed(cs[..i])
    {
      assert cs[..i + 1][..i] == cs[..i];
      if out != "" {
        out := out + ", ";
      }
      Regroup(out, OpText(cs[i].op), VersionText(cs[i].version));
      out := out + OpText(cs[i].op);
      out := out + VersionText(cs[i].version);
    }
    assert cs[..|cs|] == cs;
  }

  // ------------------------------------------------------ printing and parsing

  /** Characters of a printed version: never a separator, a sign or a blank. */
  predicate Sober(s: string) {
    forall i :: 0 <= i < |s| ==> IsDigit(s[i]) || s[i] == '-' || s[i] == '.'
  }

  predicate Short(n: int) {
    |Text(n)| <= 6
  }

  predicate ShortVersion(v: SemVer) {
    Short(v.major) && Short(v.minor) && Short(v.patch)
  }

  predicate AllShort(cs: seq<Comparator>) {
    forall i :: 0 <= i < |cs| ==> ShortVersion(cs[i].version)
  }

  lemma TextIsSober(n: int)
    ensures Sober(Text(n)) && '.' !in Text(n) && Text(n) != "" && IsDigit(Text(n)[|Text(n)| - 1])
  {
    hide Digits;
  }

  lemma {:induction false} CutAt(a: string, c: char, b: string)
    requires c !in a && (b == "" || b[0] == c)
    ensures Cut(a + b, c) == |a|
    decreases |a|
  {
    if a == "" {
      assert a + b == b;
    } else {
      assert a[0] in a;
      assert (a + b)[1..] == a[1..] + b;
      CutAt(a[1..], c, b);
    }
  }

  lemma PartOfText(n: int)
    ensures Part(Text(n)) == if Short(n) then Some(n) else None
  {
    ReadText(n);
    TextIsSober(n);
    hide Read, Text;
  }

  lemma OnePart(done: seq<int>, n: int, rest: string)
    requires |done| < 3
    ensures Parts(done, Text(n) + ("." + rest)) == if Short(n) then Parts(done + [n], rest) else None
  {
    hide Parts, Cut, Text, Part;
    var t, tail := Text(n), "." + rest;
    TextIsSober(n);
    CutAt(t, '.', tail);
    PartOfText(n);
    PartsStep(done, t + tail);
    assert (t + tail)[..|t|] == t && (t + tail)[|t| + 1..] == rest;
  }

  lemma LastPart(done: seq<int>, n: int)
    requires |done| < 3
    ensures Parts(done, Text(n)) == if Short(n) then Some(done + [n]) else None
  {
    hide Parts, Cut, Text, Part;
    var t := Text(n);
    TextIsSober(n);
    CutAt(t, '.', "");
    assert t + "" == t && t[..|t|] == t;
    PartOfText(n);
    PartsStep(done, t);
  }

  lemma PartsOfVersion(v: SemVer)
    ensures Parts([], VersionText(v)) == if ShortVersion(v) then Some([v.major, v.minor, v.patch]) else None
  {
    hide Parts, Text;
    var rest := Text(v.minor) + ("." + Text(v.patch));
    assert VersionText(v) == Text(v.major) + ("." + rest);
    OnePart([], v.major, rest);
    OnePart([v.major], v.minor, Text(v.patch));
    LastPart([v.major, v.minor], v.patch);
    assert [] + [v.major] == [v.major] && [v.major] + [v.minor] == [v.major, v.minor];
    assert [v.major, v.minor] + [v.patch] == [v.major, v.minor, v.patch];
  }

  lemma SoberJoin(a: string, b: string)
    requires Sober(a) && Sober(b)
    ensures Sober(a + "." + b)
  {
  }

  lemma VersionTextIsSober(v: SemVer)
    ensures var t := VersionText(v); Sober(t) && t != "" && t[0] != '.' && IsDigit(t[|t| - 1])
  {
    TextIsSober(v.major);
    TextIsSober(v.minor);
    TextIsSober(v.patch);
    hide Text;
    SoberJoin(Text(v.major), Text(v.minor));
    SoberJoin(Text(v.major) + "." + Text(v.minor), Text(v.patch));
    assert Text(v.major)[0] in Text(v.major);
  }

  lemma TrimNothing(s: string)
    requires s != "" && !Blank(s[0]) && !Blank(s[|s| - 1])
    ensures Trim(s) == s
  {
  }

  lemma TrimLeadingBlank(s: string)
    ensures Trim(" " + s) == Trim(s)
  {
    assert (" " + s)[1..] == s;
  }

  lemma PartialOfVersion(v: SemVer)
    ensures Partial(VersionText(v)) == if ShortVersion(v) then Some([v.major, v.minor, v.patch]) else None
  {
    VersionTextIsSober(v);
    PartsOfVersion(v);
    hide VersionText, Parts, Trim;
    var t := VersionText(v);
    TrimNothing(t);
  }

  /** A printed comparator parses to itself, unless a number in it is too long. */
  lemma ItemRoundTrip(c: Comparator)
    ensures ParsedItem(ItemText(c)) == if ShortVersion(c.version) then Some([c]) else None
  {
    PartialOfVersion(c.version);
    VersionTextIsSober(c.version);
    hide VersionText, Partial, ShortVersion;
    var t, n := VersionText(c.version), |OpText(c.op)|;
    var item := ItemText(c);
    assert item[n..] == t && item[0] == OpText(c.op)[0] && item[n] == t[0];
    assert item[..2] == [item[0], item[1]];
    assert Sign(item) == Some((Plain(c.op), n));
    assert Version([c.version.major, c.version.minor, c.version.patch]) == c.version;
  }

  lemma ItemTextShape(c: Comparator)
    ensures var t := ItemText(c);
            |t| >= 2 && ',' !in t && !Blank(t[0]) && !Blank(t[|t| - 1]) && t[0] != '*'
  {
    VersionTextIsSober(c.version);
    hide VersionText;
    var t := ItemText(c);
    assert t[|t| - 1] == VersionText(c.version)[|VersionText(c.version)| - 1];
  }

  /** The list from its first comparator on. */
  function ListedFrom(cs: seq<Comparator>): string
    requires cs != []
  {
    ItemText(cs[0]) + if |cs| == 1 then "" else ", " + ListedFrom(cs[1..])
  }

  lemma {:induction false} ListedFromSnoc(cs: seq<Comparator>, last: Comparator)
    requires cs != []
    ensures ListedFrom(cs + [last]) == ListedFrom(cs) + ", " + ItemText(last)
    decreases |cs|
  {
    hide ItemText;
    var all := cs + [last];
    assert all[0] == cs[0];
    if |cs| == 1 {
      assert all[1..] == [last];
      assert ListedFrom([last]) == ItemText(last) + "";
      assert ListedFrom(cs) == ItemText(cs[0]) + "";
    } else {
      assert all[1..] == cs[1..] + [last];
      ListedFromSnoc(cs[1..], last);
    }
  }

  lemma ListedSnoc(front: seq<Comparator>, last: Comparator)
    requires Listed(front) != ""
    ensures Listed(front + [last]) == Listed(front) + ", " + ItemText(last)
  {
    hide ItemText;
    assert (front + [last])[..|front|] == front;
  }

  lemma OneListed(c: Comparator)
    ensures Listed([c]) == ListedFrom([c]) == ItemText(c) != ""
  {
    ItemTextShape(c);
    hide ItemText;
    assert [c][..0] == [];
    assert ItemText(c) + "" == ItemText(c) == "" + ItemText(c);
  }

  lemma {:induction false} ListedIsFrom(cs: seq<Comparator>)
    requires cs != []
    ensures Listed(cs) == ListedFrom(cs) && Listed(cs) != ""
    decreases |cs|
  {
    hide ItemText, ListedFrom, Listed;
    var front, last := cs[..|cs| - 1], cs[|cs| - 1];
    if |cs| == 1 {
      assert cs == [last];
      OneListed(last);
    } else {
      assert cs == front + [last];
      ListedIsFrom(front);
      ListedSnoc(front, last);
      ListedFromSnoc(front, last);
    }
  }

  /** The first item of such text, up to its comma. */
  lemma FirstItem(lead: string, c: Comparator, tail: string, done: seq<Comparator>)
    requires (lead == "" || lead == " ") && (tail == "" || tail[0] == ',')
    ensures ParsedItems(done, lead + ItemText(c) + tail) ==
            if !ShortVersion(c.version) then None
            else if tail == "" then Some(done + [c])
            else ParsedItems(done + [c], tail[1..])
  {
    hide ItemText, ParsedItem, ParsedItems, Cut, Trim, ShortVersion;
    var item := ItemText(c);
    var text := lead + item + tail;
    ItemTextShape(c);
    CutAt(lead + item, ',', tail);
    assert text[..|lead + item|] == lead + item;
    TrimNothing(item);
    TrimLeadingBlank(item);
    assert "" + item == item;
    ItemRoundTrip(c);
    ItemsStep(done, text);
    assert tail != "" ==> text[|lead + item| + 1..] == tail[1..];
  }

  /** Each item of a printed list, after the blank that follows its comma. */
  lemma {:induction false} ItemsRoundTrip(done: seq<Comparator>, lead: string, cs: seq<Comparator>)
    requires cs != [] && (lead == "" || lead == " ")
    ensures ParsedItems(done, lead + ListedFrom(cs)) == if AllShort(cs) then Some(done + cs) else None
    decreases |cs|
  {
    hide ItemText, ParsedItems, ShortVersion;
    if |cs| == 1 {
      FirstItem(lead, cs[0], "", done);
      assert lead + ListedFrom(cs) == lead + ItemText(cs[0]) + "";
      assert cs == [cs[0]];
    } else {
      var rest := " " + ListedFrom(cs[1..]);
      FirstItem(lead, cs[0], "," + rest, done);
      assert ("," + rest)[1..] == rest;
      assert lead + ListedFrom(cs) == lead + ItemText(cs[0]) + ("," + rest);
      ItemsRoundTrip(done + [cs[0]], " ", cs[1..]);
      assert done + [cs[0]] + cs[1..] == done + cs;
      AllShortCons(cs);
    }
  }

  lemma AllShortCons(cs: seq<Comparator>)
    requires cs != []
    ensures AllShort(cs) <==> ShortVersion(cs[0].version) && AllShort(cs[1..])
  {
    if ShortVersion(cs[0].version) && AllShort(cs[1..]) {
      forall i | 0 <= i < |cs|
        ensures ShortVersion(cs[i].version)
      {
        if i > 0 {
          assert cs[i] == cs[1..][i - 1];
        }
      }
    }
  }

  lemma {:induction false} ListedFromShape(cs: seq<Comparator>)
    requires cs != []
    ensures var t := ListedFrom(cs); |t| >= 2 && !Blank(t[0]) && !Blank(t[|t| - 1]) && t[0] != '*'
    decreases |cs|
  {
    ItemTextShape(cs[0]);
    hide ItemText;
    if |cs| > 1 {
      ListedFromShape(cs[1..]);
    }
  }

  lemma ListParses(cs: seq<Comparator>)
    requires cs != []
    ensures Parsed(ListedFrom(cs)) == if AllShort(cs) then Some(cs) else None
  {
    hide ListedFrom, ParsedItems, Trim, AllShort;
    var text := ListedFrom(cs);
    ListedFromShape(cs);
    TrimNothing(text);
    ItemsRoundTrip([], "", cs);
    assert "" + text == text && [] + cs == cs;
    assert |text| != |"*"|;
  }

  /** Printing then parsing any requirement gives the same comparators exactly
      when no component takes more than six characters. */
  lemma {:induction false} PrintedParses(cs: seq<Comparator>)
    ensures Parsed(Printed(cs)) == Some(cs) <==> AllShort(cs)
  {
    if cs == [] {
      TrimNothing("*");
    } else {
      ListedIsFrom(cs);
      ListParses(cs);
      hide *;
      assert Printed(cs) == Listed(cs) by { PrintedIsListed(cs); }
    }
  }

  lemma PrintedIsListed(cs: seq<Comparator>)
    requires cs != []
    ensures Printed(cs) == Listed(cs)
  {
  }

  /** A later bound that asks for more: the text parses, its lower bound is the
      first one, and neither that nor anything below the second is admitted. */
  lemma LaterBoundIsTighter(a: SemVer, b: SemVer)
    requires ShortVersion(a) && ShortVersion(b) && Less(a, b)
    ensures var cs := [Comparator(Ge, a), Comparator(Ge, b)];
            Parsed(Printed(cs)) == Some(cs) && LowerBound(cs) == Some(a) && !IsLeast(cs, a) && IsLeast(cs, b)
  {
    var cs := [Comparator(Ge, a), Comparator(Ge, b)];
    assert AllShort(cs);
    hide Parsed, Printed, AllShort;
    PrintedParses(cs);
    forall v
      ensures Admits(cs, v) <==> !Less(v, a) && !Less(v, b)
    {
      TwoComparators(cs[0], cs[1], v);
    }
  }

  lemma OneParses(c: Comparator, cs: seq<Comparator>)
    requires ShortVersion(c.version) && cs == [c]
    ensures Parsed(Printed(cs)) == Some(cs)
  {
    hide Parsed, Printed, ShortVersion;
    PrintedParses(cs);
  }

  lemma StrictBound(a: SemVer, cs: seq<Comparator>)
    requires cs == [Comparator(Gt, a)]
    ensures LowerBound(cs) == Some(a) && !Admits(cs, a) && IsLeast(cs, SemVer(a.major, a.minor, a.patch + 1))
  {
    forall v
      ensures Admits(cs, v) <==> Less(a, v)
    {
      assert Satisfies(v, cs[0]) <==> Less(a, v);
    }
  }

  /** A strict bound: it is given as the lower bound but not admitted. */
  lemma StrictBoundIsNotAdmitted(a: SemVer)
    requires ShortVersion(a)
    ensures var cs := [Comparator(Gt, a)];
            Parsed(Printed(cs)) == Some(cs) && LowerBound(cs) == Some(a) && !Admits(cs, a) &&
            IsLeast(cs, SemVer(a.major, a.minor, a.patch + 1))
  {
    hide *;
    var cs := [Comparator(Gt, a)];
    OneParses(Comparator(Gt, a), cs);
    StrictBound(a, cs);
  }

  /** The one way past six characters from text: the upper bound of ^ or ~ can
      outgrow what was written, and is then not read back. */
  lemma {:induction false} UpperBoundOutgrows()
    ensures Parsed(Printed(Meaning(Caret, [999999]))) == None
  {
    var cs := Meaning(Caret, [999999]);
    assert cs[1].version.major == 1000000;
    assert !AllShort(cs) by {
      SevenDigits(1000000);
    }
    ListedIsFrom(cs);
    ListParses(cs);
    PrintedIsListed(cs);
  }

  lemma SevenDigits(n: nat)
    requires 1000000 <= n
    ensures !Short(n)
  {
    assert Pow10(1) == 10 && Pow10(2) == 100 && Pow10(3) == 1000 && Pow10(4) == 10000 && Pow10(5) == 100000 && Pow10(6) == 1000000;
    LongerText(n, 6);
  }

  function Pow10(k: nat): nat {
    if k == 0 then 1 else 10 * Pow10(k - 1)
  }

  lemma {:induction false} LongerText(n: nat, k: nat)
    requires n >= Pow10(k)
    ensures |Digits(n)| > k
    decreases k
  {
    if k > 0 {
      LongerText(n / 10, k - 1);
    }
  }

  // --------------------------------------------------------- what people write

  predicate AllBlank(s: string) {
    forall i :: 0 <= i < |s| ==> Blank(s[i])
  }

  function PrefixText(prefix: Prefix): string {
    match prefix
    case Plain(op) => OpText(op)
    case Caret => "^"
    case Tilde => "~"
  }

  /** The components with dots between them. */
  function Dotted(parts: seq<int>): string
    requires parts != []
  {
    if |parts| == 1 then Text(parts[0]) else Text(parts[0]) + ("." + Dotted(parts[1..]))
  }

  predicate AllPartsShort(parts: seq<int>) {
    forall i :: 0 <= i < |parts| ==> Short(parts[i])
  }

  lemma {:induction false} TrimmedFront(lead: string, s: string)
    requires AllBlank(lead) && s != "" && !Blank(s[0])
    ensures TrimFront(lead + s) == s
    decreases |lead|
  {
    if lead == "" {
      assert lead + s == s;
    } else {
      assert (lead + s)[1..] == lead[1..] + s;
      TrimmedFront(lead[1..], s);
    }
  }

  lemma {:induction false} TrimmedBack(s: string, trail: string)
    requires AllBlank(trail) && s != "" && !Blank(s[|s| - 1])
    ensures TrimBack(s + trail) == s
    decreases |trail|
  {
    if trail == "" {
      assert s + trail == s;
    } else {
      assert (s + trail)[..|s + trail| - 1] == s + trail[..|trail| - 1];
      TrimmedBack(s, trail[..|trail| - 1]);
    }
  }

  lemma Trimmed(lead: string, s: string, trail: string)
    requires AllBlank(lead) && AllBlank(trail) && s != "" && !Blank(s[0]) && !Blank(s[|s| - 1])
    ensures Trim(lead + s + trail) == s
  {
    hide TrimFront, TrimBack;
    TrimmedFront(lead, s + trail);
    assert lead + s + trail == lead + (s + trail);
    TrimmedBack(s, trail);
  }

  lemma {:induction false} DottedIsSober(parts: seq<int>)
    requires parts != []
    ensures var t := Dotted(parts); Sober(t) && t != "" && IsDigit(t[|t| - 1])
    decreases |parts|
  {
    TextIsSober(parts[0]);
    hide Text;
    if |parts| > 1 {
      DottedIsSober(parts[1..]);
    }
  }

  lemma AllPartsShortCons(parts: seq<int>)
    requires parts != []
    ensures AllPartsShort(parts) <==> Short(parts[0]) && AllPartsShort(parts[1..])
  {
    hide Short;
    if Short(parts[0]) && AllPartsShort(parts[1..]) {
      forall i | 0 <= i < |parts|
        ensures Short(parts[i])
      {
        assert i > 0 ==> parts[i] == parts[1..][i - 1];
      }
    }
  }

  lemma {:induction false} PartsOfDotted(done: seq<int>, parts: seq<int>)
    requires parts != [] && |done| + |parts| <= 3
    ensures Parts(done, Dotted(parts)) == if AllPartsShort(parts) then Some(done + parts) else None
    decreases |parts|
  {
    hide Parts, Text, Short;
    AllPartsShortCons(parts);
    if |parts| == 1 {
      LastPart(done, parts[0]);
      assert done + [parts[0]] == done + parts;
    } else {
      OnePart(done, parts[0], Dotted(parts[1..]));
      PartsOfDotted(done + [parts[0]], parts[1..]);
      assert done + [parts[0]] + parts[1..] == done + parts;
    }
  }

  /** The components as written, with a v before them or without. */
  function VersionWritten(v: bool, parts: seq<int>): string
    requires parts != []
  {
    if v then "v" + Dotted(parts) else Dotted(parts)
  }

  lemma WrittenShape(v: bool, parts: seq<int>)
    requires parts != []
    ensures var t := VersionWritten(v, parts);
            && t != "" && !Blank(t[0]) && !Blank(t[|t| - 1]) && (t[0] == 'v' <==> v) && t[0] != '=' && ',' !in t
            && (v ==> t[1..] == Dotted(parts))
  {
    DottedIsSober(parts);
    hide Dotted;
    var d := Dotted(parts);
    assert v ==> ("v" + d)[1..] == d;
  }

  /** Blanks around a partial version and a v before it do not count. */
  lemma PartialWritten(parts: seq<int>, v: bool, gap: string, trail: string)
    requires 1 <= |parts| <= 3 && AllBlank(gap) && AllBlank(trail)
    ensures Partial(gap + VersionWritten(v, parts) + trail) == if AllPartsShort(parts) then Some(parts) else None
  {
    WrittenShape(v, parts);
    PartsOfDotted([], parts);
    var t := VersionWritten(v, parts);
    Trimmed(gap, t, trail);
    hide Parts, Trim, AllPartsShort, AllBlank, Blank;
    DottedIsSober(parts);
    assert [] + parts == parts;
  }

  lemma SignOf(prefix: Prefix, rest: string)
    requires rest != "" && rest[0] != '='
    ensures Sign(PrefixText(prefix) + rest) == Some((prefix, |PrefixText(prefix)|))
  {
    var item := PrefixText(prefix) + rest;
    assert item[..2] == [item[0], item[1]];
  }

  lemma {:induction false} NoCut(s: string, c: char)
    requires c !in s
    ensures Cut(s, c) == |s|
  {
    CutAt(s, c, "");
    assert s + "" == s;
  }

  /** The item that a sign, blanks, and a version make. */
  function Item(prefix: Prefix, gap: string, v: bool, parts: seq<int>): string
    requires parts != []
  {
    PrefixText(prefix) + (gap + VersionWritten(v, parts))
  }

  lemma GapShape(gap: string, t: string)
    requires AllBlank(gap) && t != "" && t[0] != '=' && ',' !in t && !Blank(t[|t| - 1])
    ensures var body := gap + t;
            body != "" && body[0] != '=' && ',' !in body && !Blank(body[|body| - 1])
  {
    assert forall i :: 0 <= i < |gap| ==> Blank(gap[i]);
    assert ',' !in gap;
  }

  lemma ItemShape(prefix: Prefix, gap: string, v: bool, parts: seq<int>)
    requires parts != [] && AllBlank(gap)
    ensures var item := Item(prefix, gap, v, parts);
            && item != "" && !Blank(item[0]) && !Blank(item[|item| - 1]) && item[0] != '*' && ',' !in item
            && Sign(item) == Some((prefix, |PrefixText(prefix)|))
            && item[|PrefixText(prefix)|..] == gap + VersionWritten(v, parts)
  {
    WrittenShape(v, parts);
    hide VersionWritten, Sign;
    GapShape(gap, VersionWritten(v, parts));
    SignOf(prefix, gap + VersionWritten(v, parts));
    SignShape(prefix);
  }

  lemma SignShape(prefix: Prefix)
    ensures var t := PrefixText(prefix); t != "" && !Blank(t[0]) && t[0] != '*' && ',' !in t
  {
  }

  lemma ItemWritten(prefix: Prefix, gap: string, v: bool, parts: seq<int>)
    requires 1 <= |parts| <= 3 && AllBlank(gap)
    ensures ParsedItem(Item(prefix, gap, v, parts)) == if AllPartsShort(parts) then Some(Meaning(prefix, parts)) else None
  {
    ItemShape(prefix, gap, v, parts);
    PartialWritten(parts, v, gap, "");
    hide Sign, Partial, Meaning, AllPartsShort, Item, VersionWritten, PrefixText;
    assert gap + VersionWritten(v, parts) + "" == gap + VersionWritten(v, parts);
  }

  /** Every way to write one requirement: a sign, and up to three components, with
      a v or without, and blanks anywhere but inside; it means what its sign and
      components say, unless a component takes more than six characters. */
  lemma WrittenParses(prefix: Prefix, parts: seq<int>, v: bool, lead: string, gap: string, trail: string)
    requires 1 <= |parts| <= 3 && AllBlank(lead) && AllBlank(gap) && AllBlank(trail)
    ensures Parsed(lead + Item(prefix, gap, v, parts) + trail) ==
            if AllPartsShort(parts) then Some(Meaning(prefix, parts)) else None
  {
    ItemShape(prefix, gap, v, parts);
    ItemWritten(prefix, gap, v, parts);
    hide *;
    OneItem(lead, Item(prefix, gap, v, parts), trail);
  }

  lemma OneItem(lead: string, item: string, trail: string)
    requires AllBlank(lead) && AllBlank(trail)
    requires item != "" && !Blank(item[0]) && !Blank(item[|item| - 1]) && item[0] != '*' && ',' !in item
    ensures Parsed(lead + item + trail) == ParsedItem(item)
  {
    hide Trim, ParsedItem, ParsedItems, AllBlank, Blank, Cut;
    Trimmed(lead, item, trail);
    TrimNothing(item);
    NoCut(item, ',');
    assert item[..|item|] == item && item != "*";
    ItemsStep([], item);
    if ParsedItem(item).Some? {
      assert [] + ParsedItem(item).value == ParsedItem(item).value;
    }
  }

  lemma {:induction false} TrimmedStart(s: string)
    ensures TrimFront(s) != "" ==> !Blank(TrimFront(s)[0])
    decreases |s|
  {
    if s != "" && Blank(s[0]) {
      TrimmedStart(s[1..]);
    }
  }

  lemma {:induction false} TrimKeepsStart(s: string)
    requires s != "" && !Blank(s[0])
    ensures TrimBack(s) != "" && TrimBack(s)[0] == s[0]
    decreases |s|
  {
    if Blank(s[|s| - 1]) {
      TrimKeepsStart(s[..|s| - 1]);
    }
  }

  lemma TrimStarts(s: string)
    ensures Trim(s) != "" ==> !Blank(Trim(s)[0])
    ensures s != "" && !Blank(s[0]) ==> Trim(s) != "" && Trim(s)[0] == s[0]
    ensures Trim("") == ""
  {
    TrimmedStart(s);
    if TrimFront(s) != "" {
      TrimKeepsStart(TrimFront(s));
    }
  }

  /** Nothing is a requirement without a sign, but for a lone star. */
  lemma NeedsSign(text: string)
    requires Parsed(text).Some?
    ensures var t := Trim(text); t != "" && (t == "*" || t[0] in ['>', '<', '=', '^', '~'])
  {
    hide ParsedItems, Trim, Partial;
    var t := Trim(text);
    if t != "*" {
      TrimStarts(text);
      ItemsStep([], t);
      TrimStarts(t[..Cut(t, ',')]);
    }
  }
}
