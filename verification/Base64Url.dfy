/**
 base64url without padding (section 5 of RFC 4648) and the three-part form of
 a compact token (src/auth/jwt.cpp). Decoding goes through a 32-bit
 accumulator that wraps around.
 */
module Base64Url {
  import opened Common

  type Byte = b: int | 0 <= b < 256

  type Sextet = v: int | 0 <= v < 64

  const WORD: nat := 0x1_0000_0000

  // ------------------------------------------------------------------ the alphabet

  function Letter(v: Sextet): (c: char)
    ensures c as int < 128
  {
    if v < 26 then 'A' + v as char
    else if v < 52 then 'a' + (v - 26) as char
    else if v < 62 then '0' + (v - 52) as char
    else if v == 62 then '-'
    else '_'
  }

  /** The value of a letter, or -1. */
  function Index(c: char): (v: int)
    ensures -1 <= v < 64
  {
    if 'A' <= c <= 'Z' then (c - 'A') as int
    else if 'a' <= c <= 'z' then (c - 'a') as int + 26
    else if '0' <= c <= '9' then (c - '0') as int + 52
    else if c == '-' then 62
    else if c == '_' then 63
    else -1
  }

  lemma LettersAndValues(v: Sextet, c: char)
    ensures Index(Letter(v)) == v
    ensures Index(c) >= 0 ==> Letter(Index(c)) == c
  {
  }

  method MakeDecodeTable() returns (t: array<int>)
    ensures fresh(t) && t.Length == 256 && forall c :: 0 <= c < 256 ==> t[c] == Index(c as char)
  {
    t := new int[256](_ => -1);
    for i := 0 to 64
      invariant forall c :: 0 <= c < 256 ==> t[c] == if Index(c as char) < i then Index(c as char) else -1
    {
      LettersAndValues(i, 'A');
      forall c: char | Index(c) == i
        ensures c == Letter(i)
      {
        LettersAndValues(i, c);
      }
      t[Letter(i) as int] := i;
    }
  }

  // -------------------------------------------------------------------- encoding

  function First(a: Byte): Sextet {
    a / 4
  }

  function Second(a: Byte, b: Byte): Sextet {
    a % 4 * 16 + b / 16
  }

  function Third(b: Byte, c: Byte): Sextet {
    b % 16 * 4 + c / 64
  }

  function Fourth(c: Byte): Sextet {
    c % 64
  }

  /** Groups of three bytes are four letters; one or two left over are two or three. */
  function Encoded(data: seq<Byte>): string
    decreases |data|
  {
    if |data| == 0 then ""
    else if |data| == 1 then [Letter(First(data[0])), Letter(Second(data[0], 0))]
    else if |data| == 2 then [Letter(First(data[0])), Letter(Second(data[0], data[1])), Letter(Third(data[1], 0))]
    else
      [Letter(First(data[0])), Letter(Second(data[0], data[1])), Letter(Third(data[1], data[2])), Letter(Fourth(data[2]))]
      + Encoded(data[3..])
  }

  /** The k-th sextet of a 24-bit word, by shifting and masking. */
  function SextetOf(v: nat, k: nat): Sextet {
    if k == 0 then v / 262144 % 64 else if k == 1 then v / 4096 % 64 else if k == 2 then v / 64 % 64 else v % 64
  }

  lemma AtLeastOnce(x: int, d: int)
    requires x >= 1 && d > 0
    ensures x * d >= d
  {
  }

  lemma Quotient(v: int, d: int, q: int, r: int)
    requires d > 0 && v == q * d + r && 0 <= r < d
    ensures v / d == q && v % d == r
  {
    var e, t := v / d, v % d;
    assert v == d * e + t && 0 <= t < d;
    assert (e - q) * d == e * d - q * d == r - t;
    if e > q {
      AtLeastOnce(e - q, d);
    } else if e < q {
      AtLeastOnce(q - e, d);
    }
  }

  function Word(a: Byte, b: Byte, c: Byte): nat {
    a as int * 65536 + b as int * 256 + c as int
  }

  /** The four sextets of the word the code shifts out of. */
  lemma Sextets(a: Byte, b: Byte, c: Byte)
    ensures var v := Word(a, b, c);
            SextetOf(v, 0) == First(a) && SextetOf(v, 1) == Second(a, b) && SextetOf(v, 2) == Third(b, c) && SextetOf(v, 3) == Fourth(c)
  {
    var v := Word(a, b, c);
    Quotient(v, 262144, a / 4, a % 4 * 65536 + b * 256 + c);
    Quotient(v, 4096, a * 16 + b / 16, b % 16 * 256 + c);
    Quotient(a * 16 + b / 16, 64, a / 4, a % 4 * 16 + b / 16);
    Quotient(v, 64, a * 1024 + b * 4 + c / 64, c % 64);
    Quotient(a * 1024 + b * 4 + c / 64, 64, a * 16 + b / 16, b % 16 * 4 + c / 64);
  }

  /** The letters of the first n sextets of a word. */
  function Letters(v: nat, n: nat): (r: string)
    ensures |r| == n
  {
    if n == 0 then "" else Letters(v, n - 1) + [Letter(SextetOf(v, n - 1))]
  }

  lemma LettersAre(v: nat)
    ensures Letters(v, 2) == [Letter(SextetOf(v, 0)), Letter(SextetOf(v, 1))]
    ensures Letters(v, 3) == [Letter(SextetOf(v, 0)), Letter(SextetOf(v, 1)), Letter(SextetOf(v, 2))]
    ensures Letters(v, 4) == [Letter(SextetOf(v, 0)), Letter(SextetOf(v, 1)), Letter(SextetOf(v, 2)), Letter(SextetOf(v, 3))]
  {
    hide Letter, SextetOf;
    assert Letters(v, 1) == [Letter(SextetOf(v, 0))];
    assert Letters(v, 2) == Letters(v, 1) + [Letter(SextetOf(v, 1))];
    assert Letters(v, 3) == Letters(v, 2) + [Letter(SextetOf(v, 2))];
    assert Letters(v, 4) == Letters(v, 3) + [Letter(SextetOf(v, 3))];
  }

  lemma EncodedByWords(data: seq<Byte>)
    ensures |data| >= 3 ==> Encoded(data) == Letters(Word(data[0], data[1], data[2]), 4) + Encoded(data[3..])
    ensures |data| == 2 ==> Encoded(data) == Letters(Word(data[0], data[1], 0), 3)
    ensures |data| == 1 ==> Encoded(data) == Letters(Word(data[0], 0, 0), 2)
  {
    hide Letter, SextetOf, First, Second, Third, Fourth, Word, Letters;
    if data != [] {
      var b, c := if |data| > 1 then data[1] else 0, if |data| > 2 then data[2] else 0;
      Sextets(data[0], b, c);
      LettersAre(Word(data[0], b, c));
    }
  }

  method AppendLetters(out: string, v: nat, n: nat) returns (longer: string)
    ensures longer == out + Letters(v, n)
  {
    longer := out;
    for k := 0 to n
      invariant longer == out + Letters(v, k)
    {
      longer := longer + [Letter(SextetOf(v, k))];
    }
  }

  method Encode(data: seq<Byte>) returns (out: string)
    ensures out == Encoded(data)
  {
    hide Letters, Word, Encoded;
    out := "";
    var i := 0;
    assert data[0..] == data;
    while i + 3 <= |data|
      invariant 0 <= i <= |data|
      invariant out + Encoded(data[i..]) == Encoded(data)
    {
      ghost var rest := data[i..];
      EncodedByWords(rest);
      assert rest[3..] == data[i + 3..];
      Regroup(out, Letters(Word(rest[0], rest[1], rest[2]), 4), Encoded(rest[3..]));
      out := AppendLetters(out, Word(data[i], data[i + 1], data[i + 2]), 4);
      i := i + 3;
    }
    EncodedByWords(data[i..]);
    var left := |data| - i;
    if left == 1 {
      out := AppendLetters(out, Word(data[i], 0, 0), 2);
    } else if left == 2 {
      out := AppendLetters(out, Word(data[i], data[i + 1], 0), 3);
    } else {
      NothingLeft(data[i..]);
    }
  }

  lemma NothingLeft(data: seq<Byte>)
    requires data == []
    ensures Encoded(data) == ""
  {
  }

  lemma Regroup<T>(x: seq<T>, y: seq<T>, z: seq<T>)
    ensures x + (y + z) == x + y + z
  {
  }

  // -------------------------------------------------------------------- decoding

  function Power(bits: nat): (p: nat)
    ensures p > 0
  {
    if bits == 0 then 1 else 2 * Power(bits - 1)
  }

  function Shifted(acc: nat, v: Sextet): nat {
    (acc * 64 + v) % WORD
  }

  /** The decoder from the state it has reached: accumulator, bits in it not yet
      given out, bytes so far. */
  function Stream(acc: nat, bits: nat, out: seq<Byte>, s: string): Option<seq<Byte>>
    decreases |s|
  {
    if s == "" then if bits > 0 && acc % Power(bits) != 0 then None else Some(out)
    else if Index(s[0]) < 0 then None
    else
      var next := Shifted(acc, Index(s[0]));
      if bits + 6 >= 8 then Stream(next, bits - 2, out + [next / Power(bits - 2) % 256], s[1..])
      else Stream(next, bits + 6, out, s[1..])
  }

  function Decoded(s: string): Option<seq<Byte>> {
    if |s| % 4 == 1 then None else Stream(0, 0, [], s)
  }

  method ToPower(bits: nat) returns (p: nat)
    ensures p == Power(bits)
  {
    p := 1;
    for i := 0 to bits
      invariant p == Power(i)
    {
      p := 2 * p;
    }
  }

  method Decode(s: string) returns (r: Option<seq<Byte>>)
    ensures r == Decoded(s)
  {
    if |s| % 4 == 1 {
      return None;
    }
    var out: seq<Byte> := [];
    var acc, bits := 0, 0;
    assert s[0..] == s;
    for i := 0 to |s|
      invariant 0 <= acc && 0 <= bits
      invariant Stream(acc, bits, out, s[i..]) == Decoded(s)
    {
      assert s[i..][0] == s[i] && s[i..][1..] == s[i + 1..];
      var v := Index(s[i]);
      if v < 0 {
        return None;
      }
      acc := (acc * 64 + v) % WORD;
      bits := bits + 6;
      if bits >= 8 {
        bits := bits - 8;
        var p := ToPower(bits);
        out := out + [acc / p % 256];
      }
    }
    var p := ToPower(bits);
    if bits > 0 && acc % p != 0 {
      return None;
    }
    return Some(out);
  }

  // ----------------------------------------- decoding by groups, without wrapping

  predicate Valid(s: string) {
    forall i :: 0 <= i < |s| ==> Index(s[i]) >= 0
  }

  function FirstByte(v: Sextet, w: Sextet): Byte {
    v * 4 + w / 16
  }

  function SecondByte(w: Sextet, x: Sextet): Byte {
    w % 16 * 16 + x / 4
  }

  function ThirdByte(x: Sextet, y: Sextet): Byte {
    x % 4 * 64 + y
  }

  /** Four letters are three bytes; two or three left over are one or two, and
      their last letter must not have bits to spare. */
  function Grouped(s: string): Option<seq<Byte>>
    decreases |s|
  {
    if s == "" then Some([])
    else if |s| == 1 || !Valid(s[..Min(4, |s|)]) then None
    else
      var v, w := Index(s[0]), Index(s[1]);
      if |s| == 2 then if w % 16 != 0 then None else Some([FirstByte(v, w)])
      else
        var x := Index(s[2]);
        if |s| == 3 then if x % 4 != 0 then None else Some([FirstByte(v, w), SecondByte(w, x)])
        else
          match Grouped(s[4..])
          case None => None
          case Some(rest) => Some([FirstByte(v, w), SecondByte(w, x), ThirdByte(x, Index(s[3]))] + rest)
  }

  // -------------------------------- the wrapping accumulator loses nothing needed

  lemma Wrapped(acc: nat, v: Sextet) returns (m: nat)
    ensures acc * 64 + v == m * WORD + Shifted(acc, v)
  {
    m := (acc * 64 + v) / WORD;
  }

  lemma AfterFirst(acc: nat, v: Sextet)
    ensures Shifted(acc, v) % 64 == v
  {
    var m := Wrapped(acc, v);
    var k := acc - m * 67108864;
    assert Shifted(acc, v) == k * 64 + v;
    Quotient(Shifted(acc, v), 64, k, v);
  }

  lemma AfterSecond(acc: nat, v: Sextet, w: Sextet)
    requires acc % 64 == v
    ensures Shifted(acc, w) / 16 % 256 == FirstByte(v, w) && Shifted(acc, w) % 16 == w % 16
  {
    var m := Wrapped(acc, w);
    var a := Shifted(acc, w);
    var k := acc / 64 * 256 - m * 268435456;
    Quotient(a, 16, k + FirstByte(v, w), w % 16);
    Quotient(k + FirstByte(v, w), 256, acc / 64 - m * 1048576, FirstByte(v, w));
  }

  lemma AfterThird(acc: nat, w: Sextet, x: Sextet)
    requires acc % 16 == w % 16
    ensures Shifted(acc, x) / 4 % 256 == SecondByte(w, x) && Shifted(acc, x) % 4 == x % 4
  {
    var m := Wrapped(acc, x);
    var a := Shifted(acc, x);
    var k := acc / 16 * 256 - m * 1073741824;
    Quotient(a, 4, k + SecondByte(w, x), x % 4);
    Quotient(k + SecondByte(w, x), 256, acc / 16 - m * 4194304, SecondByte(w, x));
  }

  lemma AfterFourth(acc: nat, x: Sextet, y: Sextet)
    requires acc % 4 == x % 4
    ensures Shifted(acc, y) % 256 == ThirdByte(x, y)
  {
    var m := Wrapped(acc, y);
    Quotient(Shifted(acc, y), 256, acc / 4 - m * 16777216, ThirdByte(x, y));
  }

  lemma Powers()
    ensures Power(0) == 1 && Power(2) == 4 && Power(4) == 16 && Power(6) == 64
  {
    assert Power(1) == 2 && Power(2) == 4 && Power(3) == 8 && Power(4) == 16 && Power(5) == 32;
  }

  /** The stream after one letter, and after two, three and four: the bytes and
      the bits left over do not depend on what has been shifted out. */
  lemma OneLetter(acc: nat, bits: nat, out: seq<Byte>, s: string)
    requires s != "" && Index(s[0]) >= 0
    ensures bits < 2 ==> Stream(acc, bits, out, s) == Stream(Shifted(acc, Index(s[0])), bits + 6, out, s[1..])
    ensures bits >= 2 ==>
              Stream(acc, bits, out, s) ==
              Stream(Shifted(acc, Index(s[0])), bits - 2, out + [Shifted(acc, Index(s[0])) / Power(bits - 2) % 256], s[1..])
  {
    hide Shifted, Power, Index;
  }

  lemma OneBad(acc: nat, bits: nat, out: seq<Byte>, s: string)
    requires s != "" && Index(s[0]) < 0
    ensures Stream(acc, bits, out, s) == None
  {
  }

  function Joined(out: seq<Byte>, r: Option<seq<Byte>>): Option<seq<Byte>> {
    if r == None then None else Some(out + r.value)
  }

  lemma StreamEnds(acc: nat, bits: nat, out: seq<Byte>)
    ensures Stream(acc, bits, out, "") == if bits > 0 && acc % Power(bits) != 0 then None else Some(out)
  {
  }

  /** The stream is decoding by groups. */
  lemma {:induction false} StreamIsGrouped(acc: nat, out: seq<Byte>, s: string)
    requires |s| % 4 != 1
    ensures Stream(acc, 0, out, s) == Joined(out, Grouped(s))
    decreases |s|
  {
    Powers();
    hide Stream, Shifted, Power, Index, FirstByte, SecondByte, ThirdByte;
    if s == "" {
      StreamEnds(acc, 0, out);
      assert out + [] == out;
    } else if Index(s[0]) < 0 {
      OneBad(acc, 0, out, s);
      assert !Valid(s[..Min(4, |s|)]) by { assert s[..Min(4, |s|)][0] == s[0]; }
    } else {
      OneLetter(acc, 0, out, s);
      AfterFirst(acc, Index(s[0]));
      FromSecond(Shifted(acc, Index(s[0])), out, s);
    }
  }

  lemma {:induction false} FromSecond(acc: nat, out: seq<Byte>, s: string)
    requires |s| % 4 != 1 && s != "" && Index(s[0]) >= 0 && acc % 64 == Index(s[0])
    ensures Stream(acc, 6, out, s[1..]) == Joined(out, Grouped(s))
    decreases |s|, 3
  {
    Powers();
    hide Stream, Shifted, Power, Index, FirstByte, SecondByte, ThirdByte;
    if Index(s[1]) < 0 {
      OneBad(acc, 6, out, s[1..]);
      assert !Valid(s[..Min(4, |s|)]) by { assert s[..Min(4, |s|)][1] == s[1]; }
    } else {
      var v, w := Index(s[0]), Index(s[1]);
      OneLetter(acc, 6, out, s[1..]);
      AfterSecond(acc, v, w);
      assert s[1..][1..] == s[2..];
      FromThird(Shifted(acc, w), out + [FirstByte(v, w)], out, s);
    }
  }

  lemma {:induction false} FromThird(acc: nat, out1: seq<Byte>, out: seq<Byte>, s: string)
    requires |s| % 4 != 1 && |s| >= 2 && Index(s[0]) >= 0 && Index(s[1]) >= 0 && acc % 16 == Index(s[1]) % 16
    requires out1 == out + [FirstByte(Index(s[0]), Index(s[1]))]
    ensures Stream(acc, 4, out1, s[2..]) == Joined(out, Grouped(s))
    decreases |s|, 2
  {
    Powers();
    hide Stream, Shifted, Power, Index, FirstByte, SecondByte, ThirdByte;
    if |s| == 2 {
      assert s[2..] == "" && s[..2] == s;
      StreamEnds(acc, 4, out1);
    } else if Index(s[2]) < 0 {
      OneBad(acc, 4, out1, s[2..]);
      assert !Valid(s[..Min(4, |s|)]) by { assert s[..Min(4, |s|)][2] == s[2]; }
    } else {
      var w, x := Index(s[1]), Index(s[2]);
      OneLetter(acc, 4, out1, s[2..]);
      AfterThird(acc, w, x);
      assert s[2..][1..] == s[3..];
      var b, out2 := Shifted(acc, x), out1 + [SecondByte(w, x)];
      if |s| == 3 {
        assert s[3..] == "" && s[..3] == s;
        StreamEnds(b, 2, out2);
        assert out2 == out + [FirstByte(Index(s[0]), w), SecondByte(w, x)];
      } else if Index(s[3]) < 0 {
        OneBad(b, 2, out2, s[3..]);
        assert !Valid(s[..4]) by { assert s[..4][3] == s[3]; }
      } else {
        var y := Index(s[3]);
        OneLetter(b, 2, out2, s[3..]);
        AfterFourth(b, x, y);
        assert s[3..][1..] == s[4..];
        var out3, group := out2 + [ThirdByte(x, y)], [FirstByte(Index(s[0]), w), SecondByte(w, x), ThirdByte(x, y)];
        StreamIsGrouped(Shifted(b, y), out3, s[4..]);
        assert out3 == out + group;
        if Grouped(s[4..]).Some? {
          Regroup(out, group, Grouped(s[4..]).value);
        }
      }
    }
  }

  lemma DecodedIsGrouped(s: string)
    ensures Decoded(s) == if |s| % 4 == 1 then None else Grouped(s)
  {
    if |s| % 4 != 1 {
      StreamIsGrouped(0, [], s);
      if Grouped(s).Some? {
        assert [] + Grouped(s).value == Grouped(s).value;
      }
    }
  }

  // ------------------------------------------------------------------ both ways

  lemma GroupRoundTrip(a: Byte, b: Byte, c: Byte)
    ensures FirstByte(First(a), Second(a, b)) == a && SecondByte(Second(a, b), Third(b, c)) == b && ThirdByte(Third(b, c), Fourth(c)) == c
    ensures Second(a, 0) % 16 == 0 && Third(b, 0) % 4 == 0
  {
  }

  lemma TextRoundTrip(v: Sextet, w: Sextet, x: Sextet, y: Sextet)
    ensures First(FirstByte(v, w)) == v && Second(FirstByte(v, w), SecondByte(w, x)) == w
    ensures Third(SecondByte(w, x), ThirdByte(x, y)) == x && Fourth(ThirdByte(x, y)) == y
    ensures w % 16 == 0 ==> Second(FirstByte(v, w), 0) == w
    ensures x % 4 == 0 ==> Third(SecondByte(w, x), 0) == x
  {
  }

  lemma GroupedFour(p: char, q: char, r: char, t: char, rest: string)
    ensures Grouped([p, q, r, t] + rest) ==
            if Index(p) < 0 || Index(q) < 0 || Index(r) < 0 || Index(t) < 0 then None
            else Joined([FirstByte(Index(p), Index(q)), SecondByte(Index(q), Index(r)), ThirdByte(Index(r), Index(t))], Grouped(rest))
  {
    var s := [p, q, r, t] + rest;
    assert s[..4] == [p, q, r, t] && s[4..] == rest;
    hide Index, FirstByte, SecondByte, ThirdByte;
    var g := [p, q, r, t];
    assert g[0] == p && g[1] == q && g[2] == r && g[3] == t;
  }

  lemma GroupedThree(p: char, q: char, r: char)
    ensures Grouped([p, q, r]) ==
            if Index(p) < 0 || Index(q) < 0 || Index(r) < 0 || Index(r) % 4 != 0 then None
            else Some([FirstByte(Index(p), Index(q)), SecondByte(Index(q), Index(r))])
  {
    hide Index, FirstByte, SecondByte;
    var g := [p, q, r];
    assert g[..3] == g && g[0] == p && g[1] == q && g[2] == r;
  }

  lemma GroupedTwo(p: char, q: char)
    ensures Grouped([p, q]) ==
            if Index(p) < 0 || Index(q) < 0 || Index(q) % 16 != 0 then None else Some([FirstByte(Index(p), Index(q))])
  {
    hide Index, FirstByte;
    var g := [p, q];
    assert g[..2] == g && g[0] == p && g[1] == q;
  }

  lemma EncodedThree(a: Byte, b: Byte, c: Byte, rest: seq<Byte>)
    ensures Encoded([a, b, c] + rest) ==
            [Letter(First(a)), Letter(Second(a, b)), Letter(Third(b, c)), Letter(Fourth(c))] + Encoded(rest)
  {
    hide Letter, First, Second, Third, Fourth;
    var data := [a, b, c] + rest;
    assert data[3..] == rest;
  }

  lemma Four<T>(s: seq<T>)
    requires |s| >= 4
    ensures s == [s[0], s[1], s[2], s[3]] + s[4..]
  {
  }

  lemma Three<T>(s: seq<T>)
    requires |s| >= 3
    ensures s == [s[0], s[1], s[2]] + s[3..]
    ensures |s| == 3 ==> s == [s[0], s[1], s[2]]
  {
  }

  lemma Two<T>(s: seq<T>)
    requires |s| == 2
    ensures s == [s[0], s[1]]
  {
  }

  lemma ThreeThere(a: Byte, b: Byte, c: Byte, rest: seq<Byte>)
    requires Grouped(Encoded(rest)) == Some(rest)
    ensures Grouped(Encoded([a, b, c] + rest)) == Some([a, b, c] + rest)
    ensures |Encoded([a, b, c] + rest)| == 4 + |Encoded(rest)|
  {
    GroupRoundTrip(a, b, c);
    LettersAndValues(First(a), 'A');
    LettersAndValues(Second(a, b), 'A');
    LettersAndValues(Third(b, c), 'A');
    LettersAndValues(Fourth(c), 'A');
    EncodedThree(a, b, c, rest);
    GroupedFour(Letter(First(a)), Letter(Second(a, b)), Letter(Third(b, c)), Letter(Fourth(c)), Encoded(rest));
    hide First, Second, Third, Fourth, FirstByte, SecondByte, ThirdByte, Letter, Index, Grouped, Encoded;
  }

  lemma TwoThere(a: Byte, b: Byte)
    ensures Grouped(Encoded([a, b])) == Some([a, b]) && |Encoded([a, b])| == 3
  {
    GroupRoundTrip(a, b, 0);
    LettersAndValues(First(a), 'A');
    LettersAndValues(Second(a, b), 'A');
    LettersAndValues(Third(b, 0), 'A');
    GroupedThree(Letter(First(a)), Letter(Second(a, b)), Letter(Third(b, 0)));
    hide First, Second, Third, FirstByte, SecondByte, Letter, Index, Grouped;
  }

  lemma OneThere(a: Byte, zero: Byte)
    requires zero == 0
    ensures Grouped([Letter(First(a)), Letter(Second(a, zero))]) == Some([a])
  {
    hide First, Second, Third, Fourth, FirstByte, SecondByte, ThirdByte, Letter, Index, Grouped;
    GroupRoundTrip(a, zero, zero);
    LettersAndValues(First(a), 'A');
    LettersAndValues(Second(a, zero), 'A');
    GroupedTwo(Letter(First(a)), Letter(Second(a, zero)));
  }

  ghost predicate RoundTrips(data: seq<Byte>) {
    Grouped(Encoded(data)) == Some(data) && |Encoded(data)| % 4 != 1
  }

  lemma ShortRoundTrips(data: seq<Byte>)
    requires |data| <= 2
    ensures RoundTrips(data)
  {
    hide Grouped, First, Second, Third, Letter;
    if |data| == 2 {
      Two(data);
      TwoThere(data[0], data[1]);
    } else if |data| == 1 {
      assert data == [data[0]];
      OneThere(data[0], 0);
    } else {
      NothingGrouped();
    }
  }

  lemma NothingGrouped()
    ensures Grouped("") == Some([])
  {
  }

  lemma LongRoundTrips(data: seq<Byte>)
    requires |data| >= 3 && RoundTrips(data[3..])
    ensures RoundTrips(data)
  {
    hide Grouped, Encoded;
    Three(data);
    ThreeThere(data[0], data[1], data[2], data[3..]);
  }

  lemma {:induction false} GroupedEncoded(data: seq<Byte>)
    ensures RoundTrips(data)
    decreases |data|
  {
    hide RoundTrips;
    if |data| >= 3 {
      GroupedEncoded(data[3..]);
      LongRoundTrips(data);
    } else {
      ShortRoundTrips(data);
    }
  }

  lemma OwnLetter(c: char)
    ensures Index(c) >= 0 ==> Letter(Index(c)) == c
  {
    LettersAndValues(0, c);
  }

  lemma TwoBack(p: char, q: char)
    requires Grouped([p, q]).Some?
    ensures Encoded(Grouped([p, q]).value) == [p, q]
  {
    GroupedTwo(p, q);
    OwnLetter(p);
    OwnLetter(q);
    TextRoundTrip(Index(p), Index(q), 0, 0);
    hide First, Second, FirstByte, Letter, Index, Grouped;
  }

  lemma ThreeBack(p: char, q: char, r: char)
    requires Grouped([p, q, r]).Some?
    ensures Encoded(Grouped([p, q, r]).value) == [p, q, r]
  {
    GroupedThree(p, q, r);
    OwnLetter(p);
    OwnLetter(q);
    OwnLetter(r);
    TextRoundTrip(Index(p), Index(q), Index(r), 0);
    hide First, Second, Third, FirstByte, SecondByte, Letter, Index, Grouped;
  }

  lemma FourBack(p: char, q: char, r: char, t: char, rest: string)
    requires Grouped([p, q, r, t] + rest).Some?
    ensures Grouped(rest).Some? && Encoded(Grouped([p, q, r, t] + rest).value) == [p, q, r, t] + Encoded(Grouped(rest).value)
  {
    GroupedFour(p, q, r, t, rest);
    OwnLetter(p);
    OwnLetter(q);
    OwnLetter(r);
    OwnLetter(t);
    var v, w, x, y := Index(p), Index(q), Index(r), Index(t);
    TextRoundTrip(v, w, x, y);
    EncodedThree(FirstByte(v, w), SecondByte(w, x), ThirdByte(x, y), Grouped(rest).value);
    hide First, Second, Third, Fourth, FirstByte, SecondByte, ThirdByte, Letter, Index, Grouped, Encoded;
  }

  ghost predicate ReadsBack(s: string) {
    Grouped(s).Some? ==> Encoded(Grouped(s).value) == s
  }

  lemma ShortReadsBack(s: string)
    requires |s| <= 3 && |s| != 1
    ensures ReadsBack(s)
  {
    if s == "" {
      NothingGrouped();
    } else if |s| == 2 {
      hide Grouped, Encoded;
      Two(s);
      if Grouped(s).Some? {
        TwoBack(s[0], s[1]);
      }
    } else {
      hide Grouped, Encoded;
      Three(s);
      if Grouped(s).Some? {
        ThreeBack(s[0], s[1], s[2]);
      }
    }
  }

  lemma LongReadsBack(s: string)
    requires |s| >= 4 && ReadsBack(s[4..])
    ensures ReadsBack(s)
  {
    hide Grouped, Encoded;
    Four(s);
    if Grouped(s).Some? {
      FourBack(s[0], s[1], s[2], s[3], s[4..]);
    }
  }

  lemma {:induction false} EncodedGrouped(s: string)
    requires |s| % 4 != 1
    ensures ReadsBack(s)
    decreases |s|
  {
    hide ReadsBack;
    if |s| >= 4 {
      EncodedGrouped(s[4..]);
      LongReadsBack(s);
    } else {
      ShortReadsBack(s);
    }
  }

  /** Decoding undoes encoding, for all bytes. */
  lemma DecodedEncoded(data: seq<Byte>)
    ensures Decoded(Encoded(data)) == Some(data)
  {
    GroupedEncoded(data);
    DecodedIsGrouped(Encoded(data));
  }

  /** And encoding undoes decoding, for all accepted texts: base64url is a
      bijection between byte strings and the texts it accepts. */
  lemma EncodedDecoded(s: string)
    requires Decoded(s).Some?
    ensures Encoded(Decoded(s).value) == s
  {
    DecodedIsGrouped(s);
    EncodedGrouped(s);
  }

  /** No two accepted texts decode alike. */
  lemma DecodingIsInjective(s: string, t: string)
    requires Decoded(s).Some? && Decoded(s) == Decoded(t)
    ensures s == t
  {
    EncodedDecoded(s);
    EncodedDecoded(t);
  }

  // ---------------------------------------------------- the text as a number

  /** Digits of base 64 and of base 256, most significant first, after `acc`. */
  function Number64(acc: nat, s: string): int
    decreases |s|
  {
    if s == "" then acc else if Index(s[0]) < 0 then -1 else Number64(acc * 64 + Index(s[0]), s[1..])
  }

  function Number256(acc: nat, data: seq<Byte>): nat
    decreases |data|
  {
    if data == [] then acc else Number256(acc * 256 + data[0], data[1..])
  }

  /** Zero bits that complete the last letter. */
  function Padding(size: nat): nat {
    if size % 3 == 0 then 1 else if size % 3 == 1 then 16 else 4
  }

  const CAPITALS := "ABCDEFGHIJKLMNOPQRSTUVWXYZ"
  const SMALL := "abcdefghijklmnopqrstuvwxyz"
  const DIGITS := "0123456789"

  /** The alphabet of section 5 of RFC 4648: capitals, small letters, digits, and
      two signs, in order. */
  lemma CapitalsInOrder(v: Sextet)
    ensures |CAPITALS| == 26 && (v < 26 ==> Letter(v) == CAPITALS[v])
  {
  }

  lemma SmallInOrder(v: Sextet)
    ensures |SMALL| == 26 && (26 <= v < 52 ==> Letter(v) == SMALL[v - 26])
  {
  }

  lemma DigitsInOrder(v: Sextet)
    ensures |DIGITS| == 10 && (52 <= v < 62 ==> Letter(v) == DIGITS[v - 52])
    ensures Letter(62) == '-' && Letter(63) == '_'
  {
  }

  lemma FourDigits(acc: nat, v: Sextet, w: Sextet, x: Sextet, y: Sextet, rest: string)
    ensures Number64(acc, [Letter(v), Letter(w), Letter(x), Letter(y)] + rest) ==
            Number64(acc * 16777216 + v * 262144 + w * 4096 + x * 64 + y, rest)
  {
    LettersAndValues(v, 'A');
    LettersAndValues(w, 'A');
    LettersAndValues(x, 'A');
    LettersAndValues(y, 'A');
    hide Letter, Index;
    var s := [Letter(v), Letter(w), Letter(x), Letter(y)] + rest;
    OneDigit(acc, s);
    OneDigit(acc * 64 + v, s[1..]);
    OneDigit((acc * 64 + v) * 64 + w, s[2..]);
    OneDigit(((acc * 64 + v) * 64 + w) * 64 + x, s[3..]);
    assert s[1..][1..] == s[2..] && s[2..][1..] == s[3..] && s[3..][1..] == rest;
  }

  lemma OneDigit(acc: nat, s: string)
    requires s != "" && Index(s[0]) >= 0
    ensures Number64(acc, s) == Number64(acc * 64 + Index(s[0]), s[1..])
  {
  }

  lemma TwoDigits(acc: nat, v: Sextet, w: Sextet)
    ensures Number64(acc, [Letter(v), Letter(w)]) == acc * 4096 + v * 64 + w
  {
    LettersAndValues(v, 'A');
    LettersAndValues(w, 'A');
    hide Letter, Index;
    var s := [Letter(v), Letter(w)];
    OneDigit(acc, s);
    OneDigit(acc * 64 + v, s[1..]);
  }

  lemma ThreeDigits(acc: nat, v: Sextet, w: Sextet, x: Sextet)
    ensures Number64(acc, [Letter(v), Letter(w), Letter(x)]) == acc * 262144 + v * 4096 + w * 64 + x
  {
    LettersAndValues(v, 'A');
    LettersAndValues(w, 'A');
    LettersAndValues(x, 'A');
    hide Letter, Index;
    var s := [Letter(v), Letter(w), Letter(x)];
    OneDigit(acc, s);
    OneDigit(acc * 64 + v, s[1..]);
    OneDigit((acc * 64 + v) * 64 + w, s[2..]);
    assert s[1..][1..] == s[2..];
  }

  lemma GroupIsNumber(a: Byte, b: Byte, c: Byte)
    ensures First(a) * 262144 + Second(a, b) * 4096 + Third(b, c) * 64 + Fourth(c) == Word(a, b, c)
  {
  }

  lemma NextByte(acc: nat, data: seq<Byte>)
    ensures Number256(acc, data) == if data == [] then acc else Number256(acc * 256 + data[0], data[1..])
  {
  }

  lemma ThreeBytes(acc: nat, data: seq<Byte>)
    requires |data| >= 3
    ensures Number256(acc, data) == Number256(acc * 16777216 + Word(data[0], data[1], data[2]), data[3..])
  {
    hide Number256;
    NextByte(acc, data);
    NextByte(acc * 256 + data[0], data[1..]);
    NextByte((acc * 256 + data[0]) * 256 + data[1], data[2..]);
    assert data[1..][1..] == data[2..] && data[2..][1..] == data[3..];
  }

  lemma OneByte(acc: nat, a: Byte, zero: Byte)
    requires zero == 0
    ensures Number64(acc, [Letter(First(a)), Letter(Second(a, zero))]) == (acc * 256 + a) * 16
  {
    TwoDigits(acc, First(a), Second(a, zero));
  }

  lemma TwoBytes(acc: nat, a: Byte, b: Byte, zero: Byte)
    requires zero == 0
    ensures Number64(acc, [Letter(First(a)), Letter(Second(a, b)), Letter(Third(b, zero))]) == ((acc * 256 + a) * 256 + b) * 4
  {
    ThreeDigits(acc, First(a), Second(a, b), Third(b, zero));
  }

  lemma ShortIsNumber(acc: nat, data: seq<Byte>, zero: Byte)
    requires |data| < 3 && zero == 0
    ensures Number64(acc, Encoded(data)) == Number256(acc, data) * Padding(|data|)
  {
    hide First, Second, Third, Letter, Number64, Number256;
    NextByte(acc, data);
    if |data| == 1 {
      OneByte(acc, data[0], zero);
      NextByte(acc * 256 + data[0], data[1..]);
    } else if |data| == 2 {
      TwoBytes(acc, data[0], data[1], zero);
      NextByte(acc * 256 + data[0], data[1..]);
      NextByte((acc * 256 + data[0]) * 256 + data[1], data[1..][1..]);
    } else {
      NoDigits(acc);
    }
  }

  lemma NoDigits(acc: nat)
    ensures Number64(acc, "") == acc
  {
  }

  /** What the text says: read as a number in base 64 it is the bytes read as a
      number in base 256, with the zero bits that complete the last letter. */
  lemma {:induction false} EncodedIsNumber(acc: nat, data: seq<Byte>)
    ensures Number64(acc, Encoded(data)) == Number256(acc, data) * Padding(|data|)
    decreases |data|
  {
    hide First, Second, Third, Fourth, Letter, Number64, Number256, Encoded, Word;
    if |data| >= 3 {
      var a, b, c := data[0], data[1], data[2];
      Three(data);
      EncodedThree(a, b, c, data[3..]);
      FourDigits(acc, First(a), Second(a, b), Third(b, c), Fourth(c), Encoded(data[3..]));
      GroupIsNumber(a, b, c);
      ThreeBytes(acc, data);
      EncodedIsNumber(acc * 16777216 + Word(a, b, c), data[3..]);
    } else {
      ShortIsNumber(acc, data, 0);
    }
  }

  // --------------------------------------------------------------- compact tokens

  const MAX_TOKEN: nat := 16 * 1024

  datatype Jws = Jws(header: seq<Byte>, payload: seq<Byte>, signingInput: string, signature: seq<Byte>)

  /** Position of the first dot at or after `from`, or the length. */
  function Dot(s: string, from: nat): (i: nat)
    requires from <= |s|
    ensures from <= i <= |s| && (i < |s| ==> s[i] == '.') && forall j :: from <= j < i ==> s[j] != '.'
    decreases |s| - from
  {
    if from == |s| || s[from] == '.' then from else Dot(s, from + 1)
  }

  function Parsed(token: string): Option<Jws> {
    if token == "" || |token| > MAX_TOKEN then None
    else
      var d := Dot(token, 0);
      if d == |token| then None
      else
        var e := Dot(token, d + 1);
        if e == |token| || Dot(token, e + 1) != |token| then None
        else
          var (h, p, s) := (token[..d], token[d + 1..e], token[e + 1..]);
          if h == "" || p == "" || s == "" then None
          else
            var (hb, pb, sb) := (Decoded(h), Decoded(p), Decoded(s));
            if hb == None || pb == None || sb == None then None
            else Some(Jws(hb.value, pb.value, token[..e], sb.value))
  }

  method FindDot(s: string, from: nat) returns (i: nat)
    requires from <= |s|
    ensures i == Dot(s, from)
  {
    i := from;
    while i < |s| && s[i] != '.'
      invariant from <= i <= |s| && Dot(s, from) == Dot(s, i)
    {
      i := i + 1;
    }
  }

  method ParseJws(token: string) returns (r: Option<Jws>)
    ensures r == Parsed(token)
  {
    hide Dot, Decoded;
    if token == "" || |token| > MAX_TOKEN {
      return None;
    }
    var d := FindDot(token, 0);
    if d == |token| {
      return None;
    }
    var e := FindDot(token, d + 1);
    if e == |token| {
      return None;
    }
    var f := FindDot(token, e + 1);
    if f != |token| {
      return None;
    }
    var h, p, s := token[..d], token[d + 1..e], token[e + 1..];
    if h == "" || p == "" || s == "" {
      return None;
    }
    var hb := Decode(h);
    var pb := Decode(p);
    var sb := Decode(s);
    if hb == None || pb == None || sb == None {
      return None;
    }
    return Some(Jws(hb.value, pb.value, token[..e], sb.value));
  }

  function Signed(header: seq<Byte>, payload: seq<Byte>): string {
    Encoded(header) + "." + Encoded(payload)
  }

  function Compact(header: seq<Byte>, payload: seq<Byte>, signature: seq<Byte>): string {
    Signed(header, payload) + "." + Encoded(signature)
  }

  lemma {:induction false} EncodedHasNoDot(data: seq<Byte>)
    ensures '.' !in Encoded(data)
    decreases |data|
  {
    if |data| >= 3 {
      EncodedHasNoDot(data[3..]);
    }
  }

  lemma {:induction false} EncodedNonEmpty(data: seq<Byte>)
    ensures Encoded(data) == "" <==> data == []
  {
  }

  /** A parsed token is the compact form of its parts, and its signing input
      that of the first two. */
  lemma ParsedIsCompact(token: string)
    requires Parsed(token).Some?
    ensures var j := Parsed(token).value;
            token == Compact(j.header, j.payload, j.signature) && j.signingInput == Signed(j.header, j.payload) &&
            j.header != [] && j.payload != [] && j.signature != [] && |token| <= 16384
  {
    hide Decoded, Encoded;
    var d := Dot(token, 0);
    var e := Dot(token, d + 1);
    var (h, p, s) := (token[..d], token[d + 1..e], token[e + 1..]);
    EncodedDecoded(h);
    EncodedDecoded(p);
    EncodedDecoded(s);
    CutAtDots(token, d, e);
    EncodedNonEmpty(Decoded(h).value);
    EncodedNonEmpty(Decoded(p).value);
    EncodedNonEmpty(Decoded(s).value);
  }

  lemma CutAtDots(s: string, d: nat, e: nat)
    requires d < e < |s| && s[d] == '.' && s[e] == '.'
    ensures s[..e] == s[..d] + "." + s[d + 1..e] && s == s[..e] + "." + s[e + 1..]
  {
  }

  lemma TwoDots(h: string, p: string, s: string)
    requires '.' !in h && '.' !in p && '.' !in s
    ensures var (token, d, e) := (h + "." + p + "." + s, |h|, |h| + 1 + |p|);
            && token[..d] == h && token[d + 1..e] == p && token[e + 1..] == s && token[..e] == h + "." + p
            && Dot(token, 0) == d && Dot(token, d + 1) == e && Dot(token, e + 1) == |token|
  {
    var token, d, e := h + "." + p + "." + s, |h|, |h| + 1 + |p|;
    assert token[d] == '.' && token[e] == '.';
    assert forall i :: 0 <= i < d ==> token[i] == h[i];
    assert forall i :: d < i < e ==> token[i] == p[i - d - 1];
    assert forall i :: e < i < |token| ==> token[i] == s[i - e - 1];
  }

  /** The compact form of any three non-empty parts, if not too long, parses to them. */
  lemma {:induction false} CompactParses(header: seq<Byte>, payload: seq<Byte>, signature: seq<Byte>)
    requires header != [] && payload != [] && signature != [] && |Compact(header, payload, signature)| <= 16384
    ensures Parsed(Compact(header, payload, signature)) == Some(Jws(header, payload, Signed(header, payload), signature))
  {
    var h, p, s := Encoded(header), Encoded(payload), Encoded(signature);
    var token := Compact(header, payload, signature);
    EncodedHasNoDot(header);
    EncodedHasNoDot(payload);
    EncodedHasNoDot(signature);
    DecodedEncoded(header);
    DecodedEncoded(payload);
    DecodedEncoded(signature);
    EncodedNonEmpty(header);
    EncodedNonEmpty(payload);
    EncodedNonEmpty(signature);
    hide Encoded, Decoded, Dot;
    TwoDots(h, p, s);
  }

  /** So two accepted tokens with the same parts are the same token: a token has
      no other spelling. */
  lemma TokensAreCanonical(t: string, u: string)
    requires Parsed(t).Some? && Parsed(u).Some?
    requires Parsed(t).value.header == Parsed(u).value.header && Parsed(t).value.payload == Parsed(u).value.payload
    requires Parsed(t).value.signature == Parsed(u).value.signature
    ensures t == u
  {
    ParsedIsCompact(t);
    ParsedIsCompact(u);
  }
}
