// The textual pieces of a password hash: separated parts, decimal numbers and base64.
module Encodings {
  import opened Prelude

  // ---- strings.Split and strings.Cut for one character ----

  function IndexOf(s: string, c: char): (n: nat)
    ensures n <= |s| && (n < |s| ==> s[n] == c) && forall i :: 0 <= i < n ==> s[i] != c
  {
    if |s| == 0 || s[0] == c then 0 else 1 + IndexOf(s[1..], c)
  }

  function Split(s: string, c: char): (parts: seq<string>)
    ensures |parts| >= 1
    decreases |s|
  {
    var n := IndexOf(s, c);
    if n == |s| then [s] else [s[..n]] + Split(s[n + 1..], c)
  }

  function Cut(s: string, c: char): Option<(string, string)> {
    var n := IndexOf(s, c);
    if n == |s| then None else Some((s[..n], s[n + 1..]))
  }

  function Join(parts: seq<string>, c: char): string
    requires |parts| >= 1
    decreases |parts|
  {
    if |parts| == 1 then parts[0] else parts[0] + [c] + Join(parts[1..], c)
  }

  lemma IndexAfter(part: string, c: char, rest: string)
    requires c !in part
    ensures IndexOf(part + [c] + rest, c) == |part|
  {
    var s := part + [c] + rest;
    assert s[|part|] == c;
    forall i | 0 <= i < |part| ensures s[i] != c { assert s[i] == part[i]; }
  }

  lemma SplitFirst(part: string, c: char, rest: string)
    requires c !in part
    ensures Split(part + [c] + rest, c) == [part] + Split(rest, c)
  {
    var s := part + [c] + rest;
    IndexAfter(part, c, rest);
    assert s[..|part|] == part && s[|part| + 1..] == rest;
  }

  // Splitting what was joined gives the parts back, if none of them holds the separator.
  lemma {:induction false} SplitOfJoin(parts: seq<string>, c: char)
    requires |parts| >= 1 && forall i :: 0 <= i < |parts| ==> c !in parts[i]
    ensures Split(Join(parts, c), c) == parts
    decreases |parts|
  {
    if |parts| == 1 {
      assert IndexOf(parts[0], c) == |parts[0]|;
    } else {
      SplitFirst(parts[0], c, Join(parts[1..], c));
      SplitOfJoin(parts[1..], c);
      assert parts == [parts[0]] + parts[1..];
    }
  }

  // Every text is its parts joined again, none of which holds the separator.
  lemma {:induction false} JoinOfSplit(s: string, c: char)
    ensures Join(Split(s, c), c) == s && forall i :: 0 <= i < |Split(s, c)| ==> c !in Split(s, c)[i]
    decreases |s|
  {
    var n := IndexOf(s, c);
    if n < |s| {
      var parts, rest := Split(s, c), Split(s[n + 1..], c);
      JoinOfSplit(s[n + 1..], c);
      assert parts == [s[..n]] + rest && parts[1..] == rest;
      assert s == s[..n] + [c] + s[n + 1..];
    }
  }

  // A text is cut at the first separator.
  lemma CutExactly(s: string, c: char, before: string, after: string)
    ensures Cut(s, c) == Some((before, after)) <==> c !in before && s == before + [c] + after
    ensures Cut(s, c) == None <==> c !in s
  {
    if c !in before && s == before + [c] + after {
      IndexAfter(before, c, after);
      assert s[..|before|] == before && s[|before| + 1..] == after;
    }
  }

  // ---- Decimal numbers: strconv.ParseUint with base 10 and 32 bits ----

  const UINT32: nat := 0x1_0000_0000

  predicate IsDigit(c: char) { '0' <= c <= '9' }

  function DigitOf(n: nat): char
    requires n < 10
  {
    '0' + n as char
  }

  function Decimal(n: nat): (s: string)
    ensures |s| >= 1 && forall i :: 0 <= i < |s| ==> IsDigit(s[i])
  {
    if n < 10 then [DigitOf(n)] else Decimal(n / 10) + [DigitOf(n % 10)]
  }

  function Value(s: string): nat
    requires forall i :: 0 <= i < |s| ==> IsDigit(s[i])
  {
    if |s| == 0 then 0
    else
      assert IsDigit(s[|s| - 1]);
      10 * Value(s[..|s| - 1]) + (s[|s| - 1] as int - '0' as int)
  }

  function ParseUint32(s: string): Option<nat> {
    if |s| == 0 || exists i :: 0 <= i < |s| && !IsDigit(s[i]) then None
    else if Value(s) >= UINT32 then None
    else Some(Value(s))
  }

  lemma {:induction false} ValueOfDecimal(n: nat)
    ensures Value(Decimal(n)) == n
    decreases n
  {
    if n >= 10 {
      ValueOfDecimal(n / 10);
      assert Decimal(n)[..|Decimal(n)| - 1] == Decimal(n / 10);
    }
  }

  lemma ParsePrinted(n: nat)
    ensures ParseUint32(Decimal(n)) == if n < UINT32 then Some(n) else None
  {
    ValueOfDecimal(n);
  }

  // A text is read as a number exactly if it is one or more digits of value below 2^32.
  lemma ParsedExactly(s: string, n: nat)
    ensures ParseUint32(s) == Some(n)
            <==> |s| > 0 && (forall i :: 0 <= i < |s| ==> '0' <= s[i] <= '9') && n < 4_294_967_296 && Value(s) == n
  {
    if forall i :: 0 <= i < |s| ==> '0' <= s[i] <= '9' {
      assert forall i :: 0 <= i < |s| ==> IsDigit(s[i]);
    }
  }

  // ---- Base64 with the standard alphabet and no padding (sections 4 and 3.2 of RFC 4648) ----

  type byte = b: int | 0 <= b < 256

  function Letter(n: int): (c: char)
    requires 0 <= n < 64
    ensures c != '$' && c != '\r' && c != '\n'
  {
    if n < 26 then 'A' + n as char
    else if n < 52 then 'a' + (n - 26) as char
    else if n < 62 then '0' + (n - 52) as char
    else if n == 62 then '+' else '/'
  }

  function Sextet(c: char): (r: Option<int>)
    ensures r.Some? ==> 0 <= r.value < 64
  {
    if 'A' <= c <= 'Z' then Some(c as int - 'A' as int)
    else if 'a' <= c <= 'z' then Some(c as int - 'a' as int + 26)
    else if '0' <= c <= '9' then Some(c as int - '0' as int + 52)
    else if c == '+' then Some(62) else if c == '/' then Some(63) else None
  }

  lemma SextetOfLetter(n: int)
    requires 0 <= n < 64
    ensures Sextet(Letter(n)) == Some(n)
  {
  }

  lemma SextetExactly(c: char, n: int)
    ensures Sextet(c) == Some(n) <==> 0 <= n < 64 && Letter(n) == c
  {
    if 0 <= n < 64 { SextetOfLetter(n); }
  }

  function Encode(b: seq<byte>): string {
    if |b| == 0 then []
    else if |b| == 1 then [Letter(b[0] / 4), Letter(b[0] % 4 * 16)]
    else if |b| == 2 then [Letter(b[0] / 4), Letter(b[0] % 4 * 16 + b[1] / 16), Letter(b[1] % 16 * 4)]
    else
      [Letter(b[0] / 4), Letter(b[0] % 4 * 16 + b[1] / 16), Letter(b[1] % 16 * 4 + b[2] / 64), Letter(b[2] % 64)]
      + Encode(b[3..])
  }

  // The decoder passes over line ends wherever they are.
  function Letters(s: string): string {
    if |s| == 0 then [] else (if s[0] == '\r' || s[0] == '\n' then [] else [s[0]]) + Letters(s[1..])
  }

  function Sextets(s: string): Option<seq<int>> {
    if |s| == 0 then Some([])
    else
      match Sextet(s[0])
      case None => None
      case Some(x) => match Sextets(s[1..]) { case None => None case Some(rest) => Some([x] + rest) }
  }

  predicate AreSextets(x: seq<int>) {
    forall i :: 0 <= i < |x| ==> 0 <= x[i] < 64
  }

  // One letter left over is an error; left-over bits are dropped whatever they are.
  function Octets(x: seq<int>): Option<seq<byte>>
    requires AreSextets(x)
  {
    if |x| == 0 then Some([])
    else if |x| == 1 then None
    else
      var b0 := x[0] * 4 + x[1] / 16;
      if |x| == 2 then Some([b0])
      else
        var b1 := x[1] % 16 * 16 + x[2] / 4;
        if |x| == 3 then Some([b0, b1])
        else
          match Octets(x[4..])
          case None => None
          case Some(rest) => Some([b0, b1, x[2] % 4 * 64 + x[3]] + rest)
  }

  lemma {:induction false} SextetsAreSmall(s: string)
    ensures Sextets(s).Some? ==> AreSextets(Sextets(s).value)
    decreases |s|
  {
    if |s| > 0 { SextetsAreSmall(s[1..]); }
  }

  function Decode(s: string): Option<seq<byte>> {
    SextetsAreSmall(Letters(s));
    match Sextets(Letters(s)) { case None => None case Some(x) => Octets(x) }
  }

  // The six-bit groups of some bytes.
  function Groups(b: seq<byte>): (x: seq<int>)
    ensures AreSextets(x)
  {
    if |b| == 0 then []
    else if |b| == 1 then [b[0] / 4, b[0] % 4 * 16]
    else if |b| == 2 then [b[0] / 4, b[0] % 4 * 16 + b[1] / 16, b[1] % 16 * 4]
    else [b[0] / 4, b[0] % 4 * 16 + b[1] / 16, b[1] % 16 * 4 + b[2] / 64, b[2] % 64] + Groups(b[3..])
  }

  lemma {:induction false} EncodeIsLetters(b: seq<byte>)
    ensures |Encode(b)| == |Groups(b)| && forall i :: 0 <= i < |Encode(b)| ==> Encode(b)[i] == Letter(Groups(b)[i])
    decreases |b|
  {
    if |b| > 2 { EncodeIsLetters(b[3..]); }
  }

  lemma {:induction false} SextetsOfLetters(s: string, x: seq<int>)
    requires |s| == |x| && AreSextets(x) && forall i :: 0 <= i < |s| ==> s[i] == Letter(x[i])
    ensures Letters(s) == s && Sextets(s) == Some(x)
    decreases |s|
  {
    if |s| > 0 {
      SextetOfLetter(x[0]);
      SextetsOfLetters(s[1..], x[1..]);
      assert s == [s[0]] + s[1..] && x == [x[0]] + x[1..];
    }
  }

  lemma Regroup(x: byte, y: byte, z: byte)
    ensures x / 4 * 4 + (x % 4 * 16 + y / 16) / 16 == x
    ensures (x % 4 * 16 + y / 16) % 16 * 16 + (y % 16 * 4 + z / 64) / 4 == y
    ensures (y % 16 * 4 + z / 64) % 4 * 64 + z % 64 == z
  {
  }

  lemma OctetsOfFour(x0: int, x1: int, x2: int, x3: int, rest: seq<int>, b: seq<byte>, more: seq<byte>)
    requires AreSextets([x0, x1, x2, x3] + rest) && AreSextets(rest) && Octets(rest) == Some(more)
    requires b == [x0 * 4 + x1 / 16, x1 % 16 * 16 + x2 / 4, x2 % 4 * 64 + x3]
    ensures Octets([x0, x1, x2, x3] + rest) == Some(b + more)
  {
    assert ([x0, x1, x2, x3] + rest)[4..] == rest;
  }

  lemma OctetsOfOne(b0: byte)
    ensures Octets(Groups([b0])) == Some([b0])
  {
    Regroup(b0, 0, 0);
  }

  lemma OctetsOfTwo(b0: byte, b1: byte)
    ensures Octets(Groups([b0, b1])) == Some([b0, b1])
  {
    Regroup(b0, b1, 0);
  }

  lemma OctetsOfThree(b0: byte, b1: byte, b2: byte, rest: seq<byte>)
    requires Octets(Groups(rest)) == Some(rest)
    ensures Octets(Groups([b0, b1, b2] + rest)) == Some([b0, b1, b2] + rest)
  {
    Regroup(b0, b1, b2);
    assert ([b0, b1, b2] + rest)[3..] == rest;
    OctetsOfFour(b0 / 4, b0 % 4 * 16 + b1 / 16, b1 % 16 * 4 + b2 / 64, b2 % 64, Groups(rest), [b0, b1, b2], rest);
  }

  lemma {:induction false} OctetsOfGroups(b: seq<byte>)
    ensures Octets(Groups(b)) == Some(b)
    decreases |b|
  {
    if |b| == 1 {
      assert b == [b[0]];
      OctetsOfOne(b[0]);
    } else if |b| == 2 {
      assert b == [b[0], b[1]];
      OctetsOfTwo(b[0], b[1]);
    } else if |b| > 2 {
      OctetsOfGroups(b[3..]);
      assert b == [b[0], b[1], b[2]] + b[3..];
      OctetsOfThree(b[0], b[1], b[2], b[3..]);
    }
  }

  // Whatever was encoded decodes to itself, and the encoding holds no separator.
  lemma DecodeOfEncode(b: seq<byte>)
    ensures Decode(Encode(b)) == Some(b) && '$' !in Encode(b)
  {
    EncodeIsLetters(b);
    SextetsOfLetters(Encode(b), Groups(b));
    OctetsOfGroups(b);
  }

  // The standard alphabet: capitals, small letters, digits, plus and slash.
  lemma LettersExactly(n: nat)
    requires n < 64
    ensures 'A' <= Letter(n) <= 'Z' <==> n < 26
    ensures n < 26 ==> Letter(n) as int - 'A' as int == n
    ensures 26 <= n < 52 ==> 'a' <= Letter(n) <= 'z' && Letter(n) as int - 'a' as int == n - 26
    ensures 52 <= n < 62 ==> '0' <= Letter(n) <= '9' && Letter(n) as int - '0' as int == n - 52
    ensures Letter(62) == '+' && Letter(63) == '/'
  {
  }

  // Three bytes and the four groups that spell the same number, the higher digits first.
  predicate SameNumber(b0: int, b1: int, b2: int, x0: int, x1: int, x2: int, x3: int) {
    65_536 * b0 + 256 * b1 + b2 == 262_144 * x0 + 4_096 * x1 + 64 * x2 + x3
  }

  lemma Spells(u: byte, v: byte, w: byte)
    ensures SameNumber(u, v, w, u / 4, u % 4 * 16 + v / 16, v % 16 * 4 + w / 64, w % 64)
  {
    assert u == u / 4 * 4 + u % 4 && v == v / 16 * 16 + v % 16 && w == w / 64 * 64 + w % 64;
  }

  lemma {:induction false} EncodesNumbers(b: seq<byte>, k: nat)
    requires 3 * k + 2 < |b|
    ensures var x := Groups(b);
            && 4 * k + 3 < |x| == |Encode(b)|
            && SameNumber(b[3 * k], b[3 * k + 1], b[3 * k + 2], x[4 * k], x[4 * k + 1], x[4 * k + 2], x[4 * k + 3])
            && forall i :: 0 <= i < |x| ==> Encode(b)[i] == Letter(x[i])
    decreases k
  {
    EncodeIsLetters(b);
    if k == 0 {
      Spells(b[0], b[1], b[2]);
    } else {
      EncodesNumbers(b[3..], k - 1);
      TailGroups(b, 4 * k);
      TailGroups(b, 4 * k + 1);
      TailGroups(b, 4 * k + 2);
      TailGroups(b, 4 * k + 3);
    }
  }

  lemma TailGroups(b: seq<byte>, i: nat)
    requires |b| > 3 && 4 <= i
    ensures |Groups(b)| == |Groups(b[3..])| + 4
    ensures i < |Groups(b)| ==> Groups(b)[i] == Groups(b[3..])[i - 4]
  {
  }

  // Examples of section 10 of RFC 4648, without their padding.
  lemma Examples()
    ensures Encode([102]) == "Zg" && Encode([102, 111]) == "Zm8" && Encode([102, 111, 111]) == "Zm9v"
    ensures Encode([102, 111, 111, 98, 97, 114]) == "Zm9vYmFy"
  {
    assert [102, 111, 111, 98, 97, 114][3..] == [98, 97, 114];
    assert [98, 97, 114][3..] == [];
    assert [102, 111, 111][3..] == [];
  }

  lemma {:induction false} LettersOfBoth(a: string, b: string)
    ensures Letters(a + b) == Letters(a) + Letters(b)
    decreases |a|
  {
    if |a| == 0 {
      assert a + b == b;
    } else {
      LettersOfBoth(a[1..], b);
      assert (a + b)[1..] == a[1..] + b;
    }
  }

  // Line ends make no difference.
  lemma LineEndsAreSkipped(a: string, b: string)
    ensures Decode(a + "\r" + b) == Decode(a + "\n" + b) == Decode(a + b)
  {
    assert Letters("\r") == Letters("\n") == [];
    LettersOfBoth(a, b);
    LettersOfBoth(a + "\r", b);
    LettersOfBoth(a, "\r");
    LettersOfBoth(a + "\n", b);
    LettersOfBoth(a, "\n");
    assert Letters(a) + [] == Letters(a);
  }

  // A text is decoded exactly if it is of the alphabet, but for line ends, and does not
  // leave one letter over.
  lemma DecodedExactly(s: string)
    ensures Decode(s).Some?
            <==> (forall i :: 0 <= i < |Letters(s)| ==> Sextet(Letters(s)[i]).Some?) && |Letters(s)| % 4 != 1
  {
    SextetsAreSmall(Letters(s));
    SextetsExactly(Letters(s));
    if Sextets(Letters(s)).Some? { OctetsExactly(Sextets(Letters(s)).value); }
  }

  lemma {:induction false} SextetsExactly(s: string)
    ensures Sextets(s).Some? <==> forall i :: 0 <= i < |s| ==> Sextet(s[i]).Some?
    ensures Sextets(s).Some? ==>
              |Sextets(s).value| == |s| && forall i :: 0 <= i < |s| ==> Sextet(s[i]) == Some(Sextets(s).value[i])
    decreases |s|
  {
    if |s| > 0 {
      SextetsExactly(s[1..]);
      assert s == [s[0]] + s[1..];
    }
  }

  // The decoded bytes have the groups that were read, but for the bits left over.
  predicate Trimmed(y: seq<int>, x: seq<int>) {
    && |y| == |x| && (forall i :: 0 <= i < |x| - 1 ==> y[i] == x[i])
    && (|x| > 0 ==>
          y[|x| - 1] == x[|x| - 1] - x[|x| - 1] % (if |x| % 4 == 2 then 16 else if |x| % 4 == 3 then 4 else 1))
  }

  lemma ReadBack(x0: int, x1: int, x2: int, x3: int)
    requires AreSextets([x0, x1, x2, x3])
    ensures var b0, b1, b2 := x0 * 4 + x1 / 16, x1 % 16 * 16 + x2 / 4, x2 % 4 * 64 + x3;
            && 0 <= b0 < 256 && 0 <= b1 < 256 && 0 <= b2 < 256
            && b0 / 4 == x0 && b0 % 4 * 16 == x1 - x1 % 16 && b0 % 4 * 16 + b1 / 16 == x1
            && b1 % 16 * 4 == x2 - x2 % 4 && b1 % 16 * 4 + b2 / 64 == x2 && b2 % 64 == x3
  {
    var x := [x0, x1, x2, x3];
    assert 0 <= x[0] < 64 && 0 <= x[1] < 64 && 0 <= x[2] < 64 && 0 <= x[3] < 64;
  }

  lemma {:induction false} OctetsExactly(x: seq<int>)
    requires AreSextets(x)
    ensures Octets(x).Some? <==> |x| % 4 != 1
    decreases |x|
  {
    if |x| >= 4 { OctetsExactly(x[4..]); }
  }

  lemma {:induction false} GroupsOfOctets(x: seq<int>)
    requires AreSextets(x) && Octets(x).Some?
    ensures Trimmed(Groups(Octets(x).value), x)
    decreases |x|
  {
    if |x| >= 4 {
      GroupsOfOctets(x[4..]);
      GroupsOfMore(x, Octets(x[4..]).value);
    } else if |x| > 0 {
      OctetsExactly(x);
      if |x| == 2 {
        assert x == [x[0], x[1]];
        TwoRead(x[0], x[1]);
      } else {
        assert x == [x[0], x[1], x[2]];
        ThreeRead(x[0], x[1], x[2]);
      }
    }
  }

  lemma TwoRead(x0: int, x1: int)
    requires AreSextets([x0, x1, 0, 0]) && AreSextets([x0, x1])
    ensures Octets([x0, x1]).Some? && Trimmed(Groups(Octets([x0, x1]).value), [x0, x1])
  {
    ReadBack(x0, x1, 0, 0);
    GroupsOfOne(x0 * 4 + x1 / 16, x0, x1 - x1 % 16);
  }

  lemma ThreeRead(x0: int, x1: int, x2: int)
    requires AreSextets([x0, x1, x2, 0]) && AreSextets([x0, x1, x2])
    ensures Octets([x0, x1, x2]).Some? && Trimmed(Groups(Octets([x0, x1, x2]).value), [x0, x1, x2])
  {
    ReadBack(x0, x1, x2, 0);
    GroupsOfTwo(x0 * 4 + x1 / 16, x1 % 16 * 16 + x2 / 4, x0, x1, x2 - x2 % 4);
  }

  lemma GroupsOfOne(b0: byte, x0: int, x1: int)
    requires b0 / 4 == x0 && b0 % 4 * 16 == x1
    ensures Groups([b0]) == [x0, x1]
  {
  }

  lemma GroupsOfTwo(b0: byte, b1: byte, x0: int, x1: int, x2: int)
    requires b0 / 4 == x0 && b0 % 4 * 16 + b1 / 16 == x1 && b1 % 16 * 4 == x2
    ensures Groups([b0, b1]) == [x0, x1, x2]
  {
  }

  lemma GroupsOfThree(b0: byte, b1: byte, b2: byte, rest: seq<byte>, x0: int, x1: int, x2: int, x3: int)
    requires b0 / 4 == x0 && b0 % 4 * 16 + b1 / 16 == x1 && b1 % 16 * 4 + b2 / 64 == x2 && b2 % 64 == x3
    ensures Groups([b0, b1, b2] + rest) == [x0, x1, x2, x3] + Groups(rest)
  {
    assert ([b0, b1, b2] + rest)[3..] == rest;
  }

  lemma TrimmedOfMore(y: seq<int>, x: seq<int>)
    requires |x| >= 4 && Trimmed(y, x[4..])
    ensures Trimmed(x[..4] + y, x)
  {
  }

  lemma GroupsOfMore(x: seq<int>, rest: seq<byte>)
    requires AreSextets(x) && |x| >= 4 && Octets(x[4..]) == Some(rest) && Trimmed(Groups(rest), x[4..])
    ensures Trimmed(Groups(Octets(x).value), x)
  {
    ReadBack(x[0], x[1], x[2], x[3]);
    var b := Octets(x).value;
    GroupsOfThree(b[0], b[1], b[2], rest, x[0], x[1], x[2], x[3]);
    assert b == [b[0], b[1], b[2]] + rest && x[..4] == [x[0], x[1], x[2], x[3]];
    TrimmedOfMore(Groups(rest), x);
  }
}
