// How the JSON Lines stream is cut into lines, up to the first one that is too long.
module Framing {

  const MAXIMUM_LINE: nat := 64 * 1024

  // ---- Framing: a scanner whose buffer holds one byte more than the maximum ----

  datatype Scanned = Line(text: string, rest: string) | TooLong | End

  // The position of the first line feed, or the length if there is none.
  function LineFeed(s: string): (n: nat)
    ensures n <= |s| && (n < |s| ==> s[n] == '\n') && forall i :: 0 <= i < n ==> s[i] != '\n'
  {
    if |s| == 0 || s[0] == '\n' then 0 else 1 + LineFeed(s[1..])
  }

  function DropCR(raw: string): string {
    if |raw| > 0 && raw[|raw| - 1] == '\r' then raw[..|raw| - 1] else raw
  }

  // The buffer is full without a line feed in it only if the line is longer than the maximum.
  function Scan(input: string): Scanned {
    var n := LineFeed(input);
    if n > MAXIMUM_LINE then TooLong
    else if |input| == 0 then End
    else Line(DropCR(input[..n]), if n < |input| then input[n + 1..] else [])
  }

  datatype Frames = Frames(lines: seq<string>, tooLong: bool)

  function Framed(input: string): Frames
    decreases |input|
  {
    match Scan(input)
    case End => Frames([], false)
    case TooLong => Frames([], true)
    case Line(text, rest) => var f := Framed(rest); f.(lines := [text] + f.lines)
  }

  lemma FramedUnfolds(input: string)
    requires Scan(input).Line?
    ensures var scanned := Scan(input);
            && |scanned.rest| < |input|
            && Framed(input) == Frames([scanned.text] + Framed(scanned.rest).lines, Framed(scanned.rest).tooLong)
  {
  }

  lemma Joins<T>(a: seq<T>, b: seq<T>, c: seq<T>)
    ensures a + (b + c) == a + b + c
  {
  }

  // No line that the scanner returns is longer than the maximum, so the second length
  // check, on scanned lines, never applies; the stream ends at the first longer line.
  lemma {:induction false} ScannedLinesFit(input: string)
    ensures forall i :: 0 <= i < |Framed(input).lines| ==> |Framed(input).lines[i]| <= 65_536
    decreases |input|
  {
    var scanned := Scan(input);
    if scanned.Line? { ScannedLinesFit(scanned.rest); }
  }

  // ---- What the lines of an input are ----

  predicate OneLine(raw: string) {
    forall i :: 0 <= i < |raw| ==> raw[i] != '\n'
  }

  predicate Fits(raw: string) {
    |raw| <= MAXIMUM_LINE
  }

  predicate AreLines(raws: seq<string>) {
    forall i :: 0 <= i < |raws| ==> OneLine(raws[i])
  }

  function Unlines(raws: seq<string>): string {
    if |raws| == 0 then [] else raws[0] + ['\n'] + Unlines(raws[1..])
  }

  function Texts(raws: seq<string>): seq<string> {
    seq(|raws|, i requires 0 <= i < |raws| => DropCR(raws[i]))
  }

  // Every input is lines that end in a line feed, and a last one that does not.
  lemma {:induction false} EveryInputIsLines(input: string) returns (raws: seq<string>, last: string)
    ensures AreLines(raws) && OneLine(last) && input == Unlines(raws) + last
    decreases |input|
  {
    var n := LineFeed(input);
    if n == |input| {
      raws, last := [], input;
    } else {
      var rest;
      rest, last := EveryInputIsLines(input[n + 1..]);
      raws := [input[..n]] + rest;
      assert raws[1..] == rest && input == input[..n] + ['\n'] + input[n + 1..];
      assert Unlines(raws) + last == input[..n] + ['\n'] + (Unlines(rest) + last);
    }
  }

  lemma LineComesFirst(raw: string, rest: string)
    requires OneLine(raw) && Fits(raw)
    ensures Scan(raw + ['\n'] + rest) == Line(DropCR(raw), rest)
  {
    var input := raw + ['\n'] + rest;
    assert input[|raw|] == '\n';
    forall i | 0 <= i < |raw| ensures input[i] != '\n' { assert input[i] == raw[i]; }
    assert LineFeed(input) == |raw| && input[..|raw|] == raw && input[|raw| + 1..] == rest;
  }

  lemma OneLineFirst(raw: string, rest: string)
    requires OneLine(raw) && Fits(raw)
    ensures var f := Framed(rest); Framed(raw + ['\n'] + rest) == Frames([DropCR(raw)] + f.lines, f.tooLong)
  {
    LineComesFirst(raw, rest);
    FramedUnfolds(raw + ['\n'] + rest);
  }

  lemma UnlinesFirst(raws: seq<string>, rest: string)
    requires |raws| > 0
    ensures Unlines(raws) + rest == raws[0] + ['\n'] + (Unlines(raws[1..]) + rest)
  {
    Joins(raws[0] + ['\n'], Unlines(raws[1..]), rest);
  }

  lemma TextsFirst(raws: seq<string>)
    requires |raws| > 0
    ensures Texts(raws) == [DropCR(raws[0])] + Texts(raws[1..])
  {
  }

  lemma {:induction false} ShortLinesComeFirst(raws: seq<string>, rest: string)
    requires AreLines(raws) && forall i :: 0 <= i < |raws| ==> Fits(raws[i])
    ensures Framed(Unlines(raws) + rest) == Frames(Texts(raws) + Framed(rest).lines, Framed(rest).tooLong)
    decreases |raws|
  {
    if |raws| == 0 {
      assert Unlines(raws) + rest == rest && Texts(raws) + Framed(rest).lines == Framed(rest).lines;
    } else {
      UnlinesFirst(raws, rest);
      TextsFirst(raws);
      OneLineFirst(raws[0], Unlines(raws[1..]) + rest);
      ShortLinesComeFirst(raws[1..], rest);
      Joins([DropCR(raws[0])], Texts(raws[1..]), Framed(rest).lines);
    }
  }

  // Short lines are scanned as they were written, up to their carriage returns, whether
  // or not a line feed ends the last one.
  lemma WrittenLinesAreScanned(raws: seq<string>, last: string)
    requires AreLines(raws) && (forall i :: 0 <= i < |raws| ==> Fits(raws[i])) && OneLine(last) && Fits(last)
    ensures Framed(Unlines(raws) + last) == Frames(Texts(raws) + if last == "" then [] else [DropCR(last)], false)
  {
    ShortLinesComeFirst(raws, last);
    LastLine(last);
  }

  lemma LastLine(last: string)
    requires OneLine(last)
    ensures Framed(last) == if !Fits(last) then Frames([], true)
                            else Frames(if last == "" then [] else [DropCR(last)], false)
  {
    assert LineFeed(last) == |last|;
    if last != "" && Fits(last) {
      assert last[..|last|] == last;
      FramedUnfolds(last);
    }
  }

  // The first line that is too long ends the stream, whatever follows it: the lines
  // before it are scanned and nothing else is.
  lemma LongLineEnds(raws: seq<string>, long: string, tail: string)
    requires AreLines(raws) && (forall i :: 0 <= i < |raws| ==> Fits(raws[i])) && OneLine(long) && !Fits(long)
    ensures Framed(Unlines(raws) + long + tail) == Frames(Texts(raws), true)
  {
    assert Unlines(raws) + long + tail == Unlines(raws) + (long + tail);
    ShortLinesComeFirst(raws, long + tail);
    forall i | 0 <= i < |long| ensures (long + tail)[i] != '\n' { assert (long + tail)[i] == long[i]; }
    assert LineFeed(long + tail) >= |long|;
    assert Texts(raws) + [] == Texts(raws);
  }

  // The text of a line is the line without the one carriage return it may end in.
  lemma CarriageReturns(raw: string, text: string)
    ensures DropCR(raw) == text
            <==> (raw == text + ['\r'] || (raw == text && (raw == "" || raw[|raw| - 1] != '\r')))
  {
    if raw == text + ['\r'] { assert raw[..|raw| - 1] == text; }
  }

  // The number of lines before the first that is too long.
  function Fitting(raws: seq<string>): (n: nat)
    ensures n <= |raws| && (forall i :: 0 <= i < n ==> Fits(raws[i])) && (n < |raws| ==> !Fits(raws[n]))
  {
    if |raws| == 0 || !Fits(raws[0]) then 0 else 1 + Fitting(raws[1..])
  }

  lemma {:induction false} SplitAt(raws: seq<string>, n: nat)
    requires n < |raws|
    ensures Unlines(raws) == Unlines(raws[..n]) + raws[n] + (['\n'] + Unlines(raws[n + 1..]))
    decreases n
  {
    if n == 0 {
      assert raws[..0] == [];
    } else {
      SplitAt(raws[1..], n - 1);
      assert raws[1..][..n - 1] == raws[..n][1..] && raws[1..][n..] == raws[n + 1..];
    }
  }

  // Framing, for every input: it fails if and only if some line is longer than the
  // maximum, and gives the texts of all lines before the first such.
  lemma FramedExactly(raws: seq<string>, last: string)
    requires AreLines(raws) && OneLine(last)
    ensures var f := Framed(Unlines(raws) + last);
            && (f.tooLong <==> |last| > 65_536 || exists i :: 0 <= i < |raws| && |raws[i]| > 65_536)
            && f.lines == Texts(raws[..Fitting(raws)])
                        + if Fitting(raws) < |raws| || !Fits(last) || last == "" then [] else [DropCR(last)]
  {
    var n := Fitting(raws);
    if n < |raws| {
      var tail := ['\n'] + Unlines(raws[n + 1..]) + last;
      SplitAt(raws, n);
      assert Unlines(raws) + last == Unlines(raws[..n]) + raws[n] + tail;
      LongLineEnds(raws[..n], raws[n], tail);
    } else {
      assert raws[..n] == raws;
      ShortLinesComeFirst(raws, last);
      LastLine(last);
    }
  }
}
