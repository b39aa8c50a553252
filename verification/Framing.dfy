/**
 Newline framing over a byte stream: what the segments of a stream are, however it was cut into
 chunks, and that encoded messages come out of the stream one by one.
 */
module Framing {
  type Byte = b: int | 0 <= b < 256

  type Line = seq<Byte>

  const NEWLINE: Byte := 10

  /** Where the first newline is, or the length if there is none. */
  function Newline(s: seq<Byte>): (i: nat)
    ensures i <= |s| && NEWLINE !in s[..i] && (i < |s| ==> s[i] == NEWLINE)
  {
    if s == [] || s[0] == NEWLINE then 0
    else
      var i := Newline(s[1..]);
      assert s[..i + 1] == [s[0]] + s[1..][..i];
      i + 1
  }

  /** The newline-terminated segments, in order. */
  function Lines(s: seq<Byte>): (lines: seq<Line>)
    decreases |s|
  {
    var i := Newline(s);
    if i == |s| then [] else [s[..i]] + Lines(s[i + 1..])
  }

  /** What follows the last newline. */
  function Tail(s: seq<Byte>): (tail: seq<Byte>)
    ensures NEWLINE !in tail && |tail| <= |s|
    decreases |s|
  {
    var i := Newline(s);
    if i == |s| then s else Tail(s[i + 1..])
  }

  predicate Space(b: Byte) {
    9 <= b <= 13 || b == 32
  }

  predicate Blank(line: Line) {
    forall b :: b in line ==> Space(b)
  }

  /** What `bytes.strip` takes away: a tab, a newline, the two feeds, a return and a space. */
  lemma BlankIff(line: Line)
    ensures Blank(line) <==> forall i :: 0 <= i < |line| ==> line[i] in {9, 10, 11, 12, 13, 32}
  {
    if Blank(line) {
      forall i | 0 <= i < |line| ensures line[i] in {9, 10, 11, 12, 13, 32} {
        assert line[i] in line;
      }
    } else {
      var b :| b in line && !Space(b);
      var i :| 0 <= i < |line| && line[i] == b;
    }
  }

  function NonBlank(lines: seq<Line>): seq<Line> {
    if lines == [] then []
    else (if Blank(lines[0]) then [] else [lines[0]]) + NonBlank(lines[1..])
  }

  /** The segments a reader acts on. */
  function Frames(s: seq<Byte>): seq<Line> {
    NonBlank(Lines(s))
  }

  function Concat(chunks: seq<seq<Byte>>): seq<Byte> {
    if chunks == [] then [] else chunks[0] + Concat(chunks[1..])
  }

  // ---------------------------------------------------------------------------------------------
  // Cutting a stream

  lemma {:induction false} NewlineAt(a: seq<Byte>, b: seq<Byte>)
    requires NEWLINE !in a
    ensures Newline(a + [NEWLINE] + b) == |a|
  {
    var s := a + [NEWLINE] + b;
    if a != [] {
      assert s[0] == a[0] && a[0] in a && s[1..] == a[1..] + [NEWLINE] + b;
      NewlineAt(a[1..], b);
    }
  }

  /** Taking the first segment off changes neither the other segments nor the tail. */
  lemma FirstLine(line: Line, rest: seq<Byte>)
    requires NEWLINE !in line
    ensures Lines(line + [NEWLINE] + rest) == [line] + Lines(rest)
    ensures Tail(line + [NEWLINE] + rest) == Tail(rest)
  {
    NewlineAt(line, rest);
    var s := line + [NEWLINE] + rest;
    assert s[..|line|] == line && s[|line| + 1..] == rest;
  }

  lemma NoLine(s: seq<Byte>)
    requires NEWLINE !in s
    ensures Lines(s) == [] && Tail(s) == s && Newline(s) == |s|
  {
  }

  lemma Rejoin(s: seq<Byte>, i: nat)
    requires i < |s|
    ensures s == s[..i] + [s[i]] + s[i + 1..]
  {
  }

  /** A stream may be cut anywhere if the tail of the first part is put before the second. */
  lemma {:induction false} CutAnywhere(a: seq<Byte>, b: seq<Byte>)
    ensures Lines(a + b) == Lines(a) + Lines(Tail(a) + b)
    ensures Tail(a + b) == Tail(Tail(a) + b)
    decreases |a|
  {
    hide Lines, Tail, Newline;
    var i := Newline(a);
    if i == |a| {
      assert a == a[..i];
      NoLine(a);
      assert [] + Lines(a + b) == Lines(a + b);
    } else {
      var line, rest := a[..i], a[i + 1..];
      Rejoin(a, i);
      FirstLine(line, rest);
      CutAnywhere(rest, b);
      FirstLine(line, rest + b);
      assert a + b == line + [NEWLINE] + (rest + b);
      assert Lines(a + b) == [line] + Lines(rest + b);
      assert [line] + (Lines(rest) + Lines(Tail(rest) + b)) == ([line] + Lines(rest)) + Lines(Tail(rest) + b);
    }
  }

  lemma {:induction false} NonBlankConcat(a: seq<Line>, b: seq<Line>)
    ensures NonBlank(a + b) == NonBlank(a) + NonBlank(b)
  {
    hide Blank;
    if a == [] {
      assert a + b == b;
    } else {
      NonBlankConcat(a[1..], b);
      assert (a + b)[1..] == a[1..] + b;
      var first := if Blank(a[0]) then [] else [a[0]];
      assert first + (NonBlank(a[1..]) + NonBlank(b)) == (first + NonBlank(a[1..])) + NonBlank(b);
    }
  }

  lemma CutFrames(a: seq<Byte>, b: seq<Byte>)
    ensures Frames(a + b) == Frames(a) + Frames(Tail(a) + b)
    ensures Tail(a + b) == Tail(Tail(a) + b)
  {
    CutAnywhere(a, b);
    NonBlankConcat(Lines(a), Lines(Tail(a) + b));
  }

  /** One turn of a reader's loop: take the first segment and, unless it is blank, act on it. */
  lemma FirstFrame(s: seq<Byte>)
    requires Newline(s) < |s|
    ensures var line, rest := s[..Newline(s)], s[Newline(s) + 1..];
      Frames(s) == (if Blank(line) then [] else [line]) + Frames(rest) && Tail(s) == Tail(rest)
  {
    hide Newline, Lines, Tail;
    var line, rest := s[..Newline(s)], s[Newline(s) + 1..];
    Rejoin(s, Newline(s));
    FirstLine(line, rest);
    NonBlankConcat([line], Lines(rest));
    assert NonBlank([line]) == if Blank(line) then [] else [line];
  }

  lemma LastFrame(s: seq<Byte>)
    requires Newline(s) == |s|
    ensures Frames(s) == [] && Tail(s) == s
  {
    assert s == s[..Newline(s)];
    NoLine(s);
  }

  // ---------------------------------------------------------------------------------------------
  // Encoded messages

  /** A JSON object as text: never blank, and every newline in it is escaped. */
  predicate Message(body: Line) {
    NEWLINE !in body && !Blank(body)
  }

  /** `_encode`, applied to each message in turn. */
  function Encode(bodies: seq<Line>): seq<Byte> {
    if bodies == [] then [] else bodies[0] + [NEWLINE] + Encode(bodies[1..])
  }

  lemma {:induction false} EncodedLines(bodies: seq<Line>)
    requires forall body :: body in bodies ==> Message(body)
    ensures Lines(Encode(bodies)) == bodies && Tail(Encode(bodies)) == [] && NonBlank(bodies) == bodies
  {
    if bodies != [] {
      hide Lines, Tail;
      assert Message(bodies[0]);
      EncodedLines(bodies[1..]);
      FirstLine(bodies[0], Encode(bodies[1..]));
    }
  }

  lemma EncodedFrames(bodies: seq<Line>)
    requires forall body :: body in bodies ==> Message(body)
    ensures Frames(Encode(bodies)) == bodies && Tail(Encode(bodies)) == []
  {
    EncodedLines(bodies);
  }

  /** Wherever an encoded stream is cut, what is pending is shorter than some encoded message. */
  lemma {:induction false} PendingIsPartial(bodies: seq<Line>, cut: nat, limit: nat)
    requires forall body :: body in bodies ==> Message(body) && |body| < limit
    requires cut <= |Encode(bodies)| && limit > 0
    ensures |Tail(Encode(bodies)[..cut])| < limit
  {
    if bodies != [] {
      hide Lines, Newline;
      var line, rest := bodies[0], Encode(bodies[1..]);
      var s := line + [NEWLINE] + rest;
      if cut <= |line| {
        assert s[..cut] == line[..cut];
        assert forall b :: b in line[..cut] ==> b in line;
        NoLine(line[..cut]);
      } else {
        var more := cut - |line| - 1;
        PendingIsPartial(bodies[1..], more, limit);
        assert s[..cut] == line + [NEWLINE] + rest[..more];
        FirstLine(line, rest[..more]);
      }
    }
  }
}
