/**
 onedriveui/platform/ipc.py: the server's side.  One buffer, one count of bad requests and one
 subscription per peer; every chunk is cut into lines and each line is dispatched.
 */
module IpcServerSide {
  import opened Basics
  import opened Framing

  const MAX_LINE_BYTES: nat := 4 * 1024 * 1024
  const MAX_BAD_REQUESTS: nat := 8

  /**
   What `_dispatch` makes of a line; reading JSON is left to the caller.  `Raises` is an exception that
   leaves it, as for an `op` that cannot be hashed: nothing is counted, and the loop is left as well.
   */
  datatype Verdict = Malformed | Hello | Other | Raises

  type Judge = Line -> Verdict

  /** Everything the server knows of one peer.  `buffer` is empty once the peer is not served. */
  datatype Peer = Peer(served: bool, buffer: seq<Byte>, bad: nat, subscribed: bool)

  const FORGOTTEN := Peer(false, [], 0, false)
  const CONNECTED := Peer(true, [], 0, false)

  /** One dispatched line. */
  function AfterLine(p: Peer, v: Verdict): Peer {
    match v
    case Hello => p.(subscribed := true)
    case Other | Raises => p
    case Malformed => if p.bad + 1 >= MAX_BAD_REQUESTS then FORGOTTEN else p.(bad := p.bad + 1)
  }

  function AfterLines(p: Peer, lines: seq<Line>, judge: Judge): Peer
    decreases |lines|
  {
    if lines == [] then p else AfterLines(AfterLine(p, judge(lines[0])), lines[1..], judge)
  }

  predicate Overflows(p: Peer, chunk: seq<Byte>) {
    |p.buffer + chunk| > MAX_LINE_BYTES
  }

  /** A line that is dispatched, and then raises. */
  predicate Breaks(line: Line, judge: Judge) {
    !Blank(line) && judge(line).Raises?
  }

  /** The lines that the loop over a buffer dispatches: up to the first that raises. */
  function Taken(s: seq<Byte>, judge: Judge): seq<Line>
    decreases |s|
  {
    var i := Newline(s);
    if i == |s| then []
    else if Breaks(s[..i], judge) then [s[..i]]
    else (if Blank(s[..i]) then [] else [s[..i]]) + Taken(s[i + 1..], judge)
  }

  /** What the loop leaves in the buffer: what follows that line, or else the last newline. */
  function Left(s: seq<Byte>, judge: Judge): seq<Byte>
    decreases |s|
  {
    var i := Newline(s);
    if i == |s| then s
    else if Breaks(s[..i], judge) then s[i + 1..]
    else Left(s[i + 1..], judge)
  }

  /** The lines one `readyRead` dispatches. */
  function Dispatched(p: Peer, chunk: seq<Byte>, judge: Judge): seq<Line> {
    if !p.served || Overflows(p, chunk) then [] else Taken(p.buffer + chunk, judge)
  }

  /** The peer after one `readyRead`: lines already received are dispatched even to a peer just dropped. */
  function AfterChunk(p: Peer, chunk: seq<Byte>, judge: Judge): Peer {
    if !p.served then p
    else if Overflows(p, chunk) then FORGOTTEN
    else
      var after := AfterLines(p.(buffer := []), Taken(p.buffer + chunk, judge), judge);
      if after.served then after.(buffer := Left(p.buffer + chunk, judge)) else after
  }

  function AfterChunks(p: Peer, chunks: seq<seq<Byte>>, judge: Judge): Peer
    decreases |chunks|
  {
    if chunks == [] then p else AfterChunks(AfterChunk(p, chunks[0], judge), chunks[1..], judge)
  }

  function AllDispatched(p: Peer, chunks: seq<seq<Byte>>, judge: Judge): seq<Line>
    decreases |chunks|
  {
    if chunks == [] then []
    else Dispatched(p, chunks[0], judge) + AllDispatched(AfterChunk(p, chunks[0], judge), chunks[1..], judge)
  }

  function Bad(lines: seq<Line>, judge: Judge): nat {
    if lines == [] then 0 else (if judge(lines[0]).Malformed? then 1 else 0) + Bad(lines[1..], judge)
  }

  predicate SaysHello(lines: seq<Line>, judge: Judge) {
    exists i :: 0 <= i < |lines| && judge(lines[i]).Hello?
  }

  /** No chunk, together with what was pending before it, is longer than the limit. */
  predicate Fits(pending: seq<Byte>, chunks: seq<seq<Byte>>, judge: Judge)
    decreases |chunks|
  {
    chunks == []
    || (|pending + chunks[0]| <= MAX_LINE_BYTES && Fits(Left(pending + chunks[0], judge), chunks[1..], judge))
  }

  /** The lines that are dispatched of these chunks, were the peer never dropped. */
  function Handled(pending: seq<Byte>, chunks: seq<seq<Byte>>, judge: Judge): seq<Line>
    decreases |chunks|
  {
    if chunks == [] then []
    else Taken(pending + chunks[0], judge) + Handled(Left(pending + chunks[0], judge), chunks[1..], judge)
  }

  /** What is pending behind them. */
  function Pending(pending: seq<Byte>, chunks: seq<seq<Byte>>, judge: Judge): seq<Byte>
    decreases |chunks|
  {
    if chunks == [] then pending else Pending(Left(pending + chunks[0], judge), chunks[1..], judge)
  }

  // ---------------------------------------------------------------------------------------------
  // A line that raises

  /** What is dispatched and what stays behind are together the lines of the buffer. */
  lemma {:induction false} TakenAndLeft(s: seq<Byte>, judge: Judge)
    ensures Taken(s, judge) + Frames(Left(s, judge)) == Frames(s) && Tail(Left(s, judge)) == Tail(s)
    decreases |s|
  {
    hide Lines, Tail, Newline, Frames, Blank;
    var i := Newline(s);
    if i == |s| {
      LastFrame(s);
    } else {
      FirstFrame(s);
      var line, rest := s[..i], s[i + 1..];
      if !Breaks(line, judge) {
        TakenAndLeft(rest, judge);
        var first := if Blank(line) then [] else [line];
        var taken, left := Taken(rest, judge), Frames(Left(rest, judge));
        assert first + (taken + left) == first + taken + left;
      }
    }
  }

  /** No line that raises is followed by another complete segment of the buffer. */
  predicate Unbroken(s: seq<Byte>, judge: Judge) {
    forall k :: 0 <= k < |Lines(s)| - 1 ==> !Breaks(Lines(s)[k], judge)
  }

  lemma {:induction false} LeftIsTailIff(s: seq<Byte>, judge: Judge)
    ensures NEWLINE !in Left(s, judge) <==> Unbroken(s, judge)
    decreases |s|
  {
    hide Breaks, Newline;
    var i := Newline(s);
    if i < |s| {
      var line, rest := s[..i], s[i + 1..];
      FirstSegment(s);
      if Breaks(line, judge) {
        NoMoreLines(rest);
        assert Lines(s)[0] == line;
      } else {
        LeftIsTailIff(rest, judge);
        LaterLines(line, Lines(rest), judge);
      }
    } else {
      WholeIsTail(s);
    }
  }

  lemma FirstSegment(s: seq<Byte>)
    requires Newline(s) < |s|
    ensures Lines(s) == [s[..Newline(s)]] + Lines(s[Newline(s) + 1..])
  {
    hide Newline;
  }

  lemma WholeIsTail(s: seq<Byte>)
    requires Newline(s) == |s|
    ensures NEWLINE !in s && Lines(s) == []
  {
    assert s[..|s|] == s;
  }

  /**
   The loop over a buffer dispatches every line that is not blank and leaves a tail without a newline
   exactly when no line that raises is followed by another complete segment.
   */
  lemma LoopEndsIff(s: seq<Byte>, judge: Judge)
    ensures Taken(s, judge) == Frames(s) && NEWLINE !in Left(s, judge) <==> Unbroken(s, judge)
    ensures NEWLINE !in Left(s, judge) <==> Unbroken(s, judge)
    ensures Unbroken(s, judge) ==> Left(s, judge) == Tail(s)
  {
    hide Tail, Frames, Taken, Left, Unbroken;
    TakenAndLeft(s, judge);
    LeftIsTailIff(s, judge);
    if NEWLINE !in Left(s, judge) {
      QuietTail(Left(s, judge));
    }
  }

  lemma LaterLines(line: Line, lines: seq<Line>, judge: Judge)
    requires !Breaks(line, judge)
    ensures (forall k :: 0 <= k < |[line] + lines| - 1 ==> !Breaks(([line] + lines)[k], judge))
       <==> (forall k :: 0 <= k < |lines| - 1 ==> !Breaks(lines[k], judge))
  {
    hide Breaks;
    forall k | 0 <= k < |lines| ensures ([line] + lines)[k + 1] == lines[k] {
    }
  }

  lemma NoMoreLines(s: seq<Byte>)
    ensures NEWLINE !in s <==> Lines(s) == []
  {
    if Newline(s) == |s| {
      WholeIsTail(s);
    }
  }

  lemma QuietTail(s: seq<Byte>)
    requires NEWLINE !in s
    ensures Frames(s) == [] && Tail(s) == s
  {
    NoLine(s);
  }

  /** Over a whole stream nothing is lost and nothing is reordered, however it is cut. */
  lemma {:induction false} HandledAndPending(pending: seq<Byte>, chunks: seq<seq<Byte>>, judge: Judge)
    ensures var stream := pending + Concat(chunks);
      && Handled(pending, chunks, judge) + Frames(Pending(pending, chunks, judge)) == Frames(stream)
      && Tail(Pending(pending, chunks, judge)) == Tail(stream)
    decreases |chunks|
  {
    hide Frames, Tail, Taken, Left;
    if chunks == [] {
      assert pending + Concat(chunks) == pending;
    } else {
      var first, rest := pending + chunks[0], chunks[1..];
      var left := Left(first, judge);
      HandledAndPending(left, rest, judge);
      TakenAndLeft(first, judge);
      CutFrames(first, Concat(rest));
      CutFrames(left, Concat(rest));
      assert pending + Concat(chunks) == first + Concat(rest);
      var taken, more := Taken(first, judge), Frames(Tail(first) + Concat(rest));
      assert taken + (Frames(left) + more) == taken + Frames(left) + more;
      var handled, last := Handled(left, rest, judge), Frames(Pending(left, rest, judge));
      assert taken + (handled + last) == taken + handled + last;
    }
  }

  /** At the end all complete lines are dispatched exactly when the last buffer is unbroken. */
  predicate EndsUnbroken(pending: seq<Byte>, chunks: seq<seq<Byte>>, judge: Judge)
    requires chunks != []
    decreases |chunks|
  {
    if |chunks| == 1 then Unbroken(pending + chunks[0], judge)
    else EndsUnbroken(Left(pending + chunks[0], judge), chunks[1..], judge)
  }

  lemma {:induction false} StreamEndsIff(pending: seq<Byte>, chunks: seq<seq<Byte>>, judge: Judge)
    requires chunks != []
    ensures var stream := pending + Concat(chunks);
      Handled(pending, chunks, judge) == Frames(stream) && NEWLINE !in Pending(pending, chunks, judge)
      <==> EndsUnbroken(pending, chunks, judge)
    ensures NEWLINE !in Pending(pending, chunks, judge) <==> EndsUnbroken(pending, chunks, judge)
    decreases |chunks|
  {
    hide Frames, Tail, Taken, Left, Unbroken;
    var first, rest := pending + chunks[0], chunks[1..];
    HandledAndPending(pending, chunks, judge);
    if |chunks| == 1 {
      LoopEndsIff(first, judge);
      assert Pending(pending, chunks, judge) == Left(first, judge);
    } else {
      StreamEndsIff(Left(first, judge), rest, judge);
    }
    if NEWLINE !in Pending(pending, chunks, judge) {
      QuietTail(Pending(pending, chunks, judge));
    }
  }

  /** A stream without such lines is cut into lines as if there were none: nothing waits but the tail. */
  lemma {:induction false} CalmStream(pending: seq<Byte>, chunks: seq<seq<Byte>>, judge: Judge)
    requires NEWLINE !in pending
    requires forall line :: line in Lines(pending + Concat(chunks)) ==> !Breaks(line, judge)
    ensures Handled(pending, chunks, judge) == Frames(pending + Concat(chunks))
    ensures Pending(pending, chunks, judge) == Tail(pending + Concat(chunks))
    decreases |chunks|
  {
    hide Frames, Tail, Breaks, Lines;
    HandledAndPending(pending, chunks, judge);
    if chunks == [] {
      assert pending + Concat(chunks) == pending;
      QuietTail(pending);
    } else {
      var first, rest := pending + chunks[0], chunks[1..];
      assert pending + Concat(chunks) == first + Concat(rest);
      CutAnywhere(first, Concat(rest));
      LoopEndsIff(first, judge);
      hide Taken, Left;
      CalmStream(Left(first, judge), rest, judge);
      QuietTail(Pending(pending, chunks, judge));
    }
  }

  // ---------------------------------------------------------------------------------------------
  // Chunks do not matter

  lemma {:induction false} BadConcat(a: seq<Line>, b: seq<Line>, judge: Judge)
    ensures Bad(a + b, judge) == Bad(a, judge) + Bad(b, judge)
    ensures SaysHello(a + b, judge) == (SaysHello(a, judge) || SaysHello(b, judge))
  {
    assert forall i :: 0 <= i < |b| ==> (a + b)[|a| + i] == b[i];
    assert forall i :: 0 <= i < |a| ==> (a + b)[i] == a[i];
    if a == [] {
      assert a + b == b;
    } else {
      BadConcat(a[1..], b, judge);
      assert (a + b)[1..] == a[1..] + b;
    }
  }

  lemma {:induction false} NeverServedAgain(p: Peer, lines: seq<Line>, judge: Judge)
    requires !p.served
    ensures !AfterLines(p, lines, judge).served
    decreases |lines|
  {
    if lines != [] {
      NeverServedAgain(AfterLine(p, judge(lines[0])), lines[1..], judge);
    }
  }

  /** A peer is dropped at its eighth bad line, and until then everything it said was counted. */
  lemma {:induction false} LinesCounted(p: Peer, lines: seq<Line>, judge: Judge)
    requires p.served && p.bad < MAX_BAD_REQUESTS
    ensures var after, bad := AfterLines(p, lines, judge), p.bad + Bad(lines, judge);
      && (after.served <==> bad < MAX_BAD_REQUESTS)
      && (after.served ==> after == Peer(true, p.buffer, bad, p.subscribed || SaysHello(lines, judge)))
    decreases |lines|
  {
    if lines != [] {
      var q := AfterLine(p, judge(lines[0]));
      assert [lines[0]] + lines[1..] == lines;
      BadConcat([lines[0]], lines[1..], judge);
      assert [lines[0]][0] == lines[0];
      if q.served {
        LinesCounted(q, lines[1..], judge);
      } else {
        NeverServedAgain(q, lines[1..], judge);
      }
    }
  }

  lemma {:induction false} StaysDropped(p: Peer, chunks: seq<seq<Byte>>, judge: Judge)
    requires !p.served
    ensures AfterChunks(p, chunks, judge) == p && AllDispatched(p, chunks, judge) == []
  {
    if chunks != [] {
      StaysDropped(p, chunks[1..], judge);
    }
  }

  /**
   However a stream is cut, and whatever its lines do: a peer is still served at the end iff nothing it
   sent overflowed the buffer and fewer than eight of the handled lines were bad.  Then exactly these
   were dispatched, and they and the lines still pending are the non-blank lines of the whole stream,
   in order; otherwise a prefix of the stream's lines was dispatched.
   */
  lemma {:induction false} ChunksDoNotMatter(p: Peer, chunks: seq<seq<Byte>>, judge: Judge)
    requires p.served && p.bad < MAX_BAD_REQUESTS
    ensures var handled, pending := Handled(p.buffer, chunks, judge), Pending(p.buffer, chunks, judge);
      var after, bad := AfterChunks(p, chunks, judge), p.bad + Bad(handled, judge);
      && (after.served <==> Fits(p.buffer, chunks, judge) && bad < MAX_BAD_REQUESTS)
      && AllDispatched(p, chunks, judge) <= handled
      && handled + Frames(pending) == Frames(p.buffer + Concat(chunks))
      && Tail(pending) == Tail(p.buffer + Concat(chunks))
      && (after.served ==>
           && AllDispatched(p, chunks, judge) == handled
           && after == Peer(true, pending, bad, p.subscribed || SaysHello(handled, judge)))
    decreases |chunks|
  {
    hide Frames, Tail, Bad, SaysHello, AfterChunk, Taken, Left;
    HandledAndPending(p.buffer, chunks, judge);
    if chunks == [] {
      NothingSaid(judge);
    } else {
      var first, rest := p.buffer + chunks[0], chunks[1..];
      var q := AfterChunk(p, chunks[0], judge);
      BadConcat(Taken(first, judge), Handled(Left(first, judge), rest, judge), judge);
      OneChunk(p, chunks[0], judge);
      if q.served {
        ChunksDoNotMatter(q, rest, judge);
      } else {
        StaysDropped(q, rest, judge);
      }
    }
  }

  lemma NothingSaid(judge: Judge)
    ensures Bad([], judge) == 0 && !SaysHello([], judge)
  {
  }

  lemma OneChunk(p: Peer, chunk: seq<Byte>, judge: Judge)
    requires p.served && p.bad < MAX_BAD_REQUESTS
    ensures var lines := Taken(p.buffer + chunk, judge);
      var after, bad := AfterChunk(p, chunk, judge), p.bad + Bad(lines, judge);
      && (after.served <==> !Overflows(p, chunk) && bad < MAX_BAD_REQUESTS)
      && (after.served ==>
           after == Peer(true, Left(p.buffer + chunk, judge), bad, p.subscribed || SaysHello(lines, judge)))
  {
    hide Taken, Left;
    LinesCounted(p.(buffer := []), Taken(p.buffer + chunk, judge), judge);
  }

  /** Two ways of cutting one stream that both fit leave one state exactly when they leave the same bytes pending. */
  lemma AnyTwoCutsAgree(p: Peer, some: seq<seq<Byte>>, others: seq<seq<Byte>>, judge: Judge)
    requires p.served && p.bad < MAX_BAD_REQUESTS && Concat(some) == Concat(others)
    requires AfterChunks(p, some, judge).served && AfterChunks(p, others, judge).served
    ensures AfterChunks(p, some, judge) == AfterChunks(p, others, judge)
       <==> Pending(p.buffer, some, judge) == Pending(p.buffer, others, judge)
    ensures Pending(p.buffer, some, judge) == Pending(p.buffer, others, judge) ==>
      AllDispatched(p, some, judge) == AllDispatched(p, others, judge)
  {
    hide *;
    ChunksDoNotMatter(p, some, judge);
    ChunksDoNotMatter(p, others, judge);
    if Pending(p.buffer, some, judge) == Pending(p.buffer, others, judge) {
      SamePrefix(Handled(p.buffer, some, judge), Handled(p.buffer, others, judge),
                 Frames(Pending(p.buffer, some, judge)));
    }
  }

  lemma SamePrefix<T>(a: seq<T>, b: seq<T>, c: seq<T>)
    requires a + c == b + c
    ensures a == b
  {
    assert |a| == |b|;
    assert a == (a + c)[..|a|] && b == (b + c)[..|b|];
  }

  /** So they do where both last buffers are unbroken, as they always are without a line that raises. */
  lemma UnbrokenCutsAgree(p: Peer, some: seq<seq<Byte>>, others: seq<seq<Byte>>, judge: Judge)
    requires p.served && p.bad < MAX_BAD_REQUESTS && Concat(some) == Concat(others) && some != [] && others != []
    requires AfterChunks(p, some, judge).served && AfterChunks(p, others, judge).served
    requires EndsUnbroken(p.buffer, some, judge) && EndsUnbroken(p.buffer, others, judge)
    ensures AfterChunks(p, some, judge) == AfterChunks(p, others, judge)
    ensures AllDispatched(p, some, judge) == AllDispatched(p, others, judge) == Frames(p.buffer + Concat(some))
  {
    hide *;
    StreamEndsIff(p.buffer, some, judge);
    StreamEndsIff(p.buffer, others, judge);
    HandledAndPending(p.buffer, some, judge);
    HandledAndPending(p.buffer, others, judge);
    QuietTail(Pending(p.buffer, some, judge));
    QuietTail(Pending(p.buffer, others, judge));
    AnyTwoCutsAgree(p, some, others, judge);
    ChunksDoNotMatter(p, some, judge);
  }

  // ---------------------------------------------------------------------------------------------
  // After a peer is dropped

  lemma {:induction false} LinesConcat(p: Peer, a: seq<Line>, b: seq<Line>, judge: Judge)
    ensures AfterLines(p, a + b, judge) == AfterLines(AfterLines(p, a, judge), b, judge)
    decreases |a|
  {
    if a == [] {
      assert a + b == b;
    } else {
      LinesConcat(AfterLine(p, judge(a[0])), a[1..], b, judge);
      assert (a + b)[0] == a[0] && (a + b)[1..] == a[1..] + b;
    }
  }

  lemma BadFirst(lines: seq<Line>, judge: Judge)
    requires lines != []
    ensures Bad(lines, judge) == (if judge(lines[0]).Malformed? then 1 else 0) + Bad(lines[1..], judge)
    ensures SaysHello(lines, judge) == (judge(lines[0]).Hello? || SaysHello(lines[1..], judge))
  {
    assert lines == [lines[0]] + lines[1..];
    BadConcat([lines[0]], lines[1..], judge);
    assert [lines[0]][0] == lines[0];
  }

  lemma {:induction false} NoBad(judge: Judge)
    ensures Bad([], judge) == 0
  {
  }

  lemma {:induction false} NextCount(p: Peer, v: Verdict)
    requires p.bad < MAX_BAD_REQUESTS
    ensures AfterLine(p, v).bad == (p.bad + if v.Malformed? then 1 else 0) % MAX_BAD_REQUESTS
  {
  }

  lemma {:induction false} AddModulo(a: nat, b: nat)
    ensures (a % MAX_BAD_REQUESTS + b) % MAX_BAD_REQUESTS == (a + b) % MAX_BAD_REQUESTS
  {
  }

  /** Every eighth bad line forgets the peer, and the count starts again with the lines behind it. */
  lemma {:induction false} CountModulo(p: Peer, lines: seq<Line>, judge: Judge)
    requires p.bad < MAX_BAD_REQUESTS
    ensures AfterLines(p, lines, judge).bad == (p.bad + Bad(lines, judge)) % MAX_BAD_REQUESTS
    decreases |lines|
  {
    if lines == [] {
      NoBad(judge);
    } else {
      var q := AfterLine(p, judge(lines[0]));
      BadFirst(lines, judge);
      assert AfterLines(p, lines, judge) == AfterLines(q, lines[1..], judge);
      hide AfterLines, AfterLine, Bad;
      NextCount(p, judge(lines[0]));
      CountModulo(q, lines[1..], judge);
      AddModulo(p.bad + if judge(lines[0]).Malformed? then 1 else 0, Bad(lines[1..], judge));
    }
  }

  lemma {:induction false} NoDrop(p: Peer, lines: seq<Line>, judge: Judge)
    requires p.bad + Bad(lines, judge) < MAX_BAD_REQUESTS
    ensures AfterLines(p, lines, judge)
         == p.(bad := p.bad + Bad(lines, judge), subscribed := p.subscribed || SaysHello(lines, judge))
    decreases |lines|
  {
    if lines != [] {
      BadFirst(lines, judge);
      NoDrop(AfterLine(p, judge(lines[0])), lines[1..], judge);
    }
  }

  /** The bad line at `k` completes a count of eight, and the lines behind it complete no further one. */
  predicate LastDrop(bad: nat, lines: seq<Line>, judge: Judge, k: nat) {
    && k < |lines| && judge(lines[k]).Malformed?
    && (bad + Bad(lines[..k + 1], judge)) % MAX_BAD_REQUESTS == 0
    && Bad(lines[k + 1..], judge) < MAX_BAD_REQUESTS
  }

  lemma {:induction false} BadLast(lines: seq<Line>, last: Line, judge: Judge)
    ensures Bad(lines + [last], judge) == Bad(lines, judge) + if judge(last).Malformed? then 1 else 0
  {
    BadConcat(lines, [last], judge);
    assert [last][1..] == [];
  }

  lemma {:induction false} FindLastDrop(bad: nat, lines: seq<Line>, judge: Judge) returns (k: nat)
    requires bad < MAX_BAD_REQUESTS <= bad + Bad(lines, judge)
    ensures LastDrop(bad, lines, judge, k)
    ensures Bad(lines[k + 1..], judge) == (bad + Bad(lines, judge)) % MAX_BAD_REQUESTS
  {
    NoBad(judge);
    if lines == [] {
      assert false;
    }
    hide Bad;
    var n := |lines| - 1;
    var prior, last := lines[..n], lines[n];
    assert lines == prior + [last] && lines[..n + 1] == lines && lines[n + 1..] == [];
    BadLast(prior, last, judge);
    if judge(last).Malformed? && (bad + Bad(lines, judge)) % MAX_BAD_REQUESTS == 0 {
      k := n;
    } else {
      k := FindLastDrop(bad, prior, judge);
      LaterLine(bad, prior, last, judge, k);
    }
  }

  lemma {:induction false} LaterLine(bad: nat, prior: seq<Line>, last: Line, judge: Judge, k: nat)
    requires LastDrop(bad, prior, judge, k)
    requires Bad(prior[k + 1..], judge) == (bad + Bad(prior, judge)) % MAX_BAD_REQUESTS
    requires judge(last).Malformed? ==> (bad + Bad(prior, judge) + 1) % MAX_BAD_REQUESTS != 0
    ensures var lines := prior + [last];
      LastDrop(bad, lines, judge, k) && Bad(lines[k + 1..], judge) == (bad + Bad(lines, judge)) % MAX_BAD_REQUESTS
  {
    hide Bad;
    var lines := prior + [last];
    assert lines[k] == prior[k] && lines[..k + 1] == prior[..k + 1] && lines[k + 1..] == prior[k + 1..] + [last];
    BadLast(prior, last, judge);
    BadLast(prior[k + 1..], last, judge);
  }

  lemma AfterLastDrop(p: Peer, lines: seq<Line>, judge: Judge, k: nat)
    requires p.bad < MAX_BAD_REQUESTS && LastDrop(p.bad, lines, judge, k)
    ensures AfterLines(p, lines, judge)
         == Peer(false, [], Bad(lines[k + 1..], judge), SaysHello(lines[k + 1..], judge))
  {
    var front, rest := lines[..k], lines[k + 1..];
    var last := [lines[k]];
    assert lines[..k + 1] == front + last && lines == front + last + rest && last[1..] == [];
    BadConcat(front, last, judge);
    LinesConcat(p, front + last, rest, judge);
    LinesConcat(p, front, last, judge);
    CountModulo(p, front, judge);
    DropAt(AfterLines(p, front, judge), lines[k], judge);
    NoDrop(FORGOTTEN, rest, judge);
  }

  lemma DropAt(p: Peer, line: Line, judge: Judge)
    requires p.bad == MAX_BAD_REQUESTS - 1 && judge(line).Malformed?
    ensures AfterLines(p, [line], judge) == FORGOTTEN
  {
    assert [line][1..] == [] && AfterLines(FORGOTTEN, [], judge) == FORGOTTEN;
  }

  /**
   What a chunk that drops its peer leaves behind.  An overflow leaves nothing; otherwise the lines
   behind the last dropping bad line `k`, up to one that raises, are still dispatched: the dropped
   peer is left a subscriber exactly when a greeting is among them, and entirely forgotten exactly
   when none of them is a greeting or bad.
   */
  lemma DroppingChunk(p: Peer, chunk: seq<Byte>, judge: Judge) returns (k: nat)
    requires p.served && p.bad < MAX_BAD_REQUESTS && !AfterChunk(p, chunk, judge).served
    ensures Overflows(p, chunk) ==> AfterChunk(p, chunk, judge) == FORGOTTEN
    ensures !Overflows(p, chunk) ==>
      var lines, after := Taken(p.buffer + chunk, judge), AfterChunk(p, chunk, judge);
      && LastDrop(p.bad, lines, judge, k)
      && after == Peer(false, [], (p.bad + Bad(lines, judge)) % MAX_BAD_REQUESTS, SaysHello(lines[k + 1..], judge))
      && (after.subscribed <==> SaysHello(lines[k + 1..], judge))
      && (after == FORGOTTEN <==> !SaysHello(lines[k + 1..], judge) && Bad(lines[k + 1..], judge) == 0)
  {
    hide Taken, Left, AfterLines, Bad, SaysHello, LastDrop;
    OneChunk(p, chunk, judge);
    k := 0;
    if !Overflows(p, chunk) {
      var lines := Taken(p.buffer + chunk, judge);
      k := FindLastDrop(p.bad, lines, judge);
      AfterLastDrop(p.(buffer := []), lines, judge, k);
    }
  }

  /** However the stream goes on, a dropped peer is what the one chunk that dropped it left behind. */
  lemma {:induction false} DroppedByOneChunk(p: Peer, chunks: seq<seq<Byte>>, judge: Judge) returns (i: nat)
    requires p.served && p.bad < MAX_BAD_REQUESTS && !AfterChunks(p, chunks, judge).served
    ensures i < |chunks| && AfterChunks(p, chunks[..i], judge).served
    ensures AfterChunks(p, chunks[..i], judge).bad < MAX_BAD_REQUESTS
    ensures AfterChunks(p, chunks, judge) == AfterChunk(AfterChunks(p, chunks[..i], judge), chunks[i], judge)
    decreases |chunks|
  {
    hide AfterChunk, Bad;
    var q := AfterChunk(p, chunks[0], judge);
    OneChunk(p, chunks[0], judge);
    if q.served {
      var j := DroppedByOneChunk(q, chunks[1..], judge);
      i := j + 1;
      assert chunks[..i][0] == chunks[0] && chunks[..i][1..] == chunks[1..][..j];
    } else {
      i := 0;
      StaysDropped(q, chunks[1..], judge);
    }
  }

  // ---------------------------------------------------------------------------------------------
  // Examples

  const NOISE: Line := [120]
  const GREETING: Line := [104]

  /** The bytes of `{"op":[]}`. */
  const UNHASHABLE: Line := [123, 34, 111, 112, 34, 58, 91, 93, 125]

  function Example(line: Line): Verdict {
    if line == GREETING then Hello else if line == UNHASHABLE then Raises else Malformed
  }

  lemma ExampleVerdicts()
    ensures Example(NOISE) == Malformed && Example(GREETING) == Hello && Example(UNHASHABLE) == Raises
    ensures Message(NOISE) && Message(GREETING) && Message(UNHASHABLE)
  {
    assert NOISE[0] != GREETING[0] && |NOISE| == |GREETING| != |UNHASHABLE|;
    assert NOISE[0] in NOISE && GREETING[0] in GREETING && UNHASHABLE[0] in UNHASHABLE;
  }

  /** The loop over a buffer that begins with a message. */
  lemma FirstTaken(line: Line, rest: seq<Byte>, judge: Judge)
    requires Message(line)
    ensures var s := line + [NEWLINE] + rest;
      if judge(line).Raises? then Taken(s, judge) == [line] && Left(s, judge) == rest
      else Taken(s, judge) == [line] + Taken(rest, judge) && Left(s, judge) == Left(rest, judge)
  {
    NewlineAt(line, rest);
    var s := line + [NEWLINE] + rest;
    assert s[..|line|] == line && s[|line| + 1..] == rest;
    hide Blank;
  }

  lemma NothingTaken(judge: Judge)
    ensures Taken([], judge) == [] && Left([], judge) == []
  {
  }

  /** One message alone, and two of them. */
  lemma ExampleBuffers(first: Line, second: Line)
    requires Message(first) && Message(second)
    ensures var one, two := first + [NEWLINE], first + [NEWLINE] + (second + [NEWLINE]);
      && Taken(one, Example) == [first] && Left(one, Example) == []
      && Taken(two, Example) == (if Example(first).Raises? then [first] else [first, second])
      && Left(two, Example) == if Example(first).Raises? then second + [NEWLINE] else []
  {
    hide Taken, Left, Example, Message;
    NothingTaken(Example);
    FirstTaken(first, [], Example);
    FirstTaken(second, [], Example);
    FirstTaken(first, second + [NEWLINE], Example);
    assert first + [NEWLINE] + [] == first + [NEWLINE] && second + [NEWLINE] + [] == second + [NEWLINE];
    assert [first] + [] == [first] && [first] + [second] == [first, second];
  }

  lemma OneBuffer(p: Peer, chunk: seq<Byte>, judge: Judge)
    requires p.served && p.buffer == [] && |chunk| <= MAX_LINE_BYTES
    ensures Dispatched(p, chunk, judge) == Taken(chunk, judge)
    ensures var after := AfterLines(p, Taken(chunk, judge), judge);
      AfterChunk(p, chunk, judge) == if after.served then after.(buffer := Left(chunk, judge)) else after
  {
    assert [] + chunk == chunk && p.(buffer := []) == p;
  }

  lemma OneOrTwoChunks(p: Peer, a: seq<Byte>, b: seq<Byte>, judge: Judge)
    ensures AfterChunks(p, [a], judge) == AfterChunk(p, a, judge)
    ensures AllDispatched(p, [a], judge) == Dispatched(p, a, judge)
    ensures AfterChunks(p, [a, b], judge) == AfterChunk(AfterChunk(p, a, judge), b, judge)
    ensures AllDispatched(p, [a, b], judge)
         == Dispatched(p, a, judge) + Dispatched(AfterChunk(p, a, judge), b, judge)
  {
    var q := AfterChunk(p, a, judge);
    assert [a][1..] == [] && [a, b][1..] == [b] && [b][1..] == [];
    assert AfterChunks(q, [b], judge) == AfterChunk(q, b, judge);
    assert AllDispatched(q, [b], judge) == Dispatched(q, b, judge) + [];
  }

  lemma TwoLines(p: Peer, a: Line, b: Line, judge: Judge)
    ensures AfterLines(p, [a], judge) == AfterLine(p, judge(a))
    ensures AfterLines(p, [a, b], judge) == AfterLine(AfterLine(p, judge(a)), judge(b))
  {
    assert [a][1..] == [] && [a, b][1..] == [b] && [b][1..] == [];
    assert AfterLines(AfterLine(p, judge(a)), [b], judge) == AfterLine(AfterLine(p, judge(a)), judge(b));
  }

  /**
   A greeting behind a line that raises is not dispatched with its chunk, and waits for more bytes; cut
   in two, the same stream leaves the peer subscribed.  Nothing overflows, and no line is bad.
   */
  lemma RaisingLineHoldsBack()
    ensures var first, second := UNHASHABLE + [NEWLINE], GREETING + [NEWLINE];
      && AfterChunks(CONNECTED, [first + second], Example) == CONNECTED.(buffer := second)
      && AllDispatched(CONNECTED, [first + second], Example) == [UNHASHABLE]
      && AfterChunks(CONNECTED, [first, second], Example) == CONNECTED.(subscribed := true)
      && AllDispatched(CONNECTED, [first, second], Example) == [UNHASHABLE, GREETING]
  {
    hide Taken, Left, AfterLines, AfterChunk, Dispatched, AfterChunks, AllDispatched, Example, Message, Blank;
    ExampleVerdicts();
    ExampleBuffers(UNHASHABLE, GREETING);
    ExampleBuffers(GREETING, GREETING);
    var first, second := UNHASHABLE + [NEWLINE], GREETING + [NEWLINE];
    assert |first| == 10 && |second| == 2 && |first + second| == 12;
    TwoLines(CONNECTED, UNHASHABLE, GREETING, Example);
    TwoLines(CONNECTED, GREETING, GREETING, Example);
    OneBuffer(CONNECTED, first + second, Example);
    OneBuffer(CONNECTED, first, Example);
    OneBuffer(CONNECTED, second, Example);
    OneOrTwoChunks(CONNECTED, first + second, [], Example);
    OneOrTwoChunks(CONNECTED, first, second, Example);
    assert [UNHASHABLE] + [GREETING] == [UNHASHABLE, GREETING];
  }

  /**
   Once a peer is dropped the cut does matter: a greeting that arrives in the chunk of the eighth bad
   line is still dispatched, and leaves the dropped peer among the subscribers.
   */
  lemma DroppedYetSubscribed(p: Peer)
    requires p == CONNECTED.(bad := MAX_BAD_REQUESTS - 1)
    ensures var first, second := NOISE + [NEWLINE], GREETING + [NEWLINE];
      && AfterChunks(p, [first + second], Example) == FORGOTTEN.(subscribed := true)
      && AllDispatched(p, [first + second], Example) == [NOISE, GREETING]
      && AfterChunks(p, [first, second], Example) == FORGOTTEN
      && AllDispatched(p, [first, second], Example) == [NOISE]
  {
    ExampleVerdicts();
    ExampleBuffers(NOISE, GREETING);
    var first, second := NOISE + [NEWLINE], GREETING + [NEWLINE];
    assert |first| == 2 && |second| == 2 && |first + second| == 4;
    assert AfterChunk(FORGOTTEN, second, Example) == FORGOTTEN && Dispatched(FORGOTTEN, second, Example) == [];
    hide Taken, Left, AfterLines, AfterChunk, Dispatched, AfterChunks, AllDispatched, Example, Message;
    TwoLines(p, NOISE, GREETING, Example);
    OneBuffer(p, first + second, Example);
    OneBuffer(p, first, Example);
    OneOrTwoChunks(p, first + second, [], Example);
    OneOrTwoChunks(p, first, second, Example);
    assert [NOISE] + [] == [NOISE];
  }

  // ---------------------------------------------------------------------------------------------
  // The server

  type PeerId = nat

  class IpcServer {
    const judge: Judge
    var peers: map<PeerId, seq<Byte>>
    var badCounts: map<PeerId, nat>
    var subscribers: set<PeerId>
    ghost var dispatched: seq<(PeerId, Line)>

    constructor (judge: Judge)
      ensures this.judge == judge && peers == map[] && dispatched == []
      ensures forall id :: View(id) == FORGOTTEN
    {
      this.judge := judge;
      peers, badCounts, subscribers, dispatched := map[], map[], {}, [];
    }

    function View(id: PeerId): Peer
      reads this
    {
      Peer(id in peers, if id in peers then peers[id] else [],
           if id in badCounts then badCounts[id] else 0, id in subscribers)
    }

    method OnNewConnection(id: PeerId)
      requires View(id) == FORGOTTEN
      modifies this
      ensures View(id) == CONNECTED && dispatched == old(dispatched)
      ensures forall other :: other != id ==> View(other) == old(View(other))
    {
      peers := peers[id := []];
    }

    method Forget(id: PeerId)
      modifies this
      ensures peers == old(peers) - {id} && badCounts == old(badCounts) - {id}
      ensures subscribers == old(subscribers) - {id} && dispatched == old(dispatched)
      ensures View(id) == FORGOTTEN
      ensures forall other :: other != id ==> View(other) == old(View(other))
    {
      peers, badCounts := peers - {id}, badCounts - {id};
      subscribers := subscribers - {id};
    }

    method BadRequest(id: PeerId)
      modifies this
      ensures View(id) == AfterLine(old(View(id)), Malformed) && dispatched == old(dispatched)
      ensures forall other :: other != id ==> View(other) == old(View(other))
    {
      badCounts := badCounts[id := (if id in badCounts then badCounts[id] else 0) + 1];
      if badCounts[id] >= MAX_BAD_REQUESTS {
        Forget(id);
      }
    }

    /** `raised` says that an exception leaves the call. */
    method Dispatch(id: PeerId, raw: Line) returns (raised: bool)
      modifies this
      ensures raised == judge(raw).Raises? && View(id) == AfterLine(old(View(id)), judge(raw))
      ensures dispatched == old(dispatched) + [(id, raw)]
      ensures forall other :: other != id ==> View(other) == old(View(other))
    {
      dispatched := dispatched + [(id, raw)];
      raised := false;
      match judge(raw) {
        case Malformed => BadRequest(id);
        case Hello => subscribers := subscribers + {id};
        case Other =>
        case Raises => raised := true;
      }
    }

    /** One `readyRead`: take what arrived, then dispatch line after line, until one of them raises. */
    method OnReadyRead(id: PeerId, chunk: seq<Byte>) returns (raised: bool)
      modifies this
      ensures View(id) == AfterChunk(old(View(id)), chunk, judge)
      ensures dispatched == old(dispatched) + Tagged(id, Dispatched(old(View(id)), chunk, judge))
      ensures raised == SomeRaises(Dispatched(old(View(id)), chunk, judge), judge)
      ensures forall other :: other != id ==> View(other) == old(View(other))
    {
      hide Taken, Left, Newline, AfterLines, Tagged, AfterLine, Blank, SomeRaises;
      NoneRaises(judge);
      raised := false;
      if id !in peers {
        return;
      }
      var buffer := peers[id] + chunk;
      if |buffer| > MAX_LINE_BYTES {
        Forget(id);
        return;
      }
      ghost var start, log := View(id).(buffer := []), dispatched;
      ghost var done: seq<Line> := [];
      ghost var whole := buffer;
      NoLines(start, id, judge);
      peers := peers[id := []];
      while Newline(buffer) < |buffer| && !raised
        invariant Taken(whole, judge) == done + if raised then [] else Taken(buffer, judge)
        invariant Left(whole, judge) == if raised then buffer else Left(buffer, judge)
        invariant View(id) == AfterLines(start, done, judge) && View(id).buffer == []
        invariant dispatched == log + Tagged(id, done)
        invariant raised == SomeRaises(done, judge)
        invariant forall other :: other != id ==> View(other) == old(View(other))
        decreases |buffer|
      {
        var raw, rest := buffer[..Newline(buffer)], buffer[Newline(buffer) + 1..];
        NextTaken(buffer, judge);
        if !Blank(raw) {
          OneMore(start, id, log, done, raw, if judge(raw).Raises? then [] else Taken(rest, judge), judge);
          OneMoreRaises(done, raw, judge);
          raised := Dispatch(id, raw);
          done := done + [raw];
        } else {
          assert [] + Taken(rest, judge) == Taken(rest, judge);
        }
        buffer := rest;
      }
      if !raised {
        LastTaken(buffer, judge);
      }
      assert done + [] == done;
      if id in peers {
        peers := peers[id := buffer];
      }
    }

    /** Push changed paths to every subscriber, forgetting those whose socket is gone. */
    method BroadcastInvalidate(paths: seq<string>, alive: set<PeerId>) returns (sent: nat)
      modifies this
      ensures dispatched == old(dispatched)
      ensures sent == if paths == [] then 0 else |old(subscribers) * alive|
      ensures var lost := if paths == [] then {} else old(subscribers) - alive;
        && subscribers == old(subscribers) - lost
        && peers == old(peers) - lost && badCounts == old(badCounts) - lost
    {
      LessNothing(peers);
      LessNothing(badCounts);
      if paths == [] || subscribers == {} {
        assert paths != [] ==> subscribers * alive == {} && subscribers - alive == {};
        return 0;
      }
      hide Parted;
      var all := subscribers;
      var left := all;
      ghost var reached, lost: set<PeerId> := {}, {};
      Unparted(all, alive);
      sent := 0;
      while left != {}
        invariant Parted(all, alive, left, reached, lost)
        invariant subscribers == left + reached && sent == |reached|
        invariant peers == old(peers) - lost && badCounts == old(badCounts) - lost
        invariant dispatched == old(dispatched)
        decreases |left|
      {
        var id := AnyOf(left);
        if id in alive {
          PartReached(all, alive, left, reached, lost, id);
          reached := reached + {id};
          sent := sent + 1;
        } else {
          PartLost(all, alive, left, reached, lost, id);
          LessAndLess(old(peers), lost, id);
          LessAndLess(old(badCounts), lost, id);
          lost := lost + {id};
          Forget(id);
        }
        left := left - {id};
      }
      Parting(all, alive, reached, lost);
      assert all - lost == all * alive;
    }
  }

  ghost predicate Parted(all: set<PeerId>, alive: set<PeerId>, left: set<PeerId>, reached: set<PeerId>,
                         lost: set<PeerId>) {
    && left <= all && reached == (all - left) * alive && lost == (all - left) - alive
  }

  lemma Unparted(all: set<PeerId>, alive: set<PeerId>)
    ensures Parted(all, alive, all, {}, {})
  {
  }

  lemma PartReached(all: set<PeerId>, alive: set<PeerId>, left: set<PeerId>, reached: set<PeerId>,
                    lost: set<PeerId>, id: PeerId)
    requires Parted(all, alive, left, reached, lost) && id in left && id in alive
    ensures Parted(all, alive, left - {id}, reached + {id}, lost)
    ensures |reached + {id}| == |reached| + 1 && (left - {id}) + (reached + {id}) == left + reached
  {
    assert id !in reached;
  }

  lemma PartLost(all: set<PeerId>, alive: set<PeerId>, left: set<PeerId>, reached: set<PeerId>,
                 lost: set<PeerId>, id: PeerId)
    requires Parted(all, alive, left, reached, lost) && id in left && id !in alive
    ensures Parted(all, alive, left - {id}, reached, lost + {id})
    ensures (left + reached) - {id} == (left - {id}) + reached
  {
  }

  lemma Parting(all: set<PeerId>, alive: set<PeerId>, reached: set<PeerId>, lost: set<PeerId>)
    requires Parted(all, alive, {}, reached, lost)
    ensures reached == all * alive && lost == all - alive
  {
    assert all - {} == all;
  }

  lemma LessNothing<T>(m: map<PeerId, T>)
    ensures m - {} == m
  {
  }

  lemma LessAndLess<T>(m: map<PeerId, T>, lost: set<PeerId>, id: PeerId)
    ensures m - lost - {id} == m - (lost + {id})
  {
  }

  ghost function Tagged(id: PeerId, lines: seq<Line>): (tagged: seq<(PeerId, Line)>)
    ensures |tagged| == |lines|
  {
    if lines == [] then [] else [(id, lines[0])] + Tagged(id, lines[1..])
  }

  predicate SomeRaises(lines: seq<Line>, judge: Judge) {
    exists i :: 0 <= i < |lines| && judge(lines[i]).Raises?
  }

  lemma NoneRaises(judge: Judge)
    ensures !SomeRaises([], judge)
  {
  }

  lemma OneMoreRaises(lines: seq<Line>, last: Line, judge: Judge)
    ensures SomeRaises(lines + [last], judge) == (SomeRaises(lines, judge) || judge(last).Raises?)
  {
    var more := lines + [last];
    assert more[|lines|] == last && forall i :: 0 <= i < |lines| ==> more[i] == lines[i];
  }

  lemma NextTaken(s: seq<Byte>, judge: Judge)
    requires Newline(s) < |s|
    ensures var line, rest := s[..Newline(s)], s[Newline(s) + 1..];
      if Breaks(line, judge) then Taken(s, judge) == [line] && Left(s, judge) == rest
      else Taken(s, judge) == (if Blank(line) then [] else [line]) + Taken(rest, judge)
           && Left(s, judge) == Left(rest, judge)
  {
    hide Newline, Blank;
  }

  lemma LastTaken(s: seq<Byte>, judge: Judge)
    requires Newline(s) == |s|
    ensures Taken(s, judge) == [] && Left(s, judge) == s
  {
  }

  lemma NoLines(p: Peer, id: PeerId, judge: Judge)
    ensures AfterLines(p, [], judge) == p && Tagged(id, []) == []
  {
  }

  lemma OneMore(p: Peer, id: PeerId, log: seq<(PeerId, Line)>, done: seq<Line>, raw: Line, more: seq<Line>,
                judge: Judge)
    ensures AfterLines(p, done + [raw], judge) == AfterLine(AfterLines(p, done, judge), judge(raw))
    ensures AfterLines(p, done, judge).buffer == [] ==> AfterLines(p, done + [raw], judge).buffer == []
    ensures log + Tagged(id, done + [raw]) == log + Tagged(id, done) + [(id, raw)]
    ensures done + ([raw] + more) == done + [raw] + more
  {
    AppendLine(p, done, raw, judge);
    TaggedAppend(id, done, raw);
    hide AfterLines, Tagged;
    var tagged := Tagged(id, done);
    assert log + (tagged + [(id, raw)]) == log + tagged + [(id, raw)];
    assert done + ([raw] + more) == done + [raw] + more;
  }

  lemma {:induction false} TaggedAppend(id: PeerId, lines: seq<Line>, last: Line)
    ensures Tagged(id, lines + [last]) == Tagged(id, lines) + [(id, last)]
  {
    if lines != [] {
      TaggedAppend(id, lines[1..], last);
      assert (lines + [last])[1..] == lines[1..] + [last];
    }
  }

  lemma {:induction false} AppendLine(p: Peer, lines: seq<Line>, last: Line, judge: Judge)
    ensures AfterLines(p, lines + [last], judge) == AfterLine(AfterLines(p, lines, judge), judge(last))
    decreases |lines|
  {
    if lines == [] {
      assert [last][1..] == [] && lines + [last] == [last];
    } else {
      AppendLine(AfterLine(p, judge(lines[0])), lines[1..], last, judge);
      assert (lines + [last])[1..] == lines[1..] + [last];
    }
  }
}
