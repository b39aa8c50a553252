/**
 onedriveui/ext/nautilus_onedriveui.py: the extension's side.  It reads until a frame is a reply and
 reports every `invalidate` push that came before it.
 */
module IpcExtensionSide {
  import opened Basics
  import opened Framing

  const LIMIT: nat := 4 * 1024 * 1024

  /** What a frame is; reading JSON is left to the caller. */
  datatype Kind = Broken | NotAnObject | Push(paths: seq<string>) | Reply

  type Sort = Line -> Kind

  /** What `recv` did: delivered bytes, found the stream closed, or raised. */
  datatype Received = Data(chunk: seq<Byte>) | Closed | Failed

  /** How a run of frames is answered: what was reported, and whether the reading is over. */
  datatype Answer = Answer(reported: seq<seq<string>>, over: bool, reply: Option<Line>)

  /** One answer, and if that is not the end the next one after it. */
  function Then(first: Answer, second: Answer): Answer {
    if first.over then first else second.(reported := first.reported + second.reported)
  }

  const SO_FAR_NOTHING := Answer([], false, None)
  const GIVE_UP := Answer([], true, None)

  function AnswerTo(frames: seq<Line>, sort: Sort): Answer {
    if frames == [] then SO_FAR_NOTHING
    else
      match sort(frames[0])
      case Broken => GIVE_UP
      case Reply => Answer([], true, Some(frames[0]))
      case NotAnObject => AnswerTo(frames[1..], sort)
      case Push(paths) => Then(Answer([paths], false, None), AnswerTo(frames[1..], sort))
  }

  predicate Delivers(received: seq<Received>) {
    received != [] && received[0].Data? && received[0].chunk != []
  }

  /** The bytes that arrive before the stream ends one way or the other. */
  function Arriving(received: seq<Received>): seq<Byte> {
    if Delivers(received) then received[0].chunk + Arriving(received[1..]) else []
  }

  /** The pending bytes stay below the limit at every `recv`. */
  predicate Bounded(pending: seq<Byte>, received: seq<Received>)
    decreases |received|
  {
    && |pending| < LIMIT
    && (Delivers(received) ==> Bounded(Tail(pending + received[0].chunk), received[1..]))
  }

  /** `_read_reply`, one `recv` at a time; running out of `received` is a timeout. */
  function ReadFrom(pending: seq<Byte>, received: seq<Received>, sort: Sort): Answer
    decreases |received|
  {
    if |pending| >= LIMIT || !Delivers(received) then GIVE_UP
    else
      var all := pending + received[0].chunk;
      Then(AnswerTo(Frames(all), sort), ReadFrom(Tail(all), received[1..], sort))
  }

  /**
   One `recv`: the reading is over at four mebibytes without a newline, at a closed stream, an empty
   chunk or a failure, and where the time runs out; otherwise the complete lines are answered first.
   */
  lemma OneRecv(pending: seq<Byte>, received: seq<Received>, sort: Sort)
    ensures ReadFrom(pending, received, sort) ==
      if |pending| < 4_194_304 && received != [] && received[0].Data? && |received[0].chunk| > 0 then
        var all := pending + received[0].chunk;
        Then(AnswerTo(Frames(all), sort), ReadFrom(Tail(all), received[1..], sort))
      else Answer([], true, None)
  {
  }

  lemma ThenThen(a: Answer, b: Answer, c: Answer)
    ensures Then(Then(a, b), c) == Then(a, Then(b, c))
    ensures Then(SO_FAR_NOTHING, a) == a && Then(a, SO_FAR_NOTHING).reported == a.reported
  {
    assert (a.reported + b.reported) + c.reported == a.reported + (b.reported + c.reported);
    assert [] + a.reported == a.reported;
  }

  lemma {:induction false} AnswerConcat(a: seq<Line>, b: seq<Line>, sort: Sort)
    ensures AnswerTo(a + b, sort) == Then(AnswerTo(a, sort), AnswerTo(b, sort))
  {
    if a == [] {
      assert a + b == b;
      ThenThen(AnswerTo(b, sort), SO_FAR_NOTHING, SO_FAR_NOTHING);
    } else {
      assert (a + b)[1..] == a[1..] + b;
      AnswerConcat(a[1..], b, sort);
      if sort(a[0]).Push? {
        ThenThen(Answer([sort(a[0]).paths], false, None), AnswerTo(a[1..], sort), AnswerTo(b, sort));
      }
    }
  }

  /**
   The reply and the reports depend only on the bytes that arrived, not on how they were cut, as long
   as no frame reaches the limit.
   */
  lemma {:induction false} OnlyBytesMatter(pending: seq<Byte>, received: seq<Received>, sort: Sort)
    requires NEWLINE !in pending && Bounded(pending, received)
    ensures ReadFrom(pending, received, sort) == Then(AnswerTo(Frames(pending + Arriving(received)), sort), GIVE_UP)
    decreases |received|
  {
    hide Frames, Tail, AnswerTo, Then;
    if !Delivers(received) {
      assert pending + [] == pending;
      QuietEnd(pending, sort);
    } else {
      var first, later := pending + received[0].chunk, Arriving(received[1..]);
      assert pending + Arriving(received) == first + later;
      CutFrames(first, later);
      var rest := Frames(Tail(first) + later);
      AnswerConcat(Frames(first), rest, sort);
      OnlyBytesMatter(Tail(first), received[1..], sort);
      ThenThen(AnswerTo(Frames(first), sort), AnswerTo(rest, sort), GIVE_UP);
    }
  }

  lemma QuietEnd(pending: seq<Byte>, sort: Sort)
    requires NEWLINE !in pending
    ensures Then(AnswerTo(Frames(pending), sort), GIVE_UP) == GIVE_UP
  {
    NoLine(pending);
  }

  /** Frames that are not the reply only add reports, one for each push, in order. */
  function Reports(frames: seq<Line>, sort: Sort): seq<seq<string>> {
    if frames == [] then []
    else (if sort(frames[0]).Push? then [sort(frames[0]).paths] else []) + Reports(frames[1..], sort)
  }

  predicate Skipped(frame: Line, sort: Sort) {
    sort(frame).Push? || sort(frame).NotAnObject?
  }

  lemma {:induction false} OnlyReports(skipped: seq<Line>, sort: Sort)
    requires forall frame :: frame in skipped ==> Skipped(frame, sort)
    ensures AnswerTo(skipped, sort) == Answer(Reports(skipped, sort), false, None)
  {
    if skipped != [] {
      assert Skipped(skipped[0], sort);
      OnlyReports(skipped[1..], sort);
    }
  }

  lemma SkippedThenReply(skipped: seq<Line>, reply: Line, after: seq<Line>, sort: Sort)
    requires forall frame :: frame in skipped ==> Skipped(frame, sort)
    requires sort(reply).Reply?
    ensures AnswerTo(skipped + [reply] + after, sort) == Answer(Reports(skipped, sort), true, Some(reply))
  {
    OnlyReports(skipped, sort);
    AnswerConcat(skipped, [reply], sort);
    AnswerConcat(skipped + [reply], after, sort);
    assert AnswerTo([reply], sort) == Answer([], true, Some(reply));
  }

  /**
   From the server's `_encode` to the extension's reply: whatever pushes went before it, however the
   stream is cut and whatever follows, the reply that was sent is the one returned, and every push
   before it is reported in order.
   */
  lemma ReplyArrives(skipped: seq<Line>, reply: Line, after: seq<Line>, received: seq<Received>, sort: Sort)
    requires forall body :: body in skipped + [reply] + after ==> Message(body) && |body| < LIMIT
    requires forall frame :: frame in skipped ==> Skipped(frame, sort)
    requires sort(reply).Reply?
    requires Arriving(received) == Encode(skipped + [reply] + after)
    ensures ReadFrom([], received, sort) == Answer(Reports(skipped, sort), true, Some(reply))
  {
    hide Frames, Tail, AnswerTo, ReadFrom, Bounded, Encode;
    var bodies := skipped + [reply] + after;
    assert [] + Arriving(received) == Encode(bodies);
    EncodedIsBounded(bodies, 0, received);
    NoLine([]);
    assert Encode(bodies)[..0] == [] && Encode(bodies)[0..] == Encode(bodies);
    OnlyBytesMatter([], received, sort);
    EncodedFrames(bodies);
    SkippedThenReply(skipped, reply, after, sort);
  }

  lemma {:induction false} EncodedIsBounded(bodies: seq<Line>, cut: nat, received: seq<Received>)
    requires forall body :: body in bodies ==> Message(body) && |body| < LIMIT
    requires cut <= |Encode(bodies)| && Arriving(received) == Encode(bodies)[cut..]
    ensures Bounded(Tail(Encode(bodies)[..cut]), received)
    decreases |received|
  {
    hide Frames, Tail, Encode;
    var all := Encode(bodies);
    PendingIsPartial(bodies, cut, LIMIT);
    if Delivers(received) {
      var chunk := received[0].chunk;
      var next := cut + |chunk|;
      assert all[cut..][..|chunk|] == chunk;
      assert all[..next] == all[..cut] + chunk;
      assert Arriving(received[1..]) == all[cut..][|chunk|..] == all[next..];
      CutFrames(all[..cut], chunk);
      EncodedIsBounded(bodies, next, received[1..]);
    }
  }

  /** `_read_reply`: the loop over `recv`. */
  method ReadReply(received: seq<Received>, sort: Sort) returns (reply: Option<Line>, reported: seq<seq<string>>)
    ensures ReadFrom([], received, sort) == Answer(reported, true, reply)
  {
    hide Frames, Tail, AnswerTo;
    var buffer: seq<Byte>, next, over := [], 0, false;
    reply, reported := None, [];
    assert received[0..] == received;
    while |buffer| < LIMIT
      invariant next <= |received| && reply.None?
      invariant ReadFrom([], received, sort)
             == Then(Answer(reported, false, None), ReadFrom(buffer, received[next..], sort))
      decreases |received| - next
    {
      if !Delivers(received[next..]) {
        return;
      }
      var all := buffer + received[next].chunk;
      ghost var before := reported;
      assert received[next..][1..] == received[next + 1..];
      ThenThen(Answer(before, false, None), AnswerTo(Frames(all), sort),
               ReadFrom(Tail(all), received[next + 1..], sort));
      buffer, over, reply, reported := TakeLines(all, reported, sort);
      if over {
        return;
      }
      next := next + 1;
    }
  }

  /** The inner loop: the complete lines of the buffer, until one of them settles the answer. */
  method TakeLines(all: seq<Byte>, before: seq<seq<string>>, sort: Sort)
    returns (buffer: seq<Byte>, over: bool, reply: Option<Line>, reported: seq<seq<string>>)
    ensures Then(Answer(before, false, None), AnswerTo(Frames(all), sort)) == Answer(reported, over, reply)
    ensures !over ==> buffer == Tail(all) && reply.None?
  {
    hide Frames, Tail, Newline;
    buffer, over, reply, reported := all, false, None, before;
    while Newline(buffer) < |buffer|
      invariant Tail(buffer) == Tail(all)
      invariant Then(Answer(reported, false, None), AnswerTo(Frames(buffer), sort))
             == Then(Answer(before, false, None), AnswerTo(Frames(all), sort))
      decreases |buffer|
    {
      var line, rest := buffer[..Newline(buffer)], buffer[Newline(buffer) + 1..];
      FirstFrame(buffer);
      buffer := rest;
      if exists b :: b in line && !Space(b) {
        assert ([line] + Frames(rest))[1..] == Frames(rest);
        match sort(line) {
          case Broken =>
            over := true;
            return;
          case Reply =>
            over, reply := true, Some(line);
            return;
          case NotAnObject =>
          case Push(paths) =>
            ThenThen(Answer(reported, false, None), Answer([paths], false, None), AnswerTo(Frames(rest), sort));
            reported := reported + [paths];
        }
      } else {
        assert [] + Frames(rest) == Frames(rest);
      }
    }
    LastFrame(buffer);
  }
}
