/**
 * The OneBot v11 adapter (src/platform/onebot.rs): read events from a
 * WebSocket, hand every "message" event to the bot under a session derived
 * from the sender and the group, and send each reply back as a "send_msg"
 * API call.
 *
 * The socket is modelled by its frames, already split into what the adapter
 * distinguishes: a read error, a text frame whose JSON did or did not parse
 * as an event, and any other frame. Whether connecting and each send succeed
 * is decided outside the program and given as parameters.
 */
module OneBot {
  import opened Common
  import opened Prompt
  import opened Platform

  /** Rust's `i64`. */
  type i64 = x: int | -0x8000_0000_0000_0000 <= x < 0x8000_0000_0000_0000

  /** The fields of a OneBot event the adapter reads. */
  datatype Event = Event(postType: string, messageType: Option<string>, userId: Option<i64>,
                         groupId: Option<i64>, rawMessage: Option<string>)

  datatype Frame = ReadError(error: Error) | TextFrame(event: Option<Event>) | OtherFrame

  datatype SendMessageParams = SendMessageParams(messageType: string, userId: Option<i64>, groupId: Option<i64>, message: string)

  datatype ApiCall = ApiCall(action: string, params: SendMessageParams)

  const SendAction: string := "send_msg"
  const ReadErrorLog: string := "Error reading WS message: "
  const BotErrorLog: string := "Bot error: "

  // ---------------------------------------------------------------------------
  // Decimal text of integers (`i64::to_string` and `format!("{}")`)

  predicate IsDigit(c: char) {
    '0' <= c <= '9'
  }

  function Digit(d: nat): (c: char)
    requires d < 10
    ensures IsDigit(c) && c as int - '0' as int == d
  {
    ('0' as int + d) as char
  }

  /** The decimal digits of `n`, most significant first, without leading zeros. */
  function Natural(n: nat): (s: string)
    ensures s != [] && forall i :: 0 <= i < |s| ==> IsDigit(s[i])
    decreases n
  {
    if n < 10 then [Digit(n)] else Natural(n / 10) + [Digit(n % 10)]
  }

  /** The value of a string of digits. */
  function DigitsValue(s: string): nat
  {
    if s == [] then 0
    else
      var d := s[|s| - 1] as int - '0' as int;
      DigitsValue(s[..|s| - 1]) * 10 + (if 0 <= d then d else 0)
  }

  /** Reading the digits back gives the number. */
  lemma {:induction false} NaturalRoundTrip(n: nat)
    ensures DigitsValue(Natural(n)) == n
    decreases n
  {
    if n >= 10 {
      var s := Natural(n);
      assert s[..|s| - 1] == Natural(n / 10);
      NaturalRoundTrip(n / 10);
    }
  }

  /** `i64::to_string`: a minus sign before the digits of a negative number. */
  function Decimal(n: int): (s: string)
    ensures n >= 0 ==> s == Natural(n)
    ensures n < 0 ==> s == "-" + Natural(-n)
    ensures s != [] && (s[0] == '-' <==> n < 0)
    ensures forall i :: 0 <= i < |s| ==> s[i] != ':'
  {
    if n < 0 then "-" + Natural(-n) else Natural(n)
  }

  /** Distinct numbers have distinct decimal texts. */
  lemma DecimalInjective(a: int, b: int)
    ensures Decimal(a) == Decimal(b) ==> a == b
  {
    if Decimal(a) == Decimal(b) {
      if a >= 0 {
        NaturalRoundTrip(a);
        NaturalRoundTrip(b);
      } else {
        assert Natural(-a) == Decimal(a)[1..] == Decimal(b)[1..] == Natural(-b);
        NaturalRoundTrip(-a);
        NaturalRoundTrip(-b);
      }
    }
  }

  // ---------------------------------------------------------------------------
  // Sessions

  const GroupPrefix: string := "onebot:group:"
  const PrivatePrefix: string := "onebot:private:"

  /** "onebot:group:{group}:{user}" for a group message, "onebot:private:{user}" otherwise. */
  function SessionId(userId: i64, groupId: Option<i64>): (s: string)
    ensures groupId.Some? ==> s == GroupPrefix + (Decimal(groupId.value) + ":" + Decimal(userId))
    ensures groupId.None? ==> s == PrivatePrefix + Decimal(userId)
    ensures |s| > 7 && (s[7] == 'g' <==> groupId.Some?)
  {
    match groupId
    case Some(gid) => GroupPrefix + (Decimal(gid) + ":" + Decimal(userId))
    case None => PrivatePrefix + Decimal(userId)
  }

  /** Two strings joined by a colon that the first one lacks split back into the two. */
  lemma SplitAtColon(a: string, b: string, c: string, d: string)
    requires forall i :: 0 <= i < |a| ==> a[i] != ':'
    requires forall i :: 0 <= i < |c| ==> c[i] != ':'
    requires a + ":" + b == c + ":" + d
    ensures a == c && b == d
  {
    var x := a + ":" + b;
    FirstColon(a, b);
    FirstColon(c, d);
    assert |a| == |c|;
    assert a == x[..|a|] == c;
    assert b == x[|a| + 1..] == d;
  }

  lemma FirstColon(a: string, b: string)
    requires forall i :: 0 <= i < |a| ==> a[i] != ':'
    ensures (a + ":" + b)[|a|] == ':'
    ensures forall i :: 0 <= i < |a| ==> (a + ":" + b)[i] != ':'
  {
    forall i | 0 <= i < |a| ensures (a + ":" + b)[i] != ':' {
      assert (a + ":" + b)[i] == a[i];
    }
  }

  /**
   * Distinct senders, and the same sender in distinct groups or in private,
   * never share a session (and so never share a history).
   */
  lemma SessionIdInjective(u1: i64, g1: Option<i64>, u2: i64, g2: Option<i64>)
    ensures SessionId(u1, g1) == SessionId(u2, g2) ==> u1 == u2 && g1 == g2
  {
    if SessionId(u1, g1) == SessionId(u2, g2) {
      if g1.Some? {
        assert g2.Some?;
        GroupSessionInjective(u1, g1.value, u2, g2.value);
      } else {
        assert g2.None?;
        DropPrefix(PrivatePrefix, Decimal(u1), Decimal(u2));
        DecimalInjective(u1, u2);
      }
    }
  }

  lemma GroupSessionInjective(u1: i64, g1: i64, u2: i64, g2: i64)
    requires SessionId(u1, Some(g1)) == SessionId(u2, Some(g2))
    ensures u1 == u2 && g1 == g2
  {
    DropPrefix(GroupPrefix, Decimal(g1) + ":" + Decimal(u1), Decimal(g2) + ":" + Decimal(u2));
    SplitAtColon(Decimal(g1), Decimal(u1), Decimal(g2), Decimal(u2));
    DecimalInjective(g1, g2);
    DecimalInjective(u1, u2);
  }

  lemma DropPrefix(p: string, x: string, y: string)
    requires p + x == p + y
    ensures x == y
  {
    assert x == (p + x)[|p|..];
    assert y == (p + y)[|p|..];
  }

  // ---------------------------------------------------------------------------
  // One event

  /** A message event, with the adapter's defaults filled in. */
  datatype Delivery = Delivery(session: string, rawMessage: string, userId: i64, groupId: Option<i64>, messageType: string)

  /**
   * The frames the adapter hands to the bot: text frames holding an event
   * whose post type is "message". A missing text is empty, a missing sender
   * is user 0 and a missing message type is "private".
   */
  function Accept(frame: Frame): (d: Option<Delivery>)
    ensures d.Some? <==> frame.TextFrame? && frame.event.Some? && frame.event.value.postType == "message"
    ensures d.Some? ==>
              var e := frame.event.value;
              && d.value.rawMessage == (if e.rawMessage.Some? then e.rawMessage.value else "")
              && d.value.userId == (if e.userId.Some? then e.userId.value else 0)
              && d.value.groupId == e.groupId
              && d.value.messageType == (if e.messageType.Some? then e.messageType.value else "private")
              && d.value.session == SessionId(d.value.userId, e.groupId)
  {
    match frame
    case TextFrame(Some(e)) =>
      if e.postType == "message" then
        var raw := match e.rawMessage case Some(t) => t case None => "";
        var user := match e.userId case Some(u) => u case None => 0;
        var kind := match e.messageType case Some(t) => t case None => "private";
        Some(Delivery(SessionId(user, e.groupId), raw, user, e.groupId, kind))
      else None
    case _ => None
  }

  /** The bot call for a delivery: the raw text, the sender's id as its decimal text. */
  function ToRequest(d: Delivery): (q: Request)
    ensures q.session == d.session && q.input == Text(d.rawMessage)
    ensures q.userId == Some(Decimal(d.userId))
  {
    Request(d.session, Text(d.rawMessage), Some(Decimal(d.userId)))
  }

  /**
   * The reply: to the group for a group message, otherwise to the sender;
   * exactly one of the two ids is set.
   */
  function Reply(d: Delivery, reply: string): (call: ApiCall)
    ensures call.action == SendAction && call.params.message == reply && call.params.messageType == d.messageType
    ensures call.params.groupId == d.groupId
    ensures call.params.userId.Some? <==> d.groupId.None?
    ensures call.params.userId.Some? ==> call.params.userId.value == d.userId
  {
    ApiCall(SendAction, SendMessageParams(d.messageType, if d.groupId.None? then Some(d.userId) else None, d.groupId, reply))
  }

  // ---------------------------------------------------------------------------
  // The event loop

  /**
   * What the loop has done so far: the bot calls made, the API calls sent,
   * the error lines logged, and the send error that ended the loop, if any.
   */
  datatype Bridge = Bridge(asked: seq<Request>, sent: seq<ApiCall>, logged: seq<string>, failed: Option<Error>)

  /**
   * One frame. `transport(k)` is the outcome of the k-th send (counting
   * from 0); a failed send ends the loop with that error.
   */
  function Step(bot: BotView, transport: nat -> Option<Error>, b: Bridge, frame: Frame): (c: Bridge)
    ensures b.failed.Some? ==> c == b
    ensures b.failed.None? && Accept(frame).None? ==> c.asked == b.asked && c.sent == b.sent && c.failed == None
    ensures b.failed.None? && Accept(frame).Some? ==> c.asked == b.asked + [ToRequest(Accept(frame).value)]
    ensures |b.sent| <= |c.sent| <= |b.sent| + 1 && c.sent[..|b.sent|] == b.sent
    // A read error is logged and the loop goes on.
    ensures b.failed.None? && frame.ReadError? ==> c == b.(logged := b.logged + [ReadErrorLog + frame.error])
    // A message event: a bot error is logged and nothing is sent; a reply is sent to the event's
    // group or sender, unless the send fails, which ends the loop.
    ensures b.failed.None? && Accept(frame).Some? ==>
              var d := Accept(frame).value;
              var answer := bot.respond(b.asked + [ToRequest(d)]);
              && (answer.Failure? ==>
                    c.sent == b.sent && c.failed.None? && c.logged == b.logged + [BotErrorLog + answer.error])
              && (answer.Success? && transport(|b.sent|).None? ==>
                    c.sent == b.sent + [Reply(d, answer.value)] && c.failed.None? && c.logged == b.logged)
              && (answer.Success? && transport(|b.sent|).Some? ==>
                    c.sent == b.sent && c.failed == transport(|b.sent|) && c.logged == b.logged)
  {
    if b.failed.Some? then b
    else match frame
      case ReadError(e) => b.(logged := b.logged + [ReadErrorLog + e])
      case OtherFrame => b
      case TextFrame(_) =>
        match Accept(frame)
        case None => b
        case Some(d) =>
          var asked := b.asked + [ToRequest(d)];
          match bot.respond(asked)
          case Failure(e) => Bridge(asked, b.sent, b.logged + [BotErrorLog + e], None)
          case Success(reply) =>
            match transport(|b.sent|)
            case Some(e) => Bridge(asked, b.sent, b.logged, Some(e))
            case None => Bridge(asked, b.sent + [Reply(d, reply)], b.logged, None)
  }

  /** The loop after `frames`, in order. */
  function Pump(bot: BotView, transport: nat -> Option<Error>, frames: seq<Frame>): Bridge
  {
    if frames == [] then Bridge([], [], [], None)
    else Step(bot, transport, Pump(bot, transport, frames[..|frames| - 1]), frames[|frames| - 1])
  }

  /** After a failed send, later frames are never read. */
  lemma {:induction false} FailedBridgeIgnoresFrames(bot: BotView, transport: nat -> Option<Error>, frames: seq<Frame>, more: seq<Frame>)
    requires Pump(bot, transport, frames).failed.Some?
    ensures Pump(bot, transport, frames + more) == Pump(bot, transport, frames)
  {
    if more == [] {
      assert frames + more == frames;
    } else {
      var init := more[..|more| - 1];
      assert (frames + more)[..|frames + more| - 1] == frames + init;
      FailedBridgeIgnoresFrames(bot, transport, frames, init);
    }
  }

  /**
   * Every API call sent is a "send_msg" addressed either to a group or to a
   * user, never both and never neither, and the bot is asked at least once
   * per reply.
   */
  lemma {:induction false} RepliesAreAddressed(bot: BotView, transport: nat -> Option<Error>, frames: seq<Frame>)
    ensures var b := Pump(bot, transport, frames);
            && |b.sent| <= |b.asked|
            && forall k :: 0 <= k < |b.sent| ==>
                 b.sent[k].action == SendAction && (b.sent[k].params.userId.Some? <==> b.sent[k].params.groupId.None?)
  {
    if frames != [] {
      var init := frames[..|frames| - 1];
      RepliesAreAddressed(bot, transport, init);
      var b := Pump(bot, transport, init);
      var c := Pump(bot, transport, frames);
      if b.failed.None? && Accept(frames[|frames| - 1]).Some? {
        forall k | |b.sent| <= k < |c.sent|
          ensures c.sent[k].action == SendAction && (c.sent[k].params.userId.Some? <==> c.sent[k].params.groupId.None?)
        {
        }
      }
    }
  }

  /**
   * Every bot call comes from a message event among the frames: it carries
   * that event's session, its raw text and its sender's decimal id.
   */
  lemma {:induction false} RequestsCarrySender(bot: BotView, transport: nat -> Option<Error>, frames: seq<Frame>)
    ensures forall q :: q in Pump(bot, transport, frames).asked ==>
              exists k :: 0 <= k < |frames| && Accept(frames[k]).Some? && q == ToRequest(Accept(frames[k]).value)
  {
    if frames != [] {
      var init := frames[..|frames| - 1];
      RequestsCarrySender(bot, transport, init);
      forall q | q in Pump(bot, transport, frames).asked
        ensures exists k :: 0 <= k < |frames| && Accept(frames[k]).Some? && q == ToRequest(Accept(frames[k]).value)
      {
        if q in Pump(bot, transport, init).asked {
          var k :| 0 <= k < |init| && Accept(init[k]).Some? && q == ToRequest(Accept(init[k]).value);
          assert frames[k] == init[k];
        } else {
          assert Accept(frames[|frames| - 1]).Some? && q == ToRequest(Accept(frames[|frames| - 1]).value);
        }
      }
    }
  }

  /** The body of the event loop for one frame, on a loop that has not failed. */
  method HandleFrame(bot: BotView, transport: nat -> Option<Error>, b: Bridge, frame: Frame) returns (c: Bridge)
    requires b.failed.None?
    ensures c == Step(bot, transport, b, frame)
  {
    c := b;
    match frame {
      case ReadError(e) =>
        c := c.(logged := c.logged + [ReadErrorLog + e]);
      case OtherFrame =>
      case TextFrame(_) =>
        var delivery := Accept(frame);
        if delivery.Some? {
          var d := delivery.value;
          c := c.(asked := c.asked + [ToRequest(d)]);
          var response := bot.respond(c.asked);
          match response {
            case Success(reply) =>
              var fault := transport(|c.sent|);
              if fault.Some? {
                return c.(failed := fault);
              }
              c := c.(sent := c.sent + [Reply(d, reply)]);
            case Failure(err) =>
              c := c.(logged := c.logged + [BotErrorLog + err]);
          }
        }
    }
  }

  /** `OneBotPlatform::run`: connect, then handle frames until the stream ends or a send fails. */
  method Run(bot: BotView, connect: Option<Error>, transport: nat -> Option<Error>, frames: seq<Frame>)
    returns (asked: seq<Request>, sent: seq<ApiCall>, logged: seq<string>, r: Outcome)
    ensures connect.Some? ==> r == Fail(connect.value) && asked == [] && sent == [] && logged == []
    ensures connect.None? ==> var b := Pump(bot, transport, frames);
              && asked == b.asked && sent == b.sent && logged == b.logged
              && r == (if b.failed.Some? then Fail(b.failed.value) else Pass)
  {
    if connect.Some? {
      return [], [], [], Fail(connect.value);
    }
    var b := Bridge([], [], [], None);
    var i := 0;
    while i < |frames| && b.failed.None?
      invariant 0 <= i <= |frames|
      invariant Pump(bot, transport, frames[..i]) == b
    {
      assert frames[..i + 1][..i] == frames[..i];
      b := HandleFrame(bot, transport, b, frames[i]);
      i := i + 1;
    }
    if i < |frames| {
      PumpAfterFailure(bot, transport, frames, i);
    } else {
      assert frames[..i] == frames;
    }
    asked, sent, logged := b.asked, b.sent, b.logged;
    r := if b.failed.Some? then Fail(b.failed.value) else Pass;
  }

  /** Once a send has failed after `i` frames, the loop's state there is its final state. */
  lemma PumpAfterFailure(bot: BotView, transport: nat -> Option<Error>, frames: seq<Frame>, i: nat)
    requires i <= |frames| && Pump(bot, transport, frames[..i]).failed.Some?
    ensures Pump(bot, transport, frames) == Pump(bot, transport, frames[..i])
  {
    assert frames[..i] + frames[i..] == frames;
    FailedBridgeIgnoresFrames(bot, transport, frames[..i], frames[i..]);
  }
}
