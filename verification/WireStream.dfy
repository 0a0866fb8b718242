/** The receive side of a MultiWorld connection (internal/mwproto/client.go): a byte
    stream becomes messages, and pings are filtered out. */
module WireStream {
  import opened Bytes
  import opened Options
  import opened Wire

  /* Staying in step with the frames */

  /** A frame carries its own size, which is at least that of the size field. */
  predicate WellFramed(f: seq<byte>) {
    |f| >= 4 && FromLittleEndian(f[..4]) == |f|
  }

  /** What one frame decodes to, on its own. */
  function FrameOutcome(f: seq<byte>, jsonOk: JsonCheck): Outcome
    requires WellFramed(f)
  {
    if |f| < HEADER || |f| > MAX_SIZE then Bad
    else DecodeBody(FromLittleEndian(f[4..8]), f[HEADER..], jsonOk)
  }

  /** Whatever is in the frame, Read takes exactly its declared bytes. */
  lemma ReadTakesFrame(f: seq<byte>, rest: seq<byte>, jsonOk: JsonCheck)
    requires WellFramed(f)
    ensures Read(f + rest, jsonOk) == Reading(FrameOutcome(f, jsonOk), rest)
  {
    var s := f + rest;
    assert s[..4] == f[..4];
    assert s[|f|..] == rest;
    if HEADER <= |f| <= MAX_SIZE {
      assert s[4..8] == f[4..8] && s[HEADER..|f|] == f[HEADER..];
    }
  }

  function Concat(frames: seq<seq<byte>>): seq<byte> {
    if frames == [] then [] else frames[0] + Concat(frames[1..])
  }

  lemma ReadConsumes(s: seq<byte>, jsonOk: JsonCheck)
    ensures !Read(s, jsonOk).outcome.Eof? ==> |Read(s, jsonOk).rest| < |s|
  {
  }

  /** What recvMessages puts into its channel; `crashed` when decoding panicked. */
  datatype Received = Received(messages: seq<Message>, crashed: bool)

  function Receive(s: seq<byte>, jsonOk: JsonCheck): Received
    decreases |s|
  {
    var r := Read(s, jsonOk);
    if r.outcome.Eof? then Received([], false)
    else if r.outcome.Crash? then Received([], true)
    else
      ReadConsumes(s, jsonOk);
      var more := Receive(r.rest, jsonOk);
      if r.outcome.Got? then Received([r.outcome.m] + more.messages, more.crashed) else more
  }

  /** The loop of recvMessages. */
  method RecvMessages(s: seq<byte>, jsonOk: JsonCheck) returns (out: seq<Message>, crashed: bool)
    ensures Received(out, crashed) == Receive(s, jsonOk)
  {
    out := [];
    var left := s;
    while true
      invariant Receive(s, jsonOk) ==
                (var more := Receive(left, jsonOk); Received(out + more.messages, more.crashed))
      decreases |left|
    {
      var r := Read(left, jsonOk);
      ReadConsumes(left, jsonOk);
      if r.outcome.Eof? { assert out + [] == out; return out, false; }
      if r.outcome.Crash? { assert out + [] == out; return out, true; }
      ghost var more := Receive(r.rest, jsonOk);
      if r.outcome.Got? {
        assert out + ([r.outcome.m] + more.messages) == out + [r.outcome.m] + more.messages;
        out := out + [r.outcome.m];
      }
      left := r.rest;
    }
  }

  /** The messages of the frames that decode, in order, up to the first panic. */
  function Decodable(frames: seq<seq<byte>>, jsonOk: JsonCheck): Received
    requires forall i :: 0 <= i < |frames| ==> WellFramed(frames[i])
  {
    if frames == [] then Received([], false)
    else
      var o := FrameOutcome(frames[0], jsonOk);
      if o.Crash? then Received([], true)
      else
        var more := Decodable(frames[1..], jsonOk);
        if o.Got? then Received([o.m] + more.messages, more.crashed) else more
  }

  /** A frame cut short at the end of the stream. */
  predicate Truncated(tail: seq<byte>) {
    |tail| < 4 || |tail| < FromLittleEndian(tail[..4])
  }

  lemma TruncatedReceives(tail: seq<byte>, jsonOk: JsonCheck)
    requires Truncated(tail)
    ensures Receive(tail, jsonOk) == Received([], false)
  {
    if tail != [] {
      var r := Read(tail, jsonOk);
      assert r.rest == [] && (r.outcome.Bad? || r.outcome.Eof?);
      assert Receive([], jsonOk) == Received([], false);
    }
  }

  /** Resynchronisation: for any frames, including ones of a wrong size, of unknown type
      or with a bad payload, and even if the last one is cut short, exactly the
      decodable ones come out, in order. */
  lemma {:induction false} StreamResynchronises(frames: seq<seq<byte>>, tail: seq<byte>, jsonOk: JsonCheck)
    requires forall i :: 0 <= i < |frames| ==> WellFramed(frames[i])
    requires Truncated(tail)
    ensures Receive(Concat(frames) + tail, jsonOk) == Decodable(frames, jsonOk)
    decreases |frames|
  {
    if frames == [] {
      assert Concat(frames) + tail == tail;
      TruncatedReceives(tail, jsonOk);
    } else {
      var rest := Concat(frames[1..]) + tail;
      assert Concat(frames) + tail == frames[0] + rest;
      ReadTakesFrame(frames[0], rest, jsonOk);
      StreamResynchronises(frames[1..], tail, jsonOk);
    }
  }

  /** Sending a list of messages and receiving them gives them back. */
  function EncodeAll(ms: seq<Message>): seq<seq<byte>>
    requires forall i :: 0 <= i < |ms| ==> Survives(ms[i])
  {
    seq(|ms|, i requires 0 <= i < |ms| => assert Survives(ms[i]); Encoded(ms[i]).value)
  }

  lemma EncodedIsFramed(m: Message, jsonOk: JsonCheck)
    requires Typed(m) && Survives(m) && JsonAccepted(m.fields, 0, m.code, jsonOk)
    ensures WellFramed(Encoded(m).value) && FrameOutcome(Encoded(m).value, jsonOk) == Got(m)
  {
    EncodedLayout(m);
    var e := Encoded(m).value;
    RoundTripIff(m, [], jsonOk);
    ReadTakesFrame(e, [], jsonOk);
  }

  lemma {:induction false} StreamRoundTrip(ms: seq<Message>, jsonOk: JsonCheck)
    requires forall i :: 0 <= i < |ms| ==>
               Typed(ms[i]) && Survives(ms[i]) && JsonAccepted(ms[i].fields, 0, ms[i].code, jsonOk)
    ensures Receive(Concat(EncodeAll(ms)), jsonOk) == Received(ms, false)
  {
    var frames := EncodeAll(ms);
    forall i | 0 <= i < |ms|
      ensures WellFramed(frames[i]) && FrameOutcome(frames[i], jsonOk) == Got(ms[i])
    {
      EncodedIsFramed(ms[i], jsonOk);
    }
    StreamResynchronises(frames, [], jsonOk);
    assert Concat(frames) + [] == Concat(frames);
    AllDecodable(ms, frames, jsonOk);
  }

  lemma {:induction false} AllDecodable(ms: seq<Message>, frames: seq<seq<byte>>, jsonOk: JsonCheck)
    requires |ms| == |frames|
    requires forall i :: 0 <= i < |ms| ==> WellFramed(frames[i]) && FrameOutcome(frames[i], jsonOk) == Got(ms[i])
    ensures Decodable(frames, jsonOk) == Received(ms, false)
    decreases |ms|
  {
    if ms != [] {
      AllDecodable(ms[1..], frames[1..], jsonOk);
      assert ms == [ms[0]] + ms[1..];
    }
  }

  /* Filtering pings */

  const RECONNECT_THRESHOLD := 5

  /** What the ping goroutine sees: the timer, a message, or the end of the stream. */
  datatype Event = Tick | Arrive(m: Message) | Closed

  datatype Ending = Waiting | TimedOut | StreamClosed

  function Forwarded(events: seq<Event>): seq<Message> {
    if events == [] then []
    else
      var front := Forwarded(events[..|events| - 1]);
      var e := events[|events| - 1];
      if e.Arrive? && e.m.code != PING then front + [e.m] else front
  }

  /** Timer ticks since the last answer to a ping. */
  function Silence(events: seq<Event>): nat {
    if events == [] then 0
    else
      var front := Silence(events[..|events| - 1]);
      match events[|events| - 1]
      case Tick => front + 1
      case Arrive(m) => if m.code == PING then 0 else front
      case Closed => front
  }

  function Ticks(events: seq<Event>): nat {
    if events == [] then 0
    else Ticks(events[..|events| - 1]) + if events[|events| - 1].Tick? then 1 else 0
  }

  /** The stream ended, or the fifth tick in a row without an answer passed. */
  predicate Over(events: seq<Event>) {
    events != [] &&
    (events[|events| - 1].Closed? || (events[|events| - 1].Tick? && Silence(events) == 5))
  }

  lemma Snoc(events: seq<Event>, i: nat)
    requires i < |events|
    ensures events[..i + 1][..i] == events[..i] && events[..i + 1][i] == events[i]
  {
  }

  /** The ping loop stops at the first event that ends it. Until then it forwards every
      message that is not a ping, in order and without loss, and sends one ping per tick;
      messages other than pings do not count as answers. */
  method Ping(events: seq<Event>) returns (inbox: seq<Message>, pings: nat, ending: Ending, seen: nat)
    ensures seen <= |events| && inbox == Forwarded(events[..seen])
    ensures pings == Ticks(events[..seen]) - (if ending.TimedOut? then 1 else 0)
    ensures forall k :: 0 <= k < seen ==> !Over(events[..k])
    ensures ending.Waiting? <==> seen == |events| && !Over(events)
    ensures ending.StreamClosed? ==> seen > 0 && events[seen - 1].Closed?
    ensures ending.TimedOut? ==> seen > 0 && events[seen - 1].Tick? && Silence(events[..seen]) == 5
  {
    inbox, pings, ending, seen := [], 0, Waiting, 0;
    var unanswered := 0;
    while seen < |events|
      invariant seen <= |events| && ending.Waiting?
      invariant inbox == Forwarded(events[..seen]) && pings == Ticks(events[..seen])
      invariant unanswered == Silence(events[..seen])
      invariant unanswered < RECONNECT_THRESHOLD
      invariant forall k :: 0 <= k <= seen ==> !Over(events[..k])
    {
      Snoc(events, seen);
      var e := events[seen];
      seen := seen + 1;
      match e
      case Tick =>
        unanswered := unanswered + 1;
        if unanswered == RECONNECT_THRESHOLD {
          ending := TimedOut;
          assert Over(events[..seen]);
          assert seen == |events| ==> events[..seen] == events;
          return;
        }
        pings := pings + 1;
      case Closed =>
        ending := StreamClosed;
        assert Over(events[..seen]);
        assert seen == |events| ==> events[..seen] == events;
        return;
      case Arrive(m) =>
        if m.code == PING { unanswered := 0; } else { inbox := inbox + [m]; }
    }
    assert events[..seen] == events;
  }

  function Arrivals(events: seq<Event>): seq<Message> {
    if events == [] then []
    else
      var front := Arrivals(events[..|events| - 1]);
      if events[|events| - 1].Arrive? then front + [events[|events| - 1].m] else front
  }

  function NoPings(ms: seq<Message>): seq<Message> {
    if ms == [] then []
    else
      var front := NoPings(ms[..|ms| - 1]);
      if ms[|ms| - 1].code != PING then front + [ms[|ms| - 1]] else front
  }

  /** The forwarded messages are the non-ping subsequence of what arrived. */
  lemma {:induction false} ForwardedAreNonPings(events: seq<Event>)
    ensures Forwarded(events) == NoPings(Arrivals(events))
  {
    if events != [] {
      var front := events[..|events| - 1];
      ForwardedAreNonPings(front);
      var e := events[|events| - 1];
      if e.Arrive? {
        var ms := Arrivals(events);
        assert ms[..|ms| - 1] == Arrivals(front) && ms[|ms| - 1] == e.m;
      }
    }
  }

  /** What has been forwarded stays: the inbox of a longer run extends that of a shorter
      one, so it is always a prefix of all non-ping messages. */
  lemma {:induction false} ForwardedGrows(events: seq<Event>, k: nat)
    requires k <= |events|
    ensures Forwarded(events[..k]) <= Forwarded(events)
    decreases |events| - k
  {
    if k == |events| {
      assert events[..k] == events;
    } else {
      Snoc(events, k);
      ForwardedGrows(events, k + 1);
    }
  }

  lemma {:induction false} NoPingsGrow(a: seq<Message>, b: seq<Message>)
    requires a <= b
    ensures NoPings(a) <= NoPings(b)
    decreases |b|
  {
    if |a| < |b| {
      assert a <= b[..|b| - 1];
      NoPingsGrow(a, b[..|b| - 1]);
    } else {
      assert a == b;
    }
  }

  /** From bytes to inbox: after any number of events, the inbox is a prefix of the
      non-ping messages among the decodable frames of the stream. */
  lemma InboxFollowsStream(frames: seq<seq<byte>>, tail: seq<byte>, jsonOk: JsonCheck, events: seq<Event>, k: nat)
    requires forall i :: 0 <= i < |frames| ==> WellFramed(frames[i])
    requires Truncated(tail) && k <= |events|
    requires Arrivals(events) <= Receive(Concat(frames) + tail, jsonOk).messages
    ensures Forwarded(events[..k]) <= NoPings(Decodable(frames, jsonOk).messages)
  {
    StreamResynchronises(frames, tail, jsonOk);
    ForwardedGrows(events, k);
    ForwardedAreNonPings(events);
    NoPingsGrow(Arrivals(events), Decodable(frames, jsonOk).messages);
  }
}
