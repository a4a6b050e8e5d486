/** Length-prefixed frames over a byte stream (hornlab_beat_bem/worker_registry.py,
    `send_frame`, `receive_frame`, `_receive_exactly`). */
module Framing {
  import opened Prelude

  newtype byte = x: int | 0 <= x < 256

  const HEADER_SIZE := 4
  const HEADER_LIMIT := 0x1_0000_0000
  const MAX_FRAME_BYTES := 512 * 1024 * 1024
  const RECV_LIMIT := 0x10_0000

  /** struct "!I": four bytes, most significant first. */
  function Pack(n: nat): (h: seq<byte>)
    requires n < HEADER_LIMIT
    ensures |h| == HEADER_SIZE
  {
    [(n / 0x100_0000) as byte, (n / 0x1_0000 % 0x100) as byte, (n / 0x100 % 0x100) as byte, (n % 0x100) as byte]
  }

  function Unpack(h: seq<byte>): (n: nat)
    requires |h| == HEADER_SIZE
    ensures n < HEADER_LIMIT
  {
    h[0] as int * 0x100_0000 + h[1] as int * 0x1_0000 + h[2] as int * 0x100 + h[3] as int
  }

  lemma HeaderRoundTrip(n: nat)
    requires n < HEADER_LIMIT
    ensures Unpack(Pack(n)) == n
  {
    var a, b, c := n / 0x100, n / 0x1_0000, n / 0x100_0000;
    assert n == a * 0x100 + n % 0x100;
    assert a == b * 0x100 + a % 0x100 by {
      assert b == a / 0x100;
    }
    assert b == c * 0x100 + b % 0x100 by {
      assert c == b / 0x100;
    }
  }

  /** Why a receiver stopped: the stream ended (between frames or inside one), a header claimed
      more than the limit, or a frame was empty, which no JSON text is. */
  datatype Verdict = Ended | TooLong | NotJson

  datatype Received = Received(bodies: seq<seq<byte>>, verdict: Verdict)

  /** What a receiver makes of a stream, reading frame after frame until it stops. */
  function Decode(stream: seq<byte>): Received
    decreases |stream|
  {
    if |stream| < HEADER_SIZE then Received([], Ended)
    else
      var length := Unpack(stream[..HEADER_SIZE]);
      if length > MAX_FRAME_BYTES then Received([], TooLong)
      else if |stream| < HEADER_SIZE + length then Received([], Ended)
      else if length == 0 then Received([], NotJson)
      else
        var rest := Decode(stream[HEADER_SIZE + length..]);
        Received([stream[HEADER_SIZE..HEADER_SIZE + length]] + rest.bodies, rest.verdict)
  }

  function Frame(body: seq<byte>): seq<byte>
    requires |body| < HEADER_LIMIT
  {
    Pack(|body|) + body
  }

  predicate Sendable(bodies: seq<seq<byte>>) {
    forall b :: b in bodies ==> |b| < HEADER_LIMIT
  }

  /** The stream of a list of bodies sent one at a time. */
  function Stream(bodies: seq<seq<byte>>): seq<byte>
    requires Sendable(bodies)
  {
    if bodies == [] then [] else Frame(bodies[0]) + Stream(bodies[1..])
  }

  predicate Acceptable(body: seq<byte>) {
    0 < |body| <= MAX_FRAME_BYTES
  }

  /* ---------- Sockets ---------- */

  datatype Reply = Body(body: seq<byte>) | Nothing | Bad(verdict: Verdict)

  class Connection {
    /** Everything that has yet to arrive before the stream ends. */
    var incoming: seq<byte>
    var outgoing: seq<byte>

    constructor (bytes: seq<byte>)
      ensures incoming == bytes && outgoing == []
    {
      incoming, outgoing := bytes, [];
    }

    /** `recv`: some of what is there, at most `limit`, and nothing only at the end. */
    method Recv(limit: nat) returns (chunk: seq<byte>)
      requires limit > 0
      modifies this`incoming
      ensures old(incoming) == chunk + incoming && |chunk| <= limit
      ensures chunk == [] <==> old(incoming) == []
    {
      if |incoming| == 0 {
        return [];
      }
      var n: int := *;
      if n <= 0 || n > limit || n > |incoming| {
        n := 1;
      }
      chunk := incoming[..n];
      incoming := incoming[n..];
    }

    /** `_receive_exactly`: the next `count` bytes however they are cut up, or None at the end
        of the stream. */
    method ReceiveExactly(count: nat) returns (r: Option<seq<byte>>)
      modifies this`incoming
      ensures |old(incoming)| >= count ==> r == Some(old(incoming)[..count]) && incoming == old(incoming)[count..]
      ensures |old(incoming)| < count ==> r == None && incoming == []
    {
      var chunks: seq<byte> := [];
      var remaining := count;
      while remaining > 0
        invariant 0 <= remaining <= count && |chunks| == count - remaining
        invariant old(incoming) == chunks + incoming
      {
        var chunk := Recv(if remaining < RECV_LIMIT then remaining else RECV_LIMIT);
        if chunk == [] {
          return None;
        }
        chunks := chunks + chunk;
        remaining := remaining - |chunk|;
      }
      r := Some(chunks);
    }

    /** `receive_frame`, one step of `Decode`. */
    method ReceiveFrame() returns (r: Reply)
      modifies this`incoming
      ensures var d := Decode(old(incoming));
              match r
              case Body(body) => |incoming| < |old(incoming)|
                  && d == Received([body] + Decode(incoming).bodies, Decode(incoming).verdict)
              case Nothing => d == Received([], Ended)
              case Bad(v) => d == Received([], v) && v != Ended
    {
      ghost var stream := incoming;
      var header := ReceiveExactly(HEADER_SIZE);
      if header.None? {
        return Nothing;
      }
      var length := Unpack(header.value);
      if length > MAX_FRAME_BYTES {
        return Bad(TooLong);
      }
      var body := ReceiveExactly(length);
      if body.None? {
        return Nothing;
      }
      assert stream[HEADER_SIZE..][..length] == stream[HEADER_SIZE..HEADER_SIZE + length];
      assert stream[HEADER_SIZE..][length..] == stream[HEADER_SIZE + length..];
      if body.value == [] {
        return Bad(NotJson);
      }
      r := Body(body.value);
    }

    /** A receiver that keeps receiving gets exactly what `Decode` says, whatever the chunks. */
    method ReceiveAll() returns (r: Received)
      modifies this`incoming
      ensures r == Decode(old(incoming))
    {
      var bodies: seq<seq<byte>> := [];
      ghost var all := Decode(incoming);
      ghost var rest := all;
      while true
        invariant rest == Decode(incoming) && all == Received(bodies + rest.bodies, rest.verdict)
        decreases |incoming|
      {
        var reply := ReceiveFrame();
        match reply {
          case Body(body) =>
            assert rest.bodies == [body] + Decode(incoming).bodies;
            rest := Decode(incoming);
            assert bodies + ([body] + rest.bodies) == bodies + [body] + rest.bodies;
            bodies := bodies + [body];
          case Nothing =>
            assert bodies + [] == bodies;
            return Received(bodies, Ended);
          case Bad(v) =>
            assert bodies + [] == bodies;
            return Received(bodies, v);
        }
      }
    }

    /** `send_frame`; false where packing the length raises, and then nothing is sent. */
    method SendFrame(body: seq<byte>) returns (sent: bool)
      modifies this`outgoing
      ensures sent <==> |body| < HEADER_LIMIT
      ensures outgoing == old(outgoing) + if sent then Frame(body) else []
      ensures sent ==>
                var frame := outgoing[|old(outgoing)|..];
                && |frame| == 4 + |body| && frame[4..] == body
                && frame[0] as int * 0x100_0000 + frame[1] as int * 0x1_0000 + frame[2] as int * 0x100
                   + frame[3] as int == |body|
    {
      sent := |body| < HEADER_LIMIT;
      if sent {
        HeaderRoundTrip(|body|);
        outgoing := outgoing + Pack(|body|) + body;
        assert outgoing[|old(outgoing)|..] == Frame(body);
      }
    }

    method SendAll(bodies: seq<seq<byte>>)
      requires Sendable(bodies)
      modifies this`outgoing
      ensures outgoing == old(outgoing) + Stream(bodies)
    {
      for k := 0 to |bodies|
        invariant outgoing + Stream(bodies[k..]) == old(outgoing) + Stream(bodies)
      {
        assert bodies[k..][1..] == bodies[k + 1..];
        var sent := SendFrame(bodies[k]);
      }
    }
  }

  /* ---------- What arrives ---------- */

  /** The first frame of a stream whose header is in order. */
  lemma DecodeFrame(body: seq<byte>, tail: seq<byte>)
    requires |body| < HEADER_LIMIT
    ensures Decode(Frame(body) + tail)
            == if |body| > MAX_FRAME_BYTES then Received([], TooLong)
               else if body == [] then Received([], NotJson)
               else Received([body] + Decode(tail).bodies, Decode(tail).verdict)
  {
    HeaderRoundTrip(|body|);
    var stream := Frame(body) + tail;
    assert stream[..HEADER_SIZE] == Pack(|body|);
    assert stream[HEADER_SIZE..HEADER_SIZE + |body|] == body;
    assert stream[HEADER_SIZE + |body|..] == tail;
  }

  /** How many of the bodies lie wholly within the first `n` bytes of their stream. */
  function Complete(bodies: seq<seq<byte>>, n: nat): nat
    requires Sendable(bodies)
  {
    if bodies == [] || n < |Frame(bodies[0])| then 0 else 1 + Complete(bodies[1..], n - |Frame(bodies[0])|)
  }

  /** A stream cut anywhere yields exactly its complete frames and then nothing: never a wrong
      frame, and no sign of the one that was cut. */
  lemma {:induction false} CutStream(bodies: seq<seq<byte>>, n: nat)
    requires Sendable(bodies) && n <= |Stream(bodies)|
    requires forall b :: b in bodies ==> Acceptable(b)
    ensures Complete(bodies, n) <= |bodies|
    ensures Decode(Stream(bodies)[..n]) == Received(bodies[..Complete(bodies, n)], Ended)
  {
    if bodies == [] {
      assert Stream(bodies)[..n] == [];
    } else if n < |Frame(bodies[0])| {
      assert Stream(bodies)[..n] == Frame(bodies[0])[..n];
      CutFrame(bodies[0], n);
    } else {
      var rest := bodies[1..];
      var m := n - |Frame(bodies[0])|;
      CutStream(rest, m);
      TakeSum(Frame(bodies[0]), Stream(rest), n);
      OneMoreFrame(bodies, Stream(rest)[..m], Complete(rest, m), Ended);
    }
  }

  lemma OneMoreFrame(bodies: seq<seq<byte>>, tail: seq<byte>, c: nat, v: Verdict)
    requires bodies != [] && Acceptable(bodies[0]) && c <= |bodies| - 1
    requires Decode(tail) == Received(bodies[1..][..c], v)
    ensures Decode(Frame(bodies[0]) + tail) == Received(bodies[..c + 1], v)
  {
    DecodeFrame(bodies[0], tail);
    assert bodies[..c + 1] == [bodies[0]] + bodies[1..][..c];
  }

  lemma TakeSum(a: seq<byte>, b: seq<byte>, n: nat)
    requires |a| <= n <= |a| + |b|
    ensures (a + b)[..n] == a + b[..n - |a|]
  {
  }

  lemma CutFrame(body: seq<byte>, n: nat)
    requires Acceptable(body) && n < |Frame(body)|
    ensures Decode(Frame(body)[..n]) == Received([], Ended)
  {
    HeaderRoundTrip(|body|);
    if n >= HEADER_SIZE {
      assert Frame(body)[..n][..HEADER_SIZE] == Pack(|body|);
    }
  }

  lemma {:induction false} WholeIsComplete(bodies: seq<seq<byte>>)
    requires Sendable(bodies)
    ensures Complete(bodies, |Stream(bodies)|) == |bodies|
  {
    if bodies != [] {
      WholeIsComplete(bodies[1..]);
    }
  }

  /** The round trip: what was sent is what is received, in order, and then the end -- exactly if
      no body is empty and none is over the receiver's limit, which the sender does not check. */
  lemma {:induction false} RoundTrip(bodies: seq<seq<byte>>)
    requires Sendable(bodies)
    ensures Decode(Stream(bodies)) == Received(bodies, Ended) <==> forall b :: b in bodies ==> Acceptable(b)
  {
    if forall b :: b in bodies ==> Acceptable(b) {
      CutStream(bodies, |Stream(bodies)|);
      WholeIsComplete(bodies);
      assert Stream(bodies)[..|Stream(bodies)|] == Stream(bodies);
    } else {
      var k := FirstUnacceptable(bodies);
      StopsAt(bodies, k);
    }
  }

  lemma {:induction false} FirstUnacceptable(bodies: seq<seq<byte>>) returns (k: nat)
    requires exists b :: b in bodies && !Acceptable(b)
    ensures k < |bodies| && !Acceptable(bodies[k]) && forall j :: 0 <= j < k ==> Acceptable(bodies[j])
  {
    if !Acceptable(bodies[0]) {
      k := 0;
    } else {
      var b :| b in bodies && !Acceptable(b);
      assert b in bodies[1..];
      var rest := FirstUnacceptable(bodies[1..]);
      k := rest + 1;
    }
  }

  /** The receiver takes everything before the first body it cannot take, and refuses that one. */
  lemma {:induction false} StopsAt(bodies: seq<seq<byte>>, k: nat)
    requires Sendable(bodies) && k < |bodies| && !Acceptable(bodies[k])
    requires forall j :: 0 <= j < k ==> Acceptable(bodies[j])
    ensures Decode(Stream(bodies)) == Received(bodies[..k], if bodies[k] == [] then NotJson else TooLong)
  {
    if k == 0 {
      DecodeFrame(bodies[0], Stream(bodies[1..]));
      assert bodies[..k] == [];
    } else {
      StopsAt(bodies[1..], k - 1);
      OneMoreFrame(bodies, Stream(bodies[1..]), k - 1, if bodies[k] == [] then NotJson else TooLong);
    }
  }
}
