/** Length-prefixed messages over a byte stream that arrives in arbitrary pieces. */
module Framing {
  import opened Entities

  newtype Byte = x: int | 0 <= x < 256

  const PREFIX: nat := 4
  const TOO_LONG: nat := 0x1_0000_0000

  /** `struct.pack("!I", n)` and back. */
  function BigEndian(n: nat): (r: seq<Byte>)
    requires n < TOO_LONG
    ensures |r| == PREFIX
  {
    [(n / 256 / 256 / 256) as Byte, (n / 256 / 256 % 256) as Byte, (n / 256 % 256) as Byte, (n % 256) as Byte]
  }

  function Number(b: seq<Byte>): (n: nat)
    requires |b| == PREFIX
    ensures n < TOO_LONG
  {
    ((b[0] as int * 256 + b[1] as int) * 256 + b[2] as int) * 256 + b[3] as int
  }

  lemma Digits(q: nat, r: nat)
    requires r < 256
    ensures (q * 256 + r) / 256 == q && (q * 256 + r) % 256 == r
  {
  }

  lemma NumberOfBytes(n: nat)
    requires n < TOO_LONG
    ensures Number(BigEndian(n)) == n
  {
    assert n == n / 256 * 256 + n % 256;
    assert n / 256 == n / 256 / 256 * 256 + n / 256 % 256;
    assert n / 256 / 256 == n / 256 / 256 / 256 * 256 + n / 256 / 256 % 256;
  }

  /** The most significant byte comes first. */
  lemma FirstByteIsMostSignificant(n: nat)
    requires n < TOO_LONG
    ensures var b := BigEndian(n);
            n == b[0] as int * 0x1000000 + b[1] as int * 0x10000 + b[2] as int * 0x100 + b[3] as int
  {
    NumberOfBytes(n);
  }

  lemma BytesOfNumber(b: seq<Byte>)
    requires |b| == PREFIX
    ensures BigEndian(Number(b)) == b
  {
    var high := b[0] as int * 256 + b[1] as int;
    var middle := high * 256 + b[2] as int;
    Digits(b[0] as int, b[1] as int);
    Digits(high, b[2] as int);
    Digits(middle, b[3] as int);
  }

  function Frame(data: seq<Byte>): seq<Byte>
    requires |data| < TOO_LONG
  {
    BigEndian(|data|) + data
  }

  predicate Sendable(ms: seq<seq<Byte>>) { forall i :: 0 <= i < |ms| ==> |ms[i]| < TOO_LONG }

  function FrameAll(ms: seq<seq<Byte>>): seq<Byte>
    requires Sendable(ms)
  {
    if ms == [] then [] else Frame(ms[0]) + FrameAll(ms[1..])
  }

  // ----- Reading -----

  /** The stream starts with a whole frame. */
  predicate HasFrame(stream: seq<Byte>) {
    |stream| >= PREFIX && |stream| >= PREFIX + Number(stream[..PREFIX])
  }

  function FrameLength(stream: seq<Byte>): nat
    requires HasFrame(stream)
  {
    PREFIX + Number(stream[..PREFIX])
  }

  /** The messages whose frames are complete, and what is left over. */
  function Messages(stream: seq<Byte>): (ms: seq<seq<Byte>>)
    decreases |stream|
  {
    if !HasFrame(stream) then []
    else [stream[PREFIX..FrameLength(stream)]] + Messages(stream[FrameLength(stream)..])
  }

  function Leftover(stream: seq<Byte>): seq<Byte>
    decreases |stream|
  {
    if !HasFrame(stream) then stream else Leftover(stream[FrameLength(stream)..])
  }

  class Socket {
    /** What the peer will still deliver before it closes, and what was written. */
    var incoming: seq<Byte>
    var outgoing: seq<Byte>

    constructor (bytes: seq<Byte>)
      ensures incoming == bytes && outgoing == []
    {
      incoming, outgoing := bytes, [];
    }

    /** Some bytes, at least one and at most `most`; none exactly at the end of the stream. */
    method Recv(most: nat) returns (chunk: seq<Byte>)
      requires most > 0
      modifies `incoming
      ensures old(incoming) == chunk + incoming && |chunk| <= most
      ensures chunk == [] <==> old(incoming) == []
    {
      if incoming == [] { return []; }
      var n :| 1 <= n <= most && n <= |incoming|;
      chunk, incoming := incoming[..n], incoming[n..];
    }

    method SendAll(bytes: seq<Byte>)
      modifies `outgoing
      ensures outgoing == old(outgoing) + bytes
    {
      outgoing := outgoing + bytes;
    }
  }

  class Connection {
    const sock: Socket

    constructor (sock: Socket)
      ensures this.sock == sock
    {
      this.sock := sock;
    }

    method SendBytes(data: seq<Byte>) returns (ok: bool)
      modifies sock`outgoing
      ensures ok == (|data| < TOO_LONG)
      ensures sock.outgoing == old(sock.outgoing) + if ok then Frame(data) else []
    {
      if |data| >= TOO_LONG { return false; }
      sock.SendAll(BigEndian(|data|) + data);
      return true;
    }

    /** Exactly `n` bytes however they arrive, or an error with the stream used up. */
    method RecvExact(n: nat) returns (r: Result<seq<Byte>>)
      modifies sock`incoming
      ensures r.Ok? <==> |old(sock.incoming)| >= n
      ensures r.Ok? ==> r.value == old(sock.incoming)[..n] && sock.incoming == old(sock.incoming)[n..]
      ensures r.Err? ==> sock.incoming == []
    {
      var chunks, remaining := [], n;
      while remaining > 0
        invariant 0 <= remaining <= n && |chunks| == n - remaining && old(sock.incoming) == chunks + sock.incoming
      {
        var chunk := sock.Recv(remaining);
        if chunk == [] { return Err("Socket closed before expected data was received"); }
        chunks := chunks + chunk;
        remaining := remaining - |chunk|;
      }
      return Ok(chunks);
    }

    /** The next message, exactly when the stream starts with a whole frame. */
    method RecvBytes() returns (r: Result<seq<Byte>>)
      modifies sock`incoming
      ensures r.Ok? <==> HasFrame(old(sock.incoming))
      ensures r.Ok? ==> var s := old(sock.incoming);
                        r.value == s[PREFIX..FrameLength(s)] && sock.incoming == s[FrameLength(s)..]
    {
      var header := RecvExact(PREFIX);
      if header.Err? { return header; }
      r := RecvExact(Number(header.value));
    }

    /** Receiving until it fails gives the complete messages of the stream, in any chunking. */
    method RecvAll() returns (ms: seq<seq<Byte>>)
      modifies sock`incoming
      ensures ms == Messages(old(sock.incoming))
    {
      ms := [];
      while true
        invariant ms + Messages(sock.incoming) == Messages(old(sock.incoming))
        decreases |sock.incoming|
      {
        ghost var s := sock.incoming;
        var m := RecvBytes();
        if m.Err? { return; }
        assert Messages(s) == [m.value] + Messages(sock.incoming);
        ms := ms + [m.value];
      }
    }
  }

  // ----- What is read is what was sent -----

  lemma FrameIsRead(m: seq<Byte>, tail: seq<Byte>)
    requires |m| < TOO_LONG
    ensures var s := Frame(m) + tail;
            HasFrame(s) && Messages(s) == [m] + Messages(tail) && Leftover(s) == Leftover(tail)
  {
    var s := Frame(m) + tail;
    NumberOfBytes(|m|);
    assert s[..PREFIX] == BigEndian(|m|);
    assert s[PREFIX..FrameLength(s)] == m && s[FrameLength(s)..] == tail;
  }

  lemma Associative<T>(a: seq<T>, b: seq<T>, c: seq<T>)
    ensures (a + b) + c == a + (b + c)
  {
  }

  lemma FramesFrom(ms: seq<seq<Byte>>, tail: seq<Byte>)
    requires Sendable(ms) && ms != []
    ensures FrameAll(ms) + tail == Frame(ms[0]) + (FrameAll(ms[1..]) + tail)
  {
    Associative(Frame(ms[0]), FrameAll(ms[1..]), tail);
  }

  /** Any list of messages comes out as it went in, whatever follows it. */
  lemma {:induction false} RoundTrip(ms: seq<seq<Byte>>, tail: seq<Byte>)
    requires Sendable(ms)
    ensures Messages(FrameAll(ms) + tail) == ms + Messages(tail) && Leftover(FrameAll(ms) + tail) == Leftover(tail)
    decreases |ms|
  {
    if ms == [] {
      assert FrameAll(ms) + tail == tail;
    } else {
      RoundTrip(ms[1..], tail);
      FramesFrom(ms, tail);
      FrameIsRead(ms[0], FrameAll(ms[1..]) + tail);
      Associative([ms[0]], ms[1..], Messages(tail));
      assert [ms[0]] + ms[1..] == ms;
    }
  }

  lemma FirstFrame(stream: seq<Byte>)
    requires HasFrame(stream)
    ensures Number(stream[..PREFIX]) < TOO_LONG
    ensures Frame(stream[PREFIX..FrameLength(stream)]) + stream[FrameLength(stream)..] == stream
  {
    BytesOfNumber(stream[..PREFIX]);
  }

  ghost predicate IsItsMessages(stream: seq<Byte>, ms: seq<seq<Byte>>, rest: seq<Byte>) {
    Sendable(ms) && stream == FrameAll(ms) + rest && !HasFrame(rest)
  }

  lemma OneMoreFrame(m: seq<Byte>, stream: seq<Byte>, ms: seq<seq<Byte>>, rest: seq<Byte>)
    requires |m| < TOO_LONG && IsItsMessages(stream, ms, rest)
    ensures IsItsMessages(Frame(m) + stream, [m] + ms, rest)
  {
    assert ([m] + ms)[1..] == ms;
    FramesFrom([m] + ms, rest);
  }

  /** Conversely, a stream is the frames of the messages read from it and a rest with no whole frame. */
  lemma {:induction false} StreamIsItsMessages(stream: seq<Byte>)
    ensures IsItsMessages(stream, Messages(stream), Leftover(stream))
    decreases |stream|
  {
    if !HasFrame(stream) {
      assert [] + stream == stream;
    } else {
      var m, rest := stream[PREFIX..FrameLength(stream)], stream[FrameLength(stream)..];
      StreamIsItsMessages(rest);
      FirstFrame(stream);
      OneMoreFrame(m, rest, Messages(rest), Leftover(rest));
    }
  }

  /** `k` frames of the list are complete within the first `n` bytes, and the next is not. */
  ghost predicate CompleteWithin(ms: seq<seq<Byte>>, k: nat, n: nat)
    requires Sendable(ms)
  {
    k <= |ms| && |FrameAll(ms[..k])| <= n && (k < |ms| ==> n < |FrameAll(ms[..k + 1])|)
  }

  lemma CutFrame(m: seq<Byte>, n: nat)
    requires |m| < TOO_LONG && n < |Frame(m)|
    ensures !HasFrame(Frame(m)[..n])
  {
    if n >= PREFIX {
      NumberOfBytes(|m|);
      assert Frame(m)[..n][..PREFIX] == BigEndian(|m|);
    }
  }

  lemma {:induction false} CutMessages(ms: seq<seq<Byte>>, n: nat) returns (k: nat)
    requires Sendable(ms) && n <= |FrameAll(ms)|
    ensures CompleteWithin(ms, k, n) && Messages(FrameAll(ms)[..n]) == ms[..k]
    decreases |ms|
  {
    if ms == [] {
      k := 0;
    } else {
      var first := Frame(ms[0]);
      var cut := FrameAll(ms)[..n];
      if n < |first| {
        k := 0;
        CutFrame(ms[0], n);
        assert cut == first[..n];
        assert ms[..1][1..] == [];
      } else {
        var rest := n - |first|;
        var j := CutMessages(ms[1..], rest);
        k := j + 1;
        assert cut == first + FrameAll(ms[1..])[..rest];
        FrameIsRead(ms[0], FrameAll(ms[1..])[..rest]);
        assert ms[..k][1..] == ms[1..][..j];
        assert k < |ms| ==> ms[..k + 1][1..] == ms[1..][..j + 1];
      }
    }
  }

  /** A truncated stream gives exactly the messages that are complete in it, and what is left starts
      with no whole frame, so receiving once more is an error. */
  lemma TruncatedStream(ms: seq<seq<Byte>>, n: nat) returns (k: nat)
    requires Sendable(ms) && n <= |FrameAll(ms)|
    ensures CompleteWithin(ms, k, n) && Messages(FrameAll(ms)[..n]) == ms[..k] && !HasFrame(Leftover(FrameAll(ms)[..n]))
  {
    k := CutMessages(ms, n);
    StreamIsItsMessages(FrameAll(ms)[..n]);
  }
}
