/** The byte protocol of firewall_client.py and cpp/firewall_daemon.cpp: message formats, the read
    and write loops over a stream socket, and the two ends that use them. */
module Wire {
  import opened Common
  import opened Ipv4
  import opened Daemon

  type Word16 = x: int | 0 <= x < 0x1_0000

  const REQUEST_SIZE := 13
  const RESPONSE_SIZE := 2

  datatype Request = Request(src: Addr, dst: Addr, srcPort: Word16, dstPort: Word16, protocol: Byte)

  // --- Formats ---------------------------------------------------------------------------------

  function Pack16(x: Word16): seq<Byte> {
    [x / 0x100, x % 0x100]
  }

  function Unpack16(b: seq<Byte>): Word16
    requires |b| == 2
  {
    var high: int, low: int := b[0], b[1];
    high * 0x100 + low
  }

  function Pack32(x: Addr): seq<Byte> {
    Pack16(x / 0x1_0000) + Pack16(x % 0x1_0000)
  }

  function Unpack32(b: seq<Byte>): Addr
    requires |b| == 4
  {
    var high: int, low: int := Unpack16(b[..2]), Unpack16(b[2..]);
    high * 0x1_0000 + low
  }

  /** `struct.pack("!IIHHB", ...)`. */
  function Pack(r: Request): (b: seq<Byte>)
    ensures |b| == REQUEST_SIZE
  {
    Pack32(r.src) + Pack32(r.dst) + Pack16(r.srcPort) + Pack16(r.dstPort) + [r.protocol]
  }

  /** The packed `FilterRequest` struct read in host order. */
  function Unpack(b: seq<Byte>): Request
    requires |b| == REQUEST_SIZE
  {
    Request(Unpack32(b[0..4]), Unpack32(b[4..8]), Unpack16(b[8..10]), Unpack16(b[10..12]), b[12])
  }

  function PackResponse(r: Response): seq<Byte> {
    [r.verdict, r.ruleId]
  }

  lemma Pack32OfUnpack32(b: seq<Byte>)
    requires |b| == 4
    ensures Pack32(Unpack32(b)) == b
  {
  }

  /** What the daemon reads is what the client packed. */
  lemma UnpackOfPack(r: Request)
    ensures Unpack(Pack(r)) == r
  {
  }

  /** The bytes of a request on the wire: both addresses, both ports, then the protocol, each number with its
      most significant byte first. */
  lemma RequestsAreInNetworkOrder(r: Request)
    ensures var b := Pack(r);
            && r.src == b[0] as int * 0x100_0000 + b[1] as int * 0x1_0000 + b[2] as int * 0x100 + b[3]
            && r.dst == b[4] as int * 0x100_0000 + b[5] as int * 0x1_0000 + b[6] as int * 0x100 + b[7]
            && r.srcPort == b[8] as int * 0x100 + b[9] && r.dstPort == b[10] as int * 0x100 + b[11] && r.protocol == b[12]
  {
    Pack32IsInNetworkOrder(r.src);
    Pack32IsInNetworkOrder(r.dst);
  }

  lemma Pack32IsInNetworkOrder(x: Addr)
    ensures |Pack32(x)| == 4 && x == Pack32(x)[0] as int * 0x100_0000 + Pack32(x)[1] as int * 0x1_0000 + Pack32(x)[2] as int * 0x100 + Pack32(x)[3]
  {
  }

  /** Every 13 bytes are the packing of some request, so no request is malformed. */
  lemma PackOfUnpack(b: seq<Byte>)
    requires |b| == REQUEST_SIZE
    ensures Pack(Unpack(b)) == b
  {
    Pack32OfUnpack32(b[0..4]);
    Pack32OfUnpack32(b[4..8]);
    assert b == b[0..4] + b[4..8] + b[8..10] + b[10..12] + [b[12]];
  }

  // --- The daemon's byte function --------------------------------------------------------------

  /** The daemon's answer to one complete request. */
  function Serve(h: Header, b: seq<Byte>): (r: seq<Byte>)
    requires TablesReadable(h) && |b| == REQUEST_SIZE
    ensures |r| == RESPONSE_SIZE
  {
    var q := Unpack(b);
    PackResponse(Answer(h, q.src, q.dst, q.protocol))
  }

  /** Its answers to a byte stream; a partial request at the end gets none. */
  function ServeAll(h: Header, input: seq<Byte>): seq<Byte>
    requires TablesReadable(h)
  {
    if |input| < REQUEST_SIZE then [] else Serve(h, input[..REQUEST_SIZE]) + ServeAll(h, input[REQUEST_SIZE..])
  }

  lemma ServeAllFirst(h: Header, b: seq<Byte>, rest: seq<Byte>)
    requires TablesReadable(h) && |b| == REQUEST_SIZE
    ensures ServeAll(h, b + rest) == Serve(h, b) + ServeAll(h, rest)
  {
    assert (b + rest)[..REQUEST_SIZE] == b && (b + rest)[REQUEST_SIZE..] == rest;
  }

  lemma Reassociates(a: seq<Byte>, b: seq<Byte>, c: seq<Byte>)
    ensures (a + b) + c == a + (b + c)
  {
  }

  lemma FirstThenRest(h: Header, b: seq<Byte>, more: seq<Byte>, rest: seq<Byte>)
    requires TablesReadable(h) && |b| == REQUEST_SIZE && ServeAll(h, more + rest) == ServeAll(h, more) + ServeAll(h, rest)
    ensures ServeAll(h, (b + more) + rest) == ServeAll(h, b + more) + ServeAll(h, rest)
  {
    Reassociates(b, more, rest);
    ServeAllFirst(h, b, more);
    ServeAllFirst(h, b, more + rest);
    Reassociates(Serve(h, b), ServeAll(h, more), ServeAll(h, rest));
  }

  /** What follows complete requests is answered after them. */
  lemma {:induction false} ServeAllConcatenates(h: Header, done: seq<Byte>, n: nat, rest: seq<Byte>)
    requires TablesReadable(h) && |done| == n * REQUEST_SIZE
    ensures ServeAll(h, done + rest) == ServeAll(h, done) + ServeAll(h, rest)
  {
    if n == 0 {
      assert done + rest == rest;
    } else {
      var b, more := done[..REQUEST_SIZE], done[REQUEST_SIZE..];
      ServeAllConcatenates(h, more, n - 1, rest);
      FirstThenRest(h, b, more, rest);
      assert b + more == done;
    }
  }

  lemma ServeAllOneMore(h: Header, done: seq<Byte>, n: nat, b: seq<Byte>)
    requires TablesReadable(h) && |done| == n * REQUEST_SIZE && |b| == REQUEST_SIZE
    ensures ServeAll(h, done + b) == ServeAll(h, done) + Serve(h, b)
  {
    ServeAllConcatenates(h, done, n, b);
    ServeAllFirst(h, b, []);
    assert b + [] == b;
  }

  lemma PartialRequestIsNotServed(h: Header, done: seq<Byte>, n: nat, partial: seq<Byte>)
    requires TablesReadable(h) && |done| == n * REQUEST_SIZE && |partial| < REQUEST_SIZE
    ensures ServeAll(h, done + partial) == ServeAll(h, done)
  {
    ServeAllConcatenates(h, done, n, partial);
  }

  // --- Sockets ---------------------------------------------------------------------------------

  /** One end of a stream connection. `stream` is all that the peer sends before the connection ends,
      `incoming` what is left of it to read, `outgoing` what this end has sent so far. Reads and writes
      move any positive number of bytes, or fail; `failed` remembers that one has. */
  class Socket {
    ghost const stream: seq<Byte>
    var incoming: seq<Byte>
    var outgoing: seq<Byte>
    ghost var failed: bool

    constructor (incoming: seq<Byte>)
      ensures stream == this.incoming == incoming && outgoing == [] && !failed
    {
      stream, this.incoming, outgoing, failed := incoming, incoming, [], false;
    }

    /** `read(fd, buf + at, limit)`: 0 or a negative result is the end of the stream or an error. */
    method Read(buf: array<Byte>, at: nat, limit: nat) returns (n: int)
      requires at + limit <= buf.Length && limit > 0
      modifies this`incoming, this`failed, buf
      ensures n <= limit && failed == (old(failed) || n <= 0)
      ensures n <= 0 ==> incoming == old(incoming) && buf[..] == old(buf[..])
      ensures n > 0 ==> n <= |old(incoming)| && incoming == old(incoming)[n..]
                        && buf[..] == old(buf[..at]) + old(incoming)[..n] + old(buf[at + n..])
    {
      n := *;
      if n > limit || n > |incoming| || n <= 0 {
        n, failed := -1, true;
        return;
      }
      var i := 0;
      while i < n
        invariant 0 <= i <= n && incoming == old(incoming) && failed == old(failed)
        invariant buf[..] == old(buf[..at]) + incoming[..i] + old(buf[at + i..])
      {
        buf[at + i] := incoming[i];
        i := i + 1;
      }
      incoming := incoming[n..];
    }

    /** `write(fd, data, |data|)`. */
    method Write(data: seq<Byte>) returns (n: int)
      requires data != []
      modifies this`outgoing, this`failed
      ensures n <= |data| && failed == (old(failed) || n <= 0)
      ensures outgoing == if n > 0 then old(outgoing) + data[..n] else old(outgoing)
    {
      n := *;
      if n > |data| || n <= 0 {
        n, failed := 0, true;
        return;
      }
      outgoing := outgoing + data[..n];
    }
  }

  method ReadFull(s: Socket, buf: array<Byte>) returns (ok: bool)
    modifies s`incoming, s`failed, buf
    ensures s.failed == (old(s.failed) || !ok)
    ensures ok ==> buf.Length <= |old(s.incoming)| && buf[..] == old(s.incoming)[..buf.Length]
                   && s.incoming == old(s.incoming)[buf.Length..]
  {
    var p, remaining := 0, buf.Length;
    while remaining > 0
      invariant 0 <= p && 0 <= remaining && p + remaining == buf.Length && p <= |old(s.incoming)|
      invariant buf[..p] == old(s.incoming)[..p] && s.incoming == old(s.incoming)[p..] && s.failed == old(s.failed)
    {
      var n := s.Read(buf, p, remaining);
      if n <= 0 {
        return false;
      }
      p, remaining := p + n, remaining - n;
    }
    return true;
  }

  method WriteFull(s: Socket, data: seq<Byte>) returns (ok: bool)
    modifies s`outgoing, s`failed
    ensures s.failed == (old(s.failed) || !ok)
    ensures ok ==> s.outgoing == old(s.outgoing) + data
    ensures old(s.outgoing) <= s.outgoing <= old(s.outgoing) + data
  {
    var p := 0;
    while p < |data|
      invariant 0 <= p <= |data| && s.outgoing == old(s.outgoing) + data[..p] && s.failed == old(s.failed)
    {
      var n := s.Write(data[p..]);
      if n <= 0 {
        return false;
      }
      assert data[..p] + data[p..][..n] == data[..p + n];
      p := p + n;
    }
    assert data[..p] == data;
    return true;
  }

  /** One turn of the daemon's loop: read a request, decide, write the response. */
  method ServeRequest(h: Header, s: Socket) returns (ok: bool)
    requires TablesReadable(h)
    modifies s
    ensures old(s.outgoing) <= s.outgoing && s.failed == (old(s.failed) || !ok)
    ensures ok ==> REQUEST_SIZE <= |old(s.incoming)| && s.incoming == old(s.incoming)[REQUEST_SIZE..]
                   && s.outgoing == old(s.outgoing) + Serve(h, old(s.incoming)[..REQUEST_SIZE])
    ensures !ok ==> s.outgoing == old(s.outgoing)
                    || (REQUEST_SIZE <= |old(s.incoming)|
                        && s.outgoing <= old(s.outgoing) + Serve(h, old(s.incoming)[..REQUEST_SIZE]))
  {
    var buf := new Byte[REQUEST_SIZE](_ => 0);
    ok := ReadFull(s, buf);
    if !ok {
      return;
    }
    var request := Unpack(buf[..]);
    var src := ClassifyZone(h, request.src);
    var dst := ClassifyZone(h, request.dst);
    var response := Decide(h, src, dst, request.protocol == IPPROTO_ICMP);
    ok := WriteFull(s, PackResponse(response));
  }

  /** One connection of the daemon, from accept to close: whatever the chunking and wherever it
      ends, the bytes sent are the answers to the complete requests received, in order; and it ends
      only when a read or a write fails. */
  method HandleClient(h: Header, s: Socket)
    requires TablesReadable(h)
    modifies s
    ensures old(s.outgoing) <= s.outgoing <= old(s.outgoing) + ServeAll(h, old(s.incoming)) && s.failed
  {
    var ok := true;
    while ok
      invariant !ok ==> s.failed
      invariant ok ==> s.outgoing + ServeAll(h, s.incoming) == old(s.outgoing) + ServeAll(h, old(s.incoming))
      invariant old(s.outgoing) <= s.outgoing <= old(s.outgoing) + ServeAll(h, old(s.incoming))
      decreases ok, |s.incoming|
    {
      ghost var sent, rest := s.outgoing, s.incoming;
      ok := ServeRequest(h, s);
      if ok {
        Reassociates(sent, Serve(h, rest[..REQUEST_SIZE]), ServeAll(h, s.incoming));
      }
    }
  }

  // --- The client ------------------------------------------------------------------------------

  class FirewallClient {
    var sock: Socket?

    constructor ()
      ensures sock == null
    {
      sock := null;
    }

    /** Connecting may fail; then there is still no socket. */
    method EnsureConnected() returns (ok: bool)
      modifies this
      ensures old(sock) != null ==> ok && sock == old(sock)
      ensures old(sock) == null && ok ==> sock != null && fresh(sock) && sock.incoming == sock.stream && sock.outgoing == [] && !sock.failed
      ensures !ok ==> sock == null
    {
      if sock != null {
        return true;
      }
      ok := *;
      if ok {
        var stream: seq<Byte> := *;
        sock := new Socket(stream);
      }
    }

    /** `_recv_exact`: exactly `n` bytes, or a ConnectionError if the stream ends first. */
    method RecvExact(s: Socket, n: nat) returns (data: Option<seq<Byte>>)
      modifies s`incoming, s`failed
      ensures s.failed == (old(s.failed) || data.None?)
      ensures data.Some? ==> n <= |old(s.incoming)| && data.value == old(s.incoming)[..n] && s.incoming == old(s.incoming)[n..]
    {
      var chunks: seq<Byte>, remaining := [], n;
      while remaining > 0
        invariant 0 <= remaining && |chunks| + remaining == n && |chunks| <= |old(s.incoming)|
        invariant chunks == old(s.incoming)[..|chunks|] && s.incoming == old(s.incoming)[|chunks|..] && s.failed == old(s.failed)
      {
        var buf := new Byte[remaining](_ => 0);
        var got := s.Read(buf, 0, remaining);
        if got <= 0 {
          return None;
        }
        chunks, remaining := chunks + buf[..got], remaining - got;
      }
      return Some(chunks);
    }

    /** Ask for a verdict. A failed exchange forgets the socket, so nothing it left unread can be
        read by a later call; a successful one reads exactly the next response. */
    method IsAllowed(q: Request) returns (r: Option<(bool, Byte)>)
      modifies this, if sock == null then {} else {sock}
      ensures r.None? ==> sock == null && (old(sock) != null ==> old(sock).failed)
      ensures r.Some? ==> sock != null && (old(sock) != null ==> sock.failed == old(sock.failed))
      ensures r.Some? ==> sock != null && (old(sock) != null ==> sock == old(sock)) && (old(sock) == null ==> fresh(sock))
      ensures r.Some? && old(sock) != null ==>
        && sock.outgoing == old(sock.outgoing) + Pack(q)
        && RESPONSE_SIZE <= |old(sock.incoming)| && sock.incoming == old(sock.incoming)[RESPONSE_SIZE..]
        && r.value == (old(sock.incoming)[0] == ALLOW, old(sock.incoming)[1])
      ensures r.Some? && old(sock) == null ==>
        && sock.outgoing == Pack(q) && !sock.failed
        && RESPONSE_SIZE <= |sock.stream| && sock.incoming == sock.stream[RESPONSE_SIZE..]
        && r.value == (sock.stream[0] == ALLOW, sock.stream[1])
    {
      var request := Pack(q);
      var ok := EnsureConnected();
      if !ok {
        return None;
      }
      var s := sock;
      ok := WriteFull(s, request);
      var response: Option<seq<Byte>> := None;
      if ok {
        response := RecvExact(s, RESPONSE_SIZE);
      }
      if response.None? {
        sock := null;
        return None;
      }
      return Some((response.value[0] == ALLOW, response.value[1]));
    }

    method Close()
      modifies this
      ensures sock == null
    {
      sock := null;
    }
  }
}
