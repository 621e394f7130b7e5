// The two-stage SOCKS5 handshake towards an upstream, and the inbound HTTP
// header: each consumes exactly its own bytes of the stream.
module Handshake {
  import opened Common
  import opened Streams

  // ---- CONNECT requests (sections 4 and 6 of RFC 1928)

  const VERSION: byte := 5
  const ATYP_IPV4: byte := 1
  const ATYP_DOMAIN: byte := 3
  const ATYP_IPV6: byte := 4

  // A parsed address literal in sixteen bytes.
  type Literal = ip: seq<byte> | |ip| == 16 witness [0, 0, 0, 0, 0, 0, 0, 0, 0, 0, 0, 0, 0, 0, 0, 0]

  /** The four bytes of a literal that is an IPv4 address. */
  function To4(ip: Literal): Option<seq<byte>> {
    if ip[..12] == [0, 0, 0, 0, 0, 0, 0, 0, 0, 0, 255, 255] then Some(ip[12..]) else None
  }

  // A target as the inbound client framed it. `literal` is what its host parses
  // to as an address literal, if it does.
  datatype Target = Target(kind: byte, host: seq<byte>, literal: Option<Literal>, port: int)
  {
    predicate Valid() {
      0 <= port < 0x1_0000
    }

    /** A request can name it. */
    predicate Encodable() {
      port != 0 && Address(this).Some?
    }
  }

  function PortBytes(port: int): seq<byte>
    requires 0 <= port < 0x1_0000
  {
    [port / 0x100, port % 0x100]
  }

  /** The address as the target's own type puts it on the wire. */
  function Address(t: Target): Option<seq<byte>> {
    if t.kind == ATYP_IPV4 then (if t.literal.None? then None else To4(t.literal.value))
    else if t.kind == ATYP_IPV6 then (if t.literal.None? then None else Some(t.literal.value))
    else if t.kind == ATYP_DOMAIN then (if 1 <= |t.host| <= 255 then Some(t.host) else None)
    else None
  }

  method SocksConnectRequest(t: Target) returns (req: Option<seq<byte>>)
    requires t.Valid()
    ensures req.Some? <==> t.Encodable()
    ensures req.Some? ==> req.value == Encoded(t.kind, Address(t).value, t.port)
  {
    if t.port == 0 {
      return None;
    }
    var bytes: seq<byte> := [VERSION, 1, 0];
    if t.kind == ATYP_IPV4 {
      if t.literal.None? || To4(t.literal.value).None? {
        return None;
      }
      bytes := bytes + [ATYP_IPV4];
      bytes := bytes + To4(t.literal.value).value;
    } else if t.kind == ATYP_IPV6 {
      if t.literal.None? {
        return None;
      }
      bytes := bytes + [ATYP_IPV6];
      bytes := bytes + t.literal.value;
    } else if t.kind == ATYP_DOMAIN {
      if |t.host| == 0 || |t.host| > 255 {
        return None;
      }
      bytes := bytes + [ATYP_DOMAIN, |t.host|];
      bytes := bytes + t.host;
    } else {
      return None;
    }
    return Some(bytes + PortBytes(t.port));
  }

  function Encoded(kind: byte, address: seq<byte>, port: int): seq<byte>
    requires 0 <= port < 0x1_0000
  {
    [VERSION, 1, 0, kind] +
    (if kind == ATYP_DOMAIN && |address| < 256 then [|address|] else []) + address + PortBytes(port)
  }

  /** How an address field of the given type begins and how long it is, as the
      receiving side of the protocol reads it. */
  function AddressLength(kind: byte, rest: seq<byte>): Option<nat> {
    if kind == ATYP_IPV4 then Some(4)
    else if kind == ATYP_IPV6 then Some(16)
    else if kind == ATYP_DOMAIN && rest != [] then Some(1 + rest[0] as nat)
    else None
  }

  datatype Frame = Frame(kind: byte, address: seq<byte>, port: int)

  /** What an endpoint reads from a CONNECT request, and what is left over. */
  function Decode(bytes: seq<byte>): Option<(Frame, seq<byte>)> {
    if |bytes| < 4 || bytes[0] != VERSION || bytes[1] != 1 || bytes[2] != 0 then None else
      var kind, rest := bytes[3], bytes[4..];
      var n := AddressLength(kind, rest);
      if n.None? || |rest| < n.value + 2 then None else
        var address := if kind == ATYP_DOMAIN then rest[1..n.value] else rest[..n.value];
        Some((Frame(kind, address, rest[n.value] as int * 0x100 + rest[n.value + 1] as int), rest[n.value + 2..]))
  }

  /** The endpoint reads back exactly the type, address and port of the target,
      and nothing of what follows the request. */
  lemma EncodeDecode(t: Target, req: seq<byte>, behind: seq<byte>)
    requires t.Valid() && Address(t).Some? && req == Encoded(t.kind, Address(t).value, t.port)
    ensures Decode(req + behind) == Some((Frame(t.kind, Address(t).value, t.port), behind))
  {
    if t.kind == ATYP_DOMAIN {
      DomainReadBack(Address(t).value, t.port, behind);
    } else {
      LiteralReadBack(t.kind, Address(t).value, t.port, behind);
    }
  }

  lemma DomainReadBack(address: seq<byte>, port: int, behind: seq<byte>)
    requires 1 <= |address| <= 255 && 0 <= port < 0x1_0000
    ensures Decode(Encoded(ATYP_DOMAIN, address, port) + behind) == Some((Frame(ATYP_DOMAIN, address, port), behind))
  {
    var rest := [|address|] + address + PortBytes(port) + behind;
    assert (Encoded(ATYP_DOMAIN, address, port) + behind)[4..] == rest;
    assert rest[1..1 + |address|] == address;
    PortReadBack([|address|] + address, port, behind);
  }

  lemma LiteralReadBack(kind: byte, address: seq<byte>, port: int, behind: seq<byte>)
    requires (kind == ATYP_IPV4 && |address| == 4) || (kind == ATYP_IPV6 && |address| == 16)
    requires 0 <= port < 0x1_0000
    ensures Decode(Encoded(kind, address, port) + behind) == Some((Frame(kind, address, port), behind))
  {
    var rest := address + PortBytes(port) + behind;
    assert (Encoded(kind, address, port) + behind)[4..] == rest;
    assert rest[..|address|] == address;
    PortReadBack(address, port, behind);
  }

  /** The port behind an address field, and what is behind the port. */
  lemma PortReadBack(field: seq<byte>, port: int, behind: seq<byte>)
    requires 0 <= port < 0x1_0000
    ensures var rest, n := field + PortBytes(port) + behind, |field|;
      |rest| >= n + 2 && rest[n] as int * 0x100 + rest[n + 1] as int == port && rest[n + 2..] == behind
  {
  }

  // ---- The handshake

  // Ready, or the class of the failure: the endpoint rejects the credentials,
  // breaks the framing, refuses the target, or a local mistake.
  datatype Status = Ok | AuthError | HandshakeError | TargetRefused | SetupError

  function Greeting(wantAuth: bool): seq<byte> {
    if wantAuth then [VERSION, 2, 0, 2] else [VERSION, 1, 0]
  }

  function Credentials(user: seq<byte>, pass: seq<byte>): seq<byte>
    requires |user| <= 255 && |pass| <= 255
  {
    [1, |user|] + user + [|pass|] + pass
  }

  /** The method choice (section 3 of RFC 1928) and, for method 2, the reply to
      the credentials (section 2 of RFC 1929), at the head of a stream. */
  predicate StartsNegotiated(stream: seq<byte>, wantAuth: bool) {
    |stream| >= 2 && stream[0] == VERSION &&
    (stream[1] == 0 || (stream[1] == 2 && wantAuth && |stream| >= 4 && stream[2] == 1 && stream[3] == 0))
  }

  function NegotiationLength(stream: seq<byte>): nat
    requires |stream| >= 2
  {
    if stream[1] == 2 then 4 else 2
  }

  /** What is sent until the endpoint has answered like this. */
  function Offer(stream: seq<byte>, user: seq<byte>, pass: seq<byte>): seq<byte> {
    Greeting(user != [] || pass != []) +
      if |stream| >= 2 && stream[1] == 2 && |user| <= 255 && |pass| <= 255 then Credentials(user, pass) else []
  }

  /** The endpoint turns the credentials, or the lack of any, down. */
  predicate StartsRejected(stream: seq<byte>, wantAuth: bool) {
    |stream| >= 2 && stream[0] == VERSION &&
    (stream[1] == 255 || (stream[1] == 2 && !wantAuth) ||
     (stream[1] == 2 && |stream| >= 4 && stream[2] == 1 && stream[3] != 0))
  }

  /** Credentials, when the endpoint asks for the ones there are, fit the frame. */
  predicate Answerable(stream: seq<byte>, user: seq<byte>, pass: seq<byte>) {
    |stream| >= 2 && stream[1] == 2 && (user != [] || pass != []) ==> |user| <= 255 && |pass| <= 255
  }

  /** A well-formed CONNECT reply with a non-zero code. */
  predicate StartsRefused(stream: seq<byte>) {
    |stream| >= 4 && stream[0] == VERSION && stream[1] != 0 && stream[2] == 0
  }

  /** A CONNECT reply that accepts, through its bound address. */
  predicate StartsAccepted(stream: seq<byte>) {
    |stream| >= 4 && stream[0] == VERSION && stream[1] == 0 && stream[2] == 0 &&
    AddressLength(stream[3], stream[4..]).Some? && |stream| >= ReplyLength(stream)
  }

  function ReplyLength(stream: seq<byte>): nat
    requires |stream| >= 4 && AddressLength(stream[3], stream[4..]).Some?
  {
    4 + AddressLength(stream[3], stream[4..]).value + 2
  }

  // A connected, negotiated upstream waiting for a target; consumed at most once.
  class HalfConn {
    const conn: Conn
    var reader: Reader?
    var open: bool

    predicate Valid()
      reads this, reader
    {
      reader != null ==> reader.Valid() && reader.conn == conn
    }

    constructor (conn: Conn)
      ensures Valid() && this.conn == conn && open
      ensures fresh(reader) && reader.buffered == []
    {
      this.conn, open := conn, true;
      reader := new Reader(conn, 4096);
    }

    method Close()
      modifies this`reader, this`open
      ensures reader == null && !open
    {
      reader, open := null, false;
    }

    // Greeting and optional credentials. Success has consumed exactly the
    // endpoint's negotiation frames.
    method Negotiate(user: seq<byte>, pass: seq<byte>) returns (status: Status)
      requires Valid() && reader != null
      modifies conn, reader`buffered
      ensures Valid()
      ensures var stream := old(reader.Rest()); var wantAuth := user != [] || pass != [];
        status.Ok? ==> StartsNegotiated(stream, wantAuth) && reader.Rest() == stream[NegotiationLength(stream)..]
      ensures status.Ok? ==> conn.sent == old(conn.sent) + Offer(old(reader.Rest()), user, pass)
      ensures status.SetupError? ==> |user| > 255 || |pass| > 255
      ensures !status.TargetRefused? && (old(conn.failed) ==> conn.failed)
      ensures status.AuthError? ==> StartsRejected(old(reader.Rest()), user != [] || pass != [])
      ensures !conn.failed ==>
        (status.Ok? <==> StartsNegotiated(old(reader.Rest()), user != [] || pass != []) &&
                         Answerable(old(reader.Rest()), user, pass)) &&
        (status.AuthError? <==> StartsRejected(old(reader.Rest()), user != [] || pass != []) &&
                                Answerable(old(reader.Rest()), user, pass))
    {
      var wantAuth := user != [] || pass != [];
      var n, sent := conn.Write(Greeting(wantAuth));
      if !sent {
        return HandshakeError;
      }
      var choice, ok := reader.ReadFull(2);
      if !ok || choice[0] != VERSION {
        return HandshakeError;
      }
      if choice[1] == 0 {
        return Ok;
      }
      if choice[1] == 2 {
        if !wantAuth {
          return AuthError;
        }
        status := Authenticate(user, pass);
        return;
      }
      return if choice[1] == 255 then AuthError else HandshakeError;
    }

    method Authenticate(user: seq<byte>, pass: seq<byte>) returns (status: Status)
      requires Valid() && reader != null
      modifies conn, reader`buffered
      ensures Valid()
      ensures var stream := old(reader.Rest());
        status.Ok? ==> |stream| >= 2 && stream[0] == 1 && stream[1] == 0 && reader.Rest() == stream[2..]
      ensures status.Ok? ==> |user| <= 255 && |pass| <= 255 && conn.sent == old(conn.sent) + Credentials(user, pass)
      ensures status.SetupError? <==> |user| > 255 || |pass| > 255
      ensures !status.TargetRefused?
      ensures var stream := old(reader.Rest()); status.AuthError? ==> |stream| >= 2 && stream[0] == 1 && stream[1] != 0
      ensures old(conn.failed) ==> conn.failed
      ensures var stream := old(reader.Rest()); !conn.failed && |stream| >= 2 && stream[0] == 1 ==>
        !status.HandshakeError?
    {
      if |user| > 255 || |pass| > 255 {
        return SetupError;
      }
      var n, sent := conn.Write(Credentials(user, pass));
      if !sent {
        return HandshakeError;
      }
      var reply, ok := reader.ReadFull(2);
      if !ok || reply[0] != 1 {
        return HandshakeError;
      }
      return if reply[1] != 0 then AuthError else Ok;
    }

    // Sends the request and finishes the handshake. The half connection is
    // consumed either way; a consumed one does no I/O at all. On success the
    // connection handed out reads exactly the bytes behind the endpoint's reply.
    method CompleteConnect(t: Target) returns (status: Status, out: PrefixConn?)
      requires Valid() && t.Valid()
      modifies this, conn, reader
      ensures Valid() && reader == null
      ensures status.Ok? <==> out != null
      ensures old(reader) == null ==>
        status.SetupError? && conn.incoming == old(conn.incoming) && conn.sent == old(conn.sent)
      ensures out != null ==>
        old(reader) != null && fresh(out) && out.conn == conn && StartsAccepted(old(reader.Rest()))
      ensures out != null ==> out.Rest() == old(reader.Rest())[ReplyLength(old(reader.Rest()))..]
      ensures out != null ==>
        Address(t).Some? && conn.sent == old(conn.sent) + Encoded(t.kind, Address(t).value, t.port)
      ensures old(reader) != null ==> open == (old(open) && out != null)
      ensures old(conn.failed) ==> conn.failed
      ensures old(reader) != null && t.Encodable() && !conn.failed ==>
        (status.Ok? <==> StartsAccepted(old(reader.Rest()))) &&
          (status.TargetRefused? <==> StartsRefused(old(reader.Rest())))
      ensures status.SetupError? <==> old(reader) == null || !t.Encodable()
      ensures status.TargetRefused? ==> old(reader) != null && StartsRefused(old(reader.Rest()))
      ensures !status.AuthError?
    {
      out := null;
      if reader == null {
        return SetupError, null;
      }
      var request := SocksConnectRequest(t);
      if request.None? {
        Close();
        return SetupError, null;
      }
      status := FinishConnect(reader, request.value);
      if status.Ok? {
        out := new PrefixConn(reader);
        reader := null;
      } else {
        Close();
      }
    }

    // The reply, through its bound address.
    method FinishConnect(r: Reader, request: seq<byte>) returns (status: Status)
      requires r.Valid() && r.conn == conn
      modifies conn, r`buffered
      ensures r.Valid() && !status.SetupError? && !status.AuthError?
      ensures var stream := old(r.Rest());
        status.Ok? ==> StartsAccepted(stream) && r.Rest() == stream[ReplyLength(stream)..]
      ensures status.Ok? ==> conn.sent == old(conn.sent) + request
      ensures status.TargetRefused? ==> StartsRefused(old(r.Rest()))
      ensures old(conn.failed) ==> conn.failed
      ensures !conn.failed ==>
        (status.Ok? <==> StartsAccepted(old(r.Rest()))) && (status.TargetRefused? <==> StartsRefused(old(r.Rest())))
    {
      ghost var stream := r.Rest();
      var n, sent := conn.Write(request);
      if !sent {
        return HandshakeError;
      }
      var head, ok := r.ReadFull(4);
      if !ok || head[0] != VERSION || head[2] != 0 {
        return HandshakeError;
      }
      if head[1] != 0 {
        return TargetRefused;
      }
      assert stream[4..] == r.Rest();
      ok := DiscardBoundAddress(r, head[3]);
      if !ok {
        return HandshakeError;
      }
      return Ok;
    }

    // A name behind its length, and the port.
    method DiscardName(r: Reader) returns (ok: bool)
      requires r.Valid()
      modifies r`buffered, r.conn`incoming, r.conn`failed
      ensures r.Valid() && (old(r.conn.failed) ==> r.conn.failed)
      ensures var stream := old(r.Rest());
        if ok then |stream| >= 1 && |stream| >= 1 + stream[0] as nat + 2 &&
          r.Rest() == stream[1 + stream[0] as nat + 2..]
        else r.conn.failed || |stream| < 1 || |stream| < 1 + stream[0] as nat + 2
    {
      ghost var stream := r.Rest();
      var data;
      data, ok := r.ReadFull(1);
      if ok {
        ghost var behind := r.Rest();
        assert stream[0] == data[0] && stream[1..] == behind;
        data, ok := r.ReadFull(data[0] as nat + 2);
        assert ok ==> behind[stream[0] as nat + 2..] == r.Rest();
      }
    }

    method DiscardBoundAddress(r: Reader, kind: byte) returns (ok: bool)
      requires r.Valid()
      modifies r`buffered, r.conn`incoming, r.conn`failed
      ensures r.Valid() && (old(r.conn.failed) ==> r.conn.failed)
      ensures var stream := old(r.Rest());
        !ok && !r.conn.failed ==> AddressLength(kind, stream).None? || |stream| < AddressLength(kind, stream).value + 2
      ensures var stream := old(r.Rest());
        ok ==> AddressLength(kind, stream).Some? && |stream| >= AddressLength(kind, stream).value + 2 &&
               r.Rest() == stream[AddressLength(kind, stream).value + 2..]
    {
      ghost var stream := r.Rest();
      var data;
      if kind == ATYP_IPV4 {
        data, ok := r.ReadFull(6);
      } else if kind == ATYP_DOMAIN {
        ok := DiscardName(r);
      } else if kind == ATYP_IPV6 {
        data, ok := r.ReadFull(18);
      } else {
        ok := false;
      }
    }
  }

  // The first stage on a connected endpoint.
  method DialHalf(conn: Conn, user: seq<byte>, pass: seq<byte>) returns (status: Status, half: HalfConn?)
    modifies conn
    ensures status.Ok? <==> half != null
    ensures half != null ==>
      fresh(half) && half.Valid() && half.conn == conn && half.reader != null && fresh(half.reader)
    ensures half != null ==> StartsNegotiated(old(conn.incoming), user != [] || pass != [])
    ensures half != null ==> half.reader.Rest() == old(conn.incoming)[NegotiationLength(old(conn.incoming))..]
    ensures half != null ==> conn.sent == old(conn.sent) + Offer(old(conn.incoming), user, pass)
    ensures status.AuthError? ==> StartsRejected(old(conn.incoming), user != [] || pass != [])
    ensures !status.TargetRefused? && (status.SetupError? ==> |user| > 255 || |pass| > 255)
    ensures old(conn.failed) ==> conn.failed
    ensures half != null ==> half.open
    ensures !conn.failed ==>
      (status.Ok? <==> StartsNegotiated(old(conn.incoming), user != [] || pass != []) &&
                       Answerable(old(conn.incoming), user, pass)) &&
      (status.AuthError? <==> StartsRejected(old(conn.incoming), user != [] || pass != []) &&
                              Answerable(old(conn.incoming), user, pass))
  {
    half := new HalfConn(conn);
    assert half.reader.Rest() == conn.incoming;
    status := half.Negotiate(user, pass);
    if !status.Ok? {
      half.Close();
      half := null;
    }
  }

  /** The stream starts with all the frames of a successful handshake. */
  predicate Handshaken(stream: seq<byte>, wantAuth: bool) {
    StartsNegotiated(stream, wantAuth) && StartsAccepted(stream[NegotiationLength(stream)..])
  }

  function HandshakeLength(stream: seq<byte>, wantAuth: bool): nat
    requires Handshaken(stream, wantAuth)
  {
    NegotiationLength(stream) + ReplyLength(stream[NegotiationLength(stream)..])
  }

  /** Successful negotiation, then a CONNECT reply that refuses the target. */
  predicate RefusedLater(stream: seq<byte>, wantAuth: bool) {
    StartsNegotiated(stream, wantAuth) && StartsRefused(stream[NegotiationLength(stream)..])
  }

  // Both stages without a pause. The connection handed out reads the endpoint's
  // stream without exactly the method choice, the reply to the credentials if
  // they were asked for, and the CONNECT reply.
  method Dial(conn: Conn, user: seq<byte>, pass: seq<byte>, t: Target) returns (status: Status, out: PrefixConn?)
    requires t.Valid()
    modifies conn
    ensures status.Ok? <==> out != null
    ensures out != null ==> out.conn == conn && Handshaken(old(conn.incoming), user != [] || pass != [])
    ensures out != null ==>
      out.Rest() == old(conn.incoming)[HandshakeLength(old(conn.incoming), user != [] || pass != [])..]
    ensures out != null ==> Address(t).Some?
    ensures out != null ==>
      conn.sent == old(conn.sent) + Offer(old(conn.incoming), user, pass) + Encoded(t.kind, Address(t).value, t.port)
    ensures status.AuthError? ==> StartsRejected(old(conn.incoming), user != [] || pass != [])
    ensures status.TargetRefused? ==> RefusedLater(old(conn.incoming), user != [] || pass != [])
    ensures !conn.failed && Answerable(old(conn.incoming), user, pass) && t.Encodable() ==>
      (status.Ok? <==> Handshaken(old(conn.incoming), user != [] || pass != [])) &&
      (status.AuthError? <==> StartsRejected(old(conn.incoming), user != [] || pass != [])) &&
      (status.TargetRefused? <==> RefusedLater(old(conn.incoming), user != [] || pass != []))
  {
    var half;
    out := null;
    status, half := DialHalf(conn, user, pass);
    if half != null {
      status, out := half.CompleteConnect(t);
    }
  }

  // ---- The inbound header

  const MAX_HEADER: nat := 0x10_0000
  const CRLFCRLF: seq<byte> := [13, 10, 13, 10]

  predicate EndsHeader(header: seq<byte>) {
    |header| >= 4 && header[|header| - 4..] == CRLFCRLF
  }

  // Line by line through the empty one. A line longer than the buffer comes in
  // several pieces. The result is the shortest prefix of the stream that ends a
  // header, and what follows it stays in the stream.
  method ReadHTTPHeader(r: Reader) returns (header: seq<byte>, ok: bool)
    requires r.Valid()
    modifies r`buffered, r.conn`incoming, r.conn`failed
    ensures r.Valid() && header + r.Rest() == old(r.Rest())
    ensures ok ==> |header| <= MAX_HEADER && EndsHeader(header)
    ensures ok ==> forall n :: 0 <= n < |header| ==> !EndsHeader(header[..n])
    ensures !r.conn.failed ==> (ok <==> HoldsHeader(old(r.Rest())))
  {
    header := [];
    ghost var stream := r.Rest();
    while true
      invariant r.Valid() && header + r.Rest() == stream
      invariant |header| <= MAX_HEADER
      invariant forall n :: 0 <= n <= |header| ==> !EndsHeader(header[..n])
      decreases MAX_HEADER - |header|
    {
      ghost var before, rest := header, r.Rest();
      var line, more := r.ReadSlice(10);
      assert before + rest == before + line + r.Rest();
      header := header + line;
      NoEndInside(before, line);
      if |header| > MAX_HEADER || !more {
        assert before[..|before|] == before;
        if !more {
          EndsOnlyInLineFeed(before, line);
        }
        NoHeader(header, r.Rest());
        return header, false;
      }
      assert stream[..|header|] == header;
      if EndsHeader(header) {
        return header, true;
      }
    }
  }

  lemma EndsInLineFeed(header: seq<byte>)
    requires header != []
    ensures EndsHeader(header) ==> header[|header| - 1] == 10
  {
    assert EndsHeader(header) ==> header[|header| - 1] == header[|header| - 4..][3];
  }

  /** The stream has a header within the limit. */
  ghost predicate HoldsHeader(stream: seq<byte>) {
    exists n :: 0 <= n <= |stream| && n <= MAX_HEADER && EndsHeader(stream[..n])
  }

  /** What was read has no end inside, and either passes the limit or is all. */
  lemma NoHeader(header: seq<byte>, rest: seq<byte>)
    requires forall n :: 0 <= n < |header| ==> !EndsHeader(header[..n])
    ensures |header| > MAX_HEADER || (rest == [] && !EndsHeader(header)) ==> !HoldsHeader(header + rest)
  {
    assert (header + rest)[..|header|] == header;
    forall n | 0 <= n < |header|
      ensures !EndsHeader((header + rest)[..n])
    {
      assert (header + rest)[..n] == header[..n];
    }
  }

  lemma EndsOnlyInLineFeed(before: seq<byte>, line: seq<byte>)
    requires 10 !in line && !EndsHeader(before)
    ensures !EndsHeader(before + line)
  {
    if line == [] {
      assert before + line == before;
    } else {
      EndsInLineFeed(before + line);
      assert (before + line)[|before + line| - 1] == line[|line| - 1];
    }
  }

  /** A header can only end where a line ends. */
  lemma NoEndInside(before: seq<byte>, line: seq<byte>)
    requires line != [] ==> 10 !in line[..|line| - 1]
    requires forall n :: 0 <= n <= |before| ==> !EndsHeader(before[..n])
    ensures forall n :: 0 <= n < |before + line| ==> !EndsHeader((before + line)[..n])
    ensures !EndsHeader(before + line) ==> forall n :: 0 <= n <= |before + line| ==> !EndsHeader((before + line)[..n])
  {
    var header := before + line;
    forall n | 0 <= n < |header|
      ensures !EndsHeader(header[..n])
    {
      if n <= |before| {
        assert header[..n] == before[..n];
      } else {
        var last := header[n - 1];
        assert last == line[..|line| - 1][n - 1 - |before|] && last != 10;
        assert header[..n][n - 1] == last;
        EndsInLineFeed(header[..n]);
      }
    }
    assert header[..|header|] == header;
  }

  // A CONNECT tunnel starts with whatever was read ahead of the header's end,
  // and gets exactly the rest of what the client sends.
  method AcceptConnect(conn: Conn) returns (header: seq<byte>, client: PrefixConn?)
    modifies conn`incoming, conn`failed
    ensures client != null ==> client.conn == conn && EndsHeader(header) && header + client.Rest() == old(conn.incoming)
    ensures client != null ==> forall n :: 0 <= n < |header| ==> !EndsHeader(header[..n])
    ensures !conn.failed ==> (client != null <==> HoldsHeader(old(conn.incoming)))
  {
    var reader := new Reader(conn, 4096);
    var ok;
    header, ok := ReadHTTPHeader(reader);
    client := null;
    if ok {
      client := new PrefixConn(reader);
    }
  }
}
