// Byte streams: a socket that delivers its peer's bytes in chunks of any size,
// a buffered reader over it, and a connection that first serves bytes read ahead.
module Streams {
  import opened Common

  type byte = b: int | 0 <= b < 256

  // A socket, both directions: what the peer will have sent and is not yet
  // read, and what was written to the peer.
  class Conn {
    var incoming: seq<byte>
    var sent: seq<byte>
    ghost var failed: bool  // some call has failed, other than at the end of the stream

    constructor (incoming: seq<byte>)
      ensures this.incoming == incoming && sent == [] && !failed
    {
      this.incoming, sent, failed := incoming, [], false;
    }

    // Some of the next bytes, however the network cuts them, or an error.
    method Read(max: nat) returns (chunk: seq<byte>, ok: bool)
      modifies this`incoming, this`failed
      ensures chunk + incoming == old(incoming) && |chunk| <= max
      ensures ok && max > 0 ==> chunk != []
      ensures !ok ==> chunk == [] && (failed || incoming == [])
      ensures old(failed) ==> failed
    {
      ok := *;
      failed := failed || !ok;
      if incoming == [] || max == 0 || !ok {
        return [], ok && max == 0;
      }
      var n: nat :| 0 < n <= max && n <= |incoming|;
      chunk := incoming[..n];
      incoming := incoming[n..];
    }

    // How many of the bytes, from the first on, were written.
    method Write(data: seq<byte>) returns (n: nat, ok: bool)
      modifies this`sent, this`failed
      ensures n <= |data| && sent == old(sent) + data[..n]
      ensures ok ==> n == |data|
      ensures (!ok ==> failed) && (old(failed) ==> failed)
    {
      ok := *;
      failed := failed || !ok;
      n :| n <= |data| && (ok ==> n == |data|);
      sent := sent + data[..n];
    }
  }

  // A buffered reader. What it has buffered and what its socket still has are
  // one stream.
  class Reader {
    const conn: Conn
    const size: nat
    var buffered: seq<byte>

    predicate Valid()
      reads this
    {
      |buffered| <= size && 0 < size
    }

    /** The stream that is still to be read. */
    function Rest(): seq<byte>
      reads this, conn
    {
      buffered + conn.incoming
    }

    constructor (conn: Conn, size: nat)
      requires 0 < size
      ensures Valid() && this.conn == conn && this.size == size && buffered == [] && Rest() == conn.incoming
    {
      this.conn, this.size, buffered := conn, size, [];
    }

    // Reads once from the socket into the free space of the buffer.
    method Fill() returns (ok: bool)
      requires Valid() && |buffered| < size
      modifies this`buffered, conn`incoming, conn`failed
      ensures Valid() && Rest() == old(Rest()) && old(buffered) <= buffered
      ensures ok ==> |buffered| > old(|buffered|)
      ensures !ok ==> buffered == old(buffered) && (conn.failed || conn.incoming == [])
      ensures old(conn.failed) ==> conn.failed
    {
      var chunk;
      chunk, ok := conn.Read(size - |buffered|);
      buffered := buffered + chunk;
    }

    // Exactly `n` bytes, or an error.
    method ReadFull(n: nat) returns (data: seq<byte>, ok: bool)
      requires Valid()
      modifies this`buffered, conn`incoming, conn`failed
      ensures Valid() && data + Rest() == old(Rest())
      ensures ok ==> |data| == n
      ensures !ok ==> conn.failed || |old(Rest())| < n
      ensures old(conn.failed) ==> conn.failed
    {
      data, ok := [], true;
      while |data| < n
        invariant Valid() && data + Rest() == old(Rest()) && |data| <= n
        invariant old(conn.failed) ==> conn.failed
        decreases n - |data|, if buffered == [] then 1 else 0
      {
        if buffered == [] {
          ok := Fill();
          if !ok {
            return;
          }
        } else {
          var k := Min(n - |data|, |buffered|);
          data, buffered := data + buffered[..k], buffered[k..];
        }
      }
      ok := true;
    }

    // The next bytes through the delimiter; without one, a full buffer or an error.
    method ReadSlice(delimiter: byte) returns (line: seq<byte>, ok: bool)
      requires Valid()
      modifies this`buffered, conn`incoming, conn`failed
      ensures Valid() && line + Rest() == old(Rest())
      ensures ok ==> line != [] && delimiter !in line[..|line| - 1] && (line[|line| - 1] == delimiter || |line| == size)
      ensures !ok ==> delimiter !in line && (conn.failed || Rest() == [])
      ensures old(conn.failed) ==> conn.failed
    {
      var scanned := 0;
      while true
        invariant Valid() && Rest() == old(Rest())
        invariant old(conn.failed) ==> conn.failed
        invariant scanned <= |buffered| && delimiter !in buffered[..scanned]
        decreases size - scanned, size - |buffered|
      {
        if scanned < |buffered| {
          if buffered[scanned] == delimiter {
            line, buffered := buffered[..scanned + 1], buffered[scanned + 1..];
            assert line[..scanned] == old(Rest())[..scanned];
            return line, true;
          }
          assert buffered[..scanned + 1] == buffered[..scanned] + [buffered[scanned]];
          scanned := scanned + 1;
        } else if |buffered| == size {
          line, buffered := buffered, [];
          assert line[..|line|] == line;
          return line, true;
        } else {
          ghost var was := buffered;
          var more := Fill();
          if !more {
            line, buffered := buffered, [];
            return line, false;
          }
          assert buffered[..scanned] == was[..scanned];
        }
      }
    }
  }

  // A connection that serves bytes read ahead before its socket.
  class PrefixConn {
    const conn: Conn
    var prefix: seq<byte>

    function Rest(): seq<byte>
      reads this, conn
    {
      prefix + conn.incoming
    }

    // Takes over the reader's buffer; the reader is not used again.
    constructor (reader: Reader)
      ensures conn == reader.conn && prefix == reader.buffered && Rest() == reader.Rest()
    {
      conn, prefix := reader.conn, reader.buffered;
    }

    method Read(max: nat) returns (chunk: seq<byte>, ok: bool)
      modifies this`prefix, conn`incoming, conn`failed
      ensures chunk + Rest() == old(Rest()) && |chunk| <= max
      ensures ok && max > 0 ==> chunk != []
      ensures !ok ==> chunk == [] && (conn.failed || Rest() == [])
      ensures old(conn.failed) ==> conn.failed
    {
      if prefix != [] {
        var n := Min(max, |prefix|);
        chunk, ok := prefix[..n], true;
        prefix := prefix[n..];
      } else {
        chunk, ok := conn.Read(max);
      }
    }

    // However it is read, the reader gets the stream: nothing lost, repeated or
    // out of order.
    method ReadAll(sizes: seq<nat>) returns (data: seq<byte>)
      modifies this`prefix, conn`incoming, conn`failed
      ensures data + Rest() == old(Rest())
    {
      data := [];
      for i := 0 to |sizes|
        invariant data + Rest() == old(Rest())
      {
        ghost var before := Rest();
        var chunk, ok := Read(sizes[i]);
        assert data + before == data + chunk + Rest();
        data := data + chunk;
      }
    }

    // Relays to the client until either side ends: the client gets exactly what
    // was read, but for a last chunk it did not take in full.
    method CopyTo(client: Conn, size: nat) returns (total: nat, complete: bool)
      requires 0 < size && client != conn
      modifies this`prefix, conn`incoming, conn`failed, client`sent, client`failed
      ensures |client.sent| == |old(client.sent)| + total
      ensures client.sent <= old(client.sent) + old(Rest())
      ensures complete ==> client.sent + Rest() == old(client.sent) + old(Rest())
      ensures if complete then conn.failed || Rest() == [] else client.failed
    {
      total, complete := 0, true;
      while true
        invariant client.sent + Rest() == old(client.sent) + old(Rest())
        invariant |client.sent| == |old(client.sent)| + total
        decreases |Rest()|
      {
        ghost var before, sentBefore := Rest(), client.sent;
        var chunk, more := Read(size);
        if !more {
          return;
        }
        var n, ok := client.Write(chunk);
        assert sentBefore + before == sentBefore + chunk + Rest();
        total := total + n;
        if !ok || n < |chunk| {
          complete := false;
          return;
        }
        assert chunk[..n] == chunk;
      }
    }
  }
}
