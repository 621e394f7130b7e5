// Establishing the upstream of one attempt: a parked half connection of the
// route if there is one, a cold dial otherwise.
module WarmDial {
  import opened Common
  import opened Routes
  import opened WarmBuckets
  import opened WarmPools
  import Streams
  import Tunnel

  /** The parked half connections of a bucket. */
  ghost function Parked(buckets: set<RouteBucket>): set<HalfConn>
    reads buckets
  {
    set b, i | b in buckets && 0 <= i < |b.ready| :: b.ready[i].hc
  }

  /** The half connections with their sockets and readers. */
  ghost function Wires(parked: set<HalfConn>): set<object>
    reads parked
  {
    parked + (set hc | hc in parked :: hc.conn) + (set hc | hc in parked && hc.reader != null :: hc.reader)
  }

  /** Only a half connection that was lent and failed discards its siblings. */
  ghost function Siblings(p: Proxy, lent: Option<HalfConn>, completed: bool): seq<Event> {
    if lent.Some? && !completed then [Discard(p)] else []
  }

  /** How a lent connection settles an attempt: it connects, or the endpoint
      refuses the target. Anything else says nothing about the route. */
  function Settled(status: Option<Handshake.Status>): Option<Tunnel.Dial> {
    match status
    case Some(Ok) => Some(Tunnel.Connected)
    case Some(TargetRefused) => Some(Tunnel.TargetRefused)
    case _ => None
  }

  /** The status is the endpoint's answer, except that a socket may fail. */
  ghost predicate Answers(status: Handshake.Status, stream: seq<Streams.byte>, failed: bool, t: Handshake.Target) {
    (status.Ok? ==> Handshake.StartsAccepted(stream)) && (status.TargetRefused? ==> Handshake.StartsRefused(stream)) &&
    (!failed && t.Encodable() ==>
      (status.Ok? <==> Handshake.StartsAccepted(stream)) &&
        (status.TargetRefused? <==> Handshake.StartsRefused(stream)))
  }

  /** The tunnel reads exactly what is behind the reply. */
  ghost predicate ReadsOn(out: Streams.PrefixConn, stream: seq<Streams.byte>)
    reads out, out.conn
  {
    Handshake.StartsAccepted(stream) && out.Rest() == stream[Handshake.ReplyLength(stream)..]
  }

  // Finishes the handshake of a lent half connection.
  method Complete(hc: HalfConn, t: Handshake.Target) returns (status: Handshake.Status, out: Streams.PrefixConn?)
    requires hc.Valid() && t.Valid()
    modifies hc, hc.conn, hc.reader
    ensures hc.reader == null && (status.Ok? <==> out != null)
    ensures out != null ==> fresh(out) && out.conn == hc.conn
    ensures if old(hc.reader) == null then status.SetupError?
            else Answers(status, old(hc.reader.Rest()), hc.conn.failed, t)
    ensures out != null ==> ReadsOn(out, old(hc.reader.Rest()))
  {
    status, out := hc.CompleteConnect(t);
  }

  // What a lent connection had still to read, and whether its socket failed.
  datatype Told = Told(stream: seq<Streams.byte>, failed: bool)

  /** The connection's own account of its completion; none when it was spent. */
  twostate predicate Tells(hc: HalfConn, new told: Option<Told>)
    reads hc, hc.conn
  {
    if old(hc.reader) == null then told == None
    else told == Some(Told(old(hc.reader.Rest()), hc.conn.failed))
  }

  /** What the status says, for what was told. */
  ghost predicate Bears(status: Option<Handshake.Status>, lent: bool, told: Option<Told>, t: Handshake.Target) {
    (status.Some? <==> lent) &&
    (lent ==>
      if told.None? then status.value.SetupError?
      else Answers(status.value, told.value.stream, told.value.failed, t))
  }

  // The pool does not notice what happens to a connection it has lent.
  method CompleteBeside(ghost warm: WarmPool, hc: HalfConn, t: Handshake.Target)
      returns (status: Handshake.Status, out: Streams.PrefixConn?, ghost told: Option<Told>)
    requires hc.Valid() && t.Valid() && warm.Valid()
    modifies hc, hc.conn, hc.reader
    ensures warm.Valid() && unchanged(warm`run) && hc.reader == null
    ensures Tells(hc, told) && Bears(Some(status), true, told, t) && (out != null <==> status.Ok?)
    ensures out != null ==> fresh(out) && out.conn == hc.conn && ReadsOn(out, told.value.stream)
  {
    told := if hc.reader == null then None else Some(Told(hc.reader.Rest(), false));
    status, out := Complete(hc, t);
    told := if told.None? then None else Some(Told(told.value.stream, hc.conn.failed));
  }

  // The parked half connection, if there is one, completed for the target.
  method TryWarm(warm: WarmPool, p: Proxy, cfg: Config, t: Handshake.Target)
      returns (status: Option<Handshake.Status>, out: Streams.PrefixConn?, hc: Option<HalfConn>,
               ghost told: Option<Told>)
    requires warm.Valid() && t.Valid() && forall hc :: hc in Parked(warm.buckets.Values) ==> hc.Valid()
    modifies warm`run, warm`model, warm`closed, warm.buckets.Values`ready
    modifies Wires(Parked(warm.buckets.Values))
    ensures warm.Valid() && warm.run == old(warm.run) + [Event.Borrow(p, cfg)]
    ensures Indexed(old(warm.model)) && hc == Borrowed(old(warm.model), p, cfg)
    ensures hc.Some? ==> old(allocated(hc.value)) && hc.value.reader == null
    ensures hc.Some? ==> Tells(hc.value, told)
    ensures Bears(status, hc.Some?, told, t) && (out != null <==> status == Some(Handshake.Ok))
    ensures out != null ==> fresh(out) && out.conn == hc.value.conn && ReadsOn(out, told.value.stream)
  {
    hc := BorrowSound(warm, p, cfg);
    if hc.None? {
      return None, null, None, None;
    }
    var answer;
    answer, out, told := CompleteBeside(warm, hc.value, t);
    status := Some(answer);
  }

  method BorrowSound(warm: WarmPool, p: Proxy, cfg: Config) returns (hc: Option<HalfConn>)
    requires warm.Valid() && forall hc :: hc in Parked(warm.buckets.Values) ==> hc.Valid()
    modifies warm`run, warm`model, warm`closed, warm.buckets.Values`ready
    ensures warm.Valid() && warm.run == old(warm.run) + [Event.Borrow(p, cfg)]
    ensures Indexed(old(warm.model)) && hc == Borrowed(old(warm.model), p, cfg)
    ensures hc.Some? ==> hc.value in old(Parked(warm.buckets.Values)) && hc.value.Valid()
  {
    ghost var parked := Parked(warm.buckets.Values);
    ghost var waiting := p in warm.buckets && warm.buckets[p].ready != [];
    ghost var known := if waiting then Some(warm.buckets[p].ready[0].hc) else None;
    assert p in warm.buckets ==> warm.buckets[p].View() == warm.model.cells[warm.buckets[p]] by {
      RunIndexed(warm.origin, warm.run, warm.model);
    }
    assert known.Some? ==> known.value in parked;
    hc := warm.Borrow(p, cfg);
    assert hc.Some? ==> hc == known;
  }

  // A refusal by the endpoint counts; any other failure of a half connection
  // closes its siblings and leaves the decision to a cold dial. The dial is
  // settled warm exactly when the endpoint answers the lent connection.
  method DialWarmFirst(warm: WarmPool, p: Proxy, cfg: Config, t: Handshake.Target)
      returns (d: Tunnel.Dial, out: Streams.PrefixConn?, lent: Option<HalfConn>, status: Option<Handshake.Status>,
               ghost told: Option<Told>)
    requires warm.Valid() && t.Valid() && forall hc :: hc in Parked(warm.buckets.Values) ==> hc.Valid()
    modifies warm`run, warm`model, warm`closed, warm.buckets.Values`ready
    modifies Wires(Parked(warm.buckets.Values))
    ensures warm.Valid() && Indexed(old(warm.model)) && lent == Borrowed(old(warm.model), p, cfg)
    ensures lent.Some? ==> old(allocated(lent.value)) && lent.value.reader == null
    ensures lent.Some? ==> Tells(lent.value, told)
    ensures Bears(status, lent.Some?, told, t) && (out != null <==> status == Some(Handshake.Ok))
    ensures out != null ==> fresh(out) && out.conn == lent.value.conn && ReadsOn(out, told.value.stream)
    ensures Settled(status).Some? ==> d == Settled(status).value
    ensures warm.run == old(warm.run) + [Event.Borrow(p, cfg)] + Siblings(p, lent, Settled(status).Some?)
    ensures lent.Some? && Settled(status).None? && p in warm.buckets ==> warm.buckets[p].ready == []
  {
    status, out, lent, told := TryWarm(warm, p, cfg, t);
    if Settled(status).Some? {
      d := Settled(status).value;
    } else {
      d := DialCold(warm, p, lent);
    }
  }

  method DialCold(warm: WarmPool, p: Proxy, lent: Option<HalfConn>) returns (d: Tunnel.Dial)
    requires warm.Valid()
    modifies warm`run, warm`model, warm`closed, warm.buckets.Values`ready
    ensures warm.Valid() && warm.run == old(warm.run) + Siblings(p, lent, false)
    ensures lent.Some? && p in warm.buckets ==> warm.buckets[p].ready == []
    ensures lent.Some? ==> unchanged(lent.value) && unchanged(lent.value.conn)
  {
    if lent.Some? {
      warm.DiscardRoute(p);
    }
    d := Tunnel.DialUpstream();
  }

  // ---- Replenishing

  // A worker's dial for its claim, up to the critical section that ends it.
  method RunDial(warm: WarmPool, b: RouteBucket, epoch: nat, conn: Streams.Conn, user: seq<Streams.byte>,
                 pass: seq<Streams.byte>, cfg: Config, factor: real, now: int, ghost t: Task)
      returns (status: Handshake.Status, ghost events: seq<Event>)
    requires warm.Valid() && t.b == b && t.epoch == epoch && 0.0 <= factor < 1.0
    requires Indexed(warm.model) && t in warm.model.tasks && !Holding(warm.model, t)
    modifies conn, warm`run, warm`model, warm`closed, b
    ensures warm.Valid() && warm.run == old(warm.run) + events
    ensures if status.Ok? then |events| == 2 && events[0].Returned? && events[0].t == t &&
                               events[1] == Completed(t, events[0].hc, cfg, now)
            else |events| == 1 && events[0].DialFailed? && events[0].t == t && events[0].auth == status.AuthError?
    ensures status.AuthError? ==> Handshake.StartsRejected(old(conn.incoming), user != [] || pass != [])
  {
    var half;
    status, half := DialBeside(warm, conn, user, pass);
    if half != null {
      events := Deliver(warm, b, epoch, half, cfg, now, t);
    } else {
      events := GiveUp(warm, b, status.AuthError?, factor, now, t);
    }
  }

  method DialBeside(ghost warm: WarmPool, conn: Streams.Conn, user: seq<Streams.byte>, pass: seq<Streams.byte>)
      returns (status: Handshake.Status, half: Handshake.HalfConn?)
    requires warm.Valid()
    modifies conn
    ensures warm.Valid() && (status.Ok? <==> half != null)
    ensures half != null ==> half !in warm.model.place
    ensures status.AuthError? ==> Handshake.StartsRejected(old(conn.incoming), user != [] || pass != [])
  {
    ghost var place := warm.model.place;
    status, half := Handshake.DialHalf(conn, user, pass);
    assert half != null ==> half !in place;
  }

  method Deliver(warm: WarmPool, b: RouteBucket, epoch: nat, half: HalfConn, cfg: Config, now: int, ghost t: Task)
      returns (ghost events: seq<Event>)
    requires warm.Valid() && t.b == b && t.epoch == epoch
    requires Indexed(warm.model) && t in warm.model.tasks && !Holding(warm.model, t) && half !in warm.model.place
    modifies warm`run, warm`model, warm`closed, b
    ensures warm.Valid() && warm.run == old(warm.run) + events
    ensures events == [Returned(t, half), Completed(t, half, cfg, now)]
  {
    TaskKnown(warm.origin, warm.run, warm.model, t);
    warm.DialReturned(t, half);
    RunIndexed(warm.origin, warm.run, warm.model);
    warm.CompleteDial(b, epoch, half, cfg, now, t);
    events := [Returned(t, half), Completed(t, half, cfg, now)];
  }

  method GiveUp(warm: WarmPool, b: RouteBucket, auth: bool, factor: real, now: int, ghost t: Task)
      returns (ghost events: seq<Event>)
    requires warm.Valid() && t.b == b && 0.0 <= factor < 1.0
    requires Indexed(warm.model) && t in warm.model.tasks && !Holding(warm.model, t)
    modifies warm`run, warm`model, b
    ensures warm.Valid() && warm.run == old(warm.run) + events
    ensures |events| == 1 && events[0].DialFailed? && events[0].t == t && events[0].auth == auth
  {
    TaskKnown(warm.origin, warm.run, warm.model, t);
    ghost var wait := warm.FailDial(b, auth, factor, now, t);
    events := [DialFailed(t, auth, wait, now)];
  }
}
