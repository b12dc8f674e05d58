/**
 * The first SplitNotes client: LSConnection, which connects as soon as it is
 * built, and LivesplitHandler, which reads times with the older parse_time.
 * Each step is set beside the newer client's, which it matches except where
 * noted.
 */
module Legacy {
  import opened Wrappers
  import opened Errors
  import opened Transport
  import opened LivesplitProtocol
  import opened LivesplitClient

  /**
   * connect: the `finally` clause calls settimeout on whatever the handle is
   * when the `try` ends. A refusal has set it to None by then, so the
   * ConnectionRefusedError is replaced by an AttributeError; other errors
   * leave the unconnected socket as the handle.
   */
  function LegacyConnectStep(l: Link, e: Endpoint, o: ConnectOutcome): (r: (Link, Result<(), Exc>))
    ensures r.0.created == l.created + 1 && l.calls <= r.0.calls
    ensures r.1.Ok? <==> o == Accepted
    ensures r.0.sock.None? <==> o == Refused
  {
    var id := l.created;
    var tried := l.calls + [Open(id), SockCall.Connect(id, e.server, e.port)];
    var timed := tried + [SetTimeout(id, e.timeout)];
    match o
    case Accepted => (Link(Some(id), id + 1, timed), Ok(()))
    case Refused => (Link(None, id + 1, tried + [Close(id)]), Err(AttributeError))
    case Unresolved => (Link(Some(id), id + 1, timed), Err(GaiError))
    case Unreachable => (Link(Some(id), id + 1, timed), Err(OSError))
  }

  function LegacyEnsureStep(l: Link, e: Endpoint, o: ConnectOutcome): (r: (Link, Result<(), Exc>))
    ensures l.sock.Some? ==> r == (l, Ok(()))
    ensures l.created <= r.0.created && l.calls <= r.0.calls
  {
    if l.sock.None? then LegacyConnectStep(l, e, o) else (l, Ok(()))
  }

  /** send: as in the newer client, apart from how a failed connect is reported. */
  function LegacySendStep(l: Link, e: Endpoint, msg: Bytes, co: ConnectOutcome, so: SendOutcome): (r: (Link, Result<(), Exc>))
    ensures l.created <= r.0.created && l.calls <= r.0.calls
    ensures r.1.Ok? ==> r.0.sock.Some? && |r.0.calls| > 0 && r.0.calls[|r.0.calls| - 1] == Send(r.0.sock.value, msg)
    ensures l.sock.Some? && so == SendReset ==> r.0.sock == l.sock && r.1 == Err(ConnectionError)
  {
    var (l1, c) := LegacyEnsureStep(l, e, co);
    if c.Err? then (l1, Err(c.error))
    else if l1.sock.None? then (l1, Err(AttributeError))
    else
      var id := l1.sock.value;
      var sent := l1.calls + [Send(id, msg)];
      match so
      case Delivered => (l1.(calls := sent), Ok(()))
      case Aborted => (Link(None, l1.created, sent + [Close(id)]), Err(ConnectionAbortedError))
      case SendReset => (l1.(calls := sent), Err(ConnectionError))
      case SendFailed => (l1.(calls := sent), Err(OSError))
  }

  /**
   * receive: the `except OSError` clause comes first and socket.timeout is an
   * OSError, so a timeout is handled as a broken connection.
   */
  function LegacyReceiveStep(l: Link, e: Endpoint, co: ConnectOutcome, ro: RecvOutcome): (r: (Link, Result<Bytes, Exc>))
    ensures l.created <= r.0.created && l.calls <= r.0.calls
    ensures r.1.Ok? ==> r.1.value != [] && r.0.sock.Some? && |r.0.calls| > 0 && r.0.calls[|r.0.calls| - 1] == Recv(r.0.sock.value, BUFFER_SIZE)
    ensures ro == TimedOut ==> r.1.Err?
  {
    var (l1, c) := LegacyEnsureStep(l, e, co);
    if c.Err? then (l1, Err(c.error))
    else if l1.sock.None? then (l1, Err(AttributeError))
    else
      var id := l1.sock.value;
      var asked := l1.calls + [Recv(id, BUFFER_SIZE)];
      var dropped := Link(None, l1.created, asked + [Close(id)]);
      match ro
      case TimedOut => (dropped, Err(ConnectionError))
      case RecvFailed => (dropped, Err(ConnectionError))
      case Received(data) => if data == [] then (dropped, Err(ConnectionError)) else (l1.(calls := asked), Ok(data))
  }

  lemma LegacyConnectKeepsSound(l: Link, e: Endpoint, o: ConnectOutcome)
    requires Sound(l)
    ensures Sound(LegacyConnectStep(l, e, o).0)
  {
    assert !Closed(l.calls, l.created);
  }

  /** No legacy step leaves the handle on a closed socket. */
  lemma LegacyStepsKeepSound(l: Link, e: Endpoint, msg: Bytes, co: ConnectOutcome, so: SendOutcome, ro: RecvOutcome)
    requires Sound(l)
    ensures Sound(LegacyConnectStep(l, e, co).0)
    ensures Sound(LegacySendStep(l, e, msg, co, so).0)
    ensures Sound(LegacyReceiveStep(l, e, co, ro).0)
  {
    LegacyConnectKeepsSound(l, e, co);
    LegacySendKeepsSound(l, e, msg, co, so);
    LegacyReceiveKeepsSound(l, e, co, ro);
  }

  lemma LegacyEnsureKeepsSound(l: Link, e: Endpoint, o: ConnectOutcome)
    requires Sound(l)
    ensures Sound(LegacyEnsureStep(l, e, o).0)
  {
    if l.sock.None? {
      LegacyConnectKeepsSound(l, e, o);
    }
  }

  lemma LegacySendKeepsSound(l: Link, e: Endpoint, msg: Bytes, co: ConnectOutcome, so: SendOutcome)
    requires Sound(l)
    ensures Sound(LegacySendStep(l, e, msg, co, so).0)
  {
    LegacyEnsureKeepsSound(l, e, co);
    var l1 := LegacyEnsureStep(l, e, co).0;
    if l1.sock.Some? {
      AppendKeepsSound(l1, [Send(l1.sock.value, msg)]);
    }
  }

  lemma LegacyReceiveKeepsSound(l: Link, e: Endpoint, co: ConnectOutcome, ro: RecvOutcome)
    requires Sound(l)
    ensures Sound(LegacyReceiveStep(l, e, co, ro).0)
  {
    LegacyEnsureKeepsSound(l, e, co);
    var l1 := LegacyEnsureStep(l, e, co).0;
    if l1.sock.Some? {
      AppendKeepsSound(l1, [Recv(l1.sock.value, BUFFER_SIZE)]);
    }
  }

  /**
   * What connect does with each outcome: only an accepted connection succeeds;
   * a refusal surfaces as AttributeError, never as ConnectionRefusedError; any
   * other error keeps the new, unconnected socket as the handle.
   */
  lemma LegacyConnectReports(l: Link, e: Endpoint, o: ConnectOutcome)
    ensures var (l1, r) := LegacyConnectStep(l, e, o);
      && (r.Ok? <==> o == Accepted)
      && r != Err(ConnectionRefusedError)
      && (o == Refused ==> r == Err(AttributeError) && l1.sock.None? && Closed(l1.calls, l.created))
      && (o == Unresolved || o == Unreachable ==> l1.sock == Some(l.created))
      && (l1.sock.Some? ==> l1.calls[|l1.calls| - 1] == SetTimeout(l.created, e.timeout))
  {
  }

  /** A timeout on recv never reaches the caller as TimeoutError: the socket is closed and dropped. */
  lemma LegacyTimeoutDropsConnection(l: Link, e: Endpoint, co: ConnectOutcome, ro: RecvOutcome)
    requires Sound(l) && l.sock.Some?
    ensures LegacyReceiveStep(l, e, co, ro).1 != Err(TimeoutError)
    ensures var (l1, r) := LegacyReceiveStep(l, e, co, TimedOut);
      r == Err(ConnectionError) && l1.sock.None? && Closed(l1.calls, l.sock.value)
    ensures ReceiveStep(l, e, co, TimedOut).1 == Err(TimeoutError)
  {
  }

  /** Once a socket is connected, the legacy send is the newer one. */
  lemma LegacySendMatchesNewer(l: Link, e: Endpoint, msg: Bytes, co: ConnectOutcome, so: SendOutcome)
    requires l.sock.Some? || co == Accepted
    ensures LegacySendStep(l, e, msg, co, so) == SendStep(l, e, msg, co, so)
  {
  }

  /** Once a socket is connected, the legacy receive is the newer one on every outcome but a timeout. */
  lemma LegacyReceiveMatchesNewer(l: Link, e: Endpoint, co: ConnectOutcome, ro: RecvOutcome)
    requires l.sock.Some? || co == Accepted
    requires ro != TimedOut
    ensures LegacyReceiveStep(l, e, co, ro) == ReceiveStep(l, e, co, ro)
  {
  }

  class LSConnection {
    const server: string
    const port: int
    const timeout: int
    var sock: Option<SocketId>
    const net: SocketLayer

    function Where(): Endpoint
    {
      Endpoint(server, port, timeout)
    }

    function State(): Link
      reads this, net
    {
      Link(sock, net.created, net.calls)
    }

    predicate Valid()
      reads this, net
    {
      net.Valid() && Sound(State())
    }

    /** The attribute assignments of __init__, before its call to connect. */
    constructor(server: string, port: int, timeout: int, net: SocketLayer)
      requires net.Valid()
      ensures this.server == server && this.port == port && this.timeout == timeout
      ensures this.net == net && sock.None? && Valid()
    {
      this.server := server;
      this.port := port;
      this.timeout := timeout;
      this.net := net;
      sock := None;
    }

    method Connect(o: ConnectOutcome) returns (r: Result<(), Exc>)
      requires Valid()
      modifies this, net
      ensures Valid()
      ensures (State(), r) == LegacyConnectStep(old(State()), Where(), o)
    {
      ghost var l := State();
      var id := net.NewSocket();
      sock := Some(id);
      net.Call(SockCall.Connect(id, server, port));
      assert net.calls == l.calls + [Open(id), SockCall.Connect(id, server, port)];
      r := Ok(());
      if o == Refused {
        net.Call(SockCall.Close(id));
        sock := None;
        r := Err(ConnectionRefusedError);
      } else if o == Unresolved {
        r := Err(GaiError);
      } else if o == Unreachable {
        r := Err(OSError);
      }
      // finally: self.sock.settimeout(self.timeout)
      if sock.None? {
        r := Err(AttributeError);
      } else {
        net.Call(SetTimeout(id, timeout));
      }
      LegacyConnectKeepsSound(l, Where(), o);
    }

    method Send(msg: Bytes, co: ConnectOutcome, so: SendOutcome) returns (r: Result<(), Exc>)
      requires Valid()
      modifies this, net
      ensures Valid()
      ensures (State(), r) == LegacySendStep(old(State()), Where(), msg, co, so)
    {
      if sock.None? {
        var c := Connect(co);
        if c.Err? {
          return Err(c.error);
        }
      }
      if sock.None? {
        return Err(AttributeError);
      }
      var id := sock.value;
      net.Call(SockCall.Send(id, msg));
      match so {
        case Delivered =>
          r := Ok(());
        case Aborted =>
          net.Call(SockCall.Close(id));
          sock := None;
          r := Err(ConnectionAbortedError);
        case SendReset =>
          r := Err(ConnectionError);
        case SendFailed =>
          r := Err(OSError);
      }
    }

    method Receive(co: ConnectOutcome, ro: RecvOutcome) returns (r: Result<Bytes, Exc>)
      requires Valid()
      modifies this, net
      ensures Valid()
      ensures (State(), r) == LegacyReceiveStep(old(State()), Where(), co, ro)
    {
      if sock.None? {
        var c := Connect(co);
        if c.Err? {
          return Err(c.error);
        }
      }
      if sock.None? {
        return Err(AttributeError);
      }
      var id := sock.value;
      net.Call(Recv(id, BUFFER_SIZE));
      if ro.TimedOut? || ro.RecvFailed? || ro.data == [] {
        net.Call(SockCall.Close(id));
        sock := None;
        r := Err(ConnectionError);
      } else {
        r := Ok(ro.data);
      }
    }
  }

  /** LSConnection(server, port, timeout): building the object connects, and a failed connect means no object. */
  method NewLSConnection(server: string, port: int, timeout: int, net: SocketLayer, o: ConnectOutcome)
    returns (r: Result<LSConnection, Exc>)
    requires net.Valid()
    modifies net
    ensures net.Valid()
    ensures var (l, c) := LegacyConnectStep(Link(None, old(net.created), old(net.calls)), Endpoint(server, port, timeout), o);
      && net.created == l.created && net.calls == l.calls
      && (r.Ok? <==> c.Ok?)
      && (r.Err? ==> r.error == c.error)
      && (r.Ok? ==> fresh(r.value) && r.value.net == net && r.value.sock == l.sock && r.value.Valid())
      && (r.Ok? ==> r.value.server == server && r.value.port == port && r.value.timeout == timeout)
  {
    var conn := new LSConnection(server, port, timeout, net);
    var c := conn.Connect(o);
    if c.Err? {
      return Err(c.error);
    }
    r := Ok(conn);
  }

  /** LivesplitHandler.recieve: one read, with the older parse_time for times. */
  function LegacyReceiveReplyStep(l: Link, e: Endpoint, kind: ReplyKind, co: ConnectOutcome, ro: RecvOutcome): (r: (Link, Result<Reply, Exc>))
    ensures l.created <= r.0.created && l.calls <= r.0.calls
    ensures r.1.Ok? ==> r.0.sock.Some? && |r.0.calls| > 0 && r.0.calls[|r.0.calls| - 1] == Recv(r.0.sock.value, BUFFER_SIZE)
  {
    var (l1, d) := LegacyReceiveStep(l, e, co, ro);
    if d.Err? then (l1, Err(d.error)) else (l1, InterpretLegacy(kind, d.value))
  }

  function LegacyExchangeStep(l: Link, e: Endpoint, line: Bytes, wanted: Option<ReplyKind>, ex: Exchange): (r: (Link, Result<Option<Reply>, Exc>))
    ensures l.created <= r.0.created && l.calls <= r.0.calls
    ensures r.1.Ok? ==> (r.1.value.Some? <==> wanted.Some?)
  {
    var (l1, s) := LegacySendStep(l, e, line, ex.connect, ex.send);
    if s.Err? then (l1, Err(s.error))
    else if wanted.None? then (l1, Ok(None))
    else
      var (l2, r) := LegacyReceiveReplyStep(l1, e, wanted.value, ex.connect, ex.recv);
      if r.Err? then (l2, Err(r.error)) else (l2, Ok(Some(r.value)))
  }

  /** One LivesplitHandler method: the command's line, and the reply it waits for. */
  function LegacyPerformStep(l: Link, e: Endpoint, cmd: Command, ex: Exchange): (r: (Link, Result<Option<Reply>, Exc>))
    ensures l.created <= r.0.created && l.calls <= r.0.calls
    ensures r.1.Ok? ==> (r.1.value.Some? <==> Expected(cmd).Some?)
  {
    LegacyExchangeStep(l, e, Frame(Message(cmd)), Expected(cmd), ex)
  }

  /**
   * The handler sends the same lines as LivesplitMessaging: once connected, a
   * command that reads no time has the same effect and result through either,
   * unless the read times out.
   */
  lemma HandlerMatchesMessaging(l: Link, e: Endpoint, cmd: Command, ex: Exchange)
    requires l.sock.Some? || ex.connect == Accepted
    requires Expected(cmd) != Some(TimeReply) && ex.recv != TimedOut
    ensures LegacyPerformStep(l, e, cmd, ex) == PerformStep(l, e, cmd, ex)
  {
    ExchangeMatches(l, e, Frame(Message(cmd)), Expected(cmd), ex);
  }

  lemma ExchangeMatches(l: Link, e: Endpoint, line: Bytes, wanted: Option<ReplyKind>, ex: Exchange)
    requires l.sock.Some? || ex.connect == Accepted
    requires wanted != Some(TimeReply) && ex.recv != TimedOut
    ensures LegacyExchangeStep(l, e, line, wanted, ex) == ExchangeStep(l, e, line, wanted, ex)
  {
    LegacySendMatchesNewer(l, e, line, ex.connect, ex.send);
    var sent := SendStep(l, e, line, ex.connect, ex.send);
    if sent.1.Ok? && wanted.Some? {
      SendSucceedsIff(l, e, line, ex.connect, ex.send);
      ReplyMatches(sent.0, e, wanted.value, ex.connect, ex.recv);
    }
  }

  /** On a connected link, reading a text or integer reply is the same through either client. */
  lemma ReplyMatches(l: Link, e: Endpoint, kind: ReplyKind, co: ConnectOutcome, ro: RecvOutcome)
    requires l.sock.Some? && kind != TimeReply && ro != TimedOut
    ensures LegacyReceiveReplyStep(l, e, kind, co, ro) == ReceiveReplyStep(l, e, kind, co, ro)
  {
    LegacyReceiveMatchesNewer(l, e, co, ro);
    var d := ReceiveStep(l, e, co, ro).1;
    if d.Ok? {
      assert InterpretLegacy(kind, d.value) == Interpret(kind, d.value);
    }
  }

  class LivesplitHandler {
    const connection: LSConnection

    constructor(connection: LSConnection)
      ensures this.connection == connection
    {
      this.connection := connection;
    }

    function State(): Link
      reads connection, connection.net
    {
      connection.State()
    }

    predicate Valid()
      reads connection, connection.net
    {
      connection.Valid()
    }

    method Send(message: string, co: ConnectOutcome, so: SendOutcome) returns (r: Result<(), Exc>)
      requires Valid()
      modifies connection, connection.net
      ensures Valid()
      ensures (State(), r) == LegacySendStep(old(State()), connection.Where(), Frame(message), co, so)
    {
      r := connection.Send(Frame(message), co, so);
    }

    /** recieve (so spelled in the source). */
    method Receive(kind: ReplyKind, co: ConnectOutcome, ro: RecvOutcome) returns (r: Result<Reply, Exc>)
      requires Valid()
      modifies connection, connection.net
      ensures Valid()
      ensures (State(), r) == LegacyReceiveReplyStep(old(State()), connection.Where(), kind, co, ro)
    {
      var d := connection.Receive(co, ro);
      if d.Err? {
        return Err(d.error);
      }
      r := InterpretLegacy(kind, d.value);
    }

    /** Any of the command methods (start_timer ... get_current_timer_phase). */
    method Perform(cmd: Command, ex: Exchange) returns (r: Result<Option<Reply>, Exc>)
      requires Valid()
      modifies connection, connection.net
      ensures Valid()
      ensures (State(), r) == LegacyPerformStep(old(State()), connection.Where(), cmd, ex)
    {
      var s := Send(Message(cmd), ex.connect, ex.send);
      if s.Err? {
        return Err(s.error);
      }
      if Expected(cmd).None? {
        return Ok(None);
      }
      var reply := Receive(Expected(cmd).value, ex.connect, ex.recv);
      if reply.Err? {
        return Err(reply.error);
      }
      r := Ok(Some(reply.value));
    }
  }
}
