/**
 * LivesplitConnection and LivesplitMessaging: the client for LiveSplit Server's
 * TCP socket. The same connection class appears twice in the repository, with
 * the same behaviour; it is modelled once.
 */
module LivesplitClient {
  import opened Wrappers
  import opened Errors
  import opened Utf8
  import opened Transport
  import opened LivesplitProtocol

  const DEFAULT_SERVER: string := "localhost"
  const DEFAULT_PORT: int := 16834
  const DEFAULT_TIMEOUT: int := 1

  /** Where the client connects to, and the timeout set on each socket. */
  datatype Endpoint = Endpoint(server: string, port: int, timeout: int)

  /*
   * The steps below are the connection's methods as functions of the handle and
   * the socket layer's record; the class's methods are proved to take exactly
   * these steps.
   */

  /** connect: a fresh socket; refused and unresolvable hosts give False, other errors propagate. */
  function ConnectStep(l: Link, e: Endpoint, o: ConnectOutcome): (r: (Link, Result<bool, Exc>))
    ensures r.0.created == l.created + 1 && l.calls <= r.0.calls
    ensures r.1.Ok? ==> (r.1.value <==> r.0.sock.Some?)
  {
    var id := l.created;
    var tried := l.calls + [Open(id), SockCall.Connect(id, e.server, e.port)];
    match o
    case Accepted => (Link(Some(id), id + 1, tried + [SetTimeout(id, e.timeout)]), Ok(true))
    case Refused => (Link(None, id + 1, tried + [Close(id)]), Ok(false))
    case Unresolved => (Link(None, id + 1, tried + [Close(id)]), Ok(false))
    case Unreachable => (Link(Some(id), id + 1, tried), Err(OSError))
  }

  /** close: closes the handle's socket, if there is one. */
  function CloseStep(l: Link): (r: Link)
    ensures r.sock.None? && r.created == l.created && l.calls <= r.calls
  {
    if l.sock.Some? then Link(None, l.created, l.calls + [Close(l.sock.value)]) else l
  }

  /** `if not self.sock: self.connect()`, the start of send and receive. */
  function EnsureStep(l: Link, e: Endpoint, o: ConnectOutcome): (r: (Link, Result<bool, Exc>))
    ensures l.sock.Some? ==> r == (l, Ok(true))
    ensures l.created <= r.0.created && l.calls <= r.0.calls
  {
    if l.sock.None? then ConnectStep(l, e, o) else (l, Ok(true))
  }

  /** send: an aborted connection is dropped and reported; with no socket, self.sock.send fails. */
  function SendStep(l: Link, e: Endpoint, msg: Bytes, co: ConnectOutcome, so: SendOutcome): (r: (Link, Result<(), Exc>))
    ensures l.created <= r.0.created && l.calls <= r.0.calls
    ensures r.1.Ok? ==> r.0.sock.Some? && |r.0.calls| > 0 && r.0.calls[|r.0.calls| - 1] == Send(r.0.sock.value, msg)
  {
    var (l1, c) := EnsureStep(l, e, co);
    if c.Err? then (l1, Err(c.error))
    else if l1.sock.None? then (l1, Err(AttributeError))
    else
      var id := l1.sock.value;
      var sent := l1.calls + [Send(id, msg)];
      match so
      case Delivered => (l1.(calls := sent), Ok(()))
      case Aborted => (Link(None, l1.created, sent + [Close(id)]), Err(ConnectionAbortedError))
      case SendReset => (l1.(calls := sent), Err(ConnectionError))
      case SendFailed => (l1.(calls := sent), Err(OSError))
  }

  /** receive: a timeout keeps the socket; an error or an empty read drops it. */
  function ReceiveStep(l: Link, e: Endpoint, co: ConnectOutcome, ro: RecvOutcome): (r: (Link, Result<Bytes, Exc>))
    ensures l.created <= r.0.created && l.calls <= r.0.calls
    ensures r.1.Ok? ==> r.1.value != [] && r.0.sock.Some? && |r.0.calls| > 0 && r.0.calls[|r.0.calls| - 1] == Recv(r.0.sock.value, BUFFER_SIZE)
  {
    var (l1, c) := EnsureStep(l, e, co);
    if c.Err? then (l1, Err(c.error))
    else if l1.sock.None? then (l1, Err(AttributeError))
    else
      var id := l1.sock.value;
      var asked := l1.calls + [Recv(id, BUFFER_SIZE)];
      var dropped := Link(None, l1.created, asked + [Close(id)]);
      match ro
      case TimedOut => (l1.(calls := asked), Err(TimeoutError))
      case RecvFailed => (dropped, Err(ConnectionError))
      case Received(data) => if data == [] then (dropped, Err(ConnectionError)) else (l1.(calls := asked), Ok(data))
  }

  /** No step leaves the handle on a closed socket, or logs a call on a socket never created. */
  lemma StepsKeepSound(l: Link, e: Endpoint, msg: Bytes, co: ConnectOutcome, so: SendOutcome, ro: RecvOutcome)
    requires Sound(l)
    ensures Sound(ConnectStep(l, e, co).0)
    ensures Sound(CloseStep(l))
    ensures Sound(SendStep(l, e, msg, co, so).0)
    ensures Sound(ReceiveStep(l, e, co, ro).0)
  {
    ConnectKeepsSound(l, e, co);
    SendKeepsSound(l, e, msg, co, so);
    ReceiveKeepsSound(l, e, co, ro);
  }

  lemma EnsureKeepsSound(l: Link, e: Endpoint, o: ConnectOutcome)
    requires Sound(l)
    ensures Sound(EnsureStep(l, e, o).0)
  {
    if l.sock.None? {
      ConnectKeepsSound(l, e, o);
    }
  }

  lemma SendKeepsSound(l: Link, e: Endpoint, msg: Bytes, co: ConnectOutcome, so: SendOutcome)
    requires Sound(l)
    ensures Sound(SendStep(l, e, msg, co, so).0)
  {
    EnsureKeepsSound(l, e, co);
    var l1 := EnsureStep(l, e, co).0;
    if l1.sock.Some? {
      AppendKeepsSound(l1, [Send(l1.sock.value, msg)]);
    }
  }

  lemma ReceiveKeepsSound(l: Link, e: Endpoint, co: ConnectOutcome, ro: RecvOutcome)
    requires Sound(l)
    ensures Sound(ReceiveStep(l, e, co, ro).0)
  {
    EnsureKeepsSound(l, e, co);
    var l1 := EnsureStep(l, e, co).0;
    if l1.sock.Some? {
      AppendKeepsSound(l1, [Recv(l1.sock.value, BUFFER_SIZE)]);
    }
  }

  lemma ConnectKeepsSound(l: Link, e: Endpoint, o: ConnectOutcome)
    requires Sound(l)
    ensures Sound(ConnectStep(l, e, o).0)
  {
    var id := l.created;
    assert !Closed(l.calls, id);
  }

  /** connect answers True exactly when the server accepted, and then the socket has the timeout set. */
  lemma ConnectReports(l: Link, e: Endpoint, o: ConnectOutcome)
    ensures var (l1, r) := ConnectStep(l, e, o);
      && (r == Ok(true) <==> o == Accepted)
      && (r == Ok(true) ==> l1.sock == Some(l.created) && l1.calls[|l1.calls| - 1] == SetTimeout(l.created, e.timeout))
      && (r == Ok(false) ==> l1.sock.None? && Closed(l1.calls, l.created))
      && l1.created == l.created + 1
  {
  }

  /** Closing leaves no handle, closes only the handle's socket, and a second close does nothing. */
  lemma CloseIdempotent(l: Link)
    ensures CloseStep(l).sock.None?
    ensures CloseStep(CloseStep(l)) == CloseStep(l)
    ensures l.sock.Some? ==> CloseStep(l).calls == l.calls + [Close(l.sock.value)]
  {
  }

  /**
   * send succeeds exactly when the message was handed to a connected socket: the
   * one already held, or a new one when the server accepted.
   */
  lemma SendSucceedsIff(l: Link, e: Endpoint, msg: Bytes, co: ConnectOutcome, so: SendOutcome)
    ensures var (l1, r) := SendStep(l, e, msg, co, so);
      && (r.Ok? <==> so == Delivered && (l.sock.Some? || co == Accepted))
      && (r.Ok? ==> l1.sock.Some? && l1.calls[|l1.calls| - 1] == Send(l1.sock.value, msg))
      && (l.sock.Some? ==> l1.created == l.created)
  {
  }

  /** receive returns the bytes read exactly when a connected socket gave a non-empty read. */
  lemma ReceiveSucceedsIff(l: Link, e: Endpoint, co: ConnectOutcome, ro: RecvOutcome)
    ensures var (l1, r) := ReceiveStep(l, e, co, ro);
      && (r.Ok? <==> ro.Received? && ro.data != [] && (l.sock.Some? || co == Accepted))
      && (r.Ok? ==> r.value == ro.data && l1.sock.Some?)
      && (l.sock.Some? ==> l1.created == l.created)
  {
  }

  /**
   * What each failure does to the handle: a timeout keeps it, a broken or closed
   * connection drops it and closes its socket. On send only an abort is caught;
   * a reset or broken pipe passes through as a ConnectionError and leaves the
   * handle on its open socket.
   */
  lemma FailuresAndHandle(l: Link, e: Endpoint, msg: Bytes, co: ConnectOutcome, so: SendOutcome, ro: RecvOutcome)
    requires Sound(l) && l.sock.Some?
    ensures var (l1, r) := ReceiveStep(l, e, co, ro);
      && (r == Err(TimeoutError) ==> l1.sock == l.sock && !Closed(l1.calls, l.sock.value))
      && (r == Err(ConnectionError) ==> l1.sock.None? && Closed(l1.calls, l.sock.value))
    ensures var (l1, r) := SendStep(l, e, msg, co, so);
      && (r == Err(ConnectionAbortedError) ==> l1.sock.None? && Closed(l1.calls, l.sock.value))
      && (r == Err(ConnectionError) <==> so == SendReset)
      && (so == SendReset ==> l1.sock == l.sock && !Closed(l1.calls, l.sock.value))
  {
  }

  /** The connection object: its endpoint, its handle, and the socket layer it calls. */
  class LivesplitConnection {
    const server: string
    const port: int
    const timeout: int
    var sock: Option<SocketId>
    const net: SocketLayer

    function Where(): Endpoint
    {
      Endpoint(server, port, timeout)
    }

    function State(): Link
      reads this, net
    {
      Link(sock, net.created, net.calls)
    }

    predicate Valid()
      reads this, net
    {
      net.Valid() && Sound(State())
    }

    constructor(server: string, port: int, timeout: int, net: SocketLayer)
      requires net.Valid()
      ensures this.server == server && this.port == port && this.timeout == timeout
      ensures this.net == net && sock.None? && Valid()
    {
      this.server := server;
      this.port := port;
      this.timeout := timeout;
      this.net := net;
      sock := None;
    }

    method Connect(o: ConnectOutcome) returns (r: Result<bool, Exc>)
      requires Valid()
      modifies this, net
      ensures Valid()
      ensures (State(), r) == ConnectStep(old(State()), Where(), o)
    {
      ghost var l := State();
      var id := net.NewSocket();
      sock := Some(id);
      net.Call(SockCall.Connect(id, server, port));
      assert net.calls == l.calls + [Open(id), SockCall.Connect(id, server, port)];
      match o {
        case Accepted =>
          net.Call(SetTimeout(id, timeout));
          r := Ok(true);
        case Refused =>
          net.Call(SockCall.Close(id));
          sock := None;
          r := Ok(false);
        case Unresolved =>
          net.Call(SockCall.Close(id));
          sock := None;
          r := Ok(false);
        case Unreachable =>
          r := Err(OSError);
      }
      ConnectKeepsSound(l, Where(), o);
    }

    method Close()
      requires Valid()
      modifies this, net
      ensures Valid()
      ensures State() == CloseStep(old(State()))
    {
      if sock.Some? {
        net.Call(SockCall.Close(sock.value));
        sock := None;
      }
    }

    method Send(msg: Bytes, co: ConnectOutcome, so: SendOutcome) returns (r: Result<(), Exc>)
      requires Valid()
      modifies this, net
      ensures Valid()
      ensures (State(), r) == SendStep(old(State()), Where(), msg, co, so)
    {
      if sock.None? {
        var c := Connect(co);
        if c.Err? {
          return Err(c.error);
        }
      }
      if sock.None? {
        return Err(AttributeError);
      }
      var id := sock.value;
      net.Call(SockCall.Send(id, msg));
      match so {
        case Delivered =>
          r := Ok(());
        case Aborted =>
          net.Call(SockCall.Close(id));
          sock := None;
          r := Err(ConnectionAbortedError);
        case SendReset =>
          r := Err(ConnectionError);
        case SendFailed =>
          r := Err(OSError);
      }
    }

    method Receive(co: ConnectOutcome, ro: RecvOutcome) returns (r: Result<Bytes, Exc>)
      requires Valid()
      modifies this, net
      ensures Valid()
      ensures (State(), r) == ReceiveStep(old(State()), Where(), co, ro)
    {
      if sock.None? {
        var c := Connect(co);
        if c.Err? {
          return Err(c.error);
        }
      }
      if sock.None? {
        return Err(AttributeError);
      }
      var id := sock.value;
      net.Call(Recv(id, BUFFER_SIZE));
      match ro {
        case TimedOut =>
          r := Err(TimeoutError);
        case RecvFailed =>
          net.Call(SockCall.Close(id));
          sock := None;
          r := Err(ConnectionError);
        case Received(data) =>
          if data == [] {
            net.Call(SockCall.Close(id));
            sock := None;
            r := Err(ConnectionError);
          } else {
            r := Ok(data);
          }
      }
    }
  }

  /*
   * LivesplitMessaging: each method sends its command line, framed, through the
   * connection, and the query methods then read one reply.
   */

  /** The outcomes of the socket calls one command may make. */
  datatype Exchange = Exchange(connect: ConnectOutcome, send: SendOutcome, recv: RecvOutcome)

  /** receive(datatype): one read from the connection, interpreted as the kind asks. */
  function ReceiveReplyStep(l: Link, e: Endpoint, kind: ReplyKind, co: ConnectOutcome, ro: RecvOutcome): (r: (Link, Result<Reply, Exc>))
    ensures l.created <= r.0.created && l.calls <= r.0.calls
    ensures r.1.Ok? ==> r.0.sock.Some? && |r.0.calls| > 0 && r.0.calls[|r.0.calls| - 1] == Recv(r.0.sock.value, BUFFER_SIZE)
  {
    var (l1, d) := ReceiveStep(l, e, co, ro);
    if d.Err? then (l1, Err(d.error)) else (l1, Interpret(kind, d.value))
  }

  /**
   * Send one framed line, then, when a reply is expected, read it. An exception
   * from send means no read is made.
   */
  function ExchangeStep(l: Link, e: Endpoint, line: Bytes, wanted: Option<ReplyKind>, ex: Exchange): (r: (Link, Result<Option<Reply>, Exc>))
    ensures l.created <= r.0.created && l.calls <= r.0.calls
    ensures r.1.Ok? ==> (r.1.value.Some? <==> wanted.Some?)
  {
    var (l1, s) := SendStep(l, e, line, ex.connect, ex.send);
    if s.Err? then (l1, Err(s.error))
    else if wanted.None? then (l1, Ok(None))
    else
      var (l2, r) := ReceiveReplyStep(l1, e, wanted.value, ex.connect, ex.recv);
      if r.Err? then (l2, Err(r.error)) else (l2, Ok(Some(r.value)))
  }

  /** One messaging method: the command's line, and the reply it waits for. */
  function PerformStep(l: Link, e: Endpoint, cmd: Command, ex: Exchange): (r: (Link, Result<Option<Reply>, Exc>))
    ensures l.created <= r.0.created && l.calls <= r.0.calls
    ensures r.1.Ok? ==> (r.1.value.Some? <==> Expected(cmd).Some?)
  {
    ExchangeStep(l, e, Frame(Message(cmd)), Expected(cmd), ex)
  }

  /** The commands that only send never read, and their outcome is the send's. */
  lemma ActionsNeverRead(l: Link, e: Endpoint, cmd: Command, ex: Exchange)
    requires Expected(cmd).None?
    ensures var (l1, r) := PerformStep(l, e, cmd, ex);
      var (l0, s) := SendStep(l, e, Frame(Message(cmd)), ex.connect, ex.send);
      && l1 == l0
      && (r.Ok? <==> s.Ok?)
      && (r.Ok? ==> r.value.None?)
      && NoReadAfter(l.calls, l1.calls)
  {
    SendNeverReads(l, e, Frame(Message(cmd)), ex.connect, ex.send);
  }

  /** `after` extends `before` with calls none of which is a recv. */
  predicate NoReadAfter(before: seq<SockCall>, after: seq<SockCall>)
  {
    |before| <= |after| && after[..|before|] == before
    && forall i :: |before| <= i < |after| ==> !after[i].Recv?
  }

  lemma NoReadAfterTrans(a: seq<SockCall>, b: seq<SockCall>, c: seq<SockCall>)
    requires NoReadAfter(a, b) && NoReadAfter(b, c)
    ensures NoReadAfter(a, c)
  {
    assert c[..|a|] == c[..|b|][..|a|];
  }

  /** connect and send only ever append calls that are not recv. */
  lemma SendNeverReads(l: Link, e: Endpoint, msg: Bytes, co: ConnectOutcome, so: SendOutcome)
    ensures NoReadAfter(l.calls, SendStep(l, e, msg, co, so).0.calls)
  {
    var l1 := EnsureStep(l, e, co).0;
    ConnectNeverReads(l, e, co);
    if l1.sock.Some? && EnsureStep(l, e, co).1.Ok? {
      var id := l1.sock.value;
      var sent := l1.calls + [Send(id, msg)];
      assert NoReadAfter(l1.calls, sent);
      assert NoReadAfter(sent, sent + [Close(id)]);
      NoReadAfterTrans(l1.calls, sent, sent + [Close(id)]);
      NoReadAfterTrans(l.calls, l1.calls, SendStep(l, e, msg, co, so).0.calls);
    }
  }

  lemma ConnectNeverReads(l: Link, e: Endpoint, o: ConnectOutcome)
    ensures NoReadAfter(l.calls, EnsureStep(l, e, o).0.calls)
  {
  }

  /**
   * What an exchange that waits for a reply promises: it succeeds exactly when
   * the send went through on a socket, the read was non-empty and the reply
   * parsed; and a success ends with the send and the read on one socket.
   */
  predicate SendsThenReads(l: Link, line: Bytes, kind: ReplyKind, ex: Exchange, res: (Link, Result<Option<Reply>, Exc>))
  {
    var (l1, r) := res;
    && (r.Ok? <==>
          && ex.send == Delivered && (l.sock.Some? || ex.connect == Accepted)
          && ex.recv.Received? && ex.recv.data != []
          && Interpret(kind, ex.recv.data).Ok?)
    && (r.Ok? ==>
          && r.value == Some(Interpret(kind, ex.recv.data).value)
          && l1.sock.Some?
          && |l1.calls| >= 2
          && l1.calls[|l1.calls| - 2..] == [Send(l1.sock.value, line), Recv(l1.sock.value, BUFFER_SIZE)])
  }

  /**
   * A query succeeds exactly when its line was delivered and a non-empty reply
   * came back that reads as the expected kind; its last two socket calls are
   * then the framed command line and one recv of BUFFER_SIZE on the same socket,
   * and the reply is what the server sent, interpreted.
   */
  lemma QuerySendsThenReads(l: Link, e: Endpoint, cmd: Command, ex: Exchange)
    requires Expected(cmd).Some?
    ensures SendsThenReads(l, Frame(Message(cmd)), Expected(cmd).value, ex, PerformStep(l, e, cmd, ex))
  {
    var line := Frame(Message(cmd));
    assert PerformStep(l, e, cmd, ex) == ExchangeStep(l, e, line, Some(Expected(cmd).value), ex);
    ExchangeSendsThenReads(l, e, line, Expected(cmd).value, ex);
  }

  lemma ExchangeSendsThenReads(l: Link, e: Endpoint, line: Bytes, kind: ReplyKind, ex: Exchange)
    ensures SendsThenReads(l, line, kind, ex, ExchangeStep(l, e, line, Some(kind), ex))
  {
    if SendStep(l, e, line, ex.connect, ex.send).1.Ok? {
      ExchangeAfterDelivery(l, e, line, kind, ex);
    } else {
      ExchangeSendFails(l, e, line, kind, ex);
    }
  }

  /** A send that fails ends the exchange with its error. */
  lemma ExchangeSendFails(l: Link, e: Endpoint, line: Bytes, kind: ReplyKind, ex: Exchange)
    requires SendStep(l, e, line, ex.connect, ex.send).1.Err?
    ensures SendsThenReads(l, line, kind, ex, ExchangeStep(l, e, line, Some(kind), ex))
  {
    SendSucceedsIff(l, e, line, ex.connect, ex.send);
  }

  /** After a send that went through, the exchange is its read half. */
  lemma ExchangeAfterDelivery(l: Link, e: Endpoint, line: Bytes, kind: ReplyKind, ex: Exchange)
    requires SendStep(l, e, line, ex.connect, ex.send).1.Ok?
    ensures SendsThenReads(l, line, kind, ex, ExchangeStep(l, e, line, Some(kind), ex))
  {
    var sent := SendStep(l, e, line, ex.connect, ex.send);
    SendSucceedsIff(l, e, line, ex.connect, ex.send);
    ExchangeSplits(l, e, line, kind, ex);
    TailSendsThenReads(l, sent.0, e, line, kind, ex);
  }

  /** An exchange that waits for a reply is the send, then on success the read half. */
  lemma ExchangeSplits(l: Link, e: Endpoint, line: Bytes, kind: ReplyKind, ex: Exchange)
    ensures var sent := SendStep(l, e, line, ex.connect, ex.send);
      ExchangeStep(l, e, line, Some(kind), ex)
        == if sent.1.Err? then (sent.0, Err(sent.1.error)) else ExchangeTail(sent.0, e, kind, ex)
  {
  }

  /** The read half, on the link a delivered send left, keeps the exchange's promise. */
  lemma TailSendsThenReads(l: Link, l0: Link, e: Endpoint, line: Bytes, kind: ReplyKind, ex: Exchange)
    requires ex.send == Delivered && (l.sock.Some? || ex.connect == Accepted)
    requires l0.sock.Some? && |l0.calls| >= 1 && l0.calls[|l0.calls| - 1] == Send(l0.sock.value, line)
    ensures SendsThenReads(l, line, kind, ex, ExchangeTail(l0, e, kind, ex))
  {
    ReadAfterSend(l0, e, line, kind, ex);
  }

  /** The read half of an exchange, once the send went through. */
  function ExchangeTail(l: Link, e: Endpoint, kind: ReplyKind, ex: Exchange): (Link, Result<Option<Reply>, Exc>)
  {
    var (l2, r) := ReceiveReplyStep(l, e, kind, ex.connect, ex.recv);
    if r.Err? then (l2, Err(r.error)) else (l2, Ok(Some(r.value)))
  }

  lemma ReadAfterSend(l: Link, e: Endpoint, line: Bytes, kind: ReplyKind, ex: Exchange)
    requires l.sock.Some? && |l.calls| >= 1 && l.calls[|l.calls| - 1] == Send(l.sock.value, line)
    ensures var (l1, r) := ExchangeTail(l, e, kind, ex);
      && (r.Ok? <==> ex.recv.Received? && ex.recv.data != [] && Interpret(kind, ex.recv.data).Ok?)
      && (r.Ok? ==>
            && r.value == Some(Interpret(kind, ex.recv.data).value)
            && l1.sock == l.sock
            && |l1.calls| >= 2
            && l1.calls[|l1.calls| - 2..] == [Send(l1.sock.value, line), Recv(l1.sock.value, BUFFER_SIZE)])
  {
    ReceiveConnected(l, e, ex.connect, ex.recv);
    var c := l.calls + [Recv(l.sock.value, BUFFER_SIZE)];
    assert c[|c| - 2..] == [c[|c| - 2], c[|c| - 1]];
  }

  /** On a connected link, receive makes exactly one recv and keeps the handle when it returns data. */
  lemma ReceiveConnected(l: Link, e: Endpoint, co: ConnectOutcome, ro: RecvOutcome)
    requires l.sock.Some?
    ensures var (l1, r) := ReceiveStep(l, e, co, ro);
      && (r.Ok? <==> ro.Received? && ro.data != [])
      && (r.Ok? ==> r.value == ro.data && l1.sock == l.sock && l1.calls == l.calls + [Recv(l.sock.value, BUFFER_SIZE)])
  {
  }

  /** Every line a messaging method sends is decoded by the server as the command it stands for. */
  lemma SentLineNamesCommand(cmd: Command)
    ensures var f := Frame(Message(cmd));
      Decode(f[..|f| - 2]) == Ok(Message(cmd)) && ReadCommand(Message(cmd)) == Some(Normal(cmd))
  {
    var f := Frame(Message(cmd));
    assert f[..|f| - 2] == Encode(Message(cmd));
    DecodeEncode(Message(cmd));
    ReadMessage(cmd);
  }

  class LivesplitMessaging {
    const connection: LivesplitConnection

    constructor(connection: LivesplitConnection)
      ensures this.connection == connection
    {
      this.connection := connection;
    }

    function State(): Link
      reads connection, connection.net
    {
      connection.State()
    }

    predicate Valid()
      reads connection, connection.net
    {
      connection.Valid()
    }

    method Connect(o: ConnectOutcome) returns (r: Result<bool, Exc>)
      requires Valid()
      modifies connection, connection.net
      ensures Valid()
      ensures (State(), r) == ConnectStep(old(State()), connection.Where(), o)
    {
      r := connection.Connect(o);
    }

    method Close()
      requires Valid()
      modifies connection, connection.net
      ensures Valid()
      ensures State() == CloseStep(old(State()))
    {
      connection.Close();
    }

    method Send(message: string, co: ConnectOutcome, so: SendOutcome) returns (r: Result<(), Exc>)
      requires Valid()
      modifies connection, connection.net
      ensures Valid()
      ensures (State(), r) == SendStep(old(State()), connection.Where(), Frame(message), co, so)
    {
      r := connection.Send(Frame(message), co, so);
    }

    method Receive(kind: ReplyKind, co: ConnectOutcome, ro: RecvOutcome) returns (r: Result<Reply, Exc>)
      requires Valid()
      modifies connection, connection.net
      ensures Valid()
      ensures (State(), r) == ReceiveReplyStep(old(State()), connection.Where(), kind, co, ro)
    {
      var d := connection.Receive(co, ro);
      if d.Err? {
        return Err(d.error);
      }
      r := Interpret(kind, d.value);
    }

    /** Any of the command methods (start_timer ... get_current_timer_phase). */
    method Perform(cmd: Command, ex: Exchange) returns (r: Result<Option<Reply>, Exc>)
      requires Valid()
      modifies connection, connection.net
      ensures Valid()
      ensures (State(), r) == PerformStep(old(State()), connection.Where(), cmd, ex)
    {
      var s := Send(Message(cmd), ex.connect, ex.send);
      if s.Err? {
        return Err(s.error);
      }
      if Expected(cmd).None? {
        return Ok(None);
      }
      var reply := Receive(Expected(cmd).value, ex.connect, ex.recv);
      if reply.Err? {
        return Err(reply.error);
      }
      r := Ok(Some(reply.value));
    }
  }

  /** get_client: a messaging object over a fresh, unconnected connection. */
  method GetClient(server: string, port: int, timeout: int, net: SocketLayer) returns (client: LivesplitMessaging)
    requires net.Valid()
    ensures fresh(client) && fresh(client.connection)
    ensures client.connection.server == server && client.connection.port == port
    ensures client.connection.timeout == timeout && client.connection.net == net
    ensures client.connection.sock.None? && client.Valid()
  {
    var connection := new LivesplitConnection(server, port, timeout, net);
    client := new LivesplitMessaging(connection);
  }

  /*
   * The connection's documented behaviour on concrete runs, each against a fresh
   * socket layer.
   */

  /** A connection that the server accepts gets the configured timeout. */
  method ConnectScenario() returns (r: Result<bool, Exc>, calls: seq<SockCall>)
    ensures r == Ok(true)
    ensures calls == [Open(0), SockCall.Connect(0, "host", 12), SetTimeout(0, 2)]
  {
    var net := new SocketLayer();
    var c := new LivesplitConnection("host", 12, 2, net);
    r := c.Connect(Accepted);
    calls := net.calls;
  }

  /** A refused connection reports False and keeps no handle. */
  method FailedConnectScenario() returns (r: Result<bool, Exc>, handle: Option<SocketId>)
    ensures r == Ok(false) && handle.None?
  {
    var net := new SocketLayer();
    var c := new LivesplitConnection(DEFAULT_SERVER, DEFAULT_PORT, DEFAULT_TIMEOUT, net);
    r := c.Connect(Refused);
    handle := c.sock;
  }

  /** Closing twice closes the socket once. */
  method CloseTwiceScenario() returns (calls: seq<SockCall>, handle: Option<SocketId>)
    ensures handle.None?
    ensures calls == [Open(0), SockCall.Connect(0, DEFAULT_SERVER, DEFAULT_PORT), SetTimeout(0, DEFAULT_TIMEOUT), Close(0)]
  {
    var net := new SocketLayer();
    var c := new LivesplitConnection(DEFAULT_SERVER, DEFAULT_PORT, DEFAULT_TIMEOUT, net);
    var _ := c.Connect(Accepted);
    c.Close();
    c.Close();
    calls := net.calls;
    handle := c.sock;
  }

  /** send connects when it has to, and either way one socket carries the message. */
  method SendScenario(connectFirst: bool, msg: Bytes) returns (r: Result<(), Exc>, created: nat, last: SockCall)
    ensures r == Ok(()) && created == 1 && last == Send(0, msg)
  {
    var net := new SocketLayer();
    var c := new LivesplitConnection(DEFAULT_SERVER, DEFAULT_PORT, DEFAULT_TIMEOUT, net);
    if connectFirst {
      var _ := c.Connect(Accepted);
    }
    r := c.Send(msg, Accepted, Delivered);
    created := net.created;
    last := net.calls[|net.calls| - 1];
  }

  /** An aborted send closes the socket, drops the handle and re-raises. */
  method SendAbortedScenario(msg: Bytes) returns (r: Result<(), Exc>, calls: seq<SockCall>, handle: Option<SocketId>)
    ensures r == Err(ConnectionAbortedError) && handle.None?
    ensures |calls| >= 2 && calls[|calls| - 2..] == [Send(0, msg), Close(0)]
  {
    var net := new SocketLayer();
    var c := new LivesplitConnection(DEFAULT_SERVER, DEFAULT_PORT, DEFAULT_TIMEOUT, net);
    r := c.Send(msg, Accepted, Aborted);
    calls := net.calls;
    handle := c.sock;
  }

  /** receive returns the bytes read, asking for BUFFER_SIZE. */
  method ReceiveScenario(connectFirst: bool, data: Bytes) returns (r: Result<Bytes, Exc>, last: SockCall)
    requires data != []
    ensures r == Ok(data) && last == Recv(0, BUFFER_SIZE)
  {
    var net := new SocketLayer();
    var c := new LivesplitConnection(DEFAULT_SERVER, DEFAULT_PORT, DEFAULT_TIMEOUT, net);
    if connectFirst {
      var _ := c.Connect(Accepted);
    }
    r := c.Receive(Accepted, Received(data));
    last := net.calls[|net.calls| - 1];
  }

  /** An empty read or a socket error is a closed connection; a timeout keeps the socket open. */
  method ReceiveFailureScenario(ro: RecvOutcome) returns (r: Result<Bytes, Exc>, handle: Option<SocketId>, closed: bool)
    requires ro == Received([]) || ro == RecvFailed || ro == TimedOut
    ensures ro == TimedOut ==> r == Err(TimeoutError) && handle == Some(0) && !closed
    ensures ro != TimedOut ==> r == Err(ConnectionError) && handle.None? && closed
  {
    var net := new SocketLayer();
    var c := new LivesplitConnection(DEFAULT_SERVER, DEFAULT_PORT, DEFAULT_TIMEOUT, net);
    r := c.Receive(Accepted, ro);
    handle := c.sock;
    closed := Closed(net.calls, 0);
  }
}
