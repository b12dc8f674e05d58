/**
 * LivesplitoneConnection and LivesplitoneMessaging: the client for LiveSplit
 * One's WebSocket server. The connection keeps the TCP client's shape (connect,
 * close, send, receive with reconnect on demand) over a WebSocket library whose
 * calls are recorded in a log, with each call's outcome an input; messages are
 * JSON objects, with the encoder and decoder as parameters.
 */
module LivesplitOneClient {
  import opened Wrappers
  import opened Errors
  import opened Utf8
  import Text
  import LP = LivesplitProtocol
  import opened LivesplitOneProtocol

  type Bytes = seq<Byte>

  /** Connections are numbered in the order the library opened them. */
  type WsId = nat

  /** The first positional argument of every recv call: BUFFER_SIZE, which the library reads as a timeout in seconds. */
  const RECV_ARGUMENT: nat := 4096

  /** The name the stream pages show for this timer. */
  const TIMER_NAME: string := "LiveSplitOne"

  /** How connect(uri) ends: an open connection or an exception (refused, unresolved, handshake rejected, ...). */
  datatype WsConnectOutcome = Opened | OpenFailed(error: Exc)

  /** How conn.send(msg) ends. */
  datatype WsSendOutcome = WsDelivered | WsSendRaised(error: Exc)

  /** How conn.recv(timeout, decode) ends. */
  datatype WsRecvOutcome = WsReceived(data: Bytes) | WsRecvRaised(error: Exc)

  /** One call into the WebSocket library. */
  datatype WsCall =
    | WsOpen(id: WsId, uri: string)
    | WsSend(id: WsId, data: Bytes)
    | WsRecv(id: WsId, timeout: int, decode: bool)
    | WsClose(id: WsId)

  /** Where the client connects to; the timeout is stored but never passed to the library. */
  datatype Endpoint = Endpoint(server: string, port: int, timeout: int)

  /** The URI the connection opens: `ws://<server>:<port>`. */
  function Uri(e: Endpoint): (u: string)
    ensures |u| > 5 + |e.server| && u[..5] == "ws://" && u[5..5 + |e.server|] == e.server
  {
    "ws://" + e.server + ":" + Text.IntToString(e.port)
  }

  /** The client's handle together with the library's record. */
  datatype WsLink = WsLink(sock: Option<WsId>, created: nat, calls: seq<WsCall>)

  /** The handle, when there is one, is an opened connection not yet closed; every call names an opened connection. */
  predicate Sound(l: WsLink)
  {
    && (l.sock.Some? ==> l.sock.value < l.created && WsClose(l.sock.value) !in l.calls)
    && (forall c :: c in l.calls ==> c.id < l.created)
  }

  /** connect: the handle becomes the new connection and True is returned; a failure propagates and changes nothing. */
  function ConnectStep(l: WsLink, e: Endpoint, o: WsConnectOutcome): (r: (WsLink, Result<bool, Exc>))
    ensures l.created <= r.0.created && l.calls <= r.0.calls
    ensures r.1.Ok? ==> r.0.sock.Some?
  {
    match o
    case Opened => (WsLink(Some(l.created), l.created + 1, l.calls + [WsOpen(l.created, Uri(e))]), Ok(true))
    case OpenFailed(x) => (l, Err(x))
  }

  /** close: closes the handle's connection, if there is one. */
  function CloseStep(l: WsLink): (r: WsLink)
    ensures r.sock.None? && r.created == l.created && l.calls <= r.calls
  {
    if l.sock.Some? then WsLink(None, l.created, l.calls + [WsClose(l.sock.value)]) else l
  }

  /** `if not self.sock: self.connect()`, the start of send and receive. */
  function EnsureStep(l: WsLink, e: Endpoint, o: WsConnectOutcome): (r: (WsLink, Result<bool, Exc>))
    ensures l.sock.Some? ==> r == (l, Ok(true))
    ensures l.created <= r.0.created && l.calls <= r.0.calls
  {
    if l.sock.None? then ConnectStep(l, e, o) else (l, Ok(true))
  }

  /** send: an aborted connection is dropped and reported again; any other exception propagates. */
  function SendStep(l: WsLink, e: Endpoint, msg: Bytes, co: WsConnectOutcome, so: WsSendOutcome): (r: (WsLink, Result<(), Exc>))
    ensures l.created <= r.0.created && l.calls <= r.0.calls
    ensures r.1.Ok? ==> r.0.sock.Some? && |r.0.calls| > 0 && r.0.calls[|r.0.calls| - 1] == WsSend(r.0.sock.value, msg)
  {
    var (l1, c) := EnsureStep(l, e, co);
    if c.Err? then (l1, Err(c.error))
    else if l1.sock.None? then (l1, Ok(()))
    else
      var id := l1.sock.value;
      var sent := l1.calls + [WsSend(id, msg)];
      match so
      case WsDelivered => (l1.(calls := sent), Ok(()))
      case WsSendRaised(x) =>
        if x == ConnectionAbortedError then (WsLink(None, l1.created, sent + [WsClose(id)]), Err(ConnectionAbortedError))
        else (l1.(calls := sent), Err(x))
  }

  /**
   * receive: one recv with BUFFER_SIZE as its first argument and decoding
   * off; an OSError or an empty message drops the connection and raises
   * ConnectionError, the library's own exceptions propagate.
   */
  function ReceiveStep(l: WsLink, e: Endpoint, co: WsConnectOutcome, ro: WsRecvOutcome): (r: (WsLink, Result<Bytes, Exc>))
    ensures l.created <= r.0.created && l.calls <= r.0.calls
    ensures r.1.Ok? ==> r.1.value != [] && r.0.sock.Some? && |r.0.calls| > 0 && r.0.calls[|r.0.calls| - 1] == WsRecv(r.0.sock.value, RECV_ARGUMENT, false)
  {
    var (l1, c) := EnsureStep(l, e, co);
    if c.Err? then (l1, Err(c.error))
    else if l1.sock.None? then (l1, Ok([]))
    else
      var id := l1.sock.value;
      var asked := l1.calls + [WsRecv(id, RECV_ARGUMENT, false)];
      var dropped := WsLink(None, l1.created, asked + [WsClose(id)]);
      match ro
      case WsRecvRaised(x) => if IsOSError(x) then (dropped, Err(ConnectionError)) else (l1.(calls := asked), Err(x))
      case WsReceived(data) => if data == [] then (dropped, Err(ConnectionError)) else (l1.(calls := asked), Ok(data))
  }

  /** connect never reports False: it opens a connection or raises, and a failure leaves the handle and the log alone. */
  lemma ConnectReports(l: WsLink, e: Endpoint, o: WsConnectOutcome)
    ensures ConnectStep(l, e, o).1 != Ok(false)
    ensures ConnectStep(l, e, o).1 == Ok(true) <==> o.Opened?
    ensures o.Opened? ==>
      ConnectStep(l, e, o).0.sock == Some(l.created)
      && ConnectStep(l, e, o).0.calls == l.calls + [WsOpen(l.created, Uri(e))]
    ensures o.OpenFailed? ==> ConnectStep(l, e, o) == (l, Err(o.error))
  {
  }

  /** After the implicit connect there is always a handle, so send never skips silently and receive never returns b"". */
  lemma SilentPathsUnreachable(l: WsLink, e: Endpoint, msg: Bytes, co: WsConnectOutcome, so: WsSendOutcome, ro: WsRecvOutcome)
    ensures EnsureStep(l, e, co).1.Ok? ==> EnsureStep(l, e, co).0.sock.Some?
    ensures ReceiveStep(l, e, co, ro).1 != Ok([])
    ensures SendStep(l, e, msg, co, so).1.Ok? ==> WsSend(SendStep(l, e, msg, co, so).0.sock.value, msg) in SendStep(l, e, msg, co, so).0.calls
  {
    var (l1, c) := EnsureStep(l, e, co);
    if c.Ok? && so.WsDelivered? {
      var sent := l1.calls + [WsSend(l1.sock.value, msg)];
      assert sent[|l1.calls|] == WsSend(l1.sock.value, msg);
    }
  }

  /**
   * Unlike the TCP client, which keeps its socket after a timeout, this one
   * drops the connection on a TimeoutError (an OSError) and raises
   * ConnectionError; the library's own exceptions keep the handle.
   */
  lemma ReceiveFailures(l: WsLink, e: Endpoint, co: WsConnectOutcome, x: Exc)
    requires l.sock.Some?
    ensures IsOSError(x) ==>
      ReceiveStep(l, e, co, WsRecvRaised(x)).0.sock.None?
      && ReceiveStep(l, e, co, WsRecvRaised(x)).1 == Err(ConnectionError)
    ensures !IsOSError(x) ==>
      ReceiveStep(l, e, co, WsRecvRaised(x)).0.sock == l.sock
      && ReceiveStep(l, e, co, WsRecvRaised(x)).1 == Err(x)
    ensures ReceiveStep(l, e, co, WsRecvRaised(TimeoutError)).1 == Err(ConnectionError)
    ensures ReceiveStep(l, e, co, WsReceived([])).0.calls == l.calls + [WsRecv(l.sock.value, RECV_ARGUMENT, false), WsClose(l.sock.value)]
  {
  }

  /** receive succeeds exactly when a non-empty message arrives on a connection that is or becomes open, and returns it. */
  lemma ReceiveSucceedsIff(l: WsLink, e: Endpoint, co: WsConnectOutcome, ro: WsRecvOutcome)
    ensures ReceiveStep(l, e, co, ro).1.Ok? <==>
      (l.sock.Some? || co.Opened?) && ro.WsReceived? && ro.data != []
    ensures ReceiveStep(l, e, co, ro).1.Ok? ==> ReceiveStep(l, e, co, ro).1.value == ro.data
  {
  }

  /**
   * The configured timeout changes nothing the connection does: every call
   * and result is the same whatever its value, and every recv waits
   * RECV_ARGUMENT seconds.
   */
  lemma ReceiveIgnoresTimeout(l: WsLink, e: Endpoint, t: int, co: WsConnectOutcome, ro: WsRecvOutcome)
    ensures ReceiveStep(l, e, co, ro) == ReceiveStep(l, e.(timeout := t), co, ro)
    ensures ConnectStep(l, e, co) == ConnectStep(l, e.(timeout := t), co)
    ensures forall c :: c in ReceiveStep(l, e, co, ro).0.calls && c !in l.calls && c.WsRecv? ==> c.timeout == RECV_ARGUMENT
  {
  }

  /** receive with the configured timeout passed to the library, as the timeout attribute suggests. */
  function TimedReceiveStep(l: WsLink, e: Endpoint, co: WsConnectOutcome, ro: WsRecvOutcome): (WsLink, Result<Bytes, Exc>)
  {
    var (l1, c) := EnsureStep(l, e, co);
    if c.Err? then (l1, Err(c.error))
    else if l1.sock.None? then (l1, Ok([]))
    else
      var id := l1.sock.value;
      var asked := l1.calls + [WsRecv(id, e.timeout, false)];
      var dropped := WsLink(None, l1.created, asked + [WsClose(id)]);
      match ro
      case WsRecvRaised(x) => if IsOSError(x) then (dropped, Err(ConnectionError)) else (l1.(calls := asked), Err(x))
      case WsReceived(data) => if data == [] then (dropped, Err(ConnectionError)) else (l1.(calls := asked), Ok(data))
  }

  /** With the timeout passed on, every wait is the configured one, and results are those of receive. */
  lemma TimedReceiveWaitsTimeout(l: WsLink, e: Endpoint, co: WsConnectOutcome, ro: WsRecvOutcome)
    ensures forall c :: c in TimedReceiveStep(l, e, co, ro).0.calls && c !in l.calls && c.WsRecv? ==> c.timeout == e.timeout
    ensures TimedReceiveStep(l, e, co, ro).1 == ReceiveStep(l, e, co, ro).1
    ensures TimedReceiveStep(l, e, co, ro).0.sock == ReceiveStep(l, e, co, ro).0.sock
  {
  }

  /** close leaves no handle, and a second close changes nothing. */
  lemma CloseIdempotent(l: WsLink)
    ensures CloseStep(l).sock.None?
    ensures CloseStep(CloseStep(l)) == CloseStep(l)
    ensures l.sock.Some? ==> CloseStep(l).calls == l.calls + [WsClose(l.sock.value)]
    ensures l.sock.None? ==> CloseStep(l) == l
  {
  }

  lemma AppendKeepsSound(l: WsLink, more: seq<WsCall>)
    requires Sound(l)
    requires forall c :: c in more ==> c.id < l.created && (l.sock.Some? ==> c != WsClose(l.sock.value))
    ensures Sound(l.(calls := l.calls + more))
  {
  }

  lemma ConnectKeepsSound(l: WsLink, e: Endpoint, o: WsConnectOutcome)
    requires Sound(l)
    ensures Sound(ConnectStep(l, e, o).0)
    ensures Sound(EnsureStep(l, e, o).0)
  {
    if o.Opened? {
      var l1 := ConnectStep(l, e, o).0;
      assert forall c :: c in l1.calls ==> c in l.calls || c == WsOpen(l.created, Uri(e));
    }
  }

  /** Every step keeps the handle sound. */
  lemma StepsKeepSound(l: WsLink, e: Endpoint, msg: Bytes, co: WsConnectOutcome, so: WsSendOutcome, ro: WsRecvOutcome)
    requires Sound(l)
    ensures Sound(CloseStep(l))
    ensures Sound(SendStep(l, e, msg, co, so).0)
    ensures Sound(ReceiveStep(l, e, co, ro).0)
  {
    SendKeepsSound(l, e, msg, co, so);
    ReceiveKeepsSound(l, e, co, ro);
  }

  lemma SendKeepsSound(l: WsLink, e: Endpoint, msg: Bytes, co: WsConnectOutcome, so: WsSendOutcome)
    requires Sound(l)
    ensures Sound(SendStep(l, e, msg, co, so).0)
  {
    ConnectKeepsSound(l, e, co);
    var l1 := EnsureStep(l, e, co).0;
    if l1.sock.Some? {
      var id := l1.sock.value;
      AppendKeepsSound(l1, [WsSend(id, msg)]);
      assert l1.calls + [WsSend(id, msg), WsClose(id)] == l1.calls + [WsSend(id, msg)] + [WsClose(id)];
    }
  }

  lemma ReceiveKeepsSound(l: WsLink, e: Endpoint, co: WsConnectOutcome, ro: WsRecvOutcome)
    requires Sound(l)
    ensures Sound(ReceiveStep(l, e, co, ro).0)
  {
    ConnectKeepsSound(l, e, co);
    var l1 := EnsureStep(l, e, co).0;
    if l1.sock.Some? {
      AppendKeepsSound(l1, [WsRecv(l1.sock.value, RECV_ARGUMENT, false)]);
    }
  }

  /** The library's record of connections, oldest call first. */
  class WsLayer {
    var created: nat
    var calls: seq<WsCall>

    predicate Valid()
      reads this
    {
      forall c :: c in calls ==> c.id < created
    }

    constructor()
      ensures created == 0 && calls == [] && Valid()
    {
      created := 0;
      calls := [];
    }

    /** connect(uri) returning a new connection. */
    method Open(uri: string) returns (id: WsId)
      requires Valid()
      modifies this
      ensures Valid()
      ensures id == old(created) && created == id + 1 && calls == old(calls) + [WsOpen(id, uri)]
    {
      id := created;
      created := created + 1;
      calls := calls + [WsOpen(id, uri)];
    }

    /** Any other call on an opened connection. */
    method Call(c: WsCall)
      requires Valid() && c.id < created
      modifies this
      ensures Valid()
      ensures created == old(created) && calls == old(calls) + [c]
    {
      calls := calls + [c];
    }
  }

  /** The connection object: its endpoint, its handle, and the library it calls. */
  class LivesplitoneConnection {
    const server: string
    const port: int
    const timeout: int
    const timer: string
    var sock: Option<WsId>
    const net: WsLayer

    function Where(): Endpoint
    {
      Endpoint(server, port, timeout)
    }

    function State(): WsLink
      reads this, net
    {
      WsLink(sock, net.created, net.calls)
    }

    predicate Valid()
      reads this, net
    {
      net.Valid() && Sound(State())
    }

    constructor(server: string, port: int, timeout: int, net: WsLayer)
      requires net.Valid()
      ensures this.server == server && this.port == port && this.timeout == timeout
      ensures timer == TIMER_NAME && this.net == net && sock.None? && Valid()
    {
      this.server := server;
      this.port := port;
      this.timeout := timeout;
      this.timer := TIMER_NAME;
      this.net := net;
      sock := None;
    }

    method Connect(o: WsConnectOutcome) returns (r: Result<bool, Exc>)
      requires Valid()
      modifies this, net
      ensures Valid()
      ensures (State(), r) == ConnectStep(old(State()), Where(), o)
    {
      ConnectKeepsSound(State(), Where(), o);
      match o {
        case Opened =>
          var id := net.Open(Uri(Where()));
          sock := Some(id);
          r := Ok(true);
        case OpenFailed(x) =>
          r := Err(x);
      }
    }

    method Close()
      requires Valid()
      modifies this, net
      ensures Valid()
      ensures State() == CloseStep(old(State()))
    {
      if sock.Some? {
        net.Call(WsClose(sock.value));
        sock := None;
      }
    }

    method Send(msg: Bytes, co: WsConnectOutcome, so: WsSendOutcome) returns (r: Result<(), Exc>)
      requires Valid()
      modifies this, net
      ensures Valid()
      ensures (State(), r) == SendStep(old(State()), Where(), msg, co, so)
    {
      StepsKeepSound(State(), Where(), msg, co, so, WsReceived([]));
      if sock.None? {
        var c := Connect(co);
        if c.Err? {
          return Err(c.error);
        }
      }
      if sock.Some? {
        var id := sock.value;
        net.Call(WsSend(id, msg));
        match so {
          case WsDelivered =>
          case WsSendRaised(x) =>
            if x == ConnectionAbortedError {
              net.Call(WsClose(id));
              sock := None;
              return Err(ConnectionAbortedError);
            }
            return Err(x);
        }
      }
      r := Ok(());
    }

    method Receive(co: WsConnectOutcome, ro: WsRecvOutcome) returns (r: Result<Bytes, Exc>)
      requires Valid()
      modifies this, net
      ensures Valid()
      ensures (State(), r) == ReceiveStep(old(State()), Where(), co, ro)
    {
      StepsKeepSound(State(), Where(), [], co, WsDelivered, ro);
      if sock.None? {
        var c := Connect(co);
        if c.Err? {
          return Err(c.error);
        }
      }
      if sock.Some? {
        var id := sock.value;
        net.Call(WsRecv(id, RECV_ARGUMENT, false));
        match ro {
          case WsRecvRaised(x) =>
            if IsOSError(x) {
              net.Call(WsClose(id));
              sock := None;
              return Err(ConnectionError);
            }
            return Err(x);
          case WsReceived(data) =>
            if data == [] {
              net.Call(WsClose(id));
              sock := None;
              return Err(ConnectionError);
            }
            return Ok(data);
        }
      }
      r := Ok([]);
    }
  }

  /*
   * LivesplitoneMessaging: each method sends its command object, serialised
   * and framed, and the query methods read one reply out of its "success"
   * member.
   */

  /** The outcomes one messaging call meets: the implicit connect, the send and the read. */
  datatype Exchange = Exchange(connect: WsConnectOutcome, send: WsSendOutcome, recv: WsRecvOutcome)

  /** send(message): json.dumps (here `dumps`), UTF-8, and CRLF. */
  function Framed(message: Json, dumps: Json -> string): Bytes
  {
    LP.Frame(dumps(message))
  }

  /** receive(datatype): one read from the connection, decoded as the kind asks. */
  function ReceiveReplyStep(l: WsLink, e: Endpoint, kind: Kind, loads: string -> Result<Json, Exc>, co: WsConnectOutcome, ro: WsRecvOutcome): (r: (WsLink, Result<OneReply, Exc>))
    ensures l.created <= r.0.created && l.calls <= r.0.calls
    ensures r.1.Ok? ==> r.0.sock.Some? && |r.0.calls| > 0 && r.0.calls[|r.0.calls| - 1] == WsRecv(r.0.sock.value, RECV_ARGUMENT, false)
  {
    var (l1, d) := ReceiveStep(l, e, co, ro);
    if d.Err? then (l1, Err(d.error)) else (l1, DecodeReply(kind, d.value, loads))
  }

  /**
   * One messaging method. A command the class has no method for raises
   * AttributeError before anything is sent; the rest send their request and
   * the queries read the reply.
   */
  function PerformStep(l: WsLink, e: Endpoint, cmd: LP.Command, dumps: Json -> string, loads: string -> Result<Json, Exc>, ex: Exchange): (r: (WsLink, Result<Option<OneReply>, Exc>))
    ensures l.created <= r.0.created && l.calls <= r.0.calls
    ensures OneRequest(cmd).None? ==> r == (l, Err(AttributeError))
    ensures r.1.Ok? ==> (r.1.value.Some? <==> Expected(cmd).Some?)
  {
    match OneRequest(cmd)
    case None => (l, Err(AttributeError))
    case Some(req) =>
      var (l1, s) := SendStep(l, e, Framed(ToJson(req), dumps), ex.connect, ex.send);
      if s.Err? then (l1, Err(s.error))
      else match Expected(cmd)
        case None => (l1, Ok(None))
        case Some(q) =>
          var (l2, r) := ReceiveReplyStep(l1, e, KindOf(q), loads, ex.connect, ex.recv);
          if r.Err? then (l2, Err(r.error))
          else (match Finish(q, r.value) case Ok(v) => (l2, Ok(Some(v))) case Err(x) => (l2, Err(x)))
  }

  /** get_delta, get_final_time, get_predicted_time and get_best_possible_time do not exist here. */
  lemma UnsupportedCommandsFail(l: WsLink, e: Endpoint, cmd: LP.Command, dumps: Json -> string, loads: string -> Result<Json, Exc>, ex: Exchange)
    requires cmd.GetDelta? || cmd.GetFinalTime? || cmd.GetPredictedTime? || cmd.GetBestPossibleTime?
    ensures PerformStep(l, e, cmd, dumps, loads, ex) == (l, Err(AttributeError))
  {
    MissingMethods(cmd);
  }

  /** The action methods send their request and read nothing; they succeed exactly when the send does. */
  lemma ActionsNeverRead(l: WsLink, e: Endpoint, cmd: LP.Command, dumps: Json -> string, loads: string -> Result<Json, Exc>, ex: Exchange)
    requires OneRequest(cmd).Some? && Expected(cmd).None?
    ensures var s := SendStep(l, e, Framed(ToJson(OneRequest(cmd).value), dumps), ex.connect, ex.send);
      PerformStep(l, e, cmd, dumps, loads, ex).0 == s.0
      && (PerformStep(l, e, cmd, dumps, loads, ex).1 == Ok(None) <==> s.1.Ok?)
  {
  }

  /** A query whose request went out and whose reply was read returns what the query makes of the reply. */
  lemma QueryFinishes(l: WsLink, e: Endpoint, cmd: LP.Command, dumps: Json -> string, loads: string -> Result<Json, Exc>, ex: Exchange,
                       req: Request, q: Query, reply: OneReply)
    requires OneRequest(cmd) == Some(req) && Expected(cmd) == Some(q)
    requires var s := SendStep(l, e, Framed(ToJson(req), dumps), ex.connect, ex.send);
      s.1.Ok? && ReceiveReplyStep(s.0, e, KindOf(q), loads, ex.connect, ex.recv).1 == Ok(reply)
    ensures PerformStep(l, e, cmd, dumps, loads, ex).1 ==
      (match Finish(q, reply) case Ok(v) => Ok(Some(v)) case Err(x) => Err(x))
  {
  }

  /**
   * get_split_index and get_current_timer_phase send the same request; once
   * the state is read, the split index is the state's "index" while the timer
   * is running or paused and -1 in any other phase, and the phase is its
   * "state".
   */
  lemma SplitIndexAndPhase(l: WsLink, e: Endpoint, dumps: Json -> string, loads: string -> Result<Json, Exc>, ex: Exchange, state: Json)
    requires var s := SendStep(l, e, Framed(ToJson(GetCurrentState), dumps), ex.connect, ex.send);
      s.1.Ok? && ReceiveReplyStep(s.0, e, StateKind, loads, ex.connect, ex.recv).1 == Ok(Value(state))
    ensures PhaseOf(state).Ok? && Active(PhaseOf(state).value) && Subscript(state, "index").Ok? ==>
      PerformStep(l, e, LP.GetSplitIndex, dumps, loads, ex).1 == Ok(Some(Value(Subscript(state, "index").value)))
    ensures PhaseOf(state).Ok? && !Active(PhaseOf(state).value) ==>
      PerformStep(l, e, LP.GetSplitIndex, dumps, loads, ex).1 == Ok(Some(Value(JInt(-1))))
    ensures PerformStep(l, e, LP.GetCurrentTimerPhase, dumps, loads, ex).1 ==
      (match PhaseOf(state) case Ok(p) => Ok(Some(Value(p))) case Err(x) => Err(x))
  {
    SplitIndexQuery(l, e, dumps, loads, ex, state);
    PhaseQuery(l, e, dumps, loads, ex, state);
  }

  lemma SplitIndexQuery(l: WsLink, e: Endpoint, dumps: Json -> string, loads: string -> Result<Json, Exc>, ex: Exchange, state: Json)
    requires var s := SendStep(l, e, Framed(ToJson(GetCurrentState), dumps), ex.connect, ex.send);
      s.1.Ok? && ReceiveReplyStep(s.0, e, StateKind, loads, ex.connect, ex.recv).1 == Ok(Value(state))
    ensures PerformStep(l, e, LP.GetSplitIndex, dumps, loads, ex).1 ==
      (match SplitIndexOf(state) case Ok(i) => Ok(Some(Value(i))) case Err(x) => Err(x))
  {
    QueryFinishes(l, e, LP.GetSplitIndex, dumps, loads, ex, GetCurrentState, Query.SplitIndexQuery, Value(state));
  }

  lemma PhaseQuery(l: WsLink, e: Endpoint, dumps: Json -> string, loads: string -> Result<Json, Exc>, ex: Exchange, state: Json)
    requires var s := SendStep(l, e, Framed(ToJson(GetCurrentState), dumps), ex.connect, ex.send);
      s.1.Ok? && ReceiveReplyStep(s.0, e, StateKind, loads, ex.connect, ex.recv).1 == Ok(Value(state))
    ensures PerformStep(l, e, LP.GetCurrentTimerPhase, dumps, loads, ex).1 ==
      (match PhaseOf(state) case Ok(p) => Ok(Some(Value(p))) case Err(x) => Err(x))
  {
    QueryFinishes(l, e, LP.GetCurrentTimerPhase, dumps, loads, ex, GetCurrentState, Query.PhaseQuery, Value(state));
  }

  /**
   * Given a JSON encoder whose output for an object starts with `{` and ends
   * with `}`, and a decoder that reads it back, the server decodes every sent
   * frame as the command the method stands for.
   */
  lemma ServerReadsRequest(cmd: LP.Command, dumps: Json -> string, loads: string -> Result<Json, Exc>)
    requires OneRequest(cmd).Some?
    requires var t := dumps(ToJson(OneRequest(cmd).value));
      |t| >= 2 && t[0] == '{' && t[|t| - 1] == '}'
    requires loads(dumps(ToJson(OneRequest(cmd).value))) == Ok(ToJson(OneRequest(cmd).value))
    ensures Decode(StripBytes(Framed(ToJson(OneRequest(cmd).value), dumps))) == Ok(dumps(ToJson(OneRequest(cmd).value)))
    ensures FromJson(ToJson(OneRequest(cmd).value)) == OneRequest(cmd)
  {
    LP.ReadFramedText(dumps(ToJson(OneRequest(cmd).value)));
    RequestRoundTrip(OneRequest(cmd).value);
  }

  class LivesplitoneMessaging {
    const connection: LivesplitoneConnection

    constructor(connection: LivesplitoneConnection)
      ensures this.connection == connection
    {
      this.connection := connection;
    }

    function State(): WsLink
      reads connection, connection.net
    {
      connection.State()
    }

    predicate Valid()
      reads connection, connection.net
    {
      connection.Valid()
    }

    method Connect(o: WsConnectOutcome) returns (r: Result<bool, Exc>)
      requires Valid()
      modifies connection, connection.net
      ensures Valid()
      ensures (State(), r) == ConnectStep(old(State()), connection.Where(), o)
    {
      r := connection.Connect(o);
    }

    method Close()
      requires Valid()
      modifies connection, connection.net
      ensures Valid()
      ensures State() == CloseStep(old(State()))
    {
      connection.Close();
    }

    method Send(message: Json, dumps: Json -> string, co: WsConnectOutcome, so: WsSendOutcome) returns (r: Result<(), Exc>)
      requires Valid()
      modifies connection, connection.net
      ensures Valid()
      ensures (State(), r) == SendStep(old(State()), connection.Where(), Framed(message, dumps), co, so)
    {
      r := connection.Send(Framed(message, dumps), co, so);
    }

    method Receive(kind: Kind, loads: string -> Result<Json, Exc>, co: WsConnectOutcome, ro: WsRecvOutcome) returns (r: Result<OneReply, Exc>)
      requires Valid()
      modifies connection, connection.net
      ensures Valid()
      ensures (State(), r) == ReceiveReplyStep(old(State()), connection.Where(), kind, loads, co, ro)
    {
      var d := connection.Receive(co, ro);
      if d.Err? {
        return Err(d.error);
      }
      r := DecodeReply(kind, d.value, loads);
    }

    /** Any of the command methods (start_timer ... get_current_timer_phase), and the ones this class lacks. */
    method Perform(cmd: LP.Command, dumps: Json -> string, loads: string -> Result<Json, Exc>, ex: Exchange) returns (r: Result<Option<OneReply>, Exc>)
      requires Valid()
      modifies connection, connection.net
      ensures Valid()
      ensures (State(), r) == PerformStep(old(State()), connection.Where(), cmd, dumps, loads, ex)
    {
      if OneRequest(cmd).None? {
        return Err(AttributeError);
      }
      var s := Send(ToJson(OneRequest(cmd).value), dumps, ex.connect, ex.send);
      if s.Err? {
        return Err(s.error);
      }
      if Expected(cmd).None? {
        return Ok(None);
      }
      var q := Expected(cmd).value;
      var reply := Receive(KindOf(q), loads, ex.connect, ex.recv);
      if reply.Err? {
        return Err(reply.error);
      }
      var v := Finish(q, reply.value);
      if v.Err? {
        return Err(v.error);
      }
      r := Ok(Some(v.value));
    }
  }

  /** get_livesplitone_client: a messaging object over a fresh, unconnected connection. */
  method GetLivesplitoneClient(server: string, port: int, timeout: int, net: WsLayer) returns (client: LivesplitoneMessaging)
    requires net.Valid()
    ensures fresh(client) && fresh(client.connection)
    ensures client.connection.server == server && client.connection.port == port
    ensures client.connection.timeout == timeout && client.connection.net == net
    ensures client.connection.timer == TIMER_NAME
    ensures client.connection.sock.None? && client.Valid()
  {
    var connection := new LivesplitoneConnection(server, port, timeout, net);
    client := new LivesplitoneMessaging(connection);
  }
}
