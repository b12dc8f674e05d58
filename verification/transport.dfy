/**
 * What the LiveSplit clients see of Python's socket module. A real socket is
 * out of reach, so each call's outcome is an input, and every call the client
 * makes is written to a log that the contracts talk about.
 */
module Transport {
  import opened Wrappers
  import opened Utf8

  type Bytes = seq<Byte>

  /** Sockets are numbered in the order socket.socket() created them. */
  type SocketId = nat

  /** The bufsize every recv call asks for. */
  const BUFFER_SIZE: nat := 4096

  /** How sock.connect((server, port)) ends. */
  datatype ConnectOutcome =
    | Accepted     // returns normally
    | Refused      // raises ConnectionRefusedError
    | Unresolved   // raises socket.gaierror: the host name does not resolve
    | Unreachable  // raises some other OSError

  /** How sock.send(msg) ends. */
  datatype SendOutcome =
    | Delivered    // returns normally
    | Aborted      // raises ConnectionAbortedError
    | SendReset    // raises ConnectionResetError or BrokenPipeError, both ConnectionError subclasses
    | SendFailed   // raises some other OSError

  /** How sock.recv(BUFFER_SIZE) ends; Received([]) is the peer closing the stream. */
  datatype RecvOutcome =
    | Received(data: Bytes)
    | TimedOut     // raises socket.timeout
    | RecvFailed   // raises some other OSError

  /** One call into the socket module, on the socket it names. */
  datatype SockCall =
    | Open(id: SocketId)
    | Connect(id: SocketId, host: string, port: int)
    | SetTimeout(id: SocketId, seconds: int)
    | Send(id: SocketId, data: Bytes)
    | Recv(id: SocketId, bufsize: nat)
    | Close(id: SocketId)

  /** The sockets created so far and the calls made on them, oldest first. */
  class SocketLayer {
    var created: nat
    var calls: seq<SockCall>

    /** Every call names a socket that was created. */
    predicate Valid()
      reads this
    {
      forall c :: c in calls ==> c.id < created
    }

    constructor()
      ensures created == 0 && calls == [] && Valid()
    {
      created := 0;
      calls := [];
    }

    /** socket.socket(): a fresh socket. */
    method NewSocket() returns (id: SocketId)
      requires Valid()
      modifies this
      ensures Valid()
      ensures id == old(created) && created == id + 1 && calls == old(calls) + [Open(id)]
    {
      id := created;
      created := created + 1;
      calls := calls + [Open(id)];
    }

    /** Any other call on a socket that exists. */
    method Call(c: SockCall)
      requires Valid() && c.id < created
      modifies this
      ensures Valid()
      ensures created == old(created) && calls == old(calls) + [c]
    {
      calls := calls + [c];
    }
  }

  /** The client's handle together with the socket layer's record: the state every step changes. */
  datatype Link = Link(sock: Option<SocketId>, created: nat, calls: seq<SockCall>)

  predicate Closed(calls: seq<SockCall>, id: SocketId)
  {
    Close(id) in calls
  }

  /**
   * The handle, when there is one, is a socket that was created and not yet
   * closed, and every call names a created socket.
   */
  predicate Sound(l: Link)
  {
    && (l.sock.Some? ==> l.sock.value < l.created && !Closed(l.calls, l.sock.value))
    && (forall c :: c in l.calls ==> c.id < l.created)
  }

  /** Appending calls on created sockets that close nothing but `except` keeps a handle sound. */
  lemma AppendKeepsSound(l: Link, more: seq<SockCall>)
    requires Sound(l)
    requires forall c :: c in more ==> c.id < l.created && (l.sock.Some? ==> c != Close(l.sock.value))
    ensures Sound(l.(calls := l.calls + more))
  {
  }
}
