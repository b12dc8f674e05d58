/** The Python exception classes that the modelled code raises or lets through. */
module Errors {

  datatype Exc =
    | ConnectionRefusedError   // the peer refused the TCP connection
    | GaiError                 // socket.gaierror: the host name could not be resolved
    | OSError                  // any other OSError from the socket layer
    | ConnectionAbortedError   // a send found the connection aborted
    | TimeoutError             // no data within the receive timeout
    | ConnectionError          // the peer went away: an error or zero-byte read, or a reset or broken pipe on send
    | AttributeError           // a method called on a None handle, or a missing attribute
    | ValueError               // int() of a string that is not an integer
    | TypeError                // a None regex match subscripted, or a bad keyword argument
    | KeyError                 // a missing key in a reply object or a settings file
    | IndexError               // a list index out of range
    | UnicodeDecodeError       // bytes that are not well-formed UTF-8
    | WebSocketError           // an exception of the websocket library, passed through unchanged

  /** Python's OSError and its subclasses among the exceptions modelled; the websocket library's own exceptions are not. */
  predicate IsOSError(e: Exc)
  {
    e.ConnectionRefusedError? || e.GaiError? || e.OSError? || e.ConnectionAbortedError?
    || e.TimeoutError? || e.ConnectionError?
  }
}
