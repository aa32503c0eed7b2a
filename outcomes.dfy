/** Option and Result, and the Python exceptions the probes raise or catch.
    A Python function that can raise is modelled as one returning a Result whose
    Failure names the exception. */
module Outcomes {

  datatype Option<+T> = None | Some(value: T)

  datatype Result<+T, +E> = Success(value: T) | Failure(error: E)

  /** The exception kinds that decide a path through the probes. */
  datatype Exception =
    | SocketTimeout        // socket.timeout raised by connect, send or recv
    | SocketError          // any other OSError of the socket (refused, reset, unreachable)
    | DecodeError          // UnicodeDecodeError from bytes.decode() of a received chunk
    | WrongAnswer          // ValueError("Wrong TNSPing answer received: ...")
    | EmptyData            // ValueError from min() of an empty list
    | DatabaseError        // oracledb.DatabaseError (connect, execute or fetch)
    | UnboundLocal         // UnboundLocalError / NameError: loop variable never bound
    | IndexOutOfRange      // IndexError from indexing an empty list
}
