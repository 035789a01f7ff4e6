/** suduo/net/TcpConnection.h: the states of a connection. */
module ConnectionStates {

  datatype State = Connecting | Connected | Disconnecting | Disconnected

  /** What `force_close` and the assertion of `handle_close` ask for. */
  predicate IsOpen(state: State) {
    state.Connected? || state.Disconnecting?
  }
}
