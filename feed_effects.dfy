/**
 * What the two feed connections do to the outside world, recorded in the
 * order it happens: status reports to `onStatusChange`, socket creation,
 * `close()` and `send()` calls, callback invocations and reconnect timers.
 * A socket is named by the number of sockets created before it.
 */
module FeedEffects {

  datatype Tokens = Tokens(cst: string, securityToken: string)

  /** The subscribe request the price feed sends on open. */
  datatype Subscribe = Subscribe(destination: string, correlationId: string, cst: string, securityToken: string, epics: seq<string>)

  datatype Effect =
    | StatusReported(connected: bool, message: string)   // `onStatusChange(connected, message)`
    | SocketCreated(id: nat)                              // `new WebSocket(...)`
    | CloseCalled(id: nat)                                // `socket.close()`
    | Sent(id: nat, request: Subscribe)                   // `socket.send(JSON.stringify(request))`
    | Delivered(value: real)                              // `onPriceUpdate(bid)` / `onWeightUpdate(weight)`
    | SessionExpiredCalled                                // `onSessionExpired()`
    | ReconnectScheduled(delayMs: nat)                    // `setTimeout(startConnection, delayMs)`

  /** `updateConnectionStatus`: reports only when a status callback was
      given. */
  function Report(hasStatusCallback: bool, connected: bool, message: string): seq<Effect> {
    if hasStatusCallback then [StatusReported(connected, message)] else []
  }
}
