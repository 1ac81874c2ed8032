/**
 * The scale's weight feed: the `connectToWeightSocket` state machine. Each
 * `startConnection` replaces the socket reference without closing the
 * previous socket; handlers report status, deliver numeric readings and
 * schedule reconnects. The socket is abstract; its events are method calls
 * and `parseFloat` of a frame is a parameter.
 */
module ScaleConnection {
  import opened Common
  import opened FeedEffects

  const CONNECTING: string := "حالة الميزان: جاري الاتصال..."
  const CONNECTED: string := "حالة الميزان: متصل"
  const DISCONNECTED: string := "حالة الميزان: انقطع الاتصال"
  const CONNECTION_ERROR: string := "حالة الميزان: خطأ في الاتصال"

  const RECONNECT_MS: nat := 99999

  /** The reading a frame carries: `parseFloat(e.data)` unless it is NaN. */
  function WeightOf(parsed: JsNumber): (w: Option<real>)
    ensures w.Some? <==> parsed.Finite?
    ensures w.Some? ==> w.value == parsed.value
  {
    match parsed
    case Finite(v) => Some(v)
    case NaN => None
  }

  class WeightFeed {
    const hasStatusCallback: bool
    const hasWeightCallback: bool
    /** `weightSocket` */
    var socket: Option<nat>
    var created: nat
    var effects: seq<Effect>

    /** The reference is the newest socket, every socket created is in the
        record, and only sockets already created are ever closed. */
    ghost predicate Valid()
      reads this
    {
      && socket == (if created == 0 then None else Some(created - 1))
      && (forall id: nat :: id < created ==> SocketCreated(id) in effects)
      && (forall k :: 0 <= k < |effects| && effects[k].CloseCalled? ==> effects[k].id + 1 <= created)
    }

    /** `connectToWeightSocket`: sets up the handlers and calls
        `startConnection` once. */
    constructor (hasStatusCallback: bool, hasWeightCallback: bool, constructionFails: bool)
      ensures this.hasStatusCallback == hasStatusCallback && this.hasWeightCallback == hasWeightCallback
      ensures Valid()
      ensures socket == (if constructionFails then None else Some(0))
      ensures effects == Report(hasStatusCallback, false, CONNECTING) +
        (if constructionFails then Report(hasStatusCallback, false, CONNECTION_ERROR) + [ReconnectScheduled(RECONNECT_MS)]
         else [SocketCreated(0)])
    {
      this.hasStatusCallback := hasStatusCallback;
      this.hasWeightCallback := hasWeightCallback;
      socket := None;
      created := 0;
      effects := [];
      new;
      StartConnection(constructionFails);
    }

    /** `startConnection`: reports "connecting" and creates a new socket
        without closing the current one; if construction throws, reports an
        error and retries after 99999 ms. */
    method StartConnection(constructionFails: bool)
      requires Valid()
      modifies this`socket, this`created, this`effects
      ensures Valid()
      ensures effects == old(effects) + Report(hasStatusCallback, false, CONNECTING) +
        (if constructionFails then Report(hasStatusCallback, false, CONNECTION_ERROR) + [ReconnectScheduled(RECONNECT_MS)]
         else [SocketCreated(old(created))])
      ensures constructionFails ==> socket == old(socket) && created == old(created)
      ensures !constructionFails ==> socket == Some(old(created)) && created == old(created) + 1
    {
      effects := effects + Report(hasStatusCallback, false, CONNECTING);
      if constructionFails {
        effects := effects + Report(hasStatusCallback, false, CONNECTION_ERROR) + [ReconnectScheduled(RECONNECT_MS)];
      } else {
        effects := effects + [SocketCreated(created)];
        socket := Some(created);
        created := created + 1;
      }
    }

    /** `onopen`: reports connected and sends nothing. */
    method OnOpen()
      requires Valid()
      modifies this`effects
      ensures Valid()
      ensures effects == old(effects) + Report(hasStatusCallback, true, CONNECTED)
    {
      effects := effects + Report(hasStatusCallback, true, CONNECTED);
    }

    /** `onmessage`: a frame that parses as a number goes to
        `onWeightUpdate`; any other is dropped. */
    method OnMessage(parsed: JsNumber)
      requires Valid()
      modifies this`effects
      ensures Valid()
      ensures effects == old(effects) + (if WeightOf(parsed).Some? && hasWeightCallback then [Delivered(WeightOf(parsed).value)] else [])
    {
      var weight := WeightOf(parsed);
      if weight.Some? && hasWeightCallback {
        effects := effects + [Delivered(weight.value)];
      }
    }

    /** `onclose`: reports the disconnection and reconnects after
        99999 ms. */
    method OnClose()
      requires Valid()
      modifies this`effects
      ensures Valid()
      ensures effects == old(effects) + Report(hasStatusCallback, false, DISCONNECTED) + [ReconnectScheduled(RECONNECT_MS)]
    {
      effects := effects + Report(hasStatusCallback, false, DISCONNECTED) + [ReconnectScheduled(RECONNECT_MS)];
    }

    /** `onerror`: only a status report; no reconnect. */
    method OnError()
      requires Valid()
      modifies this`effects
      ensures Valid()
      ensures effects == old(effects) + Report(hasStatusCallback, false, CONNECTION_ERROR)
    {
      effects := effects + Report(hasStatusCallback, false, CONNECTION_ERROR);
    }

    /** The returned `close()`: closes the current socket; nothing when
        there is none. */
    method Close()
      requires Valid()
      modifies this`effects
      ensures Valid()
      ensures effects == old(effects) + (if socket.Some? then [CloseCalled(socket.value)] else [])
    {
      if socket.Some? {
        effects := effects + [CloseCalled(socket.value)];
      }
    }
  }

  /** Two connection attempts in a row leave both sockets open: the second
      start creates a socket and closes none. */
  method RestartLeavesOldSocketOpen(hasStatusCallback: bool) returns (feed: WeightFeed)
    ensures feed.created == 2 && feed.socket == Some(1)
    ensures forall k :: 0 <= k < |feed.effects| ==> !feed.effects[k].CloseCalled?
    ensures SocketCreated(0) in feed.effects && SocketCreated(1) in feed.effects
  {
    feed := new WeightFeed(hasStatusCallback, true, false);
    feed.StartConnection(false);
  }
}
