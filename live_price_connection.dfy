/**
 * The live gold-price feed: `createSession`'s mapping of the session
 * response to a token pair, and the `connectToGoldPriceWebSocket` state
 * machine, whose single socket reference is replaced on every
 * `startConnection` and whose handlers report status, subscribe, deliver
 * bids and schedule reconnects. The socket is abstract; its events are
 * method calls.
 */
module LivePriceConnection {
  import opened Common
  import opened FeedEffects

  const CREATING_SESSION: string := "حالة السعر: جاري إنشاء الجلسة"
  const SESSION_ACTIVE: string := "حالة السعر: جلسة نشطة"
  const SESSION_FAILED: string := "حالة السعر: فشل إنشاء الجلسة"
  const CONNECTING: string := "حالة السعر: جاري الاتصال..."
  const CONNECTED: string := "حالة السعر: متصل بأسعار الذهب"
  const DISCONNECTED: string := "حالة السعر: انقطع الاتصال"
  const CONNECTION_ERROR: string := "حالة السعر: خطأ في الاتصال"
  const CONNECT_FAILED: string := "حالة السعر: فشل الاتصال"

  const RECONNECT_AFTER_CLOSE_MS: nat := 3000
  const RETRY_AFTER_FAILURE_MS: nat := 5000

  /** The outcome of the session `fetch`: a rejected request, or a response
      with its `ok` flag and the `cst` and `x-security-token` headers
      (`None` when absent). */
  datatype SessionResponse =
    | FetchFailed
    | Response(ok: bool, cst: Option<string>, securityToken: Option<string>)

  /** The token pair (`None` for `null`) and the status reports made. */
  datatype SessionResult = SessionResult(tokens: Option<Tokens>, reports: seq<Effect>)

  /** A header is usable when present and not empty (not falsy). */
  predicate Usable(h: Option<string>) {
    h.Some? && h.value != ""
  }

  /** `createSession`: tokens exactly when the response is ok and both
      headers are usable; a report of the attempt, then of its success or
      failure; never an error. */
  function CreateSession(response: SessionResponse, hasStatusCallback: bool): (r: SessionResult)
    ensures r.tokens.Some? <==> response.Response? && response.ok && Usable(response.cst) && Usable(response.securityToken)
    ensures r.tokens.Some? ==> r.tokens.value == Tokens(response.cst.value, response.securityToken.value)
    ensures hasStatusCallback ==> r.reports == [StatusReported(false, CREATING_SESSION),
      if r.tokens.Some? then StatusReported(true, SESSION_ACTIVE) else StatusReported(false, SESSION_FAILED)]
    ensures !hasStatusCallback ==> r.reports == []
  {
    var starting := Report(hasStatusCallback, false, CREATING_SESSION);
    match response
    case Response(true, Some(cst), Some(token)) =>
      if cst != "" && token != "" then SessionResult(Some(Tokens(cst, token)), starting + Report(hasStatusCallback, true, SESSION_ACTIVE))
      else SessionResult(None, starting + Report(hasStatusCallback, false, SESSION_FAILED))
    case _ => SessionResult(None, starting + Report(hasStatusCallback, false, SESSION_FAILED))
  }

  /** The subscription request sent on open. */
  function SubscribeMessage(t: Tokens): (m: Subscribe)
    ensures m.destination == "marketData.subscribe" && m.correlationId == "gold-price-subscription"
    ensures m.cst == t.cst && m.securityToken == t.securityToken && m.epics == ["GOLD"]
  {
    Subscribe("marketData.subscribe", "gold-price-subscription", t.cst, t.securityToken, ["GOLD"])
  }

  /** An inbound frame: not JSON (or not an object), or its `status`,
      `destination`, and `payload` (`None` when absent or falsy) whose
      `bid` is `None` unless it is a number. */
  datatype Inbound =
    | Unparsable
    | Parsed(status: string, destination: string, payload: Option<Option<real>>)

  /** The bid a frame carries to `onPriceUpdate`, if any. */
  function QuoteBid(msg: Inbound): (bid: Option<real>)
    ensures bid.Some? <==> msg.Parsed? && msg.status == "OK" && msg.destination == "quote" && msg.payload.Some? && msg.payload.value.Some?
    ensures bid.Some? ==> bid.value == msg.payload.value.value
  {
    match msg
    case Parsed("OK", "quote", Some(Some(b))) => Some(b)
    case _ => None
  }

  class PriceFeed {
    const tokens: Option<Tokens>
    const hasStatusCallback: bool
    const hasPriceCallback: bool
    const hasSessionExpiredCallback: bool
    /** `priceSocket`: the socket handlers act on (`null` before the first
        one is created). */
    var socket: Option<nat>
    /** How many sockets have been created. */
    var created: nat
    var effects: seq<Effect>

    /** The reference is the newest socket, every socket created is in the
        record, and every older socket has had `close()` called on it: at
        most one socket is left open by the feed. */
    ghost predicate Valid()
      reads this
    {
      && socket == (if created == 0 then None else Some(created - 1))
      && (forall id: nat :: id < created ==> SocketCreated(id) in effects)
      && (forall id: nat :: id + 1 < created ==> CloseCalled(id) in effects)
    }

    /** `connectToGoldPriceWebSocket`: sets up the handlers and calls
        `startConnection` once; `constructionFails` says whether
        `new WebSocket` throws. */
    constructor (tokens: Option<Tokens>, hasStatusCallback: bool, hasPriceCallback: bool, hasSessionExpiredCallback: bool, constructionFails: bool)
      ensures this.tokens == tokens && this.hasStatusCallback == hasStatusCallback
      ensures this.hasPriceCallback == hasPriceCallback && this.hasSessionExpiredCallback == hasSessionExpiredCallback
      ensures Valid()
      ensures socket == (if constructionFails then None else Some(0))
      ensures effects == Report(hasStatusCallback, false, CONNECTING) +
        (if constructionFails then Report(hasStatusCallback, false, CONNECT_FAILED) + [ReconnectScheduled(RETRY_AFTER_FAILURE_MS)]
         else [SocketCreated(0)])
    {
      this.tokens := tokens;
      this.hasStatusCallback := hasStatusCallback;
      this.hasPriceCallback := hasPriceCallback;
      this.hasSessionExpiredCallback := hasSessionExpiredCallback;
      socket := None;
      created := 0;
      effects := [];
      new;
      StartConnection(constructionFails);
    }

    /** `startConnection`: reports "connecting", closes the current socket
        if any, then creates a new one; if construction throws, reports the
        failure and retries after 5000 ms, keeping the old reference. */
    method StartConnection(constructionFails: bool)
      requires Valid()
      modifies this`socket, this`created, this`effects
      ensures Valid()
      ensures effects == old(effects) + Report(hasStatusCallback, false, CONNECTING) +
        (if old(socket).Some? then [CloseCalled(old(socket).value)] else []) +
        (if constructionFails then Report(hasStatusCallback, false, CONNECT_FAILED) + [ReconnectScheduled(RETRY_AFTER_FAILURE_MS)]
         else [SocketCreated(old(created))])
      ensures constructionFails ==> socket == old(socket) && created == old(created)
      ensures !constructionFails ==> socket == Some(old(created)) && created == old(created) + 1
    {
      effects := effects + Report(hasStatusCallback, false, CONNECTING);
      if socket.Some? {
        effects := effects + [CloseCalled(socket.value)];
      }
      if constructionFails {
        effects := effects + Report(hasStatusCallback, false, CONNECT_FAILED) + [ReconnectScheduled(RETRY_AFTER_FAILURE_MS)];
      } else {
        effects := effects + [SocketCreated(created)];
        socket := Some(created);
        created := created + 1;
      }
    }

    /** `onopen` of any socket: reports connected, then subscribes on the
        current socket. Without tokens the `send` is never reached
        (reading `tokens.cst` throws). */
    method OnOpen()
      requires Valid() && socket.Some?
      modifies this`effects
      ensures Valid()
      ensures effects == old(effects) + Report(hasStatusCallback, true, CONNECTED) +
        (if tokens.Some? then [Sent(socket.value, SubscribeMessage(tokens.value))] else [])
    {
      effects := effects + Report(hasStatusCallback, true, CONNECTED);
      if tokens.Some? {
        effects := effects + [Sent(socket.value, SubscribeMessage(tokens.value))];
      }
    }

    /** `onmessage`: a quote with a numeric bid goes to `onPriceUpdate`;
        every other frame is dropped. */
    method OnMessage(msg: Inbound)
      requires Valid()
      modifies this`effects
      ensures Valid()
      ensures effects == old(effects) + (if QuoteBid(msg).Some? && hasPriceCallback then [Delivered(QuoteBid(msg).value)] else [])
    {
      var bid := QuoteBid(msg);
      if bid.Some? && hasPriceCallback {
        effects := effects + [Delivered(bid.value)];
      }
    }

    /** `onclose` of any socket: reports the disconnection, calls
        `onSessionExpired` whenever it is given, whatever closed the socket,
        and reconnects after 3000 ms. */
    method OnClose()
      requires Valid()
      modifies this`effects
      ensures Valid()
      ensures effects == old(effects) + Report(hasStatusCallback, false, DISCONNECTED) +
        (if hasSessionExpiredCallback then [SessionExpiredCalled] else []) + [ReconnectScheduled(RECONNECT_AFTER_CLOSE_MS)]
    {
      effects := effects + Report(hasStatusCallback, false, DISCONNECTED);
      if hasSessionExpiredCallback {
        effects := effects + [SessionExpiredCalled];
      }
      effects := effects + [ReconnectScheduled(RECONNECT_AFTER_CLOSE_MS)];
    }

    /** `onerror`: only a status report; no reconnect. */
    method OnError()
      requires Valid()
      modifies this`effects
      ensures Valid()
      ensures effects == old(effects) + Report(hasStatusCallback, false, CONNECTION_ERROR)
    {
      effects := effects + Report(hasStatusCallback, false, CONNECTION_ERROR);
    }

    /** The returned `close()`: closes the current socket; nothing when
        there is none. The reference is kept. */
    method Close()
      requires Valid()
      modifies this`effects
      ensures Valid()
      ensures effects == old(effects) + (if socket.Some? then [CloseCalled(socket.value)] else [])
    {
      if socket.Some? {
        effects := effects + [CloseCalled(socket.value)];
      }
    }
  }

  /** A second connection attempt closes the first socket before creating
      the second, which becomes the current one. */
  method RestartClosesOldSocket(tokens: Option<Tokens>) returns (feed: PriceFeed)
    ensures feed.created == 2 && feed.socket == Some(1)
    ensures CloseCalled(0) in feed.effects && SocketCreated(1) in feed.effects
    ensures feed.Valid()
  {
    feed := new PriceFeed(tokens, true, true, true, false);
    feed.StartConnection(false);
  }

  /** The returned `close()` does not stop the feed: the close event it
      causes reports the disconnection, calls `onSessionExpired` and
      schedules a reconnect like any other. */
  method CloseThenCloseEventReconnects(tokens: Option<Tokens>) returns (feed: PriceFeed)
    ensures feed.effects == [StatusReported(false, CONNECTING), SocketCreated(0), CloseCalled(0),
                             StatusReported(false, DISCONNECTED), SessionExpiredCalled, ReconnectScheduled(3000)]
  {
    feed := new PriceFeed(tokens, true, true, true, false);
    feed.Close();
    feed.OnClose();
  }

  /** A session response missing either header, or not ok, yields no
      tokens. */
  lemma NoTokensNoSubscription(response: SessionResponse, hasStatusCallback: bool)
    requires !(response.Response? && response.ok && Usable(response.cst) && Usable(response.securityToken))
    ensures CreateSession(response, hasStatusCallback).tokens == None
  {
  }

  /** No session, no subscription: a feed given the tokens of such a
      response connects, and its socket's `onopen` sends nothing. */
  method NoSessionOpenSendsNothing(response: SessionResponse, hasStatusCallback: bool) returns (feed: PriceFeed)
    requires !(response.Response? && response.ok && Usable(response.cst) && Usable(response.securityToken))
    ensures feed.tokens == None
    ensures forall e :: e in feed.effects ==> !e.Sent?
  {
    NoTokensNoSubscription(response, hasStatusCallback);
    feed := new PriceFeed(CreateSession(response, hasStatusCallback).tokens, hasStatusCallback, true, true, false);
    feed.OnOpen();
  }

  /** The bid a quote delivers is the frame's own bid, and frames with
      another status or destination deliver nothing. */
  lemma OnlyOkQuotesDeliver(status: string, destination: string, bid: real)
    ensures QuoteBid(Parsed(status, destination, Some(Some(bid)))) == (if status == "OK" && destination == "quote" then Some(bid) else None)
    ensures QuoteBid(Parsed(status, destination, Some(None))) == None
    ensures QuoteBid(Parsed(status, destination, None)) == None
    ensures QuoteBid(Unparsable) == None
  {
  }
}
