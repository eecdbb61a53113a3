/** ServeHTTP and Replay: what goes upstream, what comes back, and the one event recorded. */
module ReverseProxy {
  import opened BoundedQueue
  import opened Events
  import opened Headers
  import opened Capture
  import opened Text

  /** A request as it leaves for the upstream server. Its URL is the configured upstream's with
      this path and query, so requests equal here have the same URL. */
  datatype Outgoing = Outgoing(verb: string, path: string, query: string, headers: Header)

  /** What the client is answered. */
  datatype Response =
    | Response(status: int, headers: Header, body: seq<Byte>)
    | ErrorResponse(status: int, text: string)

  /** How the transport's round trip ends; the response body is read separately. */
  datatype RoundTrip = Refused(error: string) | Answered(status: int, headers: Header)

  const BAD_GATEWAY := 502

  /** A client's writer can flush, or it is written to by io.Copy and may fail after some writes. */
  datatype Client = Flushing | Plain(writes: Option<nat>)

  predicate TakesAll(client: Client) {
    client == Flushing || client == Plain(None)
  }

  /** Values ServeHTTP and Replay take from the clock and the UUID library. */
  datatype Stamp = Stamp(id: string, startTime: int, duration: int)

  predicate HasPrefixSlash(s: string) {
    s != "" && s[0] == '/'
  }

  function SingleJoiningSlash(a: string, b: string): string {
    var aSlash := a != "" && a[|a| - 1] == '/';
    if aSlash && HasPrefixSlash(b) then a + b[1..]
    else if !aSlash && !HasPrefixSlash(b) then a + "/" + b
    else a + b
  }

  /** The path and query buildUpstreamURL puts on a copy of the upstream URL. */
  function UpstreamTarget(upstreamPath: string, upstreamQuery: string, reqPath: string): (string, string) {
    var cut := Cut(reqPath, '?');
    match cut.1
    case Some(query) => (SingleJoiningSlash(upstreamPath, cut.0), query)
    case None => (SingleJoiningSlash(upstreamPath, reqPath), upstreamQuery)
  }

  /** a and b joined by exactly one slash, and nothing else changed. */
  function Joined(a: string, b: string): string {
    (if a != "" && a[|a| - 1] == '/' then a[..|a| - 1] else a)
    + "/"
    + (if HasPrefixSlash(b) then b[1..] else b)
  }

  lemma OneSlash(a: string, b: string)
    ensures SingleJoiningSlash(a, b) == Joined(a, b)
  {
    if a != "" && a[|a| - 1] == '/' {
      assert a == a[..|a| - 1] + "/";
    }
    if HasPrefixSlash(b) {
      assert b == "/" + b[1..];
    }
  }

  /** Where a request for uri goes: a query of its own replaces the upstream's. */
  ghost predicate GoesTo(path: string, query: string, upstreamPath: string, upstreamQuery: string, uri: string) {
    || ('?' !in uri && path == Joined(upstreamPath, uri) && query == upstreamQuery)
    || exists front, own :: IsSplit(uri, front, own) && path == Joined(upstreamPath, front) && query == own
  }

  predicate IsSplit(uri: string, front: string, own: string) {
    '?' !in front && uri == front + "?" + own
  }

  lemma TargetIsRight(upstreamPath: string, upstreamQuery: string, uri: string)
    ensures var target := UpstreamTarget(upstreamPath, upstreamQuery, uri);
      GoesTo(target.0, target.1, upstreamPath, upstreamQuery, uri)
  {
    var cut := Cut(uri, '?');
    match cut.1
    case Some(own) =>
      OneSlash(upstreamPath, cut.0);
      assert IsSplit(uri, cut.0, own);
    case None =>
      OneSlash(upstreamPath, uri);
  }

  /** Adding a query to a path changes the query sent and not the path. */
  lemma QueryGoesAlong(upstreamPath: string, upstreamQuery: string, path: string, own: string)
    requires '?' !in path
    ensures UpstreamTarget(upstreamPath, upstreamQuery, path) == (Joined(upstreamPath, path), upstreamQuery)
    ensures UpstreamTarget(upstreamPath, upstreamQuery, path + "?" + own) == (Joined(upstreamPath, path), own)
  {
    CutJoined(path, '?', own);
    OneSlash(upstreamPath, path);
  }

  /** What the daemon's events satisfy: an error text comes only with 502 Bad Gateway. */
  predicate DaemonEvent(ev: Event) {
    ev.error != "" ==> ev.status == BAD_GATEWAY
  }

  /** The event ServeHTTP records for a round trip: sent is what it captured of the request
      body, data of the response body. */
  function ServedEvent(stamp: Stamp, verb: string, uri: string, headers: Header, sent: seq<Byte>,
                       trip: RoundTrip, data: seq<Byte>): (ev: Event)
    ensures DaemonEvent(ev)
  {
    match trip
    case Refused(error) =>
      Event(stamp.id, verb, uri, BAD_GATEWAY, stamp.startTime, stamp.duration, error, headers, map[], sent, [])
    case Answered(status, received) =>
      Event(stamp.id, verb, uri, status, stamp.startTime, stamp.duration, "", headers, received, sent, data)
  }

  /** ev tells of one exchange: the client's own request, and what the client was answered. */
  ghost predicate Tells(ev: Event, stamp: Stamp, verb: string, uri: string, headers: Header, read: seq<Byte>,
                        response: Response, gunzip: seq<Byte> -> Option<seq<Byte>>) {
    && ev.id == stamp.id && ev.startTime == stamp.startTime && ev.duration == stamp.duration
    && ev.verb == verb && ev.path == uri && ev.requestHeaders == headers
    && ev.requestBody == Decompressed(gunzip, Prefix(read, MAX_CAPTURE_SIZE))
    && match response
       case ErrorResponse(status, text) =>
         ev.status == status == BAD_GATEWAY && ev.error == text && ev.responseHeaders == map[] && ev.responseBody == []
       case Response(status, sent, offered) =>
         && ev.status == status && ev.error == ""
         && ev.responseBody == Decompressed(gunzip, Prefix(offered, MAX_CAPTURE_SIZE))
         && HeadersPassedOn(ev.responseHeaders, sent)
  }

  /** sent is what a proxy may pass on of the headers it received. */
  ghost predicate HeadersPassedOn(received: Header, sent: Header) {
    && (forall k :: k in sent <==> k in received && received[k] != [] && k !in HOP_BY_HOP)
    && (forall k :: k in sent ==> sent[k] == received[k])
  }

  lemma ServedEventTells(stamp: Stamp, verb: string, uri: string, headers: Header, read: seq<Byte>, trip: RoundTrip,
                         offered: seq<Byte>, gunzip: seq<Byte> -> Option<seq<Byte>>)
    requires trip.Answered? ==> CanonicalKeys(trip.headers)
    ensures Tells(ServedEvent(stamp, verb, uri, headers, Decompressed(gunzip, Prefix(read, MAX_CAPTURE_SIZE)), trip,
                              Decompressed(gunzip, Prefix(offered, MAX_CAPTURE_SIZE))),
                  stamp, verb, uri, headers, read, Answer(trip, offered), gunzip)
  {
    if trip.Answered? {
      ForwardableKeys(trip.headers);
    }
  }

  class ReverseProxy {
    const upstreamPath: string
    const upstreamQuery: string
    const gunzip: seq<Byte> -> Option<seq<Byte>>
    var events: seq<Event>

    /** The non-blocking send of emitEvent. */
    method EmitEvent(ev: Event)
      modifies this
      ensures events == Pushed(EVENTS_CAPACITY, old(events), ev)
    {
      if |events| < EVENTS_CAPACITY {
        events := events + [ev];
      }
    }

    constructor (upstreamPath: string, upstreamQuery: string, gunzip: seq<Byte> -> Option<seq<Byte>>)
      ensures this.upstreamPath == upstreamPath && this.upstreamQuery == upstreamQuery
      ensures this.gunzip == gunzip && events == []
    {
      this.upstreamPath, this.upstreamQuery, this.gunzip := upstreamPath, upstreamQuery, gunzip;
      events := [];
    }

    /** The transport reads the request body through the capture, some number of times. */
    method SendBody(capture: CaptureReader, readSizes: seq<nat>)
      requires capture.Valid()
      modifies capture, capture.r
      ensures capture.Valid()
    {
      for i := 0 to |readSizes|
        invariant capture.Valid()
      {
        if readSizes[i] > 0 {
          var data, err := capture.Read(readSizes[i]);
        }
      }
    }

    method RequestHeaders(headers: Header, clientIP: Option<string>) returns (sent: Header)
      requires CanonicalKeys(headers)
      ensures sent == Forwarded(headers, clientIP)
    {
      var h := new HeaderMap(map[]);
      ghost var order := CopyHeaders(h, headers);
      RemoveHopByHop(h);
      SetForwardedFor(h, clientIP);
      sent := h.m;
    }

    method ResponseHeaders(received: Header) returns (sent: Header)
      requires CanonicalKeys(received)
      ensures sent == WithoutKeys(Copied(map[], received), HOP_BY_HOP)
    {
      var h := new HeaderMap(map[]);
      ghost var order := CopyHeaders(h, received);
      RemoveHopByHop(h);
      sent := h.m;
    }

    /** What the transport has read of the request body when the event is recorded, be it
        before or after the response began. */
    method CaptureRequest(body: Body, readSizes: seq<nat>) returns (captured: seq<Byte>)
      requires body.Valid() && body.pos == 0
      modifies body
      ensures body.Valid() && captured == Prefix(body.content[..body.pos], MAX_CAPTURE_SIZE)
    {
      var capture := new CaptureReader(body, MAX_CAPTURE_SIZE);
      SendBody(capture, readSizes);
      captured := capture.Bytes();
    }

    method StreamResponse(body: Body, client: Client) returns (offered: seq<Byte>, captured: seq<Byte>)
      requires body.Valid() && body.pos == 0
      modifies body
      ensures body.Valid() && offered == body.content[..body.pos]
      ensures captured == Prefix(offered, MAX_CAPTURE_SIZE)
      ensures TakesAll(client) ==> offered == body.content
    {
      var capture := new CaptureReader(body, MAX_CAPTURE_SIZE);
      match client {
        case Flushing => offered := StreamToClient(capture);
        case Plain(writes) => offered := CopyToClient(capture, writes);
      }
      assert body.content[0..] == body.content[..|body.content|] == body.content;
      captured := capture.Bytes();
    }

    /** A request goes upstream with its target and headers, and the event is built from what
        came back. */
    method Exchange(verb: string, uri: string, headers: Header, client: Client, reqBody: Body, readSizes: seq<nat>,
                    trip: RoundTrip, respBody: Body, stamp: Stamp)
      returns (response: Response, ev: Event)
      requires reqBody.Valid() && reqBody.pos == 0 && respBody.Valid() && respBody.pos == 0
      requires reqBody != respBody && (trip.Answered? ==> CanonicalKeys(trip.headers))
      modifies reqBody, respBody
      ensures reqBody.Valid() && respBody.Valid()
      ensures trip.Refused? ==> respBody.pos == 0
      ensures trip.Answered? && TakesAll(client) ==> respBody.pos == |respBody.content|
      ensures response == Answer(trip, respBody.content[..respBody.pos])
      ensures ev == ServedEvent(stamp, verb, uri, headers,
        Decompressed(gunzip, Prefix(reqBody.content[..reqBody.pos], MAX_CAPTURE_SIZE)), trip,
        Decompressed(gunzip, Prefix(respBody.content[..respBody.pos], MAX_CAPTURE_SIZE)))
    {
      match trip
      case Refused(error) =>
        response := ErrorResponse(BAD_GATEWAY, error);
        var sent := CaptureRequest(reqBody, readSizes);
        ev := ServedEvent(stamp, verb, uri, headers, Decompressed(gunzip, sent), trip, []);
      case Answered(status, received) =>
        var respHeaders := ResponseHeaders(received);
        var offered, data := StreamResponse(respBody, client);
        response := Response(status, respHeaders, offered);
        var sent := CaptureRequest(reqBody, readSizes);
        ev := ServedEvent(stamp, verb, uri, headers, Decompressed(gunzip, sent), trip, Decompressed(gunzip, data));
    }

    /** One proxied request. Unless it cannot be built, it offers one event; and it streams the
        upstream body, all of it unless a client that cannot flush fails to take a write. */
    method ServeHTTP(verb: string, uri: string, headers: Header, clientIP: Option<string>, client: Client,
                     reqBody: Body, readSizes: seq<nat>, unbuildable: Option<string>, trip: RoundTrip,
                     respBody: Body, stamp: Stamp)
      returns (out: Option<Outgoing>, response: Response, ghost recorded: Option<Event>)
      requires reqBody.Valid() && reqBody.pos == 0 && respBody.Valid() && respBody.pos == 0
      requires reqBody != respBody
      requires CanonicalKeys(headers) && (trip.Answered? ==> CanonicalKeys(trip.headers))
      modifies this, reqBody, respBody
      ensures reqBody.Valid() && respBody.Valid()
      ensures unbuildable.Some? ==>
        && out == None && recorded == None && response == ErrorResponse(BAD_GATEWAY, unbuildable.value)
        && events == old(events) && unchanged(reqBody) && unchanged(respBody)
      ensures unbuildable.None? ==>
        && out == Some(ForwardedRequest(upstreamPath, upstreamQuery, verb, uri, headers, clientIP))
        && response == Answer(trip, respBody.content[..respBody.pos])
        && (trip.Answered? && TakesAll(client) ==> respBody.pos == |respBody.content|)
        && events == Pushed(EVENTS_CAPACITY, old(events), ServedEvent(stamp, verb, uri, headers,
             Decompressed(gunzip, Prefix(reqBody.content[..reqBody.pos], MAX_CAPTURE_SIZE)), trip,
             Decompressed(gunzip, Prefix(respBody.content[..respBody.pos], MAX_CAPTURE_SIZE))))
      ensures unbuildable.None? ==>
        && GoesTo(out.value.path, out.value.query, upstreamPath, upstreamQuery, uri)
        && out.value.verb == verb && out.value.headers == Forwarded(headers, clientIP)
        && recorded.Some? && events == Pushed(EVENTS_CAPACITY, old(events), recorded.value)
        && Tells(recorded.value, stamp, verb, uri, headers, reqBody.content[..reqBody.pos], response, gunzip)
      ensures unbuildable.None? && trip.Answered? ==>
        && response.Response? && response.status == trip.status && HeadersPassedOn(trip.headers, response.headers)
        && response.body == respBody.content[..respBody.pos]
      ensures unbuildable.None? && trip.Refused? ==> response == ErrorResponse(BAD_GATEWAY, trip.error)
    {
      var target := UpstreamTarget(upstreamPath, upstreamQuery, uri);
      TargetIsRight(upstreamPath, upstreamQuery, uri);
      if unbuildable.Some? {
        return None, ErrorResponse(BAD_GATEWAY, unbuildable.value), None;
      }
      var outHeaders := RequestHeaders(headers, clientIP);
      out := Some(Outgoing(verb, target.0, target.1, outHeaders));
      var ev;
      response, ev := Exchange(verb, uri, headers, client, reqBody, readSizes, trip, respBody, stamp);
      EmitEvent(ev);
      recorded := Some(ev);
      ServedEventTells(stamp, verb, uri, headers, reqBody.content[..reqBody.pos], trip,
                       respBody.content[..respBody.pos], gunzip);
      if trip.Answered? {
        ForwardableKeys(trip.headers);
      }
    }

    /** Replay. A success offers and returns one event; a failure offers none. */
    method Replay(verb: string, path: string, headers: Header, body: seq<Byte>, buildable: bool, trip: RoundTrip,
                  respBody: Body, spaces: seq<nat>, stamp: Stamp)
      returns (out: Option<Outgoing>, result: Option<Event>)
      requires respBody.Valid() && respBody.pos == 0
      requires CanonicalKeys(headers)
      modifies this, respBody
      ensures out == if buildable then Some(ReplayRequest(upstreamPath, upstreamQuery, verb, path, headers)) else None
      ensures result.Some? <==>
        && buildable && trip.Answered?
        && LimitedReadSucceeds(|respBody.content|, respBody.fails, respBody.eager, MAX_CAPTURE_SIZE)
      ensures result.Some? ==>
        result.value
        == ReplayEvent(gunzip, stamp, verb, path, headers, body, trip, Prefix(respBody.content, MAX_CAPTURE_SIZE))
      ensures events == match result case Some(ev) => Pushed(EVENTS_CAPACITY, old(events), ev) case None => old(events)
      ensures buildable ==>
        && GoesTo(out.value.path, out.value.query, upstreamPath, upstreamQuery, path)
        && out.value.verb == verb && out.value.headers == Copied(map[], headers)
      ensures result.Some? ==> var ev := result.value;
        && ev.verb == verb && ev.path == path && ev.requestBody == body && ev.requestHeaders == out.value.headers
        && ev.status == trip.status && ev.error == "" && ev.responseHeaders == trip.headers
        && ev.responseBody == Decompressed(gunzip, Prefix(respBody.content, MAX_CAPTURE_SIZE))
        && ev.id == stamp.id && ev.startTime == stamp.startTime && ev.duration == stamp.duration
    {
      var target := UpstreamTarget(upstreamPath, upstreamQuery, path);
      TargetIsRight(upstreamPath, upstreamQuery, path);
      if !buildable {
        return None, None;
      }
      var outHeaders := new HeaderMap(map[]);
      ghost var order := CopyHeaders(outHeaders, headers);
      out := Some(Outgoing(verb, target.0, target.1, outHeaders.m));
      result := None;
      if trip.Answered? {
        var read := ReadLimited(respBody, MAX_CAPTURE_SIZE, spaces);
        if read.Some? {
          var ev := Event(stamp.id, verb, path, trip.status, stamp.startTime, stamp.duration, "", outHeaders.m,
                          trip.headers, body, Decompressed(gunzip, read.value));
          EmitEvent(ev);
          result := Some(ev);
        }
      }
    }
  }

  /** The request ServeHTTP sends, apart from its body. */
  function ForwardedRequest(upstreamPath: string, upstreamQuery: string, verb: string, uri: string, headers: Header,
                            clientIP: Option<string>): Outgoing {
    var target := UpstreamTarget(upstreamPath, upstreamQuery, uri);
    Outgoing(verb, target.0, target.1, Forwarded(headers, clientIP))
  }

  /** What the client is answered for a round trip, and as much of the body as it was offered. */
  function Answer(trip: RoundTrip, offered: seq<Byte>): Response {
    match trip
    case Refused(error) => ErrorResponse(BAD_GATEWAY, error)
    case Answered(status, received) => Response(status, WithoutKeys(Copied(map[], received), HOP_BY_HOP), offered)
  }

  /** The request Replay sends, apart from its body, which is passed on as it is. */
  function ReplayRequest(upstreamPath: string, upstreamQuery: string, verb: string, path: string,
                         headers: Header): Outgoing {
    var target := UpstreamTarget(upstreamPath, upstreamQuery, path);
    Outgoing(verb, target.0, target.1, Copied(map[], headers))
  }

  /** The event a successful Replay records. */
  function ReplayEvent(gunzip: seq<Byte> -> Option<seq<Byte>>, stamp: Stamp, verb: string, path: string,
                       headers: Header, body: seq<Byte>, trip: RoundTrip, data: seq<Byte>): (ev: Event)
    requires trip.Answered?
    ensures DaemonEvent(ev)
  {
    Event(stamp.id, verb, path, trip.status, stamp.startTime, stamp.duration, "", Copied(map[], headers),
          trip.headers, body, Decompressed(gunzip, data))
  }

  /** server.eventToProto */
  function EventToProto(ev: Event): TapEvent {
    TapEvent(ev.id, ev.verb, ev.path, ev.status, ev.startTime, ev.duration, ev.error,
             Flattened(ev.requestHeaders), Flattened(ev.responseHeaders), ev.requestBody, ev.responseBody)
  }

  /** The fields of web.eventToJSON the statistics use. */
  function EventToJson(ev: Event): JsonEvent {
    JsonEvent(ev.id, ev.verb, ev.path, ev.status, Microseconds(ev.duration), ev.error)
  }

  /** What the TUI is shown of a proxied request: the client's own request, and what the client was
      answered, header lines of one name being joined. */
  lemma ViewersAreTold(ev: Event, stamp: Stamp, verb: string, uri: string, headers: Header, read: seq<Byte>,
                       response: Response, gunzip: seq<Byte> -> Option<seq<Byte>>)
    requires Tells(ev, stamp, verb, uri, headers, read, response, gunzip)
    ensures var shown := EventToProto(ev);
      && shown.id == stamp.id && shown.startTime == stamp.startTime && shown.duration == stamp.duration
      && shown.verb == verb && shown.path == uri && shown.requestHeaders == Flattened(headers)
      && shown.requestBody == Decompressed(gunzip, Prefix(read, MAX_CAPTURE_SIZE))
      && shown.status == response.status
      && match response
         case ErrorResponse(_, text) =>
           shown.error == text && shown.responseHeaders == map[] && shown.responseBody == []
         case Response(_, sent, offered) =>
           && shown.error == "" && shown.responseBody == Decompressed(gunzip, Prefix(offered, MAX_CAPTURE_SIZE))
           && forall k :: k in sent ==> k in shown.responseHeaders && shown.responseHeaders[k] == Join(sent[k], ", ")
    ensures var json := EventToJson(ev);
      && json.id == stamp.id && json.verb == verb && json.path == uri && json.status == response.status
      && json.durationMicros == Microseconds(stamp.duration)
      && json.error == (if response.ErrorResponse? then response.text else "")
  {
  }

  /**
   * Replay reaches a fixpoint. Replay any flat header map, whatever order its keys are set in;
   * then replaying what the recorded event shows, in whatever order, sends the very same
   * request, and the event recorded by that second replay shows the same request again.
   */
  lemma ReplayIsFixpoint(upstreamPath: string, upstreamQuery: string, gunzip: seq<Byte> -> Option<seq<Byte>>,
                         flat: map<string, string>, headers: Header, verb: string, path: string, body: seq<Byte>,
                         stamp: Stamp, trip: RoundTrip, data: seq<Byte>, again: Header)
    requires Unflattens(flat, headers) && trip.Answered?
    requires var shown := EventToProto(ReplayEvent(gunzip, stamp, verb, path, headers, body, trip, data));
      Unflattens(shown.requestHeaders, again)
    ensures var shown := EventToProto(ReplayEvent(gunzip, stamp, verb, path, headers, body, trip, data));
      && ReplayRequest(upstreamPath, upstreamQuery, shown.verb, shown.path, again)
         == ReplayRequest(upstreamPath, upstreamQuery, verb, path, headers)
      && shown.requestBody == body
      && again == headers
      && (CanonicalKeys(flat) ==> shown.requestHeaders == flat)
  {
    UnflattenedShape(flat, headers);
    CopyOfUnflattened(headers);
    HeadersReachFixpoint(flat, headers, again);
  }

  lemma HeadersReachFixpoint(flat: map<string, string>, headers: Header, again: Header)
    requires Unflattens(flat, headers) && Unflattens(Flattened(headers), again)
    ensures again == headers
    ensures CanonicalKeys(flat) ==> Flattened(headers) == flat
  {
    UnflattenedShape(flat, headers);
    FlattenedOfSingles(headers);
    FlattenUndoesUnflatten(Flattened(headers), again);
    if CanonicalKeys(flat) {
      FlattenUndoesUnflatten(flat, headers);
    }
  }

  lemma CopyOfUnflattened(h: Header)
    requires forall k :: k in h ==> |h[k]| == 1
    ensures Copied(map[], h) == h
  {
    var none: Header := map[];
    assert forall k :: k in h ==> Values(none, k) + h[k] == h[k];
  }

  lemma FlattenedOfSingles(h: Header)
    requires CanonicalKeys(h) && forall k :: k in h ==> |h[k]| == 1
    ensures CanonicalKeys(Flattened(h))
    ensures forall k :: k in h ==> [Flattened(h)[k]] == h[k]
  {
  }
}
