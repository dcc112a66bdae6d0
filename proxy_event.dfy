/**
 * The handler as it runs: step by step against the framework's event object,
 * whose response headers, status code and "ended" flag it changes in place,
 * and whose collaborator calls it records. `HandleRequest` is proved to end
 * the way `Proxy.Handle` says and to perform exactly `Proxy.Handle`'s trace.
 */
module ProxyEvent {
  import opened Wrappers
  import opened HeaderLists
  import opened Proxy

  /**
   * One inbound request's event. `request` and `collaborators` are what the
   * request carries and what the collaborators answer for it; the response
   * side is state; `log` records every effect in the order it happens.
   */
  class Event {
    const request: Request
    const collaborators: Collaborators
    var responseHeaders: HeaderMap
    var statusCode: nat
    var ended: bool
    ghost var log: seq<Effect>

    /** Both header collections the handler meets hold lower-cased names only. */
    ghost predicate Valid()
      reads this`responseHeaders
    {
      KeysLowered(collaborators.proxyHeaders) && KeysLowered(responseHeaders)
    }

    constructor (request: Request, collaborators: Collaborators, headers: HeaderMap, statusCode: nat)
      requires KeysLowered(collaborators.proxyHeaders) && KeysLowered(headers)
      ensures Valid()
      ensures this.request == request && this.collaborators == collaborators
      ensures responseHeaders == headers && this.statusCode == statusCode && !ended && log == []
    {
      this.request := request;
      this.collaborators := collaborators;
      responseHeaders := headers;
      this.statusCode := statusCode;
      ended := false;
      log := [];
    }

    /** `setResponseHeaders` with the CORS literal. */
    method SetCorsHeaders()
      requires Valid()
      modifies this`responseHeaders, this`log
      ensures Valid()
      ensures responseHeaders == Overlay(old(responseHeaders), CorsHeaders)
      ensures log == old(log) + [SetCors]
    {
      OverlayKeysLowered(responseHeaders, CorsHeaders);
      responseHeaders := Overlay(responseHeaders, CorsHeaders);
      log := log + [SetCors];
    }

    /** `setResponseHeaders` with the relayed response's rewritten headers. */
    method SetResponseHeaders(entries: seq<Entry>)
      requires Valid()
      modifies this`responseHeaders, this`log
      ensures Valid()
      ensures responseHeaders == Overlay(old(responseHeaders), entries)
      ensures log == old(log) + [SetHeaders(entries)]
    {
      OverlayKeysLowered(responseHeaders, entries);
      responseHeaders := Overlay(responseHeaders, entries);
      log := log + [SetHeaders(entries)];
    }

    method IsPreflightRequest() returns (preflight: bool)
      ensures preflight == request.isPreflight
    {
      preflight := request.isPreflight;
    }

    /** Ends the response without a body. */
    method End()
      modifies this`ended, this`log
      ensures ended
      ensures log == old(log) + [EndResponse]
    {
      ended := true;
      log := log + [EndResponse];
    }

    /** `JSON.parse` of the `headers` parameter, then its entries; None when it throws. */
    method ParseJson(text: string) returns (parsed: Option<seq<Entry>>)
      requires request.headersParam == Some(text)
      modifies this`log
      ensures parsed == collaborators.parsedHeaders
      ensures log == old(log) + [ParseHeaders(text)]
    {
      parsed := collaborators.parsedHeaders;
      log := log + [ParseHeaders(text)];
    }

    method IsAllowedToMakeRequest() returns (allowed: bool)
      modifies this`log
      ensures allowed == collaborators.gateAllowed
      ensures log == old(log) + [CheckGate]
    {
      allowed := collaborators.gateAllowed;
      log := log + [CheckGate];
    }

    method GetBodyBuffer() returns (body: Option<Body>)
      modifies this`log
      ensures body == collaborators.body
      ensures log == old(log) + [ReadBody]
    {
      body := collaborators.body;
      log := log + [ReadBody];
    }

    method CreateTokenIfNeeded() returns (token: Option<Token>)
      modifies this`log
      ensures token == collaborators.minted
      ensures log == old(log) + [CreateToken]
    {
      token := collaborators.minted;
      log := log + [CreateToken];
    }

    /** A fresh `Headers` object holding the filtered inbound headers. */
    method GetProxyHeaders() returns (store: HeaderStore)
      requires Valid()
      ensures fresh(store) && store.Valid()
      ensures store.entries == collaborators.proxyHeaders
    {
      store := new HeaderStore(collaborators.proxyHeaders);
    }

    /**
     * The relay: it is handed the outbound request and, when upstream answers,
     * writes its own response headers before the response callback runs.
     */
    method SpecificProxyRequest(fetch: FetchRequest) returns (result: RelayResult)
      requires Valid()
      modifies this`responseHeaders, this`log
      ensures Valid()
      ensures result == collaborators.relay
      ensures log == old(log) + [Fetch(fetch)]
                     + (if result.Responded? then [RelayHeaders(result.copied)] else [])
      ensures responseHeaders ==
        if result.Responded? then Overlay(old(responseHeaders), result.copied) else old(responseHeaders)
    {
      result := collaborators.relay;
      log := log + [Fetch(fetch)];
      if result.Responded? {
        OverlayKeysLowered(responseHeaders, result.copied);
        responseHeaders := Overlay(responseHeaders, result.copied);
        log := log + [RelayHeaders(result.copied)];
      }
    }

    method SetTokenHeader(token: Token)
      modifies this`log
      ensures log == old(log) + [Effect.SetTokenHeader(token)]
    {
      log := log + [Effect.SetTokenHeader(token)];
    }

    method LogError(cause: string)
      modifies this`log
      ensures log == old(log) + [Effect.LogError(cause)]
    {
      log := log + [Effect.LogError(cause)];
    }
  }

  /** The `forEach` over the parsed query headers: every entry is set, in order, on the outbound headers. */
  method MergeQueryHeaders(store: HeaderStore, query: seq<Entry>)
    requires store.Valid()
    modifies store
    ensures store.Valid()
    ensures store.entries == Overlay(old(store.entries), query)
  {
    for i := 0 to |query|
      invariant store.Valid()
      invariant Overlay(store.entries, query[i..]) == Overlay(old(store.entries), query)
    {
      assert query[i..][1..] == query[i + 1..];
      var (name, value) := query[i];
      store.Set(name, value);
    }
  }

  /** Regrouping a concatenation, stated once so the handler's proofs stay small. */
  lemma AppendAssoc<T>(a: seq<T>, b: seq<T>, c: seq<T>)
    ensures a + (b + c) == (a + b) + c
  {
  }

  /**
   * The handler's `try` block around the relay: assemble the outbound headers,
   * relay, and on a response copy its rewritten headers and, if one was minted,
   * the token. A relay failure is logged and rethrown.
   */
  method ProxyRequest(event: Event, destination: string, queryHeaders: seq<Entry>,
                      body: Option<Body>, token: Option<Token>) returns (outcome: Outcome)
    requires event.Valid()
    modifies event`responseHeaders, event`log
    ensures event.Valid()
    ensures var fetch := FetchRequest(destination, "follow",
                                      Overlay(event.collaborators.proxyHeaders, queryHeaders),
                                      body, event.collaborators.blacklisted);
      && outcome == (match event.collaborators.relay
                     case Failed(cause) => Thrown(Rethrown(cause))
                     case Responded(_, _) => Relayed(fetch, Truthy(token)))
      && event.log == old(event.log) + [Fetch(fetch)] + RelayEffects(event.collaborators.relay, token)
    ensures event.responseHeaders == Overlay(old(event.responseHeaders), RelayWrites(event.collaborators.relay))
  {
    var fetchHeaders := event.GetProxyHeaders();
    MergeQueryHeaders(fetchHeaders, queryHeaders);
    var fetch := FetchRequest(destination, "follow", fetchHeaders.entries, body,
                              event.collaborators.blacklisted);
    ghost var before := event.log;
    ghost var headers0 := event.responseHeaders;
    var response := event.SpecificProxyRequest(fetch);
    ghost var sent := event.log;
    match response {
      case Failed(cause) =>
        event.LogError(cause);
        outcome := Thrown(Rethrown(cause));
      case Responded(copied, after) =>
        event.SetResponseHeaders(after);
        ghost var tokenEffects: seq<Effect> := [];
        if Truthy(token) {
          event.SetTokenHeader(token.value);
          tokenEffects := [Effect.SetTokenHeader(token.value)];
        }
        OverlayAppend(headers0, copied, after);
        assert sent == before + [Fetch(fetch)] + [RelayHeaders(copied)];
        AppendAssoc(sent, [SetHeaders(after)], tokenEffects);
        AppendAssoc(before + [Fetch(fetch)], [RelayHeaders(copied)], [SetHeaders(after)] + tokenEffects);
        outcome := Relayed(fetch, Truthy(token));
    }
  }

  /**
   * The lenient parse of the `headers` parameter: attempted only when it is
   * present and non-empty; a parse failure leaves the query headers empty.
   */
  method ReadQueryHeaders(event: Event, headersParam: Option<string>) returns (queryHeaders: seq<Entry>)
    requires headersParam == event.request.headersParam
    modifies event`log
    ensures queryHeaders == QueryHeaders(headersParam, event.collaborators.parsedHeaders)
    ensures event.log == old(event.log) + ParseEffects(event.request)
  {
    queryHeaders := [];
    if Truthy(headersParam) {
      var parsed := event.ParseJson(headersParam.value);
      if parsed.Some? {
        queryHeaders := parsed.value;
      }
    }
  }

  /**
   * The handler from the gate on: a refused request gets 401; otherwise the
   * body is read, a token minted if needed, and the request relayed.
   */
  method GuardedRelay(event: Event, destination: string, queryHeaders: seq<Entry>) returns (outcome: Outcome)
    requires ReachesGate(event.request) && destination == event.request.destination.value
    requires queryHeaders == QueryHeaders(event.request.headersParam, event.collaborators.parsedHeaders)
    requires event.Valid()
    modifies event`responseHeaders, event`log
    ensures event.Valid()
    ensures outcome == Handle(event.request, event.collaborators).outcome
    ensures event.log == old(event.log) + GateEffects(event.request, event.collaborators)
    ensures event.responseHeaders ==
      if outcome.Relayed? then Overlay(old(event.responseHeaders), RelayWrites(event.collaborators.relay))
      else old(event.responseHeaders)
  {
    ghost var req, env := event.request, event.collaborators;
    ghost var log0 := event.log;
    HandleAtGate(req, env);
    var allowed := event.IsAllowedToMakeRequest();
    if !allowed {
      return JsonReply(401, ErrorMessage(UnauthorizedText));
    }

    var body := event.GetBodyBuffer();
    var token := event.CreateTokenIfNeeded();
    ghost var pre := [CheckGate, ReadBody, CreateToken];
    assert event.log == log0 + pre;

    outcome := ProxyRequest(event, destination, queryHeaders, body, token);

    ghost var rest := [Fetch(OutboundRequest(req, env))] + RelayEffects(env.relay, env.minted);
    assert GateEffects(req, env) == pre + rest;
    AppendAssoc(log0 + pre, [Fetch(OutboundRequest(req, env))], RelayEffects(env.relay, env.minted));
    AppendAssoc(log0, pre, rest);
  }

  /** The route handler. */
  method HandleRequest(event: Event) returns (outcome: Outcome)
    requires event.Valid()
    modifies event`responseHeaders, event`statusCode, event`ended, event`log
    ensures event.Valid()
    ensures outcome == Handle(event.request, event.collaborators).outcome
    ensures event.log == old(event.log) + Handle(event.request, event.collaborators).trace
    ensures event.responseHeaders ==
      if outcome.Relayed?
      then Overlay(Overlay(old(event.responseHeaders), CorsHeaders), RelayWrites(event.collaborators.relay))
      else Overlay(old(event.responseHeaders), CorsHeaders)
    ensures event.statusCode == if outcome == NoContent then 204 else old(event.statusCode)
    ensures event.ended == (old(event.ended) || outcome == NoContent)
  {
    ghost var req, env := event.request, event.collaborators;
    ghost var log0 := event.log;

    event.SetCorsHeaders();

    var preflight := event.IsPreflightRequest();
    if preflight {
      event.statusCode := 204;
      event.End();
      HandleBeforeGate(req, env);
      return NoContent;
    }

    if event.request.verb == "OPTIONS" {
      HandleBeforeGate(req, env);
      return Thrown(HttpError(405, "Method Not Allowed"));
    }

    var destination := event.request.destination;
    var headersParam := event.request.headersParam;
    if !Truthy(destination) {
      HandleBeforeGate(req, env);
      return JsonReply(200, Message(StatusMessage(event.collaborators.version)));
    }

    HandleAtGate(req, env);
    var queryHeaders := ReadQueryHeaders(event, headersParam);

    outcome := GuardedRelay(event, destination.value, queryHeaders);
    AppendAssoc(log0, [SetCors] + ParseEffects(req), GateEffects(req, env));
  }
}
