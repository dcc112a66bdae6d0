/**
 * The request-dispatch pipeline of the gateway's single route handler.
 * `Handle` decides how one inbound request ends (its outcome) and records,
 * in order, every effect the handler performs on the response or asks of a
 * collaborator (its trace). The collaborators (preflight detection, JSON
 * parsing, the access gate, body capture, token minting, the proxy-header
 * filter and the relay itself) are not modelled: their answers for the
 * request at hand are inputs, gathered in `Collaborators`.
 */
module Proxy {
  import opened Wrappers
  import opened HeaderLists

  /** What the handler reads of an inbound request. */
  datatype Inbound = Inbound(
    verb: string,                 // the request method
    isPreflight: bool,            // the framework's CORS-preflight test
    destination: Option<string>,  // `destination` query parameter
    headersParam: Option<string>) // `headers` query parameter (JSON text)

  /** The framework recognises a preflight only on an OPTIONS request. */
  type Request = r: Inbound | r.isPreflight ==> r.verb == "OPTIONS"
    witness Inbound("GET", false, None, None)

  type Token = string
  type Body = seq<bv8>

  /** How the relay to the destination ends. */
  datatype RelayResult =
    | Responded(copied: seq<Entry>, afterHeaders: seq<Entry>)
      // upstream answered: the headers the relay itself writes on the response
      // before its response callback runs (possibly none), then the rewritten
      // headers `getAfterResponseHeaders` returns to that callback
    | Failed(cause: string) // the relay threw

  /** The collaborators' answers for this request. */
  datatype Collaborators = Collaborators(
    version: string,                     // runtime configuration's version string
    parsedHeaders: Option<seq<Entry>>,   // entries of JSON.parse(headers); None when it throws
    gateAllowed: bool,                   // isAllowedToMakeRequest
    body: Option<Body>,                  // getBodyBuffer
    minted: Option<Token>,               // createTokenIfNeeded
    proxyHeaders: HeaderMap,             // getProxyHeaders(inbound headers)
    blacklisted: seq<string>,            // getBlacklistedHeaders
    relay: RelayResult)                  // specificProxyRequest

  /** The outbound request handed to the relay. */
  datatype FetchRequest = FetchRequest(
    destination: string,
    redirect: string,
    headers: HeaderMap,
    body: Option<Body>,
    blacklisted: seq<string>)

  datatype Effect =
    | SetCors                         // setResponseHeaders with the CORS headers
    | RelayHeaders(entries: seq<Entry>) // the relay's own header writes on the response
    | SetHeaders(entries: seq<Entry>) // setResponseHeaders with the rewritten headers
    | EndResponse                     // the response is ended with no body
    | ParseHeaders(text: string)      // JSON.parse of the `headers` parameter
    | CheckGate                       // isAllowedToMakeRequest
    | ReadBody                        // getBodyBuffer
    | CreateToken                     // createTokenIfNeeded
    | Fetch(request: FetchRequest)    // specificProxyRequest
    | SetTokenHeader(token: Token)    // setTokenHeader
    | LogError(cause: string)         // console.log of a relay failure

  datatype JsonBody = Message(message: string) | ErrorMessage(error: string)

  datatype HandlerError =
    | HttpError(statusCode: nat, statusMessage: string) // an error created by the handler
    | Rethrown(cause: string)                           // the relay's own error, unchanged

  datatype Outcome =
    | NoContent                                         // 204, empty body
    | Thrown(error: HandlerError)
    | JsonReply(status: nat, body: JsonBody)
    | Relayed(fetch: FetchRequest, tokenHeaderSet: bool)

  datatype Reply = Reply(outcome: Outcome, trace: seq<Effect>)

  /** The CORS headers every response starts with. */
  const CorsHeaders: seq<Entry> := [
    ("Access-Control-Allow-Origin", "*"),
    ("Access-Control-Allow-Methods", "GET, HEAD, POST, PUT, DELETE, CONNECT, OPTIONS, TRACE, PATCH"),
    ("Access-Control-Allow-Headers", "*"),
    ("Access-Control-Max-Age", "86400")]

  const UnauthorizedText := "Invalid or missing token"

  /** JavaScript truthiness of an optional string: present and non-empty. */
  predicate Truthy(s: Option<string>) {
    s.Some? && s.value != ""
  }

  function StatusMessage(version: string): string {
    "Proxy is working as expected (v" + version + ")"
  }

  /** The query-supplied headers: empty unless `headers` is present, non-empty and parses. */
  function QueryHeaders(param: Option<string>, parsed: Option<seq<Entry>>): seq<Entry> {
    if Truthy(param) && parsed.Some? then parsed.value else []
  }

  /** Every response header the relay's answer writes: its own copies, then the rewritten ones. */
  function RelayWrites(r: RelayResult): seq<Entry> {
    if r.Responded? then r.copied + r.afterHeaders else []
  }

  /** Effects that may only happen once the gate has let the request through. */
  predicate Gated(e: Effect) {
    e.ReadBody? || e.CreateToken? || e.Fetch? || e.RelayHeaders? || e.SetTokenHeader?
  }

  /** The request gets past the method checks and the status probe. */
  predicate ReachesGate(req: Request) {
    !req.isPreflight && req.verb != "OPTIONS" && Truthy(req.destination)
  }

  /** The attempt to parse the `headers` parameter: made only for a present, non-empty one. */
  function ParseEffects(req: Request): seq<Effect> {
    if Truthy(req.headersParam) then [ParseHeaders(req.headersParam.value)] else []
  }

  /** The outbound request: the filtered inbound headers overlaid with the query's. */
  function OutboundRequest(req: Request, env: Collaborators): FetchRequest
    requires req.destination.Some?
  {
    FetchRequest(req.destination.value, "follow",
                 Overlay(env.proxyHeaders, QueryHeaders(req.headersParam, env.parsedHeaders)),
                 env.body, env.blacklisted)
  }

  /** The effects of the relay's response callback, or of its failure. */
  function RelayEffects(relay: RelayResult, token: Option<Token>): seq<Effect> {
    match relay
    case Failed(cause) => [LogError(cause)]
    case Responded(copied, after) =>
      [RelayHeaders(copied), SetHeaders(after)] + (if Truthy(token) then [SetTokenHeader(token.value)] else [])
  }

  /** Everything from the gate on, for a request that reaches it. */
  function GateEffects(req: Request, env: Collaborators): seq<Effect>
    requires req.destination.Some?
  {
    if !env.gateAllowed then [CheckGate]
    else [CheckGate, ReadBody, CreateToken, Fetch(OutboundRequest(req, env))] + RelayEffects(env.relay, env.minted)
  }

  /** The handler, from the CORS headers to the relay's response callback. */
  function Handle(req: Request, env: Collaborators): (r: Reply)
    ensures |r.trace| > 0 && r.trace[0] == SetCors
  {
    var cors := [SetCors];
    if req.isPreflight then
      Reply(NoContent, cors + [EndResponse])
    else if req.verb == "OPTIONS" then
      Reply(Thrown(HttpError(405, "Method Not Allowed")), cors)
    else if !Truthy(req.destination) then
      Reply(JsonReply(200, Message(StatusMessage(env.version))), cors)
    else
      var trace := cors + ParseEffects(req) + GateEffects(req, env);
      if !env.gateAllowed then
        Reply(JsonReply(401, ErrorMessage(UnauthorizedText)), trace)
      else
        match env.relay
        case Failed(cause) => Reply(Thrown(Rethrown(cause)), trace)
        case Responded(_, _) => Reply(Relayed(OutboundRequest(req, env), Truthy(env.minted)), trace)
  }

  /** One effect's change to the response headers. */
  function Apply(h: HeaderMap, e: Effect): HeaderMap {
    match e
    case SetCors => Overlay(h, CorsHeaders)
    case RelayHeaders(entries) => Overlay(h, entries)
    case SetHeaders(entries) => Overlay(h, entries)
    case _ => h
  }

  /** Effects that write response headers. */
  predicate WritesHeaders(e: Effect) {
    e.SetCors? || e.RelayHeaders? || e.SetHeaders?
  }

  /** The response-header collection after the trace's writes, starting from `h`. */
  function ResponseHeaders(h: HeaderMap, t: seq<Effect>): HeaderMap
    decreases |t|
  {
    if t == [] then h
    else ResponseHeaders(Apply(h, t[0]), t[1..])
  }

  /** The trace without its JSON-parse effects. */
  function WithoutParse(t: seq<Effect>): seq<Effect>
    decreases |t|
  {
    if t == [] then [] else (if t[0].ParseHeaders? then [] else [t[0]]) + WithoutParse(t[1..])
  }

  // ---------------------------------------------------------------------------
  // Lemmas about traces

  lemma {:induction false} ResponseHeadersAppend(h: HeaderMap, a: seq<Effect>, b: seq<Effect>)
    ensures ResponseHeaders(h, a + b) == ResponseHeaders(ResponseHeaders(h, a), b)
    decreases |a|
  {
    if a == [] {
      assert [] + b == b;
    } else {
      assert (a + b)[0] == a[0];
      assert (a + b)[1..] == a[1..] + b;
      ResponseHeadersAppend(Apply(h, a[0]), a[1..], b);
    }
  }

  lemma {:induction false} ResponseHeadersUntouched(h: HeaderMap, t: seq<Effect>)
    requires forall k :: 0 <= k < |t| ==> !WritesHeaders(t[k])
    ensures ResponseHeaders(h, t) == h
    decreases |t|
  {
    if t != [] {
      ResponseHeadersUntouched(h, t[1..]);
    }
  }

  lemma ResponseHeadersSingle(h: HeaderMap, e: Effect)
    ensures ResponseHeaders(h, [e]) == Apply(h, e)
  {
    assert [e][1..] == [];
  }

  lemma {:induction false} WithoutParseAppend(a: seq<Effect>, b: seq<Effect>)
    ensures WithoutParse(a + b) == WithoutParse(a) + WithoutParse(b)
    decreases |a|
  {
    if a == [] {
      assert [] + b == b;
    } else {
      assert (a + b)[0] == a[0];
      assert (a + b)[1..] == a[1..] + b;
      WithoutParseAppend(a[1..], b);
    }
  }

  lemma {:induction false} WithoutParseUntouched(t: seq<Effect>)
    requires forall k :: 0 <= k < |t| ==> !t[k].ParseHeaders?
    ensures WithoutParse(t) == t
    decreases |t|
  {
    if t != [] {
      WithoutParseUntouched(t[1..]);
      assert t == [t[0]] + t[1..];
    }
  }

  /** The relay's answer writes exactly `RelayWrites` onto the response headers. */
  lemma RelayHeadersWritten(c: HeaderMap, relay: RelayResult, token: Option<Token>)
    ensures ResponseHeaders(c, RelayEffects(relay, token)) == Overlay(c, RelayWrites(relay))
  {
    match relay
    case Failed(cause) =>
      ResponseHeadersUntouched(c, [LogError(cause)]);
    case Responded(copied, after) =>
      var tok := if Truthy(token) then [SetTokenHeader(token.value)] else [];
      assert RelayEffects(relay, token) == [RelayHeaders(copied)] + ([SetHeaders(after)] + tok);
      ResponseHeadersAppend(c, [RelayHeaders(copied)], [SetHeaders(after)] + tok);
      ResponseHeadersSingle(c, RelayHeaders(copied));
      ResponseHeadersAppend(Overlay(c, copied), [SetHeaders(after)], tok);
      ResponseHeadersSingle(Overlay(c, copied), SetHeaders(after));
      ResponseHeadersUntouched(Overlay(Overlay(c, copied), after), tok);
      OverlayAppend(c, copied, after);
  }

  /** From the gate on, only a relayed response writes response headers. */
  lemma GateHeadersWritten(c: HeaderMap, req: Request, env: Collaborators)
    requires req.destination.Some?
    ensures ResponseHeaders(c, GateEffects(req, env)) ==
      if env.gateAllowed && env.relay.Responded? then Overlay(c, RelayWrites(env.relay)) else c
  {
    if env.gateAllowed {
      var sent := [CheckGate, ReadBody, CreateToken, Fetch(OutboundRequest(req, env))];
      ResponseHeadersAppend(c, sent, RelayEffects(env.relay, env.minted));
      ResponseHeadersUntouched(c, sent);
      RelayHeadersWritten(c, env.relay, env.minted);
    } else {
      ResponseHeadersUntouched(c, GateEffects(req, env));
    }
  }

  /** Response headers are written by the CORS step and, on a relayed response, by the relay and its callback. */
  lemma HandleResponseHeaders(h: HeaderMap, req: Request, env: Collaborators)
    ensures ResponseHeaders(h, Handle(req, env).trace) ==
      if Handle(req, env).outcome.Relayed? then Overlay(Overlay(h, CorsHeaders), RelayWrites(env.relay))
      else Overlay(h, CorsHeaders)
  {
    var t := Handle(req, env).trace;
    var cors := [SetCors];
    var c := Overlay(h, CorsHeaders);
    assert t == cors + t[1..];
    ResponseHeadersAppend(h, cors, t[1..]);
    ResponseHeadersSingle(h, SetCors);
    if ReachesGate(req) {
      HandleAtGate(req, env);
      var p, g := ParseEffects(req), GateEffects(req, env);
      assert t[1..] == p + g;
      ResponseHeadersAppend(c, p, g);
      ResponseHeadersUntouched(c, p);
      GateHeadersWritten(c, req, env);
    } else {
      HandleBeforeGate(req, env);
      ResponseHeadersUntouched(c, t[1..]);
    }
  }

  lemma LowerDiffersInLength(a: string, b: string)
    requires |a| != |b|
    ensures Lower(a) != Lower(b)
  {
  }

  lemma LowerDiffersAt(a: string, b: string, k: nat)
    requires k < |a| && k < |b| && LowerChar(a[k]) != LowerChar(b[k])
    ensures Lower(a) != Lower(b)
  {
    assert Lower(a)[k] != Lower(b)[k];
  }

  /** The four CORS names are distinct, even ignoring case. */
  lemma CorsNamesDistinct()
    ensures DistinctNames(CorsHeaders)
  {
    var a, b, c, d := CorsHeaders[0].0, CorsHeaders[1].0, CorsHeaders[2].0, CorsHeaders[3].0;
    assert |a| == 27 && |b| == 28 && |c| == 28 && |d| == 22;
    LowerDiffersInLength(a, b);
    LowerDiffersInLength(a, c);
    LowerDiffersInLength(a, d);
    LowerDiffersInLength(b, d);
    LowerDiffersInLength(c, d);
    assert b[21] == 'M' && c[21] == 'H';
    LowerDiffersAt(b, c, 21);
  }

  /**
   * Every response carries each CORS header with its value, unless, on a relayed
   * response, the relay or its response callback writes that name.
   */
  lemma CorsOnEveryResponse(h: HeaderMap, req: Request, env: Collaborators, i: nat)
    requires i < |CorsHeaders|
    ensures var n := Lower(CorsHeaders[i].0);
      var final := ResponseHeaders(h, Handle(req, env).trace);
      (Handle(req, env).outcome.Relayed? ==> n !in Names(RelayWrites(env.relay))) ==>
        n in final && final[n] == CorsHeaders[i].1
  {
    var n := Lower(CorsHeaders[i].0);
    HandleResponseHeaders(h, req, env);
    CorsNamesDistinct();
    EntryValueWins(h, CorsHeaders, i);
    if Handle(req, env).outcome.Relayed? && n !in Names(RelayWrites(env.relay)) {
      BaseValueKept(Overlay(h, CorsHeaders), RelayWrites(env.relay), n);
    }
  }

  // ---------------------------------------------------------------------------
  // Lemmas about each way a request can end

  /** A preflight ends with 204 and no body; nothing else is read, checked or sent. */
  lemma PreflightAnswered(req: Request, env: Collaborators)
    requires req.isPreflight
    ensures req.verb == "OPTIONS"
    ensures Handle(req, env).outcome == NoContent
    ensures Handle(req, env).trace == [SetCors, EndResponse]
  {
  }

  /** Any other OPTIONS request fails with 405 before parsing, the gate or the relay. */
  lemma OptionsRejected(req: Request, env: Collaborators)
    requires !req.isPreflight && req.verb == "OPTIONS"
    ensures Handle(req, env).outcome == Thrown(HttpError(405, "Method Not Allowed"))
    ensures Handle(req, env).trace == [SetCors]
  {
  }

  /** Without a (non-empty) destination the handler answers the status probe. */
  lemma StatusProbe(req: Request, env: Collaborators)
    requires req.verb != "OPTIONS" && !Truthy(req.destination)
    ensures Handle(req, env).outcome ==
      JsonReply(200, Message("Proxy is working as expected (v" + env.version + ")"))
    ensures Handle(req, env).trace == [SetCors]
  {
  }

  /** `Handle` for a request that is turned away before the gate. */
  lemma HandleBeforeGate(req: Request, env: Collaborators)
    requires !ReachesGate(req)
    ensures Handle(req, env).trace == if req.isPreflight then [SetCors, EndResponse] else [SetCors]
  {
  }

  /** `Handle` for a request that reaches the gate. */
  lemma HandleAtGate(req: Request, env: Collaborators)
    requires ReachesGate(req)
    ensures Handle(req, env).trace == [SetCors] + ParseEffects(req) + GateEffects(req, env)
    ensures !env.gateAllowed ==> Handle(req, env).outcome == JsonReply(401, ErrorMessage(UnauthorizedText))
    ensures env.gateAllowed && env.relay.Failed? ==>
      Handle(req, env).outcome == Thrown(Rethrown(env.relay.cause))
    ensures env.gateAllowed && env.relay.Responded? ==>
      Handle(req, env).outcome == Relayed(OutboundRequest(req, env), Truthy(env.minted))
  {
  }

  /** Nothing from the gate on is a parse attempt. */
  lemma GateEffectsParseFree(req: Request, env: Collaborators)
    requires req.destination.Some?
    ensures forall k :: 0 <= k < |GateEffects(req, env)| ==> !GateEffects(req, env)[k].ParseHeaders?
  {
    var g := GateEffects(req, env);
    if env.gateAllowed {
      var sent := [CheckGate, ReadBody, CreateToken, Fetch(OutboundRequest(req, env))];
      var post := RelayEffects(env.relay, env.minted);
      assert g == sent + post;
      forall k | 0 <= k < |g| ensures !g[k].ParseHeaders? {
        if k < |sent| { assert g[k] == sent[k]; } else { assert g[k] == post[k - |sent|]; }
      }
    }
  }

  /** Erasing the parse effect from "CORS, parse, rest" leaves "CORS, rest". */
  lemma ParseErased(p: seq<Effect>, g: seq<Effect>)
    requires p == [] || (|p| == 1 && p[0].ParseHeaders?)
    requires forall k :: 0 <= k < |g| ==> !g[k].ParseHeaders?
    ensures WithoutParse([SetCors] + p + g) == [SetCors] + g
  {
    WithoutParseAppend([SetCors] + p, g);
    WithoutParseAppend([SetCors], p);
    WithoutParseUntouched([SetCors]);
    WithoutParseUntouched(g);
    if p != [] {
      assert p[1..] == [];
    }
    assert WithoutParse(p) == [];
  }

  /**
   * An absent, empty or unparseable `headers` parameter never decides the
   * outcome: the request ends as it would without the parameter, and the only
   * trace difference is the attempted parse.
   */
  lemma MalformedHeadersIgnored(req: Request, env: Collaborators)
    requires !Truthy(req.headersParam) || env.parsedHeaders.None?
    ensures QueryHeaders(req.headersParam, env.parsedHeaders) == []
    ensures Handle(req, env).outcome == Handle(req.(headersParam := None), env).outcome
    ensures WithoutParse(Handle(req, env).trace) == Handle(req.(headersParam := None), env).trace
  {
    var bare: Request := req.(headersParam := None);
    if ReachesGate(req) {
      HandleAtGate(req, env);
      HandleAtGate(bare, env);
      assert OutboundRequest(bare, env) == OutboundRequest(req, env);
      assert GateEffects(bare, env) == GateEffects(req, env);
      GateEffectsParseFree(req, env);
      ParseErased(ParseEffects(req), GateEffects(req, env));
    } else {
      HandleBeforeGate(req, env);
      HandleBeforeGate(bare, env);
      WithoutParseUntouched(Handle(req, env).trace);
    }
  }

  /** A request the gate refuses ends with 401; nothing past the gate happens. */
  lemma GateRejects(req: Request, env: Collaborators)
    requires ReachesGate(req) && !env.gateAllowed
    ensures Handle(req, env).outcome == JsonReply(401, ErrorMessage("Invalid or missing token"))
    ensures forall k :: 0 <= k < |Handle(req, env).trace| ==> !Gated(Handle(req, env).trace[k])
  {
  }

  /**
   * The safety boundary: the body is read, a token minted, the relay called or
   * a token header written only after the gate was consulted and said yes.
   */
  lemma GateGuardsRelay(req: Request, env: Collaborators)
    ensures var t := Handle(req, env).trace;
      forall k :: 0 <= k < |t| && Gated(t[k]) ==> env.gateAllowed && CheckGate in t[..k]
  {
    var t := Handle(req, env).trace;
    if ReachesGate(req) && env.gateAllowed {
      var p := |ParseEffects(req)|;
      assert t[1 + p] == CheckGate;
      forall k | 0 <= k < |t| && Gated(t[k]) ensures CheckGate in t[..k] {
        assert k > 1 + p;
        assert t[..k][1 + p] == CheckGate;
      }
    }
  }

  /**
   * A request through the gate runs, in order: the gate, the body read, the
   * token step, then the relay with the assembled headers.
   */
  lemma RelayOrder(req: Request, env: Collaborators)
    requires ReachesGate(req) && env.gateAllowed
    ensures var t := Handle(req, env).trace;
      var k := if Truthy(req.headersParam) then 2 else 1;
      |t| > k + 3 && t[k] == CheckGate && t[k + 1] == ReadBody && t[k + 2] == CreateToken
      && t[k + 3] == Fetch(FetchRequest(req.destination.value, "follow",
           Overlay(env.proxyHeaders, QueryHeaders(req.headersParam, env.parsedHeaders)),
           env.body, env.blacklisted))
      && forall j :: 0 <= j < k ==> !Gated(t[j]) && t[j] != CheckGate
  {
  }

  /**
   * A token header is written exactly when the relay responded and a token was
   * minted, after the relayed headers, and it carries the minted token.
   */
  lemma TokenHeaderOnlyWhenMinted(req: Request, env: Collaborators)
    ensures var r := Handle(req, env);
      (exists k :: 0 <= k < |r.trace| && r.trace[k].SetTokenHeader?) <==>
        r.outcome.Relayed? && Truthy(env.minted)
    ensures var r := Handle(req, env);
      r.outcome.Relayed? ==> r.outcome.tokenHeaderSet == Truthy(env.minted)
    ensures var r := Handle(req, env);
      forall k :: 0 <= k < |r.trace| && r.trace[k].SetTokenHeader? ==>
        env.minted == Some(r.trace[k].token) && k > 0 && r.trace[k - 1].SetHeaders?
  {
    var t := Handle(req, env).trace;
    if !ReachesGate(req) {
      HandleBeforeGate(req, env);
    } else {
      HandleAtGate(req, env);
      var p := [SetCors] + ParseEffects(req);
      if !env.gateAllowed {
        assert t == p + [CheckGate];
        forall k | 0 <= k < |t| ensures !t[k].SetTokenHeader? {
          if k < |p| { assert t[k] == p[k]; }
        }
      } else {
        var pre := p + [CheckGate, ReadBody, CreateToken, Fetch(OutboundRequest(req, env))];
        var post := RelayEffects(env.relay, env.minted);
        assert t == pre + post;
        forall k | 0 <= k < |pre| ensures !t[k].SetTokenHeader? {
          assert t[k] == pre[k];
          if k < |p| { assert pre[k] == p[k]; }
        }
        if env.relay.Responded? && Truthy(env.minted) {
          assert post[2].SetTokenHeader? && post[1].SetHeaders?;
          assert t[|t| - 1] == post[2] && t[|t| - 2] == post[1];
        }
        forall k | |pre| <= k < |t| && t[k].SetTokenHeader?
          ensures env.relay.Responded? && Truthy(env.minted) && k == |t| - 1
        {
          assert t[k] == post[k - |pre|];
        }
      }
    }
  }

  /** A relay failure is logged and rethrown unchanged; no token header is written. */
  lemma FetchFailureRethrown(req: Request, env: Collaborators, cause: string)
    requires ReachesGate(req) && env.gateAllowed && env.relay == Failed(cause)
    ensures Handle(req, env).outcome == Thrown(Rethrown(cause))
    ensures var t := Handle(req, env).trace;
      t[|t| - 1] == LogError(cause) && t[|t| - 2].Fetch?
      && forall k :: 0 <= k < |t| ==> !t[k].SetTokenHeader?
  {
  }

  /**
   * Every request through the gate is relayed, whether or not the relay then
   * fails, with the filtered inbound headers overlaid with the query's.
   */
  lemma OutboundHeaders(req: Request, env: Collaborators, n: string)
    requires ReachesGate(req) && env.gateAllowed
    ensures Fetch(OutboundRequest(req, env)) in Handle(req, env).trace
    ensures Handle(req, env).outcome.Relayed? ==> Handle(req, env).outcome.fetch == OutboundRequest(req, env)
    ensures var f := OutboundRequest(req, env);
      var q := QueryHeaders(req.headersParam, env.parsedHeaders);
      f.destination == req.destination.value && f.redirect == "follow" && f.body == env.body
      && f.headers.Keys == env.proxyHeaders.Keys + Names(q)
      && (LastValue(q, n).Some? ==> n in f.headers && f.headers[n] == LastValue(q, n).value)
      && (n !in Names(q) && n in env.proxyHeaders ==> n in f.headers && f.headers[n] == env.proxyHeaders[n])
  {
    var q := QueryHeaders(req.headersParam, env.parsedHeaders);
    assert Handle(req, env).trace[4 + |ParseEffects(req)|] == Fetch(OutboundRequest(req, env));
    OverlayKeys(env.proxyHeaders, q);
    OverlayLookup(env.proxyHeaders, q, n);
    LastValueIsLastMatch(q, n);
  }

  /** How a request ends is decided by the method, the destination, the gate and the relay alone. */
  lemma OutcomeClassification(req: Request, env: Collaborators)
    ensures Handle(req, env).outcome == NoContent <==> req.isPreflight
    ensures Handle(req, env).outcome == Thrown(HttpError(405, "Method Not Allowed")) <==>
      req.verb == "OPTIONS" && !req.isPreflight
    ensures Handle(req, env).outcome.JsonReply? && Handle(req, env).outcome.status == 200 <==>
      req.verb != "OPTIONS" && !Truthy(req.destination)
    ensures Handle(req, env).outcome.JsonReply? && Handle(req, env).outcome.status == 401 <==>
      ReachesGate(req) && !env.gateAllowed
    ensures Handle(req, env).outcome.Relayed? <==>
      ReachesGate(req) && env.gateAllowed && env.relay.Responded?
    ensures Handle(req, env).outcome.Thrown? && Handle(req, env).outcome.error.Rethrown? <==>
      ReachesGate(req) && env.gateAllowed && env.relay.Failed?
    ensures (exists k :: 0 <= k < |Handle(req, env).trace| && Handle(req, env).trace[k].Fetch?) <==>
      ReachesGate(req) && env.gateAllowed
  {
    var t := Handle(req, env).trace;
    if ReachesGate(req) && env.gateAllowed {
      assert t[4 + |ParseEffects(req)|].Fetch?;
    }
  }
}
