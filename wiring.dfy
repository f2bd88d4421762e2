/** Start-up of the proxy: which upstream handlers are registered, given the
    capabilities the downstream server advertised at handshake. Process
    launch, transports and the handlers' forwarding bodies are opaque here;
    only the registration decision and the fatal exits are modelled. */
module Wiring {
  import opened Protocol

  /** Every handler kind the proxy may register on its upstream endpoint. */
  datatype Handler =
    | LoggingMessage
    | GetPrompt
    | ListPrompts
    | ListResources
    | ListResourceTemplates
    | ReadResource
    | ResourceUpdated
    | Subscribe
    | Unsubscribe
    | ListTools
    | CallTool
    | Complete

  /** What a handler kind needs from the downstream capability record. */
  datatype Requirement = Always | NeedsLogging | NeedsPrompts | NeedsResources | NeedsSubscribe | NeedsTools

  /** Outcome of the downstream handshake: the advertised capability record
      (possibly undefined) or a failure to connect. */
  datatype Handshake = Connected(capabilities: Option<Capabilities>) | Unreachable

  datatype ExitReason = NoCommand | ConnectFailed | TokenMissing

  /** Either the proxy serves with the given upstream capabilities and handler
      set, or it exits with status 1 after registering `handlers`. */
  datatype Startup =
    | Serving(advertised: Option<Capabilities>, handlers: set<Handler>)
    | Exited(reason: ExitReason, handlers: set<Handler>)

  /** The registration table: the capability each handler kind depends on. */
  function RequirementOf(h: Handler): Requirement
  {
    match h
    case LoggingMessage => NeedsLogging
    case GetPrompt | ListPrompts => NeedsPrompts
    case ListResources | ListResourceTemplates | ReadResource => NeedsResources
    case ResourceUpdated | Subscribe | Unsubscribe => NeedsSubscribe
    case ListTools | CallTool => NeedsTools
    case Complete => Always
  }

  predicate Meets(caps: Option<Capabilities>, req: Requirement)
  {
    match req
    case Always => true
    case NeedsLogging => caps.Some? && caps.value.logging
    case NeedsPrompts => caps.Some? && caps.value.prompts
    case NeedsResources => caps.Some? && caps.value.resources.Some?
    case NeedsSubscribe => caps.Some? && caps.value.resources.Some? && caps.value.resources.value.subscribe
    case NeedsTools => caps.Some? && caps.value.tools
  }

  predicate Enabled(caps: Option<Capabilities>, h: Handler)
  {
    Meets(caps, RequirementOf(h))
  }

  predicate ToolsAdvertised(caps: Option<Capabilities>)
  {
    caps.Some? && caps.value.tools
  }

  /** An environment variable counts as set only when defined and non-empty. */
  predicate TokenSet(token: Option<string>)
  {
    token.Some? && token.value != ""
  }

  predicate IsToolHandler(h: Handler)
  {
    h == ListTools || h == CallTool
  }

  /** The relay handlers for logging, prompts and resources, registered by the
      chain of capability checks that precedes the tool check. */
  function RelayHandlers(caps: Option<Capabilities>): (r: set<Handler>)
    ensures forall h :: h in r <==> Enabled(caps, h) && !IsToolHandler(h) && h != Complete
  {
    if caps.None? then {}
    else
      var c := caps.value;
      (if c.logging then {LoggingMessage} else {})
      + (if c.prompts then {GetPrompt, ListPrompts} else {})
      + (if c.resources.Some? then
           {ListResources, ListResourceTemplates, ReadResource}
           + (if c.resources.value.subscribe then {ResourceUpdated, Subscribe, Unsubscribe} else {})
         else {})
  }

  /** The proxy's start-up: the command-line check, the handshake, the relay
      wiring, the tool wiring (fatal without an API token) and the
      unconditional completion handler. */
  function Start(argv: seq<string>, handshake: Handshake, token: Option<string>): (s: Startup)
    ensures s.Serving? <==>
              |argv| >= 1 && handshake.Connected? && (ToolsAdvertised(handshake.capabilities) ==> TokenSet(token))
    ensures s.Serving? ==> s.advertised == handshake.capabilities
    ensures s.Serving? ==> forall h :: h in s.handlers <==> Enabled(s.advertised, h)
    ensures s.Exited? && s.reason == TokenMissing ==>
              |argv| >= 1 && handshake.Connected?
              && ToolsAdvertised(handshake.capabilities) && !TokenSet(token)
              && forall h :: h in s.handlers <==> Enabled(handshake.capabilities, h) && !IsToolHandler(h) && h != Complete
    ensures s.Exited? && s.reason != TokenMissing ==> s.handlers == {}
  {
    if |argv| < 1 then Exited(NoCommand, {})
    else if handshake.Unreachable? then Exited(ConnectFailed, {})
    else
      var caps := handshake.capabilities;
      var relays := RelayHandlers(caps);
      if ToolsAdvertised(caps) && !TokenSet(token) then Exited(TokenMissing, relays)
      else
        var tools := if ToolsAdvertised(caps) then {ListTools, CallTool} else {};
        Serving(caps, relays + tools + {Complete})
  }

  /** Subscription handlers are wired exactly when the resources capability is
      present and carries the subscribe sub-flag. */
  lemma SubscriptionNeedsBothFlags(argv: seq<string>, handshake: Handshake, token: Option<string>, h: Handler)
    requires h in {ResourceUpdated, Subscribe, Unsubscribe}
    ensures h in Start(argv, handshake, token).handlers <==>
              |argv| >= 1 && handshake.Connected?
              && handshake.capabilities.Some?
              && handshake.capabilities.value.resources.Some?
              && handshake.capabilities.value.resources.value.subscribe
  {
  }

  /** No handler is wired for a capability the downstream server did not
      advertise, whatever the start-up outcome; only completion is
      unconditional. */
  lemma WiredOnlyWhenAdvertised(argv: seq<string>, handshake: Handshake, token: Option<string>, h: Handler)
    requires h in Start(argv, handshake, token).handlers && h != Complete
    ensures handshake.Connected? && handshake.capabilities.Some?
    ensures Enabled(handshake.capabilities, h)
  {
  }

  /** A missing token with tools advertised is fatal before any tool handler
      or the completion handler is registered. */
  lemma MissingTokenIsFatal(argv: seq<string>, caps: Option<Capabilities>, token: Option<string>)
    requires |argv| >= 1 && ToolsAdvertised(caps) && !TokenSet(token)
    ensures Start(argv, Connected(caps), token) == Exited(TokenMissing, RelayHandlers(caps))
    ensures ListTools !in Start(argv, Connected(caps), token).handlers
    ensures CallTool !in Start(argv, Connected(caps), token).handlers
    ensures Complete !in Start(argv, Connected(caps), token).handlers
  {
  }
}
