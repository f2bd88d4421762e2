# Guarded MCP proxy: capability wiring and the guarded `tools/call` handler

This project models the core of `pangea-mcp-proxy`. The proxy is a Model Context
Protocol (MCP) server that fronts another MCP server. It starts the downstream
server and reads the capabilities that server advertises. It then serves
upstream with the same capabilities and registers the relay handlers of each
advertised feature. A tool call makes up to 1 + n calls to the Pangea AI Guard
service, where n is the number of text items in the result. The first call
screens the serialised arguments before the downstream call. After it, the
text items are screened one at a time, in order, and the walk stops at the
first failed or blocked verdict.

The model has four modules:

- `Protocol` (`protocol.dfy`) holds the values the proxy handles. These are
  JSON payloads, the downstream capability record (`logging`, `prompts`,
  `resources` with its `subscribe` sub-flag, `tools`), tool-call parameters,
  content items and tool results.
- `Wiring` (`wiring.dfy`) covers start-up as a pure decision. `Start` maps the
  command line, the handshake outcome and the `PANGEA_API_TOKEN` value to one
  of two outcomes. Either the proxy serves, with its upstream capabilities and
  the set of registered handlers, or it exits with status 1, listing the
  handlers registered before the exit. A separate table, `RequirementOf`, says
  which capability each handler kind needs, and the contracts tie the chain of
  conditionals to that table.
- `Guard` (`guard.dfy`) models the guard service as an oracle from a request
  (text and recipe) to a verdict `{success, blocked, prompt_text}`. It also
  holds the post-call walk over a result's items as a fold, `Screen`, that
  stops at the first failed or blocked verdict.
- `Gateway` (`gateway.dfy`) holds the `tools/call` handler twice. The first
  copy is a specification function, `HandleCallTool`, that returns the
  outcome, the guard requests submitted and the downstream calls made. The
  second is the imperative handler, `GuardedCallTool`. It copies the
  downstream result into an array and hands it to `Guard.ScreenInPlace`,
  which overwrites each text item in place and returns early on a failed or
  blocked verdict. That loop's invariant covers the prefix already rewritten,
  and the handler is proved to behave exactly like `HandleCallTool`.

The other collaborators are function parameters (`Gateway.Collaborators`).
These are `JSON.stringify` (which yields `None` for absent arguments, since
`JSON.stringify(undefined)` is `undefined`, so the guard then gets no text),
`JSON.parse` (which yields `None` where it would throw), the downstream `callTool` (which may reject) and the guard service.

In this version of the proxy:

- the tool list is relayed without a guard call;
- a blocked result is a single text item with no `isError` field;
- the forwarded arguments are always the parse of the guard's `prompt_text`,
  even when the guard changed nothing;
- the completion handler is registered whatever the capabilities are;
- a verdict is read only for `success`, `blocked` and `prompt_text`;
- only text items are screened, and other result fields such as a structured payload are returned untouched.

## Model

| member | source | states |
|---|---|---|
| `Wiring.RelayHandlers` | src/proxy.ts:61-99 | A logging, prompt or resource relay handler is registered if and only if the capability it needs is advertised. The subscribe, unsubscribe and resource-updated handlers need both `resources` and `resources.subscribe`. No tool handler and no completion handler is among them. |
| `Wiring.Start` | src/proxy.ts:28-174 | The proxy serves if and only if a command was given, the handshake succeeded, and a non-empty API token is set whenever `tools` is advertised. When it serves, the upstream capabilities equal the downstream ones, and a handler is registered if and only if its requirement in the table is met: tool handlers only with `tools`, completion always. A missing token with `tools` present exits after only the relay handlers were registered. The other exits register nothing. |
| `Wiring.SubscriptionNeedsBothFlags` | src/proxy.ts:76-98 | A subscription handler is registered if and only if the proxy got past the command-line and handshake steps and the downstream advertises `resources` with `subscribe`. |
| `Wiring.WiredOnlyWhenAdvertised` | src/proxy.ts:61-114 | Every registered handler other than completion needs a capability that the downstream server advertised. |
| `Wiring.MissingTokenIsFatal` | src/proxy.ts:101-105 | With `tools` advertised and no token set, start-up exits before registering `ListTools`, `CallTool` or the completion handler. |
| `Protocol.TextResponse` | src/proxy.ts:126-133 | The canned reply of a blocked call is exactly one text item carrying the given message, with no other field. In particular it has no `isError` flag. |
| `Guard.OutputRequests` | src/proxy.ts:144-148 | The requests the walk would make if no verdict stopped it, all with the post-tool recipe. There are none when no item is text, and one per item when every item is text. |
| `Guard.OutputRequestsAreTextItems` | src/proxy.ts:144-148 | Every request carries the text of some text item of the result, and every text item's text is among the requests. Non-text items contribute nothing. |
| `Guard.Screen` | src/proxy.ts:144-166 | The post-call `for` loop as a fold that stops at the first failed or blocked verdict. A walk that passes keeps one item per input item, and a walk that stops has submitted at least one request. Its full behaviour is stated by `Guard.ScreenStops`, `Guard.ScreenPassedRewrites`, `Guard.ScreenSubmissions` and `Guard.ScreenPassesIffAllClean`. |
| `Guard.ScreenStops` | src/proxy.ts:150-163 | Once a failed or blocked verdict has stopped the walk, later items change neither the outcome nor the submitted requests. |
| `Guard.ScreenPassedRewrites` | src/proxy.ts:144-166 | A walk that passes keeps the length and order of the items. Non-text items are unchanged. Each text item keeps its type and other fields, and its text becomes its verdict's `prompt_text`. |
| `Guard.ScreenSubmissions` | src/proxy.ts:144-163 | The walk submits only text items, in result order, with the post-tool recipe. The submissions form a prefix of all text-item requests. Every submission except the last has a clean verdict. A passing walk has submitted every text item and all its verdicts are clean. A failed walk ends on a verdict without `success`, and a blocked walk ends on a successful `blocked` verdict. |
| `Guard.ScreenPassesIffAllClean` | src/proxy.ts:144-166 | The walk passes if and only if every text item's verdict is successful and not blocked. |
| `Gateway.Forwarded` | src/proxy.ts:136-139 | The forwarded request keeps the caller's tool name and other parameters, and its `arguments` are the parsed prompt text. |
| `Gateway.HandleCallTool` | src/proxy.ts:115-168 | The input guard runs first, on the stringified arguments. If its verdict lacks `success`, the call throws "Failed to guard input." and nothing is forwarded. A blocked input verdict returns exactly the single text item "Input has been blocked by Pangea AI Guard." and nothing is forwarded. The tool is called at most once: if and only if the input verdict is clean and its prompt text parses. A clean verdict whose prompt text does not parse throws the parser's error. The call keeps the original parameters with `arguments` replaced by the parse. A downstream rejection is rethrown with no output guard. |
| `Gateway.OutputStopsAtFirstUnclean` | src/proxy.ts:144-163 | Suppose the k-th text item of the result is the first whose verdict is not clean. Then exactly the input request and the first k+1 text-item requests are submitted, and no later item is. A successful blocked verdict returns exactly the single text item "Output has been blocked by Pangea AI Guard.". A verdict without `success` throws "Failed to guard output.". |
| `Gateway.OutputAllClean` | src/proxy.ts:144-168 | When every text item's verdict is clean, every text item is submitted in order. The reply is the downstream result with the same other fields and the same items in the same order. Non-text items are unchanged, and each text item's text is its verdict's `prompt_text`. |
| `Guard.ScreenInPlace` | src/proxy.ts:144-166 | The loop over the content array: the status it returns and the requests it submits are those of `Screen` on the array's original contents. When it passes, the array holds the rewritten items of `Screen`. |
| `Gateway.GuardedCallTool` | src/proxy.ts:115-169 | The imperative handler copies the downstream content into an array, screens it in place and answers according to how the walk ended. Its outcome, the guard requests it submits and the downstream calls it makes are exactly those of `HandleCallTool`. |

## Left out

- Transports, spawning the downstream process, `client.connect` and `server.connect` are I/O. The handshake is a parameter of `Start` (capabilities or a connection failure). A failure of `server.connect` is not modelled.
- The bodies of the relay handlers are one-line forwards into the MCP SDK. Only whether each one is registered is modelled.
- The `AIGuardService` network call and its `PangeaConfig` are replaced by a verdict oracle (`Guard.GuardService`). A rejected guard request is not told apart from a verdict without `success`: both make the request fail. The oracle is a function, so two identical requests within one call get the same verdict.
- The verdict's `prompt_text` is always a string. The source's `prompt_text!` is a compile-time assertion only. At run time an absent `prompt_text` would make `JSON.parse(undefined)` throw a SyntaxError before the downstream call, and after the call it would set the item's text to `undefined`. Neither case is modelled.
- `JSON.stringify` and `JSON.parse` are uninterpreted function parameters. No JSON round trip is stated or proved. The message of the `SyntaxError` that `JSON.parse` throws is not modelled.
- Command-line parsing is reduced to the "no command" check. `process.exit(1)` and the logged error message become the `Exited` outcome.
- Concurrent requests, and the interleaving of their awaits, are not modelled. Each `tools/call` request is one sequential run.
- The `filter` on text items is modelled by a walk over the result's own items that skips non-text ones. This gives the same order and the same in-place writes, because the filtered array shares its items with the result.
- A downstream result without a `content` array, where the source's `filter` call would throw, is not modelled. Every `ToolResponse` has a content sequence.
