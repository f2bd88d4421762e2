/** The guarded `tools/call` handler: a pre-call guard on the serialised
    arguments, one downstream call with the arguments taken from the guard's
    prompt text, and a post-call guard over the text items of the result. */
module Gateway {
  import opened Protocol
  import opened Guard

  const InputBlockedMessage := "Input has been blocked by Pangea AI Guard."
  const OutputBlockedMessage := "Output has been blocked by Pangea AI Guard."

  const InputGuardFailedMessage := "Failed to guard input."
  const OutputGuardFailedMessage := "Failed to guard output."

  /** The errors the handler throws back to the upstream caller: a guard call
      that did not succeed, a prompt text that `JSON.parse` rejects, or the
      downstream call's own rejection. */
  datatype Error =
    | GuardFailed(message: string)
    | PromptTextNotJson
    | DownstreamFailed(message: string)

  datatype CallOutcome = Reply(response: ToolResponse) | Thrown(error: Error)

  /** What the downstream `callTool` produced: a result or a rejection. */
  datatype ToolReply = Returned(response: ToolResponse) | Raised(message: string)

  /** The collaborators of the handler, all opaque: the guard service,
      `JSON.stringify` of the arguments (None for absent arguments, as
      `JSON.stringify(undefined)` yields `undefined`), `JSON.parse` (None when it throws)
      and the downstream tool call. */
  datatype Collaborators = Collaborators(
    guard: GuardService,
    stringify: Option<Json> -> Option<string>,
    parse: string -> Option<Json>,
    callTool: CallParams -> ToolReply)

  /** The outcome of one request with the guard requests submitted and the
      downstream calls made, in order. */
  datatype Handling = Handling(outcome: CallOutcome, submitted: seq<GuardRequest>, forwarded: seq<CallParams>)

  function InputRequest(params: CallParams, env: Collaborators): GuardRequest
  {
    GuardRequest(env.stringify(params.arguments), PreToolRecipe)
  }

  function InputVerdict(params: CallParams, env: Collaborators): Verdict
  {
    env.guard(InputRequest(params, env))
  }

  /** The request sent downstream: the caller's parameters with `arguments`
      replaced by `parsed`. */
  function Forwarded(params: CallParams, parsed: Json): (p: CallParams)
    ensures p.name == params.name && p.rest == params.rest && p.arguments == Some(parsed)
  {
    params.(arguments := Some(parsed))
  }

  /** The handler's behaviour on one request, with its pre-call guarantees:
      the input guard is always consulted first; a failed or blocked input
      verdict ends the request without a downstream call; otherwise the tool
      is called at most once, only after a clean verdict, with the arguments
      parsed from the verdict's prompt text. */
  function HandleCallTool(params: CallParams, env: Collaborators): (h: Handling)
    ensures h.submitted != [] && h.submitted[0] == InputRequest(params, env)
    ensures |h.forwarded| <= 1
    ensures !InputVerdict(params, env).success ==>
              h == Handling(Thrown(GuardFailed(InputGuardFailedMessage)), [InputRequest(params, env)], [])
    ensures InputVerdict(params, env).success && InputVerdict(params, env).blocked ==>
              h == Handling(Reply(TextResponse(InputBlockedMessage)), [InputRequest(params, env)], [])
    ensures h.forwarded != [] <==>
              Clean(InputVerdict(params, env)) && env.parse(InputVerdict(params, env).promptText).Some?
    ensures h.forwarded != [] ==>
              h.forwarded == [Forwarded(params, env.parse(InputVerdict(params, env).promptText).value)]
    ensures h.forwarded == [] ==> h.submitted == [InputRequest(params, env)]
    ensures Clean(InputVerdict(params, env)) && env.parse(InputVerdict(params, env).promptText).None? ==>
              h.outcome == Thrown(PromptTextNotJson)
    ensures h.forwarded != [] && env.callTool(h.forwarded[0]).Raised? ==>
              h.outcome == Thrown(DownstreamFailed(env.callTool(h.forwarded[0]).message))
              && h.submitted == [InputRequest(params, env)]
  {
    var pre := InputRequest(params, env);
    var v := env.guard(pre);
    if !v.success then Handling(Thrown(GuardFailed(InputGuardFailedMessage)), [pre], [])
    else if v.blocked then Handling(Reply(TextResponse(InputBlockedMessage)), [pre], [])
    else match env.parse(v.promptText)
      case None => Handling(Thrown(PromptTextNotJson), [pre], [])
      case Some(parsed) =>
        var fwd := Forwarded(params, parsed);
        match env.callTool(fwd)
        case Raised(m) => Handling(Thrown(DownstreamFailed(m)), [pre], [fwd])
        case Returned(response) =>
          var post := Screen(response.content, env.guard);
          var outcome :=
            match post.status
            case Failed => Thrown(GuardFailed(OutputGuardFailedMessage))
            case Blocked => Reply(TextResponse(OutputBlockedMessage))
            case Passed => Reply(response.(content := post.items));
          Handling(outcome, [pre] + post.submitted, [fwd])
  }

  /** The downstream reply of a request that was forwarded. */
  function DownstreamReply(params: CallParams, env: Collaborators): ToolReply
    requires HandleCallTool(params, env).forwarded != []
  {
    env.callTool(HandleCallTool(params, env).forwarded[0])
  }

  /** The text items of the downstream result are submitted in result order,
      and when the k-th of them is the first whose verdict is not clean, no
      later item is submitted: a failed verdict throws, a blocked one replaces
      the whole result by the canned output-blocked text. */
  lemma {:induction false} OutputStopsAtFirstUnclean(params: CallParams, env: Collaborators, k: nat)
    requires HandleCallTool(params, env).forwarded != []
    requires DownstreamReply(params, env).Returned?
    requires k < |OutputRequests(DownstreamReply(params, env).response.content)|
    requires forall j | 0 <= j < k ::
               Clean(env.guard(OutputRequests(DownstreamReply(params, env).response.content)[j]))
    requires !Clean(env.guard(OutputRequests(DownstreamReply(params, env).response.content)[k]))
    ensures HandleCallTool(params, env).submitted ==
              [InputRequest(params, env)] + OutputRequests(DownstreamReply(params, env).response.content)[..k + 1]
    ensures env.guard(OutputRequests(DownstreamReply(params, env).response.content)[k]).success ==>
              HandleCallTool(params, env).outcome == Reply(TextResponse(OutputBlockedMessage))
    ensures !env.guard(OutputRequests(DownstreamReply(params, env).response.content)[k]).success ==>
              HandleCallTool(params, env).outcome == Thrown(GuardFailed(OutputGuardFailedMessage))
  {
    var content := DownstreamReply(params, env).response.content;
    var requests := OutputRequests(content);
    var post := Screen(content, env.guard);
    ScreenSubmissions(content, env.guard);
    assert post.status != Passed;
    var m := |post.submitted| - 1;
    assert forall j | 0 <= j <= m :: post.submitted[j] == requests[j];
    assert m <= k;
    assert m >= k;
  }

  /** When every text item of the downstream result gets a clean verdict, all
      of them are submitted in order and the reply is the downstream result
      with the same fields and the same items in the same order: non-text
      items unchanged, text items keeping their type and other fields, each
      text replaced by its verdict's prompt text. */
  lemma {:induction false} OutputAllClean(params: CallParams, env: Collaborators)
    requires HandleCallTool(params, env).forwarded != []
    requires DownstreamReply(params, env).Returned?
    requires forall j | 0 <= j < |OutputRequests(DownstreamReply(params, env).response.content)| ::
               Clean(env.guard(OutputRequests(DownstreamReply(params, env).response.content)[j]))
    ensures HandleCallTool(params, env).submitted ==
              [InputRequest(params, env)] + OutputRequests(DownstreamReply(params, env).response.content)
    ensures HandleCallTool(params, env).outcome.Reply?
    ensures var before := DownstreamReply(params, env).response;
            var after := HandleCallTool(params, env).outcome.response;
            after.fields == before.fields
            && |after.content| == |before.content|
            && forall k | 0 <= k < |before.content| ::
                 after.content[k].kind == before.content[k].kind
                 && after.content[k].attrs == before.content[k].attrs
                 && (IsText(before.content[k]) ==>
                       after.content[k].text == env.guard(OutputRequest(before.content[k])).promptText)
                 && (!IsText(before.content[k]) ==> after.content[k] == before.content[k])
  {
    var content := DownstreamReply(params, env).response.content;
    ScreenPassesIffAllClean(content, env.guard);
    ScreenSubmissions(content, env.guard);
    ScreenPassedRewrites(content, env.guard);
  }

  /** The `tools/call` handler as the proxy runs it: guard the serialised
      arguments, forward the parsed prompt text downstream, then screen the
      result's content array in place and answer according to how the walk
      ended. Its outcome, guard submissions and downstream calls are those of
      HandleCallTool. */
  method GuardedCallTool(params: CallParams, env: Collaborators)
    returns (outcome: CallOutcome, ghost submitted: seq<GuardRequest>, ghost forwarded: seq<CallParams>)
    ensures outcome == HandleCallTool(params, env).outcome
    ensures submitted == HandleCallTool(params, env).submitted
    ensures forwarded == HandleCallTool(params, env).forwarded
  {
    var pre := InputRequest(params, env);
    var guardedInput := env.guard(pre);
    submitted, forwarded := [pre], [];
    if !guardedInput.success {
      return Thrown(GuardFailed(InputGuardFailedMessage)), submitted, forwarded;
    }
    if guardedInput.blocked {
      return Reply(TextResponse(InputBlockedMessage)), submitted, forwarded;
    }
    var parsed := env.parse(guardedInput.promptText);
    if parsed.None? {
      return Thrown(PromptTextNotJson), submitted, forwarded;
    }
    var request := params.(arguments := Some(parsed.value));
    var reply := env.callTool(request);
    forwarded := [request];
    if reply.Raised? {
      return Thrown(DownstreamFailed(reply.message)), submitted, forwarded;
    }
    var response := reply.response;
    var content := new ContentItem[|response.content|](k requires 0 <= k < |response.content| => response.content[k]);
    assert content[..] == response.content;
    var status, screened := ScreenInPlace(content, env.guard);
    submitted := submitted + screened;
    match status
    case Failed => outcome := Thrown(GuardFailed(OutputGuardFailedMessage));
    case Blocked => outcome := Reply(TextResponse(OutputBlockedMessage));
    case Passed => outcome := Reply(response.(content := content[..]));
    assert request == Forwarded(params, parsed.value);
  }
}
