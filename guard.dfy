/** The AI Guard service as the gateway sees it, and the post-call screening
    of a tool result: every text item, in result order, is submitted to the
    guard; the first failed or blocked verdict stops the walk, otherwise each
    text item's text is replaced by the verdict's prompt text. */
module Guard {
  import opened Protocol

  const PreToolRecipe := "pangea_agent_pre_tool_guard"
  const PostToolRecipe := "pangea_agent_post_tool_guard"

  /** A `guardText` request: the text to screen (absent when the serialised
      arguments were `undefined`) and the recipe to apply. */
  datatype GuardRequest = GuardRequest(text: Option<string>, recipe: string)

  /** A `guardText` reply: whether the call succeeded, whether the text is
      blocked, and the (possibly sanitised) prompt text. */
  datatype Verdict = Verdict(success: bool, blocked: bool, promptText: string)

  /** The guard service, an oracle from request to verdict. */
  type GuardService = GuardRequest -> Verdict

  /** A verdict that lets the walk continue. */
  predicate Clean(v: Verdict) { v.success && !v.blocked }

  function OutputRequest(c: ContentItem): GuardRequest
  {
    GuardRequest(Some(c.text), PostToolRecipe)
  }

  function Last<T>(s: seq<T>): T
    requires s != []
  {
    s[|s| - 1]
  }

  function Init<T>(s: seq<T>): seq<T>
    requires s != []
  {
    s[..|s| - 1]
  }

  /** The request for every text item of `s`, in order: what the walk submits
      when no verdict stops it. */
  function OutputRequests(s: seq<ContentItem>): (r: seq<GuardRequest>)
    ensures forall j | 0 <= j < |r| :: r[j].recipe == PostToolRecipe
    ensures (forall k | 0 <= k < |s| :: !IsText(s[k])) ==> r == []
    ensures (forall k | 0 <= k < |s| :: IsText(s[k])) ==> |r| == |s|
  {
    if s == [] then []
    else OutputRequests(Init(s)) + (if IsText(Last(s)) then [OutputRequest(Last(s))] else [])
  }

  /** The requests are exactly those of the text items: each request carries
      the text of some text item of `s`, and every text item has its request. */
  lemma {:induction false} OutputRequestsAreTextItems(s: seq<ContentItem>)
    ensures forall q | q in OutputRequests(s) :: exists c | c in s :: IsText(c) && q == OutputRequest(c)
    ensures forall c | c in s && IsText(c) :: OutputRequest(c) in OutputRequests(s)
  {
    if s != [] {
      OutputRequestsAreTextItems(Init(s));
      assert forall c | c in s :: c in Init(s) || c == Last(s);
      assert forall c | c in Init(s) :: c in s;
    }
  }

  datatype Status = Passed | Blocked | Failed

  /** State of the walk: its status, the items rewritten so far and the
      requests submitted so far. */
  datatype Screening = Screening(status: Status, items: seq<ContentItem>, submitted: seq<GuardRequest>)

  /** One iteration of the walk over `item`, after a walk that has passed. */
  function Step(done: Screening, item: ContentItem, guard: GuardService): Screening
  {
    if !IsText(item) then done.(items := done.items + [item])
    else
      var v := guard(OutputRequest(item));
      var submitted := done.submitted + [OutputRequest(item)];
      if !v.success then Screening(Failed, done.items, submitted)
      else if v.blocked then Screening(Blocked, done.items, submitted)
      else Screening(Passed, done.items + [item.(text := v.promptText)], submitted)
  }

  /** The walk over the items of `s` in order, as a fold that stops at the
      first failed or blocked verdict. */
  function Screen(s: seq<ContentItem>, guard: GuardService): (r: Screening)
    ensures |r.items| <= |s| && |r.submitted| <= |s|
    ensures r.status == Passed ==> |r.items| == |s|
    ensures r.status != Passed ==> r.submitted != []
  {
    if s == [] then Screening(Passed, [], [])
    else
      var done := Screen(Init(s), guard);
      if done.status != Passed then done else Step(done, Last(s), guard)
  }

  /** Once the walk has stopped, later items change nothing. */
  lemma {:induction false} ScreenStops(s: seq<ContentItem>, n: nat, m: nat, guard: GuardService)
    requires n <= m <= |s|
    requires Screen(s[..n], guard).status != Passed
    ensures Screen(s[..m], guard) == Screen(s[..n], guard)
    decreases m
  {
    if m > n {
      ScreenStops(s, n, m - 1, guard);
      assert Init(s[..m]) == s[..m - 1];
    }
  }

  /** A walk that passes keeps every item and its order: non-text items are
      untouched, and each text item keeps its type and other fields while its
      text becomes the prompt text of its verdict. */
  lemma {:induction false} ScreenPassedRewrites(s: seq<ContentItem>, guard: GuardService)
    requires Screen(s, guard).status == Passed
    ensures |Screen(s, guard).items| == |s|
    ensures forall k | 0 <= k < |s| ::
              Screen(s, guard).items[k].kind == s[k].kind
              && Screen(s, guard).items[k].attrs == s[k].attrs
              && (IsText(s[k]) ==> Screen(s, guard).items[k].text == guard(OutputRequest(s[k])).promptText)
              && (!IsText(s[k]) ==> Screen(s, guard).items[k] == s[k])
  {
    if s != [] {
      ScreenPassedRewrites(Init(s), guard);
      var r := Screen(s, guard);
      assert forall k | 0 <= k < |s| - 1 :: s[k] == Init(s)[k];
    }
  }

  /** Only text items are submitted, in result order, and the submissions
      stop exactly at the first verdict that is not clean: every submission
      but the last is clean; the walk passes only when every text item was
      submitted with a clean verdict; otherwise the last submission's verdict
      decides between a failure and a block. */
  lemma {:induction false} ScreenSubmissions(s: seq<ContentItem>, guard: GuardService)
    ensures Screen(s, guard).submitted <= OutputRequests(s)
    ensures forall j | 0 <= j < |Screen(s, guard).submitted| - 1 :: Clean(guard(Screen(s, guard).submitted[j]))
    ensures Screen(s, guard).status == Passed ==>
              Screen(s, guard).submitted == OutputRequests(s)
              && forall j | 0 <= j < |OutputRequests(s)| :: Clean(guard(OutputRequests(s)[j]))
    ensures Screen(s, guard).status == Failed ==>
              Screen(s, guard).submitted != [] && !guard(Last(Screen(s, guard).submitted)).success
    ensures Screen(s, guard).status == Blocked ==>
              Screen(s, guard).submitted != []
              && guard(Last(Screen(s, guard).submitted)).success
              && guard(Last(Screen(s, guard).submitted)).blocked
  {
    if s != [] {
      ScreenSubmissions(Init(s), guard);
    }
  }

  /** The walk passes if and only if every text item's verdict is clean. */
  lemma ScreenPassesIffAllClean(s: seq<ContentItem>, guard: GuardService)
    ensures Screen(s, guard).status == Passed <==>
              forall j | 0 <= j < |OutputRequests(s)| :: Clean(guard(OutputRequests(s)[j]))
  {
    ScreenSubmissions(s, guard);
    var r := Screen(s, guard);
    if r.status != Passed {
      var j := |r.submitted| - 1;
      assert OutputRequests(s)[j] == r.submitted[j];
    }
  }

  /** The post-call loop as the proxy runs it: walk the content array in
      order, submit each text item to the guard, stop at the first failed or
      blocked verdict, and otherwise overwrite the item's text in place with
      the verdict's prompt text. Non-text items are skipped, which gives the
      order and the shared items of the filtered array the proxy iterates
      over. On a pass the array holds the items of the fold. */
  method ScreenInPlace(content: array<ContentItem>, guard: GuardService)
    returns (status: Status, ghost submitted: seq<GuardRequest>)
    modifies content
    ensures status == Screen(old(content[..]), guard).status
    ensures submitted == Screen(old(content[..]), guard).submitted
    ensures status == Passed ==> content[..] == Screen(old(content[..]), guard).items
  {
    ghost var original := content[..];
    submitted := [];
    var i := 0;
    while i < content.Length
      invariant 0 <= i <= content.Length == |original|
      invariant Screen(original[..i], guard).status == Passed
      invariant content[..i] == Screen(original[..i], guard).items
      invariant forall k | i <= k < content.Length :: content[k] == original[k]
      invariant submitted == Screen(original[..i], guard).submitted
    {
      assert Init(original[..i + 1]) == original[..i];
      assert Last(original[..i + 1]) == content[i];
      var contentItem := content[i];
      if contentItem.kind == TextKind {
        var request := GuardRequest(Some(contentItem.text), PostToolRecipe);
        var guardedOutput := guard(request);
        submitted := submitted + [request];
        if !guardedOutput.success || guardedOutput.blocked {
          ScreenStops(original, i + 1, |original|, guard);
          assert original[..|original|] == original;
          return if !guardedOutput.success then Failed else Blocked, submitted;
        }
        content[i] := contentItem.(text := guardedOutput.promptText);
      }
      i := i + 1;
    }
    assert original[..i] == original;
    assert content[..] == content[..i];
    status := Passed;
  }
}
